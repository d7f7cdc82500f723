/**
  The MCU driver services: initialisation, RAM sections, clock programming,
  PLL status, reset reason and raw value, software reset, mode setting, the
  two clock-failure interrupt handlers, and the system and peripheral clock
  queries. Every service takes the driver record and the hardware readings
  it needs, and gives back the record afterwards, the Det reports it made,
  the register actions it performed and its return value.
 */
module Mcu {
  import opened McuTypes
  import Identify
  import Clock
  import Peripheral
  import Reset

  /** `Mcu_PllStatusType`. */
  datatype PllStatus = PllLocked | PllUnlocked | PllStatusUndefined

  // ---------------------------------------------------------------------
  // Mode entry (560x): a mode request is written to ME.MCTL twice, first
  // with the key and then with the inverted key.

  const MCTL_KEY: nat := 0x5AF0
  const MCTL_INVERTED_KEY: nat := 0xA50F
  /** `ME.GS.S_CURRENTMODE` values: RESET and RUN0. */
  const MODE_RESET: nat := 0
  const MODE_RUN0: nat := 4

  /** An `ME.MCTL` word: the target mode in bits 28-31, the key in bits 0-15. */
  function MctlWord(mode: nat, key: nat): nat {
    mode * 0x1000_0000 + key
  }

  /** The key and the inverted key are bitwise complements in 16 bits, and
      the MCTL words the driver writes are the keyed requests for RUN0 and
      RESET. */
  lemma MctlWords()
    ensures MCTL_KEY + MCTL_INVERTED_KEY == 0xFFFF
    ensures MctlWord(MODE_RUN0, MCTL_KEY) == 0x4000_5AF0
    ensures MctlWord(MODE_RUN0, MCTL_INVERTED_KEY) == 0x4000_A50F
    ensures MctlWord(MODE_RESET, MCTL_KEY) == 0x0000_5AF0
    ensures MctlWord(MODE_RESET, MCTL_INVERTED_KEY) == 0x0000_A50F
  {
  }

  /** An MCTL word gives back its mode and its key. */
  lemma MctlWordFields(mode: nat, key: nat)
    requires key < 0x1_0000
    ensures MctlWord(mode, key) / 0x1000_0000 == mode
    ensures MctlWord(mode, key) % 0x1_0000 == key
  {
  }

  /** The mode-entry sequence: key, inverted key, then wait until the
      transition is over and the target mode is current. */
  function ModeEntry(mode: nat): seq<HwAction> {
    [ModeControl(MctlWord(mode, MCTL_KEY)), ModeControl(MctlWord(mode, MCTL_INVERTED_KEY)),
     AwaitModeTransition, AwaitCurrentMode(mode)]
  }

  /** `hw` requests `mode` with the key protocol: somewhere a keyed write
      is immediately followed by the inverted-key write for the same mode,
      and each `ME.MCTL` write in `hw` is for `mode`. */
  predicate KeyedModeRequest(hw: seq<HwAction>, mode: nat) {
    && (exists i :: 0 <= i < |hw| - 1
          && hw[i] == ModeControl(MctlWord(mode, MCTL_KEY))
          && hw[i + 1] == ModeControl(MctlWord(mode, MCTL_INVERTED_KEY)))
    && (forall i :: 0 <= i < |hw| && hw[i].ModeControl? ==> hw[i].word / 0x1000_0000 == mode)
  }

  // ---------------------------------------------------------------------
  // Mcu_Init

  /** The interrupt vector that carries each clock-failure flag. */
  function FlagVector(f: ClockFailure): Vector {
    match f
    case LossOfLock => PllSynsrLolf
    case LossOfClock => PllSynsrLocf
  }

  /** The parts that have an interrupt enable for the clock-failure flags
      (`ESYNCR2` on the 5516/5668, `SYNCR` on the 5554/5567). */
  predicate HasClockFailureIrq(v: Variant) {
    HasEsyncr(v) || v == MPC5554 || v == MPC5567
  }

  /** The handler installation of `Mcu_Init`, with the loss-of-clock
      handler placed on `clockVector`. */
  function ClockFailureIsrs(v: Variant, clockVector: Vector): seq<HwAction> {
    [InstallIsr(LossOfLock, PllSynsrLolf)]
    + (if HasClockFailureIrq(v) then [EnableIrq(LossOfLock)] else [])
    + [InstallIsr(LossOfClock, clockVector)]
    + (if HasClockFailureIrq(v) then [EnableIrq(LossOfClock)] else [])
  }

  /** Each handler installed in `hw` sits on the vector of its own flag. */
  predicate IsrsRouted(hw: seq<HwAction>) {
    forall i :: 0 <= i < |hw| && hw[i].InstallIsr? ==> hw[i].vector == FlagVector(hw[i].handler)
  }

  /** The installation as written: both handlers on `PLL_SYNSR_LOLF`. */
  function IsrsAsWritten(v: Variant): (hw: seq<HwAction>)
    ensures InstallIsr(LossOfLock, PllSynsrLolf) in hw && InstallIsr(LossOfClock, PllSynsrLolf) in hw
    ensures InstallsOnlyOn(hw, PllSynsrLolf)
  {
    var hw := ClockFailureIsrs(v, PllSynsrLolf);
    assert hw[if HasClockFailureIrq(v) then 2 else 1] == InstallIsr(LossOfClock, PllSynsrLolf);
    hw
  }

  /** The installation the model uses: the loss-of-clock handler on
      `PLL_SYNSR_LOCF`. */
  function Isrs(v: Variant): (hw: seq<HwAction>)
    ensures IsrsRouted(hw)
    ensures InstallIsr(LossOfLock, PllSynsrLolf) in hw && InstallIsr(LossOfClock, PllSynsrLocf) in hw
  {
    ClockFailureIsrs(v, FlagVector(LossOfClock))
  }

  /** As written, the loss-of-clock handler is installed on the loss-of-lock
      vector, the vector that already carries `Mcu_LossOfLock`: no handler
      is attached to the loss-of-clock flag at all. The corrected
      installation differs in that one action only. */
  lemma IsrVectorAsWritten(v: Variant)
    ensures !IsrsRouted(IsrsAsWritten(v))
    ensures InstallIsr(LossOfLock, PllSynsrLolf) in IsrsAsWritten(v)
    ensures InstallIsr(LossOfClock, PllSynsrLolf) in IsrsAsWritten(v)
    ensures InstallsOnlyOn(IsrsAsWritten(v), PllSynsrLolf)
    ensures |IsrsAsWritten(v)| == |Isrs(v)|
    ensures forall i :: 0 <= i < |Isrs(v)| && IsrsAsWritten(v)[i] != Isrs(v)[i] ==>
              IsrsAsWritten(v)[i] == InstallIsr(LossOfClock, PllSynsrLolf)
              && Isrs(v)[i] == InstallIsr(LossOfClock, PllSynsrLocf)
  {
    var hw := IsrsAsWritten(v);
    var k := if HasClockFailureIrq(v) then 2 else 1;
    assert hw[k] == InstallIsr(LossOfClock, PllSynsrLolf);
  }

  /** Every handler installed in `hw` sits on `vector`. */
  predicate InstallsOnlyOn(hw: seq<HwAction>, vector: Vector) {
    forall i :: 0 <= i < |hw| && hw[i].InstallIsr? ==> hw[i].vector == vector
  }

  /** The register actions of a successful `Mcu_Init` after the silicon
      check: watchdog off (560x, before the check), flash set-up, run modes
      enabled (560x), CMU_0 initialised (MPC5604P), and the clock-failure
      handlers as written when notification is configured (not on 560x):
      both on the loss-of-lock vector. */
  function InitActions(v: Variant, notify: bool): (hw: seq<HwAction>)
    ensures ConfigureFlash in hw
    ensures InstallsIsr(hw) <==> notify && !Is560X(v)
    ensures notify && !Is560X(v) ==>
              InstallIsr(LossOfLock, PllSynsrLolf) in hw && InstallIsr(LossOfClock, PllSynsrLolf) in hw
    ensures InstallsOnlyOn(hw, PllSynsrLolf)
  {
    var pre := (if Is560X(v) then [DisableWatchdog] else [])
      + [ConfigureFlash]
      + (if Is560X(v) then [EnableRunModes] else [])
      + (if v == MPC5604P then [InitCmu0] else []);
    assert !InstallsIsr(pre);
    var isrs := if notify && !Is560X(v) then IsrsAsWritten(v) else [];
    IsrVectorAsWritten(v);
    assert InstallsIsr(isrs) <==> notify && !Is560X(v) by {
      if notify && !Is560X(v) {
        assert isrs[0].InstallIsr?;
      }
    }
    InstallsIsrAppend(pre, isrs);
    assert notify && !Is560X(v) ==>
             InstallIsr(LossOfLock, PllSynsrLolf) in pre + isrs && InstallIsr(LossOfClock, PllSynsrLolf) in pre + isrs;
    pre + isrs
  }

  /** Some handler is installed in `hw`. */
  predicate InstallsIsr(hw: seq<HwAction>) {
    exists i :: 0 <= i < |hw| && hw[i].InstallIsr?
  }

  lemma InstallsIsrAppend(a: seq<HwAction>, b: seq<HwAction>)
    ensures InstallsIsr(a + b) <==> InstallsIsr(a) || InstallsIsr(b)
    ensures forall vec :: InstallsOnlyOn(a, vec) && InstallsOnlyOn(b, vec) ==> InstallsOnlyOn(a + b, vec)
  {
    if InstallsIsr(a + b) {
      var i :| 0 <= i < |a + b| && (a + b)[i].InstallIsr?;
      if i >= |a| {
        assert b[i - |a|].InstallIsr?;
      }
    }
    if InstallsIsr(a) {
      var i :| 0 <= i < |a| && a[i].InstallIsr?;
      assert (a + b)[i].InstallIsr?;
    }
    if InstallsIsr(b) {
      var i :| 0 <= i < |b| && b[i].InstallIsr?;
      assert (a + b)[i + |a|].InstallIsr?;
    }
  }

  /** `Mcu_Init(configPtr)`; `cfg == None` stands for a NULL pointer,
      `simulator` for `SIMULATOR()` and `pvr` for the PVR register. */
  function Init(s: McuState, v: Variant, cfg: Option<McuConfig>, simulator: bool, pvr: U32): (r: Outcome<Effect<()>>)
    ensures cfg.None? ==> r.Done? && Rejected(r.result, s, InitService, ParamConfig, ())
    ensures r.Halted? <==> cfg.Some? && !simulator && pvr !in Identify.AcceptedPvrs(v)
    ensures !r.AssertFailed?
    ensures r.Done? && cfg.Some? ==>
              && Accepted(r.result)
              && r.result.state == McuState(true, cfg.value, s.clockSetting, Stats(0, 0))
              && ConfigureFlash in r.result.hw
              && InstallsOnlyOn(r.result.hw, PllSynsrLolf)
              && (InstallsIsr(r.result.hw) <==> cfg.value.clockSrcFailureNotification && !Is560X(v))
              && (cfg.value.clockSrcFailureNotification && !Is560X(v) ==>
                    InstallIsr(LossOfClock, PllSynsrLolf) in r.result.hw)
  {
    if cfg.None? then Done(Reject(s, InitService, ParamConfig, ()))
    else
      Identify.CheckCpuAccepts(v, pvr);
      var check := if simulator then Done(0) else Identify.CheckCpu(v, pvr);
      if check.Halted? then Halted
      else
        var c := cfg.value;
        var hw := InitActions(v, c.clockSrcFailureNotification);
        Done(Effect(McuState(true, c, s.clockSetting, Stats(0, 0)), [], hw, ()))
  }

  /** `Mcu_DeInit`: clears the initialised flag and nothing else. */
  function DeInit(s: McuState): (r: Effect<()>)
    ensures !r.state.initRun && Accepted(r) && r.hw == []
    ensures r.state.config == s.config && r.state.clockSetting == s.clockSetting && r.state.stats == s.stats
  {
    Effect(s.(initRun := false), [], [], ())
  }

  // ---------------------------------------------------------------------
  // Mcu_InitRamSection

  /** `Mcu_InitRamSection`: both checks, then nothing (external RAM is not
      supported). The bound admits `RamSection == McuRamSectors`. */
  function InitRamSection(s: McuState, section: nat): (r: Effect<StdReturn>)
    ensures r.state == s && r.hw == []
    ensures !s.initRun ==> Rejected(r, s, InitRamSectionService, Uninit, ENotOk)
    ensures s.initRun && section > s.config.ramSectors ==> Rejected(r, s, InitRamSectionService, ParamRamSection, ENotOk)
    ensures r.value == EOk <==> s.initRun && section <= s.config.ramSectors
    ensures r.value == EOk <==> Accepted(r)
  {
    if !s.initRun then Reject(s, InitRamSectionService, Uninit, ENotOk)
    else if section > s.config.ramSectors then Reject(s, InitRamSectionService, ParamRamSection, ENotOk)
    else Effect(s, [], [], EOk)
  }

  /** The bound is inclusive: the section numbered `McuRamSectors` itself
      is accepted, and the first one above it is refused. */
  lemma RamSectionBoundInclusive(s: McuState)
    requires s.initRun
    ensures InitRamSection(s, s.config.ramSectors).value == EOk
    ensures InitRamSection(s, s.config.ramSectors + 1).det == [DetReport(InitRamSectionService, ParamRamSection)]
  {
  }

  // ---------------------------------------------------------------------
  // Mcu_InitClock

  /** The register actions `Mcu_InitClock` performs for clock setting `cs`:
      - 5516/5668: a transitional post-divider, crystal mode, pre-divider
        and multiplier, wait for lock, the final post-divider, then the PLL
        becomes the system clock;
      - 560x: the three divider fields, the RUN0 configuration, the keyed
        transition to RUN0, the peripheral clock sets (three on the B parts,
        four on the 5606S/5604P) and, on the B parts, two pin routings;
      - 5554/5567: PLL interrupts off, the three divider fields, wait for
        lock, loss-of-lock interrupt on;
      - 5633: nothing. */
  function ClockProgramming(v: Variant, cs: ClockSetting): (hw: seq<HwAction>)
    ensures hw == [] <==> v == MPC5633
  {
    if HasEsyncr(v) then
      [WritePostDivider(Clock.TransitionalPostDivider(cs.pll3)), SelectCrystalMode,
       WritePreDivider(cs.pll1), WriteMultiplier(cs.pll2), AwaitPllLock,
       WritePostDivider(cs.pll3), SelectPllSystemClock]
    else if Is560X(v) then
      [WritePreDivider(cs.pll1), WriteMultiplier(cs.pll2), WritePostDivider(cs.pll3), ConfigureRun0]
      + ModeEntry(MODE_RUN0)
      + [EnablePeripheralSets(if Is560XB(v) then 3 else 4)]
      + (if Is560XB(v) then [RoutePins] else [])
    else if v == MPC5554 || v == MPC5567 then
      [DisablePllInterrupts, WritePreDivider(cs.pll1), WriteMultiplier(cs.pll2),
       WritePostDivider(cs.pll3), AwaitPllLock, EnableIrq(LossOfLock)]
    else
      []
  }

  /** The PLL divider fields after action `a`. */
  function Apply(regs: Clock.PllRegs, a: HwAction): Clock.PllRegs {
    match a
    case WritePreDivider(x) => regs.(prediv := x)
    case WriteMultiplier(x) => regs.(mfd := x)
    case WritePostDivider(x) => regs.(rfd := x)
    case _ => regs
  }

  /** The PLL divider fields after the first `k` actions of `hw`, starting
      from `regs`. */
  function Replay(regs: Clock.PllRegs, hw: seq<HwAction>, k: nat): Clock.PllRegs
    requires k <= |hw|
  {
    if k == 0 then regs else Apply(Replay(regs, hw, k - 1), hw[k - 1])
  }

  /** `a` writes no divider field. */
  predicate KeepsDividers(a: HwAction) {
    !a.WritePreDivider? && !a.WriteMultiplier? && !a.WritePostDivider?
  }

  /** Actions that write no divider field leave the fields alone. */
  lemma {:induction false} ReplayKeeps(regs: Clock.PllRegs, hw: seq<HwAction>, from: nat, k: nat)
    requires from <= k <= |hw|
    requires forall i :: from <= i < |hw| ==> KeepsDividers(hw[i])
    ensures Replay(regs, hw, k) == Replay(regs, hw, from)
    decreases k
  {
    if k > from {
      ReplayKeeps(regs, hw, from, k - 1);
    }
  }

  /** After `Mcu_InitClock` the PLL holds exactly the selected setting's
      dividers, on every part except the MPC5633, whose PLL is not touched. */
  lemma ClockProgrammingLeavesSetting(v: Variant, cs: ClockSetting, regs: Clock.PllRegs)
    ensures var hw := ClockProgramming(v, cs);
            v != MPC5633 ==> Replay(regs, hw, |hw|) == Clock.PllRegs(cs.pll1, cs.pll2, cs.pll3)
    ensures var hw := ClockProgramming(v, cs);
            v == MPC5633 ==> Replay(regs, hw, |hw|) == regs
  {
    var hw := ClockProgramming(v, cs);
    var p := Clock.PllRegs(cs.pll1, cs.pll2, cs.pll3);
    if HasEsyncr(v) {
      var t := Clock.TransitionalPostDivider(cs.pll3);
      assert Replay(regs, hw, 1) == regs.(rfd := t);
      assert Replay(regs, hw, 2) == regs.(rfd := t);
      assert Replay(regs, hw, 3) == regs.(rfd := t, prediv := cs.pll1);
      assert Replay(regs, hw, 4) == Clock.PllRegs(cs.pll1, cs.pll2, t);
      assert Replay(regs, hw, 5) == Clock.PllRegs(cs.pll1, cs.pll2, t);
      assert Replay(regs, hw, 6) == p;
    } else if Is560X(v) {
      assert Replay(regs, hw, 1) == regs.(prediv := cs.pll1);
      assert Replay(regs, hw, 2) == regs.(prediv := cs.pll1, mfd := cs.pll2);
      assert Replay(regs, hw, 3) == p;
      ReplayKeeps(regs, hw, 3, |hw|);
    } else if v == MPC5554 || v == MPC5567 {
      assert Replay(regs, hw, 1) == regs;
      assert Replay(regs, hw, 2) == regs.(prediv := cs.pll1);
      assert Replay(regs, hw, 3) == regs.(prediv := cs.pll1, mfd := cs.pll2);
      assert Replay(regs, hw, 4) == p;
      assert Replay(regs, hw, 5) == p;
      assert Replay(regs, hw, 6) == p;
    }
  }

  /** On the 5516/5668 the PLL locks with the transitional post-divider in
      place, which divides more than the final one; the final one is
      written only after the lock. On the 560x the RUN0 transition uses the
      key protocol. */
  lemma ClockProgrammingOrder(v: Variant, cs: ClockSetting, regs: Clock.PllRegs)
    ensures HasEsyncr(v) ==>
              && ClockProgramming(v, cs)[4] == AwaitPllLock
              && Replay(regs, ClockProgramming(v, cs), 4).rfd == Clock.TransitionalPostDivider(cs.pll3)
              && Clock.TransitionalPostDivider(cs.pll3) > cs.pll3
    ensures Is560X(v) ==> KeyedModeRequest(ClockProgramming(v, cs), MODE_RUN0)
  {
    var hw := ClockProgramming(v, cs);
    if HasEsyncr(v) {
      assert Replay(regs, hw, 1).rfd == Clock.TransitionalPostDivider(cs.pll3);
      assert Replay(regs, hw, 2).rfd == Clock.TransitionalPostDivider(cs.pll3);
    } else if Is560X(v) {
      MctlWordFields(MODE_RUN0, MCTL_KEY);
      MctlWordFields(MODE_RUN0, MCTL_INVERTED_KEY);
      assert hw[4] == ModeControl(MctlWord(MODE_RUN0, MCTL_KEY));
      assert hw[5] == ModeControl(MctlWord(MODE_RUN0, MCTL_INVERTED_KEY));
    }
  }

  /** `Mcu_InitClock(ClockSetting)`. A failed range check is a failed
      `assert`. */
  function InitClock(s: McuState, v: Variant, i: nat): (r: Outcome<Effect<StdReturn>>)
    ensures !r.Halted?
    ensures !s.initRun ==> r.Done? && Rejected(r.result, s, InitClockService, Uninit, ENotOk)
    ensures s.initRun && i >= |s.config.clockSettings| ==>
              r.Done? && Rejected(r.result, s, InitClockService, ParamClock, ENotOk)
    ensures r.AssertFailed? <==>
              s.initRun && i < |s.config.clockSettings| && !Clock.RangeChecksPass(v, s.config.clockSettings[i])
    ensures r.Done? ==> (r.result.value == EOk <==> s.initRun && i < |s.config.clockSettings|)
    ensures r.Done? && r.result.value == EOk ==>
              && Accepted(r.result)
              && r.result.state == s.(clockSetting := i)
              && r.result.hw == ClockProgramming(v, s.config.clockSettings[i])
              && (v == MPC5633 <==> r.result.hw == [])
              && (v != MPC5633 ==> Replay(Clock.PllRegs(0, 0, 0), r.result.hw, |r.result.hw|)
                                     == Clock.PllRegs(s.config.clockSettings[i].pll1,
                                                      s.config.clockSettings[i].pll2,
                                                      s.config.clockSettings[i].pll3))
              && (HasEsyncr(v) ==>
                    && r.result.hw[4] == AwaitPllLock
                    && Replay(Clock.PllRegs(0, 0, 0), r.result.hw, 4).rfd
                       == Clock.TransitionalPostDivider(s.config.clockSettings[i].pll3)
                    && r.result.hw[5] == WritePostDivider(s.config.clockSettings[i].pll3))
  {
    if !s.initRun then Done(Reject(s, InitClockService, Uninit, ENotOk))
    else if i >= |s.config.clockSettings| then Done(Reject(s, InitClockService, ParamClock, ENotOk))
    else
      var cs := s.config.clockSettings[i];
      if !Clock.RangeChecksPass(v, cs) then AssertFailed
      else
        ClockProgrammingLeavesSetting(v, cs, Clock.PllRegs(0, 0, 0));
        ClockProgrammingOrder(v, cs, Clock.PllRegs(0, 0, 0));
        Done(Effect(s.(clockSetting := i), [], ClockProgramming(v, cs), EOk))
  }

  // ---------------------------------------------------------------------
  // PLL status

  /** `Mcu_DistributePllClock`: both checks, then nothing. `lockBit` is the
      PLL lock flag of the part. */
  function DistributePllClock(s: McuState, lockBit: bool): (r: Effect<()>)
    ensures r.state == s && r.hw == []
    ensures !s.initRun ==> Rejected(r, s, DistributePllClockService, Uninit, ())
    ensures s.initRun && !lockBit ==> Rejected(r, s, DistributePllClockService, PllNotLocked, ())
    ensures Accepted(r) <==> s.initRun && lockBit
  {
    if !s.initRun then Reject(s, DistributePllClockService, Uninit, ())
    else if !lockBit then Reject(s, DistributePllClockService, PllNotLocked, ())
    else Effect(s, [], [], ())
  }

  /** `Mcu_GetPllStatus`: on the simulator the PLL always reads locked. */
  function GetPllStatus(s: McuState, simulator: bool, lockBit: bool): (r: Effect<PllStatus>)
    ensures r.state == s && r.hw == []
    ensures !s.initRun ==> Rejected(r, s, GetPllStatusService, Uninit, PllStatusUndefined)
    ensures s.initRun ==> Accepted(r)
    ensures r.value == PllLocked <==> s.initRun && (simulator || lockBit)
    ensures r.value == PllUnlocked <==> s.initRun && !simulator && !lockBit
  {
    if !s.initRun then Reject(s, GetPllStatusService, Uninit, PllStatusUndefined)
    else if simulator then Effect(s, [], [], PllLocked)
    else if !lockBit then Effect(s, [], [], PllUnlocked)
    else Effect(s, [], [], PllLocked)
  }

  /** Off the simulator, the status service and the distribution check
      agree: the clock may be distributed exactly when the status reads
      locked. On the simulator the two can disagree. */
  lemma PllStatusAgreesWithDistribution(s: McuState, lockBit: bool)
    requires s.initRun
    ensures GetPllStatus(s, false, lockBit).value == PllLocked <==> Accepted(DistributePllClock(s, lockBit))
    ensures GetPllStatus(s, true, false).value == PllLocked && !Accepted(DistributePllClock(s, false))
  {
  }

  // ---------------------------------------------------------------------
  // Reset

  /** `Mcu_GetResetReason`. */
  function GetResetReason(s: McuState, v: Variant, regs: Reset.ResetRegs): (r: Effect<Reset.ResetReason>)
    ensures r.state == s && r.hw == []
    ensures !s.initRun ==> Rejected(r, s, GetResetReasonService, Uninit, Reset.ResetUndefined)
    ensures s.initRun ==> Accepted(r) && r.value == Reset.DecodeReason(v, regs)
  {
    if !s.initRun then Reject(s, GetResetReasonService, Uninit, Reset.ResetUndefined)
    else Effect(s, [], [], Reset.DecodeReason(v, regs))
  }

  /** `Mcu_GetResetRawValue`; `uninitValue` is
      `MCU_GETRESETRAWVALUE_UNINIT_RV`. The gate reports under the
      reset-reason service id, and the second `initRun` test can never
      fire after it. */
  function GetResetRawValue(s: McuState, v: Variant, regs: Reset.ResetRegs, uninitValue: U32): (r: Effect<U32>)
    ensures r.state == s && r.hw == []
    ensures !s.initRun ==> Rejected(r, s, GetResetReasonService, Uninit, uninitValue)
    ensures s.initRun ==> Accepted(r) && r.value == Reset.RawValue(v, regs)
  {
    if !s.initRun then Reject(s, GetResetReasonService, Uninit, uninitValue)
    else if !s.initRun then Effect(s, [], [], uninitValue)
    else Effect(s, [], [], Reset.RawValue(v, regs))
  }

  /** `Mcu_PerformReset`: a keyed transition to the RESET mode on the 560x,
      the software system reset `SIU.SRCR.SSR` elsewhere. */
  function PerformReset(s: McuState, v: Variant): (r: Effect<()>)
    ensures r.state == s
    ensures !s.initRun ==> Rejected(r, s, PerformResetService, Uninit, ())
    ensures s.initRun ==> Accepted(r)
    ensures s.initRun && Is560X(v) ==> KeyedModeRequest(r.hw, MODE_RESET) && r.hw[|r.hw| - 1] == AwaitCurrentMode(MODE_RESET)
    ensures s.initRun && !Is560X(v) ==> r.hw == [SoftwareReset]
  {
    if !s.initRun then Reject(s, PerformResetService, Uninit, ())
    else if Is560X(v) then
      MctlWordFields(MODE_RESET, MCTL_KEY);
      MctlWordFields(MODE_RESET, MCTL_INVERTED_KEY);
      var hw := ModeEntry(MODE_RESET);
      assert hw[0] == ModeControl(MctlWord(MODE_RESET, MCTL_KEY));
      assert hw[1] == ModeControl(MctlWord(MODE_RESET, MCTL_INVERTED_KEY));
      Effect(s, [], hw, ())
    else Effect(s, [], [SoftwareReset], ())
  }

  /** `Mcu_SetMode`: the gate only; the mode argument is ignored. */
  function SetMode(s: McuState, mode: nat): (r: Effect<()>)
    ensures r.state == s && r.hw == []
    ensures !s.initRun ==> Rejected(r, s, SetModeService, Uninit, ())
    ensures Accepted(r) <==> s.initRun
  {
    if !s.initRun then Reject(s, SetModeService, Uninit, ())
    else Effect(s, [], [], ())
  }

  // ---------------------------------------------------------------------
  // Clock-failure interrupt handlers

  /** The other clock-failure source. */
  function Other(f: ClockFailure): (g: ClockFailure)
    ensures g != f
  {
    if f == LossOfLock then LossOfClock else LossOfLock
  }

  /** The counter of source `f`. */
  function Count(st: Stats, f: ClockFailure): U32 {
    match f
    case LossOfLock => st.lossOfLockCnt
    case LossOfClock => st.lossOfClockCnt
  }

  /** `Mcu_LossOfLock` (`f == LossOfLock`) and `Mcu_LossOfClock`
      (`f == LossOfClock`): no gate; on the 560x nothing happens, elsewhere
      the matching counter goes up by one modulo 2^32 and the flag is
      cleared. */
  function OnClockFailure(s: McuState, v: Variant, f: ClockFailure): (r: Effect<()>)
    ensures Accepted(r)
    ensures r.state.initRun == s.initRun && r.state.config == s.config && r.state.clockSetting == s.clockSetting
    ensures Is560X(v) ==> r.state == s && r.hw == []
    ensures !Is560X(v) ==> r.hw == [ClearFlag(f)]
    ensures !Is560X(v) ==> Count(r.state.stats, f) == Wrap32(Count(s.stats, f) + 1)
    ensures !Is560X(v) && Count(s.stats, f) + 1 < U32_LIMIT ==> Count(r.state.stats, f) == Count(s.stats, f) + 1
    ensures Count(r.state.stats, Other(f)) == Count(s.stats, Other(f))
  {
    if Is560X(v) then Effect(s, [], [], ())
    else
      var st := match f
        case LossOfLock => s.stats.(lossOfLockCnt := Wrap32(s.stats.lossOfLockCnt + 1))
        case LossOfClock => s.stats.(lossOfClockCnt := Wrap32(s.stats.lossOfClockCnt + 1));
      Effect(s.(stats := st), [], [ClearFlag(f)], ())
  }

  // ---------------------------------------------------------------------
  // Clock queries

  /** `McuE_GetSystemClock`: the formula the preprocessor selects for the
      build, applied to the live divider fields `regs` and the reference
      frequency of the current clock setting. No gate; the caller must keep
      `clockSetting` inside the table, which C would index out of bounds. */
  function GetSystemClock(s: McuState, v: Variant, regs: Clock.PllRegs): (r: U32)
    requires s.clockSetting < |s.config.clockSettings|
    ensures var extal := s.config.clockSettings[s.clockSetting].referenceFrequency;
            Clock.Numerator(Clock.FormulaAsWritten(v), extal, regs.mfd) < U32_LIMIT ==>
              r == Clock.ExactClock(Clock.FormulaAsWritten(v), extal, regs)
    ensures var extal := s.config.clockSettings[s.clockSetting].referenceFrequency;
            var f := Clock.FormulaAsWritten(v);
            && r * Clock.Denominator(f, regs.prediv, regs.rfd) <= Wrap32(Clock.Numerator(f, extal, regs.mfd))
            && Wrap32(Clock.Numerator(f, extal, regs.mfd)) < (r + 1) * Clock.Denominator(f, regs.prediv, regs.rfd)
  {
    Clock.CalcSystemClock(Clock.FormulaAsWritten(v), s.config.clockSettings[s.clockSetting].referenceFrequency, regs)
  }

  /** The system clock with the formula the documentation block gives each
      part, the MPC5633 computed in 5567 legacy mode. */
  function GetSystemClockDocumented(s: McuState, v: Variant, regs: Clock.PllRegs): (r: U32)
    requires s.clockSetting < |s.config.clockSettings|
    ensures var extal := s.config.clockSettings[s.clockSetting].referenceFrequency;
            Clock.Numerator(Clock.FormulaOf(v), extal, regs.mfd) < U32_LIMIT ==>
              r == Clock.ExactClock(Clock.FormulaOf(v), extal, regs)
  {
    Clock.CalcSystemClock(Clock.FormulaOf(v), s.config.clockSettings[s.clockSetting].referenceFrequency, regs)
  }

  /** The compiled and the documented system clock agree on every part but
      the MPC5633, where 40 MHz with PREDIV 1, MFD 8 and RFD 1 reads as
      240 MHz compiled and 120 MHz documented. */
  lemma SystemClockDocumentedDiffersOn5633(s: McuState, v: Variant, regs: Clock.PllRegs)
    requires s.clockSetting < |s.config.clockSettings|
    ensures v != MPC5633 ==> GetSystemClock(s, v, regs) == GetSystemClockDocumented(s, v, regs)
    ensures v == MPC5633 && regs == Clock.PllRegs(1, 8, 1)
            && s.config.clockSettings[s.clockSetting].referenceFrequency == 40_000_000 ==>
              GetSystemClock(s, v, regs) == 240_000_000 && GetSystemClockDocumented(s, v, regs) == 120_000_000
  {
    Clock.Mpc5633FormulaMismatch();
  }

  /** `McuE_GetPeripheralClock(type)`; `read` gives the prescaler fields. */
  function GetPeripheralClock(s: McuState, v: Variant, regs: Clock.PllRegs, p: Peripheral.Peripheral,
                              read: Peripheral.PrescalerField -> nat): (r: Outcome<U32>)
    requires s.clockSetting < |s.config.clockSettings|
    ensures v == MPC5567 ==> r == Done(GetSystemClock(s, v, regs))
    ensures r.Done? ==> r.result <= GetSystemClock(s, v, regs)
    ensures !r.Halted?
    ensures r.AssertFailed? <==> v != MPC5567 && Peripheral.PrescalerTable(v, p).None?
    ensures v != MPC5567 && Peripheral.PrescalerTable(v, p).Some? ==>
              r == Done(Peripheral.Prescale(GetSystemClock(s, v, regs), read(Peripheral.PrescalerTable(v, p).value)))
  {
    Peripheral.PeripheralClockByTable(v, GetSystemClock(s, v, regs), p, read);
    Peripheral.PeripheralClock(v, GetSystemClock(s, v, regs), p, read)
  }

  // ---------------------------------------------------------------------
  // Sequences of calls

  /** One call into the driver, foreground service or interrupt handler. */
  datatype Call =
    | InitCall(cfg: Option<McuConfig>)
    | DeInitCall
    | InitRamSectionCall(section: nat)
    | InitClockCall(setting: nat)
    | DistributePllClockCall
    | GetPllStatusCall
    | GetResetReasonCall
    | GetResetRawValueCall
    | PerformResetCall
    | SetModeCall(mode: nat)
    | IsrCall(source: ClockFailure)

  /** The fixed readings of the hardware a run of calls sees. */
  datatype Hardware = Hardware(
    variant: Variant, simulator: bool, pvr: U32, lockBit: bool,
    reset: Reset.ResetRegs, uninitRawValue: U32)

  /** The calls that start with the initialised-check. */
  predicate Gated(c: Call) {
    !c.InitCall? && !c.DeInitCall? && !c.IsrCall?
  }

  /** The service id a gated call reports under. */
  function ServiceOf(c: Call): ServiceId
    requires Gated(c)
  {
    match c
    case InitRamSectionCall(_) => InitRamSectionService
    case InitClockCall(_) => InitClockService
    case DistributePllClockCall => DistributePllClockService
    case GetPllStatusCall => GetPllStatusService
    case GetResetReasonCall => GetResetReasonService
    case GetResetRawValueCall => GetResetReasonService
    case PerformResetCall => PerformResetService
    case SetModeCall(_) => SetModeService
  }

  function Forget<T>(e: Effect<T>): Effect<()> {
    Effect(e.state, e.det, e.hw, ())
  }

  /** One call; its return value is dropped. */
  function Step(h: Hardware, s: McuState, c: Call): (r: Outcome<Effect<()>>)
    ensures r.Done? ==> |r.result.det| <= 1
  {
    var v := h.variant;
    match c
    case InitCall(cfg) => Init(s, v, cfg, h.simulator, h.pvr)
    case DeInitCall => Done(DeInit(s))
    case InitRamSectionCall(n) => Done(Forget(InitRamSection(s, n)))
    case InitClockCall(i) =>
      (match InitClock(s, v, i)
       case Done(e) => Done(Forget(e))
       case Halted => Halted
       case AssertFailed => AssertFailed)
    case DistributePllClockCall => Done(DistributePllClock(s, h.lockBit))
    case GetPllStatusCall => Done(Forget(GetPllStatus(s, h.simulator, h.lockBit)))
    case GetResetReasonCall => Done(Forget(GetResetReason(s, v, h.reset)))
    case GetResetRawValueCall => Done(Forget(GetResetRawValue(s, v, h.reset, h.uninitRawValue)))
    case PerformResetCall => Done(Forget(PerformReset(s, v)))
    case SetModeCall(m) => Done(SetMode(s, m))
    case IsrCall(f) => Done(OnClockFailure(s, v, f))
  }

  /** The state, the Det log and the register actions after a run. */
  datatype Trace = Trace(state: McuState, det: seq<DetReport>, hw: seq<HwAction>)

  /** The calls one after another, the Det reports and register actions
      appended in order; a hang or a failed `assert` ends the run. */
  function Run(h: Hardware, s: McuState, calls: seq<Call>): (r: Outcome<Trace>)
    ensures r.Done? ==> |r.result.det| <= |calls|
    decreases |calls|
  {
    if calls == [] then Done(Trace(s, [], []))
    else
      match Step(h, s, calls[0])
      case Halted => Halted
      case AssertFailed => AssertFailed
      case Done(e) =>
        match Run(h, e.state, calls[1..])
        case Done(t) => Done(Trace(t.state, e.det + t.det, e.hw + t.hw))
        case Halted => Halted
        case AssertFailed => AssertFailed
  }

  /** A run that starts with a completed call continues from the state
      that call left, with its reports and actions in front. */
  lemma RunCons(h: Hardware, s: McuState, calls: seq<Call>, e: Effect<()>, t: Trace)
    requires calls != [] && Step(h, s, calls[0]) == Done(e)
    requires Run(h, e.state, calls[1..]) == Done(t)
    ensures Run(h, s, calls) == Done(Trace(t.state, e.det + t.det, e.hw + t.hw))
  {
  }

  /** An interrupt call completes with the handler's effect. */
  lemma StepIsr(h: Hardware, s: McuState, f: ClockFailure)
    ensures Step(h, s, IsrCall(f)) == Done(OnClockFailure(s, h.variant, f))
  {
  }

  /** The Det log of gated calls made before `Mcu_Init`: one `MCU_E_UNINIT`
      per call, under the call's service id. */
  function UninitReports(calls: seq<Call>): (log: seq<DetReport>)
    requires forall i :: 0 <= i < |calls| ==> Gated(calls[i])
    ensures |log| == |calls|
    ensures forall i :: 0 <= i < |calls| ==> log[i] == DetReport(ServiceOf(calls[i]), Uninit)
  {
    if calls == [] then [] else [DetReport(ServiceOf(calls[0]), Uninit)] + UninitReports(calls[1..])
  }

  /** Uninitialised, every gated service refuses: each call adds exactly
      one `MCU_E_UNINIT` report and nothing else happens. */
  lemma {:induction false} UninitCallsRejected(h: Hardware, s: McuState, calls: seq<Call>)
    requires !s.initRun
    requires forall i :: 0 <= i < |calls| ==> Gated(calls[i])
    ensures Run(h, s, calls) == Done(Trace(s, UninitReports(calls), []))
    decreases |calls|
  {
    if calls != [] {
      var c := calls[0];
      var e := Effect(s, [DetReport(ServiceOf(c), Uninit)], [], ());
      assert Step(h, s, c) == Done(e);
      UninitCallsRejected(h, s, calls[1..]);
      var t := Trace(s, UninitReports(calls[1..]), []);
      assert Run(h, s, calls) == Done(Trace(t.state, e.det + t.det, e.hw + t.hw));
      assert UninitReports(calls) == e.det + t.det;
      assert e.hw + t.hw == [];
    } else {
      assert Run(h, s, calls) == Done(Trace(s, [], []));
    }
  }

  /** From the power-on record, before any `Mcu_Init`, every gated service
      is refused: one `MCU_E_UNINIT` report per call and no other effect. */
  lemma PowerOnCallsRejected(h: Hardware, defaultConfig: McuConfig, calls: seq<Call>)
    requires forall i :: 0 <= i < |calls| ==> Gated(calls[i])
    ensures Run(h, PowerOnState(defaultConfig), calls)
         == Done(Trace(PowerOnState(defaultConfig), UninitReports(calls), []))
  {
    UninitCallsRejected(h, PowerOnState(defaultConfig), calls);
  }

  /** `n` copies of `c`. */
  function Repeat<T>(c: T, n: nat): (r: seq<T>)
    ensures |r| == n && forall i :: 0 <= i < n ==> r[i] == c
  {
    if n == 0 then [] else [c] + Repeat(c, n - 1)
  }

  /** The driver record after `n` handler calls for source `f`. */
  function AfterIsrs(s: McuState, v: Variant, f: ClockFailure, n: nat): McuState
    decreases n
  {
    if n == 0 then s else AfterIsrs(OnClockFailure(s, v, f).state, v, f, n - 1)
  }

  /** A run of `n` interrupts of the same kind completes without a report,
      clears the flag once per interrupt off the 560x, and ends in the
      record `AfterIsrs` describes. */
  lemma {:induction false} IsrRun(h: Hardware, s: McuState, f: ClockFailure, n: nat)
    ensures Run(h, s, Repeat(IsrCall(f), n)).Done?
    ensures var t := Run(h, s, Repeat(IsrCall(f), n)).result;
            && t.det == [] && t.state == AfterIsrs(s, h.variant, f, n)
            && t.hw == (if Is560X(h.variant) then [] else Repeat(ClearFlag(f), n))
    decreases n
  {
    var calls := Repeat(IsrCall(f), n);
    if n > 0 {
      var e := OnClockFailure(s, h.variant, f);
      assert calls[1..] == Repeat(IsrCall(f), n - 1);
      StepIsr(h, s, f);
      IsrRun(h, e.state, f, n - 1);
      var t := Run(h, e.state, calls[1..]).result;
      RunCons(h, s, calls, e, t);
      if !Is560X(h.variant) {
        assert e.hw + t.hw == Repeat(ClearFlag(f), n);
      }
    } else {
      assert Run(h, s, calls) == Done(Trace(s, [], []));
    }
  }

  /** `n` interrupts of the same kind off the 560x move the counter on by
      `n` modulo 2^32 and change nothing else; on the 560x they change
      nothing at all. */
  lemma IsrCounts(s: McuState, v: Variant, f: ClockFailure, n: nat)
    ensures var t := AfterIsrs(s, v, f, n);
            && t.initRun == s.initRun && t.config == s.config && t.clockSetting == s.clockSetting
            && Count(t.stats, Other(f)) == Count(s.stats, Other(f))
            && Count(t.stats, f) == (if Is560X(v) then Count(s.stats, f) else Wrap32(Count(s.stats, f) + n))
  {
    IsrKeeps(s, v, f, n);
    IsrCounter(s, v, f, n);
  }

  /** Handler calls leave the flag, the configuration, the selected setting
      and the other source's counter alone. */
  lemma {:induction false} IsrKeeps(s: McuState, v: Variant, f: ClockFailure, n: nat)
    ensures var t := AfterIsrs(s, v, f, n);
            && t.initRun == s.initRun && t.config == s.config && t.clockSetting == s.clockSetting
            && Count(t.stats, Other(f)) == Count(s.stats, Other(f))
    decreases n
  {
    if n > 0 {
      IsrKeeps(OnClockFailure(s, v, f).state, v, f, n - 1);
    }
  }

  /** Handler calls move their own counter on by one each, modulo 2^32,
      except on the 560x. */
  lemma {:induction false} IsrCounter(s: McuState, v: Variant, f: ClockFailure, n: nat)
    ensures Count(AfterIsrs(s, v, f, n).stats, f)
         == (if Is560X(v) then Count(s.stats, f) else Wrap32(Count(s.stats, f) + n))
    decreases n
  {
    if n > 0 {
      var e := OnClockFailure(s, v, f);
      IsrCounter(e.state, v, f, n - 1);
      if !Is560X(v) {
        WrapAdd(Count(s.stats, f) + 1, n - 1);
      }
    }
  }

  /** `Mcu_Init` followed by `Mcu_InitClock` on a setting that passes the
      range checks succeeds without a report and selects that setting. */
  lemma InitThenClock(s: McuState, v: Variant, cfg: McuConfig, simulator: bool, pvr: U32, i: nat)
    requires simulator || pvr in Identify.AcceptedPvrs(v)
    requires i < |cfg.clockSettings| && Clock.RangeChecksPass(v, cfg.clockSettings[i])
    ensures Init(s, v, Some(cfg), simulator, pvr).Done?
    ensures var c := InitClock(Init(s, v, Some(cfg), simulator, pvr).result.state, v, i);
            && c.Done? && c.result.value == EOk && c.result.det == []
            && c.result.state == McuState(true, cfg, i, Stats(0, 0))
  {
  }

  /** After `Mcu_DeInit` every gated service is refused again, here
      `Mcu_InitClock`, and the configuration stays bound. */
  lemma DeInitThenClockRefused(s: McuState, v: Variant, cfg: McuConfig, simulator: bool, pvr: U32, i: nat)
    requires simulator || pvr in Identify.AcceptedPvrs(v)
    ensures Init(s, v, Some(cfg), simulator, pvr).Done?
    ensures var d := DeInit(Init(s, v, Some(cfg), simulator, pvr).result.state);
            && d.state.config == cfg
            && InitClock(d.state, v, i) == Done(Reject(d.state, InitClockService, Uninit, ENotOk))
  {
  }

  /** `Mcu_Init` keeps the previous clock-setting index: after
      re-initialising with a shorter table it may point past the end, at
      the entry `McuE_GetSystemClock` would then read. */
  lemma StaleClockSetting(s: McuState, v: Variant, long: McuConfig, short: McuConfig, simulator: bool, pvr: U32)
    requires simulator || pvr in Identify.AcceptedPvrs(v)
    requires |long.clockSettings| == 2 && |short.clockSettings| == 1
    requires Clock.RangeChecksPass(v, long.clockSettings[1])
    ensures Init(s, v, Some(long), simulator, pvr).Done?
    ensures var c := InitClock(Init(s, v, Some(long), simulator, pvr).result.state, v, 1);
            c.Done? && Init(c.result.state, v, Some(short), simulator, pvr).Done?
    ensures var c := InitClock(Init(s, v, Some(long), simulator, pvr).result.state, v, 1);
            var t := Init(c.result.state, v, Some(short), simulator, pvr).result.state;
            t.initRun && t.config == short && t.clockSetting == 1 && t.clockSetting >= |t.config.clockSettings|
  {
  }
}
