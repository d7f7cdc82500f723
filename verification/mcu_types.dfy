/**
  Shared vocabulary of the MPC55xx/MPC560x MCU driver model: the silicon
  variants selected at build time, the driver's global state, the error
  reports sent to the development error tracer (Det), and an abstract trace
  of the hardware register actions an operation performs.
 */
module McuTypes {

  /** Values of a C `uint32`. */
  const U32_LIMIT: nat := 0x1_0000_0000
  type U32 = x: nat | x < U32_LIMIT

  /** C `uint32` arithmetic: the exact value reduced modulo 2^32. */
  function Wrap32(x: nat): (r: U32)
    ensures x < U32_LIMIT ==> r == x
  {
    x % U32_LIMIT
  }

  /** Wrapping an intermediate sum changes nothing: `uint32` addition done
      in steps equals the exact sum wrapped once. */
  lemma WrapAdd(x: nat, k: nat)
    ensures Wrap32(Wrap32(x) + k) == Wrap32(x + k)
  {
    var q := x / U32_LIMIT;
    assert x == q * U32_LIMIT + Wrap32(x);
    ModShift(Wrap32(x) + k, q);
  }

  /** Adding a multiple of 2^32 leaves the residue alone. */
  lemma ModShift(y: nat, q: nat)
    ensures (y + q * U32_LIMIT) % U32_LIMIT == y % U32_LIMIT
  {
  }

  /** The build-time chip selection (`CFG_MPC5516`, `CFG_MPC5567`, ...). */
  datatype Variant =
    | MPC5516 | MPC5554 | MPC5567 | MPC5633
    | MPC5604B | MPC5604P | MPC5606B | MPC5606S
    | MPC5668

  /** `CFG_MPC560X`: the mode-entry (ME/CGM/RGM) family. */
  predicate Is560X(v: Variant) {
    v.MPC5604B? || v.MPC5604P? || v.MPC5606B? || v.MPC5606S?
  }

  /** `CFG_MPC560XB`: the 560x parts with a single `CGM.FMPLL_CR`. */
  predicate Is560XB(v: Variant) {
    v.MPC5604B? || v.MPC5606B?
  }

  /** The parts whose PLL has the extended `ESYNCR1/ESYNCR2` registers. */
  predicate HasEsyncr(v: Variant) {
    v.MPC5516? || v.MPC5668?
  }

  /** One entry of the static clock-setting table (`Mcu_ClockSettingConfigType`). */
  datatype ClockSetting = ClockSetting(
    referenceFrequency: U32,  // McuClockReferencePointFrequency, in Hz
    pll1: nat,                // pre-divider (EPREDIV / PREDIV / IDF)
    pll2: nat,                // multiplier (EMFD / MFD / NDIV)
    pll3: nat                 // post-divider (ERFD / RFD / ODF)
  )

  /** `Mcu_ConfigType`: the clock-setting table, the number of RAM sections,
      and whether clock-failure notification is enabled. */
  datatype McuConfig = McuConfig(
    clockSettings: seq<ClockSetting>,
    ramSectors: nat,
    clockSrcFailureNotification: bool
  )

  /** `Mcu_Stats`: the two clock-failure counters (C `uint32`). */
  datatype Stats = Stats(lossOfLockCnt: U32, lossOfClockCnt: U32)

  /** `Mcu_GlobalType`: the driver's single global record. */
  datatype McuState = McuState(
    initRun: bool,
    config: McuConfig,
    clockSetting: nat,
    stats: Stats
  )

  /** The record before `Mcu_Init`: not initialised, bound to the first
      configuration, and (as a zero-initialised C global) setting 0 and
      zero counters. */
  function PowerOnState(defaultConfig: McuConfig): (s: McuState)
    ensures !s.initRun && s.config == defaultConfig && s.clockSetting == 0
    ensures s.stats.lossOfLockCnt == 0 && s.stats.lossOfClockCnt == 0
  {
    McuState(false, defaultConfig, 0, Stats(0, 0))
  }

  /** Service identifiers passed to Det (`MCU_*_SERVICE_ID`). */
  datatype ServiceId =
    | InitService | InitRamSectionService | InitClockService
    | DistributePllClockService | GetPllStatusService
    | GetResetReasonService | PerformResetService | SetModeService

  /** Development error codes (`MCU_E_*`). */
  datatype ErrorCode =
    | ParamConfig | ParamClock | ParamMode | ParamRamSection
    | PllNotLocked | Uninit

  /** One `Det_ReportError(MODULE_ID_MCU, 0, api, error)` call. */
  datatype DetReport = DetReport(api: ServiceId, error: ErrorCode)

  /** `Std_ReturnType`. */
  datatype StdReturn = EOk | ENotOk

  /** The two clock-failure interrupt sources of the FMPLL. */
  datatype ClockFailure = LossOfLock | LossOfClock

  /** Interrupt vectors named by the driver when installing handlers. */
  datatype Vector = PllSynsrLolf | PllSynsrLocf

  /** Abstract register-level actions, in the order the driver issues them.
      Register addresses and bit layouts are not modelled; busy-wait loops
      appear as a single `Await*` step that is assumed to complete. */
  datatype HwAction =
    | DisableWatchdog                          // SWT soft-lock keys, then SWT.CR disable
    | ConfigureFlash                           // Mcu_ConfigureFlash
    | EnableRunModes                           // ME.MER: DRUN, RUN0, SAFE, RESET
    | InitCmu0                                 // CGM.CMU_0_CSR on MPC5604P
    | InstallIsr(handler: ClockFailure, vector: Vector)
    | EnableIrq(source: ClockFailure)          // LOLIRQ / LOCIRQ := 1
    | ClearFlag(source: ClockFailure)          // SYNSR.LOLF / LOCF := 1
    | DisablePllInterrupts                     // SYNCR DEPTH, LOLRE, LOLIRQ := 0
    | SelectCrystalMode                        // ESYNCR1.CLKCFG := 7
    | WritePreDivider(prediv: nat)
    | WriteMultiplier(mfd: nat)
    | WritePostDivider(rfd: nat)
    | AwaitPllLock
    | SelectPllSystemClock                     // SIU.SYSCLK.SYSCLKSEL := PLL
    | ConfigureRun0                            // ME.RUN[0], ME.RUNPC[1], ME.PCTL[...]
    | ModeControl(word: nat)                   // one write of ME.MCTL
    | AwaitModeTransition                      // while ME.GS.S_MTRANS
    | AwaitCurrentMode(mode: nat)              // while ME.GS.S_CURRENTMODE != mode
    | EnablePeripheralSets(count: nat)         // CGM.SC_DC[0 .. count-1] := 0x80
    | RoutePins                                // SIU.PSMI for CAN1RX and DSPI_0 CS0
    | SoftwareReset                            // SIU.SRCR.SSR := 1

  /** What one call of an operation did: the state afterwards, the Det
      reports it emitted, the hardware actions it performed, and its
      return value. */
  datatype Effect<T> = Effect(state: McuState, det: seq<DetReport>, hw: seq<HwAction>, value: T)

  /** A C pointer that may be NULL. */
  datatype Option<T> = None | Some(value: T)

  /** Calls that can end other than by returning: the `while(1)` hang on
      unknown silicon, and a failed `assert`. */
  datatype Outcome<T> = Done(result: T) | Halted | AssertFailed

  /** The effect of a failed `VALIDATE`/`VALIDATE_W_RV`: one report, no
      hardware action, state unchanged, the documented failure value. */
  function Reject<T(==)>(s: McuState, api: ServiceId, error: ErrorCode, rv: T): (e: Effect<T>)
    ensures Rejected(e, s, api, error, rv)
    ensures !Accepted(e) && |e.det| == 1
  {
    Effect(s, [DetReport(api, error)], [], rv)
  }

  /** `e` is exactly the effect of a gate that rejected the call. */
  predicate Rejected<T(==)>(e: Effect<T>, s: McuState, api: ServiceId, error: ErrorCode, rv: T) {
    e.state == s && e.det == [DetReport(api, error)] && e.hw == [] && e.value == rv
  }

  /** `e` passed every gate: no Det report. */
  predicate Accepted<T>(e: Effect<T>) {
    e.det == []
  }
}
