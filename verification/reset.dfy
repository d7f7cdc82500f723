/**
  Reset-cause decoding of `Mcu_GetResetReason` and the raw word of
  `Mcu_GetResetRawValue`. The SIU parts read the reset status register
  `SIU.RSR`; the 560x parts read the functional (`RGM.FES`) and destructive
  (`RGM.DES`) event status registers of the reset generation module.
 */
module Reset {
  import opened McuTypes

  /** `Mcu_ResetType`. */
  datatype ResetReason = PowerOnReset | WatchdogReset | SwReset | ResetUndefined

  /** `SIU.RSR` as read: the whole word and the four flags the driver tests. */
  datatype SiuRsr = SiuRsr(word: U32, ssrs: bool, wdrs: bool, pors: bool, ers: bool)

  /** `RGM.FES` and `RGM.DES` as read, with the flags the driver tests:
      `FES.F_SOFT`, `DES.F_SWT` and `DES.F_POR`. */
  datatype RgmStatus = RgmStatus(fes: U32, des: U32, fSoft: bool, fSwt: bool, fPor: bool)

  /** Everything the two services may read; the variant decides which part. */
  datatype ResetRegs = ResetRegs(siu: SiuRsr, rgm: RgmStatus)

  /** A flag set in a register means the register word is not zero. */
  predicate RgmConsistent(g: RgmStatus) {
    (g.fSoft ==> g.fes != 0) && (g.fSwt || g.fPor ==> g.des != 0)
  }

  /** The first-match `if`/`else if` chain on `SIU.RSR`. */
  function DecodeSiu(r: SiuRsr): (reason: ResetReason)
    ensures reason == ResetUndefined <==> SiuCauses(r) == {}
    ensures reason != ResetUndefined ==> reason in SiuCauses(r)
  {
    if r.ssrs then SwReset
    else if r.wdrs then WatchdogReset
    else if r.pors || r.ers then PowerOnReset
    else ResetUndefined
  }

  /** The first-match `if`/`else if` chain on `RGM.FES` and `RGM.DES`. */
  function DecodeRgm(g: RgmStatus): (reason: ResetReason)
    ensures reason == ResetUndefined <==> RgmCauses(g) == {}
    ensures reason != ResetUndefined ==> reason in RgmCauses(g)
  {
    if g.fSoft then SwReset
    else if g.fSwt then WatchdogReset
    else if g.fPor then PowerOnReset
    else ResetUndefined
  }

  /** The reason the build of `v` reports for the registers `regs`. */
  function DecodeReason(v: Variant, regs: ResetRegs): (reason: ResetReason)
    ensures reason == ResetUndefined <==> Causes(v, regs) == {}
  {
    if Is560X(v) then DecodeRgm(regs.rgm) else DecodeSiu(regs.siu)
  }

  /** The raw word: `DES` when it is non-zero and `FES` otherwise on the
      560x parts, the whole of `SIU.RSR` elsewhere. */
  function RawValue(v: Variant, regs: ResetRegs): (w: U32)
    ensures Is560X(v) ==> w == regs.rgm.des || w == regs.rgm.fes
    ensures Is560X(v) && regs.rgm.des != 0 ==> w == regs.rgm.des
    ensures Is560X(v) && regs.rgm.des == 0 ==> w == regs.rgm.fes
    ensures !Is560X(v) ==> w == regs.siu.word
  {
    if Is560X(v) then
      if regs.rgm.des != 0 then regs.rgm.des else regs.rgm.fes
    else
      regs.siu.word
  }

  // ---------------------------------------------------------------------
  // Reference: the reported reason is the highest-priority cause present.

  /** The causes the SIU flags indicate; `PORS` and `ERS` both count as a
      power-on reset. */
  function SiuCauses(r: SiuRsr): set<ResetReason> {
    (if r.ssrs then {SwReset} else {})
    + (if r.wdrs then {WatchdogReset} else {})
    + (if r.pors || r.ers then {PowerOnReset} else {})
  }

  /** The causes the RGM flags indicate. */
  function RgmCauses(g: RgmStatus): set<ResetReason> {
    (if g.fSoft then {SwReset} else {})
    + (if g.fSwt then {WatchdogReset} else {})
    + (if g.fPor then {PowerOnReset} else {})
  }

  function Causes(v: Variant, regs: ResetRegs): set<ResetReason> {
    if Is560X(v) then RgmCauses(regs.rgm) else SiuCauses(regs.siu)
  }

  /** Software reset outranks watchdog, which outranks power-on. */
  function Priority(r: ResetReason): nat {
    match r
    case SwReset => 3
    case WatchdogReset => 2
    case PowerOnReset => 1
    case ResetUndefined => 0
  }

  /** The decoder reports `ResetUndefined` exactly when no cause is
      flagged; otherwise it reports a flagged cause that no other flagged
      cause outranks. */
  lemma DecodeIsHighestCause(v: Variant, regs: ResetRegs)
    ensures DecodeReason(v, regs) == ResetUndefined <==> Causes(v, regs) == {}
    ensures DecodeReason(v, regs) != ResetUndefined ==> DecodeReason(v, regs) in Causes(v, regs)
    ensures forall c :: c in Causes(v, regs) ==> Priority(c) <= Priority(DecodeReason(v, regs))
  {
    var d := DecodeReason(v, regs);
    var cs := Causes(v, regs);
    if d == ResetUndefined {
      assert SwReset !in cs && WatchdogReset !in cs && PowerOnReset !in cs;
    } else {
      assert d in cs;
    }
  }

  /** The decoded reason is determined by its cause set: two register
      readings with the same causes decode alike. */
  lemma DecodeDependsOnlyOnCauses(v: Variant, a: ResetRegs, b: ResetRegs)
    requires Causes(v, a) == Causes(v, b)
    ensures DecodeReason(v, a) == DecodeReason(v, b)
  {
    DecodeIsHighestCause(v, a);
    DecodeIsHighestCause(v, b);
  }

  /** Both a software and a watchdog flag set: the software reset wins. */
  lemma SoftwareBeatsWatchdog(v: Variant, regs: ResetRegs)
    requires Is560X(v) ==> regs.rgm.fSoft && regs.rgm.fSwt
    requires !Is560X(v) ==> regs.siu.ssrs && regs.siu.wdrs
    ensures DecodeReason(v, regs) == SwReset
  {
  }

  /** An external reset (`ERS`) alone reads as a power-on reset. */
  lemma ExternalReadsAsPowerOn(r: SiuRsr)
    requires r.ers && !r.ssrs && !r.wdrs
    ensures DecodeSiu(r) == PowerOnReset
  {
  }

  /** On a 560x part the reason and the raw word need not come from the
      same register: with consistent registers, a watchdog or power-on
      reason always comes with the `DES` word, but a software reason comes
      with the `FES` word only when `DES` is clear. */
  lemma RawWordOfReason(v: Variant, regs: ResetRegs)
    requires Is560X(v) && RgmConsistent(regs.rgm)
    ensures DecodeReason(v, regs) in {WatchdogReset, PowerOnReset} ==> RawValue(v, regs) == regs.rgm.des
    ensures DecodeReason(v, regs) == SwReset && regs.rgm.des == 0 ==> RawValue(v, regs) == regs.rgm.fes
    ensures DecodeReason(v, regs) == SwReset && regs.rgm.des != 0 ==> RawValue(v, regs) == regs.rgm.des
  {
  }
}
