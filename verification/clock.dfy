/**
  System-clock arithmetic of the MCU driver: the three `CALC_SYSTEM_CLOCK`
  formulas, which variant uses which, the range checks `Mcu_InitClock`
  asserts on a clock setting, and the transitional post-divider written
  while the PLL locks.
 */
module Clock {
  import opened McuTypes

  /** The live PLL divider fields read back from hardware (EPREDIV/EMFD/ERFD,
      PREDIV/MFD/RFD or IDF/NDIV/ODF, depending on the variant). */
  datatype PllRegs = PllRegs(prediv: nat, mfd: nat, rfd: nat)

  /** The three closed forms of `CALC_SYSTEM_CLOCK`:
      `Fmpll16`: extal * (mfd + 16) / ((prediv + 1) * (rfd + 1)),
      `Fmpll4`:  extal * (mfd + 4) / ((prediv + 1) * 2^rfd),
      `Cgm`:     extal * mfd / ((prediv + 1) * (2 << rfd)). */
  datatype Formula = Fmpll16 | Fmpll4 | Cgm

  function Pow2(n: nat): (r: nat)
    ensures r >= 1
  {
    if n == 0 then 1 else 2 * Pow2(n - 1)
  }

  /** The dividend of a formula, before C's 32-bit truncation. */
  function Numerator(f: Formula, extal: U32, mfd: nat): nat {
    match f
    case Fmpll16 => extal * (mfd + 16)
    case Fmpll4 => extal * (mfd + 4)
    case Cgm => extal * mfd
  }

  /** The divisor of a formula; never zero. */
  function Denominator(f: Formula, prediv: nat, rfd: nat): (d: nat)
    ensures d >= prediv + 1
  {
    match f
    case Fmpll16 => (prediv + 1) * (rfd + 1)
    case Fmpll4 => (prediv + 1) * Pow2(rfd)
    case Cgm => (prediv + 1) * (2 * Pow2(rfd))
  }

  /** The frequency the formula describes, in exact arithmetic. */
  function ExactClock(f: Formula, extal: U32, regs: PllRegs): nat {
    Numerator(f, extal, regs.mfd) / Denominator(f, regs.prediv, regs.rfd)
  }

  /** `CALC_SYSTEM_CLOCK` as the C macro computes it on `uint32` operands:
      the product wraps modulo 2^32 before the division. */
  function CalcSystemClock(f: Formula, extal: U32, regs: PllRegs): (r: U32)
    ensures Numerator(f, extal, regs.mfd) < U32_LIMIT ==> r == ExactClock(f, extal, regs)
    ensures r * Denominator(f, regs.prediv, regs.rfd) <= Wrap32(Numerator(f, extal, regs.mfd))
    ensures Wrap32(Numerator(f, extal, regs.mfd)) < (r + 1) * Denominator(f, regs.prediv, regs.rfd)
  {
    Quotient(Wrap32(Numerator(f, extal, regs.mfd)), Denominator(f, regs.prediv, regs.rfd))
  }

  /** The formula the preprocessor selects for each build: `CFG_MPC5567`
      gets `Fmpll4`, `CFG_MPC560X` gets `Cgm`, every other build (MPC5516,
      MPC5554, MPC5633, MPC5668) falls into the `#else` and gets `Fmpll16`. */
  function FormulaAsWritten(v: Variant): (f: Formula)
    ensures f == Cgm <==> Is560X(v)
    ensures f == Fmpll4 <==> v == MPC5567
  {
    if v == MPC5567 then Fmpll4
    else if Is560X(v) then Cgm
    else Fmpll16
  }

  /** The per-part formulas documented in `McuE_GetSystemClock`'s comment
      block: 5516 uses `Fmpll16`, 5567 uses `Fmpll4`, 563x "runs in legacy
      mode = 5567", and 5606S uses `Cgm`. Other parts are not listed. */
  function DocumentedFormula(v: Variant): Option<Formula> {
    match v
    case MPC5516 => Some(Fmpll16)
    case MPC5567 => Some(Fmpll4)
    case MPC5633 => Some(Fmpll4)
    case MPC5606S => Some(Cgm)
    case _ => None
  }

  /** The formula selection with the MPC5633 placed with the MPC5567, as
      the documentation block intends; every other build is unchanged. */
  function FormulaOf(v: Variant): (f: Formula)
    ensures DocumentedFormula(v).Some? ==> f == DocumentedFormula(v).value
    ensures v != MPC5633 ==> f == FormulaAsWritten(v)
  {
    if v == MPC5567 || v == MPC5633 then Fmpll4
    else if Is560X(v) then Cgm
    else Fmpll16
  }

  /** The preprocessor selection disagrees with the documentation on the
      MPC5633 only; with a 40 MHz reference, MFD 8, PREDIV 1 and RFD 1 the
      driver reports 240 MHz where the legacy-mode formula gives 120 MHz. */
  lemma Mpc5633FormulaMismatch()
    ensures FormulaAsWritten(MPC5633) != DocumentedFormula(MPC5633).value
    ensures forall v :: DocumentedFormula(v).Some? && v != MPC5633 ==>
              FormulaAsWritten(v) == DocumentedFormula(v).value
    ensures CalcSystemClock(FormulaAsWritten(MPC5633), 40_000_000, PllRegs(1, 8, 1)) == 240_000_000
    ensures CalcSystemClock(FormulaOf(MPC5633), 40_000_000, PllRegs(1, 8, 1)) == 120_000_000
  {
    assert Pow2(1) == 2;
  }

  /** The worked examples: 40 MHz, MFD 44, PREDIV 4, RFD 1 gives 240 MHz on
      an `Fmpll16` part; 40 MHz, MFD 8, PREDIV 1, RFD 1 gives 120 MHz on the
      MPC5567; 8 MHz, NDIV 64, IDF 0, ODF 1 gives 128 MHz on a 560x part. */
  lemma SystemClockExamples()
    ensures CalcSystemClock(FormulaOf(MPC5516), 40_000_000, PllRegs(4, 44, 1)) == 240_000_000
    ensures CalcSystemClock(FormulaOf(MPC5567), 40_000_000, PllRegs(1, 8, 1)) == 120_000_000
    ensures CalcSystemClock(FormulaOf(MPC5606B), 8_000_000, PllRegs(0, 64, 1)) == 128_000_000
  {
    assert Pow2(1) == 2;
  }

  /** The `uint32` product can wrap for settings the MPC5516 range checks
      admit: 40 MHz with EMFD 132, EPREDIV 4, ERFD 1 is 592 MHz exactly, but
      the macro yields 162503270. */
  lemma Fmpll16ProductWraps()
    ensures RangeChecksPass(MPC5516, ClockSetting(40_000_000, 4, 132, 1))
    ensures ExactClock(Fmpll16, 40_000_000, PllRegs(4, 132, 1)) == 592_000_000
    ensures CalcSystemClock(Fmpll16, 40_000_000, PllRegs(4, 132, 1)) == 162_503_270
  {
  }

  /** The parts whose clock setting `Mcu_InitClock` range-checks with the
      MPC5516 rules (the MPC5554 and MPC5668 share them). */
  predicate Has5516Checks(v: Variant) {
    v.MPC5516? || v.MPC5554? || v.MPC5668?
  }

  /** The `assert`s of `Mcu_InitClock` on the selected clock setting.
      Parts without a rule (MPC5633, 560x) check nothing. */
  predicate RangeChecksPass(v: Variant, cs: ClockSetting): (ok: bool)
    ensures !Has5516Checks(v) && v != MPC5567 ==> ok
    ensures Has5516Checks(v) && ok ==> TransitionalPostDivider(cs.pll3) == cs.pll3 + 2
  {
    if Has5516Checks(v) then
      && 32 <= cs.pll2 <= 132
      && cs.pll1 != 6 && cs.pll1 != 8 && cs.pll1 < 10
      && cs.pll3 % 2 == 1
    else if v == MPC5567 then
      cs.pll2 < 16 && cs.pll1 <= 4 && cs.pll3 < 8
    else
      true
  }

  /** `x | 1` on a non-negative integer. */
  function OrOne(x: nat): nat {
    x + (1 - x % 2)
  }

  /** On 32-bit words C's bitwise `| 1` is `OrOne`'s `x + (1 - x % 2)`,
      and the increment never wraps: an even word is below the maximum. */
  lemma OrOneIsBitwise(x: bv32)
    ensures (x | 1) == x + (1 - x % 2)
    ensures x % 2 == 0 ==> x < 0xFFFF_FFFF
  {
  }

  /** The post-divider written before the PLL is reprogrammed,
      `(Pll3 + 1) | 1`: the smallest odd divider above the final one, so the
      output is divided further while the PLL locks. */
  function TransitionalPostDivider(pll3: nat): (r: nat)
    ensures r % 2 == 1
    ensures pll3 < r <= pll3 + 2
    ensures pll3 % 2 == 1 ==> r == pll3 + 2
  {
    OrOne(pll3 + 1)
  }

  /** No odd divider lies strictly between the final and the transitional one. */
  lemma TransitionalIsLeastOddAbove(pll3: nat, y: nat)
    requires y % 2 == 1 && y > pll3
    ensures TransitionalPostDivider(pll3) <= y
  {
  }

  lemma MulMonotone(a: nat, b: nat, c: nat)
    requires a <= b
    ensures a * c <= b * c
  {
  }

  /** A quotient bound: `q * d <= n` means `q` is at most `n / d`. */
  lemma QuotientBound(n: nat, d: nat, q: nat)
    requires 0 < d && q * d <= n
    ensures q <= n / d
  {
    if q > n / d {
      MulMonotone(n / d + 1, q, d);
    }
  }

  /** Integer division rounding down: `q` is the largest number whose
      product with `d` does not exceed `n`. */
  function Quotient(n: nat, d: nat): (q: nat)
    requires 0 < d
    ensures q <= n && q * d <= n
    ensures n < (q + 1) * d
  {
    var q := n / d;
    assert n == q * d + n % d;
    assert (q + 1) * d == q * d + d;
    MulMonotone(1, d, q);
    q
  }

  /** A larger divisor gives no larger quotient. */
  lemma DivAntitone(n: nat, d1: nat, d2: nat)
    requires 0 < d1 <= d2
    ensures n / d2 <= n / d1
  {
    MulMonotone(d1, d2, n / d2);
    QuotientBound(n, d1, n / d2);
  }

  /** The point of the transitional divider: on an `Fmpll16` part the
      frequency produced while the PLL locks never exceeds the final one. */
  lemma TransitionalDividerNoOvershoot(extal: U32, prediv: nat, mfd: nat, pll3: nat)
    ensures ExactClock(Fmpll16, extal, PllRegs(prediv, mfd, TransitionalPostDivider(pll3)))
         <= ExactClock(Fmpll16, extal, PllRegs(prediv, mfd, pll3))
  {
    var t := TransitionalPostDivider(pll3);
    var d1 := Denominator(Fmpll16, prediv, pll3);
    var d2 := Denominator(Fmpll16, prediv, t);
    assert d1 <= d2 by {
      assert d2 - d1 == (prediv + 1) * (t - pll3);
    }
    DivAntitone(Numerator(Fmpll16, extal, mfd), d1, d2);
  }
}
