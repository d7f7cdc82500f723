/**
  `McuE_GetPeripheralClock`: the peripheral's prescaler field is chosen by a
  C `switch` whose case groups fall through into each other when the build
  has no assignment for them, and the peripheral clock is the system clock
  divided by two to the power of that field.
 */
module Peripheral {
  import opened McuTypes
  import Clock

  /** Instance letters of the peripheral identifiers (`..._A` to `..._H`). */
  datatype Unit = A | B | C | D | E | F | G | H {
    /** Position of the letter: A is 0, H is 7. */
    function Index(): nat {
      match this
      case A => 0 case B => 1 case C => 2 case D => 3
      case E => 4 case F => 5 case G => 6 case H => 7
    }
  }

  /** `u` is one of the letters `first` .. `last`. */
  predicate Between(u: Unit, first: Unit, last: Unit) {
    first.Index() <= u.Index() <= last.Index()
  }

  /** `McuE_PeriperalClock_t`: the peripheral identities the switch names. */
  datatype Peripheral =
    | FlexCan(unit: Unit) | Dspi(unit: Unit) | Esci(unit: Unit)
    | Iic(unit: Unit) | Lin(unit: Unit)
    | Pit | Emios | Emios0 | Emios1 | Mlb | AdcA

  /** A prescaler field: `SIU.SYSCLK.LPCLKDIVn` or `CGM.SC_DC[n].DIV`. */
  datatype PrescalerField = LpClkDiv(n: nat) | ScDcDiv(n: nat)

  /** The `case` labels of the switch compiled for `v`: the index, in
      source order, of the group of labels that names `p`, or `None` when no
      label does and control goes straight to `default`. The MPC5567 has no
      switch; the MPC5668 has its own. */
  function CaseGroupOf(v: Variant, p: Peripheral): (r: Option<nat>)
    ensures r.Some? ==> r.value < |CaseActions(v)|
  {
    if v == MPC5668 then
      match p
      case FlexCan(u) => if Between(u, A, F) then Some(0) else None
      case Dspi(u) => if Between(u, A, D) then Some(0) else None
      case Esci(u) => if Between(u, A, F) then Some(1) else None
      case Iic(u) => if Between(u, A, B) then Some(1) else None
      case AdcA => Some(2)
      case Emios => Some(3)
      case _ => None
    else
      match p
      case FlexCan(u) => if u == A then Some(0) else if Between(u, B, F) then Some(2) else None
      case Dspi(u) => if u == A then Some(0) else if Between(u, B, F) then Some(3) else None
      case Pit => Some(1)
      case Esci(u) => if u == A then Some(1) else Some(4)
      case Iic(u) => if u == A then Some(1) else None
      case Lin(u) =>
        if Is560X(v) && (Between(u, A, B) || (v != MPC5606S && Between(u, C, D))) then Some(5) else None
      case Emios0 => if Is560X(v) then Some(6) else None
      case Emios1 => if Is560X(v) then Some(7) else None
      case Emios => if Is560X(v) then None else Some(5)
      case Mlb => if Is560X(v) then Some(8) else Some(6)
      case AdcA => None
  }

  /** The statements each case group keeps in the build of `v`: an
      assignment of the prescaler followed by `break`, or nothing, in which
      case control falls through to the next group. Assignments guarded by
      `CFG_MPC5516` or `CFG_MPC560X` vanish from the other builds. */
  function CaseActions(v: Variant): (acts: seq<Option<PrescalerField>>)
    ensures v == MPC5516 || v == MPC5668 ==> forall i :: 0 <= i < |acts| ==> acts[i].Some?
    ensures !Is560X(v) && v != MPC5516 && v != MPC5668 ==> forall i :: 0 <= i < |acts| ==> acts[i].None?
    ensures Is560X(v) ==> |acts| == 9 && forall i :: 0 <= i < 9 ==> (acts[i].None? <==> i in {1, 3, 4, 8})
  {
    if v == MPC5668 then
      [Some(LpClkDiv(1)), Some(LpClkDiv(0)), Some(LpClkDiv(2)), Some(LpClkDiv(3))]
    else if v == MPC5516 then
      [Some(LpClkDiv(0)), Some(LpClkDiv(1)), Some(LpClkDiv(2)), Some(LpClkDiv(3)),
       Some(LpClkDiv(4)), Some(LpClkDiv(5)), Some(LpClkDiv(6))]
    else if Is560X(v) then
      [Some(ScDcDiv(1)), None, Some(ScDcDiv(1)), None, None,
       Some(ScDcDiv(0)), Some(ScDcDiv(2)), Some(ScDcDiv(2)), None]
    else
      [None, None, None, None, None, None, None]
  }

  /** C fall-through: the first group at or after `from` that assigns the
      prescaler, or `None` when control runs into `default`. */
  function FallThrough(actions: seq<Option<PrescalerField>>, from: nat): (r: Option<nat>)
    requires from <= |actions|
    decreases |actions| - from
    ensures r.Some? ==> from <= r.value < |actions| && actions[r.value].Some?
    ensures r.Some? ==> forall j :: from <= j < r.value ==> actions[j].None?
    ensures r.None? <==> forall j :: from <= j < |actions| ==> actions[j].None?
  {
    if from == |actions| then None
    else if actions[from].Some? then Some(from)
    else FallThrough(actions, from + 1)
  }

  /** The prescaler field the switch of `v` reads for `p`, or `None` when
      control reaches `default: assert(0)`. */
  function RunSwitch(v: Variant, p: Peripheral): (r: Option<PrescalerField>)
    ensures r.Some? ==> CaseGroupOf(v, p).Some? && r in CaseActions(v)
    ensures CaseGroupOf(v, p).None? ==> r.None?
  {
    match CaseGroupOf(v, p)
    case None => None
    case Some(i) =>
      var acts := CaseActions(v);
      match FallThrough(acts, i)
      case None => None
      case Some(j) => acts[j]
  }

  /** Reference: the peripheral-to-prescaler map written as a table, one
      line per prescaler field and build. */
  function PrescalerTable(v: Variant, p: Peripheral): Option<PrescalerField> {
    if v == MPC5668 then
      if (p.FlexCan? && Between(p.unit, A, F)) || (p.Dspi? && Between(p.unit, A, D)) then Some(LpClkDiv(1))
      else if (p.Esci? && Between(p.unit, A, F)) || (p.Iic? && Between(p.unit, A, B)) then Some(LpClkDiv(0))
      else if p == AdcA then Some(LpClkDiv(2))
      else if p == Emios then Some(LpClkDiv(3))
      else None
    else if v == MPC5516 then
      if p == FlexCan(A) || p == Dspi(A) then Some(LpClkDiv(0))
      else if p == Pit || p == Esci(A) || p == Iic(A) then Some(LpClkDiv(1))
      else if p.FlexCan? && Between(p.unit, B, F) then Some(LpClkDiv(2))
      else if p.Dspi? && Between(p.unit, B, F) then Some(LpClkDiv(3))
      else if p.Esci? then Some(LpClkDiv(4))
      else if p == Emios then Some(LpClkDiv(5))
      else if p == Mlb then Some(LpClkDiv(6))
      else None
    else if Is560X(v) then
      // PIT, ESCI_A and IIC_A fall through to the FlexCAN divider;
      // DSPI_B..F and ESCI_B..H fall through to the LIN divider.
      if (p.FlexCan? && Between(p.unit, A, F)) || p == Dspi(A) || p == Pit || p == Esci(A) || p == Iic(A) then Some(ScDcDiv(1))
      else if (p.Dspi? && Between(p.unit, B, F)) || p.Esci?
              || (p.Lin? && Between(p.unit, A, B)) || (v != MPC5606S && p.Lin? && Between(p.unit, C, D)) then Some(ScDcDiv(0))
      else if p == Emios0 || p == Emios1 then Some(ScDcDiv(2))
      else None
    else
      // MPC5554 and MPC5633: no group keeps an assignment, so every
      // identity reaches the default.
      None
  }

  /** Where control lands from group `i` of the 560x switch: group 1
      (PIT, ESCI_A, IIC_A) falls into group 2 (FlexCAN_B..F), groups 3 and 4
      (DSPI_B..F, ESCI_B..H) fall into group 5 (LIN), and group 8 (MLB)
      falls into the default. */
  lemma FallThrough560x(v: Variant, i: nat)
    requires Is560X(v) && i < |CaseActions(v)|
    ensures FallThrough(CaseActions(v), i)
         == if i == 1 then Some(2) else if i == 3 || i == 4 then Some(5)
            else if i == 8 then None else Some(i)
  {
    var acts := CaseActions(v);
    if i == 3 {
      assert FallThrough(acts, 4) == FallThrough(acts, 5);
    } else if i == 8 {
      assert FallThrough(acts, 9) == None;
    }
  }

  /** On the MPC5516 and MPC5668 every group assigns, so nothing falls through. */
  lemma NoFallThrough(v: Variant, i: nat)
    requires v == MPC5516 || v == MPC5668
    requires i < |CaseActions(v)|
    ensures FallThrough(CaseActions(v), i) == Some(i)
  {
  }

  /** On the MPC5554 and MPC5633 no group assigns, so every group reaches
      the default. */
  lemma OnlyFallThrough(v: Variant, i: nat)
    requires v == MPC5554 || v == MPC5633
    requires i <= |CaseActions(v)|
    ensures FallThrough(CaseActions(v), i).None?
  {
  }

  /** Where control finally lands in the 560x switch when it enters at
      group `i`, read off the groups' statements. */
  function Landing560x(i: Option<nat>): Option<PrescalerField> {
    match i
    case None => None
    case Some(k) =>
      if k <= 2 then Some(ScDcDiv(1))
      else if k <= 5 then Some(ScDcDiv(0))
      else if k <= 7 then Some(ScDcDiv(2))
      else None
  }

  /** The 560x switch reads the field `Landing560x` names for its case group. */
  lemma Switch560xByGroup(v: Variant, p: Peripheral)
    requires Is560X(v)
    ensures RunSwitch(v, p) == Landing560x(CaseGroupOf(v, p))
  {
    var i := CaseGroupOf(v, p);
    if i.Some? {
      FallThrough560x(v, i.value);
    }
  }

  /** The 560x lines of the table agree with `Landing560x` group by group. */
  lemma Table560xByGroup(v: Variant, p: Peripheral)
    requires Is560X(v)
    ensures PrescalerTable(v, p) == Landing560x(CaseGroupOf(v, p))
  {
  }

  /** On a 560x build the switch, fall-through included, reads the table's field. */
  lemma SwitchMatchesTable560x(v: Variant, p: Peripheral)
    requires Is560X(v)
    ensures RunSwitch(v, p) == PrescalerTable(v, p)
  {
    Switch560xByGroup(v, p);
    Table560xByGroup(v, p);
  }

  /** On the MPC5516 the switch reads the table's field. */
  lemma SwitchMatchesTable5516(p: Peripheral)
    ensures RunSwitch(MPC5516, p) == PrescalerTable(MPC5516, p)
  {
    var i := CaseGroupOf(MPC5516, p);
    if i.Some? {
      NoFallThrough(MPC5516, i.value);
    }
  }

  /** On the MPC5668 the switch reads the table's field. */
  lemma SwitchMatchesTable5668(p: Peripheral)
    ensures RunSwitch(MPC5668, p) == PrescalerTable(MPC5668, p)
  {
    var i := CaseGroupOf(MPC5668, p);
    if i.Some? {
      NoFallThrough(MPC5668, i.value);
    }
  }

  /** The switch, fall-through included, selects exactly the fields of the
      table, for every build that compiles it. */
  lemma SwitchMatchesTable(v: Variant, p: Peripheral)
    requires v != MPC5567
    ensures RunSwitch(v, p) == PrescalerTable(v, p)
  {
    if Is560X(v) {
      SwitchMatchesTable560x(v, p);
    } else if v == MPC5516 {
      SwitchMatchesTable5516(p);
    } else if v == MPC5668 {
      SwitchMatchesTable5668(p);
    } else {
      var i := CaseGroupOf(v, p);
      if i.Some? {
        OnlyFallThrough(v, i.value);
      }
    }
  }

  /** `McuE_GetPeripheralClock` given the system clock and the prescaler
      fields read from hardware: the MPC5567 has no dividers and returns the
      system clock; elsewhere an unmapped identity fails its `assert(0)`. */
  function PeripheralClock(v: Variant, sysClock: U32, p: Peripheral, read: PrescalerField -> nat): (r: Outcome<U32>)
    ensures v == MPC5567 ==> r == Done(sysClock)
    ensures r.Done? ==> r.result <= sysClock
    ensures !r.Halted?
  {
    if v == MPC5567 then Done(sysClock)
    else
      match RunSwitch(v, p)
      case None => AssertFailed
      case Some(field) => Done(Prescale(sysClock, read(field)))
  }

  /** `sysClock / (1 << prescaler)`. */
  function Prescale(sysClock: U32, prescaler: nat): (r: U32)
    ensures r <= sysClock
    ensures r * Clock.Pow2(prescaler) <= sysClock
    ensures sysClock < (r + 1) * Clock.Pow2(prescaler)
  {
    Clock.Quotient(sysClock, Clock.Pow2(prescaler))
  }

  /** The peripheral clock is the system clock divided by two to the power
      of the field the table names, and the call fails exactly for the
      identities the table leaves unmapped. */
  lemma PeripheralClockByTable(v: Variant, sysClock: U32, p: Peripheral, read: PrescalerField -> nat)
    ensures v != MPC5567 ==>
              (PeripheralClock(v, sysClock, p, read).AssertFailed? <==> PrescalerTable(v, p).None?)
    ensures v != MPC5567 && PrescalerTable(v, p).Some? ==>
              PeripheralClock(v, sysClock, p, read)
                == Done(Prescale(sysClock, read(PrescalerTable(v, p).value)))
  {
    if v != MPC5567 {
      SwitchMatchesTable(v, p);
    }
  }

  /** On the MPC5668 FlexCAN_A..F and DSPI_A..D run from LPCLKDIV1, and
      ESCI_A..F and IIC_A..B from LPCLKDIV0. */
  lemma Mpc5668Map(u: Unit)
    ensures Between(u, A, F) ==> RunSwitch(MPC5668, FlexCan(u)) == Some(LpClkDiv(1))
    ensures Between(u, A, D) ==> RunSwitch(MPC5668, Dspi(u)) == Some(LpClkDiv(1))
    ensures Between(u, A, F) ==> RunSwitch(MPC5668, Esci(u)) == Some(LpClkDiv(0))
    ensures Between(u, A, B) ==> RunSwitch(MPC5668, Iic(u)) == Some(LpClkDiv(0))
  {
    var acts := CaseActions(MPC5668);
    assert FallThrough(acts, 0) == Some(0) && FallThrough(acts, 1) == Some(1);
  }

  /** On the MPC5668 ADC_A runs from LPCLKDIV2 and eMIOS from LPCLKDIV3;
      DSPI_E has no case and reaches the default. */
  lemma Mpc5668MapSingles()
    ensures RunSwitch(MPC5668, AdcA) == Some(LpClkDiv(2))
    ensures RunSwitch(MPC5668, Emios) == Some(LpClkDiv(3))
    ensures RunSwitch(MPC5668, Dspi(E)).None?
  {
    NoFallThrough(MPC5668, 2);
    NoFallThrough(MPC5668, 3);
  }

  /** On a 560x build the fall-through sends PIT, ESCI_A and IIC_A to the
      FlexCAN divider `SC_DC[1]` and DSPI_B to the LIN divider `SC_DC[0]`;
      an MLB request reaches the default. */
  lemma Mpc560xFallThrough(v: Variant)
    requires Is560X(v)
    ensures RunSwitch(v, Pit) == Some(ScDcDiv(1))
    ensures RunSwitch(v, Esci(A)) == Some(ScDcDiv(1))
    ensures RunSwitch(v, Iic(A)) == Some(ScDcDiv(1))
    ensures RunSwitch(v, Dspi(B)) == Some(ScDcDiv(0))
    ensures RunSwitch(v, Mlb).None?
  {
    assert CaseGroupOf(v, Pit) == Some(1) && CaseGroupOf(v, Esci(A)) == Some(1);
    assert CaseGroupOf(v, Iic(A)) == Some(1) && CaseGroupOf(v, Dspi(B)) == Some(3);
    assert CaseGroupOf(v, Mlb) == Some(8);
    Switch560xByGroup(v, Pit);
    Switch560xByGroup(v, Esci(A));
    Switch560xByGroup(v, Iic(A));
    Switch560xByGroup(v, Dspi(B));
    Switch560xByGroup(v, Mlb);
  }
}
