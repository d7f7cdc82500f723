/**
  Silicon identification at `Mcu_Init`: the processor version register (PVR)
  is looked up, independently, in a CPU table and a core table; a miss in
  either one hangs the processor for good.
 */
module Identify {
  import opened McuTypes

  /** Core PVR values (`CORE_PVR_*`). */
  const PVR_E200Z1: U32 := 0x8144_0000
  const PVR_E200Z0: U32 := 0x8171_0000
  const PVR_E200Z3: U32 := 0x8112_0000
  const PVR_E200Z6: U32 := 0x8117_0000
  const PVR_E200Z65: U32 := 0x8115_0000
  const PVR_E200Z0H: U32 := 0x817F_0000

  /** `cpu_info_t` / `core_info_t`: a display name and the PVR it stands for. */
  datatype Info = Info(name: string, pvr: U32)

  /** `cpu_info_list` as built for variant `v`. The MPC5554 build has no entry. */
  function CpuTable(v: Variant): (t: seq<Info>)
    ensures |t| == 0 <==> v == MPC5554
    ensures |t| <= 2
  {
    match v
    case MPC5516 => [Info("MPC5516", PVR_E200Z1), Info("MPC5516", PVR_E200Z0)]
    case MPC5567 => [Info("MPC5567", PVR_E200Z6)]
    case MPC5633 => [Info("MPC563X", PVR_E200Z3)]
    case MPC5604B => [Info("MPC5604B", PVR_E200Z0H)]
    case MPC5604P => [Info("MPC5604P", PVR_E200Z0H)]
    case MPC5606B => [Info("MPC5606B", PVR_E200Z0H)]
    case MPC5606S => [Info("MPC5606S", PVR_E200Z0H)]
    case MPC5668 => [Info("MPC5668", PVR_E200Z65), Info("MPC5668", PVR_E200Z0)]
    case MPC5554 => []
  }

  /** `core_info_list` as built for variant `v`, with its quirks kept: the
      MPC5516 list names the Z1 core twice (no Z0 entry), and the MPC5668
      entry called "CORE_E200Z0" holds the Z1 PVR. */
  function CoreTable(v: Variant): (t: seq<Info>)
    ensures |t| == 0 <==> v == MPC5554
    ensures |t| <= 2
  {
    match v
    case MPC5516 => [Info("CORE_E200Z1", PVR_E200Z1), Info("CORE_E200Z1", PVR_E200Z1)]
    case MPC5567 => [Info("CORE_E200Z6", PVR_E200Z6)]
    case MPC5633 => [Info("CORE_E200Z3", PVR_E200Z3)]
    case MPC5604B => [Info("MPC5604B", PVR_E200Z0H)]
    case MPC5604P => [Info("MPC5604P", PVR_E200Z0H)]
    case MPC5606B => [Info("MPC5606B", PVR_E200Z0H)]
    case MPC5606S => [Info("MPC5606S", PVR_E200Z0H)]
    case MPC5668 => [Info("CORE_E200Z65", PVR_E200Z65), Info("CORE_E200Z0", PVR_E200Z1)]
    case MPC5554 => []
  }

  /** `Mcu_IdentifyCpu` / `Mcu_IdentifyCore`: the linear search from index
      `from` onwards. The index of the entry stands for the returned pointer;
      `None` stands for NULL. */
  function FindFrom(table: seq<Info>, pvr: U32, from: nat): (r: Option<nat>)
    requires from <= |table|
    decreases |table| - from
    ensures r.Some? ==> from <= r.value < |table| && table[r.value].pvr == pvr
    ensures r.Some? ==> forall j :: from <= j < r.value ==> table[j].pvr != pvr
    ensures r.None? <==> forall j :: from <= j < |table| ==> table[j].pvr != pvr
  {
    if from == |table| then None
    else if table[from].pvr == pvr then Some(from)
    else FindFrom(table, pvr, from + 1)
  }

  /** The first entry of `table` carrying `pvr`, or `None`. */
  function Find(table: seq<Info>, pvr: U32): (r: Option<nat>)
    ensures r.Some? ==> r.value < |table| && table[r.value].pvr == pvr
    ensures r.Some? ==> forall j :: 0 <= j < r.value ==> table[j].pvr != pvr
    ensures r.None? <==> pvr !in PvrsOf(table)
  {
    var r := FindFrom(table, pvr, 0);
    assert r.Some? ==> table[r.value].pvr in PvrsOf(table);
    r
  }

  /** The PVR values a table lists. */
  function PvrsOf(table: seq<Info>): set<U32> {
    set i | 0 <= i < |table| :: table[i].pvr
  }

  /** `Mcu_CheckCpu`: returns 0 when the PVR is in both tables, and hangs
      (`while(1)`) otherwise. */
  function CheckCpu(v: Variant, pvr: U32): (r: Outcome<U32>)
    ensures r.Done? ==> r.result == 0
    ensures r.Halted? <==> pvr !in PvrsOf(CpuTable(v)) || pvr !in PvrsOf(CoreTable(v))
    ensures !r.AssertFailed?
  {
    var cpu := Find(CpuTable(v), pvr);
    var core := Find(CoreTable(v), pvr);
    if cpu.None? || core.None? then Halted else Done(0)
  }

  /** Reference: the single PVR a build of `v` accepts, read off the
      hardware each variant really contains after the table quirks. */
  function AcceptedPvrs(v: Variant): set<U32> {
    match v
    case MPC5516 => {PVR_E200Z1}
    case MPC5567 => {PVR_E200Z6}
    case MPC5633 => {PVR_E200Z3}
    case MPC5668 => {PVR_E200Z65}
    case MPC5554 => {}
    case _ => {PVR_E200Z0H}
  }

  /** `Mcu_CheckCpu` returns exactly for the PVRs of `AcceptedPvrs`. */
  lemma CheckCpuAccepts(v: Variant, pvr: U32)
    ensures CheckCpu(v, pvr).Done? <==> pvr in AcceptedPvrs(v)
  {
    var cpu := CpuTable(v);
    var core := CoreTable(v);
    assert PvrsOf(cpu) == set i | 0 <= i < |cpu| :: cpu[i].pvr;
    match v
    case MPC5516 =>
      assert cpu[0].pvr == PVR_E200Z1 && cpu[1].pvr == PVR_E200Z0;
      assert PvrsOf(cpu) == {PVR_E200Z1, PVR_E200Z0};
      assert core[0].pvr == PVR_E200Z1 && core[1].pvr == PVR_E200Z1;
      assert PvrsOf(core) == {PVR_E200Z1};
    case MPC5668 =>
      assert cpu[0].pvr == PVR_E200Z65 && cpu[1].pvr == PVR_E200Z0;
      assert PvrsOf(cpu) == {PVR_E200Z65, PVR_E200Z0};
      assert core[0].pvr == PVR_E200Z65 && core[1].pvr == PVR_E200Z1;
      assert PvrsOf(core) == {PVR_E200Z65, PVR_E200Z1};
    case MPC5554 =>
      assert PvrsOf(cpu) == {};
    case _ =>
      assert cpu[0].pvr == core[0].pvr;
      assert PvrsOf(cpu) == {cpu[0].pvr} == PvrsOf(core);
  }

  /** An E200Z0 PVR is found in the MPC5516 CPU table but not in its core
      table (which lists Z1 twice), so the check still hangs. */
  lemma Mpc5516Z0Halts()
    ensures Find(CpuTable(MPC5516), PVR_E200Z0) == Some(1)
    ensures Find(CoreTable(MPC5516), PVR_E200Z0).None?
    ensures CheckCpu(MPC5516, PVR_E200Z0).Halted?
  {
    CheckCpuAccepts(MPC5516, PVR_E200Z0);
  }

  /** On the MPC5668 the CPU table's Z0 entry and the core table's
      "CORE_E200Z0" entry (holding the Z1 PVR) never agree, so both a Z0 and
      a Z1 PVR hang. */
  lemma Mpc5668Z0AndZ1Halt()
    ensures Find(CpuTable(MPC5668), PVR_E200Z0) == Some(1)
    ensures Find(CoreTable(MPC5668), PVR_E200Z1) == Some(1)
    ensures CheckCpu(MPC5668, PVR_E200Z0).Halted?
    ensures CheckCpu(MPC5668, PVR_E200Z1).Halted?
  {
    CheckCpuAccepts(MPC5668, PVR_E200Z0);
    CheckCpuAccepts(MPC5668, PVR_E200Z1);
  }

  /** The MPC5516 core search returns the first of its two identical entries. */
  lemma Mpc5516CoreFirstMatch()
    ensures Find(CoreTable(MPC5516), PVR_E200Z1) == Some(0)
  {
  }
}
