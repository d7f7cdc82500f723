/**
  The flash driver's address-space word: a sector number in bits 0-7, an
  address space (low, mid or high) in bits 8-9 and a partition in bits
  10-11, packed and unpacked by the `ADDR_SPACE*` macros; and the lock
  operation codes.
 */
module FlashAddr {

  /** The named address spaces and their count. */
  const ADDR_SPACE_CNT: bv32 := 3
  const ADDR_SPACE_LOW: bv32 := 0
  const ADDR_SPACE_MID: bv32 := 1
  const ADDR_SPACE_HIGH: bv32 := 2

  /** `Flash_Lock` operation codes and the mask that selects one. */
  const FLASH_OP_LOCK: bv32 := 0
  const FLASH_OP_UNLOCK: bv32 := 1
  const FLASH_OP_MASK: bv32 := 1

  /** `ADDR_SPACE_GET`: the address space, bits 8-9. */
  function SpaceGet(x: bv32): (r: bv32)
    ensures r < 4
    ensures r == (x / 256) % 4
  {
    (x >> 8) & 3
  }

  /** `ADDR_SPACE_SET`: the low two bits of `x` moved to bits 8-9. */
  function SpaceSet(x: bv32): (r: bv32)
    ensures r == (x % 4) * 256
    ensures r & !0x300 == 0
  {
    (x & 3) << 8
  }

  /** `ADDR_SPACE_GET_SECTOR`: the sector, bits 0-7. */
  function SectorGet(x: bv32): (r: bv32)
    ensures r < 256
    ensures r == x % 256
  {
    x & 0xff
  }

  /** `ADDR_SPACE_GET_PART`: the partition, bits 10-11. */
  function PartGet(x: bv32): (r: bv32)
    ensures r < 4
    ensures r == (x / 1024) % 4
  {
    (x >> 10) & 3
  }

  /** `ADDR_SPACE_SET_PART`: the low two bits of `x` moved to bits 10-11. */
  function PartSet(x: bv32): (r: bv32)
    ensures r == (x % 4) * 1024
    ensures r & !0xC00 == 0
  {
    (x & 3) << 10
  }

  /** `ADDR_SPACE(sector, space, partition)`. The sector is OR-ed in
      unmasked. For in-range fields the three parts occupy disjoint bits,
      so the OR is a sum. */
  function AddrSpace(sector: bv32, space: bv32, partition: bv32): (r: bv32)
    ensures sector < 256 ==> r == (partition % 4) * 1024 + (space % 4) * 256 + sector
  {
    PartSet(partition) | SpaceSet(space) | sector
  }

  /** The three fields of an address-space word. */
  datatype Location = Location(sector: bv32, space: bv32, partition: bv32)

  /** Fields that fit their bit ranges. */
  predicate Valid(l: Location) {
    l.sector < 256 && l.space < 4 && l.partition < 4
  }

  function Encode(l: Location): bv32 {
    AddrSpace(l.sector, l.space, l.partition)
  }

  function Decode(x: bv32): (l: Location)
    ensures Valid(l)
  {
    Location(SectorGet(x), SpaceGet(x), PartGet(x))
  }

  /** Each getter recovers the field it reads from an `ADDR_SPACE` word. */
  lemma FieldsRoundTrip(s: bv32, sp: bv32, p: bv32)
    requires s < 256
    ensures SectorGet(AddrSpace(s, sp, p)) == s
    ensures SpaceGet(AddrSpace(s, sp, p)) == sp % 4
    ensures PartGet(AddrSpace(s, sp, p)) == p % 4
  {
  }

  /** Decoding an encoded valid location gives it back. */
  lemma DecodeEncode(l: Location)
    requires Valid(l)
    ensures Decode(Encode(l)) == l
  {
    FieldsRoundTrip(l.sector, l.space, l.partition);
  }

  /** Every word of twelve bits is the encoding of its decoding. */
  lemma EncodeDecode(x: bv32)
    requires x < 4096
    ensures Encode(Decode(x)) == x
  {
  }

  /** Encoding is one-to-one on valid locations. */
  lemma EncodeInjective(a: Location, b: Location)
    requires Valid(a) && Valid(b) && Encode(a) == Encode(b)
    ensures a == b
  {
    DecodeEncode(a);
    DecodeEncode(b);
  }

  /** The setters keep only the low two bits of their argument. */
  lemma SettersMask(x: bv32)
    ensures SpaceSet(x) == SpaceSet(x & 3)
    ensures PartSet(x) == PartSet(x & 3)
  {
  }

  /** Encoded words stay below 4096 and their space field is what was
      asked for, for each of the named spaces. */
  lemma NamedSpacesRoundTrip(s: bv32, p: bv32)
    requires s < 256
    ensures forall sp :: sp < ADDR_SPACE_CNT ==> SpaceGet(AddrSpace(s, sp, p)) == sp
    ensures forall sp :: sp < ADDR_SPACE_CNT ==> AddrSpace(s, sp, p) < 4096
    ensures SpaceGet(AddrSpace(s, ADDR_SPACE_LOW, p)) == ADDR_SPACE_LOW
    ensures SpaceGet(AddrSpace(s, ADDR_SPACE_MID, p)) == ADDR_SPACE_MID
    ensures SpaceGet(AddrSpace(s, ADDR_SPACE_HIGH, p)) == ADDR_SPACE_HIGH
    ensures AddrSpace(s, ADDR_SPACE_HIGH, p) < 4096
  {
    forall sp | sp < ADDR_SPACE_CNT
      ensures SpaceGet(AddrSpace(s, sp, p)) == sp && AddrSpace(s, sp, p) < 4096
    {
      FieldsRoundTrip(s, sp, p);
    }
  }

  /** The sector is not masked: sector 256 lands in the space field, so
      `ADDR_SPACE(256, LOW, 0)` decodes as sector 0 of the mid space. */
  lemma WideSectorSpills()
    ensures Decode(AddrSpace(256, ADDR_SPACE_LOW, 0)) == Location(0, ADDR_SPACE_MID, 0)
  {
  }

  /** `op & FLASH_OP_MASK` is always one of the two operation codes, and
      the low bit alone decides which. */
  lemma LockOpMasked(op: bv32)
    ensures op & FLASH_OP_MASK == FLASH_OP_LOCK || op & FLASH_OP_MASK == FLASH_OP_UNLOCK
    ensures op & FLASH_OP_MASK == FLASH_OP_UNLOCK <==> op % 2 == 1
  {
  }
}
