/**
 * The integer expressions the decoders print: 32-bit unsigned record fields,
 * the kernel's 16.16 fixed-point rendering of plane source coordinates and
 * the i915 busy word.
 */
module Arith {

  const U32_LIMIT := 0x1_0000_0000

  type U32 = v: nat | v < U32_LIMIT

  /** A record field read as __u32: the value modulo 2^32. */
  function AsU32(v: int): U32
  {
    v % U32_LIMIT
  }

  /**
   * v >> 16 on a __u32: the integer part of a 16.16 fixed-point value, and
   * the ring of the i915 busy word.
   */
  function High16(v: int): (w: nat)
    ensures w < 0x1_0000
  {
    AsU32(v) / 0x1_0000
  }

  /** v & 0xffff on a __u32: the fractional sixteenths of sixteenths. */
  function Fixed16Low(v: int): (l: nat)
    ensures l < 0x1_0000
  {
    AsU32(v) % 0x1_0000
  }

  /** ((v & 0xffff) * 15625) >> 10, the six-digit fraction the kernel prints. */
  function Fixed16Frac(v: int): nat
  {
    Fixed16Low(v) * 15625 / 1024
  }

  /** The two halves put back together give the whole 32-bit value. */
  lemma Fixed16Split(v: int)
    ensures High16(v) * 0x1_0000 + Fixed16Low(v) == AsU32(v)
  {
  }

  lemma ScaleDiv(y: nat)
    ensures (64 * y) / 65536 == y / 1024
  {
    var q, r := y / 1024, y % 1024;
    assert y == 1024 * q + r;
    assert 64 * y == 65536 * q + 64 * r;
    assert 64 * r < 65536;
  }

  /**
   * The fraction is floor(low * 10^6 / 2^16): the number of millionths in
   * the fractional part, and it always fits six decimal digits.
   */
  lemma {:induction false} Fixed16FracIsMillionths(v: int)
    ensures Fixed16Frac(v) == Fixed16Low(v) * 1000000 / 65536
    ensures Fixed16Frac(v) * 65536 <= Fixed16Low(v) * 1000000 < (Fixed16Frac(v) + 1) * 65536
    ensures Fixed16Frac(v) <= 999984
  {
    var x := Fixed16Low(v);
    var y := x * 15625;
    assert x * 1000000 == 64 * y;
    ScaleDiv(y);
    assert x <= 65535;
    assert y <= 65535 * 15625;
  }

  /** The busy flag: 'Y' exactly when bit 0 of the __u32 busy word is set. */
  function BusyFlag(v: int): (c: char)
    ensures c == 'Y' || c == 'N'
  {
    if AsU32(v) % 2 == 1 then 'Y' else 'N'
  }

  /**
   * The busy word the kernel writes: the ring in the high half, bit 0 set
   * when the object is busy, and any other low bits in between.
   */
  function BusyWord(busy: bool, mid: nat, ring: nat): (v: U32)
    requires mid < 0x8000 && ring < 0x1_0000
  {
    ring * 0x1_0000 + mid * 2 + (if busy then 1 else 0)
  }

  /** Decoding recovers the flag and the ring from any such word. */
  lemma {:induction false} BusyDecodes(busy: bool, mid: nat, ring: nat)
    requires mid < 0x8000 && ring < 0x1_0000
    ensures BusyFlag(BusyWord(busy, mid, ring)) == (if busy then 'Y' else 'N')
    ensures High16(BusyWord(busy, mid, ring)) == ring
  {
    var v := BusyWord(busy, mid, ring);
    var low := mid * 2 + (if busy then 1 else 0);
    assert low < 0x1_0000;
    assert AsU32(v) == v;
    assert v % 0x1_0000 == low && v / 0x1_0000 == ring;
    assert v % 2 == low % 2 by {
      assert v == 2 * (ring * 0x8000 + mid) + (if busy then 1 else 0);
    }
  }
}
