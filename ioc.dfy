/**
 * The Linux ioctl number layout (asm-generic ioctl.h): a 32-bit code holds
 * the command number in bits 0-7, the driver type in bits 8-15, the payload
 * size in bits 16-29 and the transfer direction in bits 30-31.
 */
module Ioc {

  const NR_LIMIT := 0x100
  const TYPE_LIMIT := 0x100
  const SIZE_LIMIT := 0x4000
  const DIR_LIMIT := 4
  const CODE_LIMIT := 0x1_0000_0000

  /** Direction bits: the kernel's view, WRITE means user to kernel. */
  const NONE := 0
  const WRITE := 1
  const READ := 2
  const READ_WRITE := 3

  /** A direction and a command number that fit their bit fields. */
  type DirVal = d: nat | d < DIR_LIMIT
  type NrVal = n: nat | n < NR_LIMIT

  /** An ioctl request code as the tracer sees it (an unsigned int). */
  type Code = c: nat | c < CODE_LIMIT

  datatype Fields = Fields(dir: nat, typ: nat, nr: nat, size: nat)

  predicate Valid(f: Fields)
  {
    f.dir < DIR_LIMIT && f.typ < TYPE_LIMIT && f.nr < NR_LIMIT && f.size < SIZE_LIMIT
  }

  /** The _IOC(dir, type, nr, size) macro. */
  function Encode(f: Fields): (code: Code)
    requires Valid(f)
    ensures code % NR_LIMIT == f.nr
  {
    f.nr + NR_LIMIT * (f.typ + TYPE_LIMIT * (f.size + SIZE_LIMIT * f.dir))
  }

  /** _IOC_NR: the low eight bits. */
  function Nr(code: Code): nat
  {
    code % NR_LIMIT
  }

  /** _IOC_TYPE: bits 8-15. */
  function Type(code: Code): nat
  {
    code / NR_LIMIT % TYPE_LIMIT
  }

  /** _IOC_SIZE: bits 16-29. */
  function Size(code: Code): nat
  {
    code / NR_LIMIT / TYPE_LIMIT % SIZE_LIMIT
  }

  /** _IOC_DIR: bits 30-31. */
  function Dir(code: Code): nat
  {
    code / NR_LIMIT / TYPE_LIMIT / SIZE_LIMIT % DIR_LIMIT
  }

  function Decode(code: Code): (f: Fields)
    ensures Valid(f)
    ensures f.nr == code % NR_LIMIT
  {
    Fields(Dir(code), Type(code), Nr(code), Size(code))
  }

  lemma DivModDigit256(lo: nat, hi: nat)
    requires lo < 0x100
    ensures (lo + 0x100 * hi) % 0x100 == lo
    ensures (lo + 0x100 * hi) / 0x100 == hi
  {
  }

  lemma DivModDigit4000(lo: nat, hi: nat)
    requires lo < 0x4000
    ensures (lo + 0x4000 * hi) % 0x4000 == lo
    ensures (lo + 0x4000 * hi) / 0x4000 == hi
  {
  }

  /** Decoding an encoded code gives back every field. */
  lemma {:induction false} DecodeEncode(f: Fields)
    requires Valid(f)
    ensures Decode(Encode(f)) == f
  {
    var s := f.size + SIZE_LIMIT * f.dir;
    var t := f.typ + TYPE_LIMIT * s;
    DivModDigit256(f.nr, t);
    DivModDigit256(f.typ, s);
    DivModDigit4000(f.size, f.dir);
  }

  /** Every 32-bit code is the encoding of its fields. */
  lemma {:induction false} EncodeDecode(code: Code)
    ensures Encode(Decode(code)) == code
  {
    var q1 := code / NR_LIMIT;
    var q2 := q1 / TYPE_LIMIT;
    var q3 := q2 / SIZE_LIMIT;
    assert code == code % 0x100 + 0x100 * q1;
    assert q1 == q1 % 0x100 + 0x100 * q2;
    assert q2 == q2 % 0x4000 + 0x4000 * q3;
    assert q3 < DIR_LIMIT;
  }

  /** Distinct fields give distinct codes. */
  lemma EncodeInjective(f: Fields, g: Fields)
    requires Valid(f) && Valid(g)
    ensures Encode(f) == Encode(g) <==> f == g
  {
    if Encode(f) == Encode(g) {
      DecodeEncode(f);
      DecodeEncode(g);
    }
  }

  // The request-code macros used by the DRM uapi headers.
  function Io(typ: nat, nr: nat): (code: Code)
    requires typ < TYPE_LIMIT && nr < NR_LIMIT
    ensures Decode(code) == Fields(NONE, typ, nr, 0)
  {
    DecodeEncode(Fields(NONE, typ, nr, 0));
    Encode(Fields(NONE, typ, nr, 0))
  }

  function Iow(typ: nat, nr: nat, size: nat): (code: Code)
    requires typ < TYPE_LIMIT && nr < NR_LIMIT && size < SIZE_LIMIT
    ensures Decode(code) == Fields(WRITE, typ, nr, size)
  {
    DecodeEncode(Fields(WRITE, typ, nr, size));
    Encode(Fields(WRITE, typ, nr, size))
  }

  function Ior(typ: nat, nr: nat, size: nat): (code: Code)
    requires typ < TYPE_LIMIT && nr < NR_LIMIT && size < SIZE_LIMIT
    ensures Decode(code) == Fields(READ, typ, nr, size)
  {
    DecodeEncode(Fields(READ, typ, nr, size));
    Encode(Fields(READ, typ, nr, size))
  }

  function Iowr(typ: nat, nr: nat, size: nat): (code: Code)
    requires typ < TYPE_LIMIT && nr < NR_LIMIT && size < SIZE_LIMIT
    ensures Decode(code) == Fields(READ_WRITE, typ, nr, size)
  {
    DecodeEncode(Fields(READ_WRITE, typ, nr, size));
    Encode(Fields(READ_WRITE, typ, nr, size))
  }
}
