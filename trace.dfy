/**
 * The tracer's view of one ioctl call: the traced process's memory, the
 * two decoding phases, the per-call stash and the trace output.
 *
 * Output is a sequence of tokens. Literal text is one Ch token per
 * character; a number, a symbolic constant, a file descriptor, an address
 * or an array printed from tracee memory is a single token, so rendering
 * is injective without fixing printf formats.
 */
module Trace {
  import Arith

  datatype Option<T> = None | Some(value: T)

  /** A tracee address (kernel_ulong_t). */
  type Addr = nat

  newtype Byte = b: int | 0 <= b < 256

  /** The bytes readable from each tracee address the call can see. */
  type Mem = map<Addr, seq<Byte>>

  /** A structure size; the ioctl size field has fourteen bits. */
  type Size = n: nat | n < 0x4000

  /** A field of a structure read from the tracee. */
  datatype Key = Field(name: string) | Elem(array: string, index: nat, member: string)

  /** The field values of one structure copied out of the tracee. */
  type Rec = map<Key, int>

  function Get(r: Rec, k: Key): int
  {
    if k in r then r[k] else 0
  }

  /**
   * A personality: the size of each structure type and how its bytes read
   * as fields. Decoders compiled once per ABI are parameterised by it.
   */
  datatype Layout = Layout(sizeOf: string -> Size, view: (string, seq<Byte>) -> Rec)

  /**
   * umove: copy sizeof(type) bytes from the tracee. It succeeds exactly
   * when that many bytes are readable at the address.
   */
  function Umove(L: Layout, mem: Mem, a: Addr, ty: string): Option<Rec>
  {
    if a in mem && L.sizeOf(ty) <= |mem[a]| then Some(L.view(ty, mem[a][..L.sizeOf(ty)]))
    else None
  }

  /** What a read returns depends only on the structure's own bytes. */
  lemma UmoveLocal(L: Layout, m1: Mem, m2: Mem, a: Addr, ty: string)
    requires a in m1 && a in m2
    requires L.sizeOf(ty) <= |m1[a]| && L.sizeOf(ty) <= |m2[a]|
    requires m1[a][..L.sizeOf(ty)] == m2[a][..L.sizeOf(ty)]
    ensures Umove(L, m1, a, ty) == Umove(L, m2, a, ty)
  {
  }

  /**
   * umove_or_printaddr: a null address prints NULL, a failing read prints
   * the address; only a successful read yields the structure.
   */
  function ReadOrAddr(L: Layout, mem: Mem, a: Addr, ty: string): Option<Rec>
  {
    if a == 0 then None else Umove(L, mem, a, ty)
  }

  datatype NumFmt = Unsigned | Signed | Hex | HexBare | Hex04 | Pad6 | Pointer

  datatype Tok =
    | Ch(c: char)
    | Num(fmt: NumFmt, v: int)
    | Sym(table: string, v: int, dflt: string)
    | FlagSet(table: string, v: int, dflt: string)
    | Ptr(a: Addr)
    | Fd(fd: int)
    | Quoted(v: int)
    | Array(ptr: int, count: int, elem: string)
    | Bytes(ptr: int, len: int)
    | Foreign(ptr: int)

  /** Literal text. */
  function Str(s: string): seq<Tok>
  {
    seq(|s|, i requires 0 <= i < |s| => Ch(s[i]))
  }

  lemma StrAppend(s1: string, s2: string)
    ensures Str(s1 + s2) == Str(s1) + Str(s2)
  {
  }

  /** Literal text never contains a value token. */
  predicate IsText(t: seq<Tok>)
  {
    forall i :: 0 <= i < |t| ==> t[i].Ch?
  }

  /** printaddr: NULL for the null address, else the address. */
  function PrintAddr(a: Addr): (t: seq<Tok>)
    ensures a == 0 ==> t == Str("NULL")
    ensures a != 0 ==> t == [Ptr(a)]
  {
    if a == 0 then Str("NULL") else [Ptr(a)]
  }

  /** How a field value is printed. */
  datatype Fmt =
    | U | D | X | XBare | X04 | P | FdOf | CStr
    | XVal(table: string, dflt: string)
    | Flags(table: string, dflt: string)

  function ValueText(f: Fmt, v: int): (t: seq<Tok>)
    ensures |t| == 1 && !t[0].Ch?
  {
    match f
    case U => [Num(Unsigned, v)]
    case D => [Num(Signed, v)]
    case X => [Num(Hex, v)]
    case XBare => [Num(HexBare, v)]
    case X04 => [Num(Hex04, v)]
    case P => [Num(Pointer, v)]
    case FdOf => [Fd(v)]
    case CStr => [Quoted(v)]
    case XVal(table, dflt) => [Sym(table, v, dflt)]
    case Flags(table, dflt) => [FlagSet(table, v, dflt)]
  }

  /** One printing step of a decoder. */
  datatype Item =
      /** Literal text. */
    | T(s: string)
      /** A PRINT_FIELD_* of a top-level field: prefix, "name=", value. */
    | F(prefix: string, name: string, fmt: Fmt)
      /** A PRINT_FIELD_* of a nested field owner.name, labelled name. */
    | M(prefix: string, owner: string, name: string, fmt: Fmt)
      /** A bare value, printed after literal text of its own. */
    | V(key: string, fmt: Fmt)
      /** A field printed only when it is nonzero (padding, reserved). */
    | NonZero(prefix: string, name: string, fmt: Fmt)
      /** print_array at the ptr field of (count field * scale) elements. */
    | Arr(ptr: string, count: string, scale: nat, elem: string)
      /** printstrn of len-field bytes at the ptr field. */
    | StrN(ptr: string, len: string)
      /** The 16.16 fixed-point comment after a plane source field. */
    | Fixed16(name: string)
      /** The i915 busy word: ", busy=Y|N, ring=N". */
    | Busy(name: string)
      /** A value the decoder fetches from tracer memory. */
    | Deref(name: string)
      /** A nested record or a union arm: opening text, fields, closing text. */
    | Group(open: string, items: seq<Item>, close: string)

  /** prefix, "label=", value: the PRINT_FIELD_* pattern. */
  function FieldText(prefix: string, name: string, f: Fmt, v: int): seq<Tok>
  {
    Str(prefix + name + "=") + ValueText(f, v)
  }

  /** tprintf_comment("%u.%06u", whole, fraction) of a 16.16 value. */
  function Fixed16Text(v: int): seq<Tok>
  {
    Str(" /* ") + [Num(Unsigned, Arith.High16(v))] + Str(".")
    + [Num(Pad6, Arith.Fixed16Frac(v))] + Str(" */")
  }

  /** ", busy=%c, ring=%u" of the busy word. */
  function BusyText(v: int): seq<Tok>
  {
    Str(", busy=") + [Ch(Arith.BusyFlag(v))] + Str(", ring=") + [Num(Unsigned, Arith.High16(v))]
  }

  function ItemText(it: Item, r: Rec): seq<Tok>
    decreases it
  {
    match it
    case T(s) => Str(s)
    case F(prefix, name, fmt) => FieldText(prefix, name, fmt, Get(r, Field(name)))
    case M(prefix, owner, name, fmt) => FieldText(prefix, name, fmt, Get(r, Field(owner + "." + name)))
    case V(key, fmt) => ValueText(fmt, Get(r, Field(key)))
    case NonZero(prefix, name, fmt) =>
      if Get(r, Field(name)) != 0 then FieldText(prefix, name, fmt, Get(r, Field(name))) else []
    case Arr(ptr, count, scale, elem) => [Array(Get(r, Field(ptr)), Get(r, Field(count)) * scale, elem)]
    case StrN(ptr, len) => [Bytes(Get(r, Field(ptr)), Get(r, Field(len)))]
    case Fixed16(name) => Fixed16Text(Get(r, Field(name)))
    case Busy(name) => BusyText(Get(r, Field(name)))
    case Deref(name) => [Foreign(Get(r, Field(name)))]
    case Group(open, items, close) => Str(open) + ItemsText(items, r) + Str(close)
  }

  function ItemsText(items: seq<Item>, r: Rec): seq<Tok>
    decreases items
  {
    if items == [] then [] else ItemText(items[0], r) + ItemsText(items[1..], r)
  }

  /** Printing a list in two pieces prints the concatenation. */
  lemma {:induction false} ItemsTextAppend(a: seq<Item>, b: seq<Item>, r: Rec)
    ensures ItemsText(a + b, r) == ItemsText(a, r) + ItemsText(b, r)
  {
    if a == [] {
      assert a + b == b;
    } else {
      assert (a + b)[1..] == a[1..] + b;
      ItemsTextAppend(a[1..], b, r);
    }
  }

  /** The text of a list is the text before an item, the item's, and the text after it. */
  lemma ItemAt(items: seq<Item>, i: nat, r: Rec)
    requires i < |items|
    ensures ItemsText(items, r) == ItemsText(items[..i], r) + (ItemText(items[i], r) + ItemsText(items[i + 1..], r))
  {
    var rest := items[i..];
    assert items == items[..i] + rest;
    ItemsTextAppend(items[..i], rest, r);
    assert rest[0] == items[i] && rest[1..] == items[i + 1..];
  }

  datatype Phase = Entering | Exiting

  /**
   * A decoder's return value: 0 asks to be called again at exit,
   * RVAL_IOCTL_DECODED and RVAL_DECODED end decoding of the call.
   */
  datatype Rc = NeedExit | IoctlDecoded | Decoded

  /** What a decoder can observe about the call. */
  datatype Env = Env(phase: Phase, syserror: bool, mem: Mem, priv: int)

  /** What one decoder invocation does: text appended, return, stash. */
  datatype Outcome = Outcome(text: seq<Tok>, rc: Rc, priv: int)

  /** The traced control block: the call's state and the trace output. */
  class Tcb {
    var out: seq<Tok>
    var phase: Phase
    var syserror: bool
    var mem: Mem
    var priv: int
    /** The tracer's own ABI and the tracee's personality. */
    const native: Layout
    const pers: Layout

    constructor(native: Layout, pers: Layout)
      ensures this.native == native && this.pers == pers
      ensures out == [] && phase == Entering && !syserror && mem == map[] && priv == 0
    {
      this.native := native;
      this.pers := pers;
      out := [];
      phase := Entering;
      syserror := false;
      mem := map[];
      priv := 0;
    }

    function State(): Env
      reads this
    {
      Env(phase, syserror, mem, priv)
    }
  }
}
