/**
 * The output routines every decoder uses: append tokens, print a field,
 * print a run of fields, and read a structure or print its address.
 */
module Printer {
  import Arith
  import opened Trace

  /** tprints and the other appenders. */
  method Print(tcp: Tcb, t: seq<Tok>)
    modifies tcp`out
    ensures tcp.out == old(tcp.out) + t
  {
    tcp.out := tcp.out + t;
  }

  method PrintValue(tcp: Tcb, f: Fmt, v: int)
    modifies tcp`out
    ensures tcp.out == old(tcp.out) + ValueText(f, v)
  {
    match f
    case U => Print(tcp, [Num(Unsigned, v)]);
    case D => Print(tcp, [Num(Signed, v)]);
    case X => Print(tcp, [Num(Hex, v)]);
    case XBare => Print(tcp, [Num(HexBare, v)]);
    case X04 => Print(tcp, [Num(Hex04, v)]);
    case P => Print(tcp, [Num(Pointer, v)]);
    case FdOf => Print(tcp, [Fd(v)]);
    case CStr => Print(tcp, [Quoted(v)]);
    case XVal(table, dflt) => Print(tcp, [Sym(table, v, dflt)]);
    case Flags(table, dflt) => Print(tcp, [FlagSet(table, v, dflt)]);
  }

  /** PRINT_FIELD_*: the prefix, the field's name, its value. */
  method PrintField(tcp: Tcb, prefix: string, name: string, f: Fmt, v: int)
    modifies tcp`out
    ensures tcp.out == old(tcp.out) + FieldText(prefix, name, f, v)
  {
    Print(tcp, Str(prefix + name + "="));
    PrintValue(tcp, f, v);
  }

  method PrintFixed16(tcp: Tcb, v: int)
    modifies tcp`out
    ensures tcp.out == old(tcp.out) + Fixed16Text(v)
  {
    Print(tcp, Str(" /* "));
    Print(tcp, [Num(Unsigned, Arith.High16(v))]);
    Print(tcp, Str("."));
    Print(tcp, [Num(Pad6, Arith.Fixed16Frac(v))]);
    Print(tcp, Str(" */"));
  }

  method PrintBusy(tcp: Tcb, v: int)
    modifies tcp`out
    ensures tcp.out == old(tcp.out) + BusyText(v)
  {
    Print(tcp, Str(", busy="));
    Print(tcp, [Ch(Arith.BusyFlag(v))]);
    Print(tcp, Str(", ring="));
    Print(tcp, [Num(Unsigned, Arith.High16(v))]);
  }

  /** One printing step. */
  method PrintItem(tcp: Tcb, it: Item, r: Rec)
    modifies tcp`out
    ensures tcp.out == old(tcp.out) + ItemText(it, r)
    decreases it
  {
    match it
    case T(s) =>
      Print(tcp, Str(s));
    case F(prefix, name, fmt) =>
      PrintField(tcp, prefix, name, fmt, Get(r, Field(name)));
    case M(prefix, owner, name, fmt) =>
      PrintField(tcp, prefix, name, fmt, Get(r, Field(owner + "." + name)));
    case V(key, fmt) =>
      PrintValue(tcp, fmt, Get(r, Field(key)));
    case NonZero(prefix, name, fmt) =>
      var v := Get(r, Field(name));
      if v != 0 {
        PrintField(tcp, prefix, name, fmt, v);
      }
    case Arr(ptr, count, scale, elem) =>
      Print(tcp, [Array(Get(r, Field(ptr)), Get(r, Field(count)) * scale, elem)]);
    case StrN(ptr, len) =>
      Print(tcp, [Bytes(Get(r, Field(ptr)), Get(r, Field(len)))]);
    case Fixed16(name) =>
      PrintFixed16(tcp, Get(r, Field(name)));
    case Busy(name) =>
      PrintBusy(tcp, Get(r, Field(name)));
    case Deref(name) =>
      Print(tcp, [Foreign(Get(r, Field(name)))]);
    case Group(open, items, close) =>
      ghost var start := tcp.out;
      Print(tcp, Str(open));
      PrintItems(tcp, items, r);
      Print(tcp, Str(close));
      Concat3(start, Str(open), ItemsText(items, r));
      Concat3(start, Str(open) + ItemsText(items, r), Str(close));
  }

  lemma Concat3(a: seq<Tok>, b: seq<Tok>, c: seq<Tok>)
    ensures a + b + c == a + (b + c)
  {
  }

  /** A run of printing steps, in order. */
  method PrintItems(tcp: Tcb, items: seq<Item>, r: Rec)
    modifies tcp`out
    ensures tcp.out == old(tcp.out) + ItemsText(items, r)
    decreases items
  {
    if items != [] {
      ghost var start := tcp.out;
      PrintItem(tcp, items[0], r);
      PrintItems(tcp, items[1..], r);
      Concat3(start, ItemText(items[0], r), ItemsText(items[1..], r));
    }
  }

  /** umove_or_printaddr as a step: on failure the address is printed. */
  method UmoveOrPrintaddr(tcp: Tcb, L: Layout, a: Addr, ty: string) returns (r: Option<Rec>)
    modifies tcp`out
    ensures r == ReadOrAddr(L, tcp.mem, a, ty)
    ensures r.None? ==> tcp.out == old(tcp.out) + PrintAddr(a)
    ensures r.Some? ==> tcp.out == old(tcp.out)
  {
    r := ReadOrAddr(L, tcp.mem, a, ty);
    if r.None? {
      Print(tcp, PrintAddr(a));
    }
  }
}
