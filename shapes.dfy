/**
 * The four ways a DRM decoder splits its work between the entering and the
 * exiting call, each given by the structure type it reads and the fields it
 * prints, and the engine that runs one phase of such a decoder.
 */
module Shapes {
  import opened Trace
  import opened Printer

  datatype Shape =
      /**
       * Entering: ", ", read the structure (umove_or_printaddr, or plain
       * umove when quiet), print the input fields with "{" left open and
       * ask for the exit call. Exiting: print the output fields only if the
       * call succeeded and the structure reads again, then close with "}".
       */
    | Split(ty: string, entry: seq<Item>, exit: seq<Item>, quiet: bool)
      /**
       * ", " at entering, " => " at a successful exit, nothing at a failed
       * one; then read the structure and print a complete record.
       */
    | Arrow(ty: string, entry: seq<Item>, exit: seq<Item>)
      /**
       * Decode once and finish. When entryOnly the printing is guarded by
       * entering(tcp), otherwise the decoder does not look at the phase.
       */
    | Single(ty: string, items: seq<Item>, entryOnly: bool)
      /**
       * Nothing to read before the call: at exit read the structure
       * without looking at syserror. The ", " separator is printed at
       * entering when commaFirst, else at exiting.
       */
    | ExitOnly(ty: string, items: seq<Item>, commaFirst: bool)
      /** ", " and the argument as an address. */
    | Raw

  /** Entering a split decoder: read, print the input fields, stay open. */
  function SplitEnter(ty: string, entry: seq<Item>, quiet: bool, L: Layout, mem: Mem, arg: Addr): Outcome
  {
    var r := if quiet then Umove(L, mem, arg, ty) else ReadOrAddr(L, mem, arg, ty);
    if r.None? then Outcome(Str(", ") + (if quiet then [] else PrintAddr(arg)), IoctlDecoded, 0)
    else Outcome(Str(", ") + ItemsText(entry, r.value), NeedExit, 0)
  }

  /** Exiting a split decoder: output fields on success, then "}". */
  function SplitExit(ty: string, exit: seq<Item>, L: Layout, mem: Mem, failed: bool, arg: Addr): seq<Tok>
  {
    var r := if failed then None else Umove(L, mem, arg, ty);
    (if r.None? then [] else ItemsText(exit, r.value)) + Str("}")
  }

  /** Entering an arrow decoder: the input record, complete. */
  function ArrowEnter(ty: string, entry: seq<Item>, L: Layout, mem: Mem, arg: Addr): Outcome
  {
    var r := ReadOrAddr(L, mem, arg, ty);
    if r.None? then Outcome(Str(", ") + PrintAddr(arg), IoctlDecoded, 0)
    else Outcome(Str(", ") + ItemsText(entry, r.value), NeedExit, 0)
  }

  /** Exiting an arrow decoder: nothing on failure, else " => " and a record. */
  function ArrowExit(ty: string, exit: seq<Item>, L: Layout, mem: Mem, failed: bool, arg: Addr): seq<Tok>
  {
    if failed then []
    else
      var r := ReadOrAddr(L, mem, arg, ty);
      Str(" => ") + (if r.None? then PrintAddr(arg) else ItemsText(exit, r.value))
  }

  /** A single-phase decoder's text. */
  function SingleText(ty: string, items: seq<Item>, L: Layout, mem: Mem, arg: Addr): seq<Tok>
  {
    var r := ReadOrAddr(L, mem, arg, ty);
    Str(", ") + (if r.None? then PrintAddr(arg) else ItemsText(items, r.value))
  }

  /** Exiting an exit-only decoder: read and print, whatever syserror says. */
  function ExitOnlyExit(ty: string, items: seq<Item>, commaFirst: bool, L: Layout, mem: Mem, arg: Addr): seq<Tok>
  {
    var r := ReadOrAddr(L, mem, arg, ty);
    (if commaFirst then [] else Str(", ")) + (if r.None? then PrintAddr(arg) else ItemsText(items, r.value))
  }

  /** The result of one decoder invocation in the given phase. */
  function ShapeStep(sh: Shape, L: Layout, env: Env, arg: Addr): (o: Outcome)
    ensures o.priv == env.priv
    ensures o.rc == NeedExit ==> env.phase == Entering
    ensures o.rc != Decoded
  {
    var entering := env.phase == Entering;
    match sh
    case Split(ty, entry, exit, quiet) =>
      if entering then SplitEnter(ty, entry, quiet, L, env.mem, arg).(priv := env.priv)
      else Outcome(SplitExit(ty, exit, L, env.mem, env.syserror, arg), IoctlDecoded, env.priv)
    case Arrow(ty, entry, exit) =>
      if entering then ArrowEnter(ty, entry, L, env.mem, arg).(priv := env.priv)
      else Outcome(ArrowExit(ty, exit, L, env.mem, env.syserror, arg), IoctlDecoded, env.priv)
    case Single(ty, items, entryOnly) =>
      if entryOnly && !entering then Outcome([], IoctlDecoded, env.priv)
      else Outcome(SingleText(ty, items, L, env.mem, arg), IoctlDecoded, env.priv)
    case ExitOnly(ty, items, commaFirst) =>
      if entering then Outcome(if commaFirst then Str(", ") else [], NeedExit, env.priv)
      else Outcome(ExitOnlyExit(ty, items, commaFirst, L, env.mem, arg), IoctlDecoded, env.priv)
    case Raw => Outcome(Str(", ") + PrintAddr(arg), IoctlDecoded, env.priv)
  }

  method RunSplitEnter(tcp: Tcb, ty: string, entry: seq<Item>, quiet: bool, L: Layout, arg: Addr)
    returns (rc: Rc)
    modifies tcp`out
    ensures tcp.out == old(tcp.out) + SplitEnter(ty, entry, quiet, L, tcp.mem, arg).text
    ensures rc == SplitEnter(ty, entry, quiet, L, tcp.mem, arg).rc
  {
    ghost var start := tcp.out;
    Print(tcp, Str(", "));
    var r;
    if quiet {
      r := Umove(L, tcp.mem, arg, ty);
    } else {
      r := UmoveOrPrintaddr(tcp, L, arg, ty);
    }
    if r.None? {
      Concat3(start, Str(", "), if quiet then [] else PrintAddr(arg));
      return IoctlDecoded;
    }
    PrintItems(tcp, entry, r.value);
    Concat3(start, Str(", "), ItemsText(entry, r.value));
    return NeedExit;
  }

  method RunSplitExit(tcp: Tcb, ty: string, exit: seq<Item>, L: Layout, arg: Addr)
    modifies tcp`out
    ensures tcp.out == old(tcp.out) + SplitExit(ty, exit, L, tcp.mem, tcp.syserror, arg)
  {
    ghost var start := tcp.out;
    var r := if tcp.syserror then None else Umove(L, tcp.mem, arg, ty);
    if r.Some? {
      PrintItems(tcp, exit, r.value);
    }
    ghost var body := if r.None? then [] else ItemsText(exit, r.value);
    Print(tcp, Str("}"));
    Concat3(start, body, Str("}"));
  }

  method RunArrowEnter(tcp: Tcb, ty: string, entry: seq<Item>, L: Layout, arg: Addr)
    returns (rc: Rc)
    modifies tcp`out
    ensures tcp.out == old(tcp.out) + ArrowEnter(ty, entry, L, tcp.mem, arg).text
    ensures rc == ArrowEnter(ty, entry, L, tcp.mem, arg).rc
  {
    ghost var start := tcp.out;
    Print(tcp, Str(", "));
    var r := UmoveOrPrintaddr(tcp, L, arg, ty);
    if r.None? {
      Concat3(start, Str(", "), PrintAddr(arg));
      return IoctlDecoded;
    }
    PrintItems(tcp, entry, r.value);
    Concat3(start, Str(", "), ItemsText(entry, r.value));
    return NeedExit;
  }

  method RunArrowExit(tcp: Tcb, ty: string, exit: seq<Item>, L: Layout, arg: Addr)
    modifies tcp`out
    ensures tcp.out == old(tcp.out) + ArrowExit(ty, exit, L, tcp.mem, tcp.syserror, arg)
  {
    if tcp.syserror {
      return;
    }
    ghost var start := tcp.out;
    Print(tcp, Str(" => "));
    var r := UmoveOrPrintaddr(tcp, L, arg, ty);
    if r.Some? {
      PrintItems(tcp, exit, r.value);
    }
    Concat3(start, Str(" => "), if r.None? then PrintAddr(arg) else ItemsText(exit, r.value));
  }

  method RunSingle(tcp: Tcb, ty: string, items: seq<Item>, L: Layout, arg: Addr)
    modifies tcp`out
    ensures tcp.out == old(tcp.out) + SingleText(ty, items, L, tcp.mem, arg)
  {
    ghost var start := tcp.out;
    Print(tcp, Str(", "));
    var r := UmoveOrPrintaddr(tcp, L, arg, ty);
    if r.Some? {
      PrintItems(tcp, items, r.value);
    }
    Concat3(start, Str(", "), if r.None? then PrintAddr(arg) else ItemsText(items, r.value));
  }

  method RunExitOnlyExit(tcp: Tcb, ty: string, items: seq<Item>, commaFirst: bool, L: Layout, arg: Addr)
    modifies tcp`out
    ensures tcp.out == old(tcp.out) + ExitOnlyExit(ty, items, commaFirst, L, tcp.mem, arg)
  {
    ghost var start := tcp.out;
    ghost var lead: seq<Tok> := if commaFirst then [] else Str(", ");
    if !commaFirst {
      Print(tcp, Str(", "));
    }
    assert tcp.out == start + lead;
    var r := UmoveOrPrintaddr(tcp, L, arg, ty);
    ghost var body := if r.None? then PrintAddr(arg) else ItemsText(items, r.value);
    if r.Some? {
      PrintItems(tcp, items, r.value);
    }
    assert tcp.out == start + lead + body;
    assert ExitOnlyExit(ty, items, commaFirst, L, tcp.mem, arg) == lead + body;
    Concat3(start, lead, body);
  }

  /** Run one phase of a shaped decoder against the tracee's state. */
  method RunShape(tcp: Tcb, sh: Shape, L: Layout, arg: Addr) returns (rc: Rc)
    modifies tcp`out
    ensures tcp.out == old(tcp.out) + ShapeStep(sh, L, tcp.State(), arg).text
    ensures rc == ShapeStep(sh, L, tcp.State(), arg).rc
  {
    var entering := tcp.phase == Entering;
    match sh
    case Split(ty, entry, exit, quiet) =>
      if entering {
        rc := RunSplitEnter(tcp, ty, entry, quiet, L, arg);
      } else {
        RunSplitExit(tcp, ty, exit, L, arg);
        rc := IoctlDecoded;
      }
    case Arrow(ty, entry, exit) =>
      if entering {
        rc := RunArrowEnter(tcp, ty, entry, L, arg);
      } else {
        RunArrowExit(tcp, ty, exit, L, arg);
        rc := IoctlDecoded;
      }
    case Single(ty, items, entryOnly) =>
      if !entryOnly || entering {
        RunSingle(tcp, ty, items, L, arg);
      }
      rc := IoctlDecoded;
    case ExitOnly(ty, items, commaFirst) =>
      if entering {
        if commaFirst {
          Print(tcp, Str(", "));
        }
        rc := NeedExit;
      } else {
        RunExitOnlyExit(tcp, ty, items, commaFirst, L, arg);
        rc := IoctlDecoded;
      }
    case Raw =>
      ghost var start := tcp.out;
      Print(tcp, Str(", "));
      Print(tcp, PrintAddr(arg));
      Concat3(start, Str(", "), PrintAddr(arg));
      rc := IoctlDecoded;
  }

  /** The call as a whole: entering, then exiting only when asked for. */
  function ShapeCall(sh: Shape, L: Layout, memIn: Mem, arg: Addr, memOut: Mem, failed: bool): seq<Tok>
  {
    var o1 := ShapeStep(sh, L, Env(Entering, false, memIn, 0), arg);
    if o1.rc == NeedExit then o1.text + ShapeStep(sh, L, Env(Exiting, failed, memOut, o1.priv), arg).text
    else o1.text
  }

  /** A decoder whose entering read fails finishes at once: no exit text. */
  lemma EntryFailureEndsCall(sh: Shape, L: Layout, memIn: Mem, arg: Addr, memOut: Mem, failed: bool)
    requires sh.Split? || sh.Arrow?
    requires sh.Split? ==> !sh.quiet
    requires ReadOrAddr(L, memIn, arg, sh.ty).None?
    ensures ShapeCall(sh, L, memIn, arg, memOut, failed) == Str(", ") + PrintAddr(arg)
    ensures ShapeStep(sh, L, Env(Entering, false, memIn, 0), arg).rc == IoctlDecoded
  {
  }

  /**
   * A split decoder leaves its record open after a successful entering
   * read; when the call fails or the structure no longer reads, exiting
   * appends exactly "}", else the output fields and "}".
   */
  lemma SplitCall(sh: Shape, L: Layout, memIn: Mem, arg: Addr, memOut: Mem, failed: bool)
    requires sh.Split?
    requires (if sh.quiet then Umove(L, memIn, arg, sh.ty) else ReadOrAddr(L, memIn, arg, sh.ty)).Some?
    ensures ShapeStep(sh, L, Env(Entering, false, memIn, 0), arg).rc == NeedExit
    ensures var rin := (if sh.quiet then Umove(L, memIn, arg, sh.ty) else ReadOrAddr(L, memIn, arg, sh.ty)).value;
            var rout := Umove(L, memOut, arg, sh.ty);
            ShapeCall(sh, L, memIn, arg, memOut, failed)
            == Str(", ") + ItemsText(sh.entry, rin)
               + (if failed || rout.None? then [] else ItemsText(sh.exit, rout.value)) + Str("}")
  {
  }

  /**
   * An arrow decoder adds nothing at exit when the call failed; when it
   * succeeded it adds " => " and a fresh record (or the address).
   */
  lemma ArrowCall(sh: Shape, L: Layout, memIn: Mem, arg: Addr, memOut: Mem, failed: bool)
    requires sh.Arrow?
    requires ReadOrAddr(L, memIn, arg, sh.ty).Some?
    ensures var rin := ReadOrAddr(L, memIn, arg, sh.ty).value;
            var rout := ReadOrAddr(L, memOut, arg, sh.ty);
            ShapeCall(sh, L, memIn, arg, memOut, failed)
            == Str(", ") + ItemsText(sh.entry, rin)
               + (if failed then []
                  else Str(" => ") + (if rout.None? then PrintAddr(arg) else ItemsText(sh.exit, rout.value)))
  {
  }

  /** A single-phase decoder never sees the call's outcome. */
  lemma SingleIgnoresOutcome(sh: Shape, L: Layout, memIn: Mem, arg: Addr,
                             m1: Mem, f1: bool, m2: Mem, f2: bool)
    requires sh.Single? || sh.Raw?
    ensures ShapeCall(sh, L, memIn, arg, m1, f1) == ShapeCall(sh, L, memIn, arg, m2, f2)
    ensures ShapeStep(sh, L, Env(Entering, false, memIn, 0), arg).rc == IoctlDecoded
  {
  }

  /** A single-phase decoder prints its record once, at entering, and finishes. */
  lemma SingleCall(sh: Shape, L: Layout, memIn: Mem, arg: Addr, memOut: Mem, failed: bool)
    requires sh.Single?
    ensures ShapeStep(sh, L, Env(Entering, false, memIn, 0), arg).rc == IoctlDecoded
    ensures ShapeCall(sh, L, memIn, arg, memOut, failed) == SingleText(sh.ty, sh.items, L, memIn, arg)
  {
  }

  /** A single-phase decoder whose read succeeds prints ", " and its record. */
  lemma SingleCallRead(sh: Shape, L: Layout, memIn: Mem, arg: Addr, memOut: Mem, failed: bool)
    requires sh.Single? && ReadOrAddr(L, memIn, arg, sh.ty).Some?
    ensures ShapeCall(sh, L, memIn, arg, memOut, failed)
            == Str(", ") + ItemsText(sh.items, ReadOrAddr(L, memIn, arg, sh.ty).value)
  {
    SingleCall(sh, L, memIn, arg, memOut, failed);
  }

  /**
   * Two single-phase decoders whose item lists differ only by literal text
   * between two pieces print the same call with that text inserted.
   */
  lemma SingleTextInserted(ty: string, a: seq<Item>, lit: string, b: seq<Item>, entryOnly: bool,
                           L: Layout, memIn: Mem, arg: Addr, memOut: Mem, failed: bool)
    requires ReadOrAddr(L, memIn, arg, ty).Some?
    ensures var r := ReadOrAddr(L, memIn, arg, ty).value;
            var pre := Str(", ") + ItemsText(a, r);
            var post := ItemsText(b, r);
            && ShapeCall(Single(ty, a + [T(lit)] + b, entryOnly), L, memIn, arg, memOut, failed)
               == pre + Str(lit) + post
            && ShapeCall(Single(ty, a + b, entryOnly), L, memIn, arg, memOut, failed) == pre + post
  {
    var r := ReadOrAddr(L, memIn, arg, ty).value;
    SingleCallRead(Single(ty, a + [T(lit)] + b, entryOnly), L, memIn, arg, memOut, failed);
    SingleCallRead(Single(ty, a + b, entryOnly), L, memIn, arg, memOut, failed);
    InsertedItems(a, lit, b, r);
    Concat4(Str(", "), ItemsText(a, r), Str(lit), ItemsText(b, r));
  }

  lemma InsertedItems(a: seq<Item>, lit: string, b: seq<Item>, r: Rec)
    ensures ItemsText(a + [T(lit)] + b, r) == ItemsText(a, r) + Str(lit) + ItemsText(b, r)
    ensures ItemsText(a + b, r) == ItemsText(a, r) + ItemsText(b, r)
  {
    ItemsTextAppend(a, b, r);
    ItemsTextAppend(a + [T(lit)], b, r);
    ItemsTextAppend(a, [T(lit)], r);
    assert ItemsText([T(lit)], r) == Str(lit) + [];
    assert Str(lit) + [] == Str(lit);
  }

  lemma Concat4(s: seq<Tok>, h: seq<Tok>, m: seq<Tok>, p: seq<Tok>)
    ensures s + (h + m + p) == s + h + m + p
    ensures s + (h + p) == s + h + p
  {
  }

  /**
   * An exit-only decoder reads nothing at entering, so its text does not
   * depend on the memory before the call, and it does not check syserror.
   */
  lemma ExitOnlyIgnoresInput(sh: Shape, L: Layout, m1: Mem, m2: Mem, arg: Addr,
                             memOut: Mem, f1: bool, f2: bool)
    requires sh.ExitOnly?
    ensures ShapeCall(sh, L, m1, arg, memOut, f1) == ShapeCall(sh, L, m2, arg, memOut, f2)
    ensures var r := ReadOrAddr(L, memOut, arg, sh.ty);
            ShapeCall(sh, L, m1, arg, memOut, f1)
            == Str(", ") + (if r.None? then PrintAddr(arg) else ItemsText(sh.items, r.value))
  {
    var r := ReadOrAddr(L, memOut, arg, sh.ty);
    var rest := if r.None? then PrintAddr(arg) else ItemsText(sh.items, r.value);
    if sh.commaFirst {
      assert Str(", ") + ([] + rest) == Str(", ") + rest;
    } else {
      assert [] + (Str(", ") + rest) == Str(", ") + rest;
    }
  }

  /** The raw fallback: ", " and the argument as an address. */
  lemma RawCall(L: Layout, memIn: Mem, arg: Addr, memOut: Mem, failed: bool)
    ensures ShapeCall(Raw, L, memIn, arg, memOut, failed) == Str(", ") + PrintAddr(arg)
    ensures arg == 0 ==> ShapeCall(Raw, L, memIn, arg, memOut, failed) == Str(", ") + Str("NULL")
  {
  }
}
