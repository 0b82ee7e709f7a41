/**
 * Brace balance of trace text: how many "{" a text leaves open. A decoder
 * that prints a record must open every brace it closes.
 */
module Braces {
  import opened Trace
  import opened Shapes

  function Weight(t: Tok): int
  {
    if t == Ch('{') then 1 else if t == Ch('}') then -1 else 0
  }

  /** Opening braces minus closing braces. */
  function Depth(t: seq<Tok>): int
  {
    if t == [] then 0 else Depth(t[..|t| - 1]) + Weight(t[|t| - 1])
  }

  lemma {:induction false} DepthAppend(a: seq<Tok>, b: seq<Tok>)
    ensures Depth(a + b) == Depth(a) + Depth(b)
    decreases |b|
  {
    if b == [] {
      assert a + b == a;
    } else {
      assert (a + b)[..|a + b| - 1] == a + b[..|b| - 1];
      DepthAppend(a, b[..|b| - 1]);
    }
  }

  /** Literal text without braces. */
  predicate Plain(s: string)
  {
    '{' !in s && '}' !in s
  }

  lemma {:induction false} DepthPlain(s: string)
    requires Plain(s)
    ensures Depth(Str(s)) == 0
    decreases |s|
  {
    if s != [] {
      assert Str(s)[..|Str(s)| - 1] == Str(s[..|s| - 1]);
      assert s[|s| - 1] in s;
      DepthPlain(s[..|s| - 1]);
    }
  }

  /** A value token is never a brace. */
  lemma DepthValue(f: Fmt, v: int)
    ensures Depth(ValueText(f, v)) == 0
  {
    assert ValueText(f, v)[..0] == [];
  }

  /** A field whose label has no braces changes the depth by its prefix's. */
  lemma DepthField(prefix: string, name: string, f: Fmt, v: int)
    requires Plain(name)
    ensures Depth(FieldText(prefix, name, f, v)) == Depth(Str(prefix))
  {
    assert Plain(name + "=") by {
      assert forall c :: c in name + "=" ==> c in name || c == '=';
    }
    StrAppend(prefix, name + "=");
    assert prefix + name + "=" == prefix + (name + "=");
    DepthAppend(Str(prefix), Str(name + "="));
    DepthPlain(name + "=");
    DepthAppend(Str(prefix + name + "="), ValueText(f, v));
    DepthValue(f, v);
  }

  /** Printing a list item by item adds up the items' depths. */
  lemma DepthCons(it: Item, rest: seq<Item>, r: Rec)
    ensures Depth(ItemsText([it] + rest, r)) == Depth(ItemText(it, r)) + Depth(ItemsText(rest, r))
  {
    assert ([it] + rest)[1..] == rest;
    DepthAppend(ItemText(it, r), ItemsText(rest, r));
  }

  /** Opening text followed by brace-free items is as deep as the opening text. */
  lemma LeadDepth(lead: string, items: seq<Item>, r: Rec)
    requires forall i :: 0 <= i < |items| ==> Flat(items[i])
    ensures Depth(ItemsText([T(lead)] + items, r)) == Depth(Str(lead))
  {
    DepthCons(T(lead), items, r);
    DepthFlat(items, r);
  }

  /** "{" and then brace-free text opens one level. */
  lemma DepthOpen(s: string)
    requires Plain(s)
    ensures Depth(Str("{" + s)) == 1
  {
    StrAppend("{", s);
    DepthAppend(Str("{"), Str(s));
    DepthPlain(s);
    assert Str("{")[..0] == [];
  }

  /** An item that prints no brace, whatever the record holds. */
  predicate Flat(it: Item)
  {
    match it
    case T(s) => Plain(s)
    case F(prefix, name, _) => Plain(prefix) && Plain(name)
    case M(prefix, _, name, _) => Plain(prefix) && Plain(name)
    case NonZero(prefix, name, _) => Plain(prefix) && Plain(name)
    case V(_, _) => true
    case Arr(_, _, _, _) => true
    case StrN(_, _) => true
    case Deref(_) => true
    case _ => false
  }

  lemma DepthFlatItem(it: Item, r: Rec)
    requires Flat(it)
    ensures Depth(ItemText(it, r)) == 0
  {
    match it
    case T(s) => DepthPlain(s);
    case F(prefix, name, fmt) =>
      DepthField(prefix, name, fmt, Get(r, Field(name)));
      DepthPlain(prefix);
    case M(prefix, owner, name, fmt) =>
      DepthField(prefix, name, fmt, Get(r, Field(owner + "." + name)));
      DepthPlain(prefix);
    case NonZero(prefix, name, fmt) =>
      if Get(r, Field(name)) != 0 {
        DepthField(prefix, name, fmt, Get(r, Field(name)));
        DepthPlain(prefix);
      }
    case V(key, fmt) => DepthValue(fmt, Get(r, Field(key)));
    case Arr(_, _, _, _) =>
    case StrN(_, _) =>
    case Deref(_) =>
  }

  /** A run of brace-free items prints balanced text. */
  lemma {:induction false} DepthFlat(items: seq<Item>, r: Rec)
    requires forall i :: 0 <= i < |items| ==> Flat(items[i])
    ensures Depth(ItemsText(items, r)) == 0
    decreases |items|
  {
    if items != [] {
      DepthAppend(ItemText(items[0], r), ItemsText(items[1..], r));
      DepthFlatItem(items[0], r);
      DepthFlat(items[1..], r);
    }
  }

  /**
   * A split decoder whose entering read succeeds and whose output fields
   * print no brace ends the call one level below its entering fields,
   * since the exit always closes with "}".
   */
  lemma SplitDepth(sh: Shape, L: Layout, memIn: Mem, arg: Addr, memOut: Mem, failed: bool)
    requires sh.Split? && !sh.quiet
    requires ReadOrAddr(L, memIn, arg, sh.ty).Some?
    requires forall i :: 0 <= i < |sh.exit| ==> Flat(sh.exit[i])
    ensures Depth(ShapeCall(sh, L, memIn, arg, memOut, failed))
            == Depth(ItemsText(sh.entry, ReadOrAddr(L, memIn, arg, sh.ty).value)) - 1
  {
    var rin := ReadOrAddr(L, memIn, arg, sh.ty).value;
    var rout := Umove(L, memOut, arg, sh.ty);
    var x := if failed || rout.None? then [] else ItemsText(sh.exit, rout.value);
    SplitCall(sh, L, memIn, arg, memOut, failed);
    if !(failed || rout.None?) {
      DepthFlat(sh.exit, rout.value);
    }
    ClosedDepth(ItemsText(sh.entry, rin), x);
  }

  /** ", ", an opened record, brace-free output fields and "}". */
  lemma ClosedDepth(e: seq<Tok>, x: seq<Tok>)
    requires Depth(x) == 0
    ensures Depth(Str(", ") + e + x + Str("}")) == Depth(e) - 1
  {
    DepthAppend(Str(", ") + e + x, Str("}"));
    DepthAppend(Str(", ") + e, x);
    DepthAppend(Str(", "), e);
    DepthPlain(", ");
    assert Str("}")[..0] == [];
  }

  /** A single-phase decoder's text is as deep as its fields once read. */
  lemma SingleDepth(sh: Shape, L: Layout, memIn: Mem, arg: Addr, memOut: Mem, failed: bool)
    requires sh.Single? && !sh.entryOnly
    requires ReadOrAddr(L, memIn, arg, sh.ty).Some?
    ensures Depth(ShapeCall(sh, L, memIn, arg, memOut, failed))
            == Depth(ItemsText(sh.items, ReadOrAddr(L, memIn, arg, sh.ty).value))
  {
    var r := ReadOrAddr(L, memIn, arg, sh.ty).value;
    DepthAppend(Str(", "), ItemsText(sh.items, r));
    DepthPlain(", ");
  }

  /** "{" and a label open one level; ", " and a label open none. */
  lemma LeadTexts(tag: string)
    requires Plain(tag)
    ensures Depth(Str("{" + tag)) == 1
    ensures Depth(Str(", " + tag)) == 0
  {
    DepthOpen(tag);
    assert Plain(", " + tag) by {
      assert forall i :: 0 <= i < |tag| ==> (", " + tag)[i + 2] == tag[i];
    }
    DepthPlain(", " + tag);
  }
}
