/**
 * DRM request codes. Every DRM_IOCTL_* constant is DRM_IO*(nr, type): the
 * DRM ioctl base 'd', a direction, a command number and the size of the
 * structure type, which differs between personalities.
 */
module Request {
  import Ioc
  import opened Trace
  import opened Printer

  /** DRM_IOCTL_BASE, the character 'd'. */
  const DRM_IOCTL_BASE := 0x64

  /** DRM_COMMAND_BASE: driver-specific command numbers start here. */
  const DRM_COMMAND_BASE := 0x40

  /** A case label of a decoder switch: direction, number, structure type. */
  datatype Label = Label(dir: Ioc.DirVal, nr: Ioc.NrVal, ty: string)

  /** The request code a label denotes when structures have layout L. */
  function CodeOf(L: Layout, l: Label): Ioc.Code
  {
    Ioc.Encode(Ioc.Fields(l.dir, DRM_IOCTL_BASE, l.nr, L.sizeOf(l.ty)))
  }

  /** A code carries exactly the label's fields. */
  predicate Matches(L: Layout, code: Ioc.Code, l: Label)
  {
    Ioc.Decode(code) == Ioc.Fields(l.dir, DRM_IOCTL_BASE, l.nr, L.sizeOf(l.ty))
  }

  /** Comparing decoded fields is the same as comparing codes. */
  lemma MatchesIsEquality(L: Layout, code: Ioc.Code, l: Label)
    ensures Matches(L, code, l) <==> code == CodeOf(L, l)
    ensures Matches(L, code, l) ==> Ioc.Nr(code) == l.nr
  {
    var f := Ioc.Fields(l.dir, DRM_IOCTL_BASE, l.nr, L.sizeOf(l.ty));
    Ioc.EncodeDecode(code);
    Ioc.DecodeEncode(f);
  }

  /**
   * What a decode_number hook returns: stop the symbolic lookup (it has
   * printed the request's name itself), or let the tables name it.
   */
  datatype NumberRc = Continue | StopLookup

  /** The text a decode_number hook prints and what it returns. */
  datatype Named = Named(text: seq<Tok>, rc: NumberRc)

  /**
   * xlookup of a request code in an ioctl table: a hit prints the table's
   * name for it and stops the lookup; a miss prints nothing.
   */
  function TableName(table: map<Ioc.Code, string>, code: Ioc.Code): (n: Named)
    ensures n.rc == StopLookup <==> code in table
    ensures code !in table ==> n.text == []
  {
    if code in table then Named(Str(table[code]), StopLookup) else Named([], Continue)
  }

  method RunTableName(tcp: Tcb, table: map<Ioc.Code, string>, code: Ioc.Code) returns (rc: NumberRc)
    modifies tcp`out
    ensures tcp.out == old(tcp.out) + TableName(table, code).text
    ensures rc == TableName(table, code).rc
  {
    if code in table {
      Print(tcp, Str(table[code]));
      return StopLookup;
    }
    return Continue;
  }
}
