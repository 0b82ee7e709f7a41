/**
 * The personality-dependent DRM decoders (drm_mpers.c). Their structures
 * are read with the tracee's layout, and so are the request codes of the
 * exact-code switch, since those encode the structure sizes.
 */
module DrmMpers {
  import Ioc
  import opened Trace
  import opened Printer
  import opened Shapes
  import opened Request

  /** The case labels of drm_ioctl_mpers. */
  datatype Cmd =
    | Version | GetUnique | GetMap | GetClient | GetStats | AddMap | AddBufs
    | MarkBufs | InfoBufs | MapBufs | FreeBufs | RmMap | SetSareaCtx | GetSareaCtx
    | ResCtx | AgpEnable | AgpInfo | AgpAlloc | AgpFree | AgpBind | AgpUnbind
    | SgAlloc | SgFree | WaitVblank | ModeAddFb2

  /** The DRM_IO* definition of each request. */
  function LabelOf(c: Cmd): Label
  {
    match c
    case Version => Label(Ioc.READ_WRITE, 0x00, "drm_version")
    case GetUnique => Label(Ioc.READ_WRITE, 0x01, "drm_unique")
    case GetMap => Label(Ioc.READ_WRITE, 0x04, "drm_map")
    case GetClient => Label(Ioc.READ_WRITE, 0x05, "drm_client")
    case GetStats => Label(Ioc.READ, 0x06, "drm_stats")
    case AddMap => Label(Ioc.READ_WRITE, 0x15, "drm_map")
    case AddBufs => Label(Ioc.READ_WRITE, 0x16, "drm_buf_desc")
    case MarkBufs => Label(Ioc.WRITE, 0x17, "drm_buf_desc")
    case InfoBufs => Label(Ioc.READ_WRITE, 0x18, "drm_buf_info")
    case MapBufs => Label(Ioc.READ_WRITE, 0x19, "drm_buf_map")
    case FreeBufs => Label(Ioc.WRITE, 0x1a, "drm_buf_free")
    case RmMap => Label(Ioc.WRITE, 0x1b, "drm_map")
    case SetSareaCtx => Label(Ioc.WRITE, 0x1c, "drm_ctx_priv_map")
    case GetSareaCtx => Label(Ioc.READ_WRITE, 0x1d, "drm_ctx_priv_map")
    case ResCtx => Label(Ioc.READ_WRITE, 0x26, "drm_ctx_res")
    case AgpEnable => Label(Ioc.WRITE, 0x32, "drm_agp_mode")
    case AgpInfo => Label(Ioc.READ, 0x33, "drm_agp_info")
    case AgpAlloc => Label(Ioc.READ_WRITE, 0x34, "drm_agp_buffer")
    case AgpFree => Label(Ioc.WRITE, 0x35, "drm_agp_buffer")
    case AgpBind => Label(Ioc.WRITE, 0x36, "drm_agp_binding")
    case AgpUnbind => Label(Ioc.WRITE, 0x37, "drm_agp_binding")
    case SgAlloc => Label(Ioc.READ_WRITE, 0x38, "drm_scatter_gather")
    case SgFree => Label(Ioc.WRITE, 0x39, "drm_scatter_gather")
    case WaitVblank => Label(Ioc.READ_WRITE, 0x3a, "drm_wait_vblank")
    case ModeAddFb2 => Label(Ioc.READ_WRITE, 0xb8, "drm_mode_fb_cmd2")
  }

  /** The only label with a given command number, if there is one. */
  function CmdOfNr(nr: nat): Option<Cmd>
  {
    match nr
    case 0x00 => Some(Version)
    case 0x01 => Some(GetUnique)
    case 0x04 => Some(GetMap)
    case 0x05 => Some(GetClient)
    case 0x06 => Some(GetStats)
    case 0x15 => Some(AddMap)
    case 0x16 => Some(AddBufs)
    case 0x17 => Some(MarkBufs)
    case 0x18 => Some(InfoBufs)
    case 0x19 => Some(MapBufs)
    case 0x1a => Some(FreeBufs)
    case 0x1b => Some(RmMap)
    case 0x1c => Some(SetSareaCtx)
    case 0x1d => Some(GetSareaCtx)
    case 0x26 => Some(ResCtx)
    case 0x32 => Some(AgpEnable)
    case 0x33 => Some(AgpInfo)
    case 0x34 => Some(AgpAlloc)
    case 0x35 => Some(AgpFree)
    case 0x36 => Some(AgpBind)
    case 0x37 => Some(AgpUnbind)
    case 0x38 => Some(SgAlloc)
    case 0x39 => Some(SgFree)
    case 0x3a => Some(WaitVblank)
    case 0xb8 => Some(ModeAddFb2)
    case _ => None
  }

  /** Command numbers identify the labels: no two share one. */
  lemma CmdOfNrInverse(c: Cmd, nr: nat)
    ensures CmdOfNr(LabelOf(c).nr) == Some(c)
    ensures CmdOfNr(nr) == Some(c) ==> LabelOf(c).nr == nr
  {
  }

  /** The exact-code switch of drm_ioctl_mpers. */
  function Switch(L: Layout, code: Ioc.Code): Option<Cmd>
  {
    match CmdOfNr(Ioc.Nr(code))
    case None => None
    case Some(c) => if Matches(L, code, LabelOf(c)) then Some(c) else None
  }

  /** The switch selects a case exactly when the code equals its label. */
  lemma {:induction false} SwitchIsExact(L: Layout, code: Ioc.Code, c: Cmd)
    ensures Switch(L, code) == Some(c) <==> code == CodeOf(L, LabelOf(c))
  {
    CmdOfNrInverse(c, Ioc.Nr(code));
    MatchesIsEquality(L, code, LabelOf(c));
  }

  // The decoders. Each is the phase shape it follows and what it prints.

  /** drm_version: the three lengths in, then the version and the strings. */
  function DrmVersion(): Shape
  {
    Arrow("drm_version",
          [F("{", "name_len", U), F(", ", "date_len", U), F(", ", "desc_len", U), T("}")],
          [F("{", "version_major", D), F(", ", "version_minor", D),
           F(", ", "version_patchlevel", D),
           F(", ", "name_len", U), T(", name="), StrN("name", "name_len"),
           F(", ", "date_len", U), T(", date="), StrN("date", "date_len"),
           F(", ", "desc_len", U), T(", desc="), StrN("desc", "desc_len"), T("}")])
  }

  function DrmUnique(): Shape
  {
    Arrow("drm_unique",
          [F("{", "unique_len", U), T("}")],
          [F("{", "unique_len", U), T(", unique="), StrN("unique", "unique_len"), T("}")])
  }

  function DrmGetMap(): Shape
  {
    Arrow("drm_map",
          [F("{", "offset", X), T("}")],
          [F("{", "offset", X), F(", ", "size", U),
           T(", type="), V("type", XVal("drm_map_type", "_DRM_???")),
           T(", flags="), V("flags", XVal("drm_map_flags", "_DRM_???")),
           F(", ", "handle", P), F(", ", "mtrr", D), T("}")])
  }

  function DrmGetClient(): Shape
  {
    Split("drm_client",
          [F("{", "idx", D)],
          [F(", ", "auth", D), F(", ", "pid", U), F(", ", "uid", U),
           F(", ", "magic", U), F(", ", "iocs", U)],
          false)
  }

  /** drm_add_map up to the flags label, which is printed without its "=". */
  function AddMapHead(): seq<Item>
  {
    [F("{", "offset", X), F(", ", "size", U),
     T(", type="), V("type", XVal("drm_map_type", "_DRM_???")), T(", flags")]
  }

  /** The flags value and the end of the record. */
  function AddMapFlags(): seq<Item>
  {
    [V("flags", XVal("drm_map_flags", "_DRM_???")), T("}")]
  }

  /** drm_add_map with the "=" after flags that the other fields have. */
  function DrmAddMap(): Shape
  {
    Single("drm_map", AddMapHead() + [T("=")] + AddMapFlags(), false)
  }

  /** drm_add_map as written: the flags label lacks its "=". */
  function DrmAddMapAsWritten(): Shape
  {
    Single("drm_map", AddMapHead() + AddMapFlags(), false)
  }

  function DrmAddBufs(): Shape
  {
    Arrow("drm_buf_desc",
          [F("{", "count", D), F(", ", "size", D),
           T(", flags="), V("flags", XVal("drm_buf_desc_flags", "_DRM_???")),
           F(", ", "agp_start", X), T("}")],
          [F("{", "count", D), F(", ", "size", D), T("}")])
  }

  function DrmMarkBufs(): Shape
  {
    Single("drm_buf_desc",
           [F("{", "size", D), F(", ", "low_mark", D), F(", ", "high_mark", D), T("}")],
           false)
  }

  function DrmInfoBufs(): Shape
  {
    Arrow("drm_buf_info",
          [T("{"), F("", "list", P), F(", ", "count", D), T("}")],
          [T("{"), F("", "count", D), T("}")])
  }

  function DrmMapBufs(): Shape
  {
    Split("drm_buf_map", [F("{", "count", D), F(", ", "virtual", P)], [F(", ", "list", P)], false)
  }

  function DrmFreeBufs(): Shape
  {
    Single("drm_buf_free", [F("{", "count", D), F(", ", "list", P), T("}")], false)
  }

  function DrmRmMap(): Shape
  {
    Single("drm_map", [F("{", "handle", P), T("}")], false)
  }

  /** SET prints the handle going in, GET coming out. */
  function DrmSareaCtx(isGet: bool): Shape
  {
    Split("drm_ctx_priv_map",
          [F("{", "ctx_id", U)] + (if isGet then [] else [F(", ", "handle", P)]),
          if isGet then [F(", ", "handle", P)] else [],
          false)
  }

  function DrmResCtx(): Shape
  {
    Arrow("drm_ctx_res",
          [F("{", "count", D), T("}")],
          [F("{", "count", D), F(", ", "contexts", P), T("}")])
  }

  function DrmAgpEnable(): Shape
  {
    Single("drm_agp_mode", [F("{", "mode", U), T("}")], false)
  }

  function DrmAgpInfo(): Shape
  {
    ExitOnly("drm_agp_info",
             [F("{", "agp_version_major", D), F(", ", "agp_version_minor", D),
              F(", ", "mode", U), F(", ", "aperture_base", U), F(", ", "aperture_size", U),
              F(", ", "memory_allowed", U), F(", ", "memory_used", U),
              F(", ", "id_vendor", U), F(", ", "id_device", U), T("}")],
             false)
  }

  function DrmAgpAlloc(): Shape
  {
    Split("drm_agp_buffer",
          [F("{", "size", U), F(", ", "type", U)],
          [F(", ", "handle", U), F(", ", "physical", U)],
          false)
  }

  function DrmAgpFree(): Shape
  {
    Single("drm_agp_buffer", [F("{", "handle", U), T("}")], false)
  }

  /** BIND also prints the offset; UNBIND only the handle. */
  function DrmAgpBind(isBind: bool): Shape
  {
    Single("drm_agp_binding",
           [F("{", "handle", U)] + (if isBind then [F(", ", "offset", X)] else []) + [T("}")],
           false)
  }

  /** ALLOC: size in, handle out; FREE: handle in, nothing out. */
  function DrmScatterGather(isAlloc: bool): Shape
  {
    Split("drm_scatter_gather",
          [F("{", if isAlloc then "size" else "handle", U)],
          if isAlloc then [F(", ", "handle", U)] else [],
          false)
  }

  function DrmWaitVblank(): Shape
  {
    Split("drm_wait_vblank",
          [T("{request={type="), V("request.type", XVal("drm_vblank_seq_type", "_DRM_VBLANK_???")),
           M(", ", "request", "sequence", U), M(", ", "request", "signal", U), T("}")],
          [M(", reply={", "reply", "type", U), M(", ", "reply", "sequence", U),
           M(", ", "reply", "tval_sec", U), M(", ", "reply", "tval_usec", U), T("}")],
          false)
  }

  function DrmModeGetConnector(): Shape
  {
    Arrow("drm_mode_get_connector",
          [F("{", "connector_id", U), F(", ", "count_encoders", U), T("}")],
          [F("{", "connector_id", U), F(", ", "count_encoders", U),
           F(", ", "encoders_ptr", P), F(", ", "modes_ptr", P), F(", ", "props_ptr", P),
           F(", ", "prop_values_ptr", P), F(", ", "count_modes", U), F(", ", "count_props", U),
           F(", ", "encoder_id", U), F(", ", "connector_type", U),
           F(", ", "connector_type_id", U), F(", ", "connection", U),
           F(", ", "mm_width", U), F(", ", "mm_height", U), F(", ", "subpixel", U), T("}")])
  }

  /** The four elements of a fixed array field, comma separated. */
  function Quad(name: string): seq<Item>
  {
    [V(name + "[0]", U), T(", "), V(name + "[1]", U), T(", "),
     V(name + "[2]", U), T(", "), V(name + "[3]", U)]
  }

  function DrmModeAddFb2(): Shape
  {
    Split("drm_mode_fb_cmd2",
          [T("{width="), V("width", U), T(", height="), V("height", U),
           T(", pixel_format="), V("pixel_format", X), T(", flags="), V("flags", U),
           T(", handles=[")] + Quad("handles")
          + [T("], pitches=[")] + Quad("pitches")
          + [T("], offsets=[")] + Quad("offsets") + [T("]")]
          + [T(", modifiers=[")] + Quad("modifier") + [T("]")],
          [F(", ", "fb_id", U)],
          false)
  }

  function DrmModeGetPlaneResources(): Shape
  {
    Arrow("drm_mode_get_plane_res",
          [T("{"), F("", "plane_id_ptr", P), F(", ", "count_planes", U), T("}")],
          [T("{"), F("", "count_planes", U), T("}")])
  }

  function DrmModeObjGetProperties(): Shape
  {
    Split("drm_mode_obj_get_properties",
          [F("{", "props_ptr", P), F(", ", "prop_values_ptr", P),
           F(", ", "obj_id", U), F(", ", "obj_type", U)],
          [F(", ", "count_props", U)],
          false)
  }

  function DrmModeObjSetProperty(): Shape
  {
    Single("drm_mode_obj_set_property",
           [F("{", "value", U), F(", ", "prop_id", U), F(", ", "obj_id", U),
            F(", ", "obj_type", U), T("}")],
           false)
  }

  // drm_get_stats, the one decoder with a loop of its own.

  /** drm_stats holds this many counters. */
  const STAT_SLOTS := 15

  /** The i-th "{value=..., type=...}" entry, comma separated from the previous. */
  function StatEntry(r: Rec, i: nat): seq<Tok>
  {
    Str(if i > 0 then ", {value=" else "{value=")
    + [Num(Unsigned, Get(r, Elem("data", i, "value")))]
    + Str(", type=") + [Sym("drm_stat_type", Get(r, Elem("data", i, "type")), "_DRM_STAT_???")]
    + Str("}")
  }

  /** The first n entries. */
  function StatEntries(r: Rec, n: nat): seq<Tok>
  {
    if n == 0 then [] else StatEntries(r, n - 1) + StatEntry(r, n - 1)
  }

  /** The statistics record: count, then the bracketed entries. */
  function StatsRecord(r: Rec): seq<Tok>
  {
    FieldText("{", "count", U, Get(r, Field("count"))) + Str(", data=[")
    + StatEntries(r, STAT_SLOTS) + Str("]}")
  }

  /** drm_get_stats at exit: ", " and the record, whatever syserror says. */
  function GetStatsExit(L: Layout, mem: Mem, arg: Addr): seq<Tok>
  {
    var r := ReadOrAddr(L, mem, arg, "drm_stats");
    Str(", ") + (if r.None? then PrintAddr(arg) else StatsRecord(r.value))
  }

  /** drm_get_stats does nothing before the call and decodes after it. */
  function GetStatsStep(L: Layout, env: Env, arg: Addr): Outcome
  {
    if env.phase == Entering then Outcome([], NeedExit, env.priv)
    else Outcome(GetStatsExit(L, env.mem, arg), IoctlDecoded, env.priv)
  }

  /** How many symbols of a table a text holds. */
  function CountSym(t: seq<Tok>, table: string): nat
  {
    if t == [] then 0
    else (if t[|t| - 1].Sym? && t[|t| - 1].table == table then 1 else 0) + CountSym(t[..|t| - 1], table)
  }

  lemma {:induction false} CountSymAppend(a: seq<Tok>, b: seq<Tok>, table: string)
    ensures CountSym(a + b, table) == CountSym(a, table) + CountSym(b, table)
    decreases |b|
  {
    if b == [] {
      assert a + b == a;
    } else {
      assert (a + b)[..|a + b| - 1] == a + b[..|b| - 1];
      CountSymAppend(a, b[..|b| - 1], table);
    }
  }

  lemma CountSymStr(s: string, table: string)
    ensures CountSym(Str(s), table) == 0
    decreases |s|
  {
    if s != [] {
      assert Str(s)[..|Str(s)| - 1] == Str(s[..|s| - 1]);
      CountSymStr(s[..|s| - 1], table);
    }
  }

  /** Each entry carries one stat-type symbol, so n entries carry n. */
  lemma {:induction false} StatEntriesCount(r: Rec, n: nat)
    ensures CountSym(StatEntries(r, n), "drm_stat_type") == n
  {
    if n > 0 {
      var i := n - 1;
      var lead := if i > 0 then ", {value=" else "{value=";
      var v := [Num(Unsigned, Get(r, Elem("data", i, "value")))];
      var s := [Sym("drm_stat_type", Get(r, Elem("data", i, "type")), "_DRM_STAT_???")];
      StatEntriesCount(r, i);
      CountSymStr(lead, "drm_stat_type");
      CountSymStr(", type=", "drm_stat_type");
      CountSymStr("}", "drm_stat_type");
      assert CountSym(v, "drm_stat_type") == 0;
      assert CountSym(s, "drm_stat_type") == 1;
      CountSymAppend(Str(lead), v, "drm_stat_type");
      CountSymAppend(Str(lead) + v, Str(", type="), "drm_stat_type");
      CountSymAppend(Str(lead) + v + Str(", type="), s, "drm_stat_type");
      CountSymAppend(Str(lead) + v + Str(", type=") + s, Str("}"), "drm_stat_type");
      CountSymAppend(StatEntries(r, i), StatEntry(r, i), "drm_stat_type");
    }
  }

  /**
   * The record prints exactly STAT_SLOTS entries; the first opens with
   * "{value=" and every later one with ", {value=".
   */
  lemma StatsRecordEntries(r: Rec, i: nat)
    ensures CountSym(StatsRecord(r), "drm_stat_type") == STAT_SLOTS
    ensures 0 < i ==> StatEntry(r, i)[..9] == Str(", {value=")
    ensures StatEntry(r, 0)[..7] == Str("{value=")
  {
    var field := FieldText("{", "count", U, Get(r, Field("count")));
    var head := field + Str(", data=[");
    StatEntriesCount(r, STAT_SLOTS);
    CountSymStr("{" + "count" + "=", "drm_stat_type");
    CountSymStr(", data=[", "drm_stat_type");
    CountSymStr("]}", "drm_stat_type");
    CountSymAppend(Str("{" + "count" + "="), ValueText(U, Get(r, Field("count"))), "drm_stat_type");
    assert CountSym(ValueText(U, Get(r, Field("count"))), "drm_stat_type") == 0;
    CountSymAppend(field, Str(", data=["), "drm_stat_type");
    CountSymAppend(head, StatEntries(r, STAT_SLOTS), "drm_stat_type");
    CountSymAppend(head + StatEntries(r, STAT_SLOTS), Str("]}"), "drm_stat_type");
  }

  method PrintStatEntry(tcp: Tcb, r: Rec, i: nat)
    modifies tcp`out
    ensures tcp.out == old(tcp.out) + StatEntry(r, i)
  {
    ghost var start := tcp.out;
    var lead := Str(if i > 0 then ", {value=" else "{value=");
    ghost var v := ValueText(U, Get(r, Elem("data", i, "value")));
    ghost var s := ValueText(XVal("drm_stat_type", "_DRM_STAT_???"), Get(r, Elem("data", i, "type")));
    Print(tcp, lead);
    PrintValue(tcp, U, Get(r, Elem("data", i, "value")));
    Concat3(start, lead, v);
    Print(tcp, Str(", type="));
    Concat3(start, lead + v, Str(", type="));
    PrintValue(tcp, XVal("drm_stat_type", "_DRM_STAT_???"), Get(r, Elem("data", i, "type")));
    Concat3(start, lead + v + Str(", type="), s);
    Print(tcp, Str("}"));
    Concat3(start, lead + v + Str(", type=") + s, Str("}"));
  }

  /** The loop of drm_get_stats: one entry per counter. */
  method PrintStatEntries(tcp: Tcb, r: Rec)
    modifies tcp`out
    ensures tcp.out == old(tcp.out) + StatEntries(r, STAT_SLOTS)
  {
    var i := 0;
    while i < STAT_SLOTS
      invariant 0 <= i <= STAT_SLOTS
      invariant tcp.out == old(tcp.out) + StatEntries(r, i)
    {
      PrintStatEntry(tcp, r, i);
      Concat3(old(tcp.out), StatEntries(r, i), StatEntry(r, i));
      i := i + 1;
    }
  }

  method PrintStatsRecord(tcp: Tcb, r: Rec)
    modifies tcp`out
    ensures tcp.out == old(tcp.out) + StatsRecord(r)
  {
    ghost var start := tcp.out;
    PrintField(tcp, "{", "count", U, Get(r, Field("count")));
    Print(tcp, Str(", data=["));
    ghost var head := FieldText("{", "count", U, Get(r, Field("count"))) + Str(", data=[");
    Concat3(start, FieldText("{", "count", U, Get(r, Field("count"))), Str(", data=["));
    PrintStatEntries(tcp, r);
    Concat3(start, head, StatEntries(r, STAT_SLOTS));
    Print(tcp, Str("]}"));
    Concat3(start, head + StatEntries(r, STAT_SLOTS), Str("]}"));
  }

  method RunGetStats(tcp: Tcb, L: Layout, arg: Addr) returns (rc: Rc)
    modifies tcp`out
    ensures tcp.out == old(tcp.out) + GetStatsStep(L, tcp.State(), arg).text
    ensures rc == GetStatsStep(L, tcp.State(), arg).rc
  {
    if tcp.phase == Entering {
      return NeedExit;
    }
    ghost var start := tcp.out;
    Print(tcp, Str(", "));
    var r := UmoveOrPrintaddr(tcp, L, arg, "drm_stats");
    if r.Some? {
      PrintStatsRecord(tcp, r.value);
    }
    Concat3(start, Str(", "), if r.None? then PrintAddr(arg) else StatsRecord(r.value));
    return IoctlDecoded;
  }

  // drm_ioctl_mpers.

  /** What a case label runs. */
  /** A decoder, drm_get_stats, or the decline of a code nobody decodes. */
  datatype Handler = Shaped(sh: Shape) | Stats | Declined

  function HandlerOf(c: Cmd): (h: Handler)
    ensures h != Declined
  {
    match c
    case Version => Shaped(DrmVersion())
    case GetUnique => Shaped(DrmUnique())
    case GetMap => Shaped(DrmGetMap())
    case GetClient => Shaped(DrmGetClient())
    case GetStats => Stats
    case AddMap => Shaped(DrmAddMapAsWritten())
    case AddBufs => Shaped(DrmAddBufs())
    case MarkBufs => Shaped(DrmMarkBufs())
    case InfoBufs => Shaped(DrmInfoBufs())
    case MapBufs => Shaped(DrmMapBufs())
    case FreeBufs => Shaped(DrmFreeBufs())
    case RmMap => Shaped(DrmRmMap())
    case SetSareaCtx => Shaped(DrmSareaCtx(false))
    case GetSareaCtx => Shaped(DrmSareaCtx(true))
    case ResCtx => Shaped(DrmResCtx())
    case AgpEnable => Shaped(DrmAgpEnable())
    case AgpInfo => Shaped(DrmAgpInfo())
    case AgpAlloc => Shaped(DrmAgpAlloc())
    case AgpFree => Shaped(DrmAgpFree())
    case AgpBind => Shaped(DrmAgpBind(true))
    case AgpUnbind => Shaped(DrmAgpBind(false))
    case SgAlloc => Shaped(DrmScatterGather(true))
    case SgFree => Shaped(DrmScatterGather(false))
    case WaitVblank => Shaped(DrmWaitVblank())
    case ModeAddFb2 => Shaped(DrmModeAddFb2())
  }

  /** The command numbers matched after the switch, whatever the size. */
  const NR_GETCONNECTOR := 0xa7
  const NR_GETPLANERESOURCES := 0xb5
  const NR_OBJ_GETPROPERTIES := 0xb9
  const NR_OBJ_SETPROPERTY := 0xba

  /** drm_ioctl_mpers: exact codes, then command numbers alone, else decline. */
  function Ioctl(L: Layout, code: Ioc.Code): Handler
  {
    match Switch(L, code)
    case Some(c) => HandlerOf(c)
    case None =>
      var nr := Ioc.Nr(code);
      if nr == NR_GETCONNECTOR then Shaped(DrmModeGetConnector())
      else if nr == NR_GETPLANERESOURCES then Shaped(DrmModeGetPlaneResources())
      else if nr == NR_OBJ_GETPROPERTIES then Shaped(DrmModeObjGetProperties())
      else if nr == NR_OBJ_SETPROPERTY then Shaped(DrmModeObjSetProperty())
      else Declined
  }

  /** One invocation of a handler. */
  function Step(h: Handler, L: Layout, env: Env, arg: Addr): Outcome
  {
    match h
    case Shaped(sh) => ShapeStep(sh, L, env, arg)
    case Stats => GetStatsStep(L, env, arg)
    case Declined => Outcome([], Decoded, env.priv)
  }

  method Run(tcp: Tcb, h: Handler, L: Layout, arg: Addr) returns (rc: Rc)
    modifies tcp`out
    ensures tcp.out == old(tcp.out) + Step(h, L, tcp.State(), arg).text
    ensures rc == Step(h, L, tcp.State(), arg).rc
  {
    match h
    case Shaped(sh) => rc := RunShape(tcp, sh, L, arg);
    case Stats => rc := RunGetStats(tcp, L, arg);
    case Declined => rc := Decoded;
  }

  /**
   * The four command numbers matched on their own route to their decoders
   * for any direction, type and size.
   */
  lemma NrOnlyIgnoresSize(L: Layout, code: Ioc.Code)
    requires Ioc.Nr(code) in {NR_GETCONNECTOR, NR_GETPLANERESOURCES, NR_OBJ_GETPROPERTIES, NR_OBJ_SETPROPERTY}
    ensures Ioc.Nr(code) == NR_GETCONNECTOR ==> Ioctl(L, code) == Shaped(DrmModeGetConnector())
    ensures Ioc.Nr(code) == NR_GETPLANERESOURCES ==> Ioctl(L, code) == Shaped(DrmModeGetPlaneResources())
    ensures Ioc.Nr(code) == NR_OBJ_GETPROPERTIES ==> Ioctl(L, code) == Shaped(DrmModeObjGetProperties())
    ensures Ioc.Nr(code) == NR_OBJ_SETPROPERTY ==> Ioctl(L, code) == Shaped(DrmModeObjSetProperty())
  {
    assert CmdOfNr(Ioc.Nr(code)) == None;
  }

  /**
   * drm_ioctl_mpers declines (RVAL_DECODED, no text) exactly on a code that
   * is no label and whose number is none of the four.
   */
  lemma {:induction false} DeclinesExactlyUnmatched(L: Layout, code: Ioc.Code, env: Env, arg: Addr)
    ensures Step(Ioctl(L, code), L, env, arg).rc == Decoded
            <==> ((forall c :: code != CodeOf(L, LabelOf(c)))
                  && Ioc.Nr(code) !in {NR_GETCONNECTOR, NR_GETPLANERESOURCES, NR_OBJ_GETPROPERTIES, NR_OBJ_SETPROPERTY})
    ensures Step(Ioctl(L, code), L, env, arg).rc == Decoded ==> Step(Ioctl(L, code), L, env, arg).text == []
  {
    DeclinedExactly(L, code);
    OnlyDeclinedDeclines(Ioctl(L, code), L, env, arg);
  }

  /** Only the decline returns RVAL_DECODED, and it prints nothing. */
  lemma OnlyDeclinedDeclines(h: Handler, L: Layout, env: Env, arg: Addr)
    ensures Step(h, L, env, arg).rc == Decoded <==> h == Declined
    ensures h == Declined ==> Step(h, L, env, arg).text == []
  {
  }

  lemma {:induction false} DeclinedExactly(L: Layout, code: Ioc.Code)
    ensures Ioctl(L, code) == Declined
            <==> ((forall c :: code != CodeOf(L, LabelOf(c)))
                  && Ioc.Nr(code) !in {NR_GETCONNECTOR, NR_GETPLANERESOURCES, NR_OBJ_GETPROPERTIES, NR_OBJ_SETPROPERTY})
  {
    match Switch(L, code)
    case Some(c) =>
      MatchedNotDeclined(L, code, c);
    case None =>
      UnmatchedByNumber(L, code);
  }

  /** A label's code runs that label's handler, which is never the decline. */
  lemma MatchedNotDeclined(L: Layout, code: Ioc.Code, c: Cmd)
    requires Switch(L, code) == Some(c)
    ensures Ioctl(L, code) == HandlerOf(c) != Declined
    ensures code == CodeOf(L, LabelOf(c))
  {
    SwitchIsExact(L, code, c);
  }

  /** A code that is no label is routed by its command number alone. */
  lemma UnmatchedByNumber(L: Layout, code: Ioc.Code)
    requires Switch(L, code).None?
    ensures forall c :: code != CodeOf(L, LabelOf(c))
    ensures Ioctl(L, code) == Declined
            <==> Ioc.Nr(code) !in {NR_GETCONNECTOR, NR_GETPLANERESOURCES, NR_OBJ_GETPROPERTIES, NR_OBJ_SETPROPERTY}
  {
    forall c: Cmd ensures code != CodeOf(L, LabelOf(c)) {
      SwitchIsExact(L, code, c);
    }
  }

  /**
   * ADD_MAP as written prints the flags value straight after ", flags";
   * the corrected text is the same with "=" in between, as after "type".
   */
  lemma AddMapFlagsLabel(L: Layout, memIn: Mem, arg: Addr, memOut: Mem, failed: bool)
    requires ReadOrAddr(L, memIn, arg, "drm_map").Some?
    ensures var r := ReadOrAddr(L, memIn, arg, "drm_map").value;
            var pre := Str(", ") + ItemsText(AddMapHead(), r);
            var post := ItemsText(AddMapFlags(), r);
            && ShapeCall(DrmAddMap(), L, memIn, arg, memOut, failed) == pre + Str("=") + post
            && ShapeCall(DrmAddMapAsWritten(), L, memIn, arg, memOut, failed) == pre + post
  {
    SingleTextInserted("drm_map", AddMapHead(), "=", AddMapFlags(), false, L, memIn, arg, memOut, failed);
  }

  /** The head ends with the literal ", flags"; the rest starts with the flags value. */
  lemma AddMapPieces(r: Rec)
    ensures var h := ItemsText(AddMapHead(), r);
            |h| >= 7 && h[|h| - 7..] == Str(", flags")
    ensures ItemsText(AddMapFlags(), r) == [Sym("drm_map_flags", Get(r, Field("flags")), "_DRM_???")] + Str("}")
  {
    var head := AddMapHead();
    assert head == head[..4] + [T(", flags")];
    ItemsTextAppend(head[..4], [T(", flags")], r);
    assert ItemsText([T(", flags")], r) == Str(", flags") + [];
    assert Str(", flags") + [] == Str(", flags");
    assert ItemsText(AddMapFlags()[1..], r) == Str("}") + [];
    assert Str("}") + [] == Str("}");
  }

  /** drm_get_stats prints nothing before the call and asks for the exit. */
  lemma GetStatsEntering(L: Layout, mem: Mem, arg: Addr, priv: int, failed: bool)
    ensures Step(Stats, L, Env(Entering, failed, mem, priv), arg) == Outcome([], NeedExit, priv)
  {
  }

  /** drm_agp_info, exit-only likewise. */
  lemma AgpInfoEntering(L: Layout, mem: Mem, arg: Addr, priv: int, failed: bool)
    ensures Step(Shaped(DrmAgpInfo()), L, Env(Entering, failed, mem, priv), arg) == Outcome([], NeedExit, priv)
  {
  }
}
