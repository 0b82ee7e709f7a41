/**
 * The i915 DRM decoders (drm_i915.c): the request-number hook, the switch
 * of drm_i915_ioctl with its raw-address fallback, the record decoders,
 * the busy word and the getparam decoder, which follows a pointer out of
 * the record it read. The file is compiled once per personality, so every
 * structure here has the tracee's layout.
 */
module DrmI915 {
  import Ioc
  import Arith
  import opened Trace
  import opened Printer
  import opened Shapes
  import opened Request
  import opened Braces

  /** The case labels of drm_i915_ioctl. */
  datatype Cmd =
    | Init | Batchbuffer | GetParam | SetParam | GemExecbuffer2 | GemBusy | GemCreate
    | GemPread | GemPwrite | GemMmap | GemMmapGtt | GemSetDomain | GemMadvise
    | GemGetTiling | GemSetTiling | GemUserptr

  /** DRM_IOCTL_I915_*: DRM_COMMAND_BASE plus the driver's command number. */
  function LabelOf(c: Cmd): Label
  {
    match c
    case Init => Label(Ioc.WRITE, 0x40, "_drm_i915_init")
    case Batchbuffer => Label(Ioc.WRITE, 0x43, "drm_i915_batchbuffer")
    case GetParam => Label(Ioc.READ_WRITE, 0x46, GETPARAM_TYPE)
    case SetParam => Label(Ioc.WRITE, 0x47, "drm_i915_setparam")
    case GemExecbuffer2 => Label(Ioc.WRITE, 0x69, "drm_i915_gem_execbuffer2")
    case GemBusy => Label(Ioc.READ_WRITE, 0x57, "drm_i915_gem_busy")
    case GemCreate => Label(Ioc.READ_WRITE, 0x5b, "drm_i915_gem_create")
    case GemPread => Label(Ioc.WRITE, 0x5c, "drm_i915_gem_pread")
    case GemPwrite => Label(Ioc.WRITE, 0x5d, "drm_i915_gem_pwrite")
    case GemMmap => Label(Ioc.READ_WRITE, 0x5e, "drm_i915_gem_mmap")
    case GemMmapGtt => Label(Ioc.READ_WRITE, 0x64, "drm_i915_gem_mmap_gtt")
    case GemSetDomain => Label(Ioc.WRITE, 0x5f, "drm_i915_gem_set_domain")
    case GemMadvise => Label(Ioc.READ_WRITE, 0x66, "drm_i915_gem_madvise")
    case GemGetTiling => Label(Ioc.READ_WRITE, 0x62, "drm_i915_gem_get_tiling")
    case GemSetTiling => Label(Ioc.READ_WRITE, 0x61, "drm_i915_gem_set_tiling")
    case GemUserptr => Label(Ioc.READ_WRITE, 0x73, "drm_i915_gem_userptr")
  }

  /** The only label with a given command number, if there is one. */
  function CmdOfNr(nr: nat): Option<Cmd>
  {
    match nr
    case 0x40 => Some(Init)
    case 0x43 => Some(Batchbuffer)
    case 0x46 => Some(GetParam)
    case 0x47 => Some(SetParam)
    case 0x69 => Some(GemExecbuffer2)
    case 0x57 => Some(GemBusy)
    case 0x5b => Some(GemCreate)
    case 0x5c => Some(GemPread)
    case 0x5d => Some(GemPwrite)
    case 0x5e => Some(GemMmap)
    case 0x64 => Some(GemMmapGtt)
    case 0x5f => Some(GemSetDomain)
    case 0x66 => Some(GemMadvise)
    case 0x62 => Some(GemGetTiling)
    case 0x61 => Some(GemSetTiling)
    case 0x73 => Some(GemUserptr)
    case _ => None
  }

  /** Command numbers identify the labels, all in the driver range. */
  lemma CmdOfNrInverse(c: Cmd, nr: nat)
    ensures CmdOfNr(LabelOf(c).nr) == Some(c)
    ensures CmdOfNr(nr) == Some(c) ==> LabelOf(c).nr == nr
    ensures DRM_COMMAND_BASE <= LabelOf(c).nr < 0xa0
  {
  }

  /** The switch of drm_i915_ioctl: a case is taken on its exact code. */
  function Switch(L: Layout, code: Ioc.Code): Option<Cmd>
  {
    match CmdOfNr(Ioc.Nr(code))
    case None => None
    case Some(c) => if Matches(L, code, LabelOf(c)) then Some(c) else None
  }

  lemma {:induction false} SwitchIsExact(L: Layout, code: Ioc.Code, c: Cmd)
    ensures Switch(L, code) == Some(c) <==> code == CodeOf(L, LabelOf(c))
  {
    CmdOfNrInverse(c, Ioc.Nr(code));
    MatchesIsEquality(L, code, LabelOf(c));
  }

  // drm_i915_decode_number.

  /**
   * drm_i915_decode_number: the name the drm_i915_ioctls table gives the
   * code, and the end of the lookup; on a miss, nothing.
   */
  function DecodeNumber(ioctls: map<Ioc.Code, string>, code: Ioc.Code): Named
  {
    TableName(ioctls, code)
  }

  method RunDecodeNumber(tcp: Tcb, ioctls: map<Ioc.Code, string>, code: Ioc.Code) returns (rc: NumberRc)
    modifies tcp`out
    ensures tcp.out == old(tcp.out) + DecodeNumber(ioctls, code).text
    ensures rc == DecodeNumber(ioctls, code).rc
  {
    rc := RunTableName(tcp, ioctls, code);
  }

  // The record decoders.

  function InitDecoder(): Shape
  {
    Single("_drm_i915_init",
           [F("{", "func", X), F(", ", "mmio_offset", X), F(", ", "sarea_priv_offset", D),
            F(", ", "ring_start", U), F(", ", "ring_end", U), F(", ", "ring_size", U),
            F(", ", "front_offset", X), F(", ", "back_offset", X), F(", ", "depth_offset", X),
            F(", ", "w", U), F(", ", "h", U), F(", ", "pitch", U), F(", ", "pitch_bits", U),
            F(", ", "back_pitch", U), F(", ", "depth_pitch", U), F(", ", "cpp", U),
            F(", ", "chipset", U), T("}")],
           false)
  }

  /** The fields of the batch buffer record before its clip rectangle. */
  function BatchbufferHead(): seq<Item>
  {
    [F("{", "start", D), F(", ", "used", D), F(", ", "DR1", D), F(", ", "DR4", D),
     F(", ", "num_cliprects", D)]
  }

  /**
   * i915_batchbuffer as written: no separator before "cliprects={", the
   * rectangle fetched through the tracee's pointer in the tracer's own
   * memory, and only the rectangle's brace closed.
   */
  function BatchbufferAsWritten(): Shape
  {
    Single("drm_i915_batchbuffer",
           BatchbufferHead() + [T("cliprects={"), Deref("cliprects"), T("}")],
           false)
  }

  /** i915_batchbuffer with a separator, the pointer printed as an address, the record closed. */
  function BatchbufferDecoder(): Shape
  {
    Single("drm_i915_batchbuffer",
           BatchbufferHead() + [F(", ", "cliprects", P), T("}")],
           false)
  }

  function SetParamDecoder(): Shape
  {
    Single("drm_i915_setparam",
           [T("{param="), V("param", XVal("drm_i915_setparams", "I915_PARAM_???")),
            F(", ", "value", D), T("}")],
           false)
  }

  function Execbuffer2Decoder(): Shape
  {
    Single("drm_i915_gem_execbuffer2",
           [F("{", "buffers_ptr", P), F(", ", "buffer_count", U), F(", ", "batch_start_offset", X),
            F(", ", "batch_len", U), F(", ", "DR1", U), F(", ", "DR4", U),
            F(", ", "num_cliprects", U), F(", ", "cliprects_ptr", P), F(", ", "flags", X), T("}")],
           false)
  }

  /** gem_busy: the handle going in, the decoded busy word coming out. */
  function BusyDecoder(): Shape
  {
    Split("drm_i915_gem_busy", [F("{", "handle", U)], [Busy("busy")], false)
  }

  function CreateDecoder(): Shape
  {
    Split("drm_i915_gem_create", [F("{", "size", U)], [F(", ", "handle", U)], false)
  }

  function PreadDecoder(): Shape
  {
    Single("drm_i915_gem_pread",
           [F("{", "handle", U), F(", ", "offset", U), F(", ", "size", U), F(", ", "data_ptr", P), T("}")],
           false)
  }

  function PwriteDecoder(): Shape
  {
    Single("drm_i915_gem_pwrite",
           [F("{", "handle", U), F(", ", "offset", U), F(", ", "size", U), F(", ", "data_ptr", P), T("}")],
           false)
  }

  function MmapDecoder(): Shape
  {
    Split("drm_i915_gem_mmap",
          [F("{", "handle", U), F(", ", "size", U)],
          [F(", ", "offset", U), F(", ", "addr_ptr", P)],
          false)
  }

  function MmapGttDecoder(): Shape
  {
    Split("drm_i915_gem_mmap_gtt", [F("{", "handle", U)], [F(", ", "offset", U)], false)
  }

  /** gem_set_domain prints under entering(tcp) and finishes there. */
  function SetDomainDecoder(): Shape
  {
    Single("drm_i915_gem_set_domain",
           [F("{", "handle", U), F(", ", "read_domains", XBare), F(", ", "write_domain", XBare), T("}")],
           true)
  }

  function MadviseDecoder(): Shape
  {
    Split("drm_i915_gem_madvise",
          [F("{", "handle", U), F(", ", "madv", U)],
          [F(", ", "retained", U)],
          false)
  }

  function GetTilingDecoder(): Shape
  {
    Split("drm_i915_gem_get_tiling",
          [F("{", "handle", U)],
          [F(", ", "tiling_mode", U), F(", ", "swizzle_mode", U)],
          false)
  }

  /** gem_set_tiling reads with plain umove at entering. */
  function SetTilingDecoder(): Shape
  {
    Split("drm_i915_gem_set_tiling",
          [F("{", "handle", U), F(", ", "tiling_mode", U), F(", ", "stride", U)],
          [F(", ", "swizzle_mode", U)],
          true)
  }

  function UserptrDecoder(): Shape
  {
    Split("drm_i915_gem_userptr",
          [F("{", "user_ptr", P), F(", ", "user_size", U)],
          [F(", ", "flags", X), F(", ", "handle", U)],
          false)
  }

  // i915_getparam: the value lives behind a pointer in the record.

  const GETPARAM_TYPE := "drm_i915_getparam"

  /** The pointee of getparam's value field. */
  const INT_TYPE := "int"

  const I915_PARAM_CHIPSET_ID := 4

  /** The parameter, printed at entering with the record left open. */
  function GetParamHead(): seq<Item>
  {
    [T("{param="), V("param", XVal("drm_i915_getparams", "I915_PARAM_???"))]
  }

  function GetParamEnter(L: Layout, mem: Mem, arg: Addr, priv: int): Outcome
  {
    var r := ReadOrAddr(L, mem, arg, GETPARAM_TYPE);
    if r.None? then Outcome(Str(", ") + PrintAddr(arg), IoctlDecoded, priv)
    else Outcome(Str(", ") + ItemsText(GetParamHead(), r.value), NeedExit, priv)
  }

  /** The tracee addresses a kernel_ulong_t can hold. */
  const ULONG_RANGE := 0x1_0000_0000_0000_0000

  /**
   * umove of an int at a pointer taken from a record. The pointer, cast to
   * long, reaches umove as a kernel_ulong_t, so a negative value names the
   * address it wraps to. A scalar's value is its field with the empty name.
   */
  function ReadInt(L: Layout, mem: Mem, p: int): (v: Option<int>)
    ensures var a := p % ULONG_RANGE;
            v.Some? <==> a in mem && L.sizeOf(INT_TYPE) <= |mem[a]|
  {
    match Umove(L, mem, p % ULONG_RANGE, INT_TYPE)
    case None => None
    case Some(rv) => Some(Get(rv, Field("")))
  }

  /** ", value=": the chipset id as 0x%04x, any other parameter as %d. */
  function ParamValueText(param: int, v: int): seq<Tok>
  {
    Str(", value=") + ValueText(if param == I915_PARAM_CHIPSET_ID then X04 else D, v)
  }

  /**
   * The exit as written: when the value pointer does not read, return at
   * once, leaving the "{param=" of the entering call open.
   */
  function GetParamExitAsWritten(L: Layout, mem: Mem, failed: bool, arg: Addr): seq<Tok>
  {
    var r := if failed then None else Umove(L, mem, arg, GETPARAM_TYPE);
    if r.None? then Str("}")
    else match ReadInt(L, mem, Get(r.value, Field("value")))
      case None => []
      case Some(v) => ParamValueText(Get(r.value, Field("param")), v) + Str("}")
  }

  /** The exit with the record closed on every path. */
  function GetParamExit(L: Layout, mem: Mem, failed: bool, arg: Addr): seq<Tok>
  {
    var r := if failed then None else Umove(L, mem, arg, GETPARAM_TYPE);
    if r.None? then Str("}")
    else match ReadInt(L, mem, Get(r.value, Field("value")))
      case None => Str("}")
      case Some(v) => ParamValueText(Get(r.value, Field("param")), v) + Str("}")
  }

  function GetParamStep(L: Layout, env: Env, arg: Addr): (o: Outcome)
    ensures o.priv == env.priv
    ensures o.rc == NeedExit ==> env.phase == Entering
  {
    if env.phase == Entering then GetParamEnter(L, env.mem, arg, env.priv)
    else Outcome(GetParamExitAsWritten(L, env.mem, env.syserror, arg), IoctlDecoded, env.priv)
  }

  method RunGetParamEnter(tcp: Tcb, L: Layout, arg: Addr) returns (rc: Rc)
    modifies tcp`out
    ensures tcp.out == old(tcp.out) + GetParamEnter(L, tcp.mem, arg, tcp.priv).text
    ensures rc == GetParamEnter(L, tcp.mem, arg, tcp.priv).rc
  {
    ghost var start := tcp.out;
    Print(tcp, Str(", "));
    var r := UmoveOrPrintaddr(tcp, L, arg, GETPARAM_TYPE);
    if r.None? {
      Concat3(start, Str(", "), PrintAddr(arg));
      return IoctlDecoded;
    }
    PrintItems(tcp, GetParamHead(), r.value);
    Concat3(start, Str(", "), ItemsText(GetParamHead(), r.value));
    return NeedExit;
  }

  method RunGetParamExit(tcp: Tcb, L: Layout, arg: Addr)
    modifies tcp`out
    ensures tcp.out == old(tcp.out) + GetParamExitAsWritten(L, tcp.mem, tcp.syserror, arg)
  {
    ghost var start := tcp.out;
    var r := if tcp.syserror then None else Umove(L, tcp.mem, arg, GETPARAM_TYPE);
    if r.Some? {
      var v := ReadInt(L, tcp.mem, Get(r.value, Field("value")));
      if v.None? {
        assert start + [] == start;
        return;
      }
      var text := ParamValueText(Get(r.value, Field("param")), v.value);
      Print(tcp, text);
      Print(tcp, Str("}"));
      Concat3(start, text, Str("}"));
      return;
    }
    Print(tcp, Str("}"));
  }

  method RunGetParam(tcp: Tcb, L: Layout, arg: Addr) returns (rc: Rc)
    modifies tcp`out
    ensures tcp.out == old(tcp.out) + GetParamStep(L, tcp.State(), arg).text
    ensures rc == GetParamStep(L, tcp.State(), arg).rc
  {
    if tcp.phase == Entering {
      rc := RunGetParamEnter(tcp, L, arg);
    } else {
      RunGetParamExit(tcp, L, arg);
      rc := IoctlDecoded;
    }
  }

  // drm_i915_ioctl.

  datatype Handler = Shaped(sh: Shape) | GetParamOp

  function HandlerOf(c: Cmd): Handler
  {
    match c
    case Init => Shaped(InitDecoder())
    case Batchbuffer => Shaped(BatchbufferAsWritten())
    case GetParam => GetParamOp
    case SetParam => Shaped(SetParamDecoder())
    case GemExecbuffer2 => Shaped(Execbuffer2Decoder())
    case GemBusy => Shaped(BusyDecoder())
    case GemCreate => Shaped(CreateDecoder())
    case GemPread => Shaped(PreadDecoder())
    case GemPwrite => Shaped(PwriteDecoder())
    case GemMmap => Shaped(MmapDecoder())
    case GemMmapGtt => Shaped(MmapGttDecoder())
    case GemSetDomain => Shaped(SetDomainDecoder())
    case GemMadvise => Shaped(MadviseDecoder())
    case GemGetTiling => Shaped(GetTilingDecoder())
    case GemSetTiling => Shaped(SetTilingDecoder())
    case GemUserptr => Shaped(UserptrDecoder())
  }

  /** drm_i915_ioctl: the exact-code switch, else ", " and the raw address. */
  function Ioctl(L: Layout, code: Ioc.Code): Handler
  {
    match Switch(L, code)
    case Some(c) => HandlerOf(c)
    case None => Shaped(Raw)
  }

  function Step(h: Handler, L: Layout, env: Env, arg: Addr): (o: Outcome)
    ensures o.priv == env.priv
    ensures o.rc == NeedExit ==> env.phase == Entering
  {
    match h
    case Shaped(sh) => ShapeStep(sh, L, env, arg)
    case GetParamOp => GetParamStep(L, env, arg)
  }

  method Run(tcp: Tcb, h: Handler, L: Layout, arg: Addr) returns (rc: Rc)
    modifies tcp`out
    ensures tcp.out == old(tcp.out) + Step(h, L, tcp.State(), arg).text
    ensures rc == Step(h, L, tcp.State(), arg).rc
  {
    match h
    case Shaped(sh) => rc := RunShape(tcp, sh, L, arg);
    case GetParamOp => rc := RunGetParam(tcp, L, arg);
  }

  /** The whole call: entering, then exiting if asked. */
  function Call(h: Handler, L: Layout, memIn: Mem, arg: Addr, memOut: Mem, failed: bool): seq<Tok>
  {
    var o1 := Step(h, L, Env(Entering, false, memIn, 0), arg);
    if o1.rc == NeedExit then o1.text + Step(h, L, Env(Exiting, failed, memOut, o1.priv), arg).text
    else o1.text
  }

  // Properties.

  /**
   * An unmatched code prints ", " and the raw address and finishes; every
   * label runs its own decoder.
   */
  lemma {:induction false} IoctlFallback(L: Layout, code: Ioc.Code, env: Env, arg: Addr)
    ensures (forall c :: code != CodeOf(L, LabelOf(c))) ==>
              Step(Ioctl(L, code), L, env, arg) == Outcome(Str(", ") + PrintAddr(arg), IoctlDecoded, env.priv)
    ensures forall c :: code == CodeOf(L, LabelOf(c)) ==> Ioctl(L, code) == HandlerOf(c)
  {
    match Switch(L, code)
    case Some(c) =>
      SwitchIsExact(L, code, c);
      forall c' | code == CodeOf(L, LabelOf(c')) ensures Ioctl(L, code) == HandlerOf(c') {
        SwitchIsExact(L, code, c');
      }
    case None =>
      forall c' | code == CodeOf(L, LabelOf(c')) ensures false {
        SwitchIsExact(L, code, c');
      }
  }

  /** A code that is none of the labels reaches the raw fallback. */
  lemma UnmatchedIsRaw(L: Layout, code: Ioc.Code)
    requires forall c :: code != CodeOf(L, LabelOf(c))
    ensures Ioctl(L, code) == Shaped(Raw)
  {
    if Switch(L, code).Some? {
      SwitchIsExact(L, code, Switch(L, code).value);
    }
  }

  /** Each label's own code reaches that label's decoder. */
  lemma IoctlOfLabel(L: Layout, c: Cmd)
    ensures Ioctl(L, CodeOf(L, LabelOf(c))) == HandlerOf(c)
  {
    SwitchIsExact(L, CodeOf(L, LabelOf(c)), c);
  }

  /**
   * gem_busy after a successful call: "busy=Y" exactly when bit 0 of the
   * word is set, and the ring the word carries above bit 16.
   */
  lemma BusyCall(L: Layout, memIn: Mem, arg: Addr, memOut: Mem, rout: Rec,
                 busy: bool, mid: nat, ring: nat)
    requires ReadOrAddr(L, memIn, arg, "drm_i915_gem_busy").Some?
    requires Umove(L, memOut, arg, "drm_i915_gem_busy") == Some(rout)
    requires mid < 0x8000 && ring < 0x1_0000
    requires Get(rout, Field("busy")) == Arith.BusyWord(busy, mid, ring)
    ensures var rin := ReadOrAddr(L, memIn, arg, "drm_i915_gem_busy").value;
            Call(Shaped(BusyDecoder()), L, memIn, arg, memOut, false)
            == Str(", ") + FieldText("{", "handle", U, Get(rin, Field("handle")))
               + Str(", busy=") + [Ch(if busy then 'Y' else 'N')] + Str(", ring=") + [Num(Unsigned, ring)]
               + Str("}")
  {
    var rin := ReadOrAddr(L, memIn, arg, "drm_i915_gem_busy").value;
    var h := FieldText("{", "handle", U, Get(rin, Field("handle")));
    var b := BusyText(Get(rout, Field("busy")));
    SplitCall(BusyDecoder(), L, memIn, arg, memOut, false);
    Arith.BusyDecodes(busy, mid, ring);
    assert ItemsText([F("{", "handle", U)], rin) == h + [];
    assert ItemsText([Busy("busy")], rout) == b + [];
    assert Str(", ") + (h + []) + (b + []) + Str("}") == Str(", ") + h + b + Str("}");
  }

  /**
   * The getparam exit after a successful call and good reads: the value in
   * 0x%04x for the chipset id, in %d otherwise, then "}".
   */
  lemma GetParamValue(L: Layout, mem: Mem, arg: Addr, r: Rec, v: int)
    requires Umove(L, mem, arg, GETPARAM_TYPE) == Some(r)
    requires ReadInt(L, mem, Get(r, Field("value"))) == Some(v)
    ensures Get(r, Field("param")) == I915_PARAM_CHIPSET_ID ==>
              GetParamExit(L, mem, false, arg) == Str(", value=") + [Num(Hex04, v)] + Str("}")
    ensures Get(r, Field("param")) != I915_PARAM_CHIPSET_ID ==>
              GetParamExit(L, mem, false, arg) == Str(", value=") + [Num(Signed, v)] + Str("}")
    ensures GetParamExitAsWritten(L, mem, false, arg) == GetParamExit(L, mem, false, arg)
  {
  }

  /**
   * When the call failed, or the record or the value behind its pointer
   * does not read, the exit prints no value; as written it then prints
   * nothing at all if the record did read.
   */
  lemma GetParamNoValue(L: Layout, mem: Mem, failed: bool, arg: Addr)
    requires var r := if failed then None else Umove(L, mem, arg, GETPARAM_TYPE);
             r.None? || ReadInt(L, mem, Get(r.value, Field("value"))).None?
    ensures GetParamExit(L, mem, failed, arg) == Str("}")
    ensures GetParamExitAsWritten(L, mem, failed, arg)
            == (if !failed && Umove(L, mem, arg, GETPARAM_TYPE).Some? then [] else Str("}"))
  {
  }

  /**
   * GETPARAM as written leaves its record open when the record reads at
   * exit but the value pointer does not, and is balanced otherwise; with
   * the exit closing on every path the call prints balanced braces
   * whenever the record read at entering.
   */
  lemma GetParamBraces(L: Layout, memIn: Mem, arg: Addr, memOut: Mem, failed: bool)
    requires ReadOrAddr(L, memIn, arg, GETPARAM_TYPE).Some?
    ensures var head := Str(", ") + ItemsText(GetParamHead(), ReadOrAddr(L, memIn, arg, GETPARAM_TYPE).value);
            && Call(GetParamOp, L, memIn, arg, memOut, failed) == head + GetParamExitAsWritten(L, memOut, failed, arg)
            && Depth(head + GetParamExit(L, memOut, failed, arg)) == 0
    ensures var r := if failed then None else Umove(L, memOut, arg, GETPARAM_TYPE);
            Depth(Call(GetParamOp, L, memIn, arg, memOut, failed))
            == (if r.Some? && ReadInt(L, memOut, Get(r.value, Field("value"))).None? then 1 else 0)
  {
    var rin := ReadOrAddr(L, memIn, arg, GETPARAM_TYPE).value;
    var head := Str(", ") + ItemsText(GetParamHead(), rin);
    GetParamHeadDepth(rin);
    var x := GetParamExit(L, memOut, failed, arg);
    GetParamExitDepth(L, memOut, failed, arg);
    DepthAppend(head, x);
    var w := GetParamExitAsWritten(L, memOut, failed, arg);
    assert Call(GetParamOp, L, memIn, arg, memOut, failed) == head + w;
    var r := if failed then None else Umove(L, memOut, arg, GETPARAM_TYPE);
    if r.Some? && ReadInt(L, memOut, Get(r.value, Field("value"))).None? {
      assert w == [];
      assert head + w == head;
    } else {
      assert w == x;
    }
  }

  /** ", {param=" and the parameter: one brace open. */
  lemma GetParamHeadDepth(r: Rec)
    ensures Depth(Str(", ") + ItemsText(GetParamHead(), r)) == 1
  {
    var fmt := XVal("drm_i915_getparams", "I915_PARAM_???");
    var value := ValueText(fmt, Get(r, Field("param")));
    GetParamHeadText(r);
    ParamOpenDepth();
    DepthValue(fmt, Get(r, Field("param")));
    DepthAppend(Str("{param="), value);
    DepthAppend(Str(", "), ItemsText(GetParamHead(), r));
    DepthPlain(", ");
  }

  lemma GetParamHeadText(r: Rec)
    ensures ItemsText(GetParamHead(), r)
            == Str("{param=") + ValueText(XVal("drm_i915_getparams", "I915_PARAM_???"), Get(r, Field("param")))
  {
    var value := ValueText(XVal("drm_i915_getparams", "I915_PARAM_???"), Get(r, Field("param")));
    assert value + [] == value;
  }

  lemma ParamOpenDepth()
    ensures Depth(Str("{param=")) == 1
  {
    DepthOpen("param=");
    assert "{" + "param=" == "{param=";
  }

  /** The exit closes exactly one brace. */
  lemma GetParamExitDepth(L: Layout, mem: Mem, failed: bool, arg: Addr)
    ensures Depth(GetParamExit(L, mem, failed, arg)) == -1
  {
    var r := if failed then None else Umove(L, mem, arg, GETPARAM_TYPE);
    assert Str("}")[..0] == [];
    if r.Some? && ReadInt(L, mem, Get(r.value, Field("value"))).Some? {
      ValueClosedDepth(Get(r.value, Field("param")), ReadInt(L, mem, Get(r.value, Field("value"))).value);
    }
  }

  lemma ValueClosedDepth(p: int, v: int)
    ensures Depth(ParamValueText(p, v) + Str("}")) == -1
  {
    var f := if p == I915_PARAM_CHIPSET_ID then X04 else D;
    assert Str("}")[..0] == [];
    DepthAppend(ParamValueText(p, v), Str("}"));
    DepthAppend(Str(", value="), ValueText(f, v));
    DepthPlain(", value=");
    DepthValue(f, v);
  }

  /**
   * gem_set_tiling reads with plain umove: a record that does not read
   * prints ", " and nothing else, even for a null pointer.
   */
  lemma SetTilingQuietEntry(L: Layout, memIn: Mem, arg: Addr, memOut: Mem, failed: bool)
    requires Umove(L, memIn, arg, "drm_i915_gem_set_tiling").None?
    ensures Call(Shaped(SetTilingDecoder()), L, memIn, arg, memOut, failed) == Str(", ")
  {
    assert Str(", ") + [] == Str(", ");
  }

  /** gem_set_domain finishes at entering; an exit call would print nothing. */
  lemma SetDomainEntryOnly(L: Layout, memIn: Mem, arg: Addr, memOut: Mem, failed: bool, env: Env)
    requires env.phase == Exiting
    ensures Step(Shaped(SetDomainDecoder()), L, Env(Entering, false, memIn, 0), arg).rc == IoctlDecoded
    ensures Call(Shaped(SetDomainDecoder()), L, memIn, arg, memOut, failed)
            == SingleText("drm_i915_gem_set_domain", SetDomainDecoder().items, L, memIn, arg)
    ensures Step(Shaped(SetDomainDecoder()), L, env, arg).text == []
  {
  }

  /**
   * init, batchbuffer, setparam, execbuffer2, pread and pwrite decode once
   * at entering and finish, whatever the call's outcome.
   */
  lemma SinglePhaseDecoders(L: Layout, memIn: Mem, arg: Addr, memOut: Mem, failed: bool)
    ensures forall sh | sh in SingleDecoders() ::
              && ShapeStep(sh, L, Env(Entering, false, memIn, 0), arg).rc == IoctlDecoded
              && Call(Shaped(sh), L, memIn, arg, memOut, failed) == SingleText(sh.ty, sh.items, L, memIn, arg)
  {
    forall sh | sh in SingleDecoders()
      ensures ShapeStep(sh, L, Env(Entering, false, memIn, 0), arg).rc == IoctlDecoded
      ensures Call(Shaped(sh), L, memIn, arg, memOut, failed) == SingleText(sh.ty, sh.items, L, memIn, arg)
    {
      SingleCall(sh, L, memIn, arg, memOut, failed);
    }
  }

  /** The decoders that read their record once, at entering. */
  function SingleDecoders(): (s: seq<Shape>)
    ensures forall sh | sh in s :: sh.Single? && !sh.entryOnly
  {
    [InitDecoder(), BatchbufferAsWritten(), SetParamDecoder(), Execbuffer2Decoder(),
     PreadDecoder(), PwriteDecoder()]
  }

  /**
   * BATCHBUFFER as written leaves the record's brace open and prints a
   * value fetched from the tracer's memory; the corrected decoder is
   * balanced and prints the pointer.
   */
  lemma BatchbufferBraces(L: Layout, memIn: Mem, arg: Addr, memOut: Mem, failed: bool)
    requires ReadOrAddr(L, memIn, arg, "drm_i915_batchbuffer").Some?
    ensures Depth(ShapeCall(BatchbufferAsWritten(), L, memIn, arg, memOut, failed)) == 1
    ensures Foreign(Get(ReadOrAddr(L, memIn, arg, "drm_i915_batchbuffer").value, Field("cliprects")))
            in ShapeCall(BatchbufferAsWritten(), L, memIn, arg, memOut, failed)
    ensures Depth(ShapeCall(BatchbufferDecoder(), L, memIn, arg, memOut, failed)) == 0
  {
    var r := ReadOrAddr(L, memIn, arg, "drm_i915_batchbuffer").value;
    var head := ItemsText(BatchbufferHead(), r);
    var tail := ItemsText([T("cliprects={"), Deref("cliprects"), T("}")], r);
    BatchbufferHeadDepth(r);
    BatchbufferTailAsWritten(r);
    ItemsTextAppend(BatchbufferHead(), [T("cliprects={"), Deref("cliprects"), T("}")], r);
    DepthAppend(head, tail);
    SingleDepth(BatchbufferAsWritten(), L, memIn, arg, memOut, failed);
    assert ShapeCall(BatchbufferAsWritten(), L, memIn, arg, memOut, failed) == Str(", ") + (head + tail);
    assert Foreign(Get(r, Field("cliprects"))) in tail;
    BatchbufferTailDepth(r);
    ItemsTextAppend(BatchbufferHead(), [F(", ", "cliprects", P), T("}")], r);
    DepthAppend(head, ItemsText([F(", ", "cliprects", P), T("}")], r));
    SingleDepth(BatchbufferDecoder(), L, memIn, arg, memOut, failed);
  }

  /** "{start=" and brace-free fields: one brace open. */
  lemma BatchbufferHeadDepth(r: Rec)
    ensures Depth(ItemsText(BatchbufferHead(), r)) == 1
  {
    var tail := BatchbufferHead()[1..];
    BatchbufferFieldsFlat();
    assert BatchbufferHead() == [F("{", "start", D)] + tail;
    DepthCons(F("{", "start", D), tail, r);
    DepthField("{", "start", D, Get(r, Field("start")));
    assert Str("{")[..0] == [];
    DepthFlat(tail, r);
  }

  lemma BatchbufferFieldsFlat()
    ensures forall i :: 1 <= i < |BatchbufferHead()| ==> Flat(BatchbufferHead()[i])
  {
    var h := BatchbufferHead();
    assert Plain(", ") && Plain("used") && Plain("DR1") && Plain("DR4") && Plain("num_cliprects");
    assert Flat(h[1]) && Flat(h[2]) && Flat(h[3]) && Flat(h[4]);
  }

  /** The as-written tail opens and closes one brace around a fetched value. */
  lemma BatchbufferTailAsWritten(r: Rec)
    ensures var t := ItemsText([T("cliprects={"), Deref("cliprects"), T("}")], r);
            Depth(t) == 0 && Foreign(Get(r, Field("cliprects"))) in t
  {
    var fetched := [Foreign(Get(r, Field("cliprects")))];
    BatchbufferTailText(r);
    CliprectsOpenDepth();
    FetchedCloseDepth(fetched);
    DepthAppend(Str("cliprects={"), fetched + Str("}"));
  }

  lemma BatchbufferTailText(r: Rec)
    ensures var t := ItemsText([T("cliprects={"), Deref("cliprects"), T("}")], r);
            t == Str("cliprects={") + ([Foreign(Get(r, Field("cliprects")))] + Str("}"))
            && t[|Str("cliprects={")|] == Foreign(Get(r, Field("cliprects")))
  {
    assert Str("}") + [] == Str("}");
  }

  lemma CliprectsOpenDepth()
    ensures Depth(Str("cliprects={")) == 1
  {
    StrAppend("cliprects=", "{");
    assert "cliprects=" + "{" == "cliprects={";
    DepthAppend(Str("cliprects="), Str("{"));
    DepthPlain("cliprects=");
    assert Str("{")[..0] == [];
  }

  lemma FetchedCloseDepth(fetched: seq<Tok>)
    requires |fetched| == 1 && fetched[0].Foreign?
    ensures Depth(fetched + Str("}")) == -1
  {
    assert Str("}")[..0] == [] && fetched[..0] == [];
    DepthAppend(fetched, Str("}"));
  }

  /** The corrected tail: the pointer field and the closing brace. */
  lemma BatchbufferTailDepth(r: Rec)
    ensures Depth(ItemsText([F(", ", "cliprects", P), T("}")], r)) == -1
  {
    var f := ItemText(F(", ", "cliprects", P), r);
    assert ItemsText([F(", ", "cliprects", P), T("}")], r) == f + (Str("}") + []);
    assert Str("}") + [] == Str("}");
    DepthField(", ", "cliprects", P, Get(r, Field("cliprects")));
    DepthPlain(", ");
    assert Str("}")[..0] == [];
    DepthAppend(f, Str("}"));
  }
}
