/**
 * The amdgpu DRM decoders (drm_amdgpu.c): the request-number hook, the
 * switch of drm_amdgpu_ioctl with its raw-address fallback, the in/out
 * union decoders and the two decoders that carry the request's operation
 * from the entering to the exiting call in the per-call stash.
 * The file is compiled once, for the tracer's own ABI.
 */
module DrmAmdgpu {
  import Ioc
  import opened Trace
  import opened Printer
  import opened Shapes
  import opened Request

  /** The case labels of drm_amdgpu_ioctl. */
  datatype Cmd =
    | GemCreate | GemMmap | Ctx | BoList | Cs | Info | GemMetadata | GemWaitIdle
    | GemVa | WaitCs | GemOp | GemUserptr | WaitFences | Vm | FenceToHandle | Sched

  /** DRM_IOCTL_AMDGPU_*: DRM_COMMAND_BASE plus the driver's command number. */
  function LabelOf(c: Cmd): Label
  {
    match c
    case GemCreate => Label(Ioc.READ_WRITE, 0x40, "drm_amdgpu_gem_create")
    case GemMmap => Label(Ioc.READ_WRITE, 0x41, "drm_amdgpu_gem_mmap")
    case Ctx => Label(Ioc.READ_WRITE, 0x42, "drm_amdgpu_ctx")
    case BoList => Label(Ioc.READ_WRITE, 0x43, "drm_amdgpu_bo_list")
    case Cs => Label(Ioc.READ_WRITE, 0x44, "drm_amdgpu_cs")
    case Info => Label(Ioc.WRITE, 0x45, "drm_amdgpu_info")
    case GemMetadata => Label(Ioc.READ_WRITE, 0x46, "drm_amdgpu_gem_metadata")
    case GemWaitIdle => Label(Ioc.READ_WRITE, 0x47, "drm_amdgpu_gem_wait_idle")
    case GemVa => Label(Ioc.WRITE, 0x48, "drm_amdgpu_gem_va")
    case WaitCs => Label(Ioc.READ_WRITE, 0x49, "drm_amdgpu_wait_cs")
    case GemOp => Label(Ioc.READ_WRITE, 0x50, "drm_amdgpu_gem_op")
    case GemUserptr => Label(Ioc.READ_WRITE, 0x51, "drm_amdgpu_gem_userptr")
    case WaitFences => Label(Ioc.READ_WRITE, 0x52, "drm_amdgpu_wait_fences")
    case Vm => Label(Ioc.READ_WRITE, 0x53, "drm_amdgpu_vm")
    case FenceToHandle => Label(Ioc.READ_WRITE, 0x54, "drm_amdgpu_fence_to_handle")
    case Sched => Label(Ioc.WRITE, 0x55, "drm_amdgpu_sched")
  }

  /** The only label with a given command number, if there is one. */
  function CmdOfNr(nr: nat): Option<Cmd>
  {
    match nr
    case 0x40 => Some(GemCreate)
    case 0x41 => Some(GemMmap)
    case 0x42 => Some(Ctx)
    case 0x43 => Some(BoList)
    case 0x44 => Some(Cs)
    case 0x45 => Some(Info)
    case 0x46 => Some(GemMetadata)
    case 0x47 => Some(GemWaitIdle)
    case 0x48 => Some(GemVa)
    case 0x49 => Some(WaitCs)
    case 0x50 => Some(GemOp)
    case 0x51 => Some(GemUserptr)
    case 0x52 => Some(WaitFences)
    case 0x53 => Some(Vm)
    case 0x54 => Some(FenceToHandle)
    case 0x55 => Some(Sched)
    case _ => None
  }

  /** Command numbers identify the labels, all in the driver range. */
  lemma CmdOfNrInverse(c: Cmd, nr: nat)
    ensures CmdOfNr(LabelOf(c).nr) == Some(c)
    ensures CmdOfNr(nr) == Some(c) ==> LabelOf(c).nr == nr
    ensures DRM_COMMAND_BASE <= LabelOf(c).nr < 0xa0
  {
  }

  /** The switch of drm_amdgpu_ioctl: a case is taken on its exact code. */
  function Switch(L: Layout, code: Ioc.Code): Option<Cmd>
  {
    match CmdOfNr(Ioc.Nr(code))
    case None => None
    case Some(c) => if Matches(L, code, LabelOf(c)) then Some(c) else None
  }

  lemma {:induction false} SwitchIsExact(L: Layout, code: Ioc.Code, c: Cmd)
    ensures Switch(L, code) == Some(c) <==> code == CodeOf(L, LabelOf(c))
  {
    CmdOfNrInverse(c, Ioc.Nr(code));
    MatchesIsEquality(L, code, LabelOf(c));
  }

  // drm_amdgpu_decode_number.

  /**
   * drm_amdgpu_decode_number: the name the drm_amdgpu_ioctls table gives
   * the code, and the end of the lookup; on a miss, nothing.
   */
  function DecodeNumber(ioctls: map<Ioc.Code, string>, code: Ioc.Code): Named
  {
    TableName(ioctls, code)
  }

  method RunDecodeNumber(tcp: Tcb, ioctls: map<Ioc.Code, string>, code: Ioc.Code) returns (rc: NumberRc)
    modifies tcp`out
    ensures tcp.out == old(tcp.out) + DecodeNumber(ioctls, code).text
    ensures rc == DecodeNumber(ioctls, code).rc
  {
    rc := RunTableName(tcp, ioctls, code);
  }

  // The in/out union decoders.

  function GemCreateDecoder(): Shape
  {
    Split("drm_amdgpu_gem_create",
          [M("{in={", "in", "bo_size", U), M(", ", "in", "alignment", U),
           T(", domains="), V("in.domains", XVal("drm_amdgpu_gem_domains", "AMDGPU_GEM_DOMAIN_???")),
           T(", domain_flags="),
           V("in.domain_flags", XVal("drm_amdgpu_gem_domain_flags", "AMDGPU_GEM_CREATE_???")), T("}")],
          [M("{out={", "out", "handle", U), T("}")],
          false)
  }

  function GemMmapDecoder(): Shape
  {
    Split("drm_amdgpu_gem_mmap",
          [M("{in={", "in", "handle", U), T("}")],
          [M("{out={", "out", "addr_ptr", P), T("}")],
          false)
  }

  function BoListDecoder(): Shape
  {
    Split("drm_amdgpu_bo_list",
          [T("{in={operation="),
           V("in.operation", XVal("drm_amdgpu_bo_list_operation", "AMDGPU_BO_LIST_OP_???")),
           M(", ", "in", "list_handle", U), M(", ", "in", "bo_number", U),
           M(", ", "in", "bo_info_size", U), M(", ", "in", "bo_info_ptr", P), T("}")],
          [M("{out={", "out", "list_handle", U), T("}")],
          false)
  }

  function CsDecoder(): Shape
  {
    Split("drm_amdgpu_cs",
          [M("{in={", "in", "ctx_id", U), M(", ", "in", "bo_list_handle", U),
           M(", ", "in", "num_chunks", U), M(", ", "in", "chunks", U), T("}")],
          [M("{out={", "out", "handle", U), T("}")],
          false)
  }

  function InfoDecoder(): Shape
  {
    Single("drm_amdgpu_info",
           [F("{", "return_pointer", P), F(", ", "return_size", U),
            T(", query="), V("query", XVal("drm_amdgpu_info_query", "AMDGPU_INFO_???")), T("}")],
           false)
  }

  function GemWaitIdleDecoder(): Shape
  {
    Split("drm_amdgpu_gem_wait_idle",
          [M("{in={", "in", "handle", U), M(", ", "in", "timeout", U), T("}")],
          [M("{out={", "out", "status", U), T("}")],
          false)
  }

  /** PRINT_FIELD_ADDR prints an address the way PRINT_FIELD_PTR does. */
  function GemVaDecoder(): Shape
  {
    Single("drm_amdgpu_gem_va",
           [F("{", "handle", U),
            T(", operation="), V("operation", XVal("drm_amdgpu_gem_va_op", "AMDGPU_VA_OP_???")),
            T(", flags="), V("flags", XVal("drm_amdgpu_gem_va_flags", "AMDGPU_VM_PAGE_???")),
            F(", ", "va_address", P), F(", ", "offset_in_bo", X), F(", ", "map_size", U), T("}")],
           false)
  }

  function WaitCsDecoder(): Shape
  {
    Split("drm_amdgpu_wait_cs",
          [M("{in={", "in", "handle", U), M(", ", "in", "timeout", U), M(", ", "in", "ip_type", U),
           M(", ", "in", "ip_instance", U), M(", ", "in", "ring", U), M(", ", "in", "ctx_id", U), T("}")],
          [M("{out={", "out", "status", U), T("}")],
          false)
  }

  function GemOpDecoder(): Shape
  {
    Single("drm_amdgpu_gem_op",
           [F("{", "handle", U), T(", op="), V("op", XVal("drm_amdgpu_gem_op_op", "AMDGPU_GEM_OP_???")),
            F(", ", "value", U), T("}")],
           false)
  }

  function GemUserptrDecoder(): Shape
  {
    Split("drm_amdgpu_gem_userptr",
          [F("{", "addr", P), F(", ", "size", U),
           T(", flags="), V("flags", XVal("drm_amdgpu_gem_userptr_flags", "AMDGPU_GEM_USERPTR_???"))],
          [F(", ", "handle", U)],
          false)
  }

  function WaitFencesDecoder(): Shape
  {
    Split("drm_amdgpu_wait_fences",
          [M("{in={", "in", "fences", P), M(", ", "in", "fence_count", U),
           M(", ", "in", "wait_all", U), M(", ", "in", "timeout_ns", U), T("}")],
          [M("{out={", "out", "status", U), M(", ", "out", "first_signaled", U), T("}")],
          false)
  }

  function VmDecoder(): Shape
  {
    Single("drm_amdgpu_vm",
           [T("{in={op="), V("in.op", XVal("drm_amdgpu_vm_op", "AMDGPU_VM_OP_???")), T("}")],
           false)
  }

  function FenceToHandleDecoder(): Shape
  {
    Split("drm_amdgpu_fence_to_handle",
          [M("{in={fence={", "in.fence", "ctx_id", U), M(", ", "in.fence", "ip_type", U),
           M(", ", "in.fence", "ip_instance", U), M(", ", "in.fence", "ring", U),
           M(", ", "in.fence", "seq_no", U),
           T("}, what="), V("in.what", XVal("drm_amdgpu_fence_to_handle_what", "AMDGPU_FENCE_TO_HANDLE_GET_???")),
           T("}")],
          [M("{out={", "out", "handle", U), T("}")],
          false)
  }

  /** drm_amdgpu_sched, with the ctx_id member of newer headers. */
  function SchedDecoder(): Shape
  {
    Single("drm_amdgpu_sched",
           [T("{in={op="), V("in.op", XVal("drm_amdgpu_sched_op", "AMDGPU_SCHED_OP_???")),
            M(", ", "in", "fd", U),
            T(", priority="), V("in.priority", XVal("drm_amdgpu_sched_priority", "DRM_SCHED_PRIORITY_???")),
            M(", ", "in", "ctx_id", U), T("}}")],
           false)
  }

  // drm_amdgpu_ctx: the operation decides, through the stash, what the exit prints.

  const CTX_OP_ALLOC_CTX := 1
  const CTX_OP_FREE_CTX := 2
  const CTX_OP_QUERY_STATE := 3
  const CTX_OP_QUERY_STATE2 := 4

  const CTX_TYPE := "drm_amdgpu_ctx"

  /** The input half of the union, printed at entering. */
  function CtxIn(): seq<Item>
  {
    [T("{in={op="), V("in.op", XVal("drm_amdgpu_ctx_op", "AMDGPU_CTX_OP_???")),
     M(", ", "in", "flags", X), M(", ", "in", "ctx_id", U),
     T(", priority="), V("in.priority", XVal("drm_amdgpu_ctx_priority", "AMDGPU_CTX_PRIORITY_???")),
     T("}")]
  }

  function ResetStatus(): Item
  {
    V("out.state.reset_status", XVal("drm_amdgpu_ctx_reset_status", "AMDGPU_CTX_???_RESET"))
  }

  /** The arm of the exit switch for a known operation, with its closing "}". */
  function CtxArm(op: int): seq<Item>
  {
    if op == CTX_OP_ALLOC_CTX then [M("alloc={", "out.alloc", "ctx_id", U), T("}"), T("}")]
    else if op == CTX_OP_FREE_CTX then [T("}")]
    else if op == CTX_OP_QUERY_STATE then
      [T("state={"), M("", "out.state", "flags", X), M(", ", "out.state", "hangs", U),
       T(", reset_status="), ResetStatus(), T("}"), T("}")]
    else
      [T("state={flags="), V("out.state.flags", XVal("drm_amdgpu_ctx_query2_flags", "AMDGPU_CTX_QUERY2_FLAGS_???")),
       M(", ", "out.state", "hangs", U), T(", reset_status="), ResetStatus(), T("}"), T("}")]
  }

  predicate KnownCtxOp(op: int)
  {
    op == CTX_OP_ALLOC_CTX || op == CTX_OP_FREE_CTX || op == CTX_OP_QUERY_STATE || op == CTX_OP_QUERY_STATE2
  }

  /**
   * What a successful exit prints inside the record: "{out={", the arm of
   * the stashed operation and the record's "}"; an unknown operation
   * prints "}}" and returns before that last "}".
   */
  function CtxOut(op: int, r: Rec): seq<Tok>
  {
    Str("{out={") + (if KnownCtxOp(op) then ItemsText(CtxArm(op), r) + Str("}") else Str("}}"))
  }

  /** Entering: read, print the input half, stash the operation. */
  function CtxEnter(L: Layout, mem: Mem, arg: Addr, priv: int): Outcome
  {
    var r := ReadOrAddr(L, mem, arg, CTX_TYPE);
    if r.None? then Outcome(Str(", ") + PrintAddr(arg), IoctlDecoded, priv)
    else Outcome(Str(", ") + ItemsText(CtxIn(), r.value), NeedExit, Get(r.value, Field("in.op")))
  }

  /** Exiting: on success and a good re-read, the stashed operation's output; "}" otherwise. */
  function CtxExit(L: Layout, mem: Mem, failed: bool, stash: int, arg: Addr): seq<Tok>
  {
    var r := if failed then None else Umove(L, mem, arg, CTX_TYPE);
    if r.None? then Str("}") else CtxOut(stash, r.value)
  }

  function CtxStep(L: Layout, env: Env, arg: Addr): (o: Outcome)
    ensures o.rc == NeedExit ==> env.phase == Entering
    ensures env.phase == Exiting ==> o.priv == env.priv
  {
    if env.phase == Entering then CtxEnter(L, env.mem, arg, env.priv)
    else Outcome(CtxExit(L, env.mem, env.syserror, env.priv, arg), IoctlDecoded, env.priv)
  }

  method RunCtxEnter(tcp: Tcb, L: Layout, arg: Addr) returns (rc: Rc)
    modifies tcp`out, tcp`priv
    ensures tcp.out == old(tcp.out) + CtxEnter(L, tcp.mem, arg, old(tcp.priv)).text
    ensures tcp.priv == CtxEnter(L, tcp.mem, arg, old(tcp.priv)).priv
    ensures rc == CtxEnter(L, tcp.mem, arg, old(tcp.priv)).rc
  {
    ghost var start := tcp.out;
    Print(tcp, Str(", "));
    var r := UmoveOrPrintaddr(tcp, L, arg, CTX_TYPE);
    if r.None? {
      Concat3(start, Str(", "), PrintAddr(arg));
      return IoctlDecoded;
    }
    tcp.priv := Get(r.value, Field("in.op"));
    PrintItems(tcp, CtxIn(), r.value);
    Concat3(start, Str(", "), ItemsText(CtxIn(), r.value));
    return NeedExit;
  }

  method RunCtxOut(tcp: Tcb, op: int, r: Rec)
    modifies tcp`out
    ensures tcp.out == old(tcp.out) + CtxOut(op, r)
  {
    ghost var start := tcp.out;
    Print(tcp, Str("{out={"));
    if !KnownCtxOp(op) {
      Print(tcp, Str("}}"));
      Concat3(start, Str("{out={"), Str("}}"));
      return;
    }
    PrintItems(tcp, CtxArm(op), r);
    Print(tcp, Str("}"));
    Concat3(start, Str("{out={"), ItemsText(CtxArm(op), r));
    Concat3(start + Str("{out={"), ItemsText(CtxArm(op), r), Str("}"));
  }

  method RunCtxExit(tcp: Tcb, L: Layout, arg: Addr)
    modifies tcp`out
    ensures tcp.out == old(tcp.out) + CtxExit(L, tcp.mem, tcp.syserror, tcp.priv, arg)
  {
    var r := if tcp.syserror then None else Umove(L, tcp.mem, arg, CTX_TYPE);
    if r.None? {
      Print(tcp, Str("}"));
    } else {
      RunCtxOut(tcp, tcp.priv, r.value);
    }
  }

  method RunCtx(tcp: Tcb, L: Layout, arg: Addr) returns (rc: Rc)
    modifies tcp`out, tcp`priv
    ensures tcp.out == old(tcp.out) + CtxStep(L, old(tcp.State()), arg).text
    ensures tcp.priv == CtxStep(L, old(tcp.State()), arg).priv
    ensures rc == CtxStep(L, old(tcp.State()), arg).rc
  {
    if tcp.phase == Entering {
      rc := RunCtxEnter(tcp, L, arg);
    } else {
      RunCtxExit(tcp, L, arg);
      rc := IoctlDecoded;
    }
  }

  // drm_amdgpu_gem_metadata: the stash is written only for a non-SET operation.

  const METADATA_OP_SET := 1

  const METADATA_TYPE := "drm_amdgpu_gem_metadata"

  function MetadataHead(): seq<Item>
  {
    [F("{", "handle", U), T(", op="), V("op", XVal("drm_amdgpu_gem_metadata_op", "AMDGPU_GEM_METADATA_OP_???"))]
  }

  /** The data block: printed going in for SET, and coming out on success. */
  function MetadataData(): seq<Item>
  {
    [M(", data={", "data", "flags", X), M(", ", "data", "tiling_info", U),
     M(", ", "data", "data_size_bytes", U), M(", ", "data", "data", P), T("}")]
  }

  function MetadataEnter(L: Layout, mem: Mem, arg: Addr, priv: int): Outcome
  {
    var r := ReadOrAddr(L, mem, arg, METADATA_TYPE);
    if r.None? then Outcome(Str(", ") + PrintAddr(arg), IoctlDecoded, priv)
    else
      var op := Get(r.value, Field("op"));
      if op == METADATA_OP_SET
      then Outcome(Str(", ") + ItemsText(MetadataHead(), r.value) + ItemsText(MetadataData(), r.value), NeedExit, priv)
      else Outcome(Str(", ") + ItemsText(MetadataHead(), r.value), NeedExit, op)
  }

  /** The exit fetches the stash but prints the same whatever it holds. */
  function MetadataStep(L: Layout, env: Env, arg: Addr): (o: Outcome)
    ensures o.rc == NeedExit ==> env.phase == Entering
    ensures env.phase == Exiting ==> o.priv == env.priv
  {
    if env.phase == Entering then MetadataEnter(L, env.mem, arg, env.priv)
    else Outcome(SplitExit(METADATA_TYPE, MetadataData(), L, env.mem, env.syserror, arg), IoctlDecoded, env.priv)
  }

  method RunMetadataEnter(tcp: Tcb, L: Layout, arg: Addr) returns (rc: Rc)
    modifies tcp`out, tcp`priv
    ensures tcp.out == old(tcp.out) + MetadataEnter(L, tcp.mem, arg, old(tcp.priv)).text
    ensures tcp.priv == MetadataEnter(L, tcp.mem, arg, old(tcp.priv)).priv
    ensures rc == MetadataEnter(L, tcp.mem, arg, old(tcp.priv)).rc
  {
    ghost var start := tcp.out;
    Print(tcp, Str(", "));
    var r := UmoveOrPrintaddr(tcp, L, arg, METADATA_TYPE);
    if r.None? {
      Concat3(start, Str(", "), PrintAddr(arg));
      return IoctlDecoded;
    }
    ghost var head := ItemsText(MetadataHead(), r.value);
    PrintItems(tcp, MetadataHead(), r.value);
    Concat3(start, Str(", "), head);
    var op := Get(r.value, Field("op"));
    if op == METADATA_OP_SET {
      PrintItems(tcp, MetadataData(), r.value);
      Concat3(start, Str(", ") + head, ItemsText(MetadataData(), r.value));
    } else {
      tcp.priv := op;
    }
    return NeedExit;
  }

  method RunMetadata(tcp: Tcb, L: Layout, arg: Addr) returns (rc: Rc)
    modifies tcp`out, tcp`priv
    ensures tcp.out == old(tcp.out) + MetadataStep(L, old(tcp.State()), arg).text
    ensures tcp.priv == MetadataStep(L, old(tcp.State()), arg).priv
    ensures rc == MetadataStep(L, old(tcp.State()), arg).rc
  {
    if tcp.phase == Entering {
      rc := RunMetadataEnter(tcp, L, arg);
    } else {
      RunSplitExit(tcp, METADATA_TYPE, MetadataData(), L, arg);
      rc := IoctlDecoded;
    }
  }

  // drm_amdgpu_ioctl.

  datatype Handler = Shaped(sh: Shape) | CtxOp | Metadata

  function HandlerOf(c: Cmd): Handler
  {
    match c
    case GemCreate => Shaped(GemCreateDecoder())
    case GemMmap => Shaped(GemMmapDecoder())
    case Ctx => CtxOp
    case BoList => Shaped(BoListDecoder())
    case Cs => Shaped(CsDecoder())
    case Info => Shaped(InfoDecoder())
    case GemMetadata => Metadata
    case GemWaitIdle => Shaped(GemWaitIdleDecoder())
    case GemVa => Shaped(GemVaDecoder())
    case WaitCs => Shaped(WaitCsDecoder())
    case GemOp => Shaped(GemOpDecoder())
    case GemUserptr => Shaped(GemUserptrDecoder())
    case WaitFences => Shaped(WaitFencesDecoder())
    case Vm => Shaped(VmDecoder())
    case FenceToHandle => Shaped(FenceToHandleDecoder())
    case Sched => Shaped(SchedDecoder())
  }

  /** drm_amdgpu_ioctl: the exact-code switch, else ", " and the raw address. */
  function Ioctl(L: Layout, code: Ioc.Code): Handler
  {
    match Switch(L, code)
    case Some(c) => HandlerOf(c)
    case None => Shaped(Raw)
  }

  function Step(h: Handler, L: Layout, env: Env, arg: Addr): (o: Outcome)
    ensures o.rc == NeedExit ==> env.phase == Entering
  {
    match h
    case Shaped(sh) => ShapeStep(sh, L, env, arg)
    case CtxOp => CtxStep(L, env, arg)
    case Metadata => MetadataStep(L, env, arg)
  }

  method Run(tcp: Tcb, h: Handler, L: Layout, arg: Addr) returns (rc: Rc)
    modifies tcp`out, tcp`priv
    ensures tcp.out == old(tcp.out) + Step(h, L, old(tcp.State()), arg).text
    ensures tcp.priv == Step(h, L, old(tcp.State()), arg).priv
    ensures rc == Step(h, L, old(tcp.State()), arg).rc
  {
    match h
    case Shaped(sh) => rc := RunShape(tcp, sh, L, arg);
    case CtxOp => rc := RunCtx(tcp, L, arg);
    case Metadata => rc := RunMetadata(tcp, L, arg);
  }

  /** The whole call: entering from an empty stash, then exiting if asked. */
  function Call(h: Handler, L: Layout, memIn: Mem, arg: Addr, memOut: Mem, failed: bool): seq<Tok>
  {
    var o1 := Step(h, L, Env(Entering, false, memIn, 0), arg);
    if o1.rc == NeedExit then o1.text + Step(h, L, Env(Exiting, failed, memOut, o1.priv), arg).text
    else o1.text
  }

  // Properties.

  /**
   * An unmatched code prints ", " and the raw address and finishes; every
   * label runs its own decoder.
   */
  lemma {:induction false} IoctlFallback(L: Layout, code: Ioc.Code, env: Env, arg: Addr)
    ensures (forall c :: code != CodeOf(L, LabelOf(c))) ==>
              Step(Ioctl(L, code), L, env, arg) == Outcome(Str(", ") + PrintAddr(arg), IoctlDecoded, env.priv)
    ensures forall c :: code == CodeOf(L, LabelOf(c)) ==> Ioctl(L, code) == HandlerOf(c)
  {
    match Switch(L, code)
    case Some(c) =>
      SwitchIsExact(L, code, c);
      forall c' | code == CodeOf(L, LabelOf(c')) ensures Ioctl(L, code) == HandlerOf(c') {
        SwitchIsExact(L, code, c');
      }
    case None =>
      forall c' | code == CodeOf(L, LabelOf(c')) ensures false {
        SwitchIsExact(L, code, c');
      }
  }

  /** A code that is none of the labels reaches the raw fallback. */
  lemma UnmatchedIsRaw(L: Layout, code: Ioc.Code)
    requires forall c :: code != CodeOf(L, LabelOf(c))
    ensures Ioctl(L, code) == Shaped(Raw)
  {
    if Switch(L, code).Some? {
      SwitchIsExact(L, code, Switch(L, code).value);
    }
  }

  /** Each label's own code reaches that label's decoder. */
  lemma IoctlOfLabel(L: Layout, c: Cmd)
    ensures Ioctl(L, CodeOf(L, LabelOf(c))) == HandlerOf(c)
  {
    SwitchIsExact(L, CodeOf(L, LabelOf(c)), c);
  }

  /**
   * The ctx exit is laid out by the operation stashed at entering: the
   * operation field of the record read after the call plays no part.
   */
  lemma CtxExitIgnoresReread(L: Layout, mem: Mem, failed: bool, stash: int, arg: Addr, r: Rec, v: int)
    requires !failed && Umove(L, mem, arg, CTX_TYPE) == Some(r)
    ensures CtxExit(L, mem, failed, stash, arg) == CtxOut(stash, r)
    ensures CtxOut(stash, r[Field("in.op") := v]) == CtxOut(stash, r)
  {
    var r' := r[Field("in.op") := v];
    if KnownCtxOp(stash) {
      ItemsTextSameFields(CtxArm(stash), r, r');
    }
  }

  /** Two records that agree on every field an item list prints print the same. */
  lemma {:induction false} ItemsTextSameFields(items: seq<Item>, r: Rec, r': Rec)
    requires forall k :: k != Field("in.op") ==> Get(r, k) == Get(r', k)
    requires forall i :: 0 <= i < |items| ==> AvoidsInOp(items[i])
    ensures ItemsText(items, r) == ItemsText(items, r')
    decreases items
  {
    if items != [] {
      ItemTextSameFields(items[0], r, r');
      ItemsTextSameFields(items[1..], r, r');
    }
  }

  /** The item prints literal text or fields other than the input operation. */
  predicate AvoidsInOp(it: Item)
  {
    match it
    case T(_) => true
    case F(_, name, _) => name != "in.op"
    case M(_, owner, name, _) => owner + "." + name != "in.op"
    case V(key, _) => key != "in.op"
    case NonZero(_, name, _) => name != "in.op"
    case _ => false
  }

  lemma ItemTextSameFields(it: Item, r: Rec, r': Rec)
    requires forall k :: k != Field("in.op") ==> Get(r, k) == Get(r', k)
    requires AvoidsInOp(it)
    ensures ItemText(it, r) == ItemText(it, r')
  {
  }

  /**
   * A ctx call whose entering read succeeds prints the input half, then at
   * exit the output arm of the operation read at entering, whatever the
   * operation field holds once the call has overwritten the union; a failed
   * call or a failed re-read closes the record with "}" alone.
   */
  lemma CtxCall(L: Layout, memIn: Mem, arg: Addr, memOut: Mem, failed: bool, v: int)
    requires ReadOrAddr(L, memIn, arg, CTX_TYPE).Some?
    ensures var rin := ReadOrAddr(L, memIn, arg, CTX_TYPE).value;
            var rout := Umove(L, memOut, arg, CTX_TYPE);
            Call(CtxOp, L, memIn, arg, memOut, failed)
            == Str(", ") + ItemsText(CtxIn(), rin)
               + (if failed || rout.None? then Str("}")
                  else CtxOut(Get(rin, Field("in.op")), rout.value[Field("in.op") := v]))
  {
    var rin := ReadOrAddr(L, memIn, arg, CTX_TYPE).value;
    var rout := Umove(L, memOut, arg, CTX_TYPE);
    CtxCallPhases(L, memIn, arg, memOut, failed);
    if !(failed || rout.None?) {
      CtxExitIgnoresReread(L, memOut, failed, Get(rin, Field("in.op")), arg, rout.value, v);
    }
  }

  /** The entering text, then the exit laid out by the stashed operation. */
  lemma CtxCallPhases(L: Layout, memIn: Mem, arg: Addr, memOut: Mem, failed: bool)
    requires ReadOrAddr(L, memIn, arg, CTX_TYPE).Some?
    ensures var rin := ReadOrAddr(L, memIn, arg, CTX_TYPE).value;
            Call(CtxOp, L, memIn, arg, memOut, failed)
            == Str(", ") + ItemsText(CtxIn(), rin) + CtxExit(L, memOut, failed, Get(rin, Field("in.op")), arg)
  {
  }

  /** ALLOC_CTX prints the new context, FREE_CTX an empty output, and so does an unknown operation. */
  lemma CtxOutArms(op: int, r: Rec)
    ensures op == CTX_OP_ALLOC_CTX ==>
              CtxOut(op, r) == Str("{out={") + FieldText("alloc={", "ctx_id", U, Get(r, Field("out.alloc.ctx_id")))
                               + Str("}}}")
    ensures op == CTX_OP_FREE_CTX ==> CtxOut(op, r) == Str("{out={}}")
    ensures !KnownCtxOp(op) ==> CtxOut(op, r) == Str("{out={}}")
  {
    StrAppend("{out={", "}}");
    assert "{out={" + "}}" == "{out={}}";
    if op == CTX_OP_FREE_CTX {
      StrAppend("}", "}");
      assert "}" + "}" == "}}";
      assert ItemsText(CtxArm(op), r) == Str("}") + ItemsText([], r);
    }
    if op == CTX_OP_ALLOC_CTX {
      CtxOutAlloc(r);
    }
  }

  lemma CtxOutAlloc(r: Rec)
    ensures CtxOut(CTX_OP_ALLOC_CTX, r)
            == Str("{out={") + FieldText("alloc={", "ctx_id", U, Get(r, Field("out.alloc.ctx_id"))) + Str("}}}")
  {
    var a := CtxArm(CTX_OP_ALLOC_CTX);
    var f := ItemText(a[0], r);
    assert "out.alloc" + "." + "ctx_id" == "out.alloc.ctx_id";
    assert f == FieldText("alloc={", "ctx_id", U, Get(r, Field("out.alloc.ctx_id")));
    AllocArmTail(r);
    assert ItemsText(a, r) == f + (Str("}") + Str("}"));
    StrAppend("}}", "}");
    StrAppend("}", "}");
    assert "}" + "}" == "}}" && "}}" + "}" == "}}}";
    assert f + (Str("}") + Str("}")) + Str("}") == f + Str("}}}");
    assert Str("{out={") + (f + Str("}}}")) == Str("{out={") + f + Str("}}}");
  }

  lemma AllocArmTail(r: Rec)
    ensures ItemsText(CtxArm(CTX_OP_ALLOC_CTX)[1..], r) == Str("}") + Str("}")
  {
    var a := CtxArm(CTX_OP_ALLOC_CTX);
    assert a[1..] == [T("}"), T("}")] && a[2..] == [T("}")];
    assert ItemsText(a[2..], r) == Str("}");
  }

  /**
   * gem_metadata stashes the operation only when it is not SET; the data
   * block goes out at entering exactly for SET.
   */
  lemma MetadataEnterStash(L: Layout, mem: Mem, arg: Addr, priv: int)
    requires ReadOrAddr(L, mem, arg, METADATA_TYPE).Some?
    ensures var r := ReadOrAddr(L, mem, arg, METADATA_TYPE).value;
            var o := MetadataEnter(L, mem, arg, priv);
            && o.rc == NeedExit
            && (Get(r, Field("op")) == METADATA_OP_SET ==>
                  o.priv == priv
                  && o.text == Str(", ") + ItemsText(MetadataHead(), r) + ItemsText(MetadataData(), r))
            && (Get(r, Field("op")) != METADATA_OP_SET ==>
                  o.priv == Get(r, Field("op")) && o.text == Str(", ") + ItemsText(MetadataHead(), r))
  {
  }

  /** The gem_metadata exit prints the same whatever the stash holds. */
  lemma MetadataExitIgnoresStash(L: Layout, mem: Mem, failed: bool, arg: Addr, p1: int, p2: int)
    ensures MetadataStep(L, Env(Exiting, failed, mem, p1), arg).text
            == MetadataStep(L, Env(Exiting, failed, mem, p2), arg).text
    ensures failed ==> MetadataStep(L, Env(Exiting, failed, mem, p1), arg).text == Str("}")
  {
    if failed {
      assert [] + Str("}") == Str("}");
    }
  }

  /**
   * info, gem_va, gem_op, vm and sched decode once at entering and finish,
   * whatever the call's outcome.
   */
  lemma SinglePhaseDecoders(L: Layout, memIn: Mem, arg: Addr, memOut: Mem, failed: bool)
    ensures forall sh | sh in SingleDecoders() ::
              && ShapeStep(sh, L, Env(Entering, false, memIn, 0), arg).rc == IoctlDecoded
              && Call(Shaped(sh), L, memIn, arg, memOut, failed) == SingleText(sh.ty, sh.items, L, memIn, arg)
  {
    forall sh | sh in SingleDecoders()
      ensures ShapeStep(sh, L, Env(Entering, false, memIn, 0), arg).rc == IoctlDecoded
      ensures Call(Shaped(sh), L, memIn, arg, memOut, failed) == SingleText(sh.ty, sh.items, L, memIn, arg)
    {
      SingleCall(sh, L, memIn, arg, memOut, failed);
    }
  }

  /** The decoders that read their record once, at entering. */
  function SingleDecoders(): (s: seq<Shape>)
    ensures forall sh | sh in s :: sh.Single? && !sh.entryOnly
  {
    [InfoDecoder(), GemVaDecoder(), GemOpDecoder(), VmDecoder(), SchedDecoder()]
  }

  /**
   * The in/out split decoders leave "{in={...}" open at entering and, when
   * the call failed or the union no longer reads, close it with "}" alone.
   */
  lemma SplitDecodersFailedExit(L: Layout, memIn: Mem, arg: Addr, memOut: Mem, failed: bool)
    requires failed || forall sh | sh in SplitDecoders() :: Umove(L, memOut, arg, sh.ty).None?
    ensures forall sh | sh in SplitDecoders() && ReadOrAddr(L, memIn, arg, sh.ty).Some? ::
              Call(Shaped(sh), L, memIn, arg, memOut, failed)
              == Str(", ") + ItemsText(sh.entry, ReadOrAddr(L, memIn, arg, sh.ty).value) + Str("}")
  {
    forall sh | sh in SplitDecoders() && ReadOrAddr(L, memIn, arg, sh.ty).Some?
      ensures Call(Shaped(sh), L, memIn, arg, memOut, failed)
              == Str(", ") + ItemsText(sh.entry, ReadOrAddr(L, memIn, arg, sh.ty).value) + Str("}")
    {
      var rin := ReadOrAddr(L, memIn, arg, sh.ty).value;
      SplitCall(sh, L, memIn, arg, memOut, failed);
      assert Str(", ") + ItemsText(sh.entry, rin) + [] == Str(", ") + ItemsText(sh.entry, rin);
    }
  }

  function SplitDecoders(): (s: seq<Shape>)
    ensures forall sh | sh in s :: sh.Split? && !sh.quiet
  {
    [GemCreateDecoder(), GemMmapDecoder(), BoListDecoder(), CsDecoder(), GemWaitIdleDecoder(),
     WaitCsDecoder(), GemUserptrDecoder(), WaitFencesDecoder(), FenceToHandleDecoder()]
  }
}
