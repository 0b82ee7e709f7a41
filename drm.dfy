/**
 * The generic DRM decoders (drm.c): the request-number hook for
 * MODE_GETCONNECTOR, the exact-code switch of drm_ioctl and its decoders.
 * This file is compiled once, for the tracer's own ABI, so its structures
 * and request codes use the native layout.
 */
module Drm {
  import Ioc
  import Arith
  import opened Trace
  import opened Printer
  import opened Shapes
  import opened Request
  import opened Braces
  import DrmMpers

  // drm_decode_number.

  /** MODE_GETCONNECTOR's command number. */
  const NR_GETCONNECTOR := 0xa7

  /** print_drm_iowr: "DRM_IOWR(nr, size) /* name */". */
  function IowrText(nr: int, size: int, name: string): seq<Tok>
  {
    Str("DRM_IOWR(") + [Num(Hex, nr)] + Str(", ") + [Num(Hex, size)] + Str(") /* " + name + " */")
  }

  /**
   * drm_decode_number: a READ|WRITE code with number 0xa7 is named
   * MODE_GETCONNECTOR with its encoded size spelt out, because the
   * structure's size changed between kernel versions.
   */
  function DecodeNumber(code: Ioc.Code): Named
  {
    if Ioc.Dir(code) == Ioc.READ_WRITE && Ioc.Nr(code) == NR_GETCONNECTOR
    then Named(IowrText(Ioc.Nr(code), Ioc.Size(code), "DRM_IOCTL_MODE_GETCONNECTOR"), StopLookup)
    else Named([], Continue)
  }

  method RunDecodeNumber(tcp: Tcb, code: Ioc.Code) returns (rc: NumberRc)
    modifies tcp`out
    ensures tcp.out == old(tcp.out) + DecodeNumber(code).text
    ensures rc == DecodeNumber(code).rc
  {
    var nr := Ioc.Nr(code);
    if Ioc.Dir(code) == Ioc.READ_WRITE && nr == NR_GETCONNECTOR {
      Print(tcp, IowrText(nr, Ioc.Size(code), "DRM_IOCTL_MODE_GETCONNECTOR"));
      return StopLookup;
    }
    return Continue;
  }

  /**
   * Every READ|WRITE code with number 0xa7 is named, with its own size,
   * and the lookup stops; every other code is left to the tables.
   */
  lemma {:induction false} DecodeNumberAnySize(code: Ioc.Code)
    ensures DecodeNumber(code).rc == StopLookup
            <==> Ioc.Dir(code) == Ioc.READ_WRITE && Ioc.Nr(code) == NR_GETCONNECTOR
    ensures DecodeNumber(code).rc == Continue ==> DecodeNumber(code).text == []
    ensures forall typ: nat, size: nat | typ < Ioc.TYPE_LIMIT && size < Ioc.SIZE_LIMIT ::
              DecodeNumber(Ioc.Iowr(typ, NR_GETCONNECTOR, size))
              == Named(IowrText(NR_GETCONNECTOR, size, "DRM_IOCTL_MODE_GETCONNECTOR"), StopLookup)
  {
    forall typ: nat, size: nat | typ < Ioc.TYPE_LIMIT && size < Ioc.SIZE_LIMIT
      ensures DecodeNumber(Ioc.Iowr(typ, NR_GETCONNECTOR, size))
              == Named(IowrText(NR_GETCONNECTOR, size, "DRM_IOCTL_MODE_GETCONNECTOR"), StopLookup)
    {
      var code := Ioc.Iowr(typ, NR_GETCONNECTOR, size);
      assert Ioc.Decode(code) == Ioc.Fields(Ioc.READ_WRITE, typ, NR_GETCONNECTOR, size);
    }
  }

  // The decoders.

  function DrmGetMagic(): Shape
  {
    ExitOnly("drm_auth", [F("{", "magic", U), T("}")], true)
  }

  function DrmIrqBusid(): Shape
  {
    Split("drm_irq_busid",
          [F("{", "busnum", D), F(", ", "devnum", D), F(", ", "funcnum", D)],
          [F(", ", "irq", D)],
          false)
  }

  function SetVersionFields(): seq<Item>
  {
    [F("{", "drm_di_major", D), F(", ", "drm_di_minor", D),
     F(", ", "drm_dd_major", D), F(", ", "drm_dd_minor", D), T("}")]
  }

  /** drm_set_version prints the same four numbers in and, on success, out. */
  function DrmSetVersion(): Shape
  {
    Arrow("drm_set_version", SetVersionFields(), SetVersionFields())
  }

  function DrmModesetCtl(): Shape
  {
    Single("drm_modeset_ctl",
           [F("{", "crtc", U), F(", ", "cmd", XVal("drm_modeset_cmd", "_DRM_???")), T("}")],
           false)
  }

  function DrmGemClose(): Shape
  {
    Single("drm_gem_close", [F("{", "handle", U), T("}")], false)
  }

  function DrmGemFlink(): Shape
  {
    Split("drm_gem_flink", [F("{", "handle", U)], [F(", ", "name", U)], false)
  }

  function DrmGemOpen(): Shape
  {
    Split("drm_gem_open", [F("{", "name", U)], [F(", ", "handle", U), F(", ", "size", U)], false)
  }

  function DrmGetCap(): Shape
  {
    Split("drm_get_cap",
          [F("{", "capability", XVal("drm_capability", "DRM_CAP_???"))],
          [F(", ", "value", U)],
          false)
  }

  function DrmSetClientCap(): Shape
  {
    Single("drm_set_client_cap",
           [F("{", "capability", XVal("drm_client_capability", "DRM_CLIENT_CAP_???")),
            F(", ", "value", U), T("}")],
           false)
  }

  function DrmAuthMagic(): Shape
  {
    Single("drm_auth", [F("{", "magic", U), T("}")], false)
  }

  /** drm_noop: ", " and the argument as an address. */
  function DrmNoop(): Shape
  {
    Raw
  }

  function DrmControl(): Shape
  {
    Single("drm_control",
           [F("{", "func", XVal("drm_control_func", "DRM_???")), F(", ", "irq", D), T("}")],
           false)
  }

  function DrmCtx(): Shape
  {
    ExitOnly("drm_ctx", [F("{", "handle", U), T("}")], true)
  }

  function DrmRmCtx(): Shape
  {
    Single("drm_ctx", [F("{", "handle", U), T("}")], true)
  }

  function DrmGetCtx(): Shape
  {
    ExitOnly("drm_ctx", [F("{", "flags", Flags("drm_ctx_flags", "_DRM_CONTEXT_???")), T("}")], true)
  }

  function DrmLock(): Shape
  {
    ExitOnly("drm_lock",
             [F("{", "context", D), F(", ", "flags", Flags("drm_lock_flags", "_DRM_LOCK_???")), T("}")],
             true)
  }

  function DrmPrimeHandleToFd(): Shape
  {
    Split("drm_prime_handle", [F("{", "handle", U), F(", ", "flags", X)], [F(", ", "fd", FdOf)], false)
  }

  function DrmPrimeFdToHandle(): Shape
  {
    Split("drm_prime_handle", [F("{", "fd", FdOf)], [F(", ", "handle", U)], false)
  }

  function DrmCrtcGetSequence(): Shape
  {
    Split("drm_crtc_get_sequence",
          [F("{", "crtc_id", U)],
          [F(", ", "active", U), F(", ", "sequence", U), F(", ", "sequence_ns", D)],
          false)
  }

  function DrmCrtcQueueSequence(): Shape
  {
    Arrow("drm_crtc_queue_sequence",
          [F("{", "crtc_id", U), F(", ", "flags", Flags("drm_crtc_sequence_flags", "DRM_CRTC_SEQUENCE_???")),
           F(", ", "user_data", X), F(", ", "sequence", U), T("}")],
          [F("{", "sequence", U), T("}")])
  }

  function DrmModeGetResources(): Shape
  {
    Arrow("drm_mode_card_res",
          [T("{fb_id_ptr="), Arr("fb_id_ptr", "count_fbs", 1, "uint32"),
           T(", crtc_id_ptr="), Arr("crtc_id_ptr", "count_crtcs", 1, "uint32"),
           T(", connector_id_ptr="), Arr("connector_id_ptr", "count_connectors", 1, "uint32"),
           T(", encoder_id_ptr="), Arr("encoder_id_ptr", "count_encoders", 1, "uint32"),
           F(", ", "count_fbs", U), F(", ", "count_crtcs", U),
           F(", ", "count_connectors", U), F(", ", "count_encoders", U), T("}")],
          [F("{", "count_fbs", U), F(", ", "count_crtcs", U),
           F(", ", "count_connectors", U), F(", ", "count_encoders", U),
           F(", ", "min_width", U), F(", ", "max_width", U),
           F(", ", "min_height", U), F(", ", "max_height", U), T("}")])
  }

  /** print_drm_mode_modeinfo over the embedded mode record. */
  function ModeInfo(): seq<Item>
  {
    [M("{", "mode", "clock", U), M(", ", "mode", "hdisplay", U),
     M(", ", "mode", "hsync_start", U), M(", ", "mode", "hsync_end", U),
     M(", ", "mode", "htotal", U), M(", ", "mode", "hskew", U),
     M(", ", "mode", "vdisplay", U), M(", ", "mode", "vsync_start", U),
     M(", ", "mode", "vsync_end", U), M(", ", "mode", "vtotal", U),
     M(", ", "mode", "vscan", U), M(", ", "mode", "vrefresh", U),
     M(", ", "mode", "flags", Flags("drm_mode_flags", "DRM_MODE_FLAG_PIC_???")),
     M(", ", "mode", "type", XVal("drm_mode_type", "DRM_MODE_TYPE_???")),
     M(", ", "mode", "name", CStr), T("}")]
  }

  /** print_drm_mode_crtc_tail. */
  function CrtcTail(): seq<Item>
  {
    [T(", set_connectors_ptr="), Arr("set_connectors_ptr", "count_connectors", 1, "uint32"),
     F(", ", "count_connectors", U), F(", ", "fb_id", U), F(", ", "x", U), F(", ", "y", U),
     F(", ", "gamma_size", U), F(", ", "mode_valid", U), T(", mode=")]
    + ModeInfo()
  }

  /** SETCRTC prints the tail going in; GETCRTC only after a successful call. */
  function DrmModeCrtc(isGet: bool): Shape
  {
    Split("drm_mode_crtc",
          [F("{", "crtc_id", U)] + (if isGet then [] else CrtcTail()),
          if isGet then CrtcTail() else [],
          false)
  }

  function CursorFields(): seq<Item>
  {
    [F("{", "flags", X), F(", ", "crtc_id", U), F(", ", "x", D), F(", ", "y", D),
     F(", ", "width", U), F(", ", "height", U), F(", ", "handle", U)]
  }

  function DrmModeCursor(): Shape
  {
    Single("drm_mode_cursor", CursorFields() + [T("}")], true)
  }

  /** The gamma ramps, each of gamma_size 16-bit entries times scale. */
  function GammaItems(scale: nat): seq<Item>
  {
    [F("{", "crtc_id", U), F(", ", "gamma_size", U),
     T(", red="), Arr("red", "gamma_size", scale, "uint16"),
     T(", green="), Arr("green", "gamma_size", scale, "uint16"),
     T(", blue="), Arr("blue", "gamma_size", scale, "uint16"), T("}")]
  }

  /** drm_mode_gamma: each ramp holds gamma_size entries. */
  function DrmModeGamma(): Shape
  {
    Single("drm_mode_crtc_lut", GammaItems(1), true)
  }

  /** drm_mode_gamma as written: the byte count of a ramp is its element count. */
  function DrmModeGammaAsWritten(): Shape
  {
    Single("drm_mode_crtc_lut", GammaItems(2), true)
  }

  function DrmModeGetEncoder(): Shape
  {
    Arrow("drm_mode_get_encoder",
          [F("{", "encoder_id", U), T("}")],
          [F("{", "encoder_id", U),
           F(", ", "encoder_type", XVal("drm_mode_encoder_type", "DRM_MODE_ENCODER_???")),
           F(", ", "crtc_id", U), F(", ", "possible_crtcs", X), F(", ", "possible_clones", X), T("}")])
  }

  function DrmModeGetProperty(): Shape
  {
    Arrow("drm_mode_get_property",
          [F("{", "prop_id", U), F(", ", "count_values", U), F(", ", "count_enum_blobs", U), T("}")],
          [T("{values_ptr="), Arr("values_ptr", "count_values", 1, "uint64"),
           T(", enum_blob_ptr="), Arr("enum_blob_ptr", "count_enum_blobs", 1, "drm_mode_property_enum"),
           F(", ", "flags", X), F(", ", "name", CStr),
           F(", ", "count_values", U), F(", ", "count_enum_blobs", U), T("}")])
  }

  function DrmModeSetProperty(): Shape
  {
    Single("drm_mode_connector_set_property",
           [F("{", "value", U), F(", ", "prop_id", U), F(", ", "connector_id", U), T("}")],
           false)
  }

  function DrmModeGetPropBlob(): Shape
  {
    Split("drm_mode_get_blob", [F("{", "blob_id", U)], [F(", ", "length", U), F(", ", "data", U)], false)
  }

  /** print_drm_mode_fb_cmd_part; the caller prints what comes before. */
  function FbCmdPart(): seq<Item>
  {
    [F("", "width", U), F(", ", "height", U), F(", ", "pitch", U),
     F(", ", "bpp", U), F(", ", "depth", U), F(", ", "handle", U)]
  }

  function DrmModeGetFb(): Shape
  {
    Split("drm_mode_fb_cmd", [F("{", "fb_id", U)], [T(", ")] + FbCmdPart(), false)
  }

  function DrmModeAddFb(): Shape
  {
    Split("drm_mode_fb_cmd", [T("{")] + FbCmdPart(), [F(", ", "fb_id", U)], false)
  }

  /** drm_mode_rm_fb reads a bare unsigned int, whose one field is "value". */
  function DrmModeRmFb(): Shape
  {
    Single("unsigned int", [T("{fb_id="), V("value", U), T("}")], false)
  }

  function DrmModePageFlip(): Shape
  {
    Single("drm_mode_crtc_page_flip",
           [F("{", "crtc_id", U), F(", ", "fb_id", U),
            F(", ", "flags", Flags("drm_mode_page_flip_flags", "DRM_MODE_PAGE_FLIP_???")),
            F(", ", "user_data", X), T("}")],
           false)
  }

  function DrmModeDirtyFb(): Shape
  {
    Single("drm_mode_fb_dirty_cmd",
           [F("{", "fb_id", U), F(", ", "flags", X), F(", ", "color", X), F(", ", "num_clips", U),
            T(", clips_ptr="), Arr("clips_ptr", "num_clips", 1, "drm_clip_rect"), T("}")],
           false)
  }

  function DrmModeCreateDumb(): Shape
  {
    Split("drm_mode_create_dumb",
          [F("{", "width", U), F(", ", "height", U), F(", ", "bpp", U), F(", ", "flags", X)],
          [F(", ", "handle", U), F(", ", "pitch", U), F(", ", "size", U)],
          false)
  }

  function DrmModeMapDumb(): Shape
  {
    Split("drm_mode_map_dumb", [F("{", "handle", U)], [F(", ", "offset", U)], false)
  }

  function DrmModeDestroyDumb(): Shape
  {
    Single("drm_mode_destroy_dumb", [F("{", "handle", U), T("}")], false)
  }

  function DrmModeGetPlane(): Shape
  {
    Arrow("drm_mode_get_plane",
          [T("{"), F("", "plane_id", U), F(", ", "count_format_types", U),
           T(", format_type_ptr="), Arr("format_type_ptr", "count_format_types", 1, "uint32"), T("}")],
          [T("{"), F("", "plane_id", U), F(", ", "crtc_id", U), F(", ", "fb_id", U),
           F(", ", "possible_crtcs", U), F(", ", "gamma_size", U),
           F(", ", "count_format_types", U), T("}")])
  }

  /** A plane source coordinate and its 16.16 reading as a comment. */
  function SrcField(name: string): seq<Item>
  {
    [F(", ", name, U), Fixed16(name)]
  }

  function DrmModeSetPlane(): Shape
  {
    Split("drm_mode_set_plane",
          [F("{", "plane_id", U), F(", ", "crtc_id", U), F(", ", "fb_id", U), F(", ", "flags", X)],
          [F(", ", "crtc_x", D), F(", ", "crtc_y", D), F(", ", "crtc_w", U), F(", ", "crtc_h", U)]
          + SrcField("src_x") + SrcField("src_y") + SrcField("src_h") + SrcField("src_w"),
          false)
  }

  function DrmModeCursor2(): Shape
  {
    Single("drm_mode_cursor2",
           CursorFields() + [F(", ", "hot_x", D), F(", ", "hot_y", D), T("}")],
           true)
  }

  function DrmModeAtomic(): Shape
  {
    Single("drm_mode_atomic",
           [F("{", "flags", X), F(", ", "count_objs", U),
            T(", objs_ptr="), Arr("objs_ptr", "count_objs", 1, "uint32"),
            T(", count_props_ptr="), Arr("count_props_ptr", "count_objs", 1, "uint32"),
            T(", props_ptr="), Arr("props_ptr", "count_objs", 1, "uint32"),
            T(", prop_values_ptr="), Arr("prop_values_ptr", "count_objs", 1, "uint64"),
            NonZero(", ", "reserved", U), F(", ", "user_data", X), T("}")],
           false)
  }

  function DrmModeCreatePropBlob(): Shape
  {
    Split("drm_mode_create_blob", [F("{", "data", P), F(", ", "length", U)], [F(", ", "blob_id", U)], false)
  }

  function DrmModeDestroyPropBlob(): Shape
  {
    Single("drm_mode_destroy_blob", [F("{", "blob_id", U), T("}")], false)
  }

  function DrmSyncobjCreate(): Shape
  {
    Split("drm_syncobj_create",
          [F("{", "flags", Flags("drm_syncobj_flags", "DRM_SYNCOBJ_???"))],
          [F(", ", "handle", U)],
          false)
  }

  function DrmSyncobjDestroy(): Shape
  {
    Single("drm_syncobj_destroy", [F("{", "handle", U), NonZero(", ", "pad", U), T("}")], false)
  }

  /** HANDLE_TO_FD: handle in, descriptor out; FD_TO_HANDLE the other way. */
  function DrmSyncobjHandleFd(isHandleToFd: bool): Shape
  {
    Split("drm_syncobj_handle",
          [if isHandleToFd then F("{", "handle", U) else F("{", "fd", FdOf),
           F(", ", "flags", X), NonZero(", ", "pad", U)],
          [if isHandleToFd then F(", ", "fd", FdOf) else F(", ", "handle", U)],
          false)
  }

  /** The fields of a wait request after its opening text. */
  function WaitFields(flags: Fmt): seq<Item>
  {
    [Arr("handles", "count_handles", 1, "uint32"), F(", ", "timeout_nsec", D),
     F(", ", "count_handles", U), F(", ", "flags", flags)]
  }

  /** A wait request whose record starts with the given text. */
  function WaitRequest(ty: string, lead: string, flags: Fmt): Shape
  {
    Split(ty, [T(lead)] + WaitFields(flags), [F(", ", "first_signaled", U)], false)
  }

  /** drm_syncobj_wait, its record opened with "{". */
  function DrmSyncobjWait(): Shape
  {
    WaitRequest("drm_syncobj_wait", "{handles=", X)
  }

  /** drm_syncobj_wait as written: ", handles=" where "{handles=" belongs. */
  function DrmSyncobjWaitAsWritten(): Shape
  {
    WaitRequest("drm_syncobj_wait", ", handles=", X)
  }

  function ResetFields(): seq<Item>
  {
    [Arr("handles", "count_handles", 1, "uint32"), F(", ", "count_handles", U), NonZero(", ", "pad", U)]
  }

  /** drm_syncobj_reset_or_signal with its record starting with the given text. */
  function ResetRequest(lead: string): Shape
  {
    Single("drm_syncobj_array", [T(lead)] + ResetFields() + [T("}")], false)
  }

  function DrmSyncobjResetOrSignal(): Shape
  {
    ResetRequest("{handles=")
  }

  /** As written: ", handles=" where "{handles=" belongs. */
  function DrmSyncobjResetOrSignalAsWritten(): Shape
  {
    ResetRequest(", handles=")
  }

  function LeaseFields(): seq<Item>
  {
    [Arr("object_ids", "object_count", 1, "uint32"), F(", ", "object_count", U), F(", ", "flags", X)]
  }

  /** drm_mode_create_lease with its record starting with the given text. */
  function LeaseRequest(lead: string): Shape
  {
    Split("drm_mode_create_lease", [T(lead)] + LeaseFields(),
          [F(", ", "lessee_id", U), F(", ", "fd", FdOf)], false)
  }

  function DrmModeCreateLease(): Shape
  {
    LeaseRequest("{object_ids=")
  }

  /** As written: ", object_ids=" where "{object_ids=" belongs. */
  function DrmModeCreateLeaseAsWritten(): Shape
  {
    LeaseRequest(", object_ids=")
  }

  function DrmModeListLessees(): Shape
  {
    Arrow("drm_mode_list_lessees",
          [F("{", "count_lessees", U), NonZero(", ", "pad", U),
           T(", lessees_ptr="), Arr("lessees_ptr", "count_lessees", 1, "uint32"), T("}")],
          [F("{", "count_lessees", U), T("}")])
  }

  function DrmModeGetLease(): Shape
  {
    Arrow("drm_mode_get_lease",
          [F("{", "count_objects", U), NonZero(", ", "pad", U),
           T(", objects_ptr="), Arr("objects_ptr", "count_objects", 1, "uint32"), T("}")],
          [F("{", "count_objects", U), T("}")])
  }

  function DrmModeRevokeLease(): Shape
  {
    Single("drm_mode_revoke_lease", [F("{", "lessee_id", U), T("}")], false)
  }

  const TIMELINE_WAIT_FLAGS := Flags("drm_syncobj_wait_flags", "DRM_SYNCOBJ_WAIT_FLAGS_???")

  function DrmSyncobjTimelineWait(): Shape
  {
    WaitRequest("drm_syncobj_timeline_wait", "{handles=", TIMELINE_WAIT_FLAGS)
  }

  /** As written: the same ", handles=" as drm_syncobj_wait. */
  function DrmSyncobjTimelineWaitAsWritten(): Shape
  {
    WaitRequest("drm_syncobj_timeline_wait", ", handles=", TIMELINE_WAIT_FLAGS)
  }

  function TimelineHandles(): seq<Item>
  {
    [T("{handles="), Arr("handles", "count_handles", 1, "uint32")]
  }

  /** The points array and the rest of the record. */
  function TimelinePoints(): seq<Item>
  {
    [Arr("points", "count_handles", 1, "uint64")] + TimelineArrayTail()
  }

  function TimelineArrayTail(): seq<Item>
  {
    [F(", ", "count_handles", U), NonZero(", ", "pad", U), T("}")]
  }

  /** drm_syncobj_query_or_timeline_signal with the points labelled. */
  function DrmSyncobjQueryOrTimelineSignal(): Shape
  {
    Single("drm_syncobj_timeline_array",
           TimelineHandles() + [T(", points=")] + TimelinePoints(), false)
  }

  /** As written: the points array follows the handles with no separator. */
  function DrmSyncobjQueryOrTimelineSignalAsWritten(): Shape
  {
    Single("drm_syncobj_timeline_array", TimelineHandles() + TimelinePoints(), false)
  }

  function DrmSyncobjTransfer(): Shape
  {
    Single("drm_syncobj_transfer",
           [F("{", "src_handle", U), F(", ", "dst_handle", U), F(", ", "src_point", U),
            F(", ", "dst_point", U), F(", ", "flags", TIMELINE_WAIT_FLAGS),
            NonZero(", ", "pad", U), T("}")],
           false)
  }

  // The switch of drm_ioctl.

  /**
   * One case label of drm_ioctl with the decoder it runs. A label is
   * DRM_IO*(nr, type): the switch is keyed by command number, and a case
   * holds the direction and structure type its label was built with.
   */
  datatype Case = Case(dir: Ioc.DirVal, ty: string, decoder: Shape)

  /** The label a case stands for at its command number. */
  function LabelAt(nr: Ioc.NrVal, k: Case): Label
  {
    Label(k.dir, nr, k.ty)
  }

  /** The case with a given command number, if the switch has one. */
  function CaseOf(nr: nat): Option<Case>
  {
    if nr < 0x20 then CoreCase(nr)
    else if nr < 0x40 then ContextCase(nr)
    else if nr < 0xa0 then None
    else if nr < 0xb5 then ModeCase(nr)
    else LateCase(nr)
  }

  /** The cases for the core requests: version, authentication, capabilities, locks. */
  function CoreCase(nr: nat): Option<Case>
  {
    match nr
    case 0x02 => Some(Case(Ioc.READ, "drm_auth", DrmGetMagic()))
    case 0x03 => Some(Case(Ioc.READ_WRITE, "drm_irq_busid", DrmIrqBusid()))
    case 0x06 => Some(Case(Ioc.READ, "drm_stats", DrmNoop()))
    case 0x07 => Some(Case(Ioc.READ_WRITE, "drm_set_version", DrmSetVersion()))
    case 0x08 => Some(Case(Ioc.WRITE, "drm_modeset_ctl", DrmModesetCtl()))
    case 0x09 => Some(Case(Ioc.WRITE, "drm_gem_close", DrmGemClose()))
    case 0x0a => Some(Case(Ioc.READ_WRITE, "drm_gem_flink", DrmGemFlink()))
    case 0x0b => Some(Case(Ioc.READ_WRITE, "drm_gem_open", DrmGemOpen()))
    case 0x0c => Some(Case(Ioc.READ_WRITE, "drm_get_cap", DrmGetCap()))
    case 0x0d => Some(Case(Ioc.WRITE, "drm_set_client_cap", DrmSetClientCap()))
    case 0x11 => Some(Case(Ioc.WRITE, "drm_auth", DrmAuthMagic()))
    case 0x12 => Some(Case(Ioc.READ_WRITE, "drm_block", DrmNoop()))
    case 0x13 => Some(Case(Ioc.READ_WRITE, "drm_block", DrmNoop()))
    case 0x14 => Some(Case(Ioc.WRITE, "drm_control", DrmControl()))
    case _ => None
  }

  /** The cases for the context, drawable, lock, PRIME and vblank-sequence requests. */
  function ContextCase(nr: nat): Option<Case>
  {
    match nr
    case 0x20 => Some(Case(Ioc.READ_WRITE, "drm_ctx", DrmCtx()))
    case 0x21 => Some(Case(Ioc.READ_WRITE, "drm_ctx", DrmRmCtx()))
    case 0x22 => Some(Case(Ioc.WRITE, "drm_ctx", DrmNoop()))
    case 0x23 => Some(Case(Ioc.READ_WRITE, "drm_ctx", DrmGetCtx()))
    case 0x24 => Some(Case(Ioc.WRITE, "drm_ctx", DrmCtx()))
    case 0x25 => Some(Case(Ioc.WRITE, "drm_ctx", DrmCtx()))
    case 0x27 => Some(Case(Ioc.READ_WRITE, "drm_draw", DrmNoop()))
    case 0x28 => Some(Case(Ioc.READ_WRITE, "drm_draw", DrmNoop()))
    case 0x2a => Some(Case(Ioc.WRITE, "drm_lock", DrmLock()))
    case 0x2b => Some(Case(Ioc.WRITE, "drm_lock", DrmLock()))
    case 0x2c => Some(Case(Ioc.WRITE, "drm_lock", DrmNoop()))
    case 0x2d => Some(Case(Ioc.READ_WRITE, "drm_prime_handle", DrmPrimeHandleToFd()))
    case 0x2e => Some(Case(Ioc.READ_WRITE, "drm_prime_handle", DrmPrimeFdToHandle()))
    case 0x3b => Some(Case(Ioc.READ_WRITE, "drm_crtc_get_sequence", DrmCrtcGetSequence()))
    case 0x3c => Some(Case(Ioc.READ_WRITE, "drm_crtc_queue_sequence", DrmCrtcQueueSequence()))
    case _ => None
  }

  /** The cases for the mode-setting requests from GETRESOURCES to DESTROY_DUMB. */
  function ModeCase(nr: nat): Option<Case>
  {
    match nr
    case 0xa0 => Some(Case(Ioc.READ_WRITE, "drm_mode_card_res", DrmModeGetResources()))
    case 0xa1 => Some(Case(Ioc.READ_WRITE, "drm_mode_crtc", DrmModeCrtc(true)))
    case 0xa2 => Some(Case(Ioc.READ_WRITE, "drm_mode_crtc", DrmModeCrtc(false)))
    case 0xa3 => Some(Case(Ioc.READ_WRITE, "drm_mode_cursor", DrmModeCursor()))
    case 0xa4 => Some(Case(Ioc.READ_WRITE, "drm_mode_crtc_lut", DrmModeGammaAsWritten()))
    case 0xa5 => Some(Case(Ioc.READ_WRITE, "drm_mode_crtc_lut", DrmModeGammaAsWritten()))
    case 0xa6 => Some(Case(Ioc.READ_WRITE, "drm_mode_get_encoder", DrmModeGetEncoder()))
    case 0xa8 => Some(Case(Ioc.READ_WRITE, "drm_mode_mode_cmd", DrmNoop()))
    case 0xa9 => Some(Case(Ioc.READ_WRITE, "drm_mode_mode_cmd", DrmNoop()))
    case 0xaa => Some(Case(Ioc.READ_WRITE, "drm_mode_get_property", DrmModeGetProperty()))
    case 0xab => Some(Case(Ioc.READ_WRITE, "drm_mode_connector_set_property", DrmModeSetProperty()))
    case 0xac => Some(Case(Ioc.READ_WRITE, "drm_mode_get_blob", DrmModeGetPropBlob()))
    case 0xad => Some(Case(Ioc.READ_WRITE, "drm_mode_fb_cmd", DrmModeGetFb()))
    case 0xae => Some(Case(Ioc.READ_WRITE, "drm_mode_fb_cmd", DrmModeAddFb()))
    case 0xaf => Some(Case(Ioc.READ_WRITE, "unsigned int", DrmModeRmFb()))
    case 0xb0 => Some(Case(Ioc.READ_WRITE, "drm_mode_crtc_page_flip", DrmModePageFlip()))
    case 0xb1 => Some(Case(Ioc.READ_WRITE, "drm_mode_fb_dirty_cmd", DrmModeDirtyFb()))
    case 0xb2 => Some(Case(Ioc.READ_WRITE, "drm_mode_create_dumb", DrmModeCreateDumb()))
    case 0xb3 => Some(Case(Ioc.READ_WRITE, "drm_mode_map_dumb", DrmModeMapDumb()))
    case 0xb4 => Some(Case(Ioc.READ_WRITE, "drm_mode_destroy_dumb", DrmModeDestroyDumb()))
    case _ => None
  }

  /** The cases for planes, atomic commits, property blobs, sync objects and leases. */
  function LateCase(nr: nat): Option<Case>
  {
    match nr
    case 0xb6 => Some(Case(Ioc.READ_WRITE, "drm_mode_get_plane", DrmModeGetPlane()))
    case 0xb7 => Some(Case(Ioc.READ_WRITE, "drm_mode_set_plane", DrmModeSetPlane()))
    case 0xbb => Some(Case(Ioc.READ_WRITE, "drm_mode_cursor2", DrmModeCursor2()))
    case 0xbc => Some(Case(Ioc.READ_WRITE, "drm_mode_atomic", DrmModeAtomic()))
    case 0xbd => Some(Case(Ioc.READ_WRITE, "drm_mode_create_blob", DrmModeCreatePropBlob()))
    case 0xbe => Some(Case(Ioc.READ_WRITE, "drm_mode_destroy_blob", DrmModeDestroyPropBlob()))
    case 0xbf => Some(Case(Ioc.READ_WRITE, "drm_syncobj_create", DrmSyncobjCreate()))
    case 0xc0 => Some(Case(Ioc.READ_WRITE, "drm_syncobj_destroy", DrmSyncobjDestroy()))
    case 0xc1 => Some(Case(Ioc.READ_WRITE, "drm_syncobj_handle", DrmSyncobjHandleFd(true)))
    case 0xc2 => Some(Case(Ioc.READ_WRITE, "drm_syncobj_handle", DrmSyncobjHandleFd(false)))
    case 0xc3 => Some(Case(Ioc.READ_WRITE, "drm_syncobj_wait", DrmSyncobjWaitAsWritten()))
    case 0xc4 => Some(Case(Ioc.READ_WRITE, "drm_syncobj_array", DrmSyncobjResetOrSignalAsWritten()))
    case 0xc5 => Some(Case(Ioc.READ_WRITE, "drm_syncobj_array", DrmSyncobjResetOrSignalAsWritten()))
    case 0xc6 => Some(Case(Ioc.READ_WRITE, "drm_mode_create_lease", DrmModeCreateLeaseAsWritten()))
    case 0xc7 => Some(Case(Ioc.READ_WRITE, "drm_mode_list_lessees", DrmModeListLessees()))
    case 0xc8 => Some(Case(Ioc.READ_WRITE, "drm_mode_get_lease", DrmModeGetLease()))
    case 0xc9 => Some(Case(Ioc.READ_WRITE, "drm_mode_revoke_lease", DrmModeRevokeLease()))
    case 0xca => Some(Case(Ioc.READ_WRITE, "drm_syncobj_timeline_wait", DrmSyncobjTimelineWaitAsWritten()))
    case 0xcb => Some(Case(Ioc.READ_WRITE, "drm_syncobj_timeline_array", DrmSyncobjQueryOrTimelineSignalAsWritten()))
    case 0xcc => Some(Case(Ioc.READ_WRITE, "drm_syncobj_transfer", DrmSyncobjTransfer()))
    case 0xcd => Some(Case(Ioc.READ_WRITE, "drm_syncobj_timeline_array", DrmSyncobjQueryOrTimelineSignalAsWritten()))
    case _ => None
  }

  /** The case drm_ioctl selects: the code must carry its label's fields exactly. */
  function Switch(L: Layout, code: Ioc.Code): Option<Case>
  {
    match CaseOf(Ioc.Nr(code))
    case None => None
    case Some(k) => if Matches(L, code, LabelAt(Ioc.Nr(code), k)) then Some(k) else None
  }

  /**
   * The switch selects a case exactly when the code equals that case's
   * label, and each label selects its own case.
   */
  lemma {:induction false} SwitchIsExact(L: Layout, code: Ioc.Code)
    ensures Switch(L, code).Some?
            <==> CaseOf(Ioc.Nr(code)).Some? && code == CodeOf(L, LabelAt(Ioc.Nr(code), CaseOf(Ioc.Nr(code)).value))
    ensures Switch(L, code).Some? ==> Switch(L, code) == CaseOf(Ioc.Nr(code))
    ensures forall nr: Ioc.NrVal :: CaseOf(nr).Some? && code == CodeOf(L, LabelAt(nr, CaseOf(nr).value))
                                    ==> Switch(L, code) == CaseOf(nr)
  {
    if CaseOf(Ioc.Nr(code)).Some? {
      MatchesIsEquality(L, code, LabelAt(Ioc.Nr(code), CaseOf(Ioc.Nr(code)).value));
    }
    forall nr: Ioc.NrVal | CaseOf(nr).Some? && code == CodeOf(L, LabelAt(nr, CaseOf(nr).value))
      ensures Switch(L, code) == CaseOf(nr)
    {
      MatchesIsEquality(L, code, LabelAt(nr, CaseOf(nr).value));
    }
  }

  // drm_ioctl.

  /** Where drm_ioctl sends a code: one of its own decoders, or drm_ioctl_mpers. */
  datatype Target = Generic(sh: Shape) | Mpers(h: DrmMpers.Handler)

  /** drm_ioctl: the native switch, and drm_ioctl_mpers for everything else. */
  function Ioctl(native: Layout, pers: Layout, code: Ioc.Code): Target
  {
    match Switch(native, code)
    case Some(k) => Generic(k.decoder)
    case None => Mpers(DrmMpers.Ioctl(pers, code))
  }

  function Step(t: Target, native: Layout, pers: Layout, env: Env, arg: Addr): Outcome
  {
    match t
    case Generic(sh) => ShapeStep(sh, native, env, arg)
    case Mpers(h) => DrmMpers.Step(h, pers, env, arg)
  }

  method Run(tcp: Tcb, t: Target, arg: Addr) returns (rc: Rc)
    modifies tcp`out
    ensures tcp.out == old(tcp.out) + Step(t, tcp.native, tcp.pers, tcp.State(), arg).text
    ensures rc == Step(t, tcp.native, tcp.pers, tcp.State(), arg).rc
  {
    match t
    case Generic(sh) => rc := RunShape(tcp, sh, tcp.native, arg);
    case Mpers(h) => rc := DrmMpers.Run(tcp, h, tcp.pers, arg);
  }

  /**
   * A code equal to one of drm_ioctl's labels runs that label's decoder;
   * every other code goes to drm_ioctl_mpers unchanged.
   */
  lemma {:induction false} IoctlRoutes(native: Layout, pers: Layout, code: Ioc.Code)
    ensures forall nr: Ioc.NrVal :: CaseOf(nr).Some? && code == CodeOf(native, LabelAt(nr, CaseOf(nr).value))
                                    ==> Ioctl(native, pers, code) == Generic(CaseOf(nr).value.decoder)
    ensures (forall nr: Ioc.NrVal :: CaseOf(nr).Some? ==> code != CodeOf(native, LabelAt(nr, CaseOf(nr).value)))
            <==> Ioctl(native, pers, code) == Mpers(DrmMpers.Ioctl(pers, code))
  {
    SwitchIsExact(native, code);
    var nr: Ioc.NrVal := Ioc.Nr(code);
    assert CaseOf(nr) == CaseOf(Ioc.Nr(code));
  }

  /** GET_STATS's command number. */
  const NR_GET_STATS := 0x06

  /**
   * GET_STATS is also a label of drm_ioctl, decoded there as a no-op; so
   * drm_get_stats runs only for a personality whose struct drm_stats has a
   * size other than the native one.
   */
  lemma {:induction false} GetStatsShadowed(native: Layout, pers: Layout)
    requires native.sizeOf("drm_stats") == pers.sizeOf("drm_stats")
    ensures CaseOf(NR_GET_STATS) == Some(Case(Ioc.READ, "drm_stats", Raw))
    ensures Ioctl(native, pers, CodeOf(pers, DrmMpers.LabelOf(DrmMpers.GetStats))) == Generic(Raw)
  {
    var code := CodeOf(pers, DrmMpers.LabelOf(DrmMpers.GetStats));
    assert code == CodeOf(native, LabelAt(NR_GET_STATS, CaseOf(NR_GET_STATS).value));
    SwitchIsExact(native, code);
  }

  /**
   * The write-only requests decode their argument once, at entering, and
   * never ask for the exit call; the no-op decoder prints only ", " and
   * the argument's address.
   */
  lemma WriteOnlyFinishAtEntering(L: Layout, memIn: Mem, arg: Addr, memOut: Mem, failed: bool)
    ensures var env := Env(Entering, false, memIn, 0);
            && ShapeStep(DrmGemClose(), L, env, arg).rc == IoctlDecoded
            && ShapeStep(DrmModesetCtl(), L, env, arg).rc == IoctlDecoded
            && ShapeStep(DrmSetClientCap(), L, env, arg).rc == IoctlDecoded
            && ShapeStep(DrmAuthMagic(), L, env, arg).rc == IoctlDecoded
            && ShapeStep(DrmControl(), L, env, arg).rc == IoctlDecoded
    ensures ShapeCall(DrmGemClose(), L, memIn, arg, memOut, failed)
            == SingleText("drm_gem_close", [F("{", "handle", U), T("}")], L, memIn, arg)
    ensures ShapeCall(DrmNoop(), L, memIn, arg, memOut, failed) == Str(", ") + PrintAddr(arg)
  {
  }

  /**
   * MODE_GETCRTC prints crtc_id going in and the rest of the record only
   * after a successful call whose record reads again.
   */
  lemma ModeGetCrtcTail(L: Layout, memIn: Mem, arg: Addr, memOut: Mem, failed: bool)
    requires ReadOrAddr(L, memIn, arg, "drm_mode_crtc").Some?
    ensures var rin := ReadOrAddr(L, memIn, arg, "drm_mode_crtc").value;
            var rout := Umove(L, memOut, arg, "drm_mode_crtc");
            ShapeCall(DrmModeCrtc(true), L, memIn, arg, memOut, failed)
            == Str(", ") + FieldText("{", "crtc_id", U, Get(rin, Field("crtc_id")))
               + (if failed || rout.None? then [] else ItemsText(CrtcTail(), rout.value)) + Str("}")
  {
    var rin := ReadOrAddr(L, memIn, arg, "drm_mode_crtc").value;
    var sh := DrmModeCrtc(true);
    assert sh.ty == "drm_mode_crtc" && !sh.quiet;
    assert sh.exit == CrtcTail();
    assert sh.entry == [F("{", "crtc_id", U)];
    SplitCall(sh, L, memIn, arg, memOut, failed);
    var first := FieldText("{", "crtc_id", U, Get(rin, Field("crtc_id")));
    assert ItemsText(sh.entry, rin) == first + ItemsText([], rin);
    assert first + ItemsText([], rin) == first;
  }

  /** MODE_SETCRTC prints the whole record going in and only "}" at exit. */
  lemma ModeSetCrtcTail(L: Layout, memIn: Mem, arg: Addr, memOut: Mem, failed: bool)
    requires ReadOrAddr(L, memIn, arg, "drm_mode_crtc").Some?
    ensures var rin := ReadOrAddr(L, memIn, arg, "drm_mode_crtc").value;
            ShapeCall(DrmModeCrtc(false), L, memIn, arg, memOut, failed)
            == Str(", ") + (FieldText("{", "crtc_id", U, Get(rin, Field("crtc_id"))) + ItemsText(CrtcTail(), rin))
               + Str("}")
  {
    var rin := ReadOrAddr(L, memIn, arg, "drm_mode_crtc").value;
    var rout := Umove(L, memOut, arg, "drm_mode_crtc");
    var head := [F("{", "crtc_id", U)];
    var sh := DrmModeCrtc(false);
    assert sh.ty == "drm_mode_crtc" && !sh.quiet;
    assert sh.exit == [];
    assert sh.entry == head + CrtcTail();
    SplitCall(sh, L, memIn, arg, memOut, failed);
    ItemsTextAppend(head, CrtcTail(), rin);
    assert ItemsText(head, rin) == FieldText("{", "crtc_id", U, Get(rin, Field("crtc_id"))) + ItemsText([], rin);
    assert (if failed || rout.None? then [] else ItemsText(sh.exit, rout.value)) == [];
  }

  /** A padding or reserved field is printed exactly when it is nonzero. */
  lemma NonZeroPrintedIffSet(prefix: string, name: string, fmt: Fmt, r: Rec)
    ensures ItemText(NonZero(prefix, name, fmt), r) == [] <==> Get(r, Field(name)) == 0
    ensures Get(r, Field(name)) != 0 ==> ItemText(NonZero(prefix, name, fmt), r)
                                         == FieldText(prefix, name, fmt, Get(r, Field(name)))
  {
    if Get(r, Field(name)) != 0 {
      assert |FieldText(prefix, name, fmt, Get(r, Field(name)))| > 0;
    }
  }

  /**
   * The setplane source comment: the whole part is the high half, the
   * fraction is the low half in millionths, rounded down, at most 999984.
   */
  lemma SetPlaneFraction(v: int)
    ensures Fixed16Text(v) == Str(" /* ") + [Num(Unsigned, Arith.AsU32(v) / 0x1_0000)] + Str(".")
                              + [Num(Pad6, Arith.Fixed16Low(v) * 1000000 / 65536)] + Str(" */")
    ensures Arith.Fixed16Low(v) * 1000000 / 65536 <= 999984
  {
    Arith.Fixed16FracIsMillionths(v);
  }

  /** Each ramp is printed as an array of gamma_size times scale entries. */
  lemma GammaRamp(scale: nat, ramp: string, r: Rec)
    requires ramp in ["red", "green", "blue"]
    ensures Array(Get(r, Field(ramp)), Get(r, Field("gamma_size")) * scale, "uint16") in ItemsText(GammaItems(scale), r)
  {
    var i := if ramp == "red" then 3 else if ramp == "green" then 5 else 7;
    assert GammaItems(scale)[i] == Arr(ramp, "gamma_size", scale, "uint16");
    ItemAt(GammaItems(scale), i, r);
  }

  /**
   * drm_mode_gamma as written prints each ramp as an array of twice
   * gamma_size entries; the corrected decoder prints gamma_size of them,
   * the number the ramp holds.
   */
  lemma GammaRampCounts(L: Layout, memIn: Mem, arg: Addr, memOut: Mem, failed: bool)
    requires ReadOrAddr(L, memIn, arg, "drm_mode_crtc_lut").Some?
    ensures var r := ReadOrAddr(L, memIn, arg, "drm_mode_crtc_lut").value;
            var n := Get(r, Field("gamma_size"));
            forall ramp | ramp in ["red", "green", "blue"] ::
              && Array(Get(r, Field(ramp)), n, "uint16") in ShapeCall(DrmModeGamma(), L, memIn, arg, memOut, failed)
              && Array(Get(r, Field(ramp)), 2 * n, "uint16")
                 in ShapeCall(DrmModeGammaAsWritten(), L, memIn, arg, memOut, failed)
  {
    var r := ReadOrAddr(L, memIn, arg, "drm_mode_crtc_lut").value;
    var n := Get(r, Field("gamma_size"));
    assert n * 1 == n && n * 2 == 2 * n;
    assert DrmModeGamma() == Single("drm_mode_crtc_lut", GammaItems(1), true);
    assert DrmModeGammaAsWritten() == Single("drm_mode_crtc_lut", GammaItems(2), true);
    GammaCall(1, L, memIn, arg, memOut, failed);
    GammaCall(2, L, memIn, arg, memOut, failed);
  }

  /** A gamma decoder's call shows each ramp as an array of gamma_size times scale entries. */
  lemma GammaCall(scale: nat, L: Layout, memIn: Mem, arg: Addr, memOut: Mem, failed: bool)
    requires ReadOrAddr(L, memIn, arg, "drm_mode_crtc_lut").Some?
    ensures var r := ReadOrAddr(L, memIn, arg, "drm_mode_crtc_lut").value;
            forall ramp | ramp in ["red", "green", "blue"] ::
              Array(Get(r, Field(ramp)), Get(r, Field("gamma_size")) * scale, "uint16")
              in ShapeCall(Single("drm_mode_crtc_lut", GammaItems(scale), true), L, memIn, arg, memOut, failed)
  {
    var r := ReadOrAddr(L, memIn, arg, "drm_mode_crtc_lut").value;
    var sh := Single("drm_mode_crtc_lut", GammaItems(scale), true);
    SingleCall(sh, L, memIn, arg, memOut, failed);
    assert ShapeCall(sh, L, memIn, arg, memOut, failed) == Str(", ") + ItemsText(GammaItems(scale), r);
    forall ramp | ramp in ["red", "green", "blue"]
      ensures Array(Get(r, Field(ramp)), Get(r, Field("gamma_size")) * scale, "uint16")
              in Str(", ") + ItemsText(GammaItems(scale), r)
    {
      GammaRamp(scale, ramp, r);
    }
  }

  /**
   * SYNCOBJ_QUERY and SYNCOBJ_TIMELINE_SIGNAL as written print the points
   * array straight after the handles array; the corrected text is the same
   * with ", points=" between the two.
   */
  lemma TimelinePointsLabel(L: Layout, memIn: Mem, arg: Addr, memOut: Mem, failed: bool)
    requires ReadOrAddr(L, memIn, arg, "drm_syncobj_timeline_array").Some?
    ensures var r := ReadOrAddr(L, memIn, arg, "drm_syncobj_timeline_array").value;
            var pre := Str(", ") + ItemsText(TimelineHandles(), r);
            var post := ItemsText(TimelinePoints(), r);
            && ShapeCall(DrmSyncobjQueryOrTimelineSignal(), L, memIn, arg, memOut, failed) == pre + Str(", points=") + post
            && ShapeCall(DrmSyncobjQueryOrTimelineSignalAsWritten(), L, memIn, arg, memOut, failed) == pre + post
  {
    SingleTextInserted("drm_syncobj_timeline_array", TimelineHandles(), ", points=", TimelinePoints(), false,
                       L, memIn, arg, memOut, failed);
  }

  /** The handles array closes the first piece; the points array opens the second. */
  lemma TimelinePiecesText(r: Rec)
    ensures ItemsText(TimelineHandles(), r)
            == Str("{handles=") + [Array(Get(r, Field("handles")), Get(r, Field("count_handles")), "uint32")]
    ensures ItemsText(TimelinePoints(), r)[0] == Array(Get(r, Field("points")), Get(r, Field("count_handles")), "uint64")
  {
    assert ItemsText(TimelineHandles()[1..], r)
           == [Array(Get(r, Field("handles")), Get(r, Field("count_handles")), "uint32")] + [];
    ItemsTextAppend([Arr("points", "count_handles", 1, "uint64")], TimelineArrayTail(), r);
  }

  // Records left unopened or unlabelled.

  /** A wait request ends the call as deep as its opening text leaves it, less one. */
  lemma WaitDepth(ty: string, lead: string, flags: Fmt, L: Layout, memIn: Mem, arg: Addr, memOut: Mem, failed: bool)
    requires ReadOrAddr(L, memIn, arg, ty).Some?
    ensures Depth(ShapeCall(WaitRequest(ty, lead, flags), L, memIn, arg, memOut, failed)) == Depth(Str(lead)) - 1
  {
    var sh := WaitRequest(ty, lead, flags);
    WaitFieldsFlat(flags);
    LeadDepth(lead, WaitFields(flags), ReadOrAddr(L, memIn, arg, ty).value);
    WaitExitFlat(ty, lead, flags);
    SplitDepth(sh, L, memIn, arg, memOut, failed);
  }

  lemma WaitExitFlat(ty: string, lead: string, flags: Fmt)
    ensures WaitRequest(ty, lead, flags).Split? && !WaitRequest(ty, lead, flags).quiet
    ensures WaitRequest(ty, lead, flags).ty == ty
    ensures WaitRequest(ty, lead, flags).entry == [T(lead)] + WaitFields(flags)
    ensures forall i :: 0 <= i < |WaitRequest(ty, lead, flags).exit| ==> Flat(WaitRequest(ty, lead, flags).exit[i])
  {
    assert Plain(", ") && Plain("first_signaled");
  }

  lemma WaitFieldsFlat(flags: Fmt)
    ensures forall i :: 0 <= i < |WaitFields(flags)| ==> Flat(WaitFields(flags)[i])
  {
    var w := WaitFields(flags);
    assert Plain(", ") && Plain("timeout_nsec") && Plain("count_handles") && Plain("flags");
    assert Flat(w[0]) && Flat(w[1]) && Flat(w[2]) && Flat(w[3]);
  }

  /** The same for MODE_CREATE_LEASE. */
  lemma LeaseDepth(lead: string, L: Layout, memIn: Mem, arg: Addr, memOut: Mem, failed: bool)
    requires ReadOrAddr(L, memIn, arg, "drm_mode_create_lease").Some?
    ensures Depth(ShapeCall(LeaseRequest(lead), L, memIn, arg, memOut, failed)) == Depth(Str(lead)) - 1
  {
    var sh := LeaseRequest(lead);
    LeaseFieldsFlat();
    LeadDepth(lead, LeaseFields(), ReadOrAddr(L, memIn, arg, "drm_mode_create_lease").value);
    assert Flat(sh.exit[0]) && Flat(sh.exit[1]) by {
      assert Plain(", ") && Plain("lessee_id") && Plain("fd");
    }
    SplitDepth(sh, L, memIn, arg, memOut, failed);
  }

  lemma LeaseFieldsFlat()
    ensures forall i :: 0 <= i < |LeaseFields()| ==> Flat(LeaseFields()[i])
  {
    var f := LeaseFields();
    assert Plain(", ") && Plain("object_count") && Plain("flags");
    assert Flat(f[0]) && Flat(f[1]) && Flat(f[2]);
  }

  /** SYNCOBJ_RESET and SIGNAL print a complete record: their depth is the opening text's, less one. */
  lemma ResetDepth(lead: string, L: Layout, memIn: Mem, arg: Addr, memOut: Mem, failed: bool)
    requires ReadOrAddr(L, memIn, arg, "drm_syncobj_array").Some?
    ensures Depth(ShapeCall(ResetRequest(lead), L, memIn, arg, memOut, failed)) == Depth(Str(lead)) - 1
  {
    ResetItemsDepth(lead, ReadOrAddr(L, memIn, arg, "drm_syncobj_array").value);
    SingleDepth(ResetRequest(lead), L, memIn, arg, memOut, failed);
  }

  lemma ResetItemsDepth(lead: string, r: Rec)
    ensures Depth(ItemsText([T(lead)] + ResetFields() + [T("}")], r)) == Depth(Str(lead)) - 1
  {
    var f := ResetFields();
    ResetFieldsFlat();
    LeadDepth(lead, f, r);
    ItemsTextAppend([T(lead)] + f, [T("}")], r);
    assert ItemsText([T("}")], r) == Str("}");
    assert Str("}")[..0] == [];
    DepthAppend(ItemsText([T(lead)] + f, r), Str("}"));
  }

  lemma ResetFieldsFlat()
    ensures forall i :: 0 <= i < |ResetFields()| ==> Flat(ResetFields()[i])
  {
    var f := ResetFields();
    assert Plain(", ") && Plain("count_handles") && Plain("pad");
    assert Flat(f[0]) && Flat(f[1]) && Flat(f[2]);
  }

  /**
   * SYNCOBJ_WAIT as written opens its record with ", " instead of "{", so
   * the "}" of the exit closes a brace that was never opened.
   */
  lemma SyncobjWaitBraces(L: Layout, memIn: Mem, arg: Addr, memOut: Mem, failed: bool)
    requires ReadOrAddr(L, memIn, arg, "drm_syncobj_wait").Some?
    ensures Depth(ShapeCall(DrmSyncobjWaitAsWritten(), L, memIn, arg, memOut, failed)) == -1
    ensures Depth(ShapeCall(DrmSyncobjWait(), L, memIn, arg, memOut, failed)) == 0
  {
    LeadTexts("handles=");
    assert "{" + "handles=" == "{handles=" && ", " + "handles=" == ", handles=";
    WaitDepth("drm_syncobj_wait", ", handles=", X, L, memIn, arg, memOut, failed);
    WaitDepth("drm_syncobj_wait", "{handles=", X, L, memIn, arg, memOut, failed);
  }

  /** SYNCOBJ_TIMELINE_WAIT as written: the same missing "{" as SYNCOBJ_WAIT. */
  lemma SyncobjTimelineWaitBraces(L: Layout, memIn: Mem, arg: Addr, memOut: Mem, failed: bool)
    requires ReadOrAddr(L, memIn, arg, "drm_syncobj_timeline_wait").Some?
    ensures Depth(ShapeCall(DrmSyncobjTimelineWaitAsWritten(), L, memIn, arg, memOut, failed)) == -1
    ensures Depth(ShapeCall(DrmSyncobjTimelineWait(), L, memIn, arg, memOut, failed)) == 0
  {
    LeadTexts("handles=");
    assert "{" + "handles=" == "{handles=" && ", " + "handles=" == ", handles=";
    WaitDepth("drm_syncobj_timeline_wait", ", handles=", TIMELINE_WAIT_FLAGS, L, memIn, arg, memOut, failed);
    WaitDepth("drm_syncobj_timeline_wait", "{handles=", TIMELINE_WAIT_FLAGS, L, memIn, arg, memOut, failed);
  }

  /** MODE_CREATE_LEASE as written: ", object_ids=" where "{object_ids=" belongs. */
  lemma CreateLeaseBraces(L: Layout, memIn: Mem, arg: Addr, memOut: Mem, failed: bool)
    requires ReadOrAddr(L, memIn, arg, "drm_mode_create_lease").Some?
    ensures Depth(ShapeCall(DrmModeCreateLeaseAsWritten(), L, memIn, arg, memOut, failed)) == -1
    ensures Depth(ShapeCall(DrmModeCreateLease(), L, memIn, arg, memOut, failed)) == 0
  {
    LeadTexts("object_ids=");
    assert "{" + "object_ids=" == "{object_ids=" && ", " + "object_ids=" == ", object_ids=";
    LeaseDepth(", object_ids=", L, memIn, arg, memOut, failed);
    LeaseDepth("{object_ids=", L, memIn, arg, memOut, failed);
  }

  /**
   * SYNCOBJ_RESET and SYNCOBJ_SIGNAL as written print a "}" that closes
   * nothing: the record starts with ", handles=".
   */
  lemma ResetOrSignalBraces(L: Layout, memIn: Mem, arg: Addr, memOut: Mem, failed: bool)
    requires ReadOrAddr(L, memIn, arg, "drm_syncobj_array").Some?
    ensures Depth(ShapeCall(DrmSyncobjResetOrSignalAsWritten(), L, memIn, arg, memOut, failed)) == -1
    ensures Depth(ShapeCall(DrmSyncobjResetOrSignal(), L, memIn, arg, memOut, failed)) == 0
  {
    LeadTexts("handles=");
    assert "{" + "handles=" == "{handles=" && ", " + "handles=" == ", handles=";
    ResetDepth(", handles=", L, memIn, arg, memOut, failed);
    ResetDepth("{handles=", L, memIn, arg, memOut, failed);
  }
}
