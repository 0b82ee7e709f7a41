/**
 * One DRM ioctl from entering to exiting: the choice between drm_ioctl and
 * a driver's own switch, and the two decoder invocations of a call.
 *
 * Which driver owns the file descriptor is resolved outside the DRM
 * decoders; here it is an input. A code whose command number lies in the
 * driver range goes to that driver's switch; every other code, and every
 * code on a descriptor with no resolved driver, goes to drm_ioctl.
 */
module Dispatch {
  import Ioc
  import opened Trace
  import opened Shapes
  import opened Request
  import Printer
  import Drm
  import DrmAmdgpu
  import DrmI915

  /** DRM_COMMAND_END: the driver range is [DRM_COMMAND_BASE, DRM_COMMAND_END). */
  const DRM_COMMAND_END := 0xa0

  /** The driver bound to the traced descriptor, as resolved by the caller. */
  datatype Driver = Unresolved | AmdgpuDriver | I915Driver

  /** The decoder a code reaches. */
  datatype Route = Generic(t: Drm.Target) | Amdgpu(a: DrmAmdgpu.Handler) | I915(i: DrmI915.Handler)

  predicate InDriverRange(code: Ioc.Code)
  {
    DRM_COMMAND_BASE <= Ioc.Nr(code) < DRM_COMMAND_END
  }

  /**
   * amdgpu decodes with the tracer's own layout, i915 with the tracee's
   * personality; drm_ioctl takes both.
   */
  function RouteOf(d: Driver, native: Layout, pers: Layout, code: Ioc.Code): Route
  {
    if InDriverRange(code) && d == AmdgpuDriver then Amdgpu(DrmAmdgpu.Ioctl(native, code))
    else if InDriverRange(code) && d == I915Driver then I915(DrmI915.Ioctl(pers, code))
    else Generic(Drm.Ioctl(native, pers, code))
  }

  function Step(rt: Route, native: Layout, pers: Layout, env: Env, arg: Addr): Outcome
  {
    match rt
    case Generic(t) => Drm.Step(t, native, pers, env, arg)
    case Amdgpu(h) => DrmAmdgpu.Step(h, native, env, arg)
    case I915(h) => DrmI915.Step(h, pers, env, arg)
  }

  method Run(tcp: Tcb, rt: Route, arg: Addr) returns (rc: Rc)
    modifies tcp`out, tcp`priv
    ensures tcp.out == old(tcp.out) + Step(rt, tcp.native, tcp.pers, old(tcp.State()), arg).text
    ensures rc == Step(rt, tcp.native, tcp.pers, old(tcp.State()), arg).rc
    ensures tcp.priv == Stash(rt, tcp.native, tcp.pers, old(tcp.State()), arg)
  {
    match rt
    case Generic(t) => rc := Drm.Run(tcp, t, arg);
    case Amdgpu(h) => rc := DrmAmdgpu.Run(tcp, h, tcp.native, arg);
    case I915(h) => rc := DrmI915.Run(tcp, h, tcp.pers, arg);
  }

  /** The stash a decoder leaves for its exit call. */
  function Stash(rt: Route, native: Layout, pers: Layout, env: Env, arg: Addr): int
  {
    if rt.Amdgpu? then Step(rt, native, pers, env, arg).priv else env.priv
  }

  /**
   * A whole call: the entering invocation with an empty stash, then, only
   * when it returned 0, the exiting invocation with the call's outcome,
   * the memory after the call and the stash left behind.
   */
  function CallText(rt: Route, native: Layout, pers: Layout, memIn: Mem, arg: Addr, memOut: Mem, failed: bool)
    : seq<Tok>
  {
    var env := Env(Entering, false, memIn, 0);
    var o1 := Step(rt, native, pers, env, arg);
    if o1.rc == NeedExit
    then o1.text + Step(rt, native, pers, Env(Exiting, failed, memOut, Stash(rt, native, pers, env, arg)), arg).text
    else o1.text
  }

  /** Drive one call through its decoder, as the tracer does at each stop. */
  method DecodeCall(tcp: Tcb, rt: Route, memIn: Mem, arg: Addr, memOut: Mem, failed: bool)
    modifies tcp
    ensures tcp.out == old(tcp.out) + CallText(rt, tcp.native, tcp.pers, memIn, arg, memOut, failed)
  {
    ghost var start := tcp.out;
    ghost var env := Env(Entering, false, memIn, 0);
    ghost var o1 := Step(rt, tcp.native, tcp.pers, env, arg);
    tcp.phase, tcp.syserror, tcp.mem, tcp.priv := Entering, false, memIn, 0;
    var rc := Run(tcp, rt, arg);
    if rc == NeedExit {
      tcp.phase, tcp.syserror, tcp.mem := Exiting, failed, memOut;
      ghost var o2 := Step(rt, tcp.native, tcp.pers, tcp.State(), arg);
      var _ := Run(tcp, rt, arg);
      Printer.Concat3(start, o1.text, o2.text);
    }
  }

  // Properties.

  /**
   * Outside the driver range, and on a descriptor with no resolved
   * driver, every code goes to drm_ioctl.
   */
  lemma GenericOutsideDriverRange(d: Driver, native: Layout, pers: Layout, code: Ioc.Code)
    ensures !InDriverRange(code) || d == Unresolved ==>
              RouteOf(d, native, pers, code) == Generic(Drm.Ioctl(native, pers, code))
    ensures RouteOf(d, native, pers, code).Generic? <==> !InDriverRange(code) || d == Unresolved
  {
  }

  /** On an amdgpu descriptor each amdgpu label reaches its own decoder. */
  lemma AmdgpuLabelsRouted(native: Layout, pers: Layout, c: DrmAmdgpu.Cmd)
    ensures RouteOf(AmdgpuDriver, native, pers, CodeOf(native, DrmAmdgpu.LabelOf(c)))
            == Amdgpu(DrmAmdgpu.HandlerOf(c))
  {
    var code := CodeOf(native, DrmAmdgpu.LabelOf(c));
    MatchesIsEquality(native, code, DrmAmdgpu.LabelOf(c));
    DrmAmdgpu.CmdOfNrInverse(c, 0);
    DrmAmdgpu.IoctlOfLabel(native, c);
  }

  /** On an i915 descriptor each i915 label, at the tracee's size, reaches its own decoder. */
  lemma I915LabelsRouted(native: Layout, pers: Layout, c: DrmI915.Cmd)
    ensures RouteOf(I915Driver, native, pers, CodeOf(pers, DrmI915.LabelOf(c)))
            == I915(DrmI915.HandlerOf(c))
  {
    var code := CodeOf(pers, DrmI915.LabelOf(c));
    MatchesIsEquality(pers, code, DrmI915.LabelOf(c));
    DrmI915.CmdOfNrInverse(c, 0);
    DrmI915.IoctlOfLabel(pers, c);
  }

  /**
   * A driver-range code on an amdgpu descriptor that is none of amdgpu's
   * labels is not handed back to drm_ioctl: drm_amdgpu_ioctl prints ", "
   * and the address.
   */
  lemma AmdgpuUnknownIsRaw(native: Layout, pers: Layout, code: Ioc.Code,
                           memIn: Mem, arg: Addr, memOut: Mem, failed: bool)
    requires InDriverRange(code)
    requires forall c :: code != CodeOf(native, DrmAmdgpu.LabelOf(c))
    ensures CallText(RouteOf(AmdgpuDriver, native, pers, code), native, pers, memIn, arg, memOut, failed)
            == Str(", ") + PrintAddr(arg)
  {
    DrmAmdgpu.UnmatchedIsRaw(native, code);
    DriverRouted(native, pers, code);
    RawCallText(Amdgpu(DrmAmdgpu.Shaped(Raw)), native, pers, memIn, arg, memOut, failed);
  }

  /** The same on an i915 descriptor, with i915's labels at the tracee's sizes. */
  lemma I915UnknownIsRaw(native: Layout, pers: Layout, code: Ioc.Code,
                         memIn: Mem, arg: Addr, memOut: Mem, failed: bool)
    requires InDriverRange(code)
    requires forall c :: code != CodeOf(pers, DrmI915.LabelOf(c))
    ensures CallText(RouteOf(I915Driver, native, pers, code), native, pers, memIn, arg, memOut, failed)
            == Str(", ") + PrintAddr(arg)
  {
    DrmI915.UnmatchedIsRaw(pers, code);
    DriverRouted(native, pers, code);
    RawCallText(I915(DrmI915.Shaped(Raw)), native, pers, memIn, arg, memOut, failed);
  }

  /** In the driver range, a resolved driver's own switch takes the code. */
  lemma DriverRouted(native: Layout, pers: Layout, code: Ioc.Code)
    requires InDriverRange(code)
    ensures RouteOf(AmdgpuDriver, native, pers, code) == Amdgpu(DrmAmdgpu.Ioctl(native, code))
    ensures RouteOf(I915Driver, native, pers, code) == I915(DrmI915.Ioctl(pers, code))
  {
  }

  /** Either driver's raw fallback prints ", " and the address and finishes. */
  lemma RawCallText(rt: Route, native: Layout, pers: Layout, memIn: Mem, arg: Addr, memOut: Mem, failed: bool)
    requires rt == Amdgpu(DrmAmdgpu.Shaped(Raw)) || rt == I915(DrmI915.Shaped(Raw))
    ensures CallText(rt, native, pers, memIn, arg, memOut, failed) == Str(", ") + PrintAddr(arg)
  {
  }

  /**
   * Through the dispatcher, amdgpu's ctx decoder runs its exit call with
   * the operation its entering call stashed.
   */
  lemma AmdgpuCtxThroughDispatch(native: Layout, pers: Layout, memIn: Mem, arg: Addr, memOut: Mem, failed: bool)
    ensures CallText(Amdgpu(DrmAmdgpu.CtxOp), native, pers, memIn, arg, memOut, failed)
            == DrmAmdgpu.Call(DrmAmdgpu.CtxOp, native, memIn, arg, memOut, failed)
  {
  }

  /** A decoder that finishes at entering leaves no exit text, whatever the call did. */
  lemma FinishedAtEntering(rt: Route, native: Layout, pers: Layout, memIn: Mem, arg: Addr,
                           m1: Mem, f1: bool, m2: Mem, f2: bool)
    requires Step(rt, native, pers, Env(Entering, false, memIn, 0), arg).rc != NeedExit
    ensures CallText(rt, native, pers, memIn, arg, m1, f1) == CallText(rt, native, pers, memIn, arg, m2, f2)
    ensures CallText(rt, native, pers, memIn, arg, m1, f1) == Step(rt, native, pers, Env(Entering, false, memIn, 0), arg).text
  {
  }
}
