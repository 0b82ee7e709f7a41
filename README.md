# strace DRM ioctl decoders, modelled in Dafny

This project models how strace decodes the arguments of DRM (Direct
Rendering Manager) ioctls. It covers four parts:

- the generic decoders and the `drm_ioctl` switch of `drm.c`;
- the personality-dependent decoders and the `drm_ioctl_mpers` fallback of
  `drm_mpers.c`;
- the amdgpu driver decoders of `drm_amdgpu.c`;
- the i915 driver decoders of `drm_i915.c`.

A decoder is called once when the traced process enters the ioctl and,
if it asks for it by returning 0, once more when the call exits. Each time
it reads the argument structure from the tracee's memory and appends text
to the trace line. The model follows that protocol:

- `Trace.Tcb` is the traced call. It holds the phase, whether the call
  failed, the tracee memory, the private stash a decoder keeps between its
  two invocations, and the output so far.
- The output is a sequence of tokens. Literal text is one `Ch` token per
  character. Numbers, symbolic constants, flag sets, pointers, file
  descriptors and arrays are single tokens.
- Structure layouts are abstract. A `Layout` gives each structure type its
  size and the fields read at an address. `Tcb` carries the tracer's own
  layout (`native`) and the tracee's personality (`pers`); the
  `drm_mpers.c` and `drm_i915.c` decoders are compiled once per
  personality.
- A decoder is described by its shape (`Shapes.Shape`) and the list of
  fields it prints (`Trace.Item`):
  - `Split`: input fields at entering, output fields at exiting;
  - `Arrow`: a record at entering and ` => ` plus a record at exiting;
  - `Single`: one phase only;
  - `ExitOnly`: read only after the call;
  - `Raw`: `", "` and the address.
- One imperative engine, `Shapes.RunShape`, prints any shape through
  `Printer`'s `tprints`/`PRINT_FIELD_*` methods. It is proved to append
  exactly the text given by the specification function `Shapes.ShapeStep`.
- Decoders with their own logic are written out separately:
  `drm_get_stats`'s fifteen-entry loop, amdgpu's `ctx` and `gem_metadata`
  (which stash the operation between phases), and i915's `getparam`
  (which reads a second value through a pointer).
- Request codes follow the Linux `_IOC` layout (`Ioc`), with 8 bits of
  command number, 8 of type, 14 of size and 2 of direction. A decoder
  switch's case label is `Request.Label(dir, nr, type)`. Its code depends
  on the layout because the size field is the structure's size.
- `Dispatch` chooses between `drm_ioctl` and a driver's own switch, and
  runs one call through its entering and exiting invocations.

## Model

| member | source | states |
|---|---|---|
| Ioc.Decode | drm.c:45-54 | the fields it extracts are in range, and the command number is the code's low byte |
| Ioc.Encode | drm_mpers.c:745-793 | a case label's code carries the label's command number in its low byte |
| Ioc.DecodeEncode | drm.c:45-54 | decoding an encoded request gives back its direction, type, number and size |
| Ioc.EncodeDecode | drm_mpers.c:745-793 | every 32-bit code is the encoding of its own decoded fields |
| Ioc.EncodeInjective | drm_mpers.c:745-793 | two labels have the same code exactly when all their fields agree, so distinct case labels never collide |
| Ioc.Io | drm.c:47 | a no-direction code decodes with direction none, so the read-write test rejects it |
| Ioc.Iow | drm.c:1542 | a write-only label decodes to direction write with its number and size |
| Ioc.Ior | drm.c:1534 | a read-only label decodes to direction read with its number and size |
| Ioc.Iowr | drm.c:54 | a read-write code decodes to direction read-write with its number and size |
| Arith.High16 | drm.c:1056 | the high half `v >> 16` of a 32-bit value, the integer part of a plane coordinate and the ring of a busy word, is below 65536 |
| Arith.Fixed16Low | drm.c:1057 | the fraction bits `src_x & 0xffff` are below 65536 |
| Arith.Fixed16Split | drm.c:1056-1057 | integer part times 65536 plus fraction bits gives back the 32-bit value |
| Arith.Fixed16FracIsMillionths | drm.c:1056-1057 | `((x & 0xffff) * 15625) >> 10` is the fraction in millionths rounded down, at most 999984, so `%06u` prints six digits |
| Arith.BusyFlag | drm_i915.c:171-172 | the busy character is `Y` or `N` |
| Arith.BusyDecodes | drm_i915.c:171-172 | for a busy word built from a busy bit, middle bits and a ring id, the flag is `Y` exactly when the bit is set and the ring printed is the ring id |
| Trace.UmoveLocal | drm.c:1049 | reading a structure depends only on the structure's bytes at the address |
| Trace.PrintAddr | drm_amdgpu.c:572-573 | an address prints as `NULL` when zero and as a pointer otherwise |
| Trace.ItemsTextAppend | drm.c:1050-1066 | printing two field lists one after the other gives the concatenation of their texts |
| Printer.Print | drm.c:1038 | `tprints` appends its text to the output and changes nothing else |
| Printer.PrintValue | drm.c:1042 | printing a value appends its token |
| Printer.PrintField | drm.c:1041-1044 | `PRINT_FIELD_*` appends the prefix, `name=` and the value |
| Printer.PrintFixed16 | drm.c:1055-1057 | the fixed-point comment appends ` /* whole.millionths */` |
| Printer.PrintBusy | drm_i915.c:171-172 | appends `, busy=` with the flag and `, ring=` with the ring |
| Printer.PrintItem | drm.c:1041-1044 | the imperative printer appends exactly the specified text of one field, nested groups included |
| Printer.PrintItems | drm.c:1050-1066 | the imperative printer appends exactly the specified text of a field list |
| Printer.UmoveOrPrintaddr | drm.c:1039-1040 | when the read fails, the address is printed; when it succeeds, nothing is printed and the structure is returned |
| Request.MatchesIsEquality | drm_mpers.c:745-793 | a code matches a label's fields exactly when it equals the label's code, and then the command numbers agree |
| Request.TableName | drm_amdgpu.c:514-524 | the lookup stops exactly when the code is in the table, and a miss prints nothing |
| Request.RunTableName | drm_i915.c:388-398 | the imperative hook prints the table name and returns what `TableName` specifies |
| Shapes.ShapeStep | drm.c:1033-1073 | a decoder never changes the stash, asks for the exit call only when entering, and never declines the request |
| Shapes.RunSplitEnter | drm.c:1037-1047 | entering a split decoder appends the specified text and returns the specified code |
| Shapes.RunSplitExit | drm.c:1049-1070 | exiting a split decoder appends the output fields only on success, then `}` |
| Shapes.RunArrowEnter | drm.c:113-130 | entering an arrow decoder appends `, ` and the input record |
| Shapes.RunArrowExit | drm.c:115-127 | exiting an arrow decoder appends nothing on failure, else ` => ` and the record |
| Shapes.RunSingle | drm.c:154-166 | a single-phase decoder appends `, ` and the record, or the address |
| Shapes.RunExitOnlyExit | drm.c:73-80 | an exit-only decoder reads after the call and appends the record or the address |
| Shapes.RunShape | drm.c:1033-1073 | running any decoder appends exactly `ShapeStep`'s text and returns its code |
| Shapes.EntryFailureEndsCall | drm.c:1038-1040 | an unreadable argument prints `, ` and the address and ends the decoding at entering |
| Shapes.SplitCall | drm.c:1033-1073 | a whole split call prints the input fields, the output fields only if the call succeeded and the structure re-reads, then `}` |
| Shapes.ArrowCall | drm.c:109-134 | a whole arrow call prints the input record, and on success ` => ` and the output record |
| Shapes.SingleIgnoresOutcome | drm.c:154-166 | a single-phase decoder finishes at entering, so its text does not depend on the call's outcome or on memory afterwards |
| Shapes.SingleCall | drm.c:154-166 | a single-phase call finishes at entering with its record text |
| Shapes.SingleCallRead | drm.c:158-163 | a readable single-phase call prints `, ` and its fields |
| Shapes.ExitOnlyIgnoresInput | drm.c:64-81 | an exit-only decoder's text depends neither on memory before the call nor on its outcome |
| Shapes.RawCall | drm.c:272-278 | the no-op decoder prints `, ` and the address (`NULL` for zero) |
| Drm.RunDecodeNumber | drm.c:43-61 | the imperative hook prints and returns what `DecodeNumber` specifies |
| Drm.DecodeNumberAnySize | drm.c:43-61 | the hook stops the lookup exactly for read-write codes with number 0xa7, whatever their size, and then prints `DRM_IOWR(nr, size)` with the connector name; otherwise it prints nothing |
| Drm.SwitchIsExact | drm.c:1530-1684 | `drm_ioctl`'s switch selects a case exactly when the code equals that case's label code |
| Drm.Run | drm.c:1530-1689 | running the selected target appends exactly its specified text |
| Drm.IoctlRoutes | drm.c:1530-1689 | a code equal to a case's label reaches that case's decoder, and a code matching no case goes to `drm_ioctl_mpers` |
| Drm.GetStatsShadowed | drm.c:1562-1563 | when both layouts agree on `drm_stats`, GET_STATS reaches `drm_noop` in `drm_ioctl`, so `drm_get_stats` is never reached |
| Drm.WriteOnlyFinishAtEntering | drm.c:138-295 | the write-only decoders (gem_close, modeset_ctl, set_client_cap, auth_magic, control) finish at entering, and noop prints only the address |
| Drm.ModeGetCrtcTail | drm.c:563-606 | GETCRTC prints `crtc_id` at entering and the rest of the CRTC only when the call succeeded |
| Drm.ModeSetCrtcTail | drm.c:563-606 | SETCRTC prints the whole CRTC at entering |
| Drm.NonZeroPrintedIffSet | drm.c:1308-1309 | the `pad` field is printed exactly when it is non-zero |
| Drm.SetPlaneFraction | drm.c:1055-1066 | each source coordinate's comment is its integer part, `.`, and six digits of millionths |
| Drm.GammaRamp | drm.c:646-657 | each ramp's array token carries the element count given to `print_array` |
| Drm.GammaRampCounts | drm.c:643-657 | the corrected decoder prints `gamma_size` elements per ramp; as written it asks for `2 * gamma_size` |
| Drm.GammaCall | drm.c:638-660 | each ramp's array appears in the gamma call's text |
| Drm.TimelinePointsLabel | drm.c:1488-1494 | the corrected text puts `, points=` between the handles array and the points array; as written the two arrays are adjacent |
| Drm.TimelinePiecesText | drm.c:1488-1494 | the handles text is `{handles=` and the handles array, and the points array comes next |
| Drm.WaitDepth | drm.c:1262-1289 | a wait request's text has one brace less than its opening text |
| Drm.WaitExitFlat | drm.c:1282-1286 | the wait decoder's exit fields contain no brace |
| Drm.WaitFieldsFlat | drm.c:1271-1277 | the wait decoder's entry fields contain no brace |
| Drm.LeaseDepth | drm.c:1318-1346 | a lease request's text has one brace less than its opening text |
| Drm.LeaseFieldsFlat | drm.c:1328-1340 | the lease fields contain no brace |
| Drm.ResetDepth | drm.c:1294-1313 | a reset/signal request's text has one brace less than its opening text |
| Drm.ResetItemsDepth | drm.c:1303-1310 | the reset/signal field list has one brace less than its opening text |
| Drm.ResetFieldsFlat | drm.c:1303-1309 | the reset/signal fields contain no brace |
| Drm.SyncobjWaitBraces | drm.c:1268-1286 | as written a SYNCOBJ_WAIT line closes one brace it never opened; the corrected decoder is balanced |
| Drm.SyncobjTimelineWaitBraces | drm.c:1451-1470 | the same for SYNCOBJ_TIMELINE_WAIT |
| Drm.CreateLeaseBraces | drm.c:1324-1343 | the same for MODE_CREATE_LEASE |
| Drm.ResetOrSignalBraces | drm.c:1299-1310 | the same for SYNCOBJ_RESET and SYNCOBJ_SIGNAL |
| DrmMpers.CmdOfNrInverse | drm_mpers.c:745-793 | each case label's command number maps back to that case and only to it |
| DrmMpers.SwitchIsExact | drm_mpers.c:745-793 | the switch selects a case exactly when the code equals that case's label code |
| DrmMpers.StatEntriesCount | drm_mpers.c:212-217 | the loop's first n entries print n `drm_stat_type` symbols |
| DrmMpers.StatsRecordEntries | drm_mpers.c:209-218 | a stats record prints exactly fifteen typed entries; the first starts `{value=` and the others `, {value=` |
| DrmMpers.PrintStatEntry | drm_mpers.c:213-216 | one loop iteration appends exactly its entry |
| DrmMpers.PrintStatEntries | drm_mpers.c:212-217 | the loop appends all fifteen entries in order |
| DrmMpers.PrintStatsRecord | drm_mpers.c:209-218 | the record is `{count=`, the entries and `]}` |
| DrmMpers.RunGetStats | drm_mpers.c:201-224 | GET_STATS appends exactly its specified text at each phase |
| DrmMpers.HandlerOf | drm_mpers.c:745-793 | every case of the switch has a decoder and never declines |
| DrmMpers.Run | drm_mpers.c:742-813 | running the selected handler appends exactly its specified text |
| DrmMpers.NrOnlyIgnoresSize | drm_mpers.c:795-810 | GETCONNECTOR, GETPLANERESOURCES, OBJ_GETPROPERTIES and OBJ_SETPROPERTY are recognised by command number alone, whatever the size and direction |
| DrmMpers.DeclinesExactlyUnmatched | drm_mpers.c:794-812 | `RVAL_DECODED` with no text is returned exactly for codes that match no case and none of the four numbers |
| DrmMpers.OnlyDeclinedDeclines | drm_mpers.c:812 | only the declined handler returns `RVAL_DECODED`, and it prints nothing |
| DrmMpers.DeclinedExactly | drm_mpers.c:745-812 | the request is declined exactly when no label matches and the number is none of the four |
| DrmMpers.MatchedNotDeclined | drm_mpers.c:745-793 | a code the switch matches reaches its case's decoder |
| DrmMpers.UnmatchedByNumber | drm_mpers.c:794-812 | after the switch, only the four number checks decide between a decoder and declining |
| DrmMpers.AddMapFlagsLabel | drm_mpers.c:235-239 | the corrected ADD_MAP text is `, flags=` followed by the flags; as written `, flags` runs straight into the flags |
| DrmMpers.AddMapPieces | drm_mpers.c:233-239 | the head text ends in `, flags` and the tail is the flags symbol and `}` |
| DrmMpers.GetStatsEntering | drm_mpers.c:205-223 | GET_STATS prints nothing at entering and asks for the exit call |
| DrmMpers.AgpInfoEntering | drm_mpers.c:451-469 | AGP_INFO prints nothing at entering and asks for the exit call |
| DrmAmdgpu.CmdOfNrInverse | drm_amdgpu.c:529-570 | each label's number maps back to its case and lies in the driver range |
| DrmAmdgpu.SwitchIsExact | drm_amdgpu.c:529-570 | the switch selects a case exactly when the code equals its label code |
| DrmAmdgpu.RunDecodeNumber | drm_amdgpu.c:514-524 | the hook prints the table's name and stops the lookup exactly for codes in the table |
| DrmAmdgpu.CtxStep | drm_amdgpu.c:78-141 | ctx asks for the exit call only at entering and leaves the stash alone at exiting |
| DrmAmdgpu.RunCtxEnter | drm_amdgpu.c:83-101 | entering ctx appends the input union and stashes `in.op` |
| DrmAmdgpu.RunCtxOut | drm_amdgpu.c:105-135 | the output arm chosen by the stashed operation is appended |
| DrmAmdgpu.RunCtxExit | drm_amdgpu.c:103-138 | exiting ctx appends the output arm on success, then `}` |
| DrmAmdgpu.RunCtx | drm_amdgpu.c:78-141 | the imperative ctx decoder appends and stashes what `CtxStep` specifies |
| DrmAmdgpu.MetadataStep | drm_amdgpu.c:225-267 | gem_metadata asks for the exit call only at entering and leaves the stash alone at exiting |
| DrmAmdgpu.RunMetadataEnter | drm_amdgpu.c:230-252 | entering gem_metadata appends the head, and the data too for the set operation |
| DrmAmdgpu.RunMetadata | drm_amdgpu.c:225-267 | the imperative decoder appends and stashes what `MetadataStep` specifies |
| DrmAmdgpu.Step | drm_amdgpu.c:527-576 | an amdgpu decoder asks for the exit call only at entering |
| DrmAmdgpu.Run | drm_amdgpu.c:527-576 | running the selected handler appends and stashes what `Step` specifies |
| DrmAmdgpu.IoctlFallback | drm_amdgpu.c:571-574 | a code matching no label prints `, ` and the address and finishes; a matching one reaches its decoder |
| DrmAmdgpu.UnmatchedIsRaw | drm_amdgpu.c:571-574 | a code matching no label takes the default branch |
| DrmAmdgpu.IoctlOfLabel | drm_amdgpu.c:529-570 | each label's code reaches its own decoder |
| DrmAmdgpu.CtxExitIgnoresReread | drm_amdgpu.c:103-104 | the exit text uses the stashed operation, not `in.op` re-read from memory the call overwrote |
| DrmAmdgpu.CtxCall | drm_amdgpu.c:78-141 | a whole ctx call prints the input union, then the output arm of the operation read at entering, or `}` on failure |
| DrmAmdgpu.CtxCallPhases | drm_amdgpu.c:83-138 | the ctx call is the entering text followed by the exit text for the stashed operation |
| DrmAmdgpu.CtxOutArms | drm_amdgpu.c:105-135 | ALLOC prints `{out={alloc={ctx_id=…}}}`; FREE and unknown operations print `{out={}}` |
| DrmAmdgpu.CtxOutAlloc | drm_amdgpu.c:107-110 | the ALLOC arm's text |
| DrmAmdgpu.MetadataEnterStash | drm_amdgpu.c:234-249 | SET_METADATA prints the data at entering and keeps the stash; other operations stash `op` and print only the head |
| DrmAmdgpu.MetadataExitIgnoresStash | drm_amdgpu.c:254-264 | the exit text does not depend on the stash, and a failed call prints only `}` |
| DrmAmdgpu.SinglePhaseDecoders | drm_amdgpu.c:206-220 | info, gem_va, gem_op, vm and sched finish at entering and print their record once |
| DrmAmdgpu.SplitDecodersFailedExit | drm_amdgpu.c:146-172 | on a failed call (or an unreadable union) the split decoders print the input and `}` only |
| DrmI915.CmdOfNrInverse | drm_i915.c:402-434 | each label's number maps back to its case and lies in the driver range |
| DrmI915.SwitchIsExact | drm_i915.c:402-434 | the switch selects a case exactly when the code equals its label code |
| DrmI915.RunDecodeNumber | drm_i915.c:388-398 | the hook prints the table's name and stops the lookup exactly for codes in the table |
| DrmI915.GetParamStep | drm_i915.c:87-119 | getparam keeps the stash and asks for the exit call only at entering; its exit is the one as written |
| DrmI915.RunGetParamEnter | drm_i915.c:92-100 | entering getparam appends `{param=` and the parameter |
| DrmI915.RunGetParamExit | drm_i915.c:102-118 | exiting getparam appends the exit text as written, which is empty when the record reads and the value does not |
| DrmI915.RunGetParam | drm_i915.c:87-119 | the imperative decoder appends what `GetParamStep` specifies |
| DrmI915.Step | drm_i915.c:400-440 | an i915 decoder keeps the stash and asks for the exit call only at entering |
| DrmI915.Run | drm_i915.c:400-440 | running the selected handler appends exactly its specified text |
| DrmI915.IoctlFallback | drm_i915.c:435-438 | a code matching no label prints `, ` and the address and finishes; a matching one reaches its decoder |
| DrmI915.UnmatchedIsRaw | drm_i915.c:435-438 | a code matching no label takes the default branch |
| DrmI915.IoctlOfLabel | drm_i915.c:402-434 | each label's code reaches its own decoder |
| DrmI915.BusyCall | drm_i915.c:157-178 | a successful busy call prints the handle, the busy flag and the ring decoded from the busy word |
| DrmI915.GetParamValue | drm_i915.c:102-116 | when the value reads, it is printed as `0x%04x` for CHIPSET_ID and as a signed int otherwise, then `}` |
| DrmI915.GetParamNoValue | drm_i915.c:102-116 | when the value does not read, the corrected exit prints `}`; as written it prints nothing after a successful call |
| DrmI915.GetParamBraces | drm_i915.c:92-116 | the getparam call is the entering text followed by the exit as written; it leaves `{param=` open exactly when the record reads at exit and the value does not, and is balanced otherwise; with the corrected exit it is always balanced |
| DrmI915.SetTilingQuietEntry | drm_i915.c:346-349 | set_tiling reads with plain `umove`, so an unreadable argument prints only `, ` |
| DrmI915.SetDomainEntryOnly | drm_i915.c:279-294 | set_domain prints its record at entering and nothing at exiting |
| DrmI915.SinglePhaseDecoders | drm_i915.c:28-232 | init, batchbuffer as written, setparam, execbuffer2, pread and pwrite finish at entering and print their record once |
| DrmI915.BatchbufferBraces | drm_i915.c:72-84 | as written BATCHBUFFER leaves one brace open and prints a value fetched from the tracer's memory; the corrected decoder is balanced |
| Dispatch.Run | drm.c:1530-1532 | running a route through `drm_ioctl`, `drm_amdgpu_ioctl` or `drm_i915_ioctl` appends its decoder's text and keeps the stash only amdgpu decoders set |
| Dispatch.DecodeCall | drm.c:1037-1072 | a call's text is the entering text, followed by the exiting text only when entering returned 0 |
| Dispatch.GenericOutsideDriverRange | drm.c:1530-1532 | outside the driver range, or with no resolved driver, every code goes to `drm_ioctl`, and only then |
| Dispatch.AmdgpuLabelsRouted | drm_amdgpu.c:529-570 | on an amdgpu descriptor each amdgpu label reaches its own decoder |
| Dispatch.I915LabelsRouted | drm_i915.c:402-434 | on an i915 descriptor each i915 label, sized for the tracee, reaches its own decoder |
| Dispatch.AmdgpuUnknownIsRaw | drm_amdgpu.c:571-574 | an unknown driver-range code on an amdgpu descriptor prints exactly `, ` and the address |
| Dispatch.I915UnknownIsRaw | drm_i915.c:435-438 | the same on an i915 descriptor |
| Dispatch.AmdgpuCtxThroughDispatch | drm_amdgpu.c:87-104 | the stash set by ctx at entering reaches its exit call through the dispatcher |
| Dispatch.FinishedAtEntering | drm.c:154-166 | a decoder that finishes at entering prints the same text whatever the call did |

The decoder switches run each decoder as it is written, including the
ones listed under "## Findings". The corrected decoders beside them are
reference definitions for those findings and are not dispatched.

## Left out

- I/O is not modelled. Reading the tracee's memory is the pure function
  `Trace.Umove` over a map from addresses to records. Printing appends
  tokens, so exact `printf` formats (`%#x`, `%lu`, …) are abstract tokens,
  not digits.
- The choice of driver for a descriptor is an input, `Dispatch.Driver`.
  strace resolves it by following the descriptor's device link, which is
  outside this model. The routing of `decode_number` hooks to a driver is
  left out for the same reason.
- Arrays are modelled as one `Array` token with a pointer, a count and an
  element type. `print_array`'s element fetching, its truncation and its
  limit on elements are not part of this model.
- Symbolic constants and flag sets are `Sym` and `FlagSet` tokens. The
  xlat tables and their lookup are not part of this model.
- Every `#ifdef` of the decoders is taken as defined.
- Structure widths are abstract. Only the 32-bit wrap-around of the
  setplane fixed-point fields and of the i915 busy word is written out.
- BATCHBUFFER's `drm_i915_print_clip_rect(batchbuffer.cliprects)` reads a
  tracee address in the tracer's own memory. It is modelled as an opaque
  `Foreign` token; what that read yields is not modelled.
- amdgpu's `{out={` … `}` arms and the VM decoder's unclosed `{in={op=`
  are modelled as written, without a corrected version.
- The tests under `tests/` are not modelled.
- Unknown driver-range codes: `drm_amdgpu_ioctl` and `drm_i915_ioctl`
  print `, ` and the address and return `RVAL_IOCTL_DECODED`
  (`Dispatch.AmdgpuUnknownIsRaw`, `Dispatch.I915UnknownIsRaw`).
- Dispatch.RouteOf: the caller that picks between `drm_ioctl` and a
  driver's switch is not part of this model. The rule it follows, sending
  command numbers in [0x40, 0xa0) to the driver, takes the bounds from the
  kernel's `DRM_COMMAND_BASE` and `DRM_COMMAND_END`; these files do not
  show it. The layouts do follow these files: `drm_amdgpu_ioctl`
  (drm_amdgpu.c:526-528) is compiled once and reads with the tracer's
  layout, while `drm_i915_ioctl` (drm_i915.c:400) is an mpers printer and
  reads with the tracee's personality.
- Unknown generic codes: `drm_ioctl_mpers` returns `RVAL_DECODED` and
  prints nothing; strace's generic code then prints the argument. The
  model stops at `RVAL_DECODED` with empty text (`DrmMpers.DeclinedExactly`).
- Drm.GammaRampCounts: states only that each ramp's array token, with its
  element count, occurs in the text, not the whole text of the call.
- Drm.TimelinePiecesText: states only the handles text and the first token
  of the points text, not the rest of the record.
- DrmMpers.AddMapPieces: states only the end of the head text and the
  flags text, not the whole head.
- DrmAmdgpu.SinglePhaseDecoders: covers the five single-phase amdgpu
  decoders (info, gem_va, gem_op, vm, sched) as a group and states their
  text only through the generic single-phase shape.
- DrmI915.SinglePhaseDecoders: covers init, batchbuffer, setparam,
  execbuffer2, pread and pwrite as a group, in the same way.

## Findings

| source | as written | input that shows it | evidently intended | confidence | as-written member | corrected member |
|---|---|---|---|---|---|---|
| drm.c:1268-1271 | SYNCOBJ_WAIT prints `, ` then `, handles=` with no `{`, but closes with `}` | any readable `drm_syncobj_wait` | `{handles=` opens the record | not executed | Drm.DrmSyncobjWaitAsWritten, Drm.SyncobjWaitBraces | Drm.DrmSyncobjWait |
| drm.c:1299-1303 | SYNCOBJ_RESET/SIGNAL prints `, handles=` with no `{`, then `}` | any readable `drm_syncobj_array` | `{handles=` | not executed | Drm.DrmSyncobjResetOrSignalAsWritten, Drm.ResetOrSignalBraces | Drm.DrmSyncobjResetOrSignal |
| drm.c:1324-1328 | MODE_CREATE_LEASE prints `, object_ids=` with no `{`, then `}` | any readable `drm_mode_create_lease` | `{object_ids=` | not executed | Drm.DrmModeCreateLeaseAsWritten, Drm.CreateLeaseBraces | Drm.DrmModeCreateLease |
| drm.c:1451-1454 | SYNCOBJ_TIMELINE_WAIT prints `, handles=` with no `{`, then `}` | any readable `drm_syncobj_timeline_wait` | `{handles=` | not executed | Drm.DrmSyncobjTimelineWaitAsWritten, Drm.SyncobjTimelineWaitBraces | Drm.DrmSyncobjTimelineWait |
| drm.c:1488-1494 | the points array follows the handles array with no label | any readable `drm_syncobj_timeline_array` | `, points=` between the arrays | not executed | Drm.DrmSyncobjQueryOrTimelineSignalAsWritten, Drm.TimelinePointsLabel | Drm.DrmSyncobjQueryOrTimelineSignal |
| drm.c:643-657 | `gamma_size * sizeof(uint16_t)` (a byte count) is passed as the element count of each ramp | `gamma_size = 256`: 512 elements requested per ramp | `gamma_size` elements | not executed | Drm.DrmModeGammaAsWritten, Drm.GammaRampCounts | Drm.DrmModeGamma |
| drm_mpers.c:237 | `, flags` is printed without `=` | any readable `drm_map` | `, flags=` | not executed | DrmMpers.DrmAddMapAsWritten, DrmMpers.AddMapFlagsLabel | DrmMpers.DrmAddMap |
| drm_i915.c:102-104 | a successful GETPARAM whose value pointer does not read returns before the closing `}` | `value` pointing at unmapped memory | print `}` in every case | not executed | DrmI915.GetParamExitAsWritten, DrmI915.GetParamBraces | DrmI915.GetParamExit |
| drm_i915.c:74-81 | BATCHBUFFER never closes the `{` opened by `{start=`, and the clip rectangle is read through a tracee pointer in the tracer's memory | any readable `drm_i915_batchbuffer` | close the record and print `cliprects` as a pointer | not executed | DrmI915.BatchbufferAsWritten, DrmI915.BatchbufferBraces | DrmI915.BatchbufferDecoder |
