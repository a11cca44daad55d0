# VSP2 driver core, modelled in Dafny

This project models the core of the Renesas VSP2 video processing driver, a
V4L2/media-controller driver that hands its processing jobs to the VSPM
library. The model covers these parts of the driver:

- **Entities** (`entity.dfy`, module `Entity`). This is the static routing
  table, the sink/source pad layout that `vsp2_entity_init` builds, the
  per-pad active formats, and the streaming flag with its rollback when the
  controls fail to apply. It also covers the exclusive downstream link that
  `vsp2_entity_link_setup` records on a source pad.
- **The VSPM parameter block** (`vspm.dfy`, module `Vspm`). This is the reset
  of `vsp2_vspm_param_init` and the nibble-packed `lay_order` word built
  before every job. It also covers the library initialisation and shutdown
  and the job priority.
- **The blend/ROP unit, BRU** (`bru.dfy`, module `Bru`). This covers:
  - the stream-on programming of the compositor block: inctrl,
    adiv/qnt/dith, the virtual background and the four blend slots;
  - the background colour control;
  - format negotiation: try/set/enumerate;
  - the compose selection rectangles;
  - creation.
- **The read pipes, RPF** (`rpf.dfy`, module `Rpf`). This covers:
  - the crop offsets, computed in unsigned 32-bit arithmetic;
  - the INFMT word and the VSPM format word derived from it;
  - the source block written at stream-on;
  - the alpha control;
  - the buffer-queue patch of the plane addresses;
  - creation.
- **The device** (`drv.dfy`, module `Drv`). This covers:
  - the ordered entity list and its links, as `vsp2_create_entities` and
    `vsp2_create_links` build them;
  - teardown;
  - the end-of-frame fan-out to the write pipes;
  - the job submission work and completion callback;
  - the reference-counted library session of `vsp2_device_get` and
    `vsp2_device_put`.

`consts.dfy` holds the named constants. `pipeline.dfy` holds a call log that
records, in order, the calls the core makes into code outside this model:
the pipeline layer, link creation and the VSPM library.

How the model treats what it cannot see:

- **Register fields and library enumerators.** The `VI6_*`, `VSP_*` and
  `V4L2_*` values are defined in headers outside the core. They are declared
  without a value, so every proof holds for any value those headers give.
  Where a property needs a fact about the register layout, the lemma states
  that fact as a precondition. Examples: `BruCtrlLayout`, `InFmtLayout` and
  `LayIdsFitNibble`.
- **Results of foreign calls.** Each foreign result is a parameter: a single
  value, or a function from call number to result when a loop makes several
  calls. The foreign calls are `media_entity_init`,
  `v4l2_ctrl_handler_setup`, the control handler's error,
  `media_entity_create_link`, `v4l2_device_register_subdev`, the
  `VSPM_lib_*` calls, and the create functions of the scalers and write
  pipes.

## Model

| member | source | states |
|---|---|---|
| Consts.Clamp | drv/vsp2_bru.c:348-349 | the result lies in [lo, hi]; it equals x inside the range, lo below it and hi above it |
| Entity.RouteTableKeys | drv/vsp2_entity.c:207-217 | the table has an entry for (type, index) exactly for BRU0, RPF0-3, UDS0 and WPF0; no two entries share a key |
| Entity.FindRoute | drv/vsp2_entity.c:224-233 | the scan finds nothing exactly when the entity has no route; otherwise it returns the first matching entry |
| Entity.PadLayout | drv/vsp2_entity.c:252-256 | an entity with n pads has n-1 sink pads followed by one source pad |
| Entity.SubdevFh.constructor | drv/vsp2_entity.c:155-161 | a new file handle holds zeroed TRY formats and crop rectangles for every pad |
| Entity.LinkSetupStep | drv/vsp2_entity.c:171-196 | only a source pad of a routed entity changes its sink; enabling when a sink is already recorded returns -EBUSY and changes nothing; disabling clears the sink; an enable with no sink records the remote pad |
| Entity.LinkSetupRun | drv/vsp2_entity.c:171-196 | a sequence of link_setup calls gives one result per request |
| Entity.LinkedSinkIsSticky | drv/vsp2_entity.c:185-189 | once a source pad drives a sink, no sequence of enable requests changes it; each request on the source pad fails with -EBUSY and the others return 0 |
| Entity.VspEntity.constructor | drv/vsp2_rpf.c:353-361 | the zero-filled allocation has its type and index set, no route, no pads, no sink, and is not streaming |
| Entity.VspEntity.Init | drv/vsp2_entity.c:219-261 | without a route the result is -EINVAL and nothing changes; otherwise the first matching route is bound, the pad layout and zeroed formats are set, the result is media_entity_init's, and the link and streaming state are kept |
| Entity.VspEntity.SetStreaming | drv/vsp2_entity.c:85-108 | disabling always succeeds; enabling without a control handler succeeds; enabling with one returns the setup result and rolls the flag back to false when that result is negative |
| Entity.VspEntity.PadFormat | drv/vsp2_entity.c:114-127 | ACTIVE selects the entity's format of the pad, TRY selects the handle's, and any other `which` gives NULL |
| Entity.VspEntity.LinkSetup | drv/vsp2_entity.c:171-196 | the result and new link state are exactly those of LinkSetupStep on this entity's pad |
| Pipeline.CallLog.Record | drv/vsp2_rpf.c:258-259 | a call into code outside the model is appended to the log |
| Vspm.LayShiftedNibble | drv/vsp2_vspm.c:341-351 | VSP_LAY_k shifted by 4k occupies nibble k only |
| Vspm.LayOrderUpToNibbles | drv/vsp2_vspm.c:339-351 | after the first k conditional updates, nibbles 1..k hold the layer ids of the RPFs in use and the higher nibbles are zero |
| Vspm.LayOrderNibbles | drv/vsp2_vspm.c:337-351 | lay_order has VSP_LAY_VIRTUAL in nibble 0, VSP_LAY_k in nibble k exactly when rpf_num >= k, and nothing above bit 19 |
| Vspm.LayOrderUpToSaturates | drv/vsp2_vspm.c:341-351 | RPF counts that agree once saturated at 4 build the same word |
| Vspm.LayOrderDeterminesRpfCount | drv/vsp2_vspm.c:337-351 | two lay_order words are equal exactly when their RPF counts, saturated at 4, are equal, so the word encodes the count |
| Vspm.VspPar.constructor | drv/vsp2_vspm.c:221-272 | a new parameter block is zero-filled, with four source blocks |
| Vspm.VspPar.ParamInit | drv/vsp2_vspm.c:65-162 | the block is left in its reset state |
| Vspm.VspPar.AddLayer | drv/vsp2_vspm.c:341-351 | one conditional step turns the word after k-1 steps into the word after k steps and changes nothing else |
| Vspm.VspPar.RebuildLayOrder | drv/vsp2_vspm.c:337-351 | lay_order becomes LayOrder(rpf_num) and nothing else in the BRU block changes |
| Vspm.VspPar.PrepareLayers | drv/vsp2_vspm.c:337-355 | with the BRU in use only lay_order is rebuilt; without it only RPF0 becomes the parent layer |
| Vspm.JobPriority | drv/vsp2_vspm.c:403-404 | device 1 gets priority 1 and every other device gets priority 0 |
| Vspm.VspmState.constructor | drv/vsp2_vspm.c:388-407 | the parameters are reset and the job priority follows the device id |
| Vspm.VspmState.DrvInit | drv/vsp2_vspm.c:274-289 | the library result is returned and logged; the handle holds whatever the library leaves in it, successful or not; the parameters are reset on success and unchanged on failure |
| Vspm.VspmState.DrvQuit | drv/vsp2_vspm.c:291-303 | the library result is returned and logged |
| Bru.InCtrl | drv/vsp2_bru.c:139-141 | inctrl is NRM, or 0 exactly when the pipeline output is premultiplied |
| Bru.Adiv | drv/vsp2_bru.c:142 | adiv is a single bit |
| Bru.Qnt | drv/vsp2_bru.c:143-146 | four single-bit quantisation flags |
| Bru.Dith | drv/vsp2_bru.c:147-150 | four 4-bit dither fields |
| Bru.InCtrlSlicesRecombine | drv/vsp2_bru.c:142-150 | adiv, qnt and dith put back into place give exactly bits 28, 19:16 and 15:0 of inctrl, so the slicing loses none of those bits |
| Bru.PremultipliedOutputClearsInCtrl | drv/vsp2_bru.c:139-150 | a premultiplied output clears adiv, every qnt and every dith |
| Bru.BlendControlFor | drv/vsp2_bru.c:216-240 | each slot gets the fixed blend and alpha formula; its Y coefficient depends on whether its input is premultiplied; the register fields are in range |
| Bru.SlotFieldsOfParts | drv/vsp2_bru.c:205-218 | bits ORed in outside bit 31 and bits 7:0 leave the rbc, crop and arop fields unchanged |
| Bru.SlotControlFields | drv/vsp2_bru.c:186-218 | a bound input gets rbc 1 with crop and arop 0; an unbound one gets rbc 0 with the ROP NOP values |
| Bru.SlotRoutingMasked | drv/vsp2_bru.c:205-214 | the DSTSEL and SRCSEL bits of a slot never touch rbc, crop or arop |
| Bru.SlotOperationFields | drv/vsp2_bru.c:192-199 | the fields that the RBC bit alone or the NOP ROPs alone produce |
| Bru.SlotRecordIndependentOfPosition | drv/vsp2_bru.c:165-241 | under the register layout, a slot's record depends only on its input, not on its index |
| Bru.BgColorWordFields | drv/vsp2_bru.c:91-93 | a 24-bit colour keeps its RGB bytes and gets alpha 0xFF |
| Bru.StreamOnParams | drv/vsp2_bru.c:136-241 | stream-on sets inctrl fields, the virtual background (source size, origin, parent layer) and one blend record per slot; it clears blend_rop and keeps lay_order, connect and the colour |
| Bru.StreamOnParamsIdempotent | drv/vsp2_bru.c:136-241 | a second stream-on with the same inputs changes nothing |
| Bru.TryFormat | drv/vsp2_bru.c:326-352 | pad 0 keeps a supported code and otherwise defaults to AYUV; the other pads take pad 0's code; sizes are clamped to [1, 8190]; field NONE and sRGB are forced |
| Bru.TryFormatIdempotent | drv/vsp2_bru.c:326-352 | trying an adjusted format again changes nothing |
| Bru.EnumMbusCode | drv/vsp2_bru.c:256-280 | pad 0 lists two codes, both supported; the other pads list only pad 0's TRY code; anything past that is -EINVAL |
| Bru.EnumeratedCodesAreSupported | drv/vsp2_bru.c:256-280 | the codes pad 0 enumerates are exactly the codes try_format keeps |
| Bru.EnumFrameSize | drv/vsp2_bru.c:282-299 | one range [1, 8190] in each dimension, for the supported codes at index 0 only; otherwise -EINVAL |
| Bru.TriedSizeWithinEnumeratedRange | drv/vsp2_bru.c:282-299 | every format try_format produces on pad 0 lies in the range enum_frame_size reports for its code |
| Bru.ApplySetFormat | drv/vsp2_bru.c:362-386 | the chosen pad takes the format; setting pad 0 propagates its code to every pad; other pads leave the rest untouched |
| Bru.SetFormatKeepsCodesUniform | drv/vsp2_bru.c:326-389 | if every pad carries the same code before a set_format, they all do after it |
| Bru.ClampOriginAsWritten | drv/vsp2_bru.c:436-437 | the origin clamp as written, through unsigned int (see Findings) |
| Bru.NegativeOriginWrapsToFarEdge | drv/vsp2_bru.c:436-437 | as written, origin -1 in a 100-pixel frame becomes 99 |
| Bru.ClampOrigin | drv/vsp2_bru.c:431-437 | the intended clamp: the origin lies inside the frame, negative origins go to 0 and far ones to the last pixel |
| Bru.ClampOriginAgreesOnNonNegative | drv/vsp2_bru.c:436-437 | the two clamps differ only on negative origins |
| Bru.ComposeRect | drv/vsp2_bru.c:431-445 | with the corrected clamp, the compose rectangle has the sink pad's size and an origin inside the source frame; an origin already inside is kept |
| Bru.ComposeRectAsWritten | drv/vsp2_bru.c:431-445 | the compose rectangle the driver as written stores: the sink pad's size, with each origin through the unsigned clamp |
| Bru.ComposeRectAgreesOnNonNegativeOrigin | drv/vsp2_bru.c:436-437 | for a non-negative origin the driver's rectangle and the corrected one are equal |
| Bru.NegativeComposeOriginWraps | drv/vsp2_bru.c:436-437 | for left = -1 in a 100-pixel source the driver stores left 99 where the corrected rectangle has 0 |
| Bru.ProgramBlend | drv/vsp2_bru.c:136-241 | the BRU block becomes StreamOnParams of its old value |
| Bru.BruUnit.constructor | drv/vsp2_bru.c:485-489 | the compose rectangles start zeroed |
| Bru.BruUnit.GetCompose | drv/vsp2_bru.c:301-313 | TRY selects the handle's crop, ACTIVE selects the BRU's compose rectangle, and anything else gives NULL |
| Bru.BruUnit.SCtrl | drv/vsp2_bru.c:79-98 | while streaming, BG_COLOR sets the virtual background colour with opaque alpha; otherwise the block is unchanged; the result is always 0 |
| Bru.BruUnit.SStream | drv/vsp2_bru.c:108-244 | the streaming result and flag are as for set_streaming; on a successful enable the block becomes StreamOnParams, with the colour re-applied when there is a control handler; otherwise the block is unchanged |
| Bru.BruUnit.SetFormat | drv/vsp2_bru.c:354-389 | the stored format is the tried format; the code propagates as ApplySetFormat says; a sink pad's compose is reset to its size at the origin; the other store is untouched |
| Bru.BruUnit.GetSelection | drv/vsp2_bru.c:391-415 | the source pad and unknown targets give -EINVAL; the bounds are [0, 8190]^2; COMPOSE returns the stored rectangle |
| Bru.BruUnit.SetSelection | drv/vsp2_bru.c:417-451 | the same errors as get_selection, with nothing changed; on success the stored rectangle becomes ComposeRect of the request (the corrected clamp) |
| Bru.BruUnit.InitFormats | drv/vsp2_entity.c:138-153 | set_fmt on every sink pad, in the TRY store of a file handle or the ACTIVE store without one, leaves supported, uniform codes and compose rectangles of the minimum size at the origin there; with a file handle the ACTIVE state is unchanged |
| Bru.BruUnit.Open | drv/vsp2_entity.c:155-161 | opening returns 0 and leaves the file handle's TRY formats supported and uniform and its compose rectangles at the minimum size; the ACTIVE state is unchanged |
| Bru.CreateBru | drv/vsp2_bru.c:479-523 | it fails with the init error or else the control error; on success it returns a fresh, valid BRU0 with a control handler, not streaming and unlinked, with uniform codes |
| Rpf.SrcIndex | drv/vsp2_rpf.c:74-99 | RPF n uses source block n for n < 4; any other index has none |
| Rpf.LumaOffsetIsPixelAddress | drv/vsp2_rpf.c:191-192 | without overflow, offsets[0] is top * stride + left * bytes per pixel |
| Rpf.LumaOffsetStepsByStride | drv/vsp2_rpf.c:191-192 | one crop line down moves offsets[0] by exactly one stride |
| Rpf.OffsetsAtOrigin | drv/vsp2_rpf.c:191-200 | a crop at the origin gives zero offsets in every plane |
| Rpf.VspmFormat | drv/vsp2_rpf.c:226-240 | the VSPM format keeps the low 7 bits of INFMT |
| Rpf.VspmFormatUpperByte | drv/vsp2_rpf.c:227-239 | the upper byte is 1 for CLUT formats, bytes per pixel for RGB, and the SPYCS/SPUVS bits for YUV |
| Rpf.VspmFormatCarriesHwFmt | drv/vsp2_rpf.c:212-240 | the VSPM format carries the memory format's hardware format unchanged |
| Rpf.InFmtLowBits | drv/vsp2_rpf.c:212-245 | INFMT bits 6..0 are the hardware format and bit 8 is the CSC flag |
| Rpf.InFmtRdfmt | drv/vsp2_rpf.c:213-214 | INFMT bits 6..0 are the hardware format |
| Rpf.InFmtCscBit | drv/vsp2_rpf.c:221-243 | INFMT bit 8 is set exactly when CSC is needed |
| Rpf.StreamAlpha | drv/vsp2_rpf.c:256-277 | the alpha block takes the control's alpha, no alpha plane, and selection NUM1 or NUM5 by the format's alpha |
| Rpf.SourceParams | drv/vsp2_rpf.c:178-277 | the source block addresses are buffer plus offset per plane; the size is the crop; the position is the location; it is a child layer with no virtual input |
| Rpf.SourceParamsFormatFields | drv/vsp2_rpf.c:212-245 | the source block's csc field is the CSC decision and its format carries the hardware format |
| Rpf.QueuePatchIsRecompute | drv/vsp2_rpf.c:331-335 | patching the three addresses equals recomputing the block for the new buffer |
| Rpf.AlphaPatchIsRecompute | drv/vsp2_rpf.c:122-127 | patching afix equals recomputing the block with the new alpha |
| Rpf.Rwpf.constructor | drv/vsp2_rpf.c:346-363 | a new pipe has the RPF maximum size, zero crop, location, alpha, addresses and offsets |
| Rpf.Rwpf.SCtrl | drv/vsp2_rpf.c:105-132 | with no source block the result is -EINVAL; while streaming, ALPHA_COMPONENT sets afix and alpha and logs one propagation; otherwise nothing changes; being in sync is preserved |
| Rpf.Rwpf.SStream | drv/vsp2_rpf.c:142-284 | with no source block the result is -EINVAL and nothing changes; the streaming result is as for set_streaming; a failure or a disable leaves the block untouched; a successful enable re-applies the alpha control when there is a handler, writes Source() into the pipe's block, raises rpf_num to index+1 and logs the alpha propagation |
| Rpf.Rwpf.WriteSource | drv/vsp2_rpf.c:178-281 | the block becomes Source(), rpf_num becomes the maximum of itself and index+1, and one propagation is logged |
| Rpf.Rwpf.StoreAddrs | drv/vsp2_rpf.c:325-326 | the pipe's addresses become the buffer's |
| Rpf.Rwpf.VdevQueue | drv/vsp2_rpf.c:312-336 | the buffer addresses are stored; while streaming, the three block addresses become buffer plus offset, which keeps the block in sync; otherwise the block is untouched |
| Rpf.Rwpf.PatchSource | drv/vsp2_rpf.c:331-335 | only the three addresses change, and a block that was in sync stays in sync |
| Rpf.RpfCreateOutcome | drv/vsp2_rpf.c:346-421 | RpfCreateResult is non-negative exactly when the index has a route and every step succeeds, and it is then media_entity_init's result; otherwise it is -EINVAL for an index without a route, else the error of the first failing step in the order init, controls, video, link |
| Rpf.CreateRpf | drv/vsp2_rpf.c:346-421 | the result is RpfCreateResult (see RpfCreateOutcome); an RPF is returned exactly on success, fresh, valid, with a control handler, alpha 0, not streaming and unlinked |
| Drv.Present | drv/vsp2_drv.c:88-95 | marks which write pipes exist |
| Drv.FanOutNotifiesPresentInOrder | drv/vsp2_drv.c:80-97 | frame end notifies exactly the present write pipes, each once, in increasing index order |
| Drv.RefStep | drv/vsp2_drv.c:268-333 | the first get initialises the library and fails with -EFAULT and no new reference if that fails; later gets only count; the put that drops the count to 0 shuts the library down |
| Drv.SessionsAppend | drv/vsp2_drv.c:268-333 | open sessions add up over concatenated call logs |
| Drv.RefRunSessions | drv/vsp2_drv.c:292-333 | over balanced get/put sequences the count stays non-negative and the open sessions follow the count |
| Drv.LibraryOpenIffReferenced | drv/vsp2_drv.c:292-333 | starting from zero, the library is open exactly when a reference is held |
| Drv.UnmatchedPutLeavesSessionOpen | drv/vsp2_drv.c:318-333 | a put with no get before it drives the count to -1; the next successful get initialises the library again while the count only returns to 0, leaving a session open at count 0 |
| Drv.PadLinksShape | drv/vsp2_drv.c:125-143 | every link leaves the source's source pad for a sink pad of the target and is enabled exactly for RPF i to WPF i; every sink pad gets one |
| Drv.SourceLinksFilter | drv/vsp2_drv.c:113-150 | every link into a target comes from an admitted entity earlier in the list: of a different type and never a WPF |
| Drv.PadLinksPrefix | drv/vsp2_drv.c:125-143 | visiting more pads only extends the links made |
| Drv.SourceLinksPrefix | drv/vsp2_drv.c:113-150 | visiting more sources only extends the links made |
| Drv.PadLinksNonEmpty | drv/vsp2_drv.c:125-143 | a source gets links into a target exactly when the target has a sink pad |
| Drv.LinksAfterEntry | drv/vsp2_drv.c:113-150 | the links after part of one source's pads are a prefix of all the links into the target |
| Drv.PlannedNode | drv/vsp2_entity.c:238-256 | a planned entity has its type and index, n pads, the source pad last, and sink pads before it |
| Drv.Plan | drv/vsp2_drv.c:193-239 | the list holds one BRU plus every RPF, UDS and WPF, and nothing else |
| Drv.Units | drv/vsp2_drv.c:202-239 | a run of one type has one entity per instance |
| Drv.UnitsAt | drv/vsp2_drv.c:202-239 | entity i of a run is the unit with index i |
| Drv.PlanLayout | drv/vsp2_drv.c:193-239 | the planned list has the BRU at 0, then each RPF, UDS and WPF in index order |
| Drv.PlanRefsDistinct | drv/vsp2_drv.c:193-239 | no two planned entities share a type and index |
| Drv.GraphLinksFilter | drv/vsp2_drv.c:241-249 | every link of the graph goes into an entity that is not an RPF, from an admitted source |
| Drv.GraphEnabledLinks | drv/vsp2_drv.c:241-249 | the only enabled links join RPF i to WPF i |
| Drv.PlannedSinkOfPlan | drv/vsp2_drv.c:241-249 | in the planned list, RPF i records WPF i as its sink once that WPF has been linked, if the WPF exists and has a sink pad; no other entity records a sink |
| Drv.PlanPosition | drv/vsp2_drv.c:193-239 | where each type sits in the planned list and which index it has there |
| Drv.CreateRpfs | drv/vsp2_drv.c:202-213 | a negative result is RpfCreateResult of the first index whose creation fails, every earlier index having succeeded; when every index succeeds the result is 0 and all RPFs are made; each created RPF is fresh and valid, laid out as planned and unlinked |
| Drv.CreateUnits | drv/vsp2_drv.c:215-239 | a negative result is the first failing index's error: -EINVAL when it has no route, else its init result; every earlier index has a route and a successful init; when every index does, the result is 0 and all units are made; each created unit is fresh, valid, laid out as planned and unlinked |
| Drv.CreateUnit | drv/vsp2_entity.c:219-261 | the result is -EINVAL exactly when the type and index have no route, else the init result; on success the unit is fresh, valid, with its planned layout |
| Drv.RegisterSubdevs | drv/vsp2_drv.c:251-257 | the result is the first failing registration's error, every earlier one having succeeded, and 0 when all succeed (FirstFailure of the results) |
| Drv.CreationSucceedsIff | drv/vsp2_drv.c:193-239 | creation returns 0 exactly when the BRU, every RPF, every UDS and every WPF is created, and never a positive value |
| Drv.CreateEntitiesSucceedsIff | drv/vsp2_drv.c:178-265 | vsp2_create_entities returns the node registration result when the media and V4L2 devices register, every entity is created, every link call and every subdev registration succeeds; otherwise a negative error |
| Drv.FirstFailureNone | drv/vsp2_drv.c:202-257 | a loop that stops at its first failure fails exactly when one of its calls does, and then with a negative error |
| Drv.FirstFailureIs | drv/vsp2_drv.c:202-257 | when the calls before position k succeed and call k fails, the loop returns call k's error; when all n succeed it returns 0 |
| Drv.Device.constructor | drv/vsp2_drv.c:403-411 | a device before probing has no entities or links, one empty slot per RPF, UDS and WPF instance, a reset parameter block and the job priority of its id |
| Drv.Device.LinkSource | drv/vsp2_drv.c:125-143 | the links made are a prefix of PadLinks; the result is 0 exactly when all of them are made, and otherwise the failing call's error; the source's sink is recorded for an enabled link |
| Drv.Device.CreateLinks | drv/vsp2_drv.c:113-150 | the links made are a prefix of SourceLinks; the result is 0 exactly when all are made, and otherwise the failing call's error; on success each source's sink is as planned |
| Drv.Device.LinkEntry | drv/vsp2_drv.c:119-147 | one source's links are appended, or the failing call's error is returned with a prefix made |
| Drv.Device.LinkTarget | drv/vsp2_drv.c:242-249 | one step of the link loop extends the graph by that entity's links, or skips an RPF; on failure the result is the failing link call's error, every link call before it having succeeded, within the calls the whole graph needs |
| Drv.Device.LinkAll | drv/vsp2_drv.c:241-249 | the result is the first failing link call's error over the calls the graph needs, and 0 when all succeed (FirstFailure); on success the links are GraphLinks of the list and every sink is as planned |
| Drv.Device.DestroyEntities | drv/vsp2_drv.c:152-164 | the entity list and its links are emptied |
| Drv.Device.AppendRpfs | drv/vsp2_drv.c:202-213 | the result is the first failing RPF creation's error, 0 when all succeed; on success each RPF is stored at its index and appended to the list in order |
| Drv.Device.AppendUnits | drv/vsp2_drv.c:215-239 | the result is the first failing unit's error (-EINVAL without a route, else its init error), 0 when all succeed; on success each unit is appended to the list in order |
| Drv.Device.AddBruAndRpfs | drv/vsp2_drv.c:193-213 | the result is the BRU's init error, else its control error, else the first failing RPF's error, else 0; on success the list holds the BRU then the RPFs, as planned |
| Drv.Device.AddUdsAndWpfs | drv/vsp2_drv.c:215-239 | the result is the first failing UDS's error, else the first failing WPF's, else 0; on success the list is completed with the UDSs then the WPFs, as planned |
| Drv.Device.AddUdss | drv/vsp2_drv.c:215-226 | the result is the first failing UDS's error, 0 when all succeed; on success the UDSs follow the RPFs in the list, fresh and as planned, the earlier entries unchanged, and uds[i] is the i-th of them |
| Drv.Device.AddWpfs | drv/vsp2_drv.c:228-239 | the result is the first failing WPF's error, 0 when all succeed; on success the WPFs complete the list, fresh and as planned, the earlier entries unchanged, and wpf[i] is the i-th of them |
| Drv.Device.AddAndLink | drv/vsp2_drv.c:193-249 | the result is the creation result, else the first failing link call's error, else 0; on success the list is the plan, the links are GraphLinks of it with every link call successful, the sinks are as planned, and bru, rpf, uds and wpf point into the list |
| Drv.Device.AddEntities | drv/vsp2_drv.c:193-239 | the result is CreationResult: the first error among BRU, RPF, UDS and WPF creation in that order, else 0; on success all entities are created fresh, in plan order, stored in their slots and unlinked |
| Drv.Device.CreateEntities | drv/vsp2_drv.c:166-266 | the result is EntitiesResult: the media device, V4L2 device, creation, link and subdev registration errors in turn, else the node registration result; any failure leaves no entities or links; on success the list is the plan, the links are GraphLinks of it, the sinks are as planned and every subdev registered |
| Drv.Device.FrameEnd | drv/vsp2_drv.c:80-97 | on a device whose unit tables have one slot per instance, the loop over VSP2_COUNT_WPF adds to the log exactly the fan-out to the present write pipes |
| Drv.Device.EntryCb | drv/vsp2_vspm.c:305-323 | whatever the job id and result, the callback ends the frame |
| Drv.Device.EntryWork | drv/vsp2_vspm.c:325-367 | the layers are prepared as PrepareLayers says; the entry is logged with the job priority; a failed entry also ends the frame |
| Drv.Device.DeviceGet | drv/vsp2_drv.c:268-310 | the count, result and library calls follow RefStep; the first get stores whatever handle the library leaves, successful or not; the parameters are reset only on a successful first initialisation |
| Drv.Device.DevicePut | drv/vsp2_drv.c:318-333 | the count and library calls follow RefStep |

## Left out

- Spinlocks, the device mutex and the work queue are not modelled. Every operation is one atomic step; `vsp2_vspm_drv_entry` only schedules `EntryWork`.
- Allocation failures (`-ENOMEM` from `devm_kzalloc` and from `vsp2_vspm_alloc`) are not modelled: allocation always succeeds.
- The `dst_par`, `uds`, `ctrl_par` and `connect` sub-blocks of the parameter block are not modelled field by field. Only the source blocks, the BRU block, `rpf_num`, `rpf_order`, `use_module` and the IP type are kept.
- The power-management hooks (`vsp2_pm_suspend`, `vsp2_pm_resume`), probe/remove and module init/exit are left out. They only sequence the modelled operations with platform calls. `vsp2_pm_suspend` returns a variable it may never assign.
- vsp2_uds.c, vsp2_wpf.c, vsp2_video.c, vsp2_rwpf.c and vsp2_pipeline.c are not part of this model. Their entities' pad counts, init results and calls appear as parameters or log entries.
- Control-handler internals (`v4l2_ctrl_new_std` ranges, `v4l2_ctrl_handler_setup` calling s_ctrl) and video-node initialisation are left out. Their results are parameters. The BRU's re-application of its colour on stream-on is modelled directly.
- `vsp2_create_entities` stores the `ERR_PTR` of a failed BRU creation in `vsp2->bru`. The model leaves `bru` null instead.
- After `vsp2_destroy_entities`, `vsp2->bru`, `rpf[]`, `uds[]` and `wpf[]` keep pointers to the destroyed entities. The model does not track those stale pointers.
- Bru.CreateBru: requires `ctrlsError <= 0`, because a control handler's error is zero or a negative errno.
- Rpf.CreateRpf: requires `ctrlsError <= 0` for the same reason. It also requires a valid format description of the video node, which is set up by code outside this model.
- Drv.Device.CreateEntities: requires valid format descriptions and non-positive control errors for the same reasons. It requires empty entity and link lists, as at probe time.
- Drv.Device.CreateLinks: on failure, only the prefix of links made and the error are stated, not which sinks were recorded.
- Drv.Device.LinkAll: requires every sink to be unlinked, which holds for freshly created entities.
- Drv.RegisterSubdevs: the results of `v4l2_device_register_subdev` and `v4l2_device_register_subdev_nodes` are parameters.
- Drv.Device.EntryWork: the job id that `VSPM_lib_Entry` writes back is a parameter.
- Vspm.VspmState.DrvInit: what `VSPM_lib_DriverInitialize` leaves in the handle is a parameter (`newHdl`), on failure as well as on success, because the library is not part of this model. Drv.Device.DeviceGet passes it through.
- Drv.Device.AppendRpfs: the driver stores `rpf[i]` as each read pipe is created; the model stores the table once the whole loop succeeds. After a failure the driver's table holds the pipes made before it (destroyed with the list), while the model's keeps its earlier slots. The same holds for `uds[i]` in Drv.Device.AddUdss and `wpf[i]` in Drv.Device.AddWpfs.
- Drv.Device.AddEntities: its split into AddBruAndRpfs and AddUdsAndWpfs (and of the latter into AddUdss and AddWpfs, and of CreateEntities' entity and link phases into AddAndLink) is internal to the model. The order of creation is the driver's.
- Rpf.Rwpf.SStream: the fields of the source block that Source() builds without a property of their own (swap from the format's swap, the luma and chroma strides from bytesperline, and iturbt, clrcng, cipm, cext and the remaining alpha fields) are defined by the body of SourceParams and not stated in its ensures.
- Bru.BruUnit.SetSelection / Bru.ComposeRect: the stored compose origin uses the corrected clamp. The driver as written maps a negative origin to extent-1 and keeps a negative origin unchanged when the source extent is 0 (see Findings); that behaviour is stated by ComposeRectAsWritten and its two lemmas, not by SetSelection.
- Addresses are unbounded numbers: the `unsigned long` address sums of the source block do not wrap.

## Findings

| source | as written | input that shows it | evidently intended | confidence | as-written member | corrected member |
|---|---|---|---|---|---|---|
| drv/vsp2_bru.c:436-437 | `clamp_t(unsigned int, sel->r.left, 0, format->width - 1)` converts a negative signed origin to a huge unsigned value, so it clamps to the far edge | left = -1 with a source width of 100 gives left = 99 | a negative origin clamps to 0, as the comment "top left corner must be inside the output frame" and the lower bound 0 suggest | not executed | Bru.ComposeRectAsWritten (Bru.NegativeComposeOriginWraps) | Bru.ComposeRect |
