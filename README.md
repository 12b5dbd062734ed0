# RIFE frame interpolation for VapourSynth, modelled in Dafny

The plugin doubles a clip's frame rate with the RIFE networks (flownet,
contextnet, fusionnet) run through ncnn on a Vulkan device. This project
models its core and proves properties of the model:

- **The `RIFE` engine** (`RIFE/rife.cpp`), covering:
  - the object's flags;
  - which networks, compute pipelines and layers `load` sets up;
  - what the destructor tears down;
  - one `process` / `process_v4` call:
    - the pad-to-alignment arithmetic;
    - the loops that pack the six strided host planes into dense network planes and unpack the result;
    - the sequence of device operations the call records. That sequence has uploads, tensor creations, kernel dispatches, network feeds and extracts, the hand-placed `release()` calls, the download and the submit;
    - the `timestep` argument: `process_v4` writes it into the timestep map that flownet reads; the legacy path ignores it.
- **The filter glue** (`RIFE/plugin.cpp`):
  - `rifeGetFrame`: which source frames an output frame requests and reads, copy versus interpolation, the halved duration;
  - `rifeCreate`: argument reading and saturation, the ordered validation errors, the GPU listing path, the model path, engine construction and the GPU instance counter;
  - `rifeFree`.

What the networks compute is not modelled. The recorded operations stand for the device work, and the downloaded planes are a parameter of `Process`.

Modules:

| file | module | content |
|---|---|---|
| common.dfy | Common | `Option`, the 32-bit integer bounds |
| arith.dfy | Arith | row-major index arithmetic |
| padding.dfy | Padding | `PaddedSize`, the `(n + a - 1) / a * a` rounding |
| planes.dfy | Planes | the pack and unpack loops, specified by `Packed` / `Unpacked` |
| commands.dfy | Commands | the recorded operations and the trace each `process` branch records |
| record.dfy | Record | methods that record the traces with the source's loops |
| counts.dfy | Counts | how often each network runs per call |
| release.dfy | ReleaseDiscipline | no released tensor is touched again |
| wiring.dfy | Wiring | which tensor feeds which network port, and what each step releases |
| selection.dfy | Selection | what `load` selects for each flag combination |
| resources.dfy | Resources | every recorded operation uses only what `load` set up |
| rife.dfy | Engine | the `Rife` class: constructor, `Load`, `Destroy`, `Process` |
| rational.dfy | Rational | `muldivRational` on num/den pairs |
| scheduler.dfy | Scheduler | `rifeGetFrame` |
| gpu_instances.dfy | GpuInstances | the `numGPUInstances` counter as a class |
| create.dfy | Create | `rifeCreate` and `rifeFree` |

## Model

| member | source | states |
|---|---|---|
| Padding.PaddedSize | RIFE/rife.cpp:389-390 | the padded size is a multiple of the alignment and exceeds the size by less than one alignment |
| Padding.PaddedSizeIsLeast | RIFE/rife.cpp:389-390 | no aligned size below the padded size still covers the frame: it is the least one |
| Padding.PaddedSizeOfAligned | RIFE/rife.cpp:1183-1184 | an already aligned size is left unchanged |
| Padding.PaddedSizeMonotone | RIFE/rife.cpp:1183-1184 | a larger frame never gets a smaller padded size |
| Arith.RowMajorInjective | RIFE/rife.cpp:404-413 | distinct (y, x) inside a row of width w map to distinct indices `w*y+x` |
| Arith.RowMajorSplit | RIFE/rife.cpp:404-413 | an index below `w*h` splits into row `k/w < h` and column `k%w < w` |
| Planes.Packed | RIFE/rife.cpp:404-413 | the dense `w*h` plane the pack loop produces: sample `w*y+x` is source sample `stride*y+x` rescaled |
| Planes.Unpacked | RIFE/rife.cpp:1150-1156 | the destination after the unpack loop: in-region samples `stride*y+x` are output samples `w*y+x` rescaled, the rest keep their old value |
| Planes.PackedSourceInPlane | RIFE/rife.cpp:404-413 | every strided read `stride*y+x` of the pack loop lies inside the source plane |
| Planes.UnpackedSourceInPlane | RIFE/rife.cpp:1150-1156 | every dense read `w*y+x` of the unpack loop lies inside the network output |
| Planes.PackedAt | RIFE/rife.cpp:404-413 | sample `w*y+x` of the packed plane is source sample `stride*y+x` rescaled |
| Planes.PackedIndexBijective | RIFE/rife.cpp:404-413 | the pack loop writes every dense index exactly once: the index map is a bijection from the w×h region |
| Planes.UnpackedAt | RIFE/rife.cpp:1150-1156 | destination sample `stride*y+x` is output sample `w*y+x` rescaled |
| Planes.UnpackedKeepsGap | RIFE/rife.cpp:1150-1156 | the stride padding of each destination row is left untouched |
| Planes.UnpackedKeepsTail | RIFE/rife.cpp:1150-1156 | destination samples past the last row are left untouched |
| Planes.PackUnpackAt | RIFE/rife.cpp:404-413 | packing then unpacking without rescaling returns each in-region sample and keeps every other one |
| Planes.PackUnpackIdentity | RIFE/rife.cpp:1150-1156 | unpack is the inverse of pack on the w×h region of a strided plane |
| Planes.PackPlane | RIFE/rife.cpp:404-413 | the pack loop over an array fills the dense plane with exactly `Packed` of the source |
| Planes.UnpackPlane | RIFE/rife.cpp:1150-1156 | the unpack loop over an array leaves the destination equal to `Unpacked` of the output |
| Commands.Uploads | RIFE/rife.cpp:418-424 | both host inputs are cloned to the device, `in0` first |
| Commands.DownloadAndSubmit | RIFE/rife.cpp:1140-1145 | `out_gpu` is cloned back to the host, then the command buffer is submitted and awaited |
| Commands.TtaPreprocess | RIFE/rife.cpp:433-471 | the eight padded variants of each frame are created, four in the padded shape and four transposed, and one preprocess dispatch per frame fills them |
| Commands.FlowStep | RIFE/rife.cpp:496-529 | one flownet evaluation for variant `ti` in one direction, fed the padded frames in that direction's order; in UHD mode the inputs are downscaled first and the flow upscaled and doubled after |
| Commands.TtaPrefix | RIFE/rife.cpp:427-650 | the TTA branch before fusion: preprocess, the flow passes, their averages and, temporally, the merges, then the v2 slices |
| Commands.ContextStep | RIFE/rife.cpp:655-697 | the two contextnet evaluations of variant `ti`, one per frame, with the v2 slice or `flow[ti]` bound as flow input |
| Commands.Fusion | RIFE/rife.cpp:699-745 | one fusionnet evaluation: feed of both padded frames, the flow and both contexts, the releases placed between feed and extract, then the extract |
| Commands.TtaForwardReleases | RIFE/rife.cpp:718-741 | the tensors the forward fusion of variant `ti` releases: the previous inputs and the contexts unless temporal, and in every mode the previous flow |
| Commands.TtaReversedReleases | RIFE/rife.cpp:770-788 | the tensors the reversed fusion releases: the previous inputs, the previous reversed flow and the contexts |
| Commands.TtaCommands | RIFE/rife.cpp:427-843 | the TTA branch: prefix, the fusion loop over eight variants, and the eight-way output postprocess |
| Commands.PlainPrefix | RIFE/rife.cpp:845-1020 | the plain branch before fusion: preprocess, one flownet per direction with the temporal flow merge, the v2 slice and two contextnet evaluations |
| Commands.PlainFusion | RIFE/rife.cpp:1022-1100 | fusionnet once per direction, each with its releases, and the temporal output merge |
| Commands.PlainCommands | RIFE/rife.cpp:845-1100 | the plain branch: prefix, fusion and the postprocess of the single output |
| Commands.LegacyCommands | RIFE/rife.cpp:376-1163 | the legacy `process`: sizes padded to 32, uploads, the TTA or plain branch, download and submit |
| Commands.V4Commands | RIFE/rife.cpp:1165-1330 | `process_v4`: padding by the instance's alignment, one flownet evaluation fed both frames and a one-channel map filled with the caller's `timestep` |
| Commands.ProcessCommands | RIFE/rife.cpp:368-374 | `process` hands every argument, `timestep` included, to `process_v4` under v4, and otherwise runs the legacy body |
| Record.RecordFlowLoop | RIFE/rife.cpp:496-529 | the eight-variant flownet loop records one `FlowStep` per variant, in order |
| Record.RecordMergeLoop | RIFE/rife.cpp:618-636 | the temporal flow merge loop records one merge dispatch per variant |
| Record.RecordSliceLoop | RIFE/rife.cpp:638-650 | the v2 slice loop records one slice per variant |
| Record.RecordTta | RIFE/rife.cpp:427-843 | the TTA branch with its five `ti` loops records exactly `TtaCommands`, the eight-way output postprocess included |
| Counts.FlowLoopEvaluations | RIFE/rife.cpp:496-529 | the flow loop of n variants runs flownet n times and nothing else |
| Counts.ContextStepEvaluations | RIFE/rife.cpp:655-697 | each variant runs contextnet twice, once per frame |
| Counts.FusionEvaluations | RIFE/rife.cpp:699-745 | one fusion evaluates fusionnet once, whatever releases it carries |
| Counts.TtaFusionStepEvaluations | RIFE/rife.cpp:652-811 | one fusion-loop iteration: two contextnet and one fusionnet per direction |
| Counts.TtaFusionLoopEvaluations | RIFE/rife.cpp:652-811 | n iterations: 2n contextnet and n·directions fusionnet |
| Counts.TtaPrefixEvaluations | RIFE/rife.cpp:427-650 | eight flownet runs per direction before the TTA fusion loop |
| Counts.PlainPrefixEvaluations | RIFE/rife.cpp:845-1020 | one flownet run per direction, then two contextnet runs |
| Counts.PlainFusionEvaluations | RIFE/rife.cpp:1022-1100 | one fusionnet run per direction |
| Counts.V4Evaluations | RIFE/rife.cpp:1165-1330 | `process_v4` runs flownet once and neither other network |
| Counts.ProcessEvaluations | RIFE/rife.cpp:368-1330 | per call: flownet variants·directions times, contextnet twice per variant, fusionnet variants·directions times; v4: flownet once only |
| ReleaseDiscipline.FlowLoopReleasesNothing | RIFE/rife.cpp:496-529 | the flow loop releases nothing |
| ReleaseDiscipline.TtaPrefixReleasesNothing | RIFE/rife.cpp:427-650 | nothing is released before the TTA fusion loop |
| ReleaseDiscipline.PlainPrefixReleasesNothing | RIFE/rife.cpp:845-1020 | nothing is released before the plain fusion |
| ReleaseDiscipline.FusionShape | RIFE/rife.cpp:699-745 | a fusion of variant v touches only variant v and releases only what its release list names |
| ReleaseDiscipline.TtaFusionStepSafe | RIFE/rife.cpp:718-788 | one fusion-loop iteration is release-safe, releases only tensors of variants up to v and touches only variant v |
| ReleaseDiscipline.TtaFusionLoopSafe | RIFE/rife.cpp:652-811 | the whole TTA fusion loop is release-safe: a tensor freed at variant v-1 is never used by a later variant |
| ReleaseDiscipline.PlainFusionSafe | RIFE/rife.cpp:1043-1095 | the releases interleaved with the plain fusion are safe |
| ReleaseDiscipline.TtaCallSafe | RIFE/rife.cpp:368-843 | a TTA call is release-safe end to end, postprocess and download included |
| ReleaseDiscipline.PlainCallSafe | RIFE/rife.cpp:845-1163 | a plain call is release-safe end to end |
| ReleaseDiscipline.V4ReleasesNothing | RIFE/rife.cpp:1165-1330 | `process_v4` records no release |
| ReleaseDiscipline.ProcessReleaseSafe | RIFE/rife.cpp:368-1330 | in every configuration no operation after a `release()` reads or writes the released tensor |
| Wiring.Bound | RIFE/rife.cpp:663-715 | the tensor found under a port was really bound there, and a missing port was never bound |
| Wiring.ContextFlowWiring | RIFE/rife.cpp:660-697 | contextnet is conditioned on each frame's slice under "flow.0" with v2, otherwise on `flow[ti]` under "flow.0" / "flow.1" |
| Wiring.SliceFlowSplits | RIFE/rife.cpp:638-650 | the v2 slice reads `flow[ti]` and writes two distinct per-frame slices |
| Wiring.SlicesPrecedeContexts | RIFE/rife.cpp:638-652 | under v2 all eight slices are recorded before the fusion loop |
| Wiring.TtaVariantShapes | RIFE/rife.cpp:433-471 | variants 0–3 keep the padded shape, 4–7 are transposed, one preprocess dispatch writes all eight from the upload |
| Wiring.V4Wiring | RIFE/rife.cpp:1262-1293 | `process_v4` creates the padded timestep map, fills it with the caller's `timestep`, and only then feeds flownet both padded frames and that map |
| Wiring.V4TimestepWriters | RIFE/rife.cpp:1262-1276 | the timestep map is written only by its creation and by the fill with the caller's `timestep`, so flownet reads that value |
| Wiring.LegacyIgnoresTimestep | RIFE/rife.cpp:368-376 | without v4 the trace does not depend on `timestep` |
| Wiring.V4OnlyFlowNet | RIFE/rife.cpp:1165-1330 | every feed and extract of `process_v4` belongs to flownet |
| Wiring.ForwardReleased | RIFE/rife.cpp:718-741 | without temporal TTA the forward fusion of variant ti frees the uploads (ti = 0) or the previous padded inputs and the eight contexts; in every mode it frees the previous flow |
| Wiring.ReversedReleased | RIFE/rife.cpp:770-788 | the reversed fusion frees the same inputs, the previous reversed flow and the contexts |
| Wiring.TtaFusionStepReleased | RIFE/rife.cpp:652-811 | one fusion-loop iteration frees exactly the inputs of the previous variant, its flows and the current contexts |
| Wiring.PlainFusionReleased | RIFE/rife.cpp:1043-1095 | the plain fusion frees exactly the uploads, the contexts, `flow` and, temporally, `flow_reversed` |
| Selection.LoadedNets | RIFE/rife.cpp:147-161 | flownet always, contextnet and fusionnet unless v4 |
| Selection.NetFiles | RIFE/rife.cpp:147-161 | the files opened in order: `.param` then `.bin` of flownet, then of contextnet and fusionnet unless v4 |
| Selection.BuiltPipelines | RIFE/rife.cpp:163-363 | with a device, each kernel whose flag is set maps to the shader its TTA and v2 flags choose; without one, nothing |
| Selection.CreatedLayers | RIFE/rife.cpp:284-341 | the three UHD layers under UHD mode and the slice layer under v2 |
| Selection.NetSelection | RIFE/rife.cpp:147-161 | flownet is always loaded, contextnet and fusionnet exactly unless v4, two files per network |
| Selection.PipelineSelection | RIFE/rife.cpp:163-282 | without a device no pipeline; with one, preprocess/postprocess always, TTA average iff TTA, timestep iff v4, temporal kernels only under temporal TTA, each from the shader its flags pick |
| Selection.LayerSelection | RIFE/rife.cpp:284-341 | the three UHD layers exist iff UHD mode, the slice layer iff v2 |
| Resources.HeldOnDevice | RIFE/rife.cpp:123-366 | an instance holding what `load` selects holds `LoadedFor` its configuration |
| Resources.LoadedForFacts | RIFE/rife.cpp:163-341 | with a device, the loaded set holds flownet, contextnet and fusionnet unless v4, preprocess and postprocess, and the kernels and layers each flag adds |
| Resources.TtaFusionLoopUses | RIFE/rife.cpp:652-811 | the fusion loop uses only loaded nets, kernels and layers |
| Resources.LegacyUses | RIFE/rife.cpp:368-1163 | the legacy call uses only what `load` built |
| Resources.V4Uses | RIFE/rife.cpp:1165-1330 | `process_v4` uses only flownet, preprocess, postprocess and the timestep kernel |
| Resources.ProcessUsesLoaded | RIFE/rife.cpp:368-1330 | no call feeds a network, dispatches a kernel or forwards a layer that `load` did not set up for the same flags |
| Engine.BuildPipelines | RIFE/rife.cpp:163-363 | the pipeline blocks of `load`, the v4 timestep pipeline last, build exactly the selection for the flags |
| Engine.BuiltPipelinesV4 | RIFE/rife.cpp:343-363 | the v4 timestep pipeline, built last and only with a device, is the only one v4 adds |
| Engine.Rife.constructor | RIFE/rife.cpp:24-45 | `vkdev` is null for gpu id -1, flags are stored, temporal TTA is off, nothing is built |
| Engine.Rife.Load | RIFE/rife.cpp:123-366 | `load` returns 0 and leaves the instance holding exactly the selected nets, files, pipelines and layers, all flags unchanged |
| Engine.Rife.Destroy | RIFE/rife.cpp:47-76 | every pipeline is deleted, UHD layers are destroyed under UHD and the slice layer under v2 |
| Engine.Rife.RecordWork | RIFE/rife.cpp:368-1163 | the recorded work is `ProcessCommands` for the instance's flags and uses only what the instance holds |
| Engine.Rife.Process | RIFE/rife.cpp:368-1163 | inputs are `Packed` source planes, the trace is `ProcessCommands` for the flags and the given `timestep`, it uses only held resources, the destination is `Unpacked` of the result, status 0 |
| Engine.RecordProcess | RIFE/rife.cpp:368-376 | `process` delegates to `process_v4` with its `timestep` under v4, otherwise records the legacy trace; either uses only what `load` sets up, is release-safe and evaluates each network the stated number of times |
| Engine.PackFrame | RIFE/rife.cpp:395-413 | both `w*h*3` input mats hold the packed, rescaled source planes |
| Engine.Lifetime | RIFE/rife.cpp:47-76 | construction, load and destruction leave no pipeline and no layer; the networks are those the flags select |
| Rational.MulDiv | RIFE/plugin.cpp:205 | `muldivRational` multiplies the value by mul/div and keeps a nonzero denominator |
| Rational.HalvedValue | RIFE/plugin.cpp:100-108 | scaling by 1/2 halves the value |
| Rational.DoubledValue | RIFE/plugin.cpp:204-205 | scaling by 2/1 doubles the value |
| Scheduler.GetFrame | RIFE/plugin.cpp:68-116 | `arInitial` requests `n/2` and, when a pair follows, `n/2+1`; `arAllFramesReady` copies or interpolates and sets the adjusted duration; other activations do nothing |
| Scheduler.AdjustDuration | RIFE/plugin.cpp:100-108 | with both duration keys the duration is scaled by 1/2, otherwise both keys are left as they are |
| Scheduler.Decision | RIFE/plugin.cpp:76-98 | src0 is `n/2`; the frame is interpolated with `n/2+1` iff n is odd, `n < numFrames-2` and no scene change |
| Scheduler.SceneChangeCopies | RIFE/plugin.cpp:83-91 | a nonzero `_SceneChangeNext` with scene detection on yields a copy of src0 |
| Scheduler.FetchedWereRequested | RIFE/plugin.cpp:72-98 | every frame read was requested; on a scene change `n/2+1` is requested but not read |
| Scheduler.IndicesInRange | RIFE/plugin.cpp:72-98 | for a clip of twice the source length, every requested or read index is a valid source frame |
| Scheduler.Layout | RIFE/plugin.cpp:72-98 | frame 2k copies source k; frame 2k+1 lies between k and k+1 unless a scene change follows or k is last |
| Scheduler.DurationHalved | RIFE/plugin.cpp:100-108 | both duration keys present: the duration becomes half of src0's; otherwise unchanged |
| Scheduler.OnlyReadyCallsProduce | RIFE/plugin.cpp:68-116 | only `arAllFramesReady` returns a frame; only `arInitial` requests frames |
| GpuInstances.Counter.constructor | RIFE/plugin.cpp:39 | the counter starts at 0 with no GPU instance |
| GpuInstances.Counter.CreateInstance | RIFE/plugin.cpp:141-142 | creation either fails or leaves a live instance; the count is untouched |
| GpuInstances.Counter.Increment | RIFE/plugin.cpp:143 | the count goes up by one |
| GpuInstances.Counter.Decrement | RIFE/plugin.cpp:122-123 | the count goes down by one and the instance is destroyed exactly when it reaches 0 |
| Create.Read | RIFE/plugin.cpp:145-157 | the arguments as read: saturated integers, `gpu_id` defaulting to the default GPU, `gpu_thread` to 2, flags set when nonzero |
| Create.Checks | RIFE/plugin.cpp:159-172 | the five checks in the order the source makes them, each with the message it throws |
| Create.Saturated | RIFE/plugin.cpp:145-151 | `mapGetIntSaturated`: missing reads 0, 64-bit values are clamped to the 32-bit range |
| Create.FirstFailureIsFirst | RIFE/plugin.cpp:159-172 | no error iff every check passes; otherwise the message of the first failing check |
| Create.FirstFailureAt | RIFE/plugin.cpp:159-172 | the error is the message of check i when all before it pass |
| Create.AcceptedIff | RIFE/plugin.cpp:159-172 | the checks pass iff model in 0..2, gpu id valid, threads in 1..queues, at least 2 frames, doubled length fits |
| Create.CheckSettings | RIFE/plugin.cpp:159-172 | the validation throws the first failing check's message, in source order |
| Create.LastSlash | RIFE/plugin.cpp:207-214 | the position found is the last '/' of the path, or there is none |
| Create.PluginDirIsParent | RIFE/plugin.cpp:207-214 | the plugin directory is the path cut at its last '/' |
| Create.ModelPathsDistinct | RIFE/plugin.cpp:207-219 | the three models map to three different directories |
| Create.ModelPath | RIFE/plugin.cpp:207-219 | the plugin directory + "/models" + `/rife-v3.1`, `/rife-v2.4` or `/rife-anime` for models 0, 1, 2 |
| Create.Listing | RIFE/plugin.cpp:176-181 | one "index: name" line per GPU, in index order |
| Create.ListingPrefix | RIFE/plugin.cpp:177-178 | the listing of a prefix of the GPUs is a prefix of the whole listing |
| Create.ListText | RIFE/plugin.cpp:176-181 | the GPU listing loop builds one "index: name" line per GPU, in order |
| Create.PlanOf | RIFE/plugin.cpp:131-237 | the course of `rifeCreate`: format error, GPU error, first failing check, the listing or its error, the missing contextnet error, or a build with doubled frames and fps |
| Create.BuildsDoubles | RIFE/plugin.cpp:204-226 | a clip that is built passed every check, doubles frames (4 ≤ 2N ≤ INT_MAX) and fps, and found the contextnet file |
| Create.ErrorOrder | RIFE/plugin.cpp:135-172 | the format error comes before the GPU error, which comes before any argument error |
| Create.MakeEngine | RIFE/plugin.cpp:226-234 | the engine is built from the header constructor's five arguments (one thread, v2 unless model 2), with `false` and 32 for the two parameters that constructor lacks, then loaded |
| Create.TryBody | RIFE/plugin.cpp:131-237 | the try block throws, returns a listing or builds, exactly as `PlanOf` says; the counter rises iff the GPU was created |
| Create.Create | RIFE/plugin.cpp:127-248 | as written: the catch decrements even when the throw preceded the increment |
| Create.CreateGuarded | RIFE/plugin.cpp:127-248 | with the decrement guarded: the count rises exactly for a created filter and stays consistent |
| Create.Free | RIFE/plugin.cpp:118-125 | the engine is destroyed, the count falls by one, the GPU is torn down exactly at 0 |
| Create.FilterLifetime | RIFE/plugin.cpp:118-248 | a filter's creation and free leave the count where it was |
| Create.CatchUnderflowWitness | RIFE/plugin.cpp:238-244 | a format error with one live filter drives the count to 0 and tears the GPU down; on a fresh counter it reaches -1 |

## Left out

- Floating point: the ×255 and ÷255 rescalings are parameters (`toNet`, `fromNet`) of the pack and unpack methods.
- Device execution: what the networks, shaders and layers compute is not modelled.
  - The device result is a parameter of `Process`.
  - The recorded trace stands for `cmd.record_*`, `ncnn::Extractor` and `submit_and_wait`.
- Allocator acquisition and reclaim, `VkMat` metadata (widths, cstep, elemsize, fp16 storage) and the specialization constants fed to each shader are not modelled.
  - Tensor creations carry only their width, height and channel count.
- Shader compilation (`compile_spirv_module`), pipeline local sizes and layer parameters (`ParamDict`) are abstracted.
  - A pipeline is the shader it is built from.
  - A layer is its name.
- `load_param_model` only records which files are opened.
  - Its `sprintf` into 256-byte buffers is not modelled, nor is the Windows wide-string variant.
- Engine.Rife.Load: always returns 0, as the source does; the failure of a `load_param` inside it is not observed by the source and is not modelled.
- Engine.Rife.Process: requires a device (`vkdev` non-null).
  - A null device would dereference null in the source.
  - The plugin never asks for one: gpu id -1 is rejected by its checks.
- Engine.Rife.Destroy: requires the layers the flags name.
  - The source destroys them through pointers only `load` sets.
  - The plugin always loads before it frees.
- Engine.Rife.constructor: takes `rife_v4` and `padding` as well as the five parameters of the header's constructor (rife.h:14), which has neither.
  - The plugin uses that five-parameter constructor (plugin.cpp:226); `Create.MakeEngine` fills the two extra parameters with `false` and 32.
  - This choice is harmless: only `process_v4` reads the padding (rife.cpp:1183-1184).
- The header declares `process` without `timestep` (rife.h:23-26) and the plugin calls it with twelve arguments (plugin.cpp:64). `Engine.Rife.Process` takes the `timestep` that rife.cpp's definition takes; the plugin's side passes none, and only the v4 path reads it.
- `ncnn::Extractor` is assumed to keep its own references to the mats given to `ex.input`. `ReleaseDiscipline.ProcessReleaseSafe` rests on that:
  - the fusion steps release inputs between `ex.input` and `ex.extract` (rife.cpp:705-743);
  - the model therefore reads a `Feed`'s bindings when it is recorded and lets an `Extract` only write.
- The `Model` argument values 0..2 and the `rife_v2 = model != 2` choice are taken from the plugin; engine-side v4 models are reachable only through the constructor's flags.
- Concurrency: the `counting_semaphore` limiting `process` calls (plugin.cpp:63-65, 237) and the atomicity of `numGPUInstances` are not modelled.
  - The counter is modelled sequentially.
- Host API calls become data:
  - `requestFrameFilter`, `getFrameFilter`, `freeFrame`, `freeNode` and `copyFrame`;
  - the property maps;
  - `createVideoFilter`, and the `Text` plugin invocation of the GPU listing;
  - `mapSetError`.
  - The frame function returns which frames it asks for and reads; `rifeCreate` returns a `Created` value.
- The `std::ifstream` existence test of the contextnet file is the `files` set of the host.
- Rational.MulDiv: states the value of the product but not the reduction by the greatest common divisor that `muldivRational` performs, since only the value is used.
- Scheduler.DurationHalved: the 64-bit overflow of `den * 2` is not modelled; integers are unbounded here.
- Create.Saturated: clamps the 64-bit value to 32 bits; the 64-bit range of the stored value itself is not bounded.
- The throw at plugin.cpp:166 passes `.c_str()` of a temporary string. The message pointer dangles once the temporary dies; the model keeps the intended text.
- `rifeGetFrame` takes `n` as a natural number: the host only asks for frames `0 <= n < numFrames`.
- Division: the source's truncating `/` and `%` agree with Dafny's on the nonnegative sizes and indices involved.

## Findings

| source | as written | input that shows it | evidently intended | confidence | as-written member | corrected member |
|---|---|---|---|---|---|---|
| RIFE/plugin.cpp:135-143, 238-244 | the `catch` decrements `numGPUInstances` for every throw, including the format error thrown before `++numGPUInstances` and the failed `create_gpu_instance` | a non-RGB clip while one RIFE filter is alive: the count drops from 1 to 0 and `destroy_gpu_instance` runs under the live filter; on a fresh process the count becomes -1 | decrement only when the increment happened | not executed | Create.Create, Create.CatchUnderflowWitness | Create.CreateGuarded |
