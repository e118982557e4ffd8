# Conv3D kernel planner (TensorFlow Lite GPU delegate, OpenCL backend)

This project is a Dafny model of the planning and code-generation core of the
OpenCL 3-D convolution operation, `Conv3D`, in
`tensorflow/lite/delegates/gpu/cl/kernels/conv_3d.cc`. It proves properties of
that model. The core does five things.

1. It chooses a configuration for a device (`GuessBestParams`: block size,
   work-group size, launch order, unroll factor `src_depth_loop_size`, and how
   weights are uploaded).
2. It sizes the dispatch grid (`GetGridSize`) and emits the kernel prologue
   that turns work-group and work-item ids back into output coordinates
   (`GenerateGlobalCoordinates`).
3. It declares the kernel's scalar arguments in `GenerateConv3D` and sets them
   in `BindArguments`; `Tune` decides whether to search for a work-group size.
4. It emits the weight uploads into local memory (`GenerateUploadByThreads`,
   `GenerateAsyncUpload`) and the multiply-accumulate statements
   (`GenerateConv`).
5. It emits the body of the slice loop, which stages one group of weights and
   then runs `src_depth_loop_size` accumulation steps, followed by the bias
   stage.

The generated OpenCL text is modelled by what it means, not by its
characters:
- an upload is a list of entries "thread `lid` copies slot `lid + offset`";
- an accumulation is a statement naming its accumulator, its weight operands
  and its source channel;
- the loop body is a list of statements such as "read the source", "s += 1"
  and "accumulate";
- the coordinate prologue is, per logical axis, the physical axis and id it
  reads.

Modules:
- `Conv3DTypes` (`common.dfy`): int3/int4, device family, precision, upload
  type, `ConvParams`, and the integer facts the proofs use.
- `ParamSelector` (`selector.dfy`): both `GuessBestParams` overloads.
- `DispatchPlanner` (`dispatch.dfy`): `GetGridSize`, `launch_remap`,
  `GenerateGlobalCoordinates`, and the proofs that every output element is
  written by exactly one work item.
- `KernelArguments` (`arguments.dfy`): an `Arguments` store class, and a
  `Conv3D` class whose `BindArguments` and `Tune` update it in place.
- `WeightCodegen` (`codegen.dfy`): the upload emitters and `GenerateConv`.
- `SliceLoop` (`slice_loop.dfy`): the slice-loop body, the do-while over
  source slices, and the bias stage.

On PowerVR F16 with 9 source slices the unroll factor stays 1: 9 is odd, not
a multiple of 4, and above 8 (`ParamSelector.PowerVRHalfNineSourceSlices`).

## Model

| member | source | states |
|---|---|---|
| ParamSelector.GuessBestParams | tensorflow/lite/delegates/gpu/cl/kernels/conv_3d.cc:754-855 | The step-by-step family branches produce exactly the declarative per-family policy (`SelectedParams`). |
| ParamSelector.ChooseFourWide | tensorflow/lite/delegates/gpu/cl/kernels/conv_3d.cc:770-776 | The Nvidia and Mali width if-chain picks 4 for a multiple of 4 or at least 8 slices, else 2 for an even count or at least 4, else dst_slices: the four-wide ladder. |
| ParamSelector.ChooseEightWide | tensorflow/lite/delegates/gpu/cl/kernels/conv_3d.cc:789-797 | The PowerVR width if-chain picks 8, 4, 2 or dst_slices by the same tests one rung higher: the eight-wide ladder. |
| ParamSelector.ChooseUnroll | tensorflow/lite/delegates/gpu/cl/kernels/conv_3d.cc:777-782 | The two `if`s give 4 for a multiple of 4 with a block at most 2 wide, else 2 for an even slice count, else 1. |
| ParamSelector.FamilyPolicy | tensorflow/lite/delegates/gpu/cl/kernels/conv_3d.cc:764-852 | Each family's fixed block, work group, launch order and upload type, as the branches set them. |
| ParamSelector.LadderWidthUnfolded | tensorflow/lite/delegates/gpu/cl/kernels/conv_3d.cc:770-776 | The width ladders equal the source's nested `dst_slices % k == 0 \|\| dst_slices >= m` tests: 4/2/dst_slices, and 8/4/2/dst_slices for PowerVR. |
| ParamSelector.LadderWidthBounds | tensorflow/lite/delegates/gpu/cl/kernels/conv_3d.cc:770-776 | With at least one destination slice, a width ladder's result lies in [1, dst_slices]. |
| ParamSelector.UnrollDividesSrcSlices | tensorflow/lite/delegates/gpu/cl/kernels/conv_3d.cc:777-815 | For src_slices >= 1, the chosen unroll factor is >= 1 and divides src_slices, for every family and precision. |
| ParamSelector.LadderFamiliesWidthWithinSlices | tensorflow/lite/delegates/gpu/cl/kernels/conv_3d.cc:764-846 | For Nvidia, PowerVR and Mali, 1 <= block_size.w <= dst_slices. |
| ParamSelector.PowerVRHalfPrecisionShape | tensorflow/lite/delegates/gpu/cl/kernels/conv_3d.cc:799-820 | PowerVR with F16: w <= 4, block (2,1,1,w), work group (4,8,1), async-subgroup upload. |
| ParamSelector.PowerVRHalfNineSourceSlices | tensorflow/lite/delegates/gpu/cl/kernels/conv_3d.cc:799-816 | PowerVR F16 with 9 source and 16 destination slices: the ladder gives 8, w is clamped to 4, and the unroll factor stays 1. |
| ParamSelector.FixedBlockFamilies | tensorflow/lite/delegates/gpu/cl/kernels/conv_3d.cc:821-852 | Adreno and the default branch use block (2,2,1,2), textures, unroll 1 and launch order (0,1,2). |
| ParamSelector.TexturesImplySingleStep | tensorflow/lite/delegates/gpu/cl/kernels/conv_3d.cc:821-852 | Whenever textures are chosen, src_depth_loop_size is 1. |
| ParamSelector.SelectedParamsWellFormed | tensorflow/lite/delegates/gpu/cl/kernels/conv_3d.cc:754-855 | Every chosen configuration has a positive block and work group, a launch order that is a permutation, and the caller's kernel-is-1 flags. |
| ParamSelector.Slices | tensorflow/lite/delegates/gpu/cl/kernels/conv_3d.cc:860-861 | DivideRoundUp(channels, 4) is the least slice count covering the channels. |
| ParamSelector.GuessBestParamsForAttr | tensorflow/lite/delegates/gpu/cl/kernels/conv_3d.cc:857-876 | The attribute overload passes the slice counts and the three kernel-is-1 predicates (size, stride and dilation 1, no padding) to the device overload. |
| ParamSelector.PointwiseKernelScenario | tensorflow/lite/delegates/gpu/cl/kernels/conv_3d.cc:857-876 | A 1x1x1 kernel with unit strides and no padding yields a configuration with all three kernel-is-1 flags set. |
| DispatchPlanner.WorkItemCounts | tensorflow/lite/delegates/gpu/cl/kernels/conv_3d.cc:117-124 | grid_x, grid_y and grid_z (slice blocks times depth blocks) cover the batched width, height, slices and depth. |
| DispatchPlanner.GroupCounts | tensorflow/lite/delegates/gpu/cl/kernels/conv_3d.cc:125-128 | Work groups per axis times the group size covers that axis's work items. |
| DispatchPlanner.GetGridSize | tensorflow/lite/delegates/gpu/cl/kernels/conv_3d.cc:117-135 | Each grid component is a non-negative multiple of the work-group size on its axis, and its quotient is the group count of the logical axis the launch order puts there. |
| DispatchPlanner.LaunchRemap | tensorflow/lite/delegates/gpu/cl/kernels/conv_3d.cc:204-207 | For a permutation order, launch_remap is its inverse: order[remap[a]] == a and remap[order[j]] == j. |
| DispatchPlanner.GenerateGlobalCoordinates | tensorflow/lite/delegates/gpu/cl/kernels/conv_3d.cc:201-235 | Each logical axis reads get_global_id on its own axis when the order leaves it in place, and otherwise the group id of physical axis launch_remap[a]. |
| DispatchPlanner.FusedZDecodeInRange | tensorflow/lite/delegates/gpu/cl/kernels/conv_3d.cc:230-233 | Splitting linear_id_z by % and / grid_size_s gives an in-range (slice block, depth block) pair that encodes back to linear_id_z. |
| DispatchPlanner.FusedZEncodeInRange | tensorflow/lite/delegates/gpu/cl/kernels/conv_3d.cc:230-233 | Every in-range (slice block, depth block) pair has an in-range linear_id_z that decodes to it, so the split is a bijection. |
| DispatchPlanner.GridCoversLogicalAxes | tensorflow/lite/delegates/gpu/cl/kernels/conv_3d.cc:117-135 | The physical axis a logical axis is remapped to carries exactly that logical axis's group count. |
| DispatchPlanner.ItemForDecodes | tensorflow/lite/delegates/gpu/cl/kernels/conv_3d.cc:201-229 | For every logical id triple there is a work item whose prologue decodes to it. |
| DispatchPlanner.ItemForInDispatch | tensorflow/lite/delegates/gpu/cl/kernels/conv_3d.cc:117-135 | That work item lies inside the launched grid. |
| DispatchPlanner.OwnerIdsInGrid | tensorflow/lite/delegates/gpu/cl/kernels/conv_3d.cc:117-124 | The logical ids of the block holding an output element lie within the work-item counts. |
| DispatchPlanner.OwnerWrites | tensorflow/lite/delegates/gpu/cl/kernels/conv_3d.cc:230-233 | A work item with those logical ids writes that element. |
| DispatchPlanner.EveryElementWritten | tensorflow/lite/delegates/gpu/cl/kernels/conv_3d.cc:117-235 | Every destination element (x, y, z, slice) is written by some work item of the grid. |
| DispatchPlanner.WriterLogicalIds | tensorflow/lite/delegates/gpu/cl/kernels/conv_3d.cc:201-233 | A work item that writes an element has that element's block coordinates as its logical ids. |
| DispatchPlanner.NoElementWrittenTwice | tensorflow/lite/delegates/gpu/cl/kernels/conv_3d.cc:117-235 | Two work items of the grid that write the same element have the same logical ids, so no element is written twice. |
| KernelArguments.IntArgTextInjective | tensorflow/lite/delegates/gpu/cl/kernels/conv_3d.cc:310-328 | Two integer arguments have the same name exactly when they are the same argument. |
| KernelArguments.ExpectedIntArgsIff | tensorflow/lite/delegates/gpu/cl/kernels/conv_3d.cc:310-328 | grid_size_s is always declared, and an axis argument exactly when that axis's kernel is not 1. |
| KernelArguments.PointwiseDeclaresOnlyGridSize | tensorflow/lite/delegates/gpu/cl/kernels/conv_3d.cc:310-328 | A 1x1x1 configuration declares grid_size_s and no other integer. |
| KernelArguments.FirstMissingIff | tensorflow/lite/delegates/gpu/cl/kernels/conv_3d.cc:92-113 | A run of RETURN_IF_ERROR SetInt calls succeeds exactly when every name is declared; otherwise it reports an undeclared name all of whose predecessors are declared. |
| KernelArguments.FirstMissingAppend | tensorflow/lite/delegates/gpu/cl/kernels/conv_3d.cc:92-113 | Running two lists of SetInt calls in turn fails at the first list's failure, or else with the second list's outcome. |
| KernelArguments.BindOrderCovers | tensorflow/lite/delegates/gpu/cl/kernels/conv_3d.cc:92-113 | The names BindArguments sets, in order, are exactly the integers GenerateConv3D declares. |
| KernelArguments.BindOrderOkIff | tensorflow/lite/delegates/gpu/cl/kernels/conv_3d.cc:92-113 | Setting the integers in BindOrder succeeds exactly when every expected integer is declared. |
| KernelArguments.BindOrderOutcome | tensorflow/lite/delegates/gpu/cl/kernels/conv_3d.cc:92-113 | The integer binding fails at the x block's failure, else the y block's, else the z block's, else at an undeclared grid_size_s. |
| KernelArguments.AxisOrderOutcome | tensorflow/lite/delegates/gpu/cl/kernels/conv_3d.cc:93-96 | One axis block fails at stride, padding, kernel_size or dilation, whichever undeclared name comes first. |
| KernelArguments.BindOutcomeOkIff | tensorflow/lite/delegates/gpu/cl/kernels/conv_3d.cc:89-113 | BindArguments' status is Ok exactly when both tensors and every expected integer are declared. |
| KernelArguments.BindOutcomeError | tensorflow/lite/delegates/gpu/cl/kernels/conv_3d.cc:89-113 | A failed binding names an undeclared tensor, or an undeclared expected integer (both tensors then declared) before which every bound integer is declared; it is never a search failure. |
| KernelArguments.BoundOnCompose | tensorflow/lite/delegates/gpu/cl/kernels/conv_3d.cc:89-113 | Binding two disjoint groups of names one after the other binds their union. |
| KernelArguments.DeclaredOnCompose | tensorflow/lite/delegates/gpu/cl/kernels/conv_3d.cc:310-328 | Declaring two groups of names one after the other declares their union, each with value 0. |
| KernelArguments.Arguments.constructor | tensorflow/lite/delegates/gpu/cl/kernels/conv_3d.cc:296-298 | A new argument store is empty. |
| KernelArguments.Arguments.AddObjectRef | tensorflow/lite/delegates/gpu/cl/kernels/conv_3d.cc:304-309 | Declares a tensor reference and changes nothing else. |
| KernelArguments.Arguments.AddInt | tensorflow/lite/delegates/gpu/cl/kernels/conv_3d.cc:310-328 | Declares an integer slot with value 0 and changes nothing else. |
| KernelArguments.Arguments.SetInt | tensorflow/lite/delegates/gpu/cl/kernels/conv_3d.cc:92-111 | Setting a declared integer stores the value and succeeds; setting an undeclared one fails with not-found and changes nothing. |
| KernelArguments.Arguments.SetObjectRef | tensorflow/lite/delegates/gpu/cl/kernels/conv_3d.cc:90-91 | Binding a declared tensor succeeds and marks it bound; an undeclared one fails with not-found. |
| KernelArguments.DeclareAxis | tensorflow/lite/delegates/gpu/cl/kernels/conv_3d.cc:310-327 | Declares stride, padding, kernel_size and dilation of one axis, each 0, and keeps every other slot. |
| KernelArguments.DeclareAxisIfActive | tensorflow/lite/delegates/gpu/cl/kernels/conv_3d.cc:310-327 | Declares an axis's four arguments only when its kernel is not 1, else changes nothing. |
| KernelArguments.DeclareConv3DArguments | tensorflow/lite/delegates/gpu/cl/kernels/conv_3d.cc:304-328 | Adds src_tensor and dst_tensor, and exactly the expected integer names, each 0; other slots keep their values. |
| KernelArguments.SearchesWorkGroupByFamily | tensorflow/lite/delegates/gpu/cl/kernels/conv_3d.cc:137-150 | With the chosen parameters, Tune searches exactly on Adreno, Mali and the default family. |
| KernelArguments.Conv3D.constructor | tensorflow/lite/delegates/gpu/cl/kernels/conv_3d.cc:34-43 | stride_, padding_ (negated prepended padding), kernel_size_ and dilation_ come from the attributes, and conv_params_ from the attribute overload of GuessBestParams. |
| KernelArguments.Conv3D.BindAxis | tensorflow/lite/delegates/gpu/cl/kernels/conv_3d.cc:92-111 | Sets an axis's four arguments to their bound values, with x padding and dilation scaled by the batch; fails with the first undeclared name in the order stride, padding, kernel_size, dilation. |
| KernelArguments.Conv3D.BindAxisIfActive | tensorflow/lite/delegates/gpu/cl/kernels/conv_3d.cc:92-111 | Binds an axis only when its kernel is not 1, else changes nothing and succeeds; its status is the first missing name of that axis's calls. |
| KernelArguments.Conv3D.BindIntArgs | tensorflow/lite/delegates/gpu/cl/kernels/conv_3d.cc:92-113 | Its status is the first undeclared name in BindOrder (x, y, z, then grid_size_s); it succeeds exactly when every expected integer is declared, then binds each to its value, with grid_size_s = DivideRoundUp(dst slices, w). |
| KernelArguments.Conv3D.BindArguments | tensorflow/lite/delegates/gpu/cl/kernels/conv_3d.cc:89-115 | Its status is BindOutcome: src_tensor is checked, then dst_tensor, then the integers in order, and the first undeclared name is reported. It succeeds exactly when all are declared, leaves the declarations unchanged, and on success binds exactly ExpectedIntArgs. |
| KernelArguments.Conv3D.Tune | tensorflow/lite/delegates/gpu/cl/kernels/conv_3d.cc:137-152 | With a local-memory upload or a launch order other than (0,1,2), returns Ok and changes nothing. Otherwise it returns the binding's failure if any, else Ok or the search failure. The declarations stay unchanged, and when binding succeeds every expected integer and both tensors are bound to their values and the found work-group size is taken. |
| KernelArguments.DeclareThenBind | tensorflow/lite/delegates/gpu/cl/kernels/conv_3d.cc:89-115 | Declaring then binding on a fresh operation always succeeds, and each declared integer holds exactly its bound value: the two lists are in lock-step. |
| WeightCodegen.GenerateUploadByThreads | tensorflow/lite/delegates/gpu/cl/kernels/conv_3d.cc:161-187 | The loop emits `elements / total` unguarded entries at offsets total * i, then one entry guarded by `lid < remainder` when the remainder is non-zero. |
| WeightCodegen.UploadWritesEachSlotOnce | tensorflow/lite/delegates/gpu/cl/kernels/conv_3d.cc:161-187 | Every slot in [0, elements) is written by exactly one (entry, thread) pair, and no slot outside it is written. |
| WeightCodegen.UploadCoversEverySlot | tensorflow/lite/delegates/gpu/cl/kernels/conv_3d.cc:161-187 | Slot k of [0, n) is written by entry k / total of the plan, from thread k % total, whose guard lets it through. |
| WeightCodegen.UploadWriteIsSlot | tensorflow/lite/delegates/gpu/cl/kernels/conv_3d.cc:161-187 | A write by entry i from thread lid lands on slot i * total + lid, inside [0, n). |
| WeightCodegen.LinearLidBijective | tensorflow/lite/delegates/gpu/cl/kernels/conv_3d.cc:375-378 | With a work group one layer deep, lid = local_y * size_x + local_x numbers the threads 0 .. total - 1 one-to-one. |
| WeightCodegen.ByThreadsHasFlatWorkGroup | tensorflow/lite/delegates/gpu/cl/kernels/conv_3d.cc:764-769 | Every chosen by-threads configuration has work-group depth 1, as lid needs. |
| WeightCodegen.AsyncMatchesByThreads | tensorflow/lite/delegates/gpu/cl/kernels/conv_3d.cc:189-199 | The async copy of n elements writes exactly the slots the by-threads plan writes. |
| WeightCodegen.BlockMember | tensorflow/lite/delegates/gpu/cl/kernels/conv_3d.cc:254-263 | The z/y/x loop nest emits a statement for exactly the cells of the block. |
| WeightCodegen.BlockCount | tensorflow/lite/delegates/gpu/cl/kernels/conv_3d.cc:254-263 | The nest emits block.z * block.y * block.x statements. |
| WeightCodegen.EmitBlock | tensorflow/lite/delegates/gpu/cl/kernels/conv_3d.cc:254-263 | The imperative z/y/x loops emit the block's statements in z, y, x order. |
| WeightCodegen.EmitScalarSlice | tensorflow/lite/delegates/gpu/cl/kernels/conv_3d.cc:246-264 | The `for ch` loop emits, for each channel, the block's statements with weight s*4 + ch + offset. |
| WeightCodegen.GenerateConv | tensorflow/lite/delegates/gpu/cl/kernels/conv_3d.cc:237-293 | The slice loop emits the scalar form for F32/F16 and the four-weight dot form for F32_F16, slice by slice. |
| WeightCodegen.ConvStmtsExactly | tensorflow/lite/delegates/gpu/cl/kernels/conv_3d.cc:237-293 | A statement is emitted exactly when it belongs to an accumulator of the block, names weight s*4 + ch + offset for channel ch (or all four for F32_F16), and has the storage's weight kind. |
| WeightCodegen.ConvStmtsCount | tensorflow/lite/delegates/gpu/cl/kernels/conv_3d.cc:237-293 | GenerateConv emits w * 4 * z*y*x statements for F32/F16 and w * z*y*x for F32_F16. |
| WeightCodegen.ConvWeightWindow | tensorflow/lite/delegates/gpu/cl/kernels/conv_3d.cc:247-253 | The weights one call reads are exactly the ids offset .. offset + 4w - 1: cache slots for buffers, registers f for textures. |
| SliceLoop.GenerateSliceLoopBody | tensorflow/lite/delegates/gpu/cl/kernels/conv_3d.cc:634-687 | Emits the weight stage, step 0 (read, s += 1, barrier for by-threads, GenerateConv at offset 0), steps i = 1 .. loop-1 at offset i*w*4, and the filters_loc advance for buffers. |
| SliceLoop.EmitWeightStage | tensorflow/lite/delegates/gpu/cl/kernels/conv_3d.cc:635-666 | By upload type: an async copy or barrier plus by-threads upload of w*4*loop slots, weights_cache = filters_loc, or texture reads for every output slice (plus filter_offset++ unless 1x1x1). |
| SliceLoop.EmitFirstStep | tensorflow/lite/delegates/gpu/cl/kernels/conv_3d.cc:669-676 | Step 0 reads the source, emits s += 1, the barrier that ends a by-threads upload, and GenerateConv at offset 0, in that order. |
| SliceLoop.EmitUnrolledSteps | tensorflow/lite/delegates/gpu/cl/kernels/conv_3d.cc:677-682 | The `for i` loop emits a read, GenerateConv at offset i*w*4 and s += 1 for each i in 1 .. loop - 1. |
| SliceLoop.SliceLoopBodyReads | tensorflow/lite/delegates/gpu/cl/kernels/conv_3d.cc:669-682 | One pass starting at slice s reads s, s+1, ..., s + max(1, loop) - 1 in order, and advances s by max(1, loop). |
| SliceLoop.DoWhileCoversExactly | tensorflow/lite/delegates/gpu/cl/kernels/conv_3d.cc:632-688 | For src_slices >= 1, the do-while reads each slice in [0, src_slices) exactly once and nothing else, if and only if the pass length divides src_slices. |
| SliceLoop.SelectedLoopReadsEverySliceOnce | tensorflow/lite/delegates/gpu/cl/kernels/conv_3d.cc:632-688 | With the chosen parameters, the kernel's slice loop reads every source slice exactly once, in order. |
| SliceLoop.SliceLoopWeightWindow | tensorflow/lite/delegates/gpu/cl/kernels/conv_3d.cc:675-681 | One pass reads exactly the weights with ids in [0, max(1, loop) * w * 4), of the storage's kind. |
| SliceLoop.CacheReadsMatchUpload | tensorflow/lite/delegates/gpu/cl/kernels/conv_3d.cc:636-681 | With a local-memory upload, the cache slots a pass reads are exactly those its upload writes, namely [0, w*4*loop). |
| SliceLoop.UploadStageWrites | tensorflow/lite/delegates/gpu/cl/kernels/conv_3d.cc:636-649 | Either upload statement of n elements writes exactly the slots [0, n). |
| SliceLoop.TextureDeclarations | tensorflow/lite/delegates/gpu/cl/kernels/conv_3d.cc:653-662 | The texture reads declare exactly the registers f0 .. f(4w-1). |
| SliceLoop.TextureRegistersDeclared | tensorflow/lite/delegates/gpu/cl/kernels/conv_3d.cc:653-681 | With one step per pass, the texture case reads weights only from declared registers, and reads every one of them. |
| SliceLoop.TexturesNeedSingleStep | tensorflow/lite/delegates/gpu/cl/kernels/conv_3d.cc:653-681 | With two or more steps, the texture case would read f(4w), which nothing declares. |
| SliceLoop.SelectedTexturesReadDeclaredRegisters | tensorflow/lite/delegates/gpu/cl/kernels/conv_3d.cc:653-681 | With the chosen parameters, the texture case reads only declared registers. |
| SliceLoop.EmitBiasOperands | tensorflow/lite/delegates/gpu/cl/kernels/conv_3d.cc:718-745 | The write-out adds weights_cache[s] (buffers) or the bias texel DST_S + s (textures) for each output slice s. |
| SliceLoop.BiasSlotsUploaded | tensorflow/lite/delegates/gpu/cl/kernels/conv_3d.cc:698-739 | With a local cache, the bias slots the write-out reads are exactly the slots [0, w) the bias upload writes, and they fit in the weight cache. |

## Left out

- Compile, AddToQueue, CreateConv3D, UploadData, and the move constructor and move assignment: they are resource management and dispatch plumbing, not planning.
- GetBestWorkGroupConv is a search on the device, so `Tune` takes its outcome as a parameter (found size, or no result).
- Arguments, TensorDescriptor and CLDevice live in files that are not part of this model. The argument store is a map whose `SetInt` on an undeclared name fails; the device is its family.
- MergeOperations, SetArguments of linked operations, and `args.Bind`: linked operations and kernel binding are not part of this model.
- GetCommonDefines, GetXStrideCorrected, the source coordinate setup (xc/yc/zc, clamps, out-of-bounds masks, src_a_ addresses and dz_ strides) and the kernel-size loops around the slice loop: these are OpenCL text formatting or address arithmetic that the weight and slice properties do not depend on.
- The exact generated text: statements are modelled as datatypes, not strings.
- Floating-point arithmetic, precision conversions, and what barriers and async copies do at run time. The model records which statements are emitted and in what order, not how a GPU executes them.
- Conv3DTypes.ConvParams.AreWeightsBuffer: conv_3d.h, where the predicate is defined, is not part of this model. The model takes it to mean "the upload type is not textures", the reading the slice-loop and bias code here relies on.
- DispatchPlanner.GetGridSize: uses unbounded integers; the source's 32-bit int overflow for huge tensors is not modelled.
- WeightCodegen.GenerateUploadByThreads: requires at least one work item, because the source divides by the count. Its global offset name (`DST_S` for the bias upload) is not modelled, since it changes the source address, not the slots written.
- WeightCodegen.LinearLidBijective: requires a work group one layer deep. The source's `lid` ignores local z, and every by-threads configuration has depth 1 (`WeightCodegen.ByThreadsHasFlatWorkGroup`).
- SliceLoop.EmitBiasOperands: reduces the write-out loop to the bias each output slice adds. The per-cell bounds checks and tensor writes are coordinate text and are left out.
- SliceLoop.GenerateSliceLoopBody: requires a positive block and work group and a non-negative unroll factor. GuessBestParams always provides these; a negative factor would give a negative upload size that the source never produces.
