/** The body of the kernel's `do { ... } while (s < args.src_tensor.Slices())`
    loop and the bias stage after it, as GenerateConv3D emits them, modelled
    as statement sequences.

    One pass of the body stages a group of weights (local-memory upload,
    global buffer, or texture reads into f0 .. f(4w-1)). It then runs
    src_depth_loop_size accumulation steps. Step i reads one source slice and
    then the weights with ids i * w * 4 .. i * w * 4 + 4w - 1.

    The lemmas say:
    - each pass reads consecutive source slices;
    - the do-while reads every source slice exactly once precisely when the
      unroll factor divides the slice count;
    - the steps read exactly the cache slots the upload fills;
    - texture weights are read only from declared registers, precisely when
      the unroll factor is 1. */
module SliceLoop {
  import opened Conv3DTypes
  import opened ParamSelector
  import opened WeightCodegen

  /** The statements of one pass of the slice loop, and of the bias stage. */
  datatype LoopStmt =
    | AsyncUpload(copy: AsyncCopy)          // async_work_group_copy into weights_cache
    | Barrier                               // barrier(CLK_LOCAL_MEM_FENCE)
    | ThreadUpload(entries: seq<UploadEntry>)
    | CacheIsFilters                        // weights_cache = filters_loc
    | ReadFilters(dstSlice: int)            // f{4d} .. f{4d+3} = args.weights0..3.Read(DST_S + d, ...)
    | NextFilterOffset                      // filter_offset++
    | ReadSrc                               // src{z}{y}{x} = args.src_tensor.Read(..., s)
    | NextSlice                             // s += 1
    | Accumulate(stmts: seq<AccumStmt>)     // the output of GenerateConv
    | AdvanceFilters(count: int)            // filters_loc += count
    | CacheIsBiases                         // weights_cache = args.biases.GetPtr() + DST_S

  /** What the emitter needs of ConvParams; GuessBestParams always meets it. */
  predicate BodyReady(p: ConvParams) {
    p.blockSize.Positive() && p.workGroupSize.Positive() && p.srcDepthLoopSize >= 0
  }

  /** block_size.w * 4 * src_depth_loop_size: the size of weights_cache and of one upload. */
  function CacheElements(p: ConvParams): (n: int)
    requires BodyReady(p)
    ensures n >= 0
  {
    MulMonotone(0, p.blockSize.w * 4, p.srcDepthLoopSize);
    p.blockSize.w * 4 * p.srcDepthLoopSize
  }

  /** total_work_items: the number of threads in a work group. */
  function TotalWorkItems(p: ConvParams): (t: int)
    requires BodyReady(p)
    ensures t >= 1
  {
    var wgs := p.workGroupSize;
    MulMonotone(1, wgs.x, wgs.y);
    MulMonotone(1, wgs.x * wgs.y, wgs.z);
    wgs.x * wgs.y * wgs.z
  }

  /** The number of accumulation steps per pass: the first one always, then
      the unrolled steps i = 1 .. src_depth_loop_size - 1. */
  function Steps(p: ConvParams): int {
    if p.srcDepthLoopSize >= 1 then p.srcDepthLoopSize else 1
  }

  /** The offset of step i's weights. */
  function StepOffset(p: ConvParams, i: int): int {
    i * p.blockSize.w * 4
  }

  lemma StepOffsetWidth(p: ConvParams, i: int)
    ensures StepOffset(p, i) == i * (p.blockSize.w * 4)
  {
  }

  /** What GenerateConv emits for step i. */
  function StepWeights(precision: Precision, p: ConvParams, i: int): seq<AccumStmt> {
    ConvStmts(precision, p.blockSize, StepOffset(p, i), p.AreWeightsBuffer())
  }

  // ----- The body of one pass -----

  function TextureReads(w: int): seq<LoopStmt> {
    seq(Trips(w), d => ReadFilters(d))
  }

  /** Staging the weights of one pass, by upload type. */
  function WeightStage(p: ConvParams): seq<LoopStmt>
    requires BodyReady(p)
  {
    match p.weightsUploadType
    case LocalMemAsyncSubgroup => [AsyncUpload(GenerateAsyncUpload(CacheElements(p)))]
    case LocalMemByThreads => [Barrier, ThreadUpload(UploadPlan(TotalWorkItems(p), CacheElements(p)))]
    case GlobalMem => [CacheIsFilters]
    case TexturesMem => TextureReads(p.blockSize.w) + (if p.Is1x1x1() then [] else [NextFilterOffset])
  }

  /** Step 0: its source read comes before the barrier that ends the upload. */
  function FirstStep(precision: Precision, p: ConvParams): seq<LoopStmt> {
    [ReadSrc, NextSlice]
    + (if p.weightsUploadType == LocalMemByThreads then [Barrier] else [])
    + [Accumulate(StepWeights(precision, p, 0))]
  }

  function UnrolledStep(precision: Precision, p: ConvParams, i: int): seq<LoopStmt> {
    [ReadSrc, Accumulate(StepWeights(precision, p, i)), NextSlice]
  }

  /** Steps 1 .. count. */
  function UnrolledSteps(precision: Precision, p: ConvParams, count: int): seq<LoopStmt> {
    Flatten(seq(Trips(count), k => UnrolledStep(precision, p, k + 1)))
  }

  function FilterAdvance(p: ConvParams): seq<LoopStmt>
    requires BodyReady(p)
  {
    if p.AreWeightsBuffer() then [AdvanceFilters(CacheElements(p))] else []
  }

  function SliceLoopBody(precision: Precision, p: ConvParams): seq<LoopStmt>
    requires BodyReady(p)
  {
    WeightStage(p) + FirstStep(precision, p)
    + UnrolledSteps(precision, p, p.srcDepthLoopSize - 1) + FilterAdvance(p)
  }

  /** The `for dst_s` loop of the texture case. */
  method EmitTextureReads(w: int) returns (c: seq<LoopStmt>)
    ensures c == TextureReads(w)
  {
    c := [];
    var d := 0;
    while d < w
      invariant 0 <= d <= Trips(w)
      invariant c == seq(d, d' => ReadFilters(d'))
    {
      SeqSnoc(d, d' => ReadFilters(d'));
      c := c + [ReadFilters(d)];
      d := d + 1;
    }
  }

  method EmitWeightStage(p: ConvParams) returns (c: seq<LoopStmt>)
    requires BodyReady(p)
    ensures c == WeightStage(p)
  {
    var n := p.blockSize.w * 4 * p.srcDepthLoopSize;
    match p.weightsUploadType {
      case LocalMemAsyncSubgroup =>
        c := [AsyncUpload(GenerateAsyncUpload(n))];
      case LocalMemByThreads =>
        var totalWorkItems := p.workGroupSize.x * p.workGroupSize.y * p.workGroupSize.z;
        assert totalWorkItems == TotalWorkItems(p) && n == CacheElements(p);
        var entries := GenerateUploadByThreads(totalWorkItems, n);
        c := [Barrier, ThreadUpload(entries)];
      case GlobalMem =>
        c := [CacheIsFilters];
      case TexturesMem =>
        c := EmitTextureReads(p.blockSize.w);
        if !p.Is1x1x1() {
          c := c + [NextFilterOffset];
        }
    }
  }

  /** The `for (int i = 1; i < src_depth_loop_size; ++i)` loop. */
  method EmitUnrolledSteps(precision: Precision, p: ConvParams) returns (c: seq<LoopStmt>)
    ensures c == UnrolledSteps(precision, p, p.srcDepthLoopSize - 1)
  {
    c := [];
    var i := 1;
    while i < p.srcDepthLoopSize
      invariant 1 <= i && i - 1 <= Trips(p.srcDepthLoopSize - 1)
      invariant c == Flatten(seq(i - 1, k => UnrolledStep(precision, p, k + 1)))
    {
      var conv := GenerateConv(precision, p.blockSize, i * p.blockSize.w * 4, p.AreWeightsBuffer());
      FlattenStep(i - 1, k => UnrolledStep(precision, p, k + 1));
      c := c + [ReadSrc, Accumulate(conv), NextSlice];
      i := i + 1;
    }
  }

  /** Step 0: read the source, s += 1, the closing barrier of a by-threads
      upload, and GenerateConv at offset 0. */
  method EmitFirstStep(precision: Precision, p: ConvParams) returns (c: seq<LoopStmt>)
    ensures c == FirstStep(precision, p)
  {
    c := [ReadSrc, NextSlice];
    if p.weightsUploadType == LocalMemByThreads {
      c := c + [Barrier];
    }
    var conv := GenerateConv(precision, p.blockSize, 0, p.AreWeightsBuffer());
    c := c + [Accumulate(conv)];
  }

  /** The part of GenerateConv3D that emits one pass of the slice loop. */
  method GenerateSliceLoopBody(precision: Precision, p: ConvParams) returns (c: seq<LoopStmt>)
    requires BodyReady(p)
    ensures c == SliceLoopBody(precision, p)
  {
    c := EmitWeightStage(p);
    var first := EmitFirstStep(precision, p);
    c := c + first;
    var rest := EmitUnrolledSteps(precision, p);
    c := c + rest;
    if p.AreWeightsBuffer() {
      c := c + [AdvanceFilters(p.blockSize.w * 4 * p.srcDepthLoopSize)];
    }
  }

  // ----- Source slices read by the do-while loop -----

  /** The slices `n` consecutive reads starting at s visit. */
  function Range(s: int, n: int): seq<int> {
    seq(Trips(n), i => s + i)
  }

  /** The source slices one pass reads when it starts with `s` at the given value. */
  function BodyReads(body: seq<LoopStmt>, s: int): seq<int>
    decreases |body|
  {
    if |body| == 0 then []
    else if body[0] == ReadSrc then [s] + BodyReads(body[1..], s)
    else if body[0] == NextSlice then BodyReads(body[1..], s + 1)
    else BodyReads(body[1..], s)
  }

  /** How far one pass moves `s`. */
  function SliceAdvance(body: seq<LoopStmt>): int
    decreases |body|
  {
    if |body| == 0 then 0
    else (if body[0] == NextSlice then 1 else 0) + SliceAdvance(body[1..])
  }

  /** `do { body } while (s < slices)`, started with s at the given value. */
  function DoWhileReads(body: seq<LoopStmt>, s: int, slices: int): seq<int>
    requires SliceAdvance(body) >= 1
    decreases slices - s
  {
    var next := s + SliceAdvance(body);
    BodyReads(body, s) + (if next < slices then DoWhileReads(body, next, slices) else [])
  }

  lemma {:induction false} BodyReadsAppend(a: seq<LoopStmt>, b: seq<LoopStmt>, s: int)
    ensures BodyReads(a + b, s) == BodyReads(a, s) + BodyReads(b, s + SliceAdvance(a))
    ensures SliceAdvance(a + b) == SliceAdvance(a) + SliceAdvance(b)
    decreases |a|
  {
    if |a| == 0 {
      assert a + b == b;
    } else {
      assert (a + b)[0] == a[0] && (a + b)[1..] == a[1..] + b;
      if a[0] == ReadSrc {
        BodyReadsAppend(a[1..], b, s);
      } else if a[0] == NextSlice {
        BodyReadsAppend(a[1..], b, s + 1);
      } else {
        BodyReadsAppend(a[1..], b, s);
      }
    }
  }

  /** No statement of `a` touches the slice counter or reads the source. */
  predicate Quiet(a: seq<LoopStmt>) {
    forall i :: 0 <= i < |a| ==> a[i] != ReadSrc && a[i] != NextSlice
  }

  lemma {:induction false} QuietReads(a: seq<LoopStmt>, s: int)
    requires Quiet(a)
    ensures BodyReads(a, s) == [] && SliceAdvance(a) == 0
    decreases |a|
  {
    if |a| > 0 {
      assert Quiet(a[1..]) by {
        forall i | 0 <= i < |a[1..]| ensures a[1..][i] != ReadSrc && a[1..][i] != NextSlice {
          assert a[1..][i] == a[i + 1];
        }
      }
      QuietReads(a[1..], s);
    }
  }

  lemma SingleReads(x: LoopStmt, s: int)
    ensures BodyReads([x], s) == (if x == ReadSrc then [s] else [])
    ensures SliceAdvance([x]) == (if x == NextSlice then 1 else 0)
  {
    assert [x][1..] == [];
  }

  /** A read followed by the slice increment, with quiet statements in between. */
  lemma ReadThenNext(mid: seq<LoopStmt>, s: int)
    requires Quiet(mid)
    ensures BodyReads([ReadSrc] + mid + [NextSlice], s) == [s]
    ensures SliceAdvance([ReadSrc] + mid + [NextSlice]) == 1
  {
    SingleReads(ReadSrc, s);
    SingleReads(NextSlice, s);
    QuietReads(mid, s);
    BodyReadsAppend([ReadSrc], mid, s);
    BodyReadsAppend([ReadSrc] + mid, [NextSlice], s);
  }

  lemma StepReads(precision: Precision, p: ConvParams, i: int, s: int)
    ensures BodyReads(UnrolledStep(precision, p, i), s) == [s]
    ensures SliceAdvance(UnrolledStep(precision, p, i)) == 1
  {
    var mid := [Accumulate(StepWeights(precision, p, i))];
    assert UnrolledStep(precision, p, i) == [ReadSrc] + mid + [NextSlice];
    ReadThenNext(mid, s);
  }

  lemma UnrolledSnoc(precision: Precision, p: ConvParams, count: nat)
    requires count >= 1
    ensures UnrolledSteps(precision, p, count)
            == UnrolledSteps(precision, p, count - 1) + UnrolledStep(precision, p, count)
  {
    var f := k => UnrolledStep(precision, p, k + 1);
    FlattenStep(count - 1, f);
  }

  /** A body reading n consecutive slices, followed by one reading the next
      slice alone, reads n + 1 consecutive slices. */
  lemma AppendSingleRead(a: seq<LoopStmt>, b: seq<LoopStmt>, s: int, n: nat)
    requires BodyReads(a, s) == Range(s, n) && SliceAdvance(a) == n
    requires BodyReads(b, s + n) == [s + n] && SliceAdvance(b) == 1
    ensures BodyReads(a + b, s) == Range(s, n + 1) && SliceAdvance(a + b) == n + 1
  {
    BodyReadsAppend(a, b, s);
    RangeConcat(s, n, 1);
  }

  lemma {:induction false} UnrolledReads(precision: Precision, p: ConvParams, count: nat, s: int)
    ensures BodyReads(UnrolledSteps(precision, p, count), s) == Range(s, count)
    ensures SliceAdvance(UnrolledSteps(precision, p, count)) == count
  {
    if count == 0 {
      assert UnrolledSteps(precision, p, count) == [];
    } else {
      UnrolledSnoc(precision, p, count);
      UnrolledReads(precision, p, count - 1, s);
      StepReads(precision, p, count, s + (count - 1));
      AppendSingleRead(UnrolledSteps(precision, p, count - 1), UnrolledStep(precision, p, count), s, count - 1);
    }
  }

  lemma FirstStepReads(precision: Precision, p: ConvParams, s: int)
    ensures BodyReads(FirstStep(precision, p), s) == [s]
    ensures SliceAdvance(FirstStep(precision, p)) == 1
  {
    var barrier: seq<LoopStmt> := if p.weightsUploadType == LocalMemByThreads then [Barrier] else [];
    var acc := [Accumulate(StepWeights(precision, p, 0))];
    assert FirstStep(precision, p) == ([ReadSrc] + [] + [NextSlice]) + (barrier + acc);
    assert Quiet(barrier + acc);
    ReadThenNext([], s);
    QuietReads(barrier + acc, s + 1);
    BodyReadsAppend([ReadSrc] + [] + [NextSlice], barrier + acc, s);
  }

  lemma WeightStageQuiet(p: ConvParams)
    requires BodyReady(p)
    ensures Quiet(WeightStage(p))
  {
    if p.weightsUploadType == TexturesMem {
      var t := TextureReads(p.blockSize.w);
      var tail: seq<LoopStmt> := if p.Is1x1x1() then [] else [NextFilterOffset];
      forall i | 0 <= i < |t + tail| ensures (t + tail)[i] != ReadSrc && (t + tail)[i] != NextSlice {
        if i < |t| {
          assert (t + tail)[i] == ReadFilters(i);
        }
      }
    }
  }

  /** Reads of a body made of a quiet prefix, a part reading [s, s + m), another
      reading the n slices after those, and a quiet suffix. */
  lemma FourPartReads(a: seq<LoopStmt>, b: seq<LoopStmt>, c: seq<LoopStmt>, d: seq<LoopStmt>,
                      s: int, m: nat, n: nat)
    requires Quiet(a) && Quiet(d)
    requires BodyReads(b, s) == Range(s, m) && SliceAdvance(b) == m
    requires BodyReads(c, s + m) == Range(s + m, n) && SliceAdvance(c) == n
    ensures BodyReads(a + b + c + d, s) == Range(s, m + n)
    ensures SliceAdvance(a + b + c + d) == m + n
  {
    QuietReads(a, s);
    QuietReads(d, s + m + n);
    BodyReadsAppend(a, b, s);
    BodyReadsAppend(a + b, c, s);
    BodyReadsAppend(a + b + c, d, s);
    RangeConcat(s, m, n);
  }

  /** One pass reads the slices s, s + 1, ..., s + Steps(p) - 1, in order, and
      moves s past them. */
  lemma SliceLoopBodyReads(precision: Precision, p: ConvParams, s: int)
    requires BodyReady(p)
    ensures BodyReads(SliceLoopBody(precision, p), s) == Range(s, Steps(p))
    ensures SliceAdvance(SliceLoopBody(precision, p)) == Steps(p)
  {
    var count := Trips(p.srcDepthLoopSize - 1);
    assert UnrolledSteps(precision, p, p.srcDepthLoopSize - 1) == UnrolledSteps(precision, p, count);
    WeightStageQuiet(p);
    FirstStepReads(precision, p, s);
    UnrolledReads(precision, p, count, s + 1);
    assert Quiet(FilterAdvance(p));
    FourPartReads(WeightStage(p), FirstStep(precision, p), UnrolledSteps(precision, p, count),
                  FilterAdvance(p), s, 1, count);
  }

  lemma RangeConcat(s: int, a: nat, b: nat)
    ensures Range(s, a) + Range(s + a, b) == Range(s, a + b)
  {
  }

  /** A body each pass of which reads `step` consecutive slices. */
  ghost predicate ReadsConsecutive(body: seq<LoopStmt>, step: int) {
    step >= 1 && SliceAdvance(body) == step && forall s :: BodyReads(body, s) == Range(s, step)
  }

  /** How many passes the do-while makes. */
  function Passes(s: int, slices: int, step: int): nat
    requires step >= 1
    decreases slices - s
  {
    if s + step < slices then 1 + Passes(s + step, slices, step) else 1
  }

  /** The do-while reads the slices from s on, a whole number of passes of them. */
  lemma {:induction false} DoWhileIsRange(body: seq<LoopStmt>, step: int, s: int, slices: int)
    requires ReadsConsecutive(body, step)
    ensures DoWhileReads(body, s, slices) == Range(s, Passes(s, slices, step) * step)
    decreases slices - s
  {
    if s + step < slices {
      DoWhileIsRange(body, step, s + step, slices);
      var k := Passes(s + step, slices, step);
      assert Passes(s, slices, step) * step == step + k * step;
      MulMonotone(0, k, step);
      RangeConcat(s, step, k * step);
    }
  }

  /** When the slice count minus s is k >= 1 whole passes, the do-while reads exactly those. */
  lemma {:induction false} DoWhileMultiple(body: seq<LoopStmt>, step: int, s: int, k: int)
    requires ReadsConsecutive(body, step) && k >= 1
    ensures Passes(s, s + k * step, step) == k
    decreases k
  {
    if k > 1 {
      MulMonotone(2, k, step);
      assert (s + step) + (k - 1) * step == s + k * step;
      DoWhileMultiple(body, step, s + step, k - 1);
    }
  }

  /** The do-while over a slice count >= 1 reads every slice below it exactly
      once, in order, and nothing else, precisely when the pass length divides
      the slice count. */
  lemma DoWhileCoversExactly(body: seq<LoopStmt>, step: int, slices: int)
    requires ReadsConsecutive(body, step) && slices >= 1
    ensures DoWhileReads(body, 0, slices) == Range(0, slices) <==> slices % step == 0
  {
    DoWhileIsRange(body, step, 0, slices);
    var k := Passes(0, slices, step);
    MulMonotone(0, k, step);
    if DoWhileReads(body, 0, slices) == Range(0, slices) {
      assert |Range(0, k * step)| == |Range(0, slices)|;
      DivModUnique(slices, step, k, 0);
    }
    if slices % step == 0 {
      var q := slices / step;
      assert slices == q * step;
      if q < 1 {
        MulMonotone(q, 0, step);
        assert false;
      }
      DoWhileMultiple(body, step, 0, q);
    }
  }

  /** With the parameters GuessBestParams picks, the kernel's slice loop reads
      every source slice exactly once, in order. */
  lemma SelectedLoopReadsEverySliceOnce(device: DeviceFamily, precision: Precision, srcSlices: nat,
                                        dstSlices: nat, x1: bool, y1: bool, z1: bool)
    requires srcSlices >= 1
    ensures var p := SelectedParams(device, precision, srcSlices, dstSlices, x1, y1, z1);
            BodyReady(p) && SliceAdvance(SliceLoopBody(precision, p)) >= 1
            && DoWhileReads(SliceLoopBody(precision, p), 0, srcSlices) == Range(0, srcSlices)
  {
    var p := SelectedParams(device, precision, srcSlices, dstSlices, x1, y1, z1);
    SelectedParamsWellFormed(device, precision, srcSlices, dstSlices, x1, y1, z1);
    UnrollDividesSrcSlices(device, precision, srcSlices, dstSlices, x1, y1, z1);
    var body := SliceLoopBody(precision, p);
    forall s ensures BodyReads(body, s) == Range(s, Steps(p)) {
      SliceLoopBodyReads(precision, p, s);
    }
    SliceLoopBodyReads(precision, p, 0);
    DoWhileCoversExactly(body, Steps(p), srcSlices);
  }

  // ----- Weights read by one pass -----

  /** Whether some accumulation step of `body` reads weight r. */
  predicate BodyReadsWeight(body: seq<LoopStmt>, r: WeightRef) {
    exists i :: 0 <= i < |body| && body[i].Accumulate? && ReadsWeight(body[i].stmts, r)
  }

  lemma StageHasNoAccumulate(p: ConvParams, stmts: seq<AccumStmt>)
    requires BodyReady(p)
    ensures Accumulate(stmts) !in WeightStage(p) && Accumulate(stmts) !in FilterAdvance(p)
  {
  }

  /** The one accumulation of unrolled step i is GenerateConv at its offset. */
  lemma StepAccumulates(precision: Precision, p: ConvParams, i: int, stmts: seq<AccumStmt>)
    ensures Accumulate(stmts) in UnrolledStep(precision, p, i) <==> stmts == StepWeights(precision, p, i)
  {
  }

  /** Unrolled step j, 1 <= j <= count, contributes its accumulation. */
  lemma UnrolledHasStep(precision: Precision, p: ConvParams, count: nat, j: int)
    requires 1 <= j <= count
    ensures Accumulate(StepWeights(precision, p, j)) in UnrolledSteps(precision, p, count)
  {
    var steps := seq(Trips(count), k => UnrolledStep(precision, p, k + 1));
    var i := j - 1;
    assert steps[i][1] == Accumulate(StepWeights(precision, p, i + 1));
    FlattenHas(steps, i, 1);
  }

  lemma UnrolledAccumulates(precision: Precision, p: ConvParams, count: nat, stmts: seq<AccumStmt>)
    ensures Accumulate(stmts) in UnrolledSteps(precision, p, count)
            <==> exists j :: 1 <= j <= count && stmts == StepWeights(precision, p, j)
  {
    var steps := seq(Trips(count), k => UnrolledStep(precision, p, k + 1));
    FlattenMember(steps, Accumulate(stmts));
    if Accumulate(stmts) in UnrolledSteps(precision, p, count) {
      var i :| 0 <= i < |steps| && Accumulate(stmts) in steps[i];
      StepAccumulates(precision, p, i + 1, stmts);
    }
    if exists j :: 1 <= j <= count && stmts == StepWeights(precision, p, j) {
      var j :| 1 <= j <= count && stmts == StepWeights(precision, p, j);
      UnrolledHasStep(precision, p, count, j);
    }
  }

  lemma FirstStepAccumulates(precision: Precision, p: ConvParams, stmts: seq<AccumStmt>)
    ensures Accumulate(stmts) in FirstStep(precision, p) <==> stmts == StepWeights(precision, p, 0)
  {
  }

  /** The accumulation steps of one pass are GenerateConv at offsets j * w * 4,
      one for each j below Steps(p). */
  lemma AccumulateMember(precision: Precision, p: ConvParams, stmts: seq<AccumStmt>)
    requires BodyReady(p)
    ensures Accumulate(stmts) in SliceLoopBody(precision, p)
            <==> exists j :: 0 <= j < Steps(p) && stmts == StepWeights(precision, p, j)
  {
    var count := Trips(p.srcDepthLoopSize - 1);
    assert UnrolledSteps(precision, p, p.srcDepthLoopSize - 1) == UnrolledSteps(precision, p, count);
    StageHasNoAccumulate(p, stmts);
    UnrolledAccumulates(precision, p, count, stmts);
    FirstStepAccumulates(precision, p, stmts);
    if Accumulate(stmts) in SliceLoopBody(precision, p) {
      if Accumulate(stmts) in FirstStep(precision, p) {
        assert 0 < Steps(p) && stmts == StepWeights(precision, p, 0);
      } else {
        var j :| 1 <= j <= count && stmts == StepWeights(precision, p, j);
        assert j < Steps(p);
      }
    }
    if exists j :: 0 <= j < Steps(p) && stmts == StepWeights(precision, p, j) {
      var j :| 0 <= j < Steps(p) && stmts == StepWeights(precision, p, j);
      if j != 0 {
        assert 1 <= j <= count;
      }
    }
  }

  /** Block j of `width` ids, j below `steps`, lies within [0, steps * width). */
  lemma BlockWithin(j: int, steps: int, width: int, id: int)
    requires 0 <= j < steps && width >= 1 && j * width <= id < j * width + width
    ensures 0 <= id < steps * width
  {
    MulMonotone(0, j, width);
    MulMonotone(j + 1, steps, width);
  }

  /** An id in [0, steps * width) lies in block id / width, below `steps`. */
  lemma WithinBlock(steps: int, width: int, id: int)
    requires width >= 1 && 0 <= id < steps * width
    ensures 0 <= id / width < steps
    ensures (id / width) * width <= id < (id / width) * width + width
  {
    QuotientBelow(id, width, steps);
  }

  lemma WindowSound(precision: Precision, p: ConvParams, r: WeightRef)
    requires BodyReady(p) && BodyReadsWeight(SliceLoopBody(precision, p), r)
    ensures r == WeightName(r.index, p.AreWeightsBuffer()) && 0 <= r.index < Steps(p) * (p.blockSize.w * 4)
  {
    var body := SliceLoopBody(precision, p);
    var i :| 0 <= i < |body| && body[i].Accumulate? && ReadsWeight(body[i].stmts, r);
    var stmts := body[i].stmts;
    assert Accumulate(stmts) in body;
    AccumulateMember(precision, p, stmts);
    var j :| 0 <= j < Steps(p) && stmts == StepWeights(precision, p, j);
    ConvReadsOnlyWindow(precision, p.blockSize, StepOffset(p, j), p.AreWeightsBuffer(), r);
    StepOffsetWidth(p, j);
    BlockWithin(j, Steps(p), p.blockSize.w * 4, r.index);
  }

  lemma WindowComplete(precision: Precision, p: ConvParams, id: int)
    requires BodyReady(p) && 0 <= id < Steps(p) * (p.blockSize.w * 4)
    ensures BodyReadsWeight(SliceLoopBody(precision, p), WeightName(id, p.AreWeightsBuffer()))
  {
    var body := SliceLoopBody(precision, p);
    var j := id / (p.blockSize.w * 4);
    WithinBlock(Steps(p), p.blockSize.w * 4, id);
    StepOffsetWidth(p, j);
    var stmts := StepWeights(precision, p, j);
    ConvReadsWholeWindow(precision, p.blockSize, StepOffset(p, j), p.AreWeightsBuffer(), id);
    AccumulateMember(precision, p, stmts);
    var i :| 0 <= i < |body| && body[i] == Accumulate(stmts);
    assert body[i].Accumulate? && ReadsWeight(body[i].stmts, WeightName(id, p.AreWeightsBuffer()));
  }

  /** One pass reads exactly the weights with ids 0 .. Steps(p) * w * 4 - 1,
      of the kind the storage calls for. */
  lemma SliceLoopWeightWindow(precision: Precision, p: ConvParams, r: WeightRef)
    requires BodyReady(p)
    ensures BodyReadsWeight(SliceLoopBody(precision, p), r)
            <==> r == WeightName(r.index, p.AreWeightsBuffer())
                 && 0 <= r.index < Steps(p) * (p.blockSize.w * 4)
  {
    if BodyReadsWeight(SliceLoopBody(precision, p), r) {
      WindowSound(precision, p, r);
    }
    if r == WeightName(r.index, p.AreWeightsBuffer()) && 0 <= r.index < Steps(p) * (p.blockSize.w * 4) {
      WindowComplete(precision, p, r.index);
    }
  }

  /** Whether an upload statement of `stage` writes cache slot k. */
  predicate StageWrites(stage: seq<LoopStmt>, totalWorkItems: int, k: int) {
    exists i :: 0 <= i < |stage| &&
      match stage[i]
      case AsyncUpload(copy) => 0 <= k < copy.count
      case ThreadUpload(entries) =>
        exists j, lid :: 0 <= j < |entries| && 0 <= lid < totalWorkItems && Writes(entries[j], lid, k)
      case _ => false
  }

  /** With an upload of the local cache, every slot written is the same one
      for both strategies: the slots [0, n) of the by-threads plan or the
      async copy. */
  lemma UploadStageWrites(stage: seq<LoopStmt>, totalWorkItems: int, n: int, byThreads: bool, k: int)
    requires totalWorkItems >= 1 && n >= 0
    requires stage == (if byThreads then [Barrier, ThreadUpload(UploadPlan(totalWorkItems, n))]
                       else [AsyncUpload(GenerateAsyncUpload(n))])
    ensures StageWrites(stage, totalWorkItems, k) <==> 0 <= k < n
  {
    AsyncMatchesByThreads(totalWorkItems, n, k);
    if byThreads {
      assert stage[1] == ThreadUpload(UploadPlan(totalWorkItems, n));
    } else {
      assert stage[0] == AsyncUpload(GenerateAsyncUpload(n));
    }
  }

  lemma LocalStageShape(p: ConvParams)
    requires BodyReady(p) && p.NeedLocalMem()
    ensures WeightStage(p)
            == if p.weightsUploadType == LocalMemByThreads
               then [Barrier, ThreadUpload(UploadPlan(TotalWorkItems(p), CacheElements(p)))]
               else [AsyncUpload(GenerateAsyncUpload(CacheElements(p)))]
  {
  }

  /** weights_cache holds the ids of all Steps(p) accumulation steps. */
  lemma CacheHoldsWindow(p: ConvParams)
    requires BodyReady(p) && p.srcDepthLoopSize >= 1
    ensures Steps(p) * (p.blockSize.w * 4) == CacheElements(p)
  {
  }

  /** A pass staging weights in local memory reads exactly the cache slots its
      upload writes. */
  lemma CacheReadsMatchUpload(precision: Precision, p: ConvParams, k: int)
    requires BodyReady(p) && p.NeedLocalMem() && p.srcDepthLoopSize >= 1
    ensures BodyReadsWeight(SliceLoopBody(precision, p), CacheSlot(k))
            <==> StageWrites(WeightStage(p), TotalWorkItems(p), k)
    ensures StageWrites(WeightStage(p), TotalWorkItems(p), k) <==> 0 <= k < CacheElements(p)
  {
    var n := CacheElements(p);
    CacheHoldsWindow(p);
    SliceLoopWeightWindow(precision, p, CacheSlot(k));
    LocalStageShape(p);
    UploadStageWrites(WeightStage(p), TotalWorkItems(p), n, p.weightsUploadType == LocalMemByThreads, k);
  }

  /** Whether a texture read of `body` declares register f{k}. */
  predicate DeclaresRegister(body: seq<LoopStmt>, k: int) {
    exists i :: 0 <= i < |body| && body[i].ReadFilters? && body[i].dstSlice * 4 <= k < body[i].dstSlice * 4 + 4
  }

  lemma TextureReadsMember(w: int, d: int)
    ensures ReadFilters(d) in TextureReads(w) <==> 0 <= d < w
  {
    var t := TextureReads(w);
    if ReadFilters(d) in t {
      var e :| 0 <= e < |t| && t[e] == ReadFilters(d);
    }
    if 0 <= d < w {
      assert t[d] == ReadFilters(d);
    }
  }

  lemma UnrolledHasNoReadFilters(precision: Precision, p: ConvParams, count: int, d: int)
    ensures ReadFilters(d) !in UnrolledSteps(precision, p, count)
  {
    var steps := seq(Trips(count), k => UnrolledStep(precision, p, k + 1));
    FlattenMember(steps, ReadFilters(d));
  }

  lemma ReadFiltersOnlyInStage(precision: Precision, p: ConvParams, d: int)
    requires BodyReady(p) && p.weightsUploadType == TexturesMem
    ensures ReadFilters(d) in SliceLoopBody(precision, p) <==> 0 <= d < p.blockSize.w
  {
    UnrolledHasNoReadFilters(precision, p, p.srcDepthLoopSize - 1, d);
    TextureReadsMember(p.blockSize.w, d);
  }

  /** The texture case declares exactly f0 .. f(4w-1). */
  lemma TextureDeclarations(precision: Precision, p: ConvParams, k: int)
    requires BodyReady(p) && p.weightsUploadType == TexturesMem
    ensures DeclaresRegister(SliceLoopBody(precision, p), k) <==> 0 <= k < 4 * p.blockSize.w
  {
    var body := SliceLoopBody(precision, p);
    if DeclaresRegister(body, k) {
      var i :| 0 <= i < |body| && body[i].ReadFilters? && body[i].dstSlice * 4 <= k < body[i].dstSlice * 4 + 4;
      ReadFiltersOnlyInStage(precision, p, body[i].dstSlice);
    }
    if 0 <= k < 4 * p.blockSize.w {
      var d := k / 4;
      ReadFiltersOnlyInStage(precision, p, d);
      var i :| 0 <= i < |body| && body[i] == ReadFilters(d);
    }
  }

  /** With one step per pass, the texture case reads weights only from the
      registers it declares, and every declared register is read. */
  lemma TextureRegistersDeclared(precision: Precision, p: ConvParams, r: WeightRef)
    requires BodyReady(p) && p.weightsUploadType == TexturesMem && p.srcDepthLoopSize <= 1
    ensures BodyReadsWeight(SliceLoopBody(precision, p), r)
            <==> r.FilterReg? && DeclaresRegister(SliceLoopBody(precision, p), r.index)
  {
    SliceLoopWeightWindow(precision, p, r);
    TextureDeclarations(precision, p, r.index);
  }

  /** With two or more steps per pass the texture case would read f(4w),
      which no statement declares; GuessBestParams never picks this. */
  lemma TexturesNeedSingleStep(precision: Precision, p: ConvParams)
    requires BodyReady(p) && p.weightsUploadType == TexturesMem && p.srcDepthLoopSize >= 2
    ensures BodyReadsWeight(SliceLoopBody(precision, p), FilterReg(4 * p.blockSize.w))
    ensures !DeclaresRegister(SliceLoopBody(precision, p), 4 * p.blockSize.w)
  {
    MulMonotone(2, Steps(p), p.blockSize.w * 4);
    SliceLoopWeightWindow(precision, p, FilterReg(4 * p.blockSize.w));
    TextureDeclarations(precision, p, 4 * p.blockSize.w);
  }

  /** With the parameters GuessBestParams picks, the texture case reads weights
      only from registers it declares. */
  lemma SelectedTexturesReadDeclaredRegisters(device: DeviceFamily, precision: Precision, srcSlices: nat,
                                              dstSlices: nat, x1: bool, y1: bool, z1: bool, r: WeightRef)
    ensures var p := SelectedParams(device, precision, srcSlices, dstSlices, x1, y1, z1);
            BodyReady(p) && (p.weightsUploadType == TexturesMem ==>
              (BodyReadsWeight(SliceLoopBody(precision, p), r)
               <==> r.FilterReg? && DeclaresRegister(SliceLoopBody(precision, p), r.index)))
  {
    var p := SelectedParams(device, precision, srcSlices, dstSlices, x1, y1, z1);
    SelectedParamsWellFormed(device, precision, srcSlices, dstSlices, x1, y1, z1);
    TexturesImplySingleStep(device, precision, srcSlices, dstSlices, x1, y1, z1);
    if p.weightsUploadType == TexturesMem {
      TextureRegistersDeclared(precision, p, r);
    }
  }

  // ----- Bias stage and write-out -----

  /** The operand added to accumulator r{s}...: weights_cache[s] for buffers,
      args.biases.Read(DST_S + s) for textures. */
  datatype BiasOperand = CachedBias(slot: int) | BiasTexel(dstSliceOffset: int)

  /** The statements between the slice loop and the write-out. */
  function BiasStage(p: ConvParams): seq<LoopStmt>
    requires BodyReady(p)
  {
    match p.weightsUploadType
    case LocalMemAsyncSubgroup => [AsyncUpload(GenerateAsyncUpload(p.blockSize.w))]
    case LocalMemByThreads =>
      [Barrier, ThreadUpload(UploadPlan(TotalWorkItems(p), p.blockSize.w))] + [Barrier]
    case GlobalMem => [CacheIsBiases]
    case TexturesMem => []
  }

  function BiasOperands(p: ConvParams): seq<BiasOperand> {
    seq(Trips(p.blockSize.w), s => if p.AreWeightsBuffer() then CachedBias(s) else BiasTexel(s))
  }

  /** The `for s` loop of the write-out, reduced to the bias each slice adds. */
  method EmitBiasOperands(p: ConvParams) returns (c: seq<BiasOperand>)
    ensures c == BiasOperands(p)
  {
    c := [];
    var s := 0;
    while s < p.blockSize.w
      invariant 0 <= s <= Trips(p.blockSize.w)
      invariant c == seq(s, s' => if p.AreWeightsBuffer() then CachedBias(s') else BiasTexel(s'))
    {
      SeqSnoc(s, s' => if p.AreWeightsBuffer() then CachedBias(s') else BiasTexel(s'));
      c := c + [if p.AreWeightsBuffer() then CachedBias(s) else BiasTexel(s)];
      s := s + 1;
    }
  }

  /** With a local cache, the write-out reads exactly the bias slots the bias
      upload writes, and those fit in the weight cache. */
  lemma BiasSlotsUploaded(p: ConvParams, k: int)
    requires BodyReady(p) && p.NeedLocalMem()
    ensures CachedBias(k) in BiasOperands(p) <==> StageWrites(BiasStage(p), TotalWorkItems(p), k)
    ensures CachedBias(k) in BiasOperands(p) <==> 0 <= k < p.blockSize.w
    ensures p.srcDepthLoopSize >= 1 ==> p.blockSize.w <= CacheElements(p)
  {
    var byThreads := p.weightsUploadType == LocalMemByThreads;
    var upload := if byThreads then [Barrier, ThreadUpload(UploadPlan(TotalWorkItems(p), p.blockSize.w))]
                  else [AsyncUpload(GenerateAsyncUpload(p.blockSize.w))];
    UploadStageWrites(upload, TotalWorkItems(p), p.blockSize.w, byThreads, k);
    if byThreads {
      assert BiasStage(p) == upload + [Barrier];
      assert StageWrites(BiasStage(p), TotalWorkItems(p), k) <==> StageWrites(upload, TotalWorkItems(p), k) by {
        if StageWrites(BiasStage(p), TotalWorkItems(p), k) {
          var i :| 0 <= i < |BiasStage(p)| && match BiasStage(p)[i]
            case AsyncUpload(copy) => 0 <= k < copy.count
            case ThreadUpload(entries) =>
              exists j, lid :: 0 <= j < |entries| && 0 <= lid < TotalWorkItems(p) && Writes(entries[j], lid, k)
            case _ => false;
          assert BiasStage(p)[i] == upload[i];
        }
        if StageWrites(upload, TotalWorkItems(p), k) {
          assert upload[1] == BiasStage(p)[1];
        }
      }
    }
    if CachedBias(k) in BiasOperands(p) {
      var s :| 0 <= s < |BiasOperands(p)| && BiasOperands(p)[s] == CachedBias(k);
    }
    if 0 <= k < p.blockSize.w {
      assert BiasOperands(p)[k] == CachedBias(k);
    }
    if p.srcDepthLoopSize >= 1 {
      MulMonotone(1, p.srcDepthLoopSize, p.blockSize.w * 4);
    }
  }
}
