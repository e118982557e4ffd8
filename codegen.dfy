/** The weight-handling parts of the kernel text that GenerateConv3D emits,
    modelled as statement sequences rather than text: the two local-memory
    upload emitters (GenerateUploadByThreads, GenerateAsyncUpload), the
    multiply-accumulate emitter GenerateConv, and the body of the kernel's
    slice loop, which stages one group of weights and then runs
    src_depth_loop_size unrolled accumulation steps.

    The lemmas say that the uploads fill the weight cache exactly once, that
    the accumulation steps read exactly the cache slots the upload filled (or,
    for textures, exactly the registers f0 .. f(4w-1) the texture reads
    declare), and that the do-while loop visits each source slice once when the
    unroll factor divides the slice count. */
module WeightCodegen {
  import opened Conv3DTypes
  import opened ParamSelector

  // ----- Sequence helpers -----

  /** How many times `for (int i = 0; i < n; ++i)` runs. */
  function Trips(n: int): nat {
    if n < 0 then 0 else n
  }

  function Flatten<T>(ss: seq<seq<T>>): seq<T>
    decreases |ss|
  {
    if |ss| == 0 then [] else Flatten(ss[..|ss| - 1]) + ss[|ss| - 1]
  }

  lemma FlattenSnoc<T>(ss: seq<seq<T>>, t: seq<T>)
    ensures Flatten(ss + [t]) == Flatten(ss) + t
  {
    assert (ss + [t])[..|ss|] == ss;
  }

  lemma SeqSnoc<T>(n: nat, f: int -> T)
    ensures seq(n + 1, f) == seq(n, f) + [f(n)]
  {
  }

  /** One more trip of a loop that appends f(i) on trip i. */
  lemma FlattenStep<T>(n: nat, f: int -> seq<T>)
    ensures Flatten(seq(n + 1, f)) == Flatten(seq(n, f)) + f(n)
  {
    SeqSnoc(n, f);
    FlattenSnoc(seq(n, f), f(n));
  }

  lemma {:induction false} FlattenMember<T>(ss: seq<seq<T>>, e: T)
    ensures e in Flatten(ss) <==> exists i {:trigger ss[i]} :: 0 <= i < |ss| && e in ss[i]
  {
    if |ss| > 0 {
      var init := ss[..|ss| - 1];
      FlattenMember(init, e);
      assert forall i :: 0 <= i < |init| ==> init[i] == ss[i];
      if e in Flatten(ss) && e !in ss[|ss| - 1] {
        var i :| 0 <= i < |init| && e in init[i];
        assert e in ss[i];
      }
    }
  }

  /** Element k of part i is an element of the flattening. */
  lemma FlattenHas<T>(ss: seq<seq<T>>, i: int, k: int)
    requires 0 <= i < |ss| && 0 <= k < |ss[i]|
    ensures ss[i][k] in Flatten(ss)
  {
    FlattenMember(ss, ss[i][k]);
  }

  // ----- Local-memory uploads -----

  /** The guard of one upload line: unconditional, or `if (lid < bound)`. */
  datatype Guard = Always | LidBelow(bound: int)

  /** One emitted line `local[lid + offset] = global[base + lid + offset];`. */
  datatype UploadEntry = UploadEntry(offset: int, guard: Guard)

  predicate GuardHolds(g: Guard, lid: int) {
    match g
    case Always => true
    case LidBelow(b) => lid < b
  }

  /** The thread with linear id `lid` writes local slot k through entry e. */
  predicate Writes(e: UploadEntry, lid: int, k: int) {
    GuardHolds(e.guard, lid) && lid + e.offset == k
  }

  /** What GenerateUploadByThreads emits for T threads and n elements: n / T
      full rounds at offsets 0, T, 2T, ..., then, when n % T != 0, one round
      at offset T * (n / T) guarded by lid < n % T. */
  function UploadPlan(totalWorkItems: int, elementsToUpload: int): seq<UploadEntry>
    requires totalWorkItems >= 1 && elementsToUpload >= 0
  {
    var groups := elementsToUpload / totalWorkItems;
    var reminder := elementsToUpload % totalWorkItems;
    seq(groups, i => UploadEntry(totalWorkItems * i, Always))
    + (if reminder != 0 then [UploadEntry(totalWorkItems * groups, LidBelow(reminder))] else [])
  }

  method GenerateUploadByThreads(totalWorkItems: int, elementsToUpload: int) returns (c: seq<UploadEntry>)
    requires totalWorkItems >= 1 && elementsToUpload >= 0
    ensures c == UploadPlan(totalWorkItems, elementsToUpload)
  {
    var groups := elementsToUpload / totalWorkItems;
    var reminder := elementsToUpload % totalWorkItems;
    c := [];
    var i := 0;
    while i < groups
      invariant 0 <= i <= groups
      invariant c == seq(i, j => UploadEntry(totalWorkItems * j, Always))
    {
      SeqSnoc(i, j => UploadEntry(totalWorkItems * j, Always));
      c := c + [UploadEntry(totalWorkItems * i, Always)];
      i := i + 1;
    }
    if reminder != 0 {
      c := c + [UploadEntry(totalWorkItems * groups, LidBelow(reminder))];
    }
  }

  /** Slot k of [0, n) lies in round k / T: a full round, or the last partial
      one with k % T below n % T. */
  lemma SlotRound(T: int, n: int, k: int)
    requires T >= 1 && 0 <= k < n
    ensures 0 <= k / T <= n / T
    ensures k / T == n / T ==> n % T != 0 && k % T < n % T
    ensures k == T * (k / T) + k % T
  {
    assert n == (n / T) * T + n % T;
    assert k == (k / T) * T + k % T;
    if k / T > n / T {
      MulMonotone(n / T + 1, k / T, T);
      assert false;
    }
  }

  /** Slot k of [0, n) is written by entry k / T of the plan, from thread k % T. */
  lemma UploadCoversEverySlot(totalWorkItems: int, elementsToUpload: int, k: int)
    requires totalWorkItems >= 1 && 0 <= k < elementsToUpload
    ensures var plan := UploadPlan(totalWorkItems, elementsToUpload);
            0 <= k / totalWorkItems < |plan| && Writes(plan[k / totalWorkItems], k % totalWorkItems, k)
  {
    var T, n := totalWorkItems, elementsToUpload;
    var plan := UploadPlan(T, n);
    SlotRound(T, n, k);
    if k / T < n / T {
      assert plan[k / T] == UploadEntry(T * (k / T), Always);
    } else {
      assert plan[k / T] == UploadEntry(T * (n / T), LidBelow(n % T));
    }
  }

  /** A write of entry i from thread lid lands on slot i * T + lid, inside [0, n). */
  lemma UploadWriteIsSlot(totalWorkItems: int, elementsToUpload: int, i: int, lid: int, k: int)
    requires totalWorkItems >= 1 && elementsToUpload >= 0
    requires var plan := UploadPlan(totalWorkItems, elementsToUpload);
             0 <= i < |plan| && 0 <= lid < totalWorkItems && Writes(plan[i], lid, k)
    ensures 0 <= k < elementsToUpload && i == k / totalWorkItems && lid == k % totalWorkItems
  {
    var T, n := totalWorkItems, elementsToUpload;
    var groups, reminder := n / T, n % T;
    assert n == groups * T + reminder;
    DivModUnique(k, T, i, lid);
    if i < groups {
      MulMonotone(i + 1, groups, T);
    }
  }

  /** Each of the T threads runs every entry of the plan; together they write
      every slot of [0, n) exactly once (by entry k / T, thread k % T) and
      nothing outside it. */
  lemma UploadWritesEachSlotOnce(totalWorkItems: int, elementsToUpload: int)
    requires totalWorkItems >= 1 && elementsToUpload >= 0
    ensures var plan := UploadPlan(totalWorkItems, elementsToUpload);
            && (forall k :: 0 <= k < elementsToUpload ==>
                  0 <= k / totalWorkItems < |plan| && Writes(plan[k / totalWorkItems], k % totalWorkItems, k))
            && (forall i, lid, k :: 0 <= i < |plan| && 0 <= lid < totalWorkItems && Writes(plan[i], lid, k) ==>
                  0 <= k < elementsToUpload && i == k / totalWorkItems && lid == k % totalWorkItems)
  {
    var plan := UploadPlan(totalWorkItems, elementsToUpload);
    forall k | 0 <= k < elementsToUpload
      ensures 0 <= k / totalWorkItems < |plan| && Writes(plan[k / totalWorkItems], k % totalWorkItems, k)
    {
      UploadCoversEverySlot(totalWorkItems, elementsToUpload, k);
    }
    forall i, lid, k | 0 <= i < |plan| && 0 <= lid < totalWorkItems && Writes(plan[i], lid, k)
      ensures 0 <= k < elementsToUpload && i == k / totalWorkItems && lid == k % totalWorkItems
    {
      UploadWriteIsSlot(totalWorkItems, elementsToUpload, i, lid, k);
    }
  }

  /** The work-item linear id of the by-threads upload, get_local_id(1) *
      work_group_size.x + get_local_id(0). With work_group_size.z == 1 it
      ranges over [0, x * y * z) exactly once per work item, so the T threads
      of the plan are the threads of the work group. */
  function LinearLid(wgs: Int3, lx: int, ly: int): int {
    ly * wgs.x + lx
  }

  lemma LinearLidBijective(wgs: Int3, lid: int)
    requires wgs.Positive() && wgs.z == 1 && 0 <= lid < wgs.x * wgs.y * wgs.z
    ensures 0 <= lid % wgs.x < wgs.x && 0 <= lid / wgs.x < wgs.y
    ensures LinearLid(wgs, lid % wgs.x, lid / wgs.x) == lid
    ensures forall lx, ly :: 0 <= lx < wgs.x && 0 <= ly < wgs.y && LinearLid(wgs, lx, ly) == lid ==>
              lx == lid % wgs.x && ly == lid / wgs.x
  {
    assert wgs.x * wgs.y * wgs.z == wgs.y * wgs.x;
    QuotientBelow(lid, wgs.x, wgs.y);
    assert lid == (lid / wgs.x) * wgs.x + lid % wgs.x;
    forall lx, ly | 0 <= lx < wgs.x && 0 <= ly < wgs.y && LinearLid(wgs, lx, ly) == lid
      ensures lx == lid % wgs.x && ly == lid / wgs.x
    {
      DivModUnique(lid, wgs.x, ly, lx);
    }
  }

  /** Every configuration that uploads by threads has a single z layer in its
      work group, which LinearLid needs. */
  lemma ByThreadsHasFlatWorkGroup(device: DeviceFamily, precision: Precision, srcSlices: nat,
                                  dstSlices: nat, x1: bool, y1: bool, z1: bool)
    ensures var p := SelectedParams(device, precision, srcSlices, dstSlices, x1, y1, z1);
            p.weightsUploadType == LocalMemByThreads ==> p.workGroupSize.z == 1
  {
  }

  /** `async_work_group_copy(local, global + offset, count, 0)`. */
  datatype AsyncCopy = AsyncCopy(count: int)

  /** GenerateAsyncUpload: one copy of all the elements. */
  function GenerateAsyncUpload(elementsToUpload: int): (c: AsyncCopy)
  {
    AsyncCopy(elementsToUpload)
  }

  /** The two upload strategies fill the same slots: the async copy writes slot
      k exactly when some thread of the by-threads plan does. */
  lemma AsyncMatchesByThreads(totalWorkItems: int, elementsToUpload: int, k: int)
    requires totalWorkItems >= 1 && elementsToUpload >= 0
    ensures var plan := UploadPlan(totalWorkItems, elementsToUpload);
            (0 <= k < GenerateAsyncUpload(elementsToUpload).count)
            <==> exists i, lid :: 0 <= i < |plan| && 0 <= lid < totalWorkItems && Writes(plan[i], lid, k)
  {
    UploadWritesEachSlotOnce(totalWorkItems, elementsToUpload);
    if 0 <= k < elementsToUpload {
      var plan := UploadPlan(totalWorkItems, elementsToUpload);
      assert Writes(plan[k / totalWorkItems], k % totalWorkItems, k);
    }
  }

  // ----- Accumulation statements (GenerateConv) -----

  /** The accumulator r{s}{z}{y}{x}. */
  datatype Cell = Cell(s: int, z: int, y: int, x: int)

  /** A weight operand: weights_cache[i] for buffers, register f{i} for textures. */
  datatype WeightRef = CacheSlot(index: int) | FilterReg(index: int)

  /** `r += w * src.{x,y,z,w}[channel]` (F32, F16), or the four-weight dot form
      of F32_F16. */
  datatype AccumStmt =
    | ScalarMac(cell: Cell, weight: WeightRef, channel: int)
    | DotMac(cell: Cell, weights: seq<WeightRef>)

  function WeightName(id: int, weightsAreBuffer: bool): WeightRef {
    if weightsAreBuffer then CacheSlot(id) else FilterReg(id)
  }

  /** The weights a statement reads. */
  function Refs(st: AccumStmt): seq<WeightRef> {
    match st
    case ScalarMac(_, w, _) => [w]
    case DotMac(_, ws) => ws
  }

  /** Whether some statement of `stmts` reads weight r. */
  predicate ReadsWeight(stmts: seq<AccumStmt>, r: WeightRef) {
    exists st, j :: st in stmts && 0 <= j < |Refs(st)| && Refs(st)[j] == r
  }

  lemma ReadsWeightIntro(stmts: seq<AccumStmt>, st: AccumStmt, j: int)
    requires st in stmts && 0 <= j < |Refs(st)|
    ensures ReadsWeight(stmts, Refs(st)[j])
  {
  }

  /** A statement of GenerateConv apart from its z, y, x position. */
  datatype StmtShape =
    | ScalarShape(s: int, weight: WeightRef, channel: int)
    | DotShape(s: int, weights: seq<WeightRef>)

  function Place(shape: StmtShape, z: int, y: int, x: int): AccumStmt {
    match shape
    case ScalarShape(s, w, ch) => ScalarMac(Cell(s, z, y, x), w, ch)
    case DotShape(s, ws) => DotMac(Cell(s, z, y, x), ws)
  }

  function RowStmts(shape: StmtShape, z: int, y: int, nx: int): seq<AccumStmt> {
    seq(Trips(nx), x => Place(shape, z, y, x))
  }

  function PlaneStmts(shape: StmtShape, z: int, ny: int, nx: int): seq<AccumStmt> {
    Flatten(seq(Trips(ny), y => RowStmts(shape, z, y, nx)))
  }

  /** The statements of one shape for every cell of a block, in z, y, x order. */
  function BlockStmts(shape: StmtShape, nz: int, ny: int, nx: int): seq<AccumStmt> {
    Flatten(seq(Trips(nz), z => PlaneStmts(shape, z, ny, nx)))
  }

  lemma PlaneMember(shape: StmtShape, z: int, ny: int, nx: int, e: AccumStmt)
    ensures e in PlaneStmts(shape, z, ny, nx) <==>
            exists y, x :: 0 <= y < ny && 0 <= x < nx && e == Place(shape, z, y, x)
  {
    var rows := seq(Trips(ny), y => RowStmts(shape, z, y, nx));
    FlattenMember(rows, e);
    if exists y, x :: 0 <= y < ny && 0 <= x < nx && e == Place(shape, z, y, x) {
      var y, x :| 0 <= y < ny && 0 <= x < nx && e == Place(shape, z, y, x);
      assert rows[y][x] == e;
    }
  }

  lemma BlockMember(shape: StmtShape, nz: int, ny: int, nx: int, e: AccumStmt)
    ensures e in BlockStmts(shape, nz, ny, nx) <==>
            exists z, y, x :: 0 <= z < nz && 0 <= y < ny && 0 <= x < nx && e == Place(shape, z, y, x)
  {
    var planes := seq(Trips(nz), z => PlaneStmts(shape, z, ny, nx));
    FlattenMember(planes, e);
    if e in BlockStmts(shape, nz, ny, nx) {
      var z :| 0 <= z < |planes| && e in planes[z];
      PlaneMember(shape, z, ny, nx, e);
    }
    if exists z, y, x :: 0 <= z < nz && 0 <= y < ny && 0 <= x < nx && e == Place(shape, z, y, x) {
      var z, y, x :| 0 <= z < nz && 0 <= y < ny && 0 <= x < nx && e == Place(shape, z, y, x);
      PlaneMember(shape, z, ny, nx, e);
      assert e in planes[z];
    }
  }

  lemma BlockCount(shape: StmtShape, nz: int, ny: int, nx: int)
    ensures |BlockStmts(shape, nz, ny, nx)| == Trips(nz) * (Trips(ny) * Trips(nx))
  {
    forall z | 0 <= z < Trips(nz) ensures |PlaneStmts(shape, z, ny, nx)| == Trips(ny) * Trips(nx) {
      FlattenLength(seq(Trips(ny), y => RowStmts(shape, z, y, nx)), Trips(nx));
    }
    FlattenLength(seq(Trips(nz), z => PlaneStmts(shape, z, ny, nx)), Trips(ny) * Trips(nx));
  }

  lemma {:induction false} FlattenLength<T>(ss: seq<seq<T>>, m: nat)
    requires forall i :: 0 <= i < |ss| ==> |ss[i]| == m
    ensures |Flatten(ss)| == |ss| * m
  {
    if |ss| > 0 {
      FlattenLength(ss[..|ss| - 1], m);
    }
  }

  /** The innermost `for x` loop. */
  method EmitRow(shape: StmtShape, z: int, y: int, nx: int) returns (c: seq<AccumStmt>)
    ensures c == RowStmts(shape, z, y, nx)
  {
    c := [];
    var x := 0;
    while x < nx
      invariant 0 <= x <= Trips(nx)
      invariant c == seq(x, x' => Place(shape, z, y, x'))
    {
      SeqSnoc(x, x' => Place(shape, z, y, x'));
      c := c + [Place(shape, z, y, x)];
      x := x + 1;
    }
  }

  /** The `for y` loop around EmitRow. */
  method EmitPlane(shape: StmtShape, z: int, ny: int, nx: int) returns (c: seq<AccumStmt>)
    ensures c == PlaneStmts(shape, z, ny, nx)
  {
    c := [];
    var y := 0;
    while y < ny
      invariant 0 <= y <= Trips(ny)
      invariant c == Flatten(seq(y, y' => RowStmts(shape, z, y', nx)))
    {
      var row := EmitRow(shape, z, y, nx);
      FlattenStep(y, y' => RowStmts(shape, z, y', nx));
      c := c + row;
      y := y + 1;
    }
  }

  /** The `for z` loop around EmitPlane: the z, y, x nest of both precisions. */
  method EmitBlock(shape: StmtShape, nz: int, ny: int, nx: int) returns (c: seq<AccumStmt>)
    ensures c == BlockStmts(shape, nz, ny, nx)
  {
    c := [];
    var z := 0;
    while z < nz
      invariant 0 <= z <= Trips(nz)
      invariant c == Flatten(seq(z, z' => PlaneStmts(shape, z', ny, nx)))
    {
      var plane := EmitPlane(shape, z, ny, nx);
      FlattenStep(z, z' => PlaneStmts(shape, z', ny, nx));
      c := c + plane;
      z := z + 1;
    }
  }

  /** Channel ch of output slice s reads weight s * 4 + ch + offset. */
  function ChannelShape(s: int, ch: int, offset: int, weightsAreBuffer: bool): StmtShape {
    ScalarShape(s, WeightName(s * 4 + ch + offset, weightsAreBuffer), ch)
  }

  /** The four weights of output slice s in the dot form: ids s * 4 + i + offset. */
  function DotWeights(s: int, offset: int, weightsAreBuffer: bool): seq<WeightRef> {
    seq(4, i => WeightName(s * 4 + i + offset, weightsAreBuffer))
  }

  function ScalarSliceStmts(s: int, block: Int4, offset: int, weightsAreBuffer: bool): seq<AccumStmt> {
    Flatten(seq(4, ch => BlockStmts(ChannelShape(s, ch, offset, weightsAreBuffer), block.z, block.y, block.x)))
  }

  function SliceStmts(precision: Precision, s: int, block: Int4, offset: int, weightsAreBuffer: bool)
    : seq<AccumStmt>
  {
    if precision == F32F16 then
      BlockStmts(DotShape(s, DotWeights(s, offset, weightsAreBuffer)), block.z, block.y, block.x)
    else
      ScalarSliceStmts(s, block, offset, weightsAreBuffer)
  }

  /** What GenerateConv emits, output slice by output slice. */
  function ConvStmts(precision: Precision, block: Int4, offset: int, weightsAreBuffer: bool): seq<AccumStmt> {
    Flatten(seq(Trips(block.w), s => SliceStmts(precision, s, block, offset, weightsAreBuffer)))
  }

  /** The `for ch` loop of the F32 / F16 case. */
  method EmitScalarSlice(s: int, block: Int4, offset: int, weightsAreBuffer: bool) returns (c: seq<AccumStmt>)
    ensures c == ScalarSliceStmts(s, block, offset, weightsAreBuffer)
  {
    c := [];
    var ch := 0;
    while ch < 4
      invariant 0 <= ch <= 4
      invariant c == Flatten(seq(ch, ch' => BlockStmts(ChannelShape(s, ch', offset, weightsAreBuffer),
                                                      block.z, block.y, block.x)))
    {
      var stmts := EmitBlock(ChannelShape(s, ch, offset, weightsAreBuffer), block.z, block.y, block.x);
      FlattenStep(ch, ch' => BlockStmts(ChannelShape(s, ch', offset, weightsAreBuffer), block.z, block.y, block.x));
      c := c + stmts;
      ch := ch + 1;
    }
  }

  /** One output slice of GenerateConv: the dot form for F32_F16, else the `for ch` loop. */
  method EmitSlice(precision: Precision, s: int, block: Int4, offset: int, weightsAreBuffer: bool)
    returns (c: seq<AccumStmt>)
    ensures c == SliceStmts(precision, s, block, offset, weightsAreBuffer)
  {
    if precision == F32F16 {
      var weightNames := DotWeights(s, offset, weightsAreBuffer);
      c := EmitBlock(DotShape(s, weightNames), block.z, block.y, block.x);
    } else {
      c := EmitScalarSlice(s, block, offset, weightsAreBuffer);
    }
  }

  method GenerateConv(precision: Precision, block: Int4, offset: int, weightsAreBuffer: bool)
    returns (c: seq<AccumStmt>)
    ensures c == ConvStmts(precision, block, offset, weightsAreBuffer)
  {
    ghost var slices := s' => SliceStmts(precision, s', block, offset, weightsAreBuffer);
    c := [];
    var s := 0;
    while s < block.w
      invariant 0 <= s <= Trips(block.w)
      invariant c == Flatten(seq(s, slices))
    {
      var stmts := EmitSlice(precision, s, block, offset, weightsAreBuffer);
      FlattenStep(s, slices);
      c := c + stmts;
      s := s + 1;
    }
  }

  predicate InBlock(cell: Cell, block: Int4) {
    0 <= cell.s < block.w && 0 <= cell.z < block.z && 0 <= cell.y < block.y && 0 <= cell.x < block.x
  }

  /** The statements GenerateConv is meant to emit: for every accumulator of
      the block, channel ch of the source is weighted by weight s * 4 + ch +
      offset (F32, F16), or all four channels at once (F32_F16). */
  predicate ExpectedStmt(precision: Precision, block: Int4, offset: int, weightsAreBuffer: bool,
                         st: AccumStmt)
  {
    InBlock(st.cell, block) &&
    match st
    case ScalarMac(cell, w, ch) =>
      precision != F32F16 && 0 <= ch < 4 && w == WeightName(cell.s * 4 + ch + offset, weightsAreBuffer)
    case DotMac(cell, ws) =>
      precision == F32F16 && ws == DotWeights(cell.s, offset, weightsAreBuffer)
  }

  /** A statement of channel ch's block is a scalar statement of channel ch. */
  lemma ScalarSliceSound(s: int, block: Int4, offset: int, weightsAreBuffer: bool, st: AccumStmt)
    requires 0 <= s < block.w && st in ScalarSliceStmts(s, block, offset, weightsAreBuffer)
    ensures st.cell.s == s && ExpectedStmt(F32, block, offset, weightsAreBuffer, st)
  {
    var chans := seq(4, ch => BlockStmts(ChannelShape(s, ch, offset, weightsAreBuffer), block.z, block.y, block.x));
    FlattenMember(chans, st);
    var ch :| 0 <= ch < 4 && st in chans[ch];
    BlockMember(ChannelShape(s, ch, offset, weightsAreBuffer), block.z, block.y, block.x, st);
  }

  /** An expected scalar statement of slice s sits in the block of its channel. */
  lemma ScalarSliceComplete(s: int, block: Int4, offset: int, weightsAreBuffer: bool, st: AccumStmt)
    requires 0 <= s < block.w && st.cell.s == s && ExpectedStmt(F32, block, offset, weightsAreBuffer, st)
    ensures st in ScalarSliceStmts(s, block, offset, weightsAreBuffer)
  {
    var chans := seq(4, ch => BlockStmts(ChannelShape(s, ch, offset, weightsAreBuffer), block.z, block.y, block.x));
    var c := st.cell;
    var ch := st.channel;
    assert st == Place(ChannelShape(s, ch, offset, weightsAreBuffer), c.z, c.y, c.x);
    BlockMember(ChannelShape(s, ch, offset, weightsAreBuffer), block.z, block.y, block.x, st);
    assert st in chans[ch];
    FlattenMember(chans, st);
  }

  lemma ScalarSliceMember(s: int, block: Int4, offset: int, weightsAreBuffer: bool, st: AccumStmt)
    requires 0 <= s < block.w
    ensures st in ScalarSliceStmts(s, block, offset, weightsAreBuffer)
            <==> st.cell.s == s && ExpectedStmt(F32, block, offset, weightsAreBuffer, st)
  {
    if st in ScalarSliceStmts(s, block, offset, weightsAreBuffer) {
      ScalarSliceSound(s, block, offset, weightsAreBuffer, st);
    }
    if st.cell.s == s && ExpectedStmt(F32, block, offset, weightsAreBuffer, st) {
      ScalarSliceComplete(s, block, offset, weightsAreBuffer, st);
    }
  }

  lemma SliceMember(precision: Precision, s: int, block: Int4, offset: int, weightsAreBuffer: bool,
                    st: AccumStmt)
    requires 0 <= s < block.w
    ensures st in SliceStmts(precision, s, block, offset, weightsAreBuffer)
            <==> st.cell.s == s && ExpectedStmt(precision, block, offset, weightsAreBuffer, st)
  {
    if precision == F32F16 {
      var shape := DotShape(s, DotWeights(s, offset, weightsAreBuffer));
      BlockMember(shape, block.z, block.y, block.x, st);
      if st.cell.s == s && ExpectedStmt(precision, block, offset, weightsAreBuffer, st) {
        assert st == Place(shape, st.cell.z, st.cell.y, st.cell.x);
      }
    } else {
      ScalarSliceMember(s, block, offset, weightsAreBuffer, st);
    }
  }

  /** GenerateConv emits exactly the expected statements. */
  lemma ConvStmtsExactly(precision: Precision, block: Int4, offset: int, weightsAreBuffer: bool,
                         st: AccumStmt)
    ensures st in ConvStmts(precision, block, offset, weightsAreBuffer)
            <==> ExpectedStmt(precision, block, offset, weightsAreBuffer, st)
  {
    var slices := seq(Trips(block.w), s => SliceStmts(precision, s, block, offset, weightsAreBuffer));
    FlattenMember(slices, st);
    if st in ConvStmts(precision, block, offset, weightsAreBuffer) {
      var s :| 0 <= s < |slices| && st in slices[s];
      SliceMember(precision, s, block, offset, weightsAreBuffer, st);
    }
    if ExpectedStmt(precision, block, offset, weightsAreBuffer, st) {
      SliceMember(precision, st.cell.s, block, offset, weightsAreBuffer, st);
      assert st in slices[st.cell.s];
    }
  }

  /** GenerateConv emits one statement per accumulator and channel (F32, F16)
      or one per accumulator (F32_F16). */
  /** Each output slice emits one statement per cell and channel (one per cell in the dot form). */
  lemma SliceStmtsCount(precision: Precision, s: int, block: Int4, offset: int, weightsAreBuffer: bool)
    requires block.Positive()
    ensures |SliceStmts(precision, s, block, offset, weightsAreBuffer)|
            == (if precision == F32F16 then 1 else 4) * (block.z * (block.y * block.x))
  {
    var cells := block.z * (block.y * block.x);
    if precision == F32F16 {
      BlockCount(DotShape(s, DotWeights(s, offset, weightsAreBuffer)), block.z, block.y, block.x);
    } else {
      forall ch | 0 <= ch < 4
        ensures |BlockStmts(ChannelShape(s, ch, offset, weightsAreBuffer), block.z, block.y, block.x)| == cells
      {
        BlockCount(ChannelShape(s, ch, offset, weightsAreBuffer), block.z, block.y, block.x);
      }
      FlattenLength(seq(4, ch => BlockStmts(ChannelShape(s, ch, offset, weightsAreBuffer),
                                            block.z, block.y, block.x)), cells);
    }
  }

  /** Every output slice of GenerateConv is `per` statements long. */
  lemma SlicesCount(precision: Precision, block: Int4, offset: int, weightsAreBuffer: bool, per: int)
    requires block.Positive() && per == (if precision == F32F16 then 1 else 4) * (block.z * (block.y * block.x))
    ensures forall s :: 0 <= s < block.w ==> |SliceStmts(precision, s, block, offset, weightsAreBuffer)| == per
  {
    forall s | 0 <= s < block.w
      ensures |SliceStmts(precision, s, block, offset, weightsAreBuffer)| == per
    {
      SliceStmtsCount(precision, s, block, offset, weightsAreBuffer);
    }
  }

  lemma ConvStmtsCount(precision: Precision, block: Int4, offset: int, weightsAreBuffer: bool)
    requires block.Positive()
    ensures |ConvStmts(precision, block, offset, weightsAreBuffer)|
            == block.w * ((if precision == F32F16 then 1 else 4) * (block.z * (block.y * block.x)))
  {
    var per := (if precision == F32F16 then 1 else 4) * (block.z * (block.y * block.x));
    SlicesCount(precision, block, offset, weightsAreBuffer, per);
    FlattenLength(seq(Trips(block.w), s => SliceStmts(precision, s, block, offset, weightsAreBuffer)), per);
  }

  /** The channel a statement's j-th weight belongs to. */
  function RefChannel(st: AccumStmt, j: int): int {
    if st.ScalarMac? then st.channel else j
  }

  /** An expected statement reads only weights of its own output slice. */
  lemma ExpectedStmtRefs(precision: Precision, block: Int4, offset: int, weightsAreBuffer: bool,
                         st: AccumStmt, j: int)
    requires ExpectedStmt(precision, block, offset, weightsAreBuffer, st) && 0 <= j < |Refs(st)|
    ensures 0 <= RefChannel(st, j) < 4
    ensures Refs(st)[j] == WeightName(st.cell.s * 4 + RefChannel(st, j) + offset, weightsAreBuffer)
  {
    if st.DotMac? {
      assert Refs(st)[j] == DotWeights(st.cell.s, offset, weightsAreBuffer)[j];
    }
  }

  /** Every weight GenerateConv reads has an id in [offset, offset + 4w) and
      the kind the storage calls for. */
  lemma ConvReadsOnlyWindow(precision: Precision, block: Int4, offset: int, weightsAreBuffer: bool,
                            r: WeightRef)
    requires ReadsWeight(ConvStmts(precision, block, offset, weightsAreBuffer), r)
    ensures r == WeightName(r.index, weightsAreBuffer) && offset <= r.index < offset + 4 * block.w
  {
    var st, j :| st in ConvStmts(precision, block, offset, weightsAreBuffer)
                 && 0 <= j < |Refs(st)| && Refs(st)[j] == r;
    ConvStmtsExactly(precision, block, offset, weightsAreBuffer, st);
    ExpectedStmtRefs(precision, block, offset, weightsAreBuffer, st, j);
    MulMonotone(st.cell.s + 1, block.w, 4);
  }

  /** An id of the window belongs to output slice rel / 4 and channel rel % 4. */
  lemma SplitWeightId(rel: int, w: int)
    requires 0 <= rel < 4 * w
    ensures 0 <= rel / 4 < w && 0 <= rel % 4 < 4 && rel == (rel / 4) * 4 + rel % 4
  {
    QuotientBelow(rel, 4, w);
  }

  /** Weight s * 4 + k + offset, for an output slice s of the block and a channel
      k, is read by the statement of cell (s, 0, 0, 0). */
  lemma ReadsSliceChannel(precision: Precision, block: Int4, offset: int, weightsAreBuffer: bool,
                          s: int, k: int)
    requires block.Positive() && 0 <= s < block.w && 0 <= k < 4
    ensures ReadsWeight(ConvStmts(precision, block, offset, weightsAreBuffer),
                        WeightName(s * 4 + k + offset, weightsAreBuffer))
  {
    var cell := Cell(s, 0, 0, 0);
    var stmts := ConvStmts(precision, block, offset, weightsAreBuffer);
    if precision == F32F16 {
      var st := DotMac(cell, DotWeights(s, offset, weightsAreBuffer));
      ConvStmtsExactly(precision, block, offset, weightsAreBuffer, st);
      ReadsWeightIntro(stmts, st, k);
    } else {
      var st := ScalarMac(cell, WeightName(s * 4 + k + offset, weightsAreBuffer), k);
      ConvStmtsExactly(precision, block, offset, weightsAreBuffer, st);
      ReadsWeightIntro(stmts, st, 0);
    }
  }

  /** Every weight id in [offset, offset + 4w) is read by some statement. */
  lemma ConvReadsWholeWindow(precision: Precision, block: Int4, offset: int, weightsAreBuffer: bool, id: int)
    requires block.Positive() && offset <= id < offset + 4 * block.w
    ensures ReadsWeight(ConvStmts(precision, block, offset, weightsAreBuffer), WeightName(id, weightsAreBuffer))
  {
    var rel := id - offset;
    SplitWeightId(rel, block.w);
    ReadsSliceChannel(precision, block, offset, weightsAreBuffer, rel / 4, rel % 4);
  }

  /** The weights one GenerateConv call reads are exactly ids offset ..
      offset + 4w - 1, of the kind the storage calls for. */
  lemma ConvWeightWindow(precision: Precision, block: Int4, offset: int, weightsAreBuffer: bool, r: WeightRef)
    requires block.Positive()
    ensures ReadsWeight(ConvStmts(precision, block, offset, weightsAreBuffer), r)
            <==> r == WeightName(r.index, weightsAreBuffer) && offset <= r.index < offset + 4 * block.w
  {
    if ReadsWeight(ConvStmts(precision, block, offset, weightsAreBuffer), r) {
      ConvReadsOnlyWindow(precision, block, offset, weightsAreBuffer, r);
    }
    if r == WeightName(r.index, weightsAreBuffer) && offset <= r.index < offset + 4 * block.w {
      ConvReadsWholeWindow(precision, block, offset, weightsAreBuffer, r.index);
    }
  }
}
