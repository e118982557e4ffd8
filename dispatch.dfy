/** The dispatch planner (Conv3D::GetGridSize) and the work-item coordinate
    decoding that the generated kernel performs (GenerateGlobalCoordinates).

    The planner sizes a 3-D launch: work items per logical axis (x: width times
    batch, y: height, z: output-slice blocks fused with depth blocks), then work
    groups per logical axis, then each physical axis gets the group count of the
    logical axis the launch order assigns to it. The kernel undoes the
    permutation through launch_remap and splits the fused z id with
    `% grid_size_s` and `/ grid_size_s`. The main theorems say that, for a launch
    order that is a permutation, every element of the destination tensor is
    written by exactly one launched work item. */
module DispatchPlanner {
  import opened Conv3DTypes

  /** The destination tensor dimensions the planner and the kernel read. */
  datatype DstShape = DstShape(width: nat, height: nat, depth: nat, slices: nat, batch: nat)

  predicate PlannerReady(p: ConvParams) {
    p.blockSize.Positive() && p.workGroupSize.Positive() && ValidOrder(p.workGroupLaunchOrder)
  }

  /** grid_size_s: output-slice blocks, the divisor of the fused z id (bound by BindArguments). */
  function GridSizeS(p: ConvParams, dst: DstShape): int
    requires p.blockSize.Positive()
  {
    DivideRoundUp(dst.slices, p.blockSize.w)
  }

  /** Depth blocks: the other factor of the fused z extent. */
  function DepthBlocks(p: ConvParams, dst: DstShape): int
    requires p.blockSize.Positive()
  {
    DivideRoundUp(dst.depth, p.blockSize.z)
  }

  /** grid_x, grid_y, grid_z: the work items each logical axis needs. */
  function WorkItemCounts(p: ConvParams, dst: DstShape): (g: Int3)
    requires p.blockSize.Positive()
    ensures g.x >= 0 && g.y >= 0 && g.z >= 0
    ensures g.x * p.blockSize.x >= dst.width * dst.batch
    ensures g.y * p.blockSize.y >= dst.height
    ensures g.z == GridSizeS(p, dst) * DepthBlocks(p, dst)
  {
    Int3(DivideRoundUp(dst.width * dst.batch, p.blockSize.x),
         DivideRoundUp(dst.height, p.blockSize.y),
         GridSizeS(p, dst) * DepthBlocks(p, dst))
  }

  /** wg: the work groups each logical axis needs. */
  function GroupCounts(p: ConvParams, dst: DstShape): (wg: Int3)
    requires PlannerReady(p)
    ensures wg.x >= 0 && wg.y >= 0 && wg.z >= 0
    ensures wg.x * p.workGroupSize.x >= WorkItemCounts(p, dst).x
    ensures wg.y * p.workGroupSize.y >= WorkItemCounts(p, dst).y
    ensures wg.z * p.workGroupSize.z >= WorkItemCounts(p, dst).z
  {
    var g := WorkItemCounts(p, dst);
    Int3(DivideRoundUp(g.x, p.workGroupSize.x),
         DivideRoundUp(g.y, p.workGroupSize.y),
         DivideRoundUp(g.z, p.workGroupSize.z))
  }

  /** k * d is a multiple of d, with quotient k. */
  lemma MultipleOf(k: int, d: int)
    requires d >= 1
    ensures (k * d) % d == 0 && (k * d) / d == k
  {
    DivModUnique(k * d, d, k, 0);
  }

  /** Conv3D::GetGridSize: physical axis j launches wg[order[j]] groups of
      work_group_size[j] threads; every result is a non-negative multiple of
      that axis's work-group size, with quotient the group count of the
      logical axis the order puts there. */
  function GetGridSize(p: ConvParams, dst: DstShape): (r: Int3)
    requires PlannerReady(p)
    ensures forall j :: 0 <= j < 3 ==>
              r.At(j) >= 0 && r.At(j) % p.workGroupSize.At(j) == 0
              && r.At(j) / p.workGroupSize.At(j) == GroupCounts(p, dst).At(p.workGroupLaunchOrder.At(j))
  {
    var wg := GroupCounts(p, dst);
    var o := p.workGroupLaunchOrder;
    var s := p.workGroupSize;
    MultipleOf(wg.At(o.x), s.x);
    MultipleOf(wg.At(o.y), s.y);
    MultipleOf(wg.At(o.z), s.z);
    Int3(wg.At(o.x) * s.x, wg.At(o.y) * s.y, wg.At(o.z) * s.z)
  }

  // ----- launch_remap and the coordinate plan -----

  /** launch_remap: zero-initialised, then remap[order.x] = 0, remap[order.y] = 1,
      remap[order.z] = 2. For a permutation it is the inverse permutation. */
  function LaunchRemap(order: Int3): (remap: Int3)
    requires ValidOrder(order)
    ensures IsPermutation(order) ==>
              IsPermutation(remap)
              && (forall a :: 0 <= a < 3 ==> order.At(remap.At(a)) == a)
              && (forall j :: 0 <= j < 3 ==> remap.At(order.At(j)) == j)
  {
    Int3(0, 0, 0).With(order.x, 0).With(order.y, 1).With(order.z, 2)
  }

  /** Where a logical axis takes its id from: get_global_id of its own axis, or
      get_group_id of another physical axis combined with its own local id. */
  datatype AxisSource = GlobalId | GroupOnAxis(physical: int)

  /** The integer content of the coordinate code GenerateGlobalCoordinates emits. */
  datatype CoordinatePlan = CoordinatePlan(x: AxisSource, y: AxisSource, z: AxisSource, block: Int4)

  function SourceOf(plan: CoordinatePlan, a: int): AxisSource
    requires 0 <= a < 3
  {
    if a == 0 then plan.x else if a == 1 then plan.y else plan.z
  }

  /** The physical axis whose group id logical axis `a` reads. */
  function PhysicalAxisOf(plan: CoordinatePlan, a: int): int
    requires 0 <= a < 3
  {
    match SourceOf(plan, a)
    case GlobalId => a
    case GroupOnAxis(j) => j
  }

  predicate PlanWellFormed(plan: CoordinatePlan) {
    forall a :: 0 <= a < 3 ==> 0 <= PhysicalAxisOf(plan, a) < 3
  }

  /** GenerateGlobalCoordinates: an axis left in place by the order reads its
      global id; a moved axis reads the group id of physical axis remap[a]. In
      both cases, for a permutation order, logical axis a reads the group id of
      physical axis remap[a], the axis GetGridSize sized with wg[a] groups. */
  function GenerateGlobalCoordinates(block: Int4, order: Int3): (plan: CoordinatePlan)
    requires ValidOrder(order)
    ensures PlanWellFormed(plan) && plan.block == block
    ensures IsPermutation(order) ==>
              forall a :: 0 <= a < 3 ==> PhysicalAxisOf(plan, a) == LaunchRemap(order).At(a)
  {
    var remap := LaunchRemap(order);
    assert ValidOrder(remap);
    CoordinatePlan(
      if order.x == 0 then GlobalId else GroupOnAxis(remap.x),
      if order.y == 1 then GlobalId else GroupOnAxis(remap.y),
      if order.z == 2 then GlobalId else GroupOnAxis(remap.z),
      block)
  }

  // ----- Work items and the coordinates they decode -----

  /** One launched thread: its group id and its local id on each physical axis. */
  datatype WorkItem = WorkItem(group: Int3, local: Int3)

  /** The work items that a launch of `global` threads in groups of `wgs` starts. */
  predicate InDispatch(global: Int3, wgs: Int3, item: WorkItem)
    requires wgs.Positive()
  {
    && 0 <= item.group.x < global.x / wgs.x
    && 0 <= item.group.y < global.y / wgs.y
    && 0 <= item.group.z < global.z / wgs.z
    && 0 <= item.local.x < wgs.x
    && 0 <= item.local.y < wgs.y
    && 0 <= item.local.z < wgs.z
  }

  /** The id of logical axis a: group id of its physical axis times get_local_size(a),
      plus get_local_id(a) (get_global_id(a) when the axis is in place). */
  function LogicalId(plan: CoordinatePlan, wgs: Int3, item: WorkItem, a: int): int
    requires PlanWellFormed(plan) && 0 <= a < 3
  {
    item.group.At(PhysicalAxisOf(plan, a)) * wgs.At(a) + item.local.At(a)
  }

  /** DST_X, DST_Y, DST_S and DST_Z of a work item. */
  datatype DstCoord = DstCoord(x: int, y: int, s: int, z: int)

  function DecodeDst(plan: CoordinatePlan, wgs: Int3, gridSizeS: int, item: WorkItem): DstCoord
    requires PlanWellFormed(plan) && gridSizeS >= 1
  {
    var linearZ := LogicalId(plan, wgs, item, 2);
    DstCoord(LogicalId(plan, wgs, item, 0) * plan.block.x,
             LogicalId(plan, wgs, item, 1) * plan.block.y,
             (linearZ % gridSizeS) * plan.block.w,
             (linearZ / gridSizeS) * plan.block.z)
  }

  /** One output element: x (batch folded into width), y, z and slice s. */
  datatype Element = Element(x: int, y: int, z: int, s: int)

  predicate InTensor(dst: DstShape, e: Element) {
    && 0 <= e.x < dst.width * dst.batch
    && 0 <= e.y < dst.height
    && 0 <= e.z < dst.depth
    && 0 <= e.s < dst.slices
  }

  /** Whether the write-out code of a work item at `c` stores element e: the
      element lies in the item's block, the slice guard `DST_S + s < Slices`
      holds and so do the width, height and depth guards (the early exit on
      DST_X, DST_Y, DST_Z is implied by these). */
  predicate WritesElement(c: DstCoord, block: Int4, dst: DstShape, e: Element) {
    && c.x <= e.x < c.x + block.x
    && c.y <= e.y < c.y + block.y
    && c.z <= e.z < c.z + block.z
    && c.s <= e.s < c.s + block.w
    && e.s < dst.slices
    && e.x < dst.width * dst.batch && e.y < dst.height && e.z < dst.depth
  }

  /** The fused z id splits into (slice block, depth block) = (id % G, id / G). */
  function DecodeFusedZ(linearZ: int, gridSizeS: int): (r: (int, int))
    requires gridSizeS >= 1
  {
    (linearZ % gridSizeS, linearZ / gridSizeS)
  }

  function EncodeFusedZ(sliceBlock: int, depthBlock: int, gridSizeS: int): int {
    depthBlock * gridSizeS + sliceBlock
  }

  /** Decoding maps [0, G * Dz) into [0, G) x [0, Dz) and encoding undoes it. */
  lemma FusedZDecodeInRange(linearZ: int, gridSizeS: int, depthBlocks: int)
    requires gridSizeS >= 1 && 0 <= linearZ < gridSizeS * depthBlocks
    ensures var (sb, zb) := DecodeFusedZ(linearZ, gridSizeS);
            0 <= sb < gridSizeS && 0 <= zb < depthBlocks && EncodeFusedZ(sb, zb, gridSizeS) == linearZ
  {
    assert linearZ == (linearZ / gridSizeS) * gridSizeS + linearZ % gridSizeS;
    assert gridSizeS * depthBlocks == depthBlocks * gridSizeS;
    QuotientBelow(linearZ, gridSizeS, depthBlocks);
  }

  /** Encoding maps [0, G) x [0, Dz) into [0, G * Dz) and decoding undoes it:
      together with FusedZDecodeInRange, the split is a bijection. */
  lemma FusedZEncodeInRange(sliceBlock: int, depthBlock: int, gridSizeS: int, depthBlocks: int)
    requires gridSizeS >= 1 && 0 <= sliceBlock < gridSizeS && 0 <= depthBlock < depthBlocks
    ensures var linearZ := EncodeFusedZ(sliceBlock, depthBlock, gridSizeS);
            0 <= linearZ < gridSizeS * depthBlocks
            && DecodeFusedZ(linearZ, gridSizeS) == (sliceBlock, depthBlock)
  {
    var linearZ := EncodeFusedZ(sliceBlock, depthBlock, gridSizeS);
    DivModUnique(linearZ, gridSizeS, depthBlock, sliceBlock);
    MulMonotone(0, depthBlock, gridSizeS);
    MulMonotone(depthBlock + 1, depthBlocks, gridSizeS);
    assert gridSizeS * depthBlocks == depthBlocks * gridSizeS;
  }

  /** For each logical axis, the physical axis remap[a] carries exactly wg[a]
      groups, and wg[a] * work_group_size[a] * block covers the extent: width
      times batch, height, and ceil(S / w) * ceil(D / bz) fused z ids. */
  lemma GridCoversLogicalAxes(p: ConvParams, dst: DstShape, a: int)
    requires PlannerReady(p) && IsPermutation(p.workGroupLaunchOrder) && 0 <= a < 3
    ensures var j := LaunchRemap(p.workGroupLaunchOrder).At(a);
            0 <= j < 3
            && GetGridSize(p, dst).At(j) / p.workGroupSize.At(j) == GroupCounts(p, dst).At(a)
    ensures var wg := GroupCounts(p, dst);
            var s := p.workGroupSize;
            var b := p.blockSize;
            && (a == 0 ==> wg.x * s.x * b.x >= dst.width * dst.batch)
            && (a == 1 ==> wg.y * s.y * b.y >= dst.height)
            && (a == 2 ==> wg.z * s.z >= GridSizeS(p, dst) * DepthBlocks(p, dst)
                           && GridSizeS(p, dst) * b.w >= dst.slices
                           && DepthBlocks(p, dst) * b.z >= dst.depth)
  {
    var wg := GroupCounts(p, dst);
    var s := p.workGroupSize;
    var b := p.blockSize;
    var g := WorkItemCounts(p, dst);
    var remap := LaunchRemap(p.workGroupLaunchOrder);
    assert 0 <= remap.At(a) < 3;
    if a == 0 {
      MulMonotone(g.x, wg.x * s.x, b.x);
    } else if a == 1 {
      MulMonotone(g.y, wg.y * s.y, b.y);
    }
  }

  // ----- Exactly-once coverage of the destination -----

  /** The three logical ids of a work item. */
  function LogicalIds(plan: CoordinatePlan, wgs: Int3, item: WorkItem): Int3
    requires PlanWellFormed(plan)
  {
    Int3(LogicalId(plan, wgs, item, 0), LogicalId(plan, wgs, item, 1), LogicalId(plan, wgs, item, 2))
  }

  /** The work item that owns logical ids l: on physical axis j the group id is
      l[order[j]] / wgs[order[j]], and the local id of axis a is l[a] % wgs[a]. */
  function ItemFor(order: Int3, wgs: Int3, l: Int3): WorkItem
    requires ValidOrder(order) && wgs.Positive()
  {
    WorkItem(Int3(l.At(order.x) / wgs.At(order.x), l.At(order.y) / wgs.At(order.y),
                  l.At(order.z) / wgs.At(order.z)),
             Int3(l.x % wgs.x, l.y % wgs.y, l.z % wgs.z))
  }

  /** On logical axis a, the owner's group and local ids recombine to l[a]. */
  lemma ItemForAxis(block: Int4, order: Int3, wgs: Int3, l: Int3, a: int)
    requires IsPermutation(order) && wgs.Positive() && 0 <= a < 3
    ensures LogicalId(GenerateGlobalCoordinates(block, order), wgs, ItemFor(order, wgs, l), a) == l.At(a)
  {
    var plan := GenerateGlobalCoordinates(block, order);
    var item := ItemFor(order, wgs, l);
    var j := LaunchRemap(order).At(a);
    assert PhysicalAxisOf(plan, a) == j;
    assert order.At(j) == a;
    assert item.group.At(j) == l.At(a) / wgs.At(a);
    assert item.local.At(a) == l.At(a) % wgs.At(a);
    DivModSplit(l.At(a), wgs.At(a));
  }

  lemma ItemForDecodes(block: Int4, order: Int3, wgs: Int3, l: Int3)
    requires IsPermutation(order) && wgs.Positive()
    ensures LogicalIds(GenerateGlobalCoordinates(block, order), wgs, ItemFor(order, wgs, l)) == l
  {
    ItemForAxis(block, order, wgs, l, 0);
    ItemForAxis(block, order, wgs, l, 1);
    ItemForAxis(block, order, wgs, l, 2);
  }

  /** A logical id below wg[a] * wgs[a] gives a group id on physical axis remap[a]
      below that axis's group count. */
  lemma ItemForInDispatch(p: ConvParams, dst: DstShape, l: Int3)
    requires PlannerReady(p) && IsPermutation(p.workGroupLaunchOrder)
    requires 0 <= l.x < GroupCounts(p, dst).x * p.workGroupSize.x
    requires 0 <= l.y < GroupCounts(p, dst).y * p.workGroupSize.y
    requires 0 <= l.z < GroupCounts(p, dst).z * p.workGroupSize.z
    ensures InDispatch(GetGridSize(p, dst), p.workGroupSize,
                       ItemFor(p.workGroupLaunchOrder, p.workGroupSize, l))
  {
    var order, wgs, wg := p.workGroupLaunchOrder, p.workGroupSize, GroupCounts(p, dst);
    var global := GetGridSize(p, dst);
    var item := ItemFor(order, wgs, l);
    forall j | 0 <= j < 3
      ensures 0 <= item.group.At(j) < global.At(j) / wgs.At(j)
    {
      var a := order.At(j);
      assert item.group.At(j) == l.At(a) / wgs.At(a);
      assert global.At(j) / wgs.At(j) == wg.At(a);
      assert 0 <= l.At(a) < wg.At(a) * wgs.At(a) by {
        assert a == 0 || a == 1 || a == 2;
      }
      QuotientBelow(l.At(a), wgs.At(a), wg.At(a));
    }
    assert item.group.At(0) == item.group.x && item.group.At(1) == item.group.y;
    assert item.group.At(2) == item.group.z;
  }

  /** The logical ids of the work item whose block holds element e:
      (x / bx, y / by, (z / bz) * G + s / w). */
  function OwnerIds(p: ConvParams, dst: DstShape, e: Element): Int3
    requires p.blockSize.Positive()
  {
    var b := p.blockSize;
    Int3(e.x / b.x, e.y / b.y, EncodeFusedZ(e.s / b.w, e.z / b.z, GridSizeS(p, dst)))
  }

  /** The owner's logical ids lie below wg[a] * work_group_size[a]. */
  lemma OwnerIdsInGrid(p: ConvParams, dst: DstShape, e: Element)
    requires PlannerReady(p) && InTensor(dst, e)
    ensures var l, wg, wgs := OwnerIds(p, dst, e), GroupCounts(p, dst), p.workGroupSize;
            && 0 <= l.x < wg.x * wgs.x
            && 0 <= l.y < wg.y * wgs.y
            && 0 <= l.z < wg.z * wgs.z
  {
    var b := p.blockSize;
    var G, Dz := GridSizeS(p, dst), DepthBlocks(p, dst);
    var g := WorkItemCounts(p, dst);
    QuotientBelow(e.x, b.x, g.x);
    QuotientBelow(e.y, b.y, g.y);
    QuotientBelow(e.s, b.w, G);
    QuotientBelow(e.z, b.z, Dz);
    FusedZEncodeInRange(e.s / b.w, e.z / b.z, G, Dz);
  }

  /** A work item whose logical ids are the owner's writes e. */
  lemma OwnerWrites(p: ConvParams, dst: DstShape, e: Element, plan: CoordinatePlan, item: WorkItem)
    requires PlannerReady(p) && InTensor(dst, e) && PlanWellFormed(plan) && plan.block == p.blockSize
    requires LogicalIds(plan, p.workGroupSize, item) == OwnerIds(p, dst, e)
    ensures GridSizeS(p, dst) >= 1
    ensures WritesElement(DecodeDst(plan, p.workGroupSize, GridSizeS(p, dst), item), p.blockSize, dst, e)
  {
    var b, wgs := p.blockSize, p.workGroupSize;
    var G := GridSizeS(p, dst);
    var sb, zb := e.s / b.w, e.z / b.z;
    BlockStart(e.x, b.x);
    BlockStart(e.y, b.y);
    BlockStart(e.s, b.w);
    BlockStart(e.z, b.z);
    QuotientBelow(e.s, b.w, G);
    DivModUnique(EncodeFusedZ(sb, zb, G), G, zb, sb);
    assert LogicalIds(plan, wgs, item).At(0) == LogicalId(plan, wgs, item, 0);
    assert LogicalIds(plan, wgs, item).At(1) == LogicalId(plan, wgs, item, 1);
    assert LogicalIds(plan, wgs, item).At(2) == LogicalId(plan, wgs, item, 2);
  }

  /** Every element of the destination is written by some launched work item. */
  lemma EveryElementWritten(p: ConvParams, dst: DstShape, e: Element)
    requires PlannerReady(p) && IsPermutation(p.workGroupLaunchOrder)
    requires InTensor(dst, e)
    ensures GridSizeS(p, dst) >= 1
    ensures exists item :: InDispatch(GetGridSize(p, dst), p.workGroupSize, item)
              && WritesElement(DecodeDst(GenerateGlobalCoordinates(p.blockSize, p.workGroupLaunchOrder),
                                         p.workGroupSize, GridSizeS(p, dst), item),
                               p.blockSize, dst, e)
  {
    var plan := GenerateGlobalCoordinates(p.blockSize, p.workGroupLaunchOrder);
    var l := OwnerIds(p, dst, e);
    var item := ItemFor(p.workGroupLaunchOrder, p.workGroupSize, l);
    OwnerIdsInGrid(p, dst, e);
    ItemForInDispatch(p, dst, l);
    ItemForDecodes(p.blockSize, p.workGroupLaunchOrder, p.workGroupSize, l);
    OwnerWrites(p, dst, e, plan, item);
  }

  /** The work item whose block holds element e has the block indices of e as its logical ids. */
  lemma WriterLogicalIds(plan: CoordinatePlan, wgs: Int3, G: int, item: WorkItem, block: Int4,
                         dst: DstShape, e: Element)
    requires PlanWellFormed(plan) && G >= 1 && block.Positive() && plan.block == block
    requires WritesElement(DecodeDst(plan, wgs, G, item), block, dst, e)
    ensures LogicalId(plan, wgs, item, 0) == e.x / block.x
    ensures LogicalId(plan, wgs, item, 1) == e.y / block.y
    ensures LogicalId(plan, wgs, item, 2) == (e.z / block.z) * G + e.s / block.w
  {
    var lz := LogicalId(plan, wgs, item, 2);
    BlockIndex(e.x, block.x, LogicalId(plan, wgs, item, 0));
    BlockIndex(e.y, block.y, LogicalId(plan, wgs, item, 1));
    BlockIndex(e.s, block.w, lz % G);
    BlockIndex(e.z, block.z, lz / G);
    assert lz == (lz / G) * G + lz % G;
  }

  /** No element is written by two different launched work items. */
  lemma NoElementWrittenTwice(p: ConvParams, dst: DstShape, e: Element, i1: WorkItem, i2: WorkItem)
    requires PlannerReady(p) && IsPermutation(p.workGroupLaunchOrder) && dst.slices >= 1
    requires InDispatch(GetGridSize(p, dst), p.workGroupSize, i1)
    requires InDispatch(GetGridSize(p, dst), p.workGroupSize, i2)
    requires var plan := GenerateGlobalCoordinates(p.blockSize, p.workGroupLaunchOrder);
             WritesElement(DecodeDst(plan, p.workGroupSize, GridSizeS(p, dst), i1), p.blockSize, dst, e)
             && WritesElement(DecodeDst(plan, p.workGroupSize, GridSizeS(p, dst), i2), p.blockSize, dst, e)
    ensures i1 == i2
  {
    var b, order, wgs := p.blockSize, p.workGroupLaunchOrder, p.workGroupSize;
    var G := GridSizeS(p, dst);
    var plan := GenerateGlobalCoordinates(b, order);
    var remap := LaunchRemap(order);
    WriterLogicalIds(plan, wgs, G, i1, b, dst, e);
    WriterLogicalIds(plan, wgs, G, i2, b, dst, e);
    forall a | 0 <= a < 3
      ensures i1.local.At(a) == i2.local.At(a)
      ensures i1.group.At(remap.At(a)) == i2.group.At(remap.At(a))
    {
      assert LogicalId(plan, wgs, i1, a) == LogicalId(plan, wgs, i2, a);
      assert PhysicalAxisOf(plan, a) == remap.At(a);
      DivModUnique(LogicalId(plan, wgs, i1, a), wgs.At(a), i1.group.At(remap.At(a)), i1.local.At(a));
      DivModUnique(LogicalId(plan, wgs, i2, a), wgs.At(a), i2.group.At(remap.At(a)), i2.local.At(a));
    }
    forall j | 0 <= j < 3
      ensures i1.group.At(j) == i2.group.At(j)
    {
      assert remap.At(order.At(j)) == j;
    }
    assert i1.group.At(0) == i2.group.At(0) && i1.group.At(1) == i2.group.At(1);
    assert i1.group.At(2) == i2.group.At(2);
    assert i1.local.At(0) == i2.local.At(0) && i1.local.At(1) == i2.local.At(1);
    assert i1.local.At(2) == i2.local.At(2);
  }
}
