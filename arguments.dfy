/** The kernel-argument contract of the 3-D convolution: the integer and
    tensor arguments GenerateConv3D declares, the values Conv3D::BindArguments
    sets, and Conv3D::Tune, the only step that rewrites the configuration after
    construction.

    The argument store is modelled by what this operation relies on: AddInt
    declares a name with value 0, AddObjectRef declares a tensor slot, and
    SetInt / SetObjectRef fail with NotFound on a name that was never declared.
    Names are the closed vocabulary this operation uses, with their text given
    by IntArgText (proved injective). The main theorem, DeclareThenBind, is the
    lock-step property: whatever the configuration, the arguments the kernel
    text declares are exactly the ones the binder sets, so binding after
    declaring always succeeds. */
module KernelArguments {
  import opened Conv3DTypes
  import opened ParamSelector
  import opened DispatchPlanner

  // ----- Argument names -----

  /** The four per-axis integer arguments. */
  datatype ArgKind = Stride | Padding | KernelSize | Dilation

  datatype Axis = X | Y | Z

  /** The integer arguments: a per-axis one, or grid_size_s. */
  datatype IntArg = AxisArg(kind: ArgKind, axis: Axis) | GridSizeSArg

  /** The two tensor arguments. */
  datatype TensorArg = SrcTensor | DstTensor

  /** absl::Status narrowed to the outcomes this operation can produce. */
  datatype Status = Ok | IntNotFound(intArg: IntArg) | TensorNotFound(tensorArg: TensorArg) | SearchFailed

  function KindName(k: ArgKind): string {
    match k
    case Stride => "stride"
    case Padding => "padding"
    case KernelSize => "kernel_size"
    case Dilation => "dilation"
  }

  function AxisLetter(a: Axis): char {
    match a
    case X => 'x'
    case Y => 'y'
    case Z => 'z'
  }

  /** The argument's name in the kernel text: "stride_x", "kernel_size_z", "grid_size_s". */
  function IntArgText(n: IntArg): string {
    match n
    case AxisArg(k, a) => KindName(k) + "_" + [AxisLetter(a)]
    case GridSizeSArg => "grid_size_s"
  }

  function TensorArgText(t: TensorArg): string {
    match t
    case SrcTensor => "src_tensor"
    case DstTensor => "dst_tensor"
  }

  /** Distinct arguments have distinct names, so keying the store by IntArg
      loses nothing: binding one argument never overwrites another. */
  lemma IntArgTextInjective(n1: IntArg, n2: IntArg)
    ensures IntArgText(n1) == IntArgText(n2) <==> n1 == n2
  {
    var t1, t2 := IntArgText(n1), IntArgText(n2);
    if n1.AxisArg? {
      assert |t1| == |KindName(n1.kind)| + 2 && t1[|t1| - 1] == AxisLetter(n1.axis);
    } else {
      assert |t1| == 11;
    }
    if n2.AxisArg? {
      assert |t2| == |KindName(n2.kind)| + 2 && t2[|t2| - 1] == AxisLetter(n2.axis);
    } else {
      assert |t2| == 11;
    }
  }

  // ----- What is declared -----

  function KernelIs1(p: ConvParams, a: Axis): bool {
    match a
    case X => p.xKernelIs1
    case Y => p.yKernelIs1
    case Z => p.zKernelIs1
  }

  /** The four arguments of one axis. */
  function AxisArgs(a: Axis): set<IntArg> {
    {AxisArg(Stride, a), AxisArg(Padding, a), AxisArg(KernelSize, a), AxisArg(Dilation, a)}
  }

  /** The four updates of BindAxis, applied to a store that declares them,
      bind exactly the arguments of axis a. */
  lemma AxisUpdatesBind(m0: map<IntArg, int>, a: Axis, p: ConvParams, g: ConvGeometry,
                        srcBatch: int, dstSlices: nat)
    requires p.blockSize.w >= 1 && AxisArgs(a) <= m0.Keys
    ensures var scale := if a == X then srcBatch else 1;
            BoundOn(m0, m0[AxisArg(Stride, a) := AxisComponent(g.stride, a)]
                          [AxisArg(Padding, a) := AxisComponent(g.padding, a) * scale]
                          [AxisArg(KernelSize, a) := AxisComponent(g.kernelSize, a)]
                          [AxisArg(Dilation, a) := AxisComponent(g.dilation, a) * scale],
                    AxisArgs(a), p, g, srcBatch, dstSlices)
  {
  }

  /** Adding the four arguments of an axis one at a time adds AxisArgs(a). */
  lemma AxisArgsOneByOne(s: set<IntArg>, a: Axis)
    ensures s + {AxisArg(Stride, a)} + {AxisArg(Padding, a)} + {AxisArg(KernelSize, a)} + {AxisArg(Dilation, a)}
            == s + AxisArgs(a)
  {
  }

  /** Setting grid_size_s in a store that declares it binds exactly that argument. */
  lemma GridSizeBound(m: map<IntArg, int>, p: ConvParams, g: ConvGeometry, srcBatch: int, dstSlices: nat)
    requires p.blockSize.w >= 1 && GridSizeSArg in m
    ensures BoundOn(m, m[GridSizeSArg := DivideRoundUp(dstSlices, p.blockSize.w)], {GridSizeSArg},
                    p, g, srcBatch, dstSlices)
  {
  }

  /** The expected integers are declared exactly when each active axis and grid_size_s are. */
  lemma ExpectedDeclaredIn(p: ConvParams, keys: set<IntArg>)
    ensures ExpectedIntArgs(p) <= keys
            <==> ActiveAxisArgs(p, X) <= keys && ActiveAxisArgs(p, Y) <= keys && ActiveAxisArgs(p, Z) <= keys
                 && GridSizeSArg in keys
  {
  }

  /** The arguments of axis a that are declared under p. */
  function ActiveAxisArgs(p: ConvParams, a: Axis): set<IntArg> {
    if KernelIs1(p, a) then {} else AxisArgs(a)
  }

  /** The integer arguments GenerateConv3D declares: the four of each axis whose
      kernel is not trivially 1, plus grid_size_s. */
  function ExpectedIntArgs(p: ConvParams): set<IntArg> {
    ActiveAxisArgs(p, X) + ActiveAxisArgs(p, Y) + ActiveAxisArgs(p, Z) + {GridSizeSArg}
  }

  /** grid_size_s is always declared, and a per-axis argument exactly when its
      axis is not a unit-kernel axis. */
  lemma ExpectedIntArgsIff(p: ConvParams, n: IntArg)
    ensures n in ExpectedIntArgs(p) <==> (n.GridSizeSArg? || !KernelIs1(p, n.axis))
  {
    match n
    case GridSizeSArg =>
    case AxisArg(k, a) =>
      assert k == Stride || k == Padding || k == KernelSize || k == Dilation;
      assert n in AxisArgs(a);
      forall b | b != a ensures n !in AxisArgs(b) { }
  }

  /** A fully pointwise configuration declares grid_size_s and nothing else. */
  lemma PointwiseDeclaresOnlyGridSize(p: ConvParams)
    requires p.Is1x1x1()
    ensures ExpectedIntArgs(p) == {GridSizeSArg}
  {
  }

  // ----- The order of binding -----

  /** The four SetInt calls of one axis, in BindArguments' order. */
  function AxisArgOrder(a: Axis): seq<IntArg> {
    [AxisArg(Stride, a), AxisArg(Padding, a), AxisArg(KernelSize, a), AxisArg(Dilation, a)]
  }

  /** The SetInt calls of one `if (!conv_params_.?_kernel_is_1)` block. */
  function ActiveAxisOrder(p: ConvParams, a: Axis): seq<IntArg> {
    if KernelIs1(p, a) then [] else AxisArgOrder(a)
  }

  /** Every SetInt call of BindArguments, in order: x, y, z, then grid_size_s. */
  function BindOrder(p: ConvParams): seq<IntArg> {
    ActiveAxisOrder(p, X) + ActiveAxisOrder(p, Y) + ActiveAxisOrder(p, Z) + [GridSizeSArg]
  }

  /** The outcome of setting `names` one after another, stopping at the first
      failure, on a store that declares `declared`. */
  function FirstMissing(names: seq<IntArg>, declared: set<IntArg>): Status {
    if |names| == 0 then Ok
    else if names[0] !in declared then IntNotFound(names[0])
    else FirstMissing(names[1..], declared)
  }

  /** FirstMissing succeeds exactly when every name is declared, and otherwise
      reports a name that is undeclared while every name before it is declared. */
  lemma {:induction false} FirstMissingIff(names: seq<IntArg>, declared: set<IntArg>)
    ensures FirstMissing(names, declared) == Ok <==> forall i :: 0 <= i < |names| ==> names[i] in declared
    ensures FirstMissing(names, declared) != Ok ==>
              && FirstMissing(names, declared).IntNotFound?
              && exists i :: 0 <= i < |names| && names[i] == FirstMissing(names, declared).intArg
                             && names[i] !in declared
                             && forall j :: 0 <= j < i ==> names[j] in declared
    decreases |names|
  {
    if |names| > 0 && names[0] in declared {
      var rest := names[1..];
      FirstMissingIff(rest, declared);
      assert forall i :: 1 <= i < |names| ==> names[i] == rest[i - 1];
      if FirstMissing(rest, declared) != Ok {
        var i :| 0 <= i < |rest| && rest[i] == FirstMissing(rest, declared).intArg
                 && rest[i] !in declared && forall j :: 0 <= j < i ==> rest[j] in declared;
        assert names[i + 1] == rest[i];
      }
    } else if |names| > 0 {
      assert names[0] !in declared;
    }
  }

  /** Setting one list and then another stops at the first list's failure, if any. */
  lemma {:induction false} FirstMissingAppend(a: seq<IntArg>, b: seq<IntArg>, declared: set<IntArg>)
    ensures FirstMissing(a + b, declared)
            == if FirstMissing(a, declared) == Ok then FirstMissing(b, declared) else FirstMissing(a, declared)
    decreases |a|
  {
    if |a| == 0 {
      assert a + b == b;
    } else {
      assert (a + b)[0] == a[0] && (a + b)[1..] == a[1..] + b;
      FirstMissingAppend(a[1..], b, declared);
    }
  }

  /** The outcome of the four SetInt calls of one axis, call by call. */
  lemma AxisOrderOutcome(a: Axis, declared: set<IntArg>)
    ensures FirstMissing(AxisArgOrder(a), declared)
            == if AxisArg(Stride, a) !in declared then IntNotFound(AxisArg(Stride, a))
               else if AxisArg(Padding, a) !in declared then IntNotFound(AxisArg(Padding, a))
               else if AxisArg(KernelSize, a) !in declared then IntNotFound(AxisArg(KernelSize, a))
               else if AxisArg(Dilation, a) !in declared then IntNotFound(AxisArg(Dilation, a))
               else Ok
  {
    var sa, pa, ka, da := AxisArg(Stride, a), AxisArg(Padding, a), AxisArg(KernelSize, a), AxisArg(Dilation, a);
    var o3 := [da];
    assert o3[1..] == [];
    var f3 := if da !in declared then IntNotFound(da) else Ok;
    assert FirstMissing(o3, declared) == f3;
    var o2 := [ka, da];
    assert o2[1..] == o3;
    var f2 := if ka !in declared then IntNotFound(ka) else f3;
    assert FirstMissing(o2, declared) == f2;
    var o1 := [pa, ka, da];
    assert o1[1..] == o2;
    var f1 := if pa !in declared then IntNotFound(pa) else f2;
    assert FirstMissing(o1, declared) == f1;
    assert AxisArgOrder(a)[1..] == o1;
  }

  /** The whole binding list fails where its first failing block does. */
  lemma BindOrderOutcome(p: ConvParams, declared: set<IntArg>)
    ensures FirstMissing(BindOrder(p), declared)
            == var fx := FirstMissing(ActiveAxisOrder(p, X), declared);
               var fy := FirstMissing(ActiveAxisOrder(p, Y), declared);
               var fz := FirstMissing(ActiveAxisOrder(p, Z), declared);
               if fx != Ok then fx else if fy != Ok then fy else if fz != Ok then fz
               else if GridSizeSArg !in declared then IntNotFound(GridSizeSArg) else Ok
  {
    var ox, oy, oz := ActiveAxisOrder(p, X), ActiveAxisOrder(p, Y), ActiveAxisOrder(p, Z);
    FirstMissingAppend(ox, oy, declared);
    FirstMissingAppend(ox + oy, oz, declared);
    FirstMissingAppend(ox + oy + oz, [GridSizeSArg], declared);
    assert [GridSizeSArg][1..] == [];
  }

  /** BindOrder sets exactly the expected integers. */
  lemma BindOrderCovers(p: ConvParams, n: IntArg)
    ensures n in BindOrder(p) <==> n in ExpectedIntArgs(p)
  {
  }

  /** The first missing name of the whole binding list is Ok exactly when
      every expected integer is declared. */
  lemma BindOrderOkIff(p: ConvParams, declared: set<IntArg>)
    ensures FirstMissing(BindOrder(p), declared) == Ok <==> ExpectedIntArgs(p) <= declared
  {
    var names := BindOrder(p);
    FirstMissingIff(names, declared);
    forall n | n in ExpectedIntArgs(p) ensures n in names { BindOrderCovers(p, n); }
    forall i | 0 <= i < |names| ensures names[i] in ExpectedIntArgs(p) { BindOrderCovers(p, names[i]); }
  }

  /** The status Conv3D::BindArguments returns on a store declaring the
      integers `ints` and the tensors `tensors`: src_tensor, then dst_tensor,
      then the integers in BindOrder, stopping at the first undeclared name. */
  function BindOutcome(p: ConvParams, ints: set<IntArg>, tensors: set<TensorArg>): Status {
    if SrcTensor !in tensors then TensorNotFound(SrcTensor)
    else if DstTensor !in tensors then TensorNotFound(DstTensor)
    else FirstMissing(BindOrder(p), ints)
  }

  // ----- What is bound -----

  /** stride_, padding_, kernel_size_ and dilation_ of the operation. */
  datatype ConvGeometry = ConvGeometry(stride: Int3, padding: Int3, kernelSize: Int3, dilation: Int3)

  /** The Conv3D constructor's reading of the attributes: (w, h, d) per vector,
      with the padding negated. */
  function AttrGeometry(attr: Convolution3DAttributes): ConvGeometry {
    ConvGeometry(
      Int3(attr.strides.w, attr.strides.h, attr.strides.d),
      Int3(-attr.padding.prepended.w, -attr.padding.prepended.h, -attr.padding.prepended.d),
      Int3(attr.weightsShape.w, attr.weightsShape.h, attr.weightsShape.d),
      Int3(attr.dilations.w, attr.dilations.h, attr.dilations.d))
  }

  function AxisComponent(v: Int3, a: Axis): int {
    match a
    case X => v.x
    case Y => v.y
    case Z => v.z
  }

  /** The value BindArguments gives an argument. Padding and dilation along x
      are scaled by the source batch (batch is folded into width); grid_size_s
      is ceil(dst slices / block_size.w). */
  function BoundValue(n: IntArg, p: ConvParams, g: ConvGeometry, srcBatch: int, dstSlices: nat): int
    requires p.blockSize.w >= 1
  {
    match n
    case GridSizeSArg => DivideRoundUp(dstSlices, p.blockSize.w)
    case AxisArg(k, a) =>
      var scale := if a == X then srcBatch else 1;
      match k
      case Stride => AxisComponent(g.stride, a)
      case Padding => AxisComponent(g.padding, a) * scale
      case KernelSize => AxisComponent(g.kernelSize, a)
      case Dilation => AxisComponent(g.dilation, a) * scale
  }

  /** Every value BindArguments sets for the arguments in `names`. */
  function BoundValues(names: set<IntArg>, p: ConvParams, g: ConvGeometry, srcBatch: int,
                       dstSlices: nat): map<IntArg, int>
    requires p.blockSize.w >= 1
  {
    map n | n in names :: BoundValue(n, p, g, srcBatch, dstSlices)
  }

  /** `after` is `before` with every argument in `names` set to its bound value. */
  predicate BoundOn(before: map<IntArg, int>, after: map<IntArg, int>, names: set<IntArg>,
                    p: ConvParams, g: ConvGeometry, srcBatch: int, dstSlices: nat)
    requires p.blockSize.w >= 1
  {
    && after.Keys == before.Keys
    && forall n :: n in after ==>
         after[n] == if n in names then BoundValue(n, p, g, srcBatch, dstSlices) else before[n]
  }

  /** Binding one set of names and then another binds their union. */
  lemma BoundOnCompose(m0: map<IntArg, int>, m1: map<IntArg, int>, m2: map<IntArg, int>,
                       s1: set<IntArg>, s2: set<IntArg>,
                       p: ConvParams, g: ConvGeometry, srcBatch: int, dstSlices: nat)
    requires p.blockSize.w >= 1
    requires BoundOn(m0, m1, s1, p, g, srcBatch, dstSlices) && BoundOn(m1, m2, s2, p, g, srcBatch, dstSlices)
    ensures BoundOn(m0, m2, s1 + s2, p, g, srcBatch, dstSlices)
  {
  }

  // ----- The argument store -----

  /** The slice of the Arguments store this operation uses. `intsSet` and
      `objectsSet` record which declared names have been given a value. */
  class Arguments {
    var intValues: map<IntArg, int>
    var objectRefs: set<TensorArg>
    ghost var intsSet: set<IntArg>
    ghost var objectsSet: set<TensorArg>

    constructor ()
      ensures intValues == map[] && objectRefs == {} && intsSet == {} && objectsSet == {}
    {
      intValues := map[];
      objectRefs := {};
      intsSet := {};
      objectsSet := {};
    }

    method AddObjectRef(name: TensorArg)
      modifies this
      ensures objectRefs == old(objectRefs) + {name}
      ensures intValues == old(intValues) && intsSet == old(intsSet) && objectsSet == old(objectsSet)
    {
      objectRefs := objectRefs + {name};
    }

    method AddInt(name: IntArg)
      modifies this
      ensures intValues == old(intValues)[name := 0]
      ensures objectRefs == old(objectRefs) && intsSet == old(intsSet) && objectsSet == old(objectsSet)
    {
      intValues := intValues[name := 0];
    }

    method SetInt(name: IntArg, value: int) returns (st: Status)
      modifies this
      ensures name in old(intValues) ==>
                st == Ok && intValues == old(intValues)[name := value] && intsSet == old(intsSet) + {name}
      ensures name !in old(intValues) ==>
                st == IntNotFound(name) && intValues == old(intValues) && intsSet == old(intsSet)
      ensures intValues.Keys == old(intValues.Keys)
      ensures objectRefs == old(objectRefs) && objectsSet == old(objectsSet)
    {
      if name in intValues {
        intValues := intValues[name := value];
        intsSet := intsSet + {name};
        st := Ok;
      } else {
        st := IntNotFound(name);
      }
    }

    method SetObjectRef(name: TensorArg) returns (st: Status)
      modifies this
      ensures name in old(objectRefs) ==> st == Ok && objectsSet == old(objectsSet) + {name}
      ensures name !in old(objectRefs) ==> st == TensorNotFound(name) && objectsSet == old(objectsSet)
      ensures objectRefs == old(objectRefs) && intValues == old(intValues) && intsSet == old(intsSet)
    {
      if name in objectRefs {
        objectsSet := objectsSet + {name};
        st := Ok;
      } else {
        st := TensorNotFound(name);
      }
    }
  }

  /** `after` is `before` with every argument in `names` declared with value 0. */
  predicate DeclaredOn(before: map<IntArg, int>, after: map<IntArg, int>, names: set<IntArg>) {
    && after.Keys == before.Keys + names
    && forall n :: n in after ==> after[n] == if n in names then 0 else before[n]
  }

  /** Declaring one set of names and then another declares their union. */
  lemma DeclaredOnCompose(m0: map<IntArg, int>, m1: map<IntArg, int>, m2: map<IntArg, int>,
                          s1: set<IntArg>, s2: set<IntArg>)
    requires DeclaredOn(m0, m1, s1) && DeclaredOn(m1, m2, s2)
    ensures DeclaredOn(m0, m2, s1 + s2)
  {
  }

  /** The four AddInt calls of one axis. */
  method DeclareAxis(a: Axis, args: Arguments)
    modifies args
    ensures DeclaredOn(old(args.intValues), args.intValues, AxisArgs(a))
    ensures args.objectRefs == old(args.objectRefs)
    ensures args.intsSet == old(args.intsSet) && args.objectsSet == old(args.objectsSet)
  {
    args.AddInt(AxisArg(Stride, a));
    args.AddInt(AxisArg(Padding, a));
    args.AddInt(AxisArg(KernelSize, a));
    args.AddInt(AxisArg(Dilation, a));
  }

  /** One `if (!conv_params.?_kernel_is_1)` block of GenerateConv3D's declarations. */
  method DeclareAxisIfActive(p: ConvParams, a: Axis, args: Arguments)
    modifies args
    ensures DeclaredOn(old(args.intValues), args.intValues, ActiveAxisArgs(p, a))
    ensures args.objectRefs == old(args.objectRefs)
    ensures args.intsSet == old(args.intsSet) && args.objectsSet == old(args.objectsSet)
  {
    if !KernelIs1(p, a) {
      DeclareAxis(a, args);
    } else {
      assert args.intValues.Keys + {} == args.intValues.Keys;
    }
  }

  /** The argument declarations of GenerateConv3D: src_tensor and dst_tensor,
      four integers per axis whose kernel is not trivially 1, then grid_size_s. */
  method DeclareConv3DArguments(p: ConvParams, args: Arguments)
    modifies args
    ensures args.objectRefs == old(args.objectRefs) + {SrcTensor, DstTensor}
    ensures DeclaredOn(old(args.intValues), args.intValues, ExpectedIntArgs(p))
    ensures args.intsSet == old(args.intsSet) && args.objectsSet == old(args.objectsSet)
  {
    args.AddObjectRef(SrcTensor);
    args.AddObjectRef(DstTensor);
    ghost var m0 := args.intValues;
    DeclareAxisIfActive(p, X, args);
    ghost var m1 := args.intValues;
    DeclareAxisIfActive(p, Y, args);
    ghost var m2 := args.intValues;
    DeclaredOnCompose(m0, m1, m2, ActiveAxisArgs(p, X), ActiveAxisArgs(p, Y));
    DeclareAxisIfActive(p, Z, args);
    ghost var m3 := args.intValues;
    ghost var xy := ActiveAxisArgs(p, X) + ActiveAxisArgs(p, Y);
    DeclaredOnCompose(m0, m2, m3, xy, ActiveAxisArgs(p, Z));
    args.AddInt(GridSizeSArg);
    assert DeclaredOn(m3, args.intValues, {GridSizeSArg});
    DeclaredOnCompose(m0, m3, args.intValues, xy + ActiveAxisArgs(p, Z), {GridSizeSArg});
  }

  // ----- The operation object -----

  /** What the work-group search GetBestWorkGroupConv reports (that search is
      not part of this model). */
  datatype SearchOutcome = Found(size: Int3) | NotTuned

  /** Tune searches work-group sizes only when the weights are not staged in
      local memory (there the size is fixed by reqd_work_group_size) and the
      launch order is the identity. */
  predicate SearchesWorkGroup(p: ConvParams) {
    !p.NeedLocalMem() && p.workGroupLaunchOrder == Int3(0, 1, 2)
  }

  /** Which families' configurations Tune may retune: Nvidia and PowerVR stage
      weights in local memory and permute the launch, so never; Adreno, Mali
      and the rest always. */
  lemma SearchesWorkGroupByFamily(device: DeviceFamily, precision: Precision, srcSlices: nat,
                                  dstSlices: nat, x1: bool, y1: bool, z1: bool)
    ensures SearchesWorkGroup(SelectedParams(device, precision, srcSlices, dstSlices, x1, y1, z1))
            <==> device == Adreno || device == Mali || device == OtherGpu
  {
  }

  /** Whether every argument BindArguments sets was declared beforehand. */
  predicate BindReady(p: ConvParams, ints: set<IntArg>, tensors: set<TensorArg>) {
    ExpectedIntArgs(p) <= ints && SrcTensor in tensors && DstTensor in tensors
  }

  /** Binding succeeds exactly when every argument it sets was declared. */
  lemma BindOutcomeOkIff(p: ConvParams, ints: set<IntArg>, tensors: set<TensorArg>)
    ensures BindOutcome(p, ints, tensors) == Ok <==> BindReady(p, ints, tensors)
  {
    BindOrderOkIff(p, ints);
  }

  /** A failed binding names a tensor that is undeclared, or, with both tensors
      declared, an expected integer that is undeclared while every integer
      bound before it is declared. */
  lemma BindOutcomeError(p: ConvParams, ints: set<IntArg>, tensors: set<TensorArg>)
    ensures BindOutcome(p, ints, tensors).TensorNotFound? ==>
              BindOutcome(p, ints, tensors).tensorArg !in tensors
    ensures BindOutcome(p, ints, tensors).IntNotFound? ==>
              var n := BindOutcome(p, ints, tensors).intArg;
              && SrcTensor in tensors && DstTensor in tensors
              && n in ExpectedIntArgs(p) && n !in ints
              && exists i :: 0 <= i < |BindOrder(p)| && BindOrder(p)[i] == n
                             && forall j :: 0 <= j < i ==> BindOrder(p)[j] in ints
    ensures !BindOutcome(p, ints, tensors).SearchFailed?
  {
    FirstMissingIff(BindOrder(p), ints);
    if BindOutcome(p, ints, tensors).IntNotFound? {
      BindOrderCovers(p, BindOutcome(p, ints, tensors).intArg);
    }
  }

  /** Conv3D: the operation's geometry (fixed at construction), its
      configuration and its argument store. */
  class Conv3D {
    const stride: Int3
    const padding: Int3
    const kernelSize: Int3
    const dilation: Int3
    var convParams: ConvParams
    const args: Arguments

    function Geometry(): ConvGeometry {
      ConvGeometry(stride, padding, kernelSize, dilation)
    }

    /** Conv3D(definition, attr, device): copy the attribute vectors and pick
        the configuration. */
    constructor (device: DeviceFamily, precision: Precision, attr: Convolution3DAttributes)
      requires AttrsWellFormed(attr)
      ensures Geometry() == AttrGeometry(attr)
      ensures convParams == GuessBestParamsForAttr(device, precision, attr)
      ensures fresh(args) && args.intValues == map[] && args.objectRefs == {}
      ensures args.intsSet == {} && args.objectsSet == {}
    {
      stride := Int3(attr.strides.w, attr.strides.h, attr.strides.d);
      padding := Int3(-attr.padding.prepended.w, -attr.padding.prepended.h, -attr.padding.prepended.d);
      kernelSize := Int3(attr.weightsShape.w, attr.weightsShape.h, attr.weightsShape.d);
      dilation := Int3(attr.dilations.w, attr.dilations.h, attr.dilations.d);
      convParams := GuessBestParamsForAttr(device, precision, attr);
      args := new Arguments();
    }

    /** The four SetInt calls of one axis, stopping at the first failure. */
    method BindAxis(a: Axis, srcBatch: int, dstSlices: nat) returns (st: Status)
      requires convParams.blockSize.w >= 1
      modifies args
      ensures args.intValues.Keys == old(args.intValues.Keys)
      ensures args.objectRefs == old(args.objectRefs) && args.objectsSet == old(args.objectsSet)
      ensures st == FirstMissing(AxisArgOrder(a), old(args.intValues.Keys))
      ensures st == Ok <==> AxisArgs(a) <= old(args.intValues.Keys)
      ensures st == Ok || (st.IntNotFound? && st.intArg in AxisArgs(a) && st.intArg !in old(args.intValues))
      ensures st == Ok ==> args.intsSet == old(args.intsSet) + AxisArgs(a)
      ensures st == Ok ==> BoundOn(old(args.intValues), args.intValues, AxisArgs(a),
                                   convParams, Geometry(), srcBatch, dstSlices)
    {
      ghost var m0, s0 := args.intValues, args.intsSet;
      AxisOrderOutcome(a, m0.Keys);
      var scale := if a == X then srcBatch else 1;
      st := args.SetInt(AxisArg(Stride, a), AxisComponent(stride, a));
      if st == Ok {
        st := args.SetInt(AxisArg(Padding, a), AxisComponent(padding, a) * scale);
        if st == Ok {
          st := args.SetInt(AxisArg(KernelSize, a), AxisComponent(kernelSize, a));
          if st == Ok {
            st := args.SetInt(AxisArg(Dilation, a), AxisComponent(dilation, a) * scale);
            if st == Ok {
              AxisUpdatesBind(m0, a, convParams, Geometry(), srcBatch, dstSlices);
              AxisArgsOneByOne(s0, a);
            }
          }
        }
      }
    }

    /** One `if (!conv_params_.?_kernel_is_1)` block of BindArguments. */
    method BindAxisIfActive(a: Axis, srcBatch: int, dstSlices: nat) returns (st: Status)
      requires convParams.blockSize.w >= 1
      modifies args
      ensures args.intValues.Keys == old(args.intValues.Keys)
      ensures args.objectRefs == old(args.objectRefs) && args.objectsSet == old(args.objectsSet)
      ensures st == FirstMissing(ActiveAxisOrder(convParams, a), old(args.intValues.Keys))
      ensures st == Ok <==> ActiveAxisArgs(convParams, a) <= old(args.intValues.Keys)
      ensures st == Ok || (st.IntNotFound? && st.intArg in ActiveAxisArgs(convParams, a)
                           && st.intArg !in old(args.intValues))
      ensures st == Ok ==> args.intsSet == old(args.intsSet) + ActiveAxisArgs(convParams, a)
      ensures st == Ok ==> BoundOn(old(args.intValues), args.intValues, ActiveAxisArgs(convParams, a),
                                   convParams, Geometry(), srcBatch, dstSlices)
    {
      if !KernelIs1(convParams, a) {
        st := BindAxis(a, srcBatch, dstSlices);
      } else {
        st := Ok;
      }
    }

    /** The integer half of BindArguments: the four integers of every axis
        whose kernel is not trivially 1, then grid_size_s. */
    method BindIntArgs(srcBatch: int, dstSlices: nat) returns (st: Status)
      requires convParams.blockSize.w >= 1
      modifies args
      ensures args.intValues.Keys == old(args.intValues.Keys)
      ensures args.objectRefs == old(args.objectRefs) && args.objectsSet == old(args.objectsSet)
      ensures st == FirstMissing(BindOrder(convParams), old(args.intValues.Keys))
      ensures st == Ok <==> ExpectedIntArgs(convParams) <= old(args.intValues.Keys)
      ensures st == Ok || (st.IntNotFound? && st.intArg in ExpectedIntArgs(convParams)
                           && st.intArg !in old(args.intValues))
      ensures st == Ok ==> args.intsSet == old(args.intsSet) + ExpectedIntArgs(convParams)
      ensures st == Ok ==> BoundOn(old(args.intValues), args.intValues, ExpectedIntArgs(convParams),
                                   convParams, Geometry(), srcBatch, dstSlices)
    {
      var p, g := convParams, Geometry();
      ghost var m0 := args.intValues;
      ExpectedDeclaredIn(p, m0.Keys);
      BindOrderOutcome(p, m0.Keys);
      st := BindAxisIfActive(X, srcBatch, dstSlices);
      if st == Ok {
        ghost var m1 := args.intValues;
        st := BindAxisIfActive(Y, srcBatch, dstSlices);
        if st == Ok {
          ghost var m2 := args.intValues;
          BoundOnCompose(m0, m1, m2, ActiveAxisArgs(p, X), ActiveAxisArgs(p, Y), p, g, srcBatch, dstSlices);
          st := BindAxisIfActive(Z, srcBatch, dstSlices);
          if st == Ok {
            ghost var m3 := args.intValues;
            ghost var xy := ActiveAxisArgs(p, X) + ActiveAxisArgs(p, Y);
            BoundOnCompose(m0, m2, m3, xy, ActiveAxisArgs(p, Z), p, g, srcBatch, dstSlices);
            st := args.SetInt(GridSizeSArg, DivideRoundUp(dstSlices, convParams.blockSize.w));
            if st == Ok {
              ghost var xyz := xy + ActiveAxisArgs(p, Z);
              GridSizeBound(m3, p, g, srcBatch, dstSlices);
              BoundOnCompose(m0, m3, args.intValues, xyz, {GridSizeSArg}, p, g, srcBatch, dstSlices);
            }
          }
        }
      }
    }

    /** Conv3D::BindArguments: bind both tensors, then the integers, returning
        the first failure. */
    method BindArguments(srcBatch: int, dst: DstShape) returns (st: Status)
      requires convParams.blockSize.w >= 1
      modifies args
      ensures args.intValues.Keys == old(args.intValues.Keys) && args.objectRefs == old(args.objectRefs)
      ensures st == BindOutcome(convParams, old(args.intValues.Keys), old(args.objectRefs))
      ensures st == Ok <==> BindReady(convParams, old(args.intValues.Keys), old(args.objectRefs))
      ensures st.IntNotFound? ==> st.intArg in ExpectedIntArgs(convParams) && st.intArg !in old(args.intValues)
      ensures st.TensorNotFound? ==> st.tensorArg !in old(args.objectRefs)
      ensures !st.SearchFailed?
      ensures st == Ok ==> args.intsSet == old(args.intsSet) + ExpectedIntArgs(convParams)
      ensures st == Ok ==> args.objectsSet == old(args.objectsSet) + {SrcTensor, DstTensor}
      ensures st == Ok ==> BoundOn(old(args.intValues), args.intValues, ExpectedIntArgs(convParams),
                                   convParams, Geometry(), srcBatch, dst.slices)
    {
      st := args.SetObjectRef(SrcTensor);
      if st == Ok {
        st := args.SetObjectRef(DstTensor);
        if st == Ok {
          st := BindIntArgs(srcBatch, dst.slices);
        }
      }
    }

    /** Conv3D::Tune: when the configuration allows a search, bind the
        arguments and take the work-group size the search reports; otherwise
        succeed without touching anything. */
    method Tune(srcBatch: int, dst: DstShape, search: SearchOutcome) returns (st: Status)
      requires convParams.blockSize.w >= 1
      modifies this, args
      ensures !SearchesWorkGroup(old(convParams)) ==>
                st == Ok && convParams == old(convParams) && args.intValues == old(args.intValues)
                && args.intsSet == old(args.intsSet) && args.objectsSet == old(args.objectsSet)
      ensures SearchesWorkGroup(old(convParams)) ==>
                (st == Ok <==> BindReady(old(convParams), old(args.intValues.Keys), old(args.objectRefs))
                               && search.Found?)
      ensures SearchesWorkGroup(old(convParams)) ==>
                && args.intValues.Keys == old(args.intValues.Keys)
                && st == (var bind := BindOutcome(old(convParams), old(args.intValues.Keys), old(args.objectRefs));
                          if bind != Ok then bind else if search.Found? then Ok else SearchFailed)
      ensures SearchesWorkGroup(old(convParams))
              && BindReady(old(convParams), old(args.intValues.Keys), old(args.objectRefs)) ==>
                && args.intsSet == old(args.intsSet) + ExpectedIntArgs(old(convParams))
                && args.objectsSet == old(args.objectsSet) + {SrcTensor, DstTensor}
                && BoundOn(old(args.intValues), args.intValues, ExpectedIntArgs(old(convParams)),
                           old(convParams), Geometry(), srcBatch, dst.slices)
      ensures convParams == if SearchesWorkGroup(old(convParams)) && st == Ok
                            then old(convParams).(workGroupSize := search.size)
                            else old(convParams)
      ensures args.objectRefs == old(args.objectRefs)
    {
      st := Ok;
      if !convParams.NeedLocalMem() {
        if convParams.workGroupLaunchOrder.x == 0 && convParams.workGroupLaunchOrder.y == 1
           && convParams.workGroupLaunchOrder.z == 2 {
          st := BindArguments(srcBatch, dst);
          if st == Ok {
            match search
            case Found(size) =>
              convParams := convParams.(workGroupSize := size);
            case NotTuned =>
              st := SearchFailed;
          }
        }
      }
    }
  }

  /** Declaring (GenerateConv3D, run by Compile) and then binding (run by Tune
      and AddToQueue) on a freshly built operation always succeeds, and every
      declared integer ends up set to its bound value: the two lists are in
      lock-step for every device, precision and attribute set. */
  method DeclareThenBind(device: DeviceFamily, precision: Precision, attr: Convolution3DAttributes,
                         srcBatch: int, dst: DstShape)
    returns (st: Status, values: map<IntArg, int>, ghost bound: set<IntArg>)
    requires AttrsWellFormed(attr)
    ensures var p := GuessBestParamsForAttr(device, precision, attr);
            && st == Ok
            && values.Keys == ExpectedIntArgs(p) && bound == values.Keys
            && forall n :: n in values ==> values[n] == BoundValue(n, p, AttrGeometry(attr), srcBatch, dst.slices)
  {
    var op := new Conv3D(device, precision, attr);
    DeclareConv3DArguments(op.convParams, op.args);
    st := op.BindArguments(srcBatch, dst);
    values := op.args.intValues;
    bound := op.args.intsSet;
  }
}
