/** The attribute normaliser and the parameter selector of the 3-D convolution
    (Conv3D::GuessBestParams, both overloads).

    The selector is written twice. `GuessBestParams` follows the source step by
    step, updating one local ConvParams through the device if-chain.
    `SelectedParams` is a declarative reference that looks up a per-family
    policy record (a block-width ladder given as data, an optional width cap,
    an unroll rule) and applies it. The method is proved equal to the
    reference, and the lemmas below prove what every configuration the
    selector returns satisfies. */
module ParamSelector {
  import opened Conv3DTypes

  /** One rung of an output block-width ladder: `width` is chosen when the
      output slice count is a multiple of it or reaches `threshold`. */
  datatype Rung = Rung(width: int, threshold: int)

  /** How a family picks the input-slice unroll factor (src_depth_loop_size). */
  datatype UnrollRule =
    | NoUnroll
      // 2 for an even slice count, 4 when it is a multiple of 4 and the block is at most 2 wide
    | ByDivisibility
      // as ByDivisibility, except that a 1-wide block unrolls over all slices when there are at most 8
    | ByDivisibilityOrAll

  datatype WidthCap = NoCap | CapAt(limit: int)

  /** A device family's tiling policy. When `ladder` is empty the block width is `block.w`. */
  datatype Policy = Policy(
    block: Int4,
    workGroup: Int3,
    launchOrder: Int3,
    upload: WeightsUploadType,
    ladder: seq<Rung>,
    cap: WidthCap,
    unroll: UnrollRule)

  /** Every rung can be taken only by a slice count at least as large as its width. */
  predicate LadderWellFormed(ladder: seq<Rung>) {
    forall i :: 0 <= i < |ladder| ==> 1 <= ladder[i].width <= ladder[i].threshold
  }

  const FourWideLadder: seq<Rung> := [Rung(4, 8), Rung(2, 4)]
  const EightWideLadder: seq<Rung> := [Rung(8, 32), Rung(4, 8), Rung(2, 4)]

  /** The first rung the slice count qualifies for; the slice count itself when none does. */
  function LadderWidth(ladder: seq<Rung>, dstSlices: nat): int
    requires LadderWellFormed(ladder)
  {
    if ladder == [] then dstSlices
    else if dstSlices % ladder[0].width == 0 || dstSlices >= ladder[0].threshold then ladder[0].width
    else LadderWidth(ladder[1..], dstSlices)
  }

  /** A well-formed ladder never picks more slices than there are, nor fewer than one. */
  lemma {:induction false} LadderWidthBounds(ladder: seq<Rung>, dstSlices: nat)
    requires LadderWellFormed(ladder) && dstSlices >= 1
    ensures 1 <= LadderWidth(ladder, dstSlices) <= dstSlices
  {
    if ladder != [] {
      var r := ladder[0];
      if dstSlices % r.width == 0 {
        // a positive multiple of the width is at least the width
        if dstSlices < r.width {
          DivModUnique(dstSlices, r.width, 0, dstSlices);
          assert false;
        }
      } else if dstSlices < r.threshold {
        assert LadderWellFormed(ladder[1..]) by {
          forall i | 0 <= i < |ladder[1..]| ensures 1 <= ladder[1..][i].width <= ladder[1..][i].threshold {
            assert ladder[1..][i] == ladder[i + 1];
          }
        }
        LadderWidthBounds(ladder[1..], dstSlices);
      }
    }
  }

  /** For a slice count of at least one, a ladder never returns zero rungs wide. */
  lemma LadderWidthPositive(ladder: seq<Rung>, dstSlices: nat)
    requires LadderWellFormed(ladder) && ladder != []
    ensures LadderWidth(ladder, dstSlices) >= 1
    decreases |ladder|
  {
    if dstSlices == 0 {
      assert 0 % ladder[0].width == 0;
    } else {
      LadderWidthBounds(ladder, dstSlices);
    }
  }

  /** The policy record of each device family (the device if-chain, as data). */
  function FamilyPolicy(device: DeviceFamily, precision: Precision): (pol: Policy)
    ensures LadderWellFormed(pol.ladder)
  {
    match device
    case Nvidia =>
      Policy(Int4(1, 1, 1, 4), Int3(8, 4, 1), Int3(2, 0, 1), LocalMemByThreads,
             FourWideLadder, NoCap, ByDivisibility)
    case PowerVR =>
      if precision == F16 then
        Policy(Int4(2, 1, 1, 4), Int3(4, 8, 1), Int3(2, 0, 1), LocalMemAsyncSubgroup,
               EightWideLadder, CapAt(4), ByDivisibilityOrAll)
      else
        Policy(Int4(1, 1, 1, 4), Int3(8, 4, 1), Int3(2, 0, 1), LocalMemAsyncSubgroup,
               EightWideLadder, NoCap, NoUnroll)
    case Adreno =>
      Policy(Int4(2, 2, 1, 2), Int3(8, 4, 1), Int3(0, 1, 2), TexturesMem, [], NoCap, NoUnroll)
    case Mali =>
      Policy(Int4(1, 1, 1, 4), Int3(8, 4, 1), Int3(0, 1, 2), GlobalMem,
             FourWideLadder, NoCap, ByDivisibility)
    case OtherGpu =>
      Policy(Int4(2, 2, 1, 2), Int3(8, 4, 1), Int3(0, 1, 2), TexturesMem, [], NoCap, NoUnroll)
  }

  function BlockWidth(pol: Policy, dstSlices: nat): int
    requires LadderWellFormed(pol.ladder)
  {
    if pol.ladder == [] then pol.block.w
    else
      var w := LadderWidth(pol.ladder, dstSlices);
      match pol.cap
      case NoCap => w
      case CapAt(limit) => Min(limit, w)
  }

  function DivisibilityUnroll(srcSlices: nat, width: int): int {
    if srcSlices % 4 == 0 && width <= 2 then 4
    else if srcSlices % 2 == 0 then 2
    else 1
  }

  function UnrollFactor(rule: UnrollRule, srcSlices: nat, width: int): int {
    match rule
    case NoUnroll => 1
    case ByDivisibility => DivisibilityUnroll(srcSlices, width)
    case ByDivisibilityOrAll =>
      if width == 1 && srcSlices <= 8 then srcSlices else DivisibilityUnroll(srcSlices, width)
  }

  /** The reference selector: the family's policy applied to the slice counts. */
  function SelectedParams(device: DeviceFamily, precision: Precision, srcSlices: nat, dstSlices: nat,
                          xKernelIs1: bool, yKernelIs1: bool, zKernelIs1: bool): ConvParams
  {
    var pol := FamilyPolicy(device, precision);
    var w := BlockWidth(pol, dstSlices);
    ConvParams(pol.block.(w := w), pol.workGroup, pol.launchOrder,
               UnrollFactor(pol.unroll, srcSlices, w),
               xKernelIs1, yKernelIs1, zKernelIs1, pol.upload)
  }

  /** The two ladders written out as the source's if-chains. */
  lemma LadderWidthUnfolded(dstSlices: nat)
    ensures LadderWidth(FourWideLadder, dstSlices)
         == if dstSlices % 4 == 0 || dstSlices >= 8 then 4
            else if dstSlices % 2 == 0 || dstSlices >= 4 then 2
            else dstSlices
    ensures LadderWidth(EightWideLadder, dstSlices)
         == if dstSlices % 8 == 0 || dstSlices >= 32 then 8
            else if dstSlices % 4 == 0 || dstSlices >= 8 then 4
            else if dstSlices % 2 == 0 || dstSlices >= 4 then 2
            else dstSlices
  {
    var low := if dstSlices % 2 == 0 || dstSlices >= 4 then 2 else dstSlices;
    var mid := if dstSlices % 4 == 0 || dstSlices >= 8 then 4 else low;
    assert FourWideLadder[1..] == [Rung(2, 4)] && FourWideLadder[1..][1..] == [];
    assert LadderWidth([Rung(2, 4)], dstSlices) == low by {
      assert [Rung(2, 4)][1..] == [];
    }
    assert LadderWidth(FourWideLadder, dstSlices) == mid;
    assert EightWideLadder[1..] == [Rung(4, 8), Rung(2, 4)] == FourWideLadder;
  }

  /** The block-width if-chain of the Nvidia and Mali branches. */
  method ChooseFourWide(dstSlices: nat) returns (w: int)
    ensures w == LadderWidth(FourWideLadder, dstSlices)
  {
    if dstSlices % 4 == 0 || dstSlices >= 8 {
      w := 4;
    } else if dstSlices % 2 == 0 || dstSlices >= 4 {
      w := 2;
    } else {
      w := dstSlices;
    }
    LadderWidthUnfolded(dstSlices);
  }

  /** The block-width if-chain of the PowerVR branch. */
  method ChooseEightWide(dstSlices: nat) returns (w: int)
    ensures w == LadderWidth(EightWideLadder, dstSlices)
  {
    if dstSlices % 8 == 0 || dstSlices >= 32 {
      w := 8;
    } else if dstSlices % 4 == 0 || dstSlices >= 8 {
      w := 4;
    } else if dstSlices % 2 == 0 || dstSlices >= 4 {
      w := 2;
    } else {
      w := dstSlices;
    }
    LadderWidthUnfolded(dstSlices);
  }

  /** The two `if`s that raise src_depth_loop_size from 1 to 2 and then 4. */
  method ChooseUnroll(srcSlices: nat, w: int) returns (loop: int)
    ensures loop == DivisibilityUnroll(srcSlices, w)
  {
    loop := 1;
    if srcSlices % 2 == 0 {
      loop := 2;
    }
    if srcSlices % 4 == 0 && w <= 2 {
      loop := 4;
    }
  }

  /** Conv3D::GuessBestParams(device, definition, src_slices, dst_slices, x1, y1, z1),
      one assignment per source statement; the if-chains the source repeats in
      several branches are the three methods above. The fields of the source's
      local `conv_params` are held in one local variable each and assembled at
      the end. */
  method GuessBestParams(device: DeviceFamily, precision: Precision, srcSlices: nat, dstSlices: nat,
                         xKernelIs1: bool, yKernelIs1: bool, zKernelIs1: bool)
    returns (p: ConvParams)
    ensures p == SelectedParams(device, precision, srcSlices, dstSlices, xKernelIs1, yKernelIs1, zKernelIs1)
  {
    var blockSize: Int4, workGroupSize: Int3, launchOrder: Int3;
    var srcDepthLoopSize: int, uploadType: WeightsUploadType;
    if device == Nvidia {
      blockSize := Int4(1, 1, 1, 4);
      workGroupSize := Int3(8, 4, 1);
      launchOrder := Int3(2, 0, 1);
      srcDepthLoopSize := 1;
      uploadType := LocalMemByThreads;
      var w := ChooseFourWide(dstSlices);
      blockSize := blockSize.(w := w);
      srcDepthLoopSize := ChooseUnroll(srcSlices, blockSize.w);
    } else if device == PowerVR {
      blockSize := Int4(1, 1, 1, 4);
      workGroupSize := Int3(8, 4, 1);
      launchOrder := Int3(2, 0, 1);
      srcDepthLoopSize := 1;
      uploadType := LocalMemAsyncSubgroup;
      var w := ChooseEightWide(dstSlices);
      blockSize := blockSize.(w := w);
      if precision == F16 {
        blockSize := blockSize.(w := Min(4, blockSize.w));
        srcDepthLoopSize := ChooseUnroll(srcSlices, blockSize.w);
        if blockSize.w == 1 {
          if srcSlices % 2 == 0 {
            srcDepthLoopSize := 2;
          }
          if srcSlices % 4 == 0 {
            srcDepthLoopSize := 4;
          }
          if srcSlices <= 8 {
            srcDepthLoopSize := srcSlices;
          }
        }
        blockSize := blockSize.(x := 2);
        workGroupSize := Int3(4, 8, 1);
      }
    } else if device == Adreno {
      blockSize := Int4(2, 2, 1, 2);
      workGroupSize := Int3(8, 4, 1);
      launchOrder := Int3(0, 1, 2);
      srcDepthLoopSize := 1;
      uploadType := TexturesMem;
    } else if device == Mali {
      blockSize := Int4(1, 1, 1, 4);
      workGroupSize := Int3(8, 4, 1);
      launchOrder := Int3(0, 1, 2);
      srcDepthLoopSize := 1;
      uploadType := GlobalMem;
      var w := ChooseFourWide(dstSlices);
      blockSize := blockSize.(w := w);
      srcDepthLoopSize := ChooseUnroll(srcSlices, blockSize.w);
    } else {
      blockSize := Int4(2, 2, 1, 2);
      workGroupSize := Int3(8, 4, 1);
      launchOrder := Int3(0, 1, 2);
      srcDepthLoopSize := 1;
      uploadType := TexturesMem;
    }
    p := ConvParams(blockSize, workGroupSize, launchOrder, srcDepthLoopSize,
                    xKernelIs1, yKernelIs1, zKernelIs1, uploadType);
  }

  // ----- What every selected configuration satisfies -----

  /** In every family the unroll factor is at least one and divides the input
      slice count, so the unrolled slice loop never steps past the last slice
      (the 1/2/4 ladder, and the PowerVR half-precision case that unrolls over
      all slices of a 1-wide block). */
  lemma UnrollDividesSrcSlices(device: DeviceFamily, precision: Precision, srcSlices: nat, dstSlices: nat,
                               x1: bool, y1: bool, z1: bool)
    requires srcSlices >= 1
    ensures var p := SelectedParams(device, precision, srcSlices, dstSlices, x1, y1, z1);
            p.srcDepthLoopSize >= 1 && srcSlices % p.srcDepthLoopSize == 0
  {
    var pol := FamilyPolicy(device, precision);
    var w := BlockWidth(pol, dstSlices);
    var loop := UnrollFactor(pol.unroll, srcSlices, w);
    if loop == srcSlices {
      DivModUnique(srcSlices, srcSlices, 1, 0);
    } else if loop == 4 {
      assert srcSlices % 4 == 0;
    } else if loop == 2 {
      assert srcSlices % 2 == 0;
    }
  }

  /** Nvidia, PowerVR and Mali pick a block width between 1 and the output slice count. */
  lemma LadderFamiliesWidthWithinSlices(device: DeviceFamily, precision: Precision, srcSlices: nat,
                                         dstSlices: nat, x1: bool, y1: bool, z1: bool)
    requires dstSlices >= 1
    requires device == Nvidia || device == PowerVR || device == Mali
    ensures var p := SelectedParams(device, precision, srcSlices, dstSlices, x1, y1, z1);
            1 <= p.blockSize.w <= dstSlices
  {
    LadderWidthBounds(FamilyPolicy(device, precision).ladder, dstSlices);
  }

  /** PowerVR in half precision: the width is further capped at 4, the block is
      two wide in x and the work group is (4, 8, 1). */
  lemma PowerVRHalfPrecisionShape(srcSlices: nat, dstSlices: nat, x1: bool, y1: bool, z1: bool)
    ensures var p := SelectedParams(PowerVR, F16, srcSlices, dstSlices, x1, y1, z1);
            p.blockSize.w <= 4 && p.blockSize.x == 2 && p.blockSize.y == 1 && p.blockSize.z == 1
            && p.workGroupSize == Int3(4, 8, 1)
            && p.weightsUploadType == LocalMemAsyncSubgroup
  {
  }

  /** Adreno and unknown families use the fixed (2, 2, 1, 2) block with texture
      weights and no unrolling, whatever the slice counts; the block can
      therefore be wider than the output, which the per-slice write guard covers. */
  lemma FixedBlockFamilies(device: DeviceFamily, precision: Precision, srcSlices: nat, dstSlices: nat,
                           x1: bool, y1: bool, z1: bool)
    requires device == Adreno || device == OtherGpu
    ensures var p := SelectedParams(device, precision, srcSlices, dstSlices, x1, y1, z1);
            p.blockSize == Int4(2, 2, 1, 2) && p.weightsUploadType == TexturesMem
            && p.srcDepthLoopSize == 1 && p.workGroupLaunchOrder == Int3(0, 1, 2)
  {
  }

  /** Texture-resident weights are only ever chosen with an unroll factor of 1. */
  lemma TexturesImplySingleStep(device: DeviceFamily, precision: Precision, srcSlices: nat, dstSlices: nat,
                                x1: bool, y1: bool, z1: bool)
    ensures var p := SelectedParams(device, precision, srcSlices, dstSlices, x1, y1, z1);
            p.weightsUploadType == TexturesMem ==> p.srcDepthLoopSize == 1
  {
  }

  /** Every selected configuration has positive block and work-group sizes, a
      launch order that is a permutation, and the unit-kernel flags it was given. */
  lemma SelectedParamsWellFormed(device: DeviceFamily, precision: Precision, srcSlices: nat,
                                 dstSlices: nat, x1: bool, y1: bool, z1: bool)
    ensures var p := SelectedParams(device, precision, srcSlices, dstSlices, x1, y1, z1);
            p.blockSize.Positive() && p.workGroupSize.Positive()
            && IsPermutation(p.workGroupLaunchOrder)
            && p.xKernelIs1 == x1 && p.yKernelIs1 == y1 && p.zKernelIs1 == z1
  {
    var pol := FamilyPolicy(device, precision);
    if pol.ladder != [] {
      LadderWidthPositive(pol.ladder, dstSlices);
    }
  }

  /** PowerVR, half precision, 16 output and 9 input slices: the width is capped
      at 4 although the ladder gives 8, and the odd input count leaves the
      unroll factor at 1. */
  lemma PowerVRHalfNineSourceSlices()
    ensures var p := SelectedParams(PowerVR, F16, 9, 16, false, false, false);
            LadderWidth(EightWideLadder, 16) == 8 && p.blockSize.w == 4 && p.srcDepthLoopSize == 1
  {
  }

  // ----- The attribute normaliser -----

  datatype HWD = HWD(w: int, h: int, d: int)
  /** Weight tensor shape: output channels, height, width, depth, input channels. */
  datatype OHWDI = OHWDI(o: int, h: int, w: int, d: int, i: int)
  datatype Padding3D = Padding3D(prepended: HWD, appended: HWD)
  datatype Convolution3DAttributes = Convolution3DAttributes(
    weightsShape: OHWDI, strides: HWD, dilations: HWD, padding: Padding3D)

  /** An axis has a unit kernel when its kernel length, stride and dilation are 1
      and it is not padded on either side. */
  predicate AxisKernelIs1(kernel: int, stride: int, dilation: int, prepended: int, appended: int) {
    kernel == 1 && stride == 1 && dilation == 1 && prepended == 0 && appended == 0
  }

  predicate AttrsWellFormed(attr: Convolution3DAttributes) {
    attr.weightsShape.o >= 0 && attr.weightsShape.i >= 0
  }

  predicate XKernelIs1(attr: Convolution3DAttributes) {
    AxisKernelIs1(attr.weightsShape.w, attr.strides.w, attr.dilations.w,
                  attr.padding.prepended.w, attr.padding.appended.w)
  }

  predicate YKernelIs1(attr: Convolution3DAttributes) {
    AxisKernelIs1(attr.weightsShape.h, attr.strides.h, attr.dilations.h,
                  attr.padding.prepended.h, attr.padding.appended.h)
  }

  predicate ZKernelIs1(attr: Convolution3DAttributes) {
    AxisKernelIs1(attr.weightsShape.d, attr.strides.d, attr.dilations.d,
                  attr.padding.prepended.d, attr.padding.appended.d)
  }

  /** Channel slices: channels in groups of four, rounded up. */
  function Slices(channels: nat): (s: nat)
    ensures 4 * s >= channels && 4 * (s - 1) < channels
  {
    DivideRoundUp(channels, 4)
  }

  /** Conv3D::GuessBestParams(device, definition, attr): normalise the attributes,
      then select. */
  function GuessBestParamsForAttr(device: DeviceFamily, precision: Precision,
                                  attr: Convolution3DAttributes): (p: ConvParams)
    requires AttrsWellFormed(attr)
    ensures p.xKernelIs1 == XKernelIs1(attr) && p.yKernelIs1 == YKernelIs1(attr)
            && p.zKernelIs1 == ZKernelIs1(attr)
    ensures p.blockSize.Positive() && p.workGroupSize.Positive() && IsPermutation(p.workGroupLaunchOrder)
    ensures attr.weightsShape.i >= 1 ==>
              p.srcDepthLoopSize >= 1 && Slices(attr.weightsShape.i) % p.srcDepthLoopSize == 0
    ensures p.weightsUploadType == TexturesMem ==> p.srcDepthLoopSize == 1
  {
    var dstSlices := Slices(attr.weightsShape.o);
    var srcSlices := Slices(attr.weightsShape.i);
    var x1, y1, z1 := XKernelIs1(attr), YKernelIs1(attr), ZKernelIs1(attr);
    SelectedParamsWellFormed(device, precision, srcSlices, dstSlices, x1, y1, z1);
    if srcSlices >= 1 then
      UnrollDividesSrcSlices(device, precision, srcSlices, dstSlices, x1, y1, z1);
      SelectedParams(device, precision, srcSlices, dstSlices, x1, y1, z1)
    else
      SelectedParams(device, precision, srcSlices, dstSlices, x1, y1, z1)
  }

  /** A 1x1x1 kernel with unit stride and dilation and no padding marks all three
      axes as unit-kernel axes. */
  lemma PointwiseKernelScenario(device: DeviceFamily, precision: Precision, o: nat, i: nat)
    ensures var attr := Convolution3DAttributes(OHWDI(o, 1, 1, 1, i), HWD(1, 1, 1), HWD(1, 1, 1),
                                                Padding3D(HWD(0, 0, 0), HWD(0, 0, 0)));
            GuessBestParamsForAttr(device, precision, attr).Is1x1x1()
  {
  }
}
