/** Value types shared by every part of the 3-D convolution planner:
    the int3/int4 vectors, the device and precision enumerations, the
    weights-upload strategy, the ConvParams configuration record, and the
    integer facts (ceiling division, quotient/remainder uniqueness) that the
    planner's proofs rest on. */
module Conv3DTypes {

  /** The source's int3: three signed components addressed as x, y, z or by index. */
  datatype Int3 = Int3(x: int, y: int, z: int) {
    function At(i: int): int
      requires 0 <= i < 3
    {
      if i == 0 then x else if i == 1 then y else z
    }

    /** `v[i] = value`, the component write used to build launch_remap. */
    function With(i: int, value: int): (r: Int3)
      requires 0 <= i < 3
      ensures r.At(i) == value
      ensures forall j :: 0 <= j < 3 && j != i ==> r.At(j) == At(j)
    {
      if i == 0 then Int3(value, y, z)
      else if i == 1 then Int3(x, value, z)
      else Int3(x, y, value)
    }

    predicate Positive() {
      x >= 1 && y >= 1 && z >= 1
    }
  }

  /** The source's int4; for a block size, w is the number of output slices per work item. */
  datatype Int4 = Int4(x: int, y: int, z: int, w: int) {
    predicate Positive() {
      x >= 1 && y >= 1 && z >= 1 && w >= 1
    }
  }

  /** The device-family queries IsNvidia/IsPowerVR/IsAdreno/IsMali, as one closed variant. */
  datatype DeviceFamily = Nvidia | PowerVR | Adreno | Mali | OtherGpu

  /** CalculationsPrecision. */
  datatype Precision = F32 | F16 | F32F16

  /** Conv3D::WeightsUploadType. */
  datatype WeightsUploadType =
    | LocalMemAsyncSubgroup
    | LocalMemByThreads
    | GlobalMem
    | TexturesMem

  /** Conv3D::ConvParams. */
  datatype ConvParams = ConvParams(
    blockSize: Int4,
    workGroupSize: Int3,
    workGroupLaunchOrder: Int3,
    srcDepthLoopSize: int,
    xKernelIs1: bool,
    yKernelIs1: bool,
    zKernelIs1: bool,
    weightsUploadType: WeightsUploadType)
  {
    /** AreWeightsBuffer(): weights live in a buffer unless they are read from textures. */
    predicate AreWeightsBuffer() {
      weightsUploadType != TexturesMem
    }

    /** The two strategies that stage weights in local memory. */
    predicate NeedLocalMem() {
      weightsUploadType == LocalMemByThreads || weightsUploadType == LocalMemAsyncSubgroup
    }

    predicate Is1x1x1() {
      xKernelIs1 && yKernelIs1 && zKernelIs1
    }
  }

  /** Every component of a launch order names one of the three physical axes. */
  predicate ValidOrder(o: Int3) {
    0 <= o.x < 3 && 0 <= o.y < 3 && 0 <= o.z < 3
  }

  /** A launch order that is a permutation of (0, 1, 2). */
  predicate IsPermutation(o: Int3) {
    ValidOrder(o) && o.x != o.y && o.y != o.z && o.x != o.z
  }

  function Min(a: int, b: int): (m: int)
    ensures m <= a && m <= b && (m == a || m == b)
  {
    if a <= b then a else b
  }

  /** a <= b implies a * c <= b * c for c >= 0. */
  lemma {:induction false} MulMonotone(a: int, b: int, c: nat)
    requires a <= b
    ensures a * c <= b * c
  {
    if c > 0 {
      MulMonotone(a, b, c - 1);
      assert a * c == a * (c - 1) + a;
      assert b * c == b * (c - 1) + b;
    }
  }

  lemma DivModSplit(v: int, d: int)
    requires d >= 1
    ensures v == (v / d) * d + v % d
  {
  }

  /** v lies in its d-sized block: (v / d) * d <= v < (v / d) * d + d. */
  lemma BlockStart(v: int, d: int)
    requires d >= 1
    ensures (v / d) * d <= v < (v / d) * d + d
  {
    assert v == (v / d) * d + v % d;
  }

  /** The quotient and remainder of n by d are determined by n = q * d + r, 0 <= r < d. */
  lemma DivModUnique(n: int, d: int, q: int, r: int)
    requires d >= 1 && 0 <= r < d && n == q * d + r
    ensures q == n / d && r == n % d
  {
    var q', r' := n / d, n % d;
    assert n == q' * d + r' && 0 <= r' < d;
    if q < q' {
      MulMonotone(q + 1, q', d);
      assert false;
    } else if q' < q {
      MulMonotone(q' + 1, q, d);
      assert false;
    }
  }

  /** A value lies in block number l of size b exactly when l is its quotient by b. */
  lemma BlockIndex(e: int, b: int, l: int)
    requires b >= 1 && l * b <= e < l * b + b
    ensures l == e / b
  {
    DivModUnique(e, b, l, e - l * b);
  }

  /** n < q * d with n >= 0 and d >= 1 bounds the quotient: n / d < q. */
  lemma QuotientBelow(n: int, d: int, q: int)
    requires n >= 0 && d >= 1 && n < q * d
    ensures 0 <= n / d < q
  {
    var q' := n / d;
    assert n == q' * d + n % d;
    if q' < 0 {
      MulMonotone(q', -1, d);
      assert false;
    }
    if q' >= q {
      MulMonotone(q, q', d);
      assert false;
    }
  }

  /** DivideRoundUp (defined in util.h, not part of this model): ceiling division
      for a non-negative dividend and a positive divisor. The result is the
      least number of d-sized blocks that covers n. */
  function DivideRoundUp(n: int, d: int): (r: int)
    requires n >= 0 && d >= 1
    ensures r >= 0 && r * d >= n && (r - 1) * d < n
  {
    var q := n / d;
    assert n == q * d + n % d;
    QuotientBelow(n, d, n / d + 1);
    if n % d == 0 then q else q + 1
  }
}
