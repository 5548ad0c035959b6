/** Shape bookkeeping for the graph nodes the DCGAN layer builds.
    A tensor handle is represented by its declared shape; an operation whose
    operands have inconsistent shapes yields None. TensorFlow reports such an
    error while the graph is constructed or, for kernels such as
    Conv2DBackpropInput, only when the graph runs. */
module Shapes {
  import opened Opt

  type Shape = seq<int>

  predicate NonNegative(s: Shape) {
    forall i :: 0 <= i < |s| ==> s[i] >= 0
  }

  /** Number of elements of a tensor of shape s. */
  function Product(s: Shape): int {
    if |s| == 0 then 1 else Product(s[..|s| - 1]) * s[|s| - 1]
  }

  lemma ProductAppend(s: Shape, d: int)
    ensures Product(s + [d]) == Product(s) * d
  {
    assert (s + [d])[..|s|] == s;
  }

  lemma Product2(b: int, n: int)
    ensures Product([b, n]) == b * n
  {
    ProductAppend([], b);
    ProductAppend([b], n);
  }

  lemma Product4(b: int, p: int, q: int, c: int)
    ensures Product([b, p, q, c]) == b * (p * q * c)
  {
    Product2(b, p);
    ProductAppend([b, p], q);
    assert [b, p] + [q] == [b, p, q];
    ProductAppend([b, p, q], c);
    assert [b, p, q] + [c] == [b, p, q, c];
    var bp := b * p;
    var pq := p * q;
    assert bp * q == b * pq;
    assert (b * pq) * c == b * (pq * c);
  }

  /** Ceiling division: the spatial size SAME padding gives for stride `stride`. */
  function CeilDiv(n: int, stride: int): int
    requires stride > 0
  {
    (n + stride - 1) / stride
  }

  lemma CeilDivIsCeiling(n: int, stride: int)
    requires n >= 0 && stride > 0
    ensures CeilDiv(n, stride) >= 0
    ensures stride * (CeilDiv(n, stride) - 1) < n <= stride * CeilDiv(n, stride)
  {
    var q := CeilDiv(n, stride);
    var r := (n + stride - 1) % stride;
    assert n + stride - 1 == stride * q + r;
  }

  // ---------------------------------------------------------------------
  // Broadcasting (elementwise Add, Sub, Multiply, Div, SquaredDifference)

  function BroadcastDim(p: int, q: int): Option<int> {
    if p == q then Some(p)
    else if p == 1 then Some(q)
    else if q == 1 then Some(p)
    else None
  }

  /** NumPy-style broadcast of two shapes, aligned at their last axes. */
  function Broadcast(a: Shape, b: Shape): Option<Shape>
    decreases |a| + |b|
  {
    if |a| == 0 then Some(b)
    else if |b| == 0 then Some(a)
    else
      var d :- BroadcastDim(a[|a| - 1], b[|b| - 1]);
      var rest :- Broadcast(a[..|a| - 1], b[..|b| - 1]);
      Some(rest + [d])
  }

  /** t fits into s from the right, each of its axes equal to s's or of size 1. */
  predicate BroadcastsInto(t: Shape, s: Shape) {
    |t| <= |s| &&
    forall j :: 0 <= j < |t| ==> t[j] == s[|s| - |t| + j] || t[j] == 1
  }

  /** Combining s with a shape that broadcasts into it, in either order, gives s. */
  lemma {:induction false} BroadcastInto(s: Shape, t: Shape)
    requires BroadcastsInto(t, s)
    ensures Broadcast(s, t) == Some(s) && Broadcast(t, s) == Some(s)
  {
    if |t| == 0 {
    } else {
      var s', t' := s[..|s| - 1], t[..|t| - 1];
      assert BroadcastsInto(t', s') by {
        forall j | 0 <= j < |t'| ensures t'[j] == s'[|s'| - |t'| + j] || t'[j] == 1 {
          assert t'[j] == t[j] && s'[|s'| - |t'| + j] == s[|s| - |t| + j];
        }
      }
      BroadcastInto(s', t');
      assert s' + [s[|s| - 1]] == s;
    }
  }

  // ---------------------------------------------------------------------
  // Reductions and Squeeze (Moments)

  function AxisSet(axes: seq<int>): set<int> {
    set k | 0 <= k < |axes| :: axes[k]
  }

  predicate AxesInRange(axes: seq<int>, rank: int) {
    forall k :: 0 <= k < |axes| ==> 0 <= axes[k] < rank
  }

  /** The shape of a reduction with kept dimensions: reduced axes become 1. */
  function ReduceKeepDims(s: Shape, axes: set<int>): Shape {
    seq(|s|, i requires 0 <= i < |s| => if i in axes then 1 else s[i])
  }

  /** s with the axes in `axes` removed, the others in their order. */
  function Kept(s: Shape, axes: set<int>): Shape {
    if |s| == 0 then []
    else Kept(s[..|s| - 1], axes) + (if |s| - 1 in axes then [] else [s[|s| - 1]])
  }

  /** How many of the axes 0 .. n-1 are in `axes`. */
  function Removed(n: nat, axes: set<int>): (r: nat)
    ensures r <= n
  {
    if n == 0 then 0 else Removed(n - 1, axes) + (if n - 1 in axes then 1 else 0)
  }

  /** Kept drops exactly the listed axes: its length is the number of the
      others. */
  lemma {:induction false} KeptLength(s: Shape, axes: set<int>)
    ensures |Kept(s, axes)| == |s| - Removed(|s|, axes)
  {
    if |s| > 0 {
      KeptLength(s[..|s| - 1], axes);
    }
  }

  /** Every axis i that is not listed survives, at position i minus the
      number of listed axes before it. */
  lemma {:induction false} KeptIndex(s: Shape, axes: set<int>, i: int)
    requires 0 <= i < |s| && i !in axes
    ensures i - Removed(i, axes) < |Kept(s, axes)|
    ensures Kept(s, axes)[i - Removed(i, axes)] == s[i]
  {
    var n := |s| - 1;
    var p := s[..n];
    KeptLength(p, axes);
    if i < n {
      KeptIndex(p, axes, i);
      assert p[i] == s[i];
    }
  }

  /** Squeezing an axis of size 1 loses nothing: the kept axes of a
      keep-dims reduction are those of its input. */
  lemma {:induction false} KeptOfReduced(s: Shape, axes: set<int>)
    ensures Kept(ReduceKeepDims(s, axes), axes) == Kept(s, axes)
  {
    if |s| > 0 {
      var p := s[..|s| - 1];
      assert ReduceKeepDims(s, axes)[..|s| - 1] == ReduceKeepDims(p, axes);
      KeptOfReduced(p, axes);
    }
  }

  /** ReduceMean(..., KeepDims(true)); an axis out of range is an error. */
  function ReduceMean(s: Shape, axes: seq<int>): Option<Shape> {
    if AxesInRange(axes, |s|) then Some(ReduceKeepDims(s, AxisSet(axes))) else None
  }

  /** The axes of size 1. */
  function UnitAxes(s: Shape): set<int> {
    set i | 0 <= i < |s| && s[i] == 1
  }

  /** The axes Squeeze removes: the listed ones, or every axis of size 1
      when the list is empty. */
  function SqueezedAxes(s: Shape, axes: seq<int>): set<int> {
    if |axes| == 0 then UnitAxes(s) else AxisSet(axes)
  }

  /** Squeeze(..., Axis(axes)): every listed axis must exist and have size 1;
      an empty list squeezes out all axes of size 1. */
  function Squeeze(s: Shape, axes: seq<int>): Option<Shape> {
    if forall k :: 0 <= k < |axes| ==> 0 <= axes[k] < |s| && s[axes[k]] == 1
    then Some(Kept(s, SqueezedAxes(s, axes)))
    else None
  }

  datatype MomentsShapes = MomentsShapes(mean: Shape, variance: Shape)

  /** Shapes of the mean and variance handles built by Moments. */
  function Moments(x: Shape, axes: seq<int>, keepDims: bool): Option<MomentsShapes> {
    var m :- ReduceMean(x, axes);
    // SquaredDifference(x, StopGradient(m)) broadcasts m back onto x
    var sd :- Broadcast(x, m);
    var v :- ReduceMean(sd, axes);
    if keepDims then Some(MomentsShapes(m, v))
    else
      var mean :- Squeeze(m, axes);
      var variance :- Squeeze(v, axes);
      Some(MomentsShapes(mean, variance))
  }

  /** Moments succeeds exactly when the axes are in range. Both statistics
      then have the same shape: with keep_dims the input's with the reduced
      axes set to 1; without keep_dims the input's with exactly those axes
      removed, or, for an empty axes list (nothing reduced), with all its
      axes of size 1 removed. */
  lemma MomentsShape(x: Shape, axes: seq<int>, keepDims: bool)
    ensures Moments(x, axes, keepDims).Some? <==> AxesInRange(axes, |x|)
    ensures AxesInRange(axes, |x|) ==>
              var r := if keepDims then ReduceKeepDims(x, AxisSet(axes))
                       else if |axes| == 0 then Kept(x, UnitAxes(x))
                       else Kept(x, AxisSet(axes));
              Moments(x, axes, keepDims) == Some(MomentsShapes(r, r))
  {
    if AxesInRange(axes, |x|) {
      var m := ReduceKeepDims(x, AxisSet(axes));
      BroadcastInto(x, m);
      if !keepDims {
        SqueezeReduced(x, axes);
      }
    }
  }

  /** With no axes and keep_dims false, Moments squeezes every axis of size 1
      out of its input: [4, 1] gives [4]. */
  lemma MomentsWithoutAxes()
    ensures Moments([4, 1], [], false) == Some(MomentsShapes([4], [4]))
  {
    MomentsShape([4, 1], [], false);
    assert UnitAxes([4, 1]) == {1} by {
      assert [4, 1][1] == 1;
    }
    assert Kept([4, 1], {1}) == [4] by {
      assert [4, 1][..1] == [4] && [4][..0] == [];
    }
  }

  /** Squeezing the listed axes out of a keep-dims reduction. */
  lemma SqueezeReduced(x: Shape, axes: seq<int>)
    requires AxesInRange(axes, |x|)
    ensures Squeeze(ReduceKeepDims(x, AxisSet(axes)), axes) ==
              Some(if |axes| == 0 then Kept(x, UnitAxes(x)) else Kept(x, AxisSet(axes)))
  {
    var a := AxisSet(axes);
    var m := ReduceKeepDims(x, a);
    if |axes| == 0 {
      assert m == x;
    } else {
      assert forall k :: 0 <= k < |axes| ==> axes[k] in a;
      assert Squeeze(m, axes) == Some(Kept(m, a));
      KeptOfReduced(x, a);
    }
  }

  // ---------------------------------------------------------------------
  // Operations of the two networks

  /** RandomNormal / RandomUniform / Const of a given shape. */
  function Fill(s: Shape): Option<Shape> {
    if NonNegative(s) then Some(s) else None
  }

  function MatMul(a: Shape, b: Shape): Option<Shape> {
    if |a| == 2 && |b| == 2 && a[1] == b[0] then Some([a[0], b[1]]) else None
  }

  /** Reshape to a fully specified shape with the same number of elements. */
  function Reshape(x: Shape, target: Shape): Option<Shape> {
    if NonNegative(target) && Product(target) == Product(x) then Some(target) else None
  }

  function BiasAdd(x: Shape, bias: Shape): Option<Shape> {
    if |x| >= 2 && |bias| == 1 && x[|x| - 1] == bias[0] then Some(x) else None
  }

  /** Strides in NHWC layout: no stride across batch or channels. */
  predicate StridesOk(strides: seq<int>) {
    |strides| == 4 && strides[0] == 1 && strides[3] == 1 && strides[1] > 0 && strides[2] > 0
  }

  /** Conv2D with SAME padding; the filter is [height, width, in, out]. */
  function Conv2D(x: Shape, filter: Shape, strides: seq<int>): Option<Shape> {
    if |x| == 4 && |filter| == 4 && StridesOk(strides) && x[3] == filter[2]
    then Some([x[0], CeilDiv(x[1], strides[1]), CeilDiv(x[2], strides[2]), filter[3]])
    else None
  }

  /** Conv2DTranspose, built as Conv2DBackpropInput with SAME padding: the
      result has shape inputSizes, and outBackprop must have the shape a
      forward convolution of a tensor of that shape would produce. */
  function Conv2DTranspose(inputSizes: Shape, filter: Shape, outBackprop: Shape, strides: seq<int>): Option<Shape> {
    if |inputSizes| == 4 && NonNegative(inputSizes) && |filter| == 4 && |outBackprop| == 4 && StridesOk(strides)
       && inputSizes[3] == filter[2] && outBackprop[3] == filter[3] && outBackprop[0] == inputSizes[0]
       && outBackprop[1] == CeilDiv(inputSizes[1], strides[1])
       && outBackprop[2] == CeilDiv(inputSizes[2], strides[2])
    then Some(inputSizes)
    else None
  }

  /** The transposed convolution undoes the shape change of the forward one. */
  lemma TransposeInvertsConv2D(y: Shape, filter: Shape, o: Shape, strides: seq<int>)
    requires NonNegative(y)
    ensures Conv2D(y, filter, strides) == Some(o) <==> Conv2DTranspose(y, filter, o, strides) == Some(y)
  {
    if Conv2DTranspose(y, filter, o, strides) == Some(y) {
      assert o == [y[0], CeilDiv(y[1], strides[1]), CeilDiv(y[2], strides[2]), filter[3]];
    }
  }

  /** Output shape of BatchNormalization:
      inv = rsqrt(variance + epsilon) * scale;
      x * inv + (offset - mean * inv). */
  function BatchNormalizationShape(x: Shape, mean: Shape, variance: Shape, offset: Shape,
                                   scale: Shape, epsilon: Shape): Option<Shape> {
    var shifted :- Broadcast(variance, epsilon);
    var inv :- Broadcast(shifted, scale);
    var tmp1 :- Broadcast(x, inv);
    var tmp2 :- Broadcast(mean, inv);
    var bias :- Broadcast(offset, tmp2);
    Broadcast(tmp1, bias)
  }

  /** When the statistics, scale and offset share one shape p that broadcasts
      into x, and epsilon broadcasts into p, the normalised tensor has x's shape. */
  lemma BatchNormalizationKeepsShape(x: Shape, p: Shape, epsilon: Shape)
    requires BroadcastsInto(p, x) && BroadcastsInto(epsilon, p)
    ensures BatchNormalizationShape(x, p, p, p, p, epsilon) == Some(x)
  {
    BroadcastInto(p, epsilon);
    BroadcastInto(p, p);
    BroadcastInto(x, p);
  }

  /** Output y of FusedBatchNorm (NHWC): scale and offset are per channel; in
      inference mode so are the supplied mean and variance, in training mode
      they are not used. */
  function FusedBatchNormShape(x: Shape, scale: Shape, offset: Shape, mean: Shape, variance: Shape,
                               training: bool): Option<Shape> {
    if |x| == 4 && scale == [x[3]] && offset == [x[3]] && (training || (mean == [x[3]] && variance == [x[3]]))
    then Some(x)
    else None
  }

  /** Dropout: RandomUniform(Shape(x)) + keep_prob, floored, times x / keep_prob;
      keep_prob is a one-element constant. */
  function DropoutShape(x: Shape): Option<Shape> {
    // random + keep_prob and x / keep_prob both broadcast x against [1]
    var r :- Broadcast(x, [1]);
    Broadcast(r, r)
  }

  lemma DropoutKeepsShape(x: Shape)
    requires |x| >= 1
    ensures DropoutShape(x) == Some(x)
  {
    BroadcastInto(x, [1]);
    BroadcastInto(x, x);
  }
}
