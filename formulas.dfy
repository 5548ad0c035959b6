/** The scalar formulas the layer writes into its graph, over exact reals
    (32-bit floating point rounding is not modelled). The transcendental
    functions the graph applies (rsqrt, sqrt, log1p of exp) appear as
    parameters about which only the facts a property needs are assumed. */
module Formulas {

  function Max(a: real, b: real): real {
    if a >= b then a else b
  }

  lemma MulNonNegative(a: real, b: real)
    requires a >= 0.0 && b >= 0.0
    ensures a * b >= 0.0
  {
  }

  // ---------------------------------------------------------------------
  // Moving-average update (training Build of both batch-norm modules)

  /** The value AssignSub(moving, (moving - batch) * decay) writes, where
      decay is the constant 1 - MOMENTUM. */
  function MovingAverageUpdate(moving: real, batch: real, decay: real): (r: real)
    ensures r == (1.0 - decay) * moving + decay * batch
    ensures moving - r == decay * (moving - batch)
  {
    moving - (moving - batch) * decay
  }

  /** With 0 <= MOMENTUM <= 1 the update is a convex combination: it lies
      between the stored statistic and the batch statistic. */
  lemma MovingAverageBetween(moving: real, batch: real, momentum: real)
    requires 0.0 <= momentum <= 1.0
    ensures var r := MovingAverageUpdate(moving, batch, 1.0 - momentum);
            (moving <= batch ==> moving <= r <= batch) &&
            (batch <= moving ==> batch <= r <= moving)
  {
    var r := MovingAverageUpdate(moving, batch, 1.0 - momentum);
    assert r - batch == momentum * (moving - batch);
    assert moving - r == (1.0 - momentum) * (moving - batch);
    if moving <= batch {
      MulNonNegative(1.0 - momentum, batch - moving);
      MulNonNegative(momentum, batch - moving);
    } else {
      MulNonNegative(1.0 - momentum, moving - batch);
      MulNonNegative(momentum, moving - batch);
    }
  }

  // ---------------------------------------------------------------------
  // Affine batch normalization

  /** rsqrtV is the value of rsqrt(variance + epsilon) the graph computes. */
  predicate IsRsqrt(rsqrtV: real, v: real) {
    v > 0.0 && rsqrtV > 0.0 && rsqrtV * rsqrtV * v == 1.0
  }

  /** BatchNormalization: inv = rsqrt(variance + epsilon) * scale;
      x * inv + (offset - mean * inv). */
  function BatchNormalization(x: real, mean: real, offset: real, scale: real, rsqrtV: real): real {
    var inv := rsqrtV * scale;
    x * inv + (offset - mean * inv)
  }

  /** The affine form is standardisation followed by scale and shift:
      (result - offset) / scale is (x - mean) / sqrt(variance + epsilon). */
  lemma BatchNormalizationStandardises(x: real, mean: real, variance: real, epsilon: real,
                                       offset: real, scale: real, rsqrtV: real)
    requires IsRsqrt(rsqrtV, variance + epsilon)
    ensures var r := BatchNormalization(x, mean, offset, scale, rsqrtV);
            r == scale * (x - mean) * rsqrtV + offset &&
            (r - offset) * (r - offset) * (variance + epsilon) == scale * scale * (x - mean) * (x - mean) &&
            (x == mean ==> r == offset)
  {
  }

  // ---------------------------------------------------------------------
  // Dropout

  /** C++'s conversion of a floating-point value to int truncates toward zero. */
  function FloatToInt(r: real): (n: int)
    ensures -1.0 < r - n as real < 1.0
    ensures (r >= 0.0 ==> 0 <= n && n as real <= r) && (r < 0.0 ==> n <= 0 && r <= n as real)
  {
    if r >= 0.0 then r.Floor else -((-r).Floor)
  }

  /** floor(u + keep_prob), u drawn uniformly from [0, 1). */
  function DropoutMask(u: real, keepProb: real): int {
    (u + keepProb).Floor
  }

  /** Inverted dropout of one element with drop rate `rate`:
      (x / keep_prob) * floor(u + keep_prob), keep_prob = 1 - rate. */
  function Dropout(x: real, rate: real, u: real): real
    requires rate != 1.0
  {
    var keepProb := 1.0 - rate;
    (x / keepProb) * DropoutMask(u, keepProb) as real
  }

  /** For keep_prob in (0, 1] the mask is binary and keeps the element exactly
      when u >= 1 - keep_prob (an event of probability keep_prob); a kept
      element is scaled by 1 / keep_prob. */
  lemma DropoutIsInverted(x: real, rate: real, u: real)
    requires 0.0 <= rate < 1.0 && 0.0 <= u < 1.0
    ensures DropoutMask(u, 1.0 - rate) == 0 || DropoutMask(u, 1.0 - rate) == 1
    ensures DropoutMask(u, 1.0 - rate) == 1 <==> u >= rate
    ensures Dropout(x, rate, u) == if u >= rate then x / (1.0 - rate) else 0.0
  {
    var k := 1.0 - rate;
    if u >= rate {
      assert 1.0 <= u + k < 2.0;
      assert DropoutMask(u, k) == 1;
    } else {
      assert 0.0 <= u + k < 1.0;
      assert DropoutMask(u, k) == 0;
    }
  }

  /** Dropout as written: the rate parameter is an int, so keep_prob = 1 - rate
      takes only integer values. */
  function DropoutIntRate(x: real, rate: int, u: real): real
    requires rate != 1
  {
    Dropout(x, rate as real, u)
  }

  /** The Discriminator passes 0.3f for the int rate: it is truncated to 0, so
      keep_prob is 1 and dropout returns its input unchanged for every sample. */
  lemma DropoutCallSiteIsIdentity(x: real, u: real)
    requires 0.0 <= u < 1.0
    ensures FloatToInt(0.3) == 0
    ensures DropoutIntRate(x, FloatToInt(0.3), u) == x
  {
    DropoutIsInverted(x, 0.0, u);
  }

  /** With the intended rate 0.3 the element is dropped for u < 0.3 and
      scaled by 1 / 0.7 otherwise. */
  lemma DropoutIntendedRate(x: real, u: real)
    requires 0.0 <= u < 1.0
    ensures u < 0.3 ==> Dropout(x, 0.3, u) == 0.0
    ensures u >= 0.3 ==> Dropout(x, 0.3, u) == x / 0.7
  {
    DropoutIsInverted(x, 0.3, u);
  }

  // ---------------------------------------------------------------------
  // Stable sigmoid cross-entropy

  /** SelectV2(logits >= 0, logits, 0). */
  function ReluLogits(logits: real): (r: real)
    ensures r >= 0.0 && r >= logits && (r == logits || r == 0.0)
  {
    if logits >= 0.0 then logits else 0.0
  }

  /** SelectV2(logits >= 0, -logits, logits): minus the absolute value, so
      exp is only ever applied to a non-positive number. */
  function NegAbsLogits(logits: real): (r: real)
    ensures r <= 0.0 && (r == logits || r == -logits) && r <= logits && r <= -logits
  {
    if logits >= 0.0 then -logits else logits
  }

  /** relu_logits - logits * labels + log1p(exp(neg_abs_logits)); softplus
      stands for t |-> log1p(exp(t)). */
  function SigmoidCrossEntropyWithLogits(labels: real, logits: real, softplus: real -> real): real {
    ReluLogits(logits) - logits * labels + softplus(NegAbsLogits(logits))
  }

  /** Using only softplus(t) == t + softplus(-t) at t = logits, the stable form
      equals the logistic loss x - x * z + log(1 + exp(-x)). */
  lemma StableCrossEntropyIsLogisticLoss(labels: real, logits: real, softplus: real -> real)
    requires softplus(logits) == logits + softplus(-logits)
    ensures SigmoidCrossEntropyWithLogits(labels, logits, softplus)
            == logits - logits * labels + softplus(-logits)
  {
  }

  // ---------------------------------------------------------------------
  // Glorot-uniform initializer

  datatype GlorotParams = GlorotParams(fanIn: int, fanOut: int, scale: real)

  /** fan_in and fan_out: the first two axes, or for a 4-D kernel
      [kh, kw, in, out] the receptive field kh * kw times in and out. */
  function GlorotSpec(shape: seq<int>): GlorotParams
    requires |shape| >= 2
  {
    var fanIn := if |shape| == 4 then shape[0] * shape[1] * shape[2] else shape[0];
    var fanOut := if |shape| == 4 then shape[0] * shape[1] * shape[3] else shape[1];
    GlorotParams(fanIn, fanOut, GlorotScale(fanIn, fanOut))
  }

  /** scale = 1 / max(1, (fan_in + fan_out) / 2). */
  function GlorotScale(fanIn: int, fanOut: int): (r: real)
    ensures 0.0 < r <= 1.0
    ensures r * Max(1.0, (fanIn + fanOut) as real / 2.0) == 1.0
  {
    1.0 / Max(1.0, (fanIn + fanOut) as real / 2.0)
  }

  /** GlorotUniform's bookkeeping: fan_in and fan_out are first set from the
      first two axes and reassigned for a 4-D shape. Shapes of rank below 2
      are not supported by the source (it indexes shape[1] unchecked). */
  method GlorotUniform(shape: seq<int>) returns (g: GlorotParams)
    requires |shape| >= 2
    ensures g == GlorotSpec(shape)
    ensures |shape| == 4 ==> g.fanIn == shape[0] * shape[1] * shape[2] && g.fanOut == shape[0] * shape[1] * shape[3]
    ensures |shape| != 4 ==> g.fanIn == shape[0] && g.fanOut == shape[1]
    ensures 0.0 < g.scale <= 1.0
  {
    var fanIn := shape[0];
    var fanOut := shape[1];
    if |shape| == 4 {
      var receptiveFieldSize := shape[0] * shape[1];
      fanIn := receptiveFieldSize * shape[2];
      fanOut := receptiveFieldSize * shape[3];
    }
    var scale := 1.0 / Max(1.0, (fanIn + fanOut) as real / 2.0);
    g := GlorotParams(fanIn, fanOut, scale);
  }

  /** limit is the value of sqrt(3 * scale) the source computes. */
  predicate IsGlorotLimit(g: GlorotParams, limit: real) {
    limit >= 0.0 && limit * limit == 3.0 * g.scale
  }

  /** The initial value rnd * (maxval - minval) + minval, maxval = limit,
      minval = -limit. */
  function GlorotValue(u: real, limit: real): real {
    u * (limit - -limit) + -limit
  }

  /** The limit is positive and at most sqrt(3); a sample u in [0, 1) gives
      a value in [-limit, limit). */
  lemma GlorotValueInRange(g: GlorotParams, limit: real, u: real)
    requires 0.0 < g.scale <= 1.0 && IsGlorotLimit(g, limit)
    requires 0.0 <= u < 1.0
    ensures 0.0 < limit && limit * limit <= 3.0
    ensures -limit <= GlorotValue(u, limit) < limit
  {
    assert u * (2.0 * limit) < 2.0 * limit;
    assert u * (2.0 * limit) >= 0.0;
  }

  /** The first Generator filter (5, 5, 128, 256): fan_in 3200, fan_out 6400,
      scale 1/4800, limit 1/40. */
  lemma GlorotFirstFilter(limit: real)
    requires IsGlorotLimit(GlorotSpec([5, 5, 128, 256]), limit)
    ensures GlorotSpec([5, 5, 128, 256]) == GlorotParams(3200, 6400, 1.0 / 4800.0)
    ensures limit == 0.025
  {
    var g := GlorotSpec([5, 5, 128, 256]);
    assert g.fanIn == 3200 && g.fanOut == 6400;
    assert g.scale == 1.0 / 4800.0;
    assert (limit - 0.025) * (limit + 0.025) == limit * limit - 0.000625;
    assert (limit - 0.025) * (limit + 0.025) == 0.0;
    ZeroProduct(limit - 0.025, limit + 0.025);
  }

  lemma ZeroProduct(a: real, b: real)
    requires a * b == 0.0
    ensures a == 0.0 || b == 0.0
  {
  }

  // ---------------------------------------------------------------------
  // Mean and variance of one reduction group (Moments)

  function Sum(xs: seq<real>): real {
    if |xs| == 0 then 0.0 else Sum(xs[..|xs| - 1]) + xs[|xs| - 1]
  }

  /** ReduceMean over a non-empty group. */
  function Mean(xs: seq<real>): real
    requires |xs| > 0
  {
    Sum(xs) / |xs| as real
  }

  function SquaredDifferences(xs: seq<real>, m: real): seq<real> {
    seq(|xs|, i requires 0 <= i < |xs| => (xs[i] - m) * (xs[i] - m))
  }

  /** ReduceMean(SquaredDifference(x, StopGradient(mean))). */
  function Variance(xs: seq<real>): real
    requires |xs| > 0
  {
    Mean(SquaredDifferences(xs, Mean(xs)))
  }

  lemma {:induction false} SumNonNegative(xs: seq<real>)
    requires forall i :: 0 <= i < |xs| ==> xs[i] >= 0.0
    ensures Sum(xs) >= 0.0
  {
    if |xs| > 0 {
      SumNonNegative(xs[..|xs| - 1]);
    }
  }

  /** The variance is a mean of squares, so it is never negative. */
  lemma VarianceNonNegative(xs: seq<real>)
    requires |xs| > 0
    ensures Variance(xs) >= 0.0
  {
    var sd := SquaredDifferences(xs, Mean(xs));
    SumNonNegative(sd);
  }

  lemma {:induction false} SumConstant(xs: seq<real>, c: real)
    requires forall i :: 0 <= i < |xs| ==> xs[i] == c
    ensures Sum(xs) == |xs| as real * c
  {
    if |xs| > 0 {
      SumConstant(xs[..|xs| - 1], c);
    }
  }

  /** A group whose elements all equal c has mean c and variance 0. */
  lemma MomentsOfConstant(xs: seq<real>, c: real)
    requires |xs| > 0 && forall i :: 0 <= i < |xs| ==> xs[i] == c
    ensures Mean(xs) == c && Variance(xs) == 0.0
  {
    SumConstant(xs, c);
    var sd := SquaredDifferences(xs, Mean(xs));
    SumConstant(sd, 0.0);
  }
}
