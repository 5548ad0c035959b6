/** The two network assemblies. Each constructor creates its parameters once
    and registers them; Build emits the forward graph over those same
    parameters and returns the shape of its output handle. The build-time
    constants NOISE_DIM, UNITS, NUM_CHANNELS, IMAGE_SIZE and MOMENTUM are
    the fields of a Config. */
module Networks {
  import opened Opt
  import opened Shapes
  import opened Registry
  import opened Formulas
  import opened BatchNorm

  datatype Config = Config(noiseDim: int, units: int, numChannels: int, imageSize: int, momentum: real) {
    predicate Valid() {
      noiseDim > 0 && units > 0 && numChannels > 0 && imageSize > 0
    }
  }

  /** C++ integer division, truncating toward zero. */
  function TruncDiv(a: int, b: int): int
    requires b > 0
  {
    if a >= 0 then a / b else -((-a) / b)
  }

  /** s1 = pow(IMAGE_SIZE / 4, 2) * 128: the width of the flattened feature map. */
  function FlattenWidth(imageSize: int): int {
    var side := TruncDiv(imageSize, 4);
    side * side * 128
  }

  /** The step-by-step computation of s1 done in both the Discriminator's
      constructor and its Build. */
  method ComputeFlattenWidth(imageSize: int) returns (s1: int)
    ensures s1 == FlattenWidth(imageSize)
    ensures imageSize >= 0 ==> s1 == (imageSize / 4) * (imageSize / 4) * 128
  {
    s1 := imageSize;
    s1 := TruncDiv(s1, 4);
    s1 := s1 * s1 * 128;
  }

  // ---------------------------------------------------------------------
  // Generator

  /** The first half of Generator::Build's shape chain: noise, dense, batch
      norm, leaky ReLU (shape kept) and the reshape to 7x7x256. */
  function GeneratorStem(cfg: Config, b: int, training: bool): Option<Shape> {
    var noise :- Fill([b, cfg.noiseDim]);
    var dense :- MatMul(noise, [cfg.noiseDim, cfg.units]);
    var batchnorm :- PlainBuildShape(Some(dense), [0], [1], training, [cfg.units], [cfg.units], [cfg.units], [cfg.units]);
    Reshape(batchnorm, [b, 7, 7, 256])
  }

  /** The second half: three transposed convolutions with SAME padding, the
      first two followed by fused batch norm and leaky ReLU. */
  function GeneratorUpsample(cfg: Config, b: int, training: bool, reshape1: Shape): Option<Shape> {
    var deconv1 :- Conv2DTranspose([b, 7, 7, 128], [5, 5, 128, 256], reshape1, [1, 1, 1, 1]);
    var batchnorm1 :- FusedBuildShape(Some(deconv1), training, [128], [128], [128], [128]);
    var deconv2 :- Conv2DTranspose([b, 14, 14, 64], [5, 5, 64, 128], batchnorm1, [1, 2, 2, 1]);
    var batchnorm2 :- FusedBuildShape(Some(deconv2), training, [64], [64], [64], [64]);
    Conv2DTranspose([b, 28, 28, cfg.numChannels], [5, 5, cfg.numChannels, 64], batchnorm2, [1, 2, 2, 1])
  }

  /** The shape chain of Generator::Build. */
  function GeneratorShape(cfg: Config, b: int, training: bool): Option<Shape> {
    var reshape1 :- GeneratorStem(cfg, b, training);
    GeneratorUpsample(cfg, b, training, reshape1)
  }

  lemma MulCancel(b: int, x: int, y: int)
    requires b > 0 && b * x == b * y
    ensures x == y
  {
  }

  /** The stem builds exactly when the batch size is non-negative and (for a
      non-empty batch) UNITS == 7 * 7 * 256, so that the dense output can be
      reshaped; it then yields [b, 7, 7, 256]. */
  lemma GeneratorStemShape(cfg: Config, b: int, training: bool)
    requires cfg.Valid()
    ensures GeneratorStem(cfg, b, training).Some? <==> b >= 0 && (b == 0 || cfg.units == 7 * 7 * 256)
    ensures GeneratorStem(cfg, b, training).Some? ==> GeneratorStem(cfg, b, training) == Some([b, 7, 7, 256])
  {
    if b >= 0 {
      var dense := [b, cfg.units];
      assert MatMul([b, cfg.noiseDim], [cfg.noiseDim, cfg.units]) == Some(dense);
      PlainBuildOnDense(b, cfg.units, training);
      Product2(b, cfg.units);
      Product4(b, 7, 7, 256);
      if b > 0 && b * cfg.units == b * (7 * 7 * 256) {
        MulCancel(b, cfg.units, 7 * 7 * 256);
      }
    } else {
      assert Fill([b, cfg.noiseDim]) == None by {
        assert [b, cfg.noiseDim][0] < 0;
      }
    }
  }

  /** Each transposed convolution's input has the ceiling of its target size
      over the stride (7 = 7/1, 7 = 14/2, 14 = 28/2), so the upsampling
      always turns [b, 7, 7, 256] into [b, 28, 28, NUM_CHANNELS]. */
  lemma GeneratorUpsampleShape(cfg: Config, b: int, training: bool)
    requires cfg.Valid() && b >= 0
    ensures GeneratorUpsample(cfg, b, training, [b, 7, 7, 256]) == Some([b, 28, 28, cfg.numChannels])
  {
    assert CeilDiv(7, 1) == 7 && CeilDiv(14, 2) == 7 && CeilDiv(28, 2) == 14;
    var d1 := [b, 7, 7, 128];
    assert Conv2DTranspose(d1, [5, 5, 128, 256], [b, 7, 7, 256], [1, 1, 1, 1]) == Some(d1);
    FusedBuildKeepsShape(d1, training);
    var d2 := [b, 14, 14, 64];
    assert Conv2DTranspose(d2, [5, 5, 64, 128], d1, [1, 2, 2, 1]) == Some(d2);
    FusedBuildKeepsShape(d2, training);
  }

  /** A Generator graph builds exactly when the batch size is non-negative
      and (for a non-empty batch) UNITS == 7 * 7 * 256; it then produces
      [b, 28, 28, NUM_CHANNELS]. */
  lemma GeneratorOutputShape(cfg: Config, b: int, training: bool)
    requires cfg.Valid()
    ensures GeneratorShape(cfg, b, training).Some? <==> b >= 0 && (b == 0 || cfg.units == 7 * 7 * 256)
    ensures GeneratorShape(cfg, b, training).Some? ==>
              GeneratorShape(cfg, b, training) == Some([b, 28, 28, cfg.numChannels])
  {
    GeneratorStemShape(cfg, b, training);
    if b >= 0 {
      GeneratorUpsampleShape(cfg, b, training);
    }
  }

  /** The four weight variables of the Generator and their initialisers:
      the dense weight scaled normal, the three filters Glorot uniform. */
  method CreateGeneratorWeights(scope: Scope, cfg: Config) returns (w1: Var, filter: Var, filter2: Var, filter3: Var)
    modifies scope
    ensures [w1, filter, filter2, filter3] ==
            [Var(old(scope.variableCount), [cfg.noiseDim, cfg.units]),
             Var(old(scope.variableCount) + 1, [5, 5, 128, 256]),
             Var(old(scope.variableCount) + 2, [5, 5, 64, 128]),
             Var(old(scope.variableCount) + 3, [5, 5, cfg.numChannels, 64])]
    ensures scope.variableCount == old(scope.variableCount) + 4
    ensures scope.trainables == old(scope.trainables) + [w1, filter, filter2, filter3]
    ensures scope.assigns == old(scope.assigns) +
            [Assign(w1, ScaledNormal(0.01)),
             Assign(filter, GlorotUniformInit(GlorotSpec(filter.shape))),
             Assign(filter2, GlorotUniformInit(GlorotSpec(filter2.shape))),
             Assign(filter3, GlorotUniformInit(GlorotSpec(filter3.shape)))]
    ensures scope.updates == old(scope.updates)
  {
    w1 := TFVariable(scope, [cfg.noiseDim, cfg.units], true);
    var _ := TFAssign(scope, w1, ScaledNormal(0.01));

    filter := TFVariable(scope, [5, 5, 128, 256], true);
    var g1 := GlorotUniform([5, 5, 128, 256]);
    var _ := TFAssign(scope, filter, GlorotUniformInit(g1));

    filter2 := TFVariable(scope, [5, 5, 64, 128], true);
    var g2 := GlorotUniform([5, 5, 64, 128]);
    var _ := TFAssign(scope, filter2, GlorotUniformInit(g2));

    filter3 := TFVariable(scope, [5, 5, cfg.numChannels, 64], true);
    var g3 := GlorotUniform([5, 5, cfg.numChannels, 64]);
    var _ := TFAssign(scope, filter3, GlorotUniformInit(g3));
  }

  /** Generator: a dense weight, three transposed-convolution filters and
      three batch-norm modules, all created by the constructor. */
  class Generator {
    const cfg: Config
    const w1: Var
    const filter: Var
    const filter2: Var
    const filter3: Var
    const batchnorm: TFBatchNormalization
    const batchnorm1: TFFusedBatchNorm
    const batchnorm2: TFFusedBatchNorm

    /** Every variable of the Generator, in creation order. */
    function Variables(): seq<Var> {
      [w1, filter, filter2, filter3,
       batchnorm.movingMean, batchnorm.movingVariance, batchnorm.gamma, batchnorm.beta,
       batchnorm1.movingMean, batchnorm1.movingVariance, batchnorm1.gamma, batchnorm1.beta,
       batchnorm2.movingMean, batchnorm2.movingVariance, batchnorm2.gamma, batchnorm2.beta]
    }

    /** The trainable ones: the dense weight, the three filters, gamma and beta
        of each batch norm. */
    function Trainables(): seq<Var> {
      [w1, filter, filter2, filter3,
       batchnorm.gamma, batchnorm.beta, batchnorm1.gamma, batchnorm1.beta, batchnorm2.gamma, batchnorm2.beta]
    }

    /** The initialising assigns, in registration order. */
    function Assigns(): seq<AssignOp>
      requires Valid()
    {
      [Assign(w1, ScaledNormal(0.01)),
       Assign(filter, GlorotUniformInit(GlorotSpec(filter.shape))),
       Assign(filter2, GlorotUniformInit(GlorotSpec(filter2.shape))),
       Assign(filter3, GlorotUniformInit(GlorotSpec(filter3.shape)))]
      + InitialAssigns(batchnorm.movingMean, batchnorm.movingVariance, batchnorm.gamma, batchnorm.beta)
      + InitialAssigns(batchnorm1.movingMean, batchnorm1.movingVariance, batchnorm1.gamma, batchnorm1.beta)
      + InitialAssigns(batchnorm2.movingMean, batchnorm2.movingVariance, batchnorm2.gamma, batchnorm2.beta)
    }

    /** The updates of one training Build: two per batch norm. */
    function TrainingUpdateOps(): seq<UpdateOp> {
      TrainingUpdates(batchnorm.movingMean, batchnorm.movingVariance, cfg.momentum)
      + TrainingUpdates(batchnorm1.movingMean, batchnorm1.movingVariance, cfg.momentum)
      + TrainingUpdates(batchnorm2.movingMean, batchnorm2.movingVariance, cfg.momentum)
    }

    /** The parameter shapes the constructor gives. Each filter's last two
        axes are (result channels, input channels) of its transposed
        convolution. */
    predicate Valid() {
      && w1.shape == [cfg.noiseDim, cfg.units]
      && filter.shape == [5, 5, 128, 256]
      && filter2.shape == [5, 5, 64, 128]
      && filter3.shape == [5, 5, cfg.numChannels, 64]
      && batchnorm.Shaped([cfg.units])
      && batchnorm1.Shaped([128])
      && batchnorm2.Shaped([64])
    }

    constructor (scope: Scope, cfg: Config)
      modifies scope
      ensures this.cfg == cfg && Valid()
      ensures |Variables()| == 16 && scope.variableCount == old(scope.variableCount) + 16
      ensures forall i :: 0 <= i < 16 ==> Variables()[i].id == old(scope.variableCount) + i
      ensures |Trainables()| == 10 && scope.trainables == old(scope.trainables) + Trainables()
      ensures |Assigns()| == 16 && scope.assigns == old(scope.assigns) + Assigns()
      ensures scope.updates == old(scope.updates)
    {
      var v, f1, f2, f3 := CreateGeneratorWeights(scope, cfg);
      var bn := new TFBatchNormalization(scope, [cfg.units]);
      var bn1 := new TFFusedBatchNorm(scope, [128]);
      var bn2 := new TFFusedBatchNorm(scope, [64]);

      this.cfg := cfg;
      w1, filter, filter2, filter3 := v, f1, f2, f3;
      batchnorm, batchnorm1, batchnorm2 := bn, bn1, bn2;
    }

    /** Generator::Build. A training build registers the six moving-average
        updates, an inference build none; neither creates or registers a
        variable or an assign. */
    method Build(scope: Scope, batchSize: int, training: bool) returns (y: Option<Shape>)
      requires Valid()
      modifies scope
      ensures y == GeneratorShape(cfg, batchSize, training)
      ensures scope.updates == old(scope.updates) + (if training then TrainingUpdateOps() else [])
      ensures |scope.updates| == |old(scope.updates)| + (if training then 6 else 0)
      ensures scope.trainables == old(scope.trainables) && scope.assigns == old(scope.assigns)
      ensures scope.variableCount == old(scope.variableCount)
    {
      var noise := Fill([batchSize, cfg.noiseDim]);
      var dense := if noise.None? then None else MatMul(noise.value, w1.shape);
      var bn := batchnorm.Build(scope, dense, [0], [1], training, cfg.momentum);
      // LeakyRelu keeps the shape
      var reshape1 := if bn.None? then None else Reshape(bn.value, [batchSize, 7, 7, 256]);
      assert reshape1 == GeneratorStem(cfg, batchSize, training);
      var deconv1 := if reshape1.None? then None
                     else Conv2DTranspose([batchSize, 7, 7, 128], filter.shape, reshape1.value, [1, 1, 1, 1]);
      var bn1 := batchnorm1.Build(scope, deconv1, 0.001, training, cfg.momentum);
      var deconv2 := if bn1.None? then None
                     else Conv2DTranspose([batchSize, 14, 14, 64], filter2.shape, bn1.value, [1, 2, 2, 1]);
      var bn2 := batchnorm2.Build(scope, deconv2, 0.001, training, cfg.momentum);
      y := if bn2.None? then None
           else Conv2DTranspose([batchSize, 28, 28, cfg.numChannels], filter3.shape, bn2.value, [1, 2, 2, 1]);
    }
  }

  // ---------------------------------------------------------------------
  // Discriminator

  /** The convolutional half of Discriminator::Build: two stages of stride-2
      SAME convolution, bias add, leaky ReLU (shape kept) and dropout. */
  function DiscriminatorFeatures(cfg: Config, x: Shape): Option<Shape> {
    var conv1 :- Conv2D(x, [5, 5, cfg.numChannels, 64], [1, 2, 2, 1]);
    var relu1 :- BiasAdd(conv1, [64]);
    var dropout1 :- DropoutShape(relu1);
    var conv2 :- Conv2D(dropout1, [5, 5, 64, 128], [1, 2, 2, 1]);
    var relu2 :- BiasAdd(conv2, [128]);
    DropoutShape(relu2)
  }

  /** The head: reshape to [batchSize, s1], then a dense layer with bias. */
  function DiscriminatorHead(cfg: Config, features: Shape, batchSize: int): Option<Shape> {
    var s1 := FlattenWidth(cfg.imageSize);
    var reshape1 :- Reshape(features, [batchSize, s1]);
    var dense :- MatMul(reshape1, [s1, 1]);
    BiasAdd(dense, [1])
  }

  /** The shape chain of Discriminator::Build. */
  function DiscriminatorShape(cfg: Config, inputs: Option<Shape>, batchSize: int): Option<Shape> {
    var x :- inputs;
    var features :- DiscriminatorFeatures(cfg, x);
    DiscriminatorHead(cfg, features, batchSize)
  }

  /** Each stride-2 stage halves the spatial size, rounding up, so an input
      of height h and width w leaves ceil(ceil(h/2)/2) by ceil(ceil(w/2)/2)
      with 128 channels. */
  lemma DiscriminatorFeaturesShape(cfg: Config, b: int, h: int, w: int)
    requires cfg.Valid() && h >= 0 && w >= 0
    ensures DiscriminatorFeatures(cfg, [b, h, w, cfg.numChannels]) ==
              Some([b, CeilDiv(CeilDiv(h, 2), 2), CeilDiv(CeilDiv(w, 2), 2), 128])
  {
    var c1 := [b, CeilDiv(h, 2), CeilDiv(w, 2), 64];
    var c2 := [b, CeilDiv(CeilDiv(h, 2), 2), CeilDiv(CeilDiv(w, 2), 2), 128];
    assert Conv2D([b, h, w, cfg.numChannels], [5, 5, cfg.numChannels, 64], [1, 2, 2, 1]) == Some(c1);
    DropoutKeepsShape(c1);
    assert Conv2D(c1, [5, 5, 64, 128], [1, 2, 2, 1]) == Some(c2);
    DropoutKeepsShape(c2);
  }

  /** With IMAGE_SIZE = 28 the spatial size goes 28 -> 14 -> 7 while the
      channels go NUM_CHANNELS -> 64 -> 128. */
  lemma DiscriminatorFeaturesOf28(cfg: Config, b: int)
    requires cfg.Valid()
    ensures Conv2D([b, 28, 28, cfg.numChannels], [5, 5, cfg.numChannels, 64], [1, 2, 2, 1]) == Some([b, 14, 14, 64])
    ensures Conv2D([b, 14, 14, 64], [5, 5, 64, 128], [1, 2, 2, 1]) == Some([b, 7, 7, 128])
    ensures DiscriminatorFeatures(cfg, [b, 28, 28, cfg.numChannels]) == Some([b, 7, 7, 128])
  {
    DiscriminatorFeaturesShape(cfg, b, 28, 28);
    assert CeilDiv(28, 2) == 14 && CeilDiv(14, 2) == 7;
  }

  lemma CeilHalfTwice(n: int)
    requires n >= 0
    ensures CeilDiv(CeilDiv(n, 2), 2) == (n + 3) / 4
  {
  }

  lemma SquareMonotone(c: int, f: int)
    requires 0 <= f < c
    ensures f * f < c * c
  {
    assert f * f <= f * c;
    assert f * c < c * c;
  }

  /** The head takes a [b, c, c, 128] feature map exactly when (for a
      non-empty batch) c^2 * 128 is the flattened width s1 the weights were
      made for. */
  lemma DiscriminatorHeadShape(cfg: Config, b: int, c: int)
    requires b >= 0 && c >= 0 && cfg.imageSize >= 0
    ensures DiscriminatorHead(cfg, [b, c, c, 128], b).Some? <==> (b == 0 || c == cfg.imageSize / 4)
    ensures DiscriminatorHead(cfg, [b, c, c, 128], b).Some? ==> DiscriminatorHead(cfg, [b, c, c, 128], b) == Some([b, 1])
  {
    var f := cfg.imageSize / 4;
    var s1 := FlattenWidth(cfg.imageSize);
    assert s1 == f * f * 128;
    Product4(b, c, c, 128);
    Product2(b, s1);
    if b > 0 && c != f {
      if c < f {
        SquareMonotone(f, c);
      } else {
        SquareMonotone(c, f);
      }
      if b * (c * c * 128) == b * s1 {
        MulCancel(b, c * c * 128, s1);
      }
    }
  }

  /** On a square input of side IMAGE_SIZE with batch b the Discriminator
      builds, producing [b, 1], exactly when IMAGE_SIZE is a multiple of 4
      (for a non-empty batch): otherwise the 128-channel map of side
      ceil(IMAGE_SIZE / 4) does not flatten to s1 = (IMAGE_SIZE / 4)^2 * 128. */
  lemma DiscriminatorOutputShape(cfg: Config, b: int)
    requires cfg.Valid() && b >= 0
    ensures var out := DiscriminatorShape(cfg, Some([b, cfg.imageSize, cfg.imageSize, cfg.numChannels]), b);
            (out.Some? <==> (b == 0 || cfg.imageSize % 4 == 0)) &&
            (out.Some? ==> out == Some([b, 1]))
  {
    var n := cfg.imageSize;
    DiscriminatorFeaturesShape(cfg, b, n, n);
    CeilHalfTwice(n);
    DiscriminatorHeadShape(cfg, b, (n + 3) / 4);
  }

  /** With IMAGE_SIZE = 28 the flattened width is 7 * 7 * 128 = 6272. */
  lemma FlattenWidthOf28()
    ensures FlattenWidth(28) == 6272
  {
  }

  /** The Generator's output fed to the Discriminator (IMAGE_SIZE = 28, the
      batch size passed to both) yields one logit per example. */
  lemma GeneratorFeedsDiscriminator(cfg: Config, b: int, training: bool)
    requires cfg.Valid() && cfg.units == 7 * 7 * 256 && cfg.imageSize == 28 && b >= 0
    ensures DiscriminatorShape(cfg, GeneratorShape(cfg, b, training), b) == Some([b, 1])
  {
    GeneratorOutputShape(cfg, b, training);
    DiscriminatorOutputShape(cfg, b);
  }

  class Discriminator {
    const cfg: Config
    const conv1Weights: Var
    const conv1Biases: Var
    const conv2Weights: Var
    const conv2Biases: Var
    const fc1Weights: Var
    const fc1Biases: Var

    /** Every variable, in creation order; all six are trainable. */
    function Variables(): seq<Var> {
      [conv1Weights, conv1Biases, conv2Weights, conv2Biases, fc1Weights, fc1Biases]
    }

    function Assigns(): seq<AssignOp>
      requires Valid()
    {
      [Assign(conv1Weights, GlorotUniformInit(GlorotSpec(conv1Weights.shape))),
       Assign(conv1Biases, Zeros),
       Assign(conv2Weights, GlorotUniformInit(GlorotSpec(conv2Weights.shape))),
       Assign(conv2Biases, Zeros),
       Assign(fc1Weights, GlorotUniformInit(GlorotSpec(fc1Weights.shape))),
       Assign(fc1Biases, Zeros)]
    }

    /** The parameter shapes the constructor gives; fc1_weights has s1 rows. */
    predicate Valid() {
      && conv1Weights.shape == [5, 5, cfg.numChannels, 64]
      && conv1Biases.shape == [64]
      && conv2Weights.shape == [5, 5, 64, 128]
      && conv2Biases.shape == [128]
      && fc1Weights.shape == [FlattenWidth(cfg.imageSize), 1]
      && fc1Biases.shape == [1]
    }

    constructor (scope: Scope, cfg: Config)
      modifies scope
      ensures this.cfg == cfg && Valid()
      ensures scope.variableCount == old(scope.variableCount) + 6
      ensures forall i :: 0 <= i < 6 ==> Variables()[i].id == old(scope.variableCount) + i
      ensures scope.trainables == old(scope.trainables) + Variables()
      ensures scope.assigns == old(scope.assigns) + Assigns()
      ensures scope.updates == old(scope.updates)
    {
      var w1 := TFVariable(scope, [5, 5, cfg.numChannels, 64], true);
      var g1 := GlorotUniform([5, 5, cfg.numChannels, 64]);
      var _ := TFAssign(scope, w1, GlorotUniformInit(g1));

      var b1 := TFVariable(scope, [64], true);
      var _ := TFAssign(scope, b1, Zeros);

      var w2 := TFVariable(scope, [5, 5, 64, 128], true);
      var g2 := GlorotUniform([5, 5, 64, 128]);
      var _ := TFAssign(scope, w2, GlorotUniformInit(g2));

      var b2 := TFVariable(scope, [128], true);
      var _ := TFAssign(scope, b2, Zeros);

      var s1 := ComputeFlattenWidth(cfg.imageSize);
      var w3 := TFVariable(scope, [s1, 1], true);
      var g3 := GlorotUniform([s1, 1]);
      var _ := TFAssign(scope, w3, GlorotUniformInit(g3));

      var b3 := TFVariable(scope, [1], true);
      var _ := TFAssign(scope, b3, Zeros);

      this.cfg := cfg;
      conv1Weights, conv1Biases, conv2Weights, conv2Biases, fc1Weights, fc1Biases := w1, b1, w2, b2, w3, b3;
    }

    /** Discriminator::Build registers nothing (the scope is not modified). */
    method Build(scope: Scope, inputs: Option<Shape>, batchSize: int) returns (y: Option<Shape>)
      requires Valid()
      ensures y == DiscriminatorShape(cfg, inputs, batchSize)
    {
      var conv1 := if inputs.None? then None else Conv2D(inputs.value, conv1Weights.shape, [1, 2, 2, 1]);
      var relu1 := if conv1.None? then None else BiasAdd(conv1.value, conv1Biases.shape);
      var dropout1 := if relu1.None? then None else DropoutShape(relu1.value);
      var conv2 := if dropout1.None? then None else Conv2D(dropout1.value, conv2Weights.shape, [1, 2, 2, 1]);
      var relu2 := if conv2.None? then None else BiasAdd(conv2.value, conv2Biases.shape);
      var dropout2 := if relu2.None? then None else DropoutShape(relu2.value);
      var s1 := ComputeFlattenWidth(cfg.imageSize);
      var reshape1 := if dropout2.None? then None else Reshape(dropout2.value, [batchSize, s1]);
      var dense := if reshape1.None? then None else MatMul(reshape1.value, fc1Weights.shape);
      y := if dense.None? then None else BiasAdd(dense.value, fc1Biases.shape);
    }
  }
}
