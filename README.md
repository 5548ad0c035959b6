# DCGAN graph construction, modelled in Dafny

This project models the graph-construction layer of the C++ DCGAN example in
`tensorflow/examples/cc/gan/dcgan/nn_ops_rkz.cc`. The layer builds a
TensorFlow graph through a `Scope`. A graph node is represented here by the
shape of its output handle. An operation yields `None` when its operands'
shapes are inconsistent. TensorFlow reports such an error either while the
graph is constructed or, for some kernels such as `Conv2DBackpropInput`,
only when the graph runs.

The model has six modules:

- `Opt`: an `Option` type.
- `Shapes`: the shape rules of the operations on the two networks' forward
  paths and in the batch-norm modules, and of `Moments`,
  `BatchNormalization`, `Conv2DTranspose` and `Dropout`.
  Broadcasting follows NumPy.
- `Formulas`: the scalar formulas written into the graph, over exact reals.
  These are the moving-average update, affine batch normalization, inverted
  dropout, the stable sigmoid cross-entropy, Glorot-uniform scaling, and mean
  and variance.
- `Registry`: the scope's three append-only registries (trainable
  variables, assign ops, update ops), and `TFVariable` and `TFAssign`.
- `BatchNorm`: the classes `TFBatchNormalization` and `TFFusedBatchNorm`.
  Their constructors create and register the four statistics variables.
  Their `Build` registers the two moving-average updates in training mode.
- `Networks`: the classes `Generator` and `Discriminator`, with their
  constructors and `Build`. The build-time constants NOISE_DIM, UNITS,
  NUM_CHANNELS, IMAGE_SIZE and MOMENTUM are the fields of a `Config`.

Handling of outside values:

- A `RandomUniform` sample is a parameter in [0, 1). `RandomNormal`
  (lines 336 and 366) is modelled only by its shape (`Fill`) and, for the
  dense weight, by the `ScaledNormal(0.01)` initialiser tag.
- The transcendental functions are parameters constrained only by the facts
  a property needs: `rsqrt` by `IsRsqrt`, `sqrt` by `IsGlorotLimit`, and
  `log1p(exp(.))` by a function parameter.
- A variable is identified by the id the scope hands out in creation order.

## Model

| member | source | states |
|---|---|---|
| Registry.Scope.constructor | tensorflow/examples/cc/gan/dcgan/nn_ops_rkz.cc:29-50 | a fresh scope has empty trainable, assign and update registries and no variables |
| Registry.Scope.NewVariable | tensorflow/examples/cc/gan/dcgan/nn_ops_rkz.cc:32 | a plain Variable gets the next id and the requested shape; no registry changes |
| Registry.Scope.AddTrainableVariable | tensorflow/examples/cc/gan/dcgan/nn_ops_rkz.cc:34 | appends exactly the given variable to the trainables; nothing else changes |
| Registry.Scope.AddAssignOp | tensorflow/examples/cc/gan/dcgan/nn_ops_rkz.cc:45 | appends exactly the given op to the assigns; nothing else changes |
| Registry.Scope.AddUpdateOp | tensorflow/examples/cc/gan/dcgan/nn_ops_rkz.cc:240-248 | appends exactly the given op to the updates; nothing else changes |
| Registry.TFVariable | tensorflow/examples/cc/gan/dcgan/nn_ops_rkz.cc:29-39 | creates one variable of the given shape; appends it to the trainables iff `trainable`; assigns and updates unchanged |
| Registry.TFAssign | tensorflow/examples/cc/gan/dcgan/nn_ops_rkz.cc:41-50 | appends exactly one assign (target, value); the other registries and the variable count are unchanged |
| Registry.UpdateOp.NewValue | tensorflow/examples/cc/gan/dcgan/nn_ops_rkz.cc:236-247 | the value AssignSub(moving, (moving - batch) * decay) leaves in the variable (the property is in BatchNorm.TrainingUpdatesBetween) |
| Shapes.Broadcast | tensorflow/examples/cc/gan/dcgan/nn_ops_rkz.cc:57 | NumPy broadcasting of the elementwise ops at lines 57 and 90-118: sizes matched from the right, a size 1 stretching (the property is in BroadcastInto) |
| Shapes.ReduceMean | tensorflow/examples/cc/gan/dcgan/nn_ops_rkz.cc:54-58 | ReduceMean with KeepDims(true): every axis must be in range, and the reduced axes become 1 (the property is in MomentsShape) |
| Shapes.Fill | tensorflow/examples/cc/gan/dcgan/nn_ops_rkz.cc:366 | RandomNormal of a given shape, which must be non-negative (the property is in GeneratorStemShape) |
| Shapes.MatMul | tensorflow/examples/cc/gan/dcgan/nn_ops_rkz.cc:370 | a [m, k] by [k, n] product gives [m, n], also at line 510 (the property is in GeneratorStemShape and DiscriminatorHeadShape) |
| Shapes.Reshape | tensorflow/examples/cc/gan/dcgan/nn_ops_rkz.cc:385 | a fully specified target with the same element count, also at line 504 (the property is in GeneratorStemShape and DiscriminatorHeadShape) |
| Shapes.BiasAdd | tensorflow/examples/cc/gan/dcgan/nn_ops_rkz.cc:480 | the bias must match the last axis and the shape is kept, also at lines 492 and 509 (the property is in DiscriminatorFeaturesShape and DiscriminatorHeadShape) |
| Shapes.Conv2D | tensorflow/examples/cc/gan/dcgan/nn_ops_rkz.cc:475-476 | SAME convolution with strides [1, s, s, 1]: ceil of each spatial size over the stride and the filter's output channels, also at lines 487-488 (the property is in TransposeInvertsConv2D and DiscriminatorFeaturesShape) |
| Shapes.FusedBatchNormShape | tensorflow/examples/cc/gan/dcgan/nn_ops_rkz.cc:291-293 | FusedBatchNorm keeps an NHWC input shape with per-channel scale and offset, and per-channel statistics in inference, also at lines 321-323 (the property is in FusedBuildKeepsShape) |
| Shapes.CeilDivIsCeiling | tensorflow/examples/cc/gan/dcgan/nn_ops_rkz.cc:392-428 | the SAME-padding output size q = ceil(n / stride) is the least q with stride * q >= n |
| Shapes.BroadcastInto | tensorflow/examples/cc/gan/dcgan/nn_ops_rkz.cc:90-101 | a shape that broadcasts into s combines with s, in either order, to s |
| Shapes.KeptLength | tensorflow/examples/cc/gan/dcgan/nn_ops_rkz.cc:63-66 | removing the given axes leaves rank minus the number of distinct in-range axes listed |
| Shapes.KeptIndex | tensorflow/examples/cc/gan/dcgan/nn_ops_rkz.cc:63-66 | every unlisted axis i survives the squeeze, in order, at position i minus the listed axes before it |
| Shapes.KeptOfReduced | tensorflow/examples/cc/gan/dcgan/nn_ops_rkz.cc:54-66 | squeezing a keep-dims reduction gives the input's shape with the reduced axes removed |
| Shapes.MomentsShape | tensorflow/examples/cc/gan/dcgan/nn_ops_rkz.cc:52-67 | Moments builds iff every axis is in range; mean and variance then both have the input shape with the axes set to 1 (keep_dims), removed (otherwise), or, for an empty axes list without keep_dims, with every axis of size 1 removed |
| Shapes.TransposeInvertsConv2D | tensorflow/examples/cc/gan/dcgan/nn_ops_rkz.cc:188-197 | a transposed convolution to input_sizes y accepts out_backprop o iff the forward SAME convolution of y gives o |
| Shapes.Squeeze | tensorflow/examples/cc/gan/dcgan/nn_ops_rkz.cc:64-65 | squeezes the listed axes, each of which must exist and have size 1; an empty list removes every axis of size 1 (the property is in MomentsShape and MomentsWithoutAxes) |
| Shapes.Moments | tensorflow/examples/cc/gan/dcgan/nn_ops_rkz.cc:52-67 | ReduceMean with kept dims, SquaredDifference against the mean, ReduceMean again, then Squeeze of both unless keep_dims (the property is in MomentsShape) |
| Shapes.MomentsWithoutAxes | tensorflow/examples/cc/gan/dcgan/nn_ops_rkz.cc:52-67 | with an empty axes list and keep_dims false, Moments of [4, 1] gives [4] for both statistics |
| Shapes.SqueezeReduced | tensorflow/examples/cc/gan/dcgan/nn_ops_rkz.cc:54-65 | squeezing a keep-dims reduction removes exactly the reduced axes, or all axes of size 1 when none are listed |
| Shapes.Conv2DTranspose | tensorflow/examples/cc/gan/dcgan/nn_ops_rkz.cc:188-197 | Conv2DBackpropInput with SAME padding yields input_sizes when out_backprop has the forward convolution shape (the property is in TransposeInvertsConv2D) |
| Shapes.BatchNormalizationShape | tensorflow/examples/cc/gan/dcgan/nn_ops_rkz.cc:85-102 | the broadcast chain of Add, Rsqrt, Multiply and Sub (the property is in BatchNormalizationKeepsShape) |
| Shapes.DropoutShape | tensorflow/examples/cc/gan/dcgan/nn_ops_rkz.cc:104-119 | the broadcasts of RandomUniform(Shape(x)) + keep_prob and x / keep_prob (the property is in DropoutKeepsShape) |
| Shapes.BatchNormalizationKeepsShape | tensorflow/examples/cc/gan/dcgan/nn_ops_rkz.cc:85-102 | with statistics, scale and offset of one shape broadcasting into x, and epsilon broadcasting into that shape, BatchNormalization yields x's shape |
| Shapes.DropoutKeepsShape | tensorflow/examples/cc/gan/dcgan/nn_ops_rkz.cc:104-119 | Dropout of a tensor of rank at least 1 keeps its shape |
| Formulas.Mean | tensorflow/examples/cc/gan/dcgan/nn_ops_rkz.cc:54 | ReduceMean of one non-empty group: its sum over its size (the property is in MomentsOfConstant) |
| Formulas.BatchNormalization | tensorflow/examples/cc/gan/dcgan/nn_ops_rkz.cc:85-102 | x * inv + (offset - mean * inv) with inv = rsqrt(variance + epsilon) * scale (the property is in BatchNormalizationStandardises) |
| Formulas.DropoutMask | tensorflow/examples/cc/gan/dcgan/nn_ops_rkz.cc:114 | floor(u + keep_prob) (the property is in DropoutIsInverted) |
| Formulas.Dropout | tensorflow/examples/cc/gan/dcgan/nn_ops_rkz.cc:104-119 | (x / keep_prob) * floor(u + keep_prob) with keep_prob = 1 - rate for a real rate (the property is in DropoutIsInverted and DropoutIntendedRate) |
| Formulas.DropoutIntRate | tensorflow/examples/cc/gan/dcgan/nn_ops_rkz.cc:104-106 | the same element computation with the int rate of the source signature (the property is in DropoutCallSiteIsIdentity) |
| Formulas.SigmoidCrossEntropyWithLogits | tensorflow/examples/cc/gan/dcgan/nn_ops_rkz.cc:136-147 | relu_logits - logits * labels + log1p(exp(neg_abs_logits)) (the property is in StableCrossEntropyIsLogisticLoss, ReluLogits and NegAbsLogits) |
| Formulas.GlorotValue | tensorflow/examples/cc/gan/dcgan/nn_ops_rkz.cc:175-181 | rnd * (maxval - minval) + minval with maxval = limit, minval = -limit (the property is in GlorotValueInRange) |
| Formulas.Variance | tensorflow/examples/cc/gan/dcgan/nn_ops_rkz.cc:56-58 | the mean of squared differences from the group mean (the property is in VarianceNonNegative and MomentsOfConstant) |
| Formulas.MovingAverageUpdate | tensorflow/examples/cc/gan/dcgan/nn_ops_rkz.cc:235-248 | the AssignSub result equals (1 - decay) * moving + decay * batch, and moves moving by decay times its distance to batch |
| Formulas.MovingAverageBetween | tensorflow/examples/cc/gan/dcgan/nn_ops_rkz.cc:235-248 | with decay = 1 - MOMENTUM and 0 <= MOMENTUM <= 1 the updated statistic lies between the stored and the batch statistic |
| Formulas.BatchNormalizationStandardises | tensorflow/examples/cc/gan/dcgan/nn_ops_rkz.cc:85-102 | x * inv + (offset - mean * inv) equals scale * (x - mean) / sqrt(variance + epsilon) + offset; an input equal to the mean gives offset |
| Formulas.FloatToInt | tensorflow/examples/cc/gan/dcgan/nn_ops_rkz.cc:484 | the float-to-int conversion truncates toward zero: it is within 1 of its argument and no further from zero |
| Formulas.DropoutIsInverted | tensorflow/examples/cc/gan/dcgan/nn_ops_rkz.cc:104-119 | for keep_prob in (0, 1] and u in [0, 1) the mask is 0 or 1, it is 1 iff u >= 1 - keep_prob, and the output is x / keep_prob or 0 accordingly |
| Formulas.DropoutCallSiteIsIdentity | tensorflow/examples/cc/gan/dcgan/nn_ops_rkz.cc:104-106 | the argument 0.3f becomes the int rate 0, and dropout then returns its input for every sample |
| Formulas.DropoutIntendedRate | tensorflow/examples/cc/gan/dcgan/nn_ops_rkz.cc:484 | with rate 0.3 an element is zeroed for u < 0.3 and scaled by 1 / 0.7 otherwise |
| Formulas.ReluLogits | tensorflow/examples/cc/gan/dcgan/nn_ops_rkz.cc:139-141 | the selected value is max(logits, 0) |
| Formulas.NegAbsLogits | tensorflow/examples/cc/gan/dcgan/nn_ops_rkz.cc:142 | the selected value is -abs(logits), never positive |
| Formulas.StableCrossEntropyIsLogisticLoss | tensorflow/examples/cc/gan/dcgan/nn_ops_rkz.cc:121-147 | given softplus(t) = t + softplus(-t) at t = logits, the stable form equals logits - logits * labels + log(1 + exp(-logits)) |
| Formulas.GlorotSpec | tensorflow/examples/cc/gan/dcgan/nn_ops_rkz.cc:157-174 | fan_in and fan_out from the first two axes, or from kh * kw times in and out for rank 4, and the scale from them (the property is in GlorotUniform and GlorotFirstFilter) |
| Formulas.GlorotScale | tensorflow/examples/cc/gan/dcgan/nn_ops_rkz.cc:174 | scale lies in (0, 1] and is the reciprocal of max(1, (fan_in + fan_out) / 2) |
| Formulas.GlorotUniform | tensorflow/examples/cc/gan/dcgan/nn_ops_rkz.cc:157-174 | fan_in = kh * kw * in and fan_out = kh * kw * out for rank 4, otherwise shape[0] and shape[1]; scale in (0, 1] |
| Formulas.GlorotValueInRange | tensorflow/examples/cc/gan/dcgan/nn_ops_rkz.cc:175-181 | limit = sqrt(3 * scale) lies in (0, sqrt 3], and u * (maxval - minval) + minval lies in [-limit, limit) for u in [0, 1) |
| Formulas.GlorotFirstFilter | tensorflow/examples/cc/gan/dcgan/nn_ops_rkz.cc:342 | the (5, 5, 128, 256) kernel has fan_in 3200, fan_out 6400, scale 1/4800 and limit 1/40 |
| Formulas.SumNonNegative | tensorflow/examples/cc/gan/dcgan/nn_ops_rkz.cc:58 | a sum of non-negative terms is non-negative |
| Formulas.VarianceNonNegative | tensorflow/examples/cc/gan/dcgan/nn_ops_rkz.cc:56-58 | the variance, a mean of squared differences from the mean, is never negative |
| Formulas.SumConstant | tensorflow/examples/cc/gan/dcgan/nn_ops_rkz.cc:54 | the sum of n copies of c is n * c |
| Formulas.MomentsOfConstant | tensorflow/examples/cc/gan/dcgan/nn_ops_rkz.cc:54-58 | a constant group has mean equal to the constant and variance 0 |
| BatchNorm.PlainBuildShape | tensorflow/examples/cc/gan/dcgan/nn_ops_rkz.cc:220-258 | Moments without kept dims in training, where both AssignSub deltas must keep the moving variables' shapes, and the moving statistics otherwise; then BatchNormalization (the property is in PlainBuildOnDense and PlainBuildRejectsMismatchedStatistics) |
| BatchNorm.FusedBuildShape | tensorflow/examples/cc/gan/dcgan/nn_ops_rkz.cc:283-327 | FusedBatchNorm with empty statistics in training, where the per-channel batch statistics must fit both AssignSub deltas, and the moving statistics otherwise (the property is in FusedBuildKeepsShape) |
| BatchNorm.AssignSubAccepts | tensorflow/examples/cc/gan/dcgan/nn_ops_rkz.cc:236-247 | AssignSub(variable, (variable - statistic) * decay) builds only when the delta has the variable's shape |
| BatchNorm.PlainBuildRejectsMismatchedStatistics | tensorflow/examples/cc/gan/dcgan/nn_ops_rkz.cc:228-248 | a [4] module built in training on [2, 3, 4] over axis 0 fails: the [3, 4] batch statistics give a [3, 4] delta for a [4] variable |
| BatchNorm.TrainingUpdatesBetween | tensorflow/examples/cc/gan/dcgan/nn_ops_rkz.cc:235-248 | each of the two registered updates leaves its moving statistic between the stored and the batch value when 0 <= MOMENTUM <= 1 |
| BatchNorm.CreateStatistics | tensorflow/examples/cc/gan/dcgan/nn_ops_rkz.cc:199-218 | four consecutive new variables; only gamma and beta become trainable; the assigns set the moving mean, moving variance and beta to zero and gamma to one |
| BatchNorm.PlainBuildOnDense | tensorflow/examples/cc/gan/dcgan/nn_ops_rkz.cc:220-258 | on a [b, n] dense output normalised over axis 0 with [n] parameters, the output is [b, n] in both modes |
| BatchNorm.MomentsOfDense | tensorflow/examples/cc/gan/dcgan/nn_ops_rkz.cc:230 | Moments of [b, n] over axis 0 without kept dims gives [n] mean and variance |
| BatchNorm.FusedBuildKeepsShape | tensorflow/examples/cc/gan/dcgan/nn_ops_rkz.cc:283-327 | the fused module keeps a 4-D input's shape in both modes with per-channel parameters |
| BatchNorm.TFBatchNormalization.constructor | tensorflow/examples/cc/gan/dcgan/nn_ops_rkz.cc:199-218 | four variables of the given shape, consecutive ids, gamma and beta trainable, four initial assigns, no updates |
| BatchNorm.TFBatchNormalization.Build | tensorflow/examples/cc/gan/dcgan/nn_ops_rkz.cc:220-258 | the output shape uses the batch Moments in training and the moving statistics otherwise; training appends exactly the two AssignSub updates with decay 1 - MOMENTUM, inference appends none; trainables and assigns unchanged |
| BatchNorm.TFFusedBatchNorm.constructor | tensorflow/examples/cc/gan/dcgan/nn_ops_rkz.cc:260-281 | as for the plain module: four variables, two trainables, four initial assigns |
| BatchNorm.TFFusedBatchNorm.Build | tensorflow/examples/cc/gan/dcgan/nn_ops_rkz.cc:283-327 | the fused op uses empty statistics in training and the moving ones otherwise; training appends exactly the two updates, inference none |
| Networks.FlattenWidth | tensorflow/examples/cc/gan/dcgan/nn_ops_rkz.cc:456-458 | s1 = (IMAGE_SIZE / 4)^2 * 128 with truncating division (the property is in ComputeFlattenWidth and FlattenWidthOf28) |
| Networks.GeneratorShape | tensorflow/examples/cc/gan/dcgan/nn_ops_rkz.cc:363-432 | the Generator chain, stem then upsampling (the property is in GeneratorOutputShape) |
| Networks.GeneratorStem | tensorflow/examples/cc/gan/dcgan/nn_ops_rkz.cc:365-386 | noise, dense, batch norm, leaky ReLU and reshape (the property is in GeneratorStemShape) |
| Networks.GeneratorUpsample | tensorflow/examples/cc/gan/dcgan/nn_ops_rkz.cc:388-428 | three transposed convolutions with fused batch norm and leaky ReLU between them (the property is in GeneratorUpsampleShape) |
| Networks.DiscriminatorShape | tensorflow/examples/cc/gan/dcgan/nn_ops_rkz.cc:471-514 | the Discriminator chain, features then head (the property is in DiscriminatorOutputShape) |
| Networks.DiscriminatorFeatures | tensorflow/examples/cc/gan/dcgan/nn_ops_rkz.cc:474-497 | two stages of convolution, bias add, leaky ReLU and dropout (the property is in DiscriminatorFeaturesShape) |
| Networks.DiscriminatorHead | tensorflow/examples/cc/gan/dcgan/nn_ops_rkz.cc:499-510 | reshape to [batch_size, s1], MatMul with fc1_weights and BiasAdd (the property is in DiscriminatorHeadShape) |
| Networks.ComputeFlattenWidth | tensorflow/examples/cc/gan/dcgan/nn_ops_rkz.cc:456-458 | the step-by-step s1 is (IMAGE_SIZE / 4)^2 * 128 with C++ truncating division; the same function serves lines 499-501 |
| Networks.GeneratorStemShape | tensorflow/examples/cc/gan/dcgan/nn_ops_rkz.cc:365-386 | noise, dense, batch norm and reshape build iff the batch is non-negative and (for a non-empty batch) UNITS = 7 * 7 * 256, giving [b, 7, 7, 256] |
| Networks.GeneratorUpsampleShape | tensorflow/examples/cc/gan/dcgan/nn_ops_rkz.cc:388-428 | the three transposed convolutions (7 = ceil(7/1), 7 = ceil(14/2), 14 = ceil(28/2)) turn [b, 7, 7, 256] into [b, 28, 28, NUM_CHANNELS] |
| Networks.GeneratorOutputShape | tensorflow/examples/cc/gan/dcgan/nn_ops_rkz.cc:363-432 | the Generator builds iff b >= 0 and (b = 0 or UNITS = 12544); its output is then [b, 28, 28, NUM_CHANNELS] |
| Networks.CreateGeneratorWeights | tensorflow/examples/cc/gan/dcgan/nn_ops_rkz.cc:331-355 | the dense weight and three filters: consecutive ids, their shapes, all four trainable; the weight is initialised scaled normal (0.01), the filters Glorot uniform on their own shapes |
| Networks.Generator.constructor | tensorflow/examples/cc/gan/dcgan/nn_ops_rkz.cc:330-360 | 16 variables with consecutive ids, exactly the 10 trainables (w1, three filters, gamma and beta of the three batch norms) and the 16 assigns; parameter shapes match the transposed convolutions' channels |
| Networks.Generator.Build | tensorflow/examples/cc/gan/dcgan/nn_ops_rkz.cc:363-432 | the output shape is the Generator chain; training appends exactly the six updates of its own three batch norms, inference none; no variable, trainable or assign is added |
| Networks.DiscriminatorFeaturesShape | tensorflow/examples/cc/gan/dcgan/nn_ops_rkz.cc:474-497 | the two stride-2 stages give [b, ceil(ceil(h/2)/2), ceil(ceil(w/2)/2), 128] |
| Networks.DiscriminatorFeaturesOf28 | tensorflow/examples/cc/gan/dcgan/nn_ops_rkz.cc:474-497 | with a 28 x 28 input the first convolution gives [b, 14, 14, 64], the second [b, 7, 7, 128], and the whole feature stage [b, 7, 7, 128] |
| Networks.CeilHalfTwice | tensorflow/examples/cc/gan/dcgan/nn_ops_rkz.cc:475-488 | halving twice with rounding up is ceil(n / 4) |
| Networks.DiscriminatorHeadShape | tensorflow/examples/cc/gan/dcgan/nn_ops_rkz.cc:499-510 | the reshape to [b, s1] accepts a [b, c, c, 128] map iff b = 0 or c = IMAGE_SIZE / 4, and the head then gives [b, 1] |
| Networks.DiscriminatorOutputShape | tensorflow/examples/cc/gan/dcgan/nn_ops_rkz.cc:471-514 | on a square IMAGE_SIZE input the Discriminator builds iff b = 0 or IMAGE_SIZE is a multiple of 4, and yields [b, 1] |
| Networks.FlattenWidthOf28 | tensorflow/examples/cc/gan/dcgan/nn_ops_rkz.cc:456-458 | for IMAGE_SIZE 28, s1 is 6272 |
| Networks.GeneratorFeedsDiscriminator | tensorflow/examples/cc/gan/dcgan/nn_ops_rkz.cc:363-514 | with UNITS = 12544 and IMAGE_SIZE = 28 the Generator's output fed to the Discriminator gives one logit per example |
| Networks.Discriminator.constructor | tensorflow/examples/cc/gan/dcgan/nn_ops_rkz.cc:435-468 | six variables with consecutive ids, all six trainable, six assigns (Glorot weights, zero biases); fc1_weights has s1 rows |
| Networks.Discriminator.Build | tensorflow/examples/cc/gan/dcgan/nn_ops_rkz.cc:471-514 | the output shape is the Discriminator chain, with s1 recomputed as in the constructor; the scope is not modified |

## Left out

- Tensor values and the TensorFlow kernels are not modelled. This covers `Conv2D`, `Conv2DBackpropInput`, `FusedBatchNorm`, `MatMul`, `BiasAdd`, `LeakyRelu` and `Reshape`; only their shape rules are modelled, and LeakyRelu is taken to keep the shape.
- Floating-point precision is not modelled: all arithmetic is on exact reals, and `sqrt`, `rsqrt`, `exp` and `log1p` are constrained parameters.
- `RandomUniform` and `RandomNormal` are left out as random sources. A `RandomUniform` sample is a value in [0, 1) passed in, and the probability of the dropout mask is not modelled. A `RandomNormal` tensor is modelled only by its shape and, in an assign, by the `ScaledNormal` tag; its values are not modelled.
- Scope internals are left out: status propagation, `WithOpName` names and `LOG(INFO)` output. The scope header's `AddTrainableVariable`, `AddAssignOp` and `AddUpdateOp` are modelled only as appends.
- The assigns and updates record which value is written (`Init`, `AssignSub` with its statistic and decay). The op graph behind each value is not modelled.
- `StopGradient` has no effect on values and its gradient behaviour is out of scope.
- The unused `offset2` and `scale2` nodes (lines 413-414) are not modelled.
- The `Tensor` zero-fill of lines 443-444 is modelled as a `Zeros` initialiser.
- Shape rules cover only what the layer uses. Not covered: negative axes, duplicate axes (a reduction here folds its axes into a set, so `Moments` accepts `[0, 0]`, which TensorFlow's reduction kernel rejects when the graph runs), a `-1` in a reshape target, VALID padding, partial shapes, and dtypes.
- No shape rule is modelled for the output of `SigmoidCrossEntropyWithLogits` (lines 139-146) or of `GlorotUniform` (lines 153-181), nor the check that the value of the `Assign` built by `TFAssign` (line 43) has its variable's shape; only their scalar formulas, Glorot parameters and registrations are modelled.
- The reduction over an empty group, which yields NaN, is excluded: `Formulas.Mean` requires a non-empty group.
- Networks.ComputeFlattenWidth: the 32-bit `int` of `s1` is an unbounded integer here, so overflow for a very large IMAGE_SIZE is not modelled.
- Formulas.GlorotUniform: the source computes fan values and the scale in `float`; here they are exact, and the shape must have at least two entries because the source reads `shape[1]` unchecked.
- BatchNorm.TFBatchNormalization.Build: an inference build normalises with the stored moving statistics, but the result is a shape only. When the moving statistics have the shape of the batch statistics, as in the Generator's [UNITS] case, the two modes give the same result, so which statistics were used is not recorded.
- BatchNorm.TFFusedBatchNorm.Build: likewise, the use of the moving statistics in inference (lines 318-323) shows only through their shapes, and [C] parameters give the same result in both modes.
- Formulas.Dropout: `requires rate != 1.0` leaves out keep_prob = 0, where the float division x / keep_prob gives inf or NaN rather than an error.
- Formulas.StableCrossEntropyIsLogisticLoss: the identity for log1p(exp(.)) is a precondition, not proved about a real exponential.

## Findings

| source | as written | input that shows it | evidently intended | confidence | as-written member | corrected member |
|---|---|---|---|---|---|---|
| tensorflow/examples/cc/gan/dcgan/nn_ops_rkz.cc:104-106, 484, 496 | `Dropout` takes `const int rate` and the Discriminator passes `0.3f`, which converts to 0; keep_prob is then 1, the mask is always 1 and both dropout layers return their input | rate argument 0.3f, any sample u in [0, 1) | a drop rate of 0.3 (keep_prob 0.7) | high, not executed | Formulas.DropoutCallSiteIsIdentity | Formulas.DropoutIntendedRate |
