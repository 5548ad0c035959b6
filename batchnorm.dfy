/** The two batch-normalisation modules, TFBatchNormalization (built from
    Moments and BatchNormalization) and TFFusedBatchNorm (built on the fused
    kernel). Each owns a moving mean, a moving variance, gamma and beta,
    created once by its constructor; Build uses the batch statistics and
    registers two moving-average updates in training mode, and uses the
    stored statistics and registers nothing in inference mode. */
module BatchNorm {
  import opened Opt
  import opened Shapes
  import opened Registry
  import Formulas

  /** The four initialising assigns: moving statistics and beta to zero,
      gamma to one. */
  function InitialAssigns(movingMean: Var, movingVariance: Var, gamma: Var, beta: Var): seq<AssignOp> {
    [Assign(movingMean, Zeros), Assign(movingVariance, Zeros), Assign(gamma, Ones), Assign(beta, Zeros)]
  }

  /** The two updates a training Build registers, decay = 1 - MOMENTUM. */
  function TrainingUpdates(movingMean: Var, movingVariance: Var, momentum: real): seq<UpdateOp> {
    [AssignSub(movingMean, BatchMean, 1.0 - momentum), AssignSub(movingVariance, BatchVariance, 1.0 - momentum)]
  }

  /** Every update a training Build registers leaves its moving statistic
      between the stored value and the batch value when 0 <= MOMENTUM <= 1. */
  lemma TrainingUpdatesBetween(movingMean: Var, movingVariance: Var, momentum: real, moving: real, batch: real)
    requires 0.0 <= momentum <= 1.0
    ensures forall op :: op in TrainingUpdates(movingMean, movingVariance, momentum) ==>
              (moving <= batch ==> moving <= op.NewValue(moving, batch) <= batch) &&
              (batch <= moving ==> batch <= op.NewValue(moving, batch) <= moving)
  {
    Formulas.MovingAverageBetween(moving, batch, momentum);
  }

  /** The common body of both constructors: the moving statistics are plain
      variables (never trainable), gamma and beta go through TFVariable with
      trainable set. */
  method CreateStatistics(scope: Scope, shape: Shape) returns (movingMean: Var, movingVariance: Var, gamma: Var, beta: Var)
    modifies scope
    ensures movingMean == Var(old(scope.variableCount), shape)
    ensures movingVariance == Var(old(scope.variableCount) + 1, shape)
    ensures gamma == Var(old(scope.variableCount) + 2, shape)
    ensures beta == Var(old(scope.variableCount) + 3, shape)
    ensures scope.variableCount == old(scope.variableCount) + 4
    ensures scope.trainables == old(scope.trainables) + [gamma, beta]
    ensures scope.assigns == old(scope.assigns) + InitialAssigns(movingMean, movingVariance, gamma, beta)
    ensures scope.updates == old(scope.updates)
  {
    movingMean := scope.NewVariable(shape);
    var _ := TFAssign(scope, movingMean, Zeros);
    movingVariance := scope.NewVariable(shape);
    var _ := TFAssign(scope, movingVariance, Zeros);
    gamma := TFVariable(scope, shape, true);
    var _ := TFAssign(scope, gamma, Ones);
    beta := TFVariable(scope, shape, true);
    var _ := TFAssign(scope, beta, Zeros);
  }

  /** AssignSub(variable, (variable - stat) * decay) builds: the delta, after
      the scalar decay (which broadcasts trivially), must have the variable's
      shape. */
  predicate AssignSubAccepts(variable: Shape, stat: Shape) {
    Broadcast(variable, stat) == Some(variable)
  }

  /** Output shape of TFBatchNormalization::Build: batch Moments without
      kept dims in training mode, whose statistics must also fit the two
      update ops, and the moving statistics otherwise. */
  function PlainBuildShape(x: Option<Shape>, axes: seq<int>, epsilon: Shape, training: bool,
                           movingMean: Shape, movingVariance: Shape, beta: Shape, gamma: Shape): Option<Shape>
  {
    var xs :- x;
    if training then
      var moments :- Moments(xs, axes, false);
      if AssignSubAccepts(movingMean, moments.mean) && AssignSubAccepts(movingVariance, moments.variance)
      then BatchNormalizationShape(xs, moments.mean, moments.variance, beta, gamma, epsilon)
      else None
    else
      BatchNormalizationShape(xs, movingMean, movingVariance, beta, gamma, epsilon)
  }

  /** Output shape of TFFusedBatchNorm::Build; in training mode the kernel
      gets empty (shape [0]) mean and variance constants, and its per-channel
      batch statistics must fit the two update ops. */
  function FusedBuildShape(x: Option<Shape>, training: bool,
                           movingMean: Shape, movingVariance: Shape, beta: Shape, gamma: Shape): Option<Shape>
  {
    var xs :- x;
    if training then
      if |xs| == 4 && AssignSubAccepts(movingMean, [xs[3]]) && AssignSubAccepts(movingVariance, [xs[3]])
      then FusedBatchNormShape(xs, gamma, beta, [0], [0], true)
      else None
    else FusedBatchNormShape(xs, gamma, beta, movingMean, movingVariance, false)
  }

  /** A training build rejects batch statistics that do not fit the moving
      variables: a [4] module on [2, 3, 4] over axis 0 has [3, 4] batch
      statistics, so the update delta is [3, 4] against a [4] variable. */
  lemma PlainBuildRejectsMismatchedStatistics()
    ensures PlainBuildShape(Some([2, 3, 4]), [0], [1], true, [4], [4], [4], [4]) == None
  {
    MomentsShape([2, 3, 4], [0], false);
    assert AxesInRange([0], 3);
    assert AxisSet([0]) == {0} by {
      assert [0][0] == 0;
      assert forall y :: y in AxisSet([0]) ==> y == 0;
    }
    assert Kept([2, 3, 4], {0}) == [3, 4] by {
      assert [2, 3, 4][..2] == [2, 3] && [2, 3][..1] == [2] && [2][..0] == [];
      assert Kept([2], {0}) == [];
      assert Kept([2, 3], {0}) == [3];
    }
    assert Broadcast([4], [3, 4]) == Some([3, 4]);
  }

  /** A dense layer's [batch, n] output normalised over axis 0 with [n]
      parameters and a one-element epsilon keeps its shape in both modes. */
  lemma PlainBuildOnDense(b: int, n: int, training: bool)
    ensures PlainBuildShape(Some([b, n]), [0], [1], training, [n], [n], [n], [n]) == Some([b, n])
  {
    var x := [b, n];
    assert BroadcastsInto([n], x) && BroadcastsInto([1], [n]);
    BatchNormalizationKeepsShape(x, [n], [1]);
    BroadcastInto([n], [n]);
    if training {
      MomentsOfDense(b, n);
    }
  }

  lemma MomentsOfDense(b: int, n: int)
    ensures Moments([b, n], [0], false) == Some(MomentsShapes([n], [n]))
  {
    MomentsShape([b, n], [0], false);
    assert AxesInRange([0], 2);
    assert AxisSet([0]) == {0} by {
      assert [0][0] == 0;
      assert forall y :: y in AxisSet([0]) ==> y == 0;
    }
    assert Kept([b, n], {0}) == [n] by {
      assert [b, n][..1] == [b] && [b][..0] == [];
      assert Kept([b], {0}) == Kept([], {0}) + [];
      assert Kept([b, n], {0}) == Kept([b], {0}) + [n];
    }
  }

  /** The fused module keeps a 4-D input's shape when its parameters are
      per channel. */
  lemma FusedBuildKeepsShape(x: Shape, training: bool)
    requires |x| == 4
    ensures FusedBuildShape(Some(x), training, [x[3]], [x[3]], [x[3]], [x[3]]) == Some(x)
  {
    BroadcastInto([x[3]], [x[3]]);
  }

  class TFBatchNormalization {
    const movingMean: Var
    const movingVariance: Var
    const gamma: Var
    const beta: Var

    predicate Shaped(shape: Shape) {
      movingMean.shape == shape && movingVariance.shape == shape && gamma.shape == shape && beta.shape == shape
    }

    constructor (scope: Scope, shape: Shape)
      modifies scope
      ensures Shaped(shape)
      ensures [movingMean.id, movingVariance.id, gamma.id, beta.id] ==
              [old(scope.variableCount), old(scope.variableCount) + 1, old(scope.variableCount) + 2, old(scope.variableCount) + 3]
      ensures scope.variableCount == old(scope.variableCount) + 4
      ensures scope.trainables == old(scope.trainables) + [gamma, beta]
      ensures scope.assigns == old(scope.assigns) + InitialAssigns(movingMean, movingVariance, gamma, beta)
      ensures scope.updates == old(scope.updates)
    {
      var mm, mv, g, b := CreateStatistics(scope, shape);
      movingMean, movingVariance, gamma, beta := mm, mv, g, b;
    }

    method Build(scope: Scope, x: Option<Shape>, axes: seq<int>, epsilon: Shape, training: bool, momentum: real)
      returns (y: Option<Shape>)
      modifies scope
      ensures y == PlainBuildShape(x, axes, epsilon, training, movingMean.shape, movingVariance.shape, beta.shape, gamma.shape)
      ensures scope.updates == old(scope.updates) + (if training then TrainingUpdates(movingMean, movingVariance, momentum) else [])
      ensures scope.trainables == old(scope.trainables) && scope.assigns == old(scope.assigns)
      ensures scope.variableCount == old(scope.variableCount)
    {
      if training {
        var decay := 1.0 - momentum;
        scope.AddUpdateOp(AssignSub(movingMean, BatchMean, decay));
        scope.AddUpdateOp(AssignSub(movingVariance, BatchVariance, decay));
      }
      y := PlainBuildShape(x, axes, epsilon, training, movingMean.shape, movingVariance.shape, beta.shape, gamma.shape);
    }
  }

  class TFFusedBatchNorm {
    const movingMean: Var
    const movingVariance: Var
    const gamma: Var
    const beta: Var

    predicate Shaped(shape: Shape) {
      movingMean.shape == shape && movingVariance.shape == shape && gamma.shape == shape && beta.shape == shape
    }

    constructor (scope: Scope, shape: Shape)
      modifies scope
      ensures Shaped(shape)
      ensures [movingMean.id, movingVariance.id, gamma.id, beta.id] ==
              [old(scope.variableCount), old(scope.variableCount) + 1, old(scope.variableCount) + 2, old(scope.variableCount) + 3]
      ensures scope.variableCount == old(scope.variableCount) + 4
      ensures scope.trainables == old(scope.trainables) + [gamma, beta]
      ensures scope.assigns == old(scope.assigns) + InitialAssigns(movingMean, movingVariance, gamma, beta)
      ensures scope.updates == old(scope.updates)
    {
      var mm, mv, g, b := CreateStatistics(scope, shape);
      movingMean, movingVariance, gamma, beta := mm, mv, g, b;
    }

    method Build(scope: Scope, x: Option<Shape>, epsilon: real, training: bool, momentum: real)
      returns (y: Option<Shape>)
      modifies scope
      ensures y == FusedBuildShape(x, training, movingMean.shape, movingVariance.shape, beta.shape, gamma.shape)
      ensures scope.updates == old(scope.updates) + (if training then TrainingUpdates(movingMean, movingVariance, momentum) else [])
      ensures scope.trainables == old(scope.trainables) && scope.assigns == old(scope.assigns)
      ensures scope.variableCount == old(scope.variableCount)
    {
      if training {
        var decay := 1.0 - momentum;
        scope.AddUpdateOp(AssignSub(movingMean, BatchMean, decay));
        scope.AddUpdateOp(AssignSub(movingVariance, BatchVariance, decay));
      }
      y := FusedBuildShape(x, training, movingMean.shape, movingVariance.shape, beta.shape, gamma.shape);
    }
  }
}
