/** The build scope's registries and the two registering primitives,
    TFVariable and TFAssign. The scope accumulates, in order, the trainable
    variables, the initialising assign ops and the per-step update ops; no
    entry is ever removed. */
module Registry {
  import opened Shapes
  import Formulas

  /** A persistent variable node. Ids are handed out by the scope in creation
      order, so two Var values are the same variable exactly when equal. */
  datatype Var = Var(id: nat, shape: Shape)

  /** The value an assign op writes into its variable. */
  datatype Init =
    | Zeros                                          // ZerosLike, or a constant 0
    | Ones                                           // OnesLike
    | ScaledNormal(factor: real)                     // RandomNormal(shape) * factor
    | GlorotUniformInit(params: Formulas.GlorotParams) // GlorotUniform(shape)

  datatype AssignOp = Assign(target: Var, value: Init)

  datatype Statistic = BatchMean | BatchVariance

  /** AssignSub(target, (target - batch statistic) * decay). */
  datatype UpdateOp = AssignSub(target: Var, stat: Statistic, decay: real) {
    /** The value the op leaves in its variable. */
    function NewValue(moving: real, batch: real): real {
      Formulas.MovingAverageUpdate(moving, batch, decay)
    }
  }

  class Scope {
    var trainables: seq<Var>
    var assigns: seq<AssignOp>
    var updates: seq<UpdateOp>
    /** Number of variable nodes created so far; the next variable's id. */
    var variableCount: nat

    constructor ()
      ensures trainables == [] && assigns == [] && updates == [] && variableCount == 0
    {
      trainables, assigns, updates, variableCount := [], [], [], 0;
    }

    /** Variable(scope, shape, dtype): a new persistent node, not registered. */
    method NewVariable(shape: Shape) returns (v: Var)
      modifies this
      ensures v == Var(old(variableCount), shape)
      ensures variableCount == old(variableCount) + 1
      ensures trainables == old(trainables) && assigns == old(assigns) && updates == old(updates)
    {
      v := Var(variableCount, shape);
      variableCount := variableCount + 1;
    }

    method AddTrainableVariable(v: Var)
      modifies this
      ensures trainables == old(trainables) + [v]
      ensures assigns == old(assigns) && updates == old(updates) && variableCount == old(variableCount)
    {
      trainables := trainables + [v];
    }

    method AddAssignOp(op: AssignOp)
      modifies this
      ensures assigns == old(assigns) + [op]
      ensures trainables == old(trainables) && updates == old(updates) && variableCount == old(variableCount)
    {
      assigns := assigns + [op];
    }

    method AddUpdateOp(op: UpdateOp)
      modifies this
      ensures updates == old(updates) + [op]
      ensures trainables == old(trainables) && assigns == old(assigns) && variableCount == old(variableCount)
    {
      updates := updates + [op];
    }
  }

  /** TFVariable: creates a variable and registers it as trainable exactly
      when `trainable` holds. */
  method TFVariable(scope: Scope, shape: Shape, trainable: bool) returns (v: Var)
    modifies scope
    ensures v == Var(old(scope.variableCount), shape)
    ensures scope.variableCount == old(scope.variableCount) + 1
    ensures scope.trainables == old(scope.trainables) + (if trainable then [v] else [])
    ensures scope.assigns == old(scope.assigns) && scope.updates == old(scope.updates)
  {
    v := scope.NewVariable(shape);
    if trainable {
      scope.AddTrainableVariable(v);
    }
  }

  /** TFAssign: builds an assign op and always registers it. */
  method TFAssign(scope: Scope, target: Var, value: Init) returns (op: AssignOp)
    modifies scope
    ensures op == Assign(target, value)
    ensures scope.assigns == old(scope.assigns) + [op]
    ensures scope.trainables == old(scope.trainables) && scope.updates == old(scope.updates)
    ensures scope.variableCount == old(scope.variableCount)
  {
    op := Assign(target, value);
    scope.AddAssignOp(op);
  }
}
