/**
 * Properties of query construction that relate several validators or
 * several constructions: the error precedence of the pipeline, stability
 * of a constructed query under re-validation, and the reach of the kind
 * registry.
 */
module QueryProperties {
  import opened Wrappers
  import opened PyObjects
  import opened Errors
  import opened Queries

  /** The constructor raises exactly when some validator would, and then it
      raises what the first failing validator in the fixed order raises:
      ancestor, filters, orders, namespace, default options, projection,
      group_by. */
  lemma ConstructReportsFirstFailure(kindMap: KindMap, args: QueryArgs)
    ensures Construct(kindMap, args).Ok? <==> FirstFailure(kindMap, args, ValidationOrder).None?
    ensures Construct(kindMap, args).Err? ==>
              FirstFailure(kindMap, args, ValidationOrder) == Some(Construct(kindMap, args).error)
  {
    var s0 := ValidationOrder;
    var s1 := [FiltersStage, OrdersStage, NamespaceStage, DefaultOptionsStage, ProjectionStage, GroupByStage];
    var s2 := [OrdersStage, NamespaceStage, DefaultOptionsStage, ProjectionStage, GroupByStage];
    var s3 := [NamespaceStage, DefaultOptionsStage, ProjectionStage, GroupByStage];
    var s4 := [DefaultOptionsStage, ProjectionStage, GroupByStage];
    var s5 := [ProjectionStage, GroupByStage];
    var s6 := [GroupByStage];
    assert s0[1..] == s1 && s1[1..] == s2 && s2[1..] == s3 && s3[1..] == s4;
    assert s4[1..] == s5 && s5[1..] == s6 && s6[1..] == [];
    var e0 := StageError(kindMap, args, AncestorStage);
    var e1 := StageError(kindMap, args, FiltersStage);
    var e2 := StageError(kindMap, args, OrdersStage);
    var e4 := StageError(kindMap, args, DefaultOptionsStage);
    var e5 := StageError(kindMap, args, ProjectionStage);
    var e6 := StageError(kindMap, args, GroupByStage);
    FirstFailureStep(kindMap, args, s6);
    assert FirstFailure(kindMap, args, s6) == e6;
    FirstFailureStep(kindMap, args, s5);
    assert FirstFailure(kindMap, args, s5) == if e5.Some? then e5 else e6;
    FirstFailureStep(kindMap, args, s4);
    assert FirstFailure(kindMap, args, s4) == if e4.Some? then e4 else if e5.Some? then e5 else e6;
    FirstFailureStep(kindMap, args, s3);
    assert FirstFailure(kindMap, args, s3) == if e4.Some? then e4 else if e5.Some? then e5 else e6;
    FirstFailureStep(kindMap, args, s2);
    FirstFailureStep(kindMap, args, s1);
    FirstFailureStep(kindMap, args, s0);
    assert FirstFailure(kindMap, args, s0)
        == if e0.Some? then e0 else if e1.Some? then e1 else if e2.Some? then e2
           else if e4.Some? then e4 else if e5.Some? then e5 else e6;
    ConstructStopsAtFirstError(kindMap, args);
  }

  /** The constructor's exception, if any, is that of the first validator
      that raises. */
  lemma ConstructStopsAtFirstError(kindMap: KindMap, args: QueryArgs)
    ensures ErrorOf(Construct(kindMap, args))
         == var e0 := StageError(kindMap, args, AncestorStage);
            var e1 := StageError(kindMap, args, FiltersStage);
            var e2 := StageError(kindMap, args, OrdersStage);
            var e4 := StageError(kindMap, args, DefaultOptionsStage);
            var e5 := StageError(kindMap, args, ProjectionStage);
            var e6 := StageError(kindMap, args, GroupByStage);
            if e0.Some? then e0 else if e1.Some? then e1 else if e2.Some? then e2
            else if e4.Some? then e4 else if e5.Some? then e5 else e6
  {
  }

  /** One step of the first-failure search. */
  lemma FirstFailureStep(kindMap: KindMap, args: QueryArgs, stages: seq<Stage>)
    requires stages != []
    ensures FirstFailure(kindMap, args, stages)
         == if StageError(kindMap, args, stages[0]).Some? then StageError(kindMap, args, stages[0])
            else FirstFailure(kindMap, args, stages[1..])
  {
  }

  /** The arguments that would rebuild a constructed query: its stored
      fields, with the stored tuples passed back as tuples. */
  function ArgsOf(q: Query): QueryArgs {
    QueryArgs(q.kind, q.ancestor, q.filters, q.orders, q.app, q.namespace, q.defaultOptions,
              TupleOf(q.projection), TupleOf(q.groupBy))
  }

  function TupleOf(items: Option<seq<Value>>): Value {
    match items
    case Some(xs) => TupleV(xs)
    case None => NoneV
  }

  /** Construction is stable: feeding a constructed query's own fields back
      to the constructor succeeds and yields the same query.  In particular
      the namespace taken from the ancestor agrees with that ancestor. */
  lemma ConstructRevalidates(kindMap: KindMap, args: QueryArgs)
    requires Construct(kindMap, args).Ok?
    ensures Construct(kindMap, ArgsOf(Construct(kindMap, args).value)) == Construct(kindMap, args)
  {
  }

  /** The registry is consulted only for a registered kind: for an absent or
      unregistered kind, what the registry would say makes no difference. */
  lemma RegistryOnlyForRegisteredKind(arg: PropertyArg, v: Value, kind: Option<string>, m1: KindMap, m2: KindMap)
    requires kind.None? || (kind.value !in m1 && kind.value !in m2)
    ensures ValidatePropertyList(arg, v, kind, m1) == ValidatePropertyList(arg, v, kind, m2)
  {
  }

  /** An incomplete ancestor key is refused with `ValueError`, whatever the
      other arguments. */
  lemma IncompleteAncestorRefused(kindMap: KindMap, args: QueryArgs)
    requires args.ancestor.KeyV? && !IdTruthy(args.ancestor.key.id)
    ensures Construct(kindMap, args) == Err(Error(ValueError, IncompleteAncestor))
  {
  }

  /** Comparing an explicit app with a concrete ancestor's app raises
      `NotImplementedError` when the app is a parameterized thing other than
      a `Parameter`, and reports a plain mismatch for a `Parameter`. */
  lemma ThingAppComparisonRaises(kindMap: KindMap, args: QueryArgs)
    requires args.ancestor.KeyV? && IdTruthy(args.ancestor.key.id)
    ensures RaisesOnCompare(args.app) ==>
              Construct(kindMap, args) == Err(Error(NotImplementedError, ThingComparison))
    ensures args.app.ParameterV? ==> Construct(kindMap, args) == Err(Error(TypeError, AppMismatch))
  {
  }
}
