/**
 * Construction-time validation of a `Query`.
 *
 * The constructor runs a fixed pipeline of validators over its keyword
 * arguments (ancestor, filters, orders, namespace, default options,
 * projection, group_by) and stores what they return; the first validator
 * that raises decides the exception.  The registry of model classes
 * (`Model._kind_map` with each class's `_check_properties`) is outside this
 * model and is passed in as a `KindMap`: for each registered kind name, the
 * predicate saying which lists of property names the class accepts.
 */
module Queries {
  import opened Wrappers
  import opened PyObjects
  import opened Errors

  type KindMap = map<string, seq<string> -> bool>

  /** The constructor's keyword arguments; each defaults to `None`. */
  datatype QueryArgs = QueryArgs(
    kind: Option<string>,
    ancestor: Value,
    filters: Value,
    orders: Value,
    app: Value,
    namespace: Value,
    defaultOptions: Value,
    projection: Value,
    groupBy: Value)

  /** The validated query as the constructor stores it; `projection` and
      `groupBy` are `None` or the tuple made from the given list. */
  datatype Query = Query(
    kind: Option<string>,
    ancestor: Value,
    filters: Value,
    orders: Value,
    app: Value,
    namespace: Value,
    defaultOptions: Value,
    projection: Option<seq<Value>>,
    groupBy: Option<seq<Value>>)

  // ---------------------------------------------------------------------
  // ancestor

  /** The ancestors the constructor accepts, stated case by case: none, any
      parameterized thing other than a function not named `key`, or a
      complete key whose app and namespace agree with any explicitly given
      ones. */
  predicate AncestorAccepted(ancestor: Value, app: Value, namespace: Value) {
    match ancestor
    case NoneV => true
    case ParameterV(_) => true
    case ThingV(_) => true
    case FunctionV(f) => f.func == "key"
    case KeyV(k) =>
      && IdTruthy(k.id)
      && (app == NoneV || app == StrV(k.app))
      && (namespace == NoneV || namespace == NamespaceOf(k))
    case _ => false
  }

  /** `_validate_ancestor(ancestor, app, namespace)`. */
  function ValidateAncestor(ancestor: Value, app: Value, namespace: Value): (r: Result<Value>)
    ensures r.Ok? <==> AncestorAccepted(ancestor, app, namespace)
    ensures r.Ok? ==> r.value == ancestor
    ensures ancestor.FunctionV? && ancestor.fn.func != "key" ==> r == Err(Error(TypeError, AncestorFunctionNotKey))
    ensures !(ancestor.NoneV? || ancestor.ParameterV? || ancestor.ThingV? || ancestor.FunctionV? || ancestor.KeyV?) ==>
              r == Err(Error(TypeError, AncestorNotKey(ancestor)))
    ensures ancestor.KeyV? && !IdTruthy(ancestor.key.id) ==> r == Err(Error(ValueError, IncompleteAncestor))
    // an explicit app or namespace that is a parameterized thing makes the
    // comparison itself raise
    ensures ancestor.KeyV? && IdTruthy(ancestor.key.id) && RaisesOnCompare(app) ==>
              r == Err(Error(NotImplementedError, ThingComparison))
    ensures ancestor.KeyV? && IdTruthy(ancestor.key.id) && app != NoneV && !RaisesOnCompare(app)
            && app != StrV(ancestor.key.app) ==>
              r == Err(Error(TypeError, AppMismatch))
    ensures ancestor.KeyV? && IdTruthy(ancestor.key.id) && (app == NoneV || app == StrV(ancestor.key.app))
            && RaisesOnCompare(namespace) ==>
              r == Err(Error(NotImplementedError, ThingComparison))
    ensures ancestor.KeyV? && IdTruthy(ancestor.key.id) && (app == NoneV || app == StrV(ancestor.key.app))
            && namespace != NoneV && !RaisesOnCompare(namespace) && namespace != NamespaceOf(ancestor.key) ==>
              r == Err(Error(TypeError, NamespaceMismatch))
  {
    if ancestor.NoneV? then Ok(ancestor)
    else if ancestor.ParameterV? || ancestor.ThingV? || ancestor.FunctionV? then
      if ancestor.FunctionV? && ancestor.fn.func != "key" then Err(Error(TypeError, AncestorFunctionNotKey))
      else Ok(ancestor)
    else if !ancestor.KeyV? then Err(Error(TypeError, AncestorNotKey(ancestor)))
    else if !IdTruthy(ancestor.key.id) then Err(Error(ValueError, IncompleteAncestor))
    else if app != NoneV && RaisesOnCompare(app) then Err(Error(NotImplementedError, ThingComparison))
    else if app != NoneV && app != StrV(ancestor.key.app) then Err(Error(TypeError, AppMismatch))
    else if namespace != NoneV && RaisesOnCompare(namespace) then Err(Error(NotImplementedError, ThingComparison))
    else if namespace != NoneV && namespace != NamespaceOf(ancestor.key) then Err(Error(TypeError, NamespaceMismatch))
    else Ok(ancestor)
  }

  // ---------------------------------------------------------------------
  // filters, orders, default options, namespace

  /** `_validate_filters(filters)`: `None` or a `Node`, returned as given. */
  function ValidateFilters(filters: Value): (r: Result<Value>)
    ensures r.Ok? <==> filters.NoneV? || filters.NodeV?
    ensures r.Ok? ==> r.value == filters
    ensures r.Err? ==> r.error == Error(TypeError, FiltersNotNode(filters))
  {
    if !filters.NoneV? && !filters.NodeV? then Err(Error(TypeError, FiltersNotNode(filters)))
    else Ok(filters)
  }

  /** `_validate_orders(orders)`: only `None` is supported. */
  function ValidateOrders(orders: Value): (r: Result<Value>)
    ensures r.Ok? <==> orders.NoneV?
    ensures r.Ok? ==> r.value == NoneV
    ensures r.Err? ==> r.error == Error(NotImplementedError, MissingOrder)
  {
    if !orders.NoneV? then Err(Error(NotImplementedError, MissingOrder))
    else Ok(orders)
  }

  /** `_validate_default_options(default_options)`: only `None` is supported. */
  function ValidateDefaultOptions(defaultOptions: Value): (r: Result<Value>)
    ensures r.Ok? <==> defaultOptions.NoneV?
    ensures r.Ok? ==> r.value == NoneV
    ensures r.Err? ==> r.error == Error(NotImplementedError, MissingConfiguration)
  {
    if !defaultOptions.NoneV? then Err(Error(NotImplementedError, MissingConfiguration))
    else Ok(defaultOptions)
  }

  /** `_validate_namespace(namespace, ancestor)`: a missing namespace is taken
      from a concrete ancestor key; anything else is kept as given.  It never
      raises. */
  function ValidateNamespace(namespace: Value, ancestor: Value): (r: Value)
    ensures namespace != NoneV ==> r == namespace
    ensures !ancestor.KeyV? ==> r == namespace
    ensures namespace == NoneV && ancestor.KeyV? ==> r == NamespaceOf(ancestor.key)
  {
    if namespace.NoneV? && ancestor.KeyV? then NamespaceOf(ancestor.key)
    else namespace
  }

  // ---------------------------------------------------------------------
  // projection and group_by

  /** The elements `_to_property_names` accepts: a `str` or a `Property`. */
  predicate IsPropertyName(v: Value) {
    v.StrV? || v.PropertyV?
  }

  /** The property name an accepted element stands for. */
  function NameOf(v: Value): string
    requires IsPropertyName(v)
  {
    if v.StrV? then v.s else v.property.name
  }

  /** `items[j]` is the first element of `items` that is neither a `str` nor
      a `Property`. */
  ghost predicate FirstNonName(items: seq<Value>, j: int) {
    && 0 <= j < |items|
    && !IsPropertyName(items[j])
    && forall i :: 0 <= i < j ==> IsPropertyName(items[i])
  }

  /** The loop of `_to_property_names`: each element mapped to its name, in
      order, or a `TypeError` naming the first element that is neither a
      `str` nor a `Property`. */
  function NamesOf(items: seq<Value>): (r: Result<seq<string>>)
    ensures r.Ok? <==> forall i :: 0 <= i < |items| ==> IsPropertyName(items[i])
    ensures r.Ok? ==> |r.value| == |items|
    ensures r.Ok? ==> forall i :: 0 <= i < |items| ==> IsPropertyName(items[i]) && r.value[i] == NameOf(items[i])
    ensures r.Err? ==> exists j :: FirstNonName(items, j) && r.error == Error(TypeError, UnexpectedProperty(items[j]))
  {
    if items == [] then Ok([])
    else if !IsPropertyName(items[0]) then
      assert FirstNonName(items, 0);
      Err(Error(TypeError, UnexpectedProperty(items[0])))
    else
      var rest :- NamesOf(items[1..]);
      assert forall j :: FirstNonName(items[1..], j) ==> FirstNonName(items, j + 1);
      Ok([NameOf(items[0])] + rest)
  }

  /** Every element is a `str` or a `Property`. */
  predicate AllNames(items: seq<Value>) {
    forall i :: 0 <= i < |items| ==> IsPropertyName(items[i])
  }

  /** The names a list of accepted elements stands for. */
  function NamesOfAll(items: seq<Value>): seq<string>
    requires AllNames(items)
  {
    seq(|items|, i requires 0 <= i < |items| => NameOf(items[i]))
  }

  /** `_to_property_names(properties)`: a single non-sequence value is
      treated as a one-element list before the element check. */
  function ToPropertyNames(properties: Value): (r: Result<seq<string>>)
    ensures !(properties.ListV? || properties.TupleV?) ==>
              && (r.Ok? <==> IsPropertyName(properties))
              && (r.Ok? ==> r.value == [NameOf(properties)])
              && (r.Err? ==> r.error == Error(TypeError, UnexpectedProperty(properties)))
    ensures properties.ListV? || properties.TupleV? ==>
              && (r.Ok? <==> AllNames(properties.items))
              && (r.Ok? ==> r.value == NamesOfAll(properties.items))
              && (r.Err? ==> exists j :: FirstNonName(properties.items, j)
                                      && r.error == Error(TypeError, UnexpectedProperty(properties.items[j])))
  {
    if properties.ListV? || properties.TupleV? then NamesOf(properties.items)
    else NamesOf([properties])
  }

  /** Whether the registry lets these names through: it is consulted only
      when the kind is registered, and an unregistered or absent kind passes. */
  predicate RegistryAccepts(kindMap: KindMap, kind: Option<string>, names: seq<string>) {
    !(kind.Some? && kind.value in kindMap) || kindMap[kind.value](names)
  }

  /** `_check_properties(fixed, kind)`: looks the kind up in the registry and,
      if a model class is registered for it, lets that class vet the names. */
  function CheckProperties(kindMap: KindMap, names: seq<string>, kind: Option<string>): (r: Result<()>)
    ensures r.Ok? <==> RegistryAccepts(kindMap, kind, names)
    ensures r.Err? ==> r.error == Error(InvalidPropertyError, PropertiesRejected(kind.value, names))
  {
    match kind
    case None => Ok(())
    case Some(k) =>
      if k in kindMap && !kindMap[k](names) then Err(Error(InvalidPropertyError, PropertiesRejected(k, names)))
      else Ok(())
  }

  /** The property-list arguments the constructor accepts: `None`, or a
      non-empty list or tuple of names the registry lets through. */
  predicate PropertyListAccepted(kindMap: KindMap, kind: Option<string>, v: Value) {
    v.NoneV? ||
      ((v.ListV? || v.TupleV?) && |v.items| > 0 && AllNames(v.items)
       && RegistryAccepts(kindMap, kind, NamesOfAll(v.items)))
  }

  /** `_validate_projection` (`arg == Projection`) and `_validate_group_by`
      (`arg == GroupBy`), which differ only in their messages. */
  function ValidatePropertyList(arg: PropertyArg, v: Value, kind: Option<string>, kindMap: KindMap): (r: Result<Option<seq<Value>>>)
    ensures r.Ok? <==> PropertyListAccepted(kindMap, kind, v)
    ensures v.NoneV? ==> r == Ok(None)
    ensures r.Ok? && !v.NoneV? ==> (v.ListV? || v.TupleV?) && r.value == Some(v.items) && |v.items| > 0
    // emptiness is checked before the type, so an empty string is "empty"
    ensures !v.NoneV? && !Truthy(v) ==> r == Err(Error(TypeError, EmptyArgument(arg)))
    ensures Truthy(v) && !(v.ListV? || v.TupleV?) ==> r == Err(Error(TypeError, NotTupleOrList(arg, v)))
    ensures (v.ListV? || v.TupleV?) && |v.items| > 0 && !AllNames(v.items) ==>
              exists j :: FirstNonName(v.items, j) && r == Err(Error(TypeError, UnexpectedProperty(v.items[j])))
    ensures (v.ListV? || v.TupleV?) && |v.items| > 0 && AllNames(v.items)
            && !RegistryAccepts(kindMap, kind, NamesOfAll(v.items)) ==>
              r == Err(Error(InvalidPropertyError, PropertiesRejected(kind.value, NamesOfAll(v.items))))
  {
    if v.NoneV? then Ok(None)
    else if !Truthy(v) then Err(Error(TypeError, EmptyArgument(arg)))
    else if !(v.ListV? || v.TupleV?) then Err(Error(TypeError, NotTupleOrList(arg, v)))
    else
      var names :- ToPropertyNames(v);
      assert names == NamesOfAll(v.items);
      var _ :- CheckProperties(kindMap, names, kind);
      Ok(Some(v.items))
  }

  // ---------------------------------------------------------------------
  // the constructor

  /** The arguments the constructor accepts, argument by argument. */
  predicate ConstructionAccepted(kindMap: KindMap, args: QueryArgs) {
    && AncestorAccepted(args.ancestor, args.app, args.namespace)
    && (args.filters.NoneV? || args.filters.NodeV?)
    && args.orders.NoneV?
    && args.defaultOptions.NoneV?
    && PropertyListAccepted(kindMap, args.kind, args.projection)
    && PropertyListAccepted(kindMap, args.kind, args.groupBy)
  }

  /** What `tuple(v)` stores for an accepted property-list argument. */
  function StoredList(v: Value): Option<seq<Value>> {
    if v.ListV? || v.TupleV? then Some(v.items) else None
  }

  /** `Query(**args)`: the validators in the constructor's order.  `kind`
      and `app` are stored as given; the namespace validator sees the
      ancestor as passed in, which the ancestor validator returns unchanged. */
  function Construct(kindMap: KindMap, args: QueryArgs): (r: Result<Query>)
    ensures r.Ok? <==> ConstructionAccepted(kindMap, args)
    ensures r.Ok? ==> r.value.kind == args.kind && r.value.app == args.app
    ensures r.Ok? ==> r.value.ancestor == args.ancestor && r.value.filters == args.filters
    ensures r.Ok? ==> r.value.orders == NoneV && r.value.defaultOptions == NoneV
    ensures r.Ok? ==> r.value.projection == StoredList(args.projection) && r.value.groupBy == StoredList(args.groupBy)
    ensures r.Ok? && args.ancestor.KeyV? ==> r.value.namespace == NamespaceOf(args.ancestor.key)
    ensures r.Ok? && !args.ancestor.KeyV? ==> r.value.namespace == args.namespace
  {
    var ancestor :- ValidateAncestor(args.ancestor, args.app, args.namespace);
    var filters :- ValidateFilters(args.filters);
    var orders :- ValidateOrders(args.orders);
    var namespace := ValidateNamespace(args.namespace, args.ancestor);
    var defaultOptions :- ValidateDefaultOptions(args.defaultOptions);
    var projection :- ValidatePropertyList(Projection, args.projection, args.kind, kindMap);
    var groupBy :- ValidatePropertyList(GroupBy, args.groupBy, args.kind, kindMap);
    Ok(Query(args.kind, ancestor, filters, orders, args.app, namespace, defaultOptions, projection, groupBy))
  }

  // ---------------------------------------------------------------------
  // the validation order, as an independent reference

  /** One step of the constructor's validation pipeline. */
  datatype Stage =
    | AncestorStage
    | FiltersStage
    | OrdersStage
    | NamespaceStage
    | DefaultOptionsStage
    | ProjectionStage
    | GroupByStage

  /** The order in which the constructor runs its validators. */
  const ValidationOrder: seq<Stage> :=
    [AncestorStage, FiltersStage, OrdersStage, NamespaceStage, DefaultOptionsStage, ProjectionStage, GroupByStage]

  function ErrorOf<T>(r: Result<T>): Option<Error> {
    if r.Err? then Some(r.error) else None
  }

  /** The exception the validator of stage `s` raises on `args`, if any. */
  function StageError(kindMap: KindMap, args: QueryArgs, s: Stage): Option<Error> {
    match s
    case AncestorStage => ErrorOf(ValidateAncestor(args.ancestor, args.app, args.namespace))
    case FiltersStage => ErrorOf(ValidateFilters(args.filters))
    case OrdersStage => ErrorOf(ValidateOrders(args.orders))
    case NamespaceStage => None
    case DefaultOptionsStage => ErrorOf(ValidateDefaultOptions(args.defaultOptions))
    case ProjectionStage => ErrorOf(ValidatePropertyList(Projection, args.projection, args.kind, kindMap))
    case GroupByStage => ErrorOf(ValidatePropertyList(GroupBy, args.groupBy, args.kind, kindMap))
  }

  /** Stage `stages[i]` is the first of `stages` that raises on `args`. */
  ghost predicate FirstFailingStage(kindMap: KindMap, args: QueryArgs, stages: seq<Stage>, i: int) {
    && 0 <= i < |stages|
    && StageError(kindMap, args, stages[i]).Some?
    && forall j :: 0 <= j < i ==> StageError(kindMap, args, stages[j]).None?
  }

  /** The exception of the first stage of `stages` that raises, if any. */
  function FirstFailure(kindMap: KindMap, args: QueryArgs, stages: seq<Stage>): (r: Option<Error>)
    ensures r.None? <==> forall i :: 0 <= i < |stages| ==> StageError(kindMap, args, stages[i]).None?
    ensures r.Some? ==> exists i :: FirstFailingStage(kindMap, args, stages, i) && r == StageError(kindMap, args, stages[i])
  {
    if stages == [] then None
    else
      var e := StageError(kindMap, args, stages[0]);
      if e.Some? then
        assert FirstFailingStage(kindMap, args, stages, 0);
        e
      else
        var rest := FirstFailure(kindMap, args, stages[1..]);
        assert forall i :: FirstFailingStage(kindMap, args, stages[1..], i) ==> FirstFailingStage(kindMap, args, stages, i + 1);
        rest
  }
}
