# ndb query front end: parameters and query-construction validation

This project is a Dafny model of the query front end of the Cloud Datastore
`ndb` client (`google.cloud.ndb.query`). It covers two parts:

- **`Parameter`**: the bound-variable slot of a GQL query (`:1`, `:name`).
  Constructing one checks the key's type. Two parameters are equal when their
  keys are equal. `resolve(bindings, used)` looks the key up in the bindings
  and records it in the caller's `used` map.
- **`Query` construction**: the constructor runs a fixed pipeline of
  validators over its keyword arguments, in this order: ancestor, filters,
  orders, namespace, default options, projection, group_by. It stores what
  they return, and the first validator that raises decides the exception.

The model is functional. Python objects are one closed datatype
(`PyObjects.Value`). Each exception is an `Errors.Error`: its exception class
plus the `raise` site that produced it. Every operation returns an
`Errors.Result`. `Resolve` returns the updated `used` map together with its
value or error, rather than mutating the map. The model-class registry
(`Model._kind_map` and each class's `_check_properties`) lives in a module
that is not part of this model. It is passed in as a `KindMap`, which gives,
for each registered kind, the predicate saying which lists of property names
that class accepts.

Files:

- `wrappers.dfy`: `Option`.
- `objects.dfy`: the Python values the code inspects, and their truthiness.
- `errors.dfy`: exception classes, raise sites, `Result`.
- `parameter.dfy`: `Parameter` construction, equality and resolution.
- `query.dfy`: the validators, the constructor and the validation order.
- `query_properties.dfy`: lemmas that relate several validators or several
  constructions.

Modelling choices:

- Python's `bool` subclasses `int`, and `True`/`False` compare and hash
  equal to `1`/`0`. The model therefore writes them as `IntV(1)` and `IntV(0)`.
- `app` and `namespace` are arbitrary values. The code only ever compares them
  with a `str` or `None`. For built-in types, and for a `Parameter` (whose
  `__eq__` returns `NotImplemented`, so the comparison falls back to identity),
  Dafny equality of two `Value`s matches Python's `==` in those comparisons.
  Comparing any other `ParameterizedThing`, including a `ParameterizedFunction`,
  raises `NotImplementedError`: its `__ne__` negates `==`, and its `__eq__`
  raises. The model raises that too. Objects of other classes that override
  equality are not modelled (see "Left out").
- An instance of `ParameterizedThing` that is neither a `Parameter` nor a
  `ParameterizedFunction` is a `ThingV`. That covers the base class itself,
  or some other subclass that keeps the inherited `__eq__`, `__ne__` and
  truthiness.
- `kind` is `None` or a `str`.

## Model

| member | source | states |
|---|---|---|
| Parameters.NewParameter | ndb/src/google/cloud/ndb/query.py:84-91 | construction succeeds iff the key is an `int`, `str` or `bytes`; any other key raises `TypeError`; the stored key, read back as a Python object, is the given one |
| Parameters.Equals | ndb/src/google/cloud/ndb/query.py:96-100 | against a non-`Parameter`, `__eq__` decides nothing (`NotImplemented`); against a `Parameter` it answers true iff the two keys are equal as Python objects |
| Parameters.EqualsIsIdentity | ndb/src/google/cloud/ndb/query.py:96-105 | parameter equality coincides with equality of the parameter values and is symmetric: the key is a parameter's whole identity |
| Parameters.Resolve | ndb/src/google/cloud/ndb/query.py:107-129 | raises `BadArgumentError` naming the key iff the key is not bound, and then leaves `used` as it was; otherwise it returns exactly the bound value and marks that key, and only that key, as used |
| Parameters.ResolveIdempotent | ndb/src/google/cloud/ndb/query.py:122-129 | resolving the same parameter again yields the same value or error and leaves `used` unchanged |
| Parameters.ResolveOrderIrrelevant | ndb/src/google/cloud/ndb/query.py:127-128 | for any two parameters, bound or not, the final `used` map does not depend on which is resolved first |
| Parameters.ResolveAllSucceeds | ndb/src/google/cloud/ndb/query.py:107-129 | resolving a sequence of parameters in turn (the `ResolveAll` harness; the source has no such function) succeeds iff every key is bound; it then yields the bound values in order, and `used` gains exactly those keys |
| Parameters.ResolveAllFails | ndb/src/google/cloud/ndb/query.py:122-128 | a failed run of resolutions reports the first unbound parameter, and `used` gains exactly the keys of the parameters before it |
| Queries.ValidateAncestor | ndb/src/google/cloud/ndb/query.py:226-255 | accepts exactly `None`, any `ParameterizedThing` except a function whose name is not `key`, or a complete key whose app and namespace agree with any explicit ones, and returns it unchanged; each rejection is checked in the source's order: non-`key` function `TypeError`, non-key `TypeError`, falsy id `ValueError`, an app that is a non-`Parameter` `ParameterizedThing` raises `NotImplementedError` from the comparison, then app mismatch `TypeError`; the same two checks follow for the namespace |
| Queries.ValidateFilters | ndb/src/google/cloud/ndb/query.py:258-265 | accepts exactly `None` or a `Node` and returns it unchanged; anything else raises `TypeError` |
| Queries.ValidateOrders | ndb/src/google/cloud/ndb/query.py:268-271 | accepts only `None`; any other value raises `NotImplementedError` |
| Queries.ValidateDefaultOptions | ndb/src/google/cloud/ndb/query.py:274-279 | accepts only `None`; any other value raises `NotImplementedError` |
| Queries.ValidateNamespace | ndb/src/google/cloud/ndb/query.py:282-285 | never raises; the namespace is taken from the ancestor only when none is given and the ancestor is a concrete key; otherwise it is kept as given |
| Queries.NamesOf | ndb/src/google/cloud/ndb/query.py:291-303 | succeeds iff every element is a `str` or a `Property`, mapping each to its name in order; otherwise the `TypeError` names the first offending element |
| Queries.ToPropertyNames | ndb/src/google/cloud/ndb/query.py:288-303 | a list or tuple succeeds iff every element is a `str` or `Property`, and then yields their names in order; otherwise the `TypeError` names the first offending element; any other value is treated as a one-element list |
| Queries.CheckProperties | ndb/src/google/cloud/ndb/query.py:306-309 | raises iff the kind is registered and its model class rejects the names; an absent or unregistered kind always passes |
| Queries.ValidatePropertyList | ndb/src/google/cloud/ndb/query.py:311-337 | `None` maps to `None`; a falsy value is refused as empty before the list/tuple check; a non-list/tuple raises `TypeError`; a bad element raises before the registry is asked; success holds exactly for non-empty lists/tuples of names the registry accepts, and it stores the original elements in order, not their names |
| Queries.Construct | ndb/src/google/cloud/ndb/query.py:202-223 | succeeds iff every argument is acceptable; stores kind, app, ancestor and filters as given and projection/group_by as tuples; with a concrete-key ancestor the stored namespace is the ancestor's own, otherwise the given one |
| Queries.FirstFailure | ndb/src/google/cloud/ndb/query.py:215-223 | the exception of the first stage in the given order whose validator raises, or none iff no stage raises |
| QueryProperties.ConstructStopsAtFirstError | ndb/src/google/cloud/ndb/query.py:215-223 | the constructor's exception, if any, is that of the earliest validator that raises |
| QueryProperties.ConstructReportsFirstFailure | ndb/src/google/cloud/ndb/query.py:215-223 | the constructor raises iff some validator would, and then raises exactly what the first failing one in the fixed order (ancestor, filters, orders, namespace, default options, projection, group_by) raises |
| QueryProperties.ConstructRevalidates | ndb/src/google/cloud/ndb/query.py:215-285 | passing a constructed query's own fields back to the constructor succeeds and rebuilds the same query; in particular the defaulted namespace agrees with the ancestor |
| QueryProperties.RegistryOnlyForRegisteredKind | ndb/src/google/cloud/ndb/query.py:306-309 | for an absent or unregistered kind, the outcome of projection/group_by validation does not depend on the registry |
| QueryProperties.ThingAppComparisonRaises | ndb/src/google/cloud/ndb/query.py:249-250 | with a complete key ancestor, an explicit app that is a `ParameterizedThing` other than a `Parameter` makes the `!=` itself raise `NotImplementedError` (its `__ne__` negates `__eq__`, which raises, lines 62-66); a `Parameter` app is a plain mismatch `TypeError` |
| QueryProperties.IncompleteAncestorRefused | ndb/src/google/cloud/ndb/query.py:246-247 | a key ancestor with a falsy id makes construction raise `ValueError`, whatever the other arguments are |

## Left out

- The filter `Node` family, `QueryOptions`, `RepeatedStructuredPropertyPredicate`, `Cursor`, `gql` and `QueryIterator`. In this source each is a stub that raises `NotImplementedError` or is `NotImplemented`. A node is therefore an opaque `NodeRef`, and no normaliser, `!=`/`IN` expansion or multi-query merge is modelled.
- The `ParameterizedFunction` constructor is a stub. Only the `func` name it would carry is modelled, because the ancestor check reads it.
- `ParameterizedThing.__eq__` and `__ne__` are modelled only where the ancestor check uses them: comparing an `app` or `namespace` with a key's string. Comparisons with arbitrary operands are not modelled. Nor is the reflected-operand protocol Python applies after `Parameter.__eq__` returns `NotImplemented`. Those outcomes depend on the other operand's class.
- `Parameter.__repr__` and exception message texts. Errors carry their class and raise site instead of a string.
- `model.Key`, `model.Property`, `Model._kind_map` and `_check_properties` live in a module that is not part of this model. A key is its `id()`, `app()` and `namespace()`; a property is its name; the registry is a `KindMap` parameter. A registry rejection is modelled as `InvalidPropertyError`, because that class is defined in the same missing module.
- Parameters.Resolve: bindings keyed by objects that are not `int`, `str` or `bytes` but compare equal to a key (such as `1.0` for `1`) are not modelled. The bindings map is keyed by parameter keys.
- Queries.Construct: a `kind` that is not a string is not modelled. In the source, an unhashable kind would make the registry lookup raise `TypeError`.
- Queries.ValidateAncestor: an `app` or `namespace` object that is not a `ParameterizedThing` but whose class overrides `__eq__`/`__ne__` is compared with default equality. An example is `unittest.mock.ANY`, which the source accepts against any key. The model counts such an object as different from every string, so it raises `AppMismatch` or `NamespaceMismatch`. `OtherV` carries no user-defined equality. For the parameterized classes that `query.py` defines, and for subclasses that keep their equality, the model follows the source: `Parameter` falls back to identity, and every other `ParameterizedThing` raises `NotImplementedError`.
- Subclasses of `str`, `list` and `tuple` that override equality or truthiness are not modelled. Nor are subclasses of `ParameterizedThing` that define `__bool__`, `__len__`, `__eq__` or `__ne__`, including subclasses of `Parameter` and `ParameterizedFunction`. An example is a subclass whose `__eq__` returns `NotImplemented`. Compared with a key's app at lines 249 or 252, such an object falls back to identity and raises the mismatch `TypeError`. The model's `ThingV` would raise `NotImplementedError` instead.
