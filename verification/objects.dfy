/**
 * The part of Python's object universe that the query front end inspects.
 *
 * The constructor of a query and the `Parameter` class accept arbitrary
 * Python objects and decide by `isinstance`, `is None` and truthiness what to
 * do with them.  `Value` is a closed tagged union of the object kinds those
 * tests distinguish.  Python's `bool` is a subclass of `int` whose values are
 * equal (and hash equal) to 0 and 1, so `True` and `False` are written
 * `IntV(1)` and `IntV(0)` here.
 */
module PyObjects {
  import opened Wrappers

  newtype byte = x: int | 0 <= x < 256

  /** The id part of a datastore key: an integer id, a string name, or absent
      for an incomplete key. */
  datatype KeyId = NoId | IntegerId(n: int) | NameId(name: string)

  /** A datastore key, reduced to the three accessors the query reads:
      `id()`, `app()` and `namespace()`.  The key's path is not modelled. */
  datatype Key = Key(id: KeyId, app: string, namespace: Option<string>)

  /** A model property descriptor; the query only reads its `_name`. */
  datatype Property = Property(name: string)

  /** A deferred GQL function call such as `KEY(...)`; the query only reads
      its `func` name. */
  datatype ParameterizedFunction = ParameterizedFunction(func: string)

  /** Identity of some instance of a filter `Node` subclass.  The node
      algebra itself is not part of this model. */
  datatype NodeRef = NodeRef(id: nat)

  /** The key of a `Parameter`: one of the three key types the class admits. */
  datatype ParamKey = IntKey(i: int) | StrKey(s: string) | BytesKey(bytes: seq<byte>)

  /** A bound-variable slot of a GQL query, `:1` or `:name`. */
  datatype Parameter = Parameter(key: ParamKey)

  datatype Value =
    | NoneV
    | IntV(i: int)
    | StrV(s: string)
    | BytesV(bytes: seq<byte>)
    | ListV(items: seq<Value>)
    | TupleV(items: seq<Value>)
    | KeyV(key: Key)
    | PropertyV(property: Property)
    | ParameterV(param: Parameter)
    | FunctionV(fn: ParameterizedFunction)
      /** Any other instance of `ParameterizedThing`: the base class itself
          or a subclass other than `Parameter` and `ParameterizedFunction`
          that keeps the inherited `__eq__`, `__ne__` and truthiness. */
    | ThingV(className: string)
    | NodeV(node: NodeRef)
      /** Any other object (a float, a dict, an instance of some other class);
          `truthy` is what `bool()` would say of it. */
    | OtherV(typeName: string, truthy: bool)

  /** Python truthiness, `bool(v)`.  Keys, properties, parameterized things
      and nodes define neither `__bool__` nor `__len__`, so they are true. */
  predicate Truthy(v: Value) {
    match v
    case NoneV => false
    case IntV(i) => i != 0
    case StrV(s) => |s| > 0
    case BytesV(b) => |b| > 0
    case ListV(items) => |items| > 0
    case TupleV(items) => |items| > 0
    case OtherV(_, t) => t
    case _ => true
  }

  /** Comparing this object with `!=` raises: `ParameterizedThing.__ne__`
      negates `==`, and `ParameterizedThing.__eq__` raises
      `NotImplementedError`.  `Parameter` overrides `__eq__`, and
      `ParameterizedFunction` does not.  Every `ParameterizedThing` the
      `Value` type represents uses its class's own equality. */
  predicate RaisesOnCompare(v: Value) {
    v.ThingV? || v.FunctionV?
  }

  /** Python truthiness of `key.id()`: 0, "" and None are false. */
  predicate IdTruthy(id: KeyId) {
    match id
    case NoId => false
    case IntegerId(n) => n != 0
    case NameId(s) => |s| > 0
  }

  /** The object `key.namespace()` returns. */
  function NamespaceOf(k: Key): Value {
    match k.namespace
    case Some(ns) => StrV(ns)
    case None => NoneV
  }

  /** A parameter key as the Python object it is. */
  function KeyValue(k: ParamKey): Value {
    match k
    case IntKey(i) => IntV(i)
    case StrKey(s) => StrV(s)
    case BytesKey(b) => BytesV(b)
  }
}
