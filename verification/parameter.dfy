/**
 * `Parameter`: a bound-variable slot of a GQL query, and its resolution
 * against a map of bindings.
 *
 * The source mutates the caller's `used` dictionary in place; here `Resolve`
 * returns the updated map alongside the value (or the error), so the state a
 * caller sees afterwards is explicit on both paths.
 */
module Parameters {
  import opened Wrappers
  import opened PyObjects
  import opened Errors

  /** `Parameter(key)`: only an `int`, `str` or `bytes` key is admitted, and
      it is stored as given. */
  function NewParameter(key: Value): (r: Result<Parameter>)
    ensures r.Ok? <==> key.IntV? || key.StrV? || key.BytesV?
    ensures r.Err? ==> r.error == Error(TypeError, ParameterKeyType(key))
    ensures r.Ok? ==> KeyValue(r.value.key) == key
  {
    match key
    case IntV(i) => Ok(Parameter(IntKey(i)))
    case StrV(s) => Ok(Parameter(StrKey(s)))
    case BytesV(b) => Ok(Parameter(BytesKey(b)))
    case _ => Err(Error(TypeError, ParameterKeyType(key)))
  }

  /** `p.__eq__(other)`.  `None` is the `NotImplemented` returned when `other`
      is not a `Parameter`: the method then leaves the answer to Python's
      reflected-operand protocol instead of deciding it. */
  function Equals(p: Parameter, other: Value): (r: Option<bool>)
    ensures r.None? <==> !other.ParameterV?
    ensures r == Some(true) <==> other.ParameterV? && KeyValue(other.param.key) == KeyValue(p.key)
  {
    match other
    case ParameterV(q) => Some(p.key == q.key)
    case _ => None
  }

  /** Two parameters compare equal exactly when they are the same value: the
      key is the whole of a parameter's identity. */
  lemma EqualsIsIdentity(p: Parameter, q: Parameter)
    ensures Equals(p, ParameterV(q)) == Some(p == q)
    ensures Equals(p, ParameterV(q)) == Equals(q, ParameterV(p))
  {
  }

  /** The outcome of resolving something: its value or the error, together
      with the `used` map as the caller holds it afterwards. */
  datatype Resolution<+T> = Resolution(value: Result<T>, used: map<ParamKey, bool>)

  /** `used'` is `used` with the keys in `keys`, and only those, added or set
      to `True`. */
  ghost predicate MarksExactly(used: map<ParamKey, bool>, used': map<ParamKey, bool>, keys: set<ParamKey>) {
    && used'.Keys == used.Keys + keys
    && (forall k :: k in keys ==> k in used' && used'[k])
    && (forall k :: k in used && k !in keys ==> k in used' && used'[k] == used[k])
  }

  /** `p.resolve(bindings, used)`.  An unbound key raises `BadArgumentError`
      and leaves `used` alone; a bound one yields the bound value itself and
      marks the key, and only that key, as used.  `bindings` is only read. */
  function Resolve(p: Parameter, bindings: map<ParamKey, Value>, used: map<ParamKey, bool>): (r: Resolution<Value>)
    ensures r.value.Err? <==> p.key !in bindings
    ensures r.value.Err? ==> r.value.error == Error(BadArgumentError, Unbound(p.key)) && r.used == used
    ensures r.value.Ok? ==> p.key in bindings && r.value.value == bindings[p.key]
    ensures r.value.Ok? ==> MarksExactly(used, r.used, {p.key})
  {
    if p.key !in bindings then
      Resolution(Err(Error(BadArgumentError, Unbound(p.key))), used)
    else
      Resolution(Ok(bindings[p.key]), used[p.key := true])
  }

  /** Resolving a parameter a second time changes nothing: same value, and the
      `used` map is already in its final state. */
  lemma ResolveIdempotent(p: Parameter, bindings: map<ParamKey, Value>, used: map<ParamKey, bool>)
    ensures var once := Resolve(p, bindings, used);
            var twice := Resolve(p, bindings, once.used);
            twice == once
  {
  }

  /** The `used` map does not depend on the order in which two parameters
      are resolved, bound or not. */
  lemma ResolveOrderIrrelevant(p: Parameter, q: Parameter, bindings: map<ParamKey, Value>, used: map<ParamKey, bool>)
    ensures Resolve(q, bindings, Resolve(p, bindings, used).used).used
         == Resolve(p, bindings, Resolve(q, bindings, used).used).used
  {
  }

  /** Repeated `resolve`: resolve `ps` left to right, threading `used`
      through each call and stopping at the first unbound parameter.  The
      source has no such function (its callers, the parameter nodes, are
      stubs); this is the harness in which the lemmas below state what a
      run of `resolve` calls does to `used`. */
  function ResolveAll(ps: seq<Parameter>, bindings: map<ParamKey, Value>, used: map<ParamKey, bool>): Resolution<seq<Value>>
  {
    if ps == [] then Resolution(Ok([]), used)
    else
      var first := Resolve(ps[0], bindings, used);
      match first.value
      case Err(e) => Resolution(Err(e), first.used)
      case Ok(v) =>
        var rest := ResolveAll(ps[1..], bindings, first.used);
        match rest.value
        case Err(e) => Resolution(Err(e), rest.used)
        case Ok(vs) => Resolution(Ok([v] + vs), rest.used)
  }

  /** The keys of a sequence of parameters. */
  function KeysOf(ps: seq<Parameter>): set<ParamKey> {
    if ps == [] then {} else {ps[0].key} + KeysOf(ps[1..])
  }

  /** `ps[j]` is the first parameter of `ps` that `bindings` does not bind. */
  ghost predicate FirstUnbound(ps: seq<Parameter>, bindings: map<ParamKey, Value>, j: int) {
    && 0 <= j < |ps|
    && ps[j].key !in bindings
    && forall i :: 0 <= i < j ==> ps[i].key in bindings
  }

  /** Marking `keys` and then `keys'` marks exactly their union. */
  lemma MarksExactlyTrans(a: map<ParamKey, bool>, b: map<ParamKey, bool>, c: map<ParamKey, bool>, keys: set<ParamKey>, keys': set<ParamKey>)
    requires MarksExactly(a, b, keys) && MarksExactly(b, c, keys')
    ensures MarksExactly(a, c, keys + keys')
  {
  }

  /** The successful run: every value is the bound one and exactly the
      parameters' keys have been marked as used. */
  lemma {:induction false} ResolveAllSucceeds(ps: seq<Parameter>, bindings: map<ParamKey, Value>, used: map<ParamKey, bool>)
    ensures var r := ResolveAll(ps, bindings, used);
      && (r.value.Ok? <==> forall i :: 0 <= i < |ps| ==> ps[i].key in bindings)
      && (r.value.Ok? ==>
            && |r.value.value| == |ps|
            && (forall i :: 0 <= i < |ps| ==> ps[i].key in bindings && r.value.value[i] == bindings[ps[i].key])
            && MarksExactly(used, r.used, KeysOf(ps)))
  {
    if ps != [] {
      var first := Resolve(ps[0], bindings, used);
      if first.value.Ok? {
        var tail := ps[1..];
        ResolveAllSucceeds(tail, bindings, first.used);
        var rest := ResolveAll(tail, bindings, first.used);
        assert forall i :: 1 <= i < |ps| ==> ps[i] == tail[i - 1];
        if rest.value.Ok? {
          MarksExactlyTrans(used, first.used, rest.used, {ps[0].key}, KeysOf(tail));
        }
      }
    }
  }

  /** The failed run: the error names the first unbound parameter, and
      exactly the keys before it have been marked as used. */
  lemma {:induction false} ResolveAllFails(ps: seq<Parameter>, bindings: map<ParamKey, Value>, used: map<ParamKey, bool>)
    ensures var r := ResolveAll(ps, bindings, used);
      r.value.Err? ==>
        exists j :: FirstUnbound(ps, bindings, j)
                 && r.value.error == Error(BadArgumentError, Unbound(ps[j].key))
                 && MarksExactly(used, r.used, KeysOf(ps[..j]))
  {
    if ps != [] {
      var r := ResolveAll(ps, bindings, used);
      var first := Resolve(ps[0], bindings, used);
      if first.value.Err? {
        assert FirstUnbound(ps, bindings, 0);
        assert ps[..0] == [];
      } else {
        var tail := ps[1..];
        ResolveAllFails(tail, bindings, first.used);
        var rest := ResolveAll(tail, bindings, first.used);
        if rest.value.Err? {
          var j :| FirstUnbound(tail, bindings, j)
                   && rest.value.error == Error(BadArgumentError, Unbound(tail[j].key))
                   && MarksExactly(first.used, rest.used, KeysOf(tail[..j]));
          assert FirstUnbound(ps, bindings, j + 1) by {
            assert forall i :: 1 <= i <= j ==> ps[i] == tail[i - 1];
          }
          assert ps[..j + 1][1..] == tail[..j];
          MarksExactlyTrans(used, first.used, rest.used, {ps[0].key}, KeysOf(tail[..j]));
        }
      }
    }
  }
}
