/** The attribute merge rule of the registry mixin (`setattr`): how a
    re-constructed entity folds newly supplied values into the fields it
    already has. */
module Attributes {
  import opened Values

  /** The candidates `setattr` refuses to write over a populated field:
      `None`, `[]` and `set()`. (`""`, `0` and `{}` are not among them.) */
  predicate IsEmptyCandidate(v: Value) {
    v == NoneV || v == ListV([]) || v == SetV([])
  }

  /** A field is populated when present and not `None`. */
  predicate Populated(attrs: map<string, Value>, name: string) {
    name in attrs && attrs[name] != NoneV
  }

  datatype MergeOutcome = MergeOutcome(attrs: map<string, Value>, applied: bool)

  /** One `setattr(name, value)` on an object whose attributes are `attrs`. */
  function Merge(attrs: map<string, Value>, name: string, value: Value): (r: MergeOutcome)
    ensures name in r.attrs && r.attrs == attrs[name := r.attrs[name]]
    ensures r.applied <==> !Populated(attrs, name) || !IsEmptyCandidate(value)
    ensures r.applied ==> r.attrs[name] == value
    ensures !r.applied ==> r.attrs == attrs
  {
    if name !in attrs then MergeOutcome(attrs[name := value], true)
    else if attrs[name] == NoneV then MergeOutcome(attrs[name := value], true)
    else if !IsEmptyCandidate(value) then MergeOutcome(attrs[name := value], true)
    else MergeOutcome(attrs, false)
  }

  /** A merge changes no other field and adds no other key. */
  lemma MergeFrame(attrs: map<string, Value>, name: string, value: Value)
    ensures Merge(attrs, name, value).attrs.Keys == attrs.Keys + {name}
    ensures forall k | k in attrs && k != name :: Merge(attrs, name, value).attrs[k] == attrs[k]
  {
  }

  /** The run of `setattr(name, value)` calls an entity's `__init__`
      performs, first call first. */
  datatype Updates = Done | Then(name: string, value: Value, rest: Updates)

  function MergeAll(attrs: map<string, Value>, u: Updates): map<string, Value>
    decreases u
  {
    match u
    case Done => attrs
    case Then(n, v, rest) => MergeAll(Merge(attrs, n, v).attrs, rest)
  }

  function Names(u: Updates): set<string> {
    match u
    case Done => {}
    case Then(n, _, rest) => {n} + Names(rest)
  }

  /** No field is set twice in the run. */
  predicate DistinctNames(u: Updates) {
    match u
    case Done => true
    case Then(n, _, rest) => n !in Names(rest) && DistinctNames(rest)
  }

  /** The value the run sets `name` to. */
  function ValueOf(u: Updates, name: string): Value
    requires name in Names(u)
  {
    if u.name == name then u.value else ValueOf(u.rest, name)
  }

  // ---- Properties of the merge rule ----

  /** Repeating the same `setattr` changes nothing more. The second call
      still reports a write whenever the value is not an empty candidate. */
  lemma MergeIdempotent(attrs: map<string, Value>, name: string, value: Value)
    ensures var once := Merge(attrs, name, value).attrs;
            Merge(once, name, value).attrs == once
    ensures !IsEmptyCandidate(value) ==>
            Merge(Merge(attrs, name, value).attrs, name, value).applied
  {
  }

  /** First unset then a non-empty value: the field holds the new value.
      First a populated value then an empty candidate: the original stays. */
  lemma MergeMonotone(attrs: map<string, Value>, name: string, v: Value, e: Value)
    requires !IsEmptyCandidate(v) && IsEmptyCandidate(e)
    ensures Merge(Merge(attrs, name, NoneV).attrs, name, v).attrs[name] == v
    ensures Merge(Merge(attrs, name, v).attrs, name, e).attrs[name] == v
  {
  }

  /** Fields the run does not name keep their values; the named ones are
      present afterwards. */
  lemma {:induction false} MergeAllFrame(attrs: map<string, Value>, u: Updates)
    ensures MergeAll(attrs, u).Keys == attrs.Keys + Names(u)
    ensures forall k | k in attrs && k !in Names(u) :: MergeAll(attrs, u)[k] == attrs[k]
    decreases u
  {
    match u
    case Done =>
    case Then(n, v, rest) =>
      MergeFrame(attrs, n, v);
      MergeAllFrame(Merge(attrs, n, v).attrs, rest);
  }

  /** Each field named in a run without repeats ends up as that one
      `setattr` on the starting value would leave it. */
  lemma {:induction false} MergeAllField(attrs: map<string, Value>, u: Updates, name: string)
    requires DistinctNames(u) && name in Names(u)
    ensures name in MergeAll(attrs, u)
    ensures MergeAll(attrs, u)[name] == Merge(attrs, name, ValueOf(u, name)).attrs[name]
    decreases u
  {
    var next := Merge(attrs, u.name, u.value).attrs;
    if u.name == name {
      MergeAllFrame(next, u.rest);
    } else {
      MergeAllField(next, u.rest, name);
      MergeFrame(attrs, u.name, u.value);
    }
  }

  /** On a new object, every field of a run without repeats holds the value
      the run gives it. */
  lemma MergeAllFresh(u: Updates, name: string)
    requires DistinctNames(u) && name in Names(u)
    ensures name in MergeAll(map[], u) && MergeAll(map[], u)[name] == ValueOf(u, name)
  {
    MergeAllField(map[], u, name);
  }

  /** Two `setattr`s on different fields can be swapped. */
  lemma MergeSwap(attrs: map<string, Value>, n1: string, v1: Value, n2: string, v2: Value)
    requires n1 != n2
    ensures Merge(Merge(attrs, n1, v1).attrs, n2, v2).attrs
         == Merge(Merge(attrs, n2, v2).attrs, n1, v1).attrs
  {
  }

  /** `setattr` of a field commutes with a run of `setattr`s on other fields. */
  lemma {:induction false} MergeCommutes(attrs: map<string, Value>, name: string, value: Value, rest: Updates)
    requires name !in Names(rest)
    ensures Merge(MergeAll(attrs, rest), name, value).attrs
         == MergeAll(Merge(attrs, name, value).attrs, rest)
    decreases rest
  {
    match rest
    case Done =>
    case Then(n, v, tail) =>
      MergeCommutes(Merge(attrs, n, v).attrs, name, value, tail);
      MergeSwap(attrs, n, v, name, value);
  }

  /** Constructing an entity twice with the same arguments leaves the state of
      the first construction: an `__init__` replayed on its own result is a
      no-op on the attributes. */
  lemma {:induction false} MergeAllIdempotent(attrs: map<string, Value>, u: Updates)
    requires DistinctNames(u)
    ensures MergeAll(MergeAll(attrs, u), u) == MergeAll(attrs, u)
    decreases u
  {
    match u
    case Done =>
    case Then(n, v, rest) =>
      var b := Merge(attrs, n, v).attrs;
      calc {
        MergeAll(MergeAll(attrs, u), u);
        MergeAll(Merge(MergeAll(b, rest), n, v).attrs, rest);
        { MergeCommutes(b, n, v, rest); }
        MergeAll(MergeAll(Merge(b, n, v).attrs, rest), rest);
        { MergeIdempotent(attrs, n, v); }
        MergeAll(MergeAll(b, rest), rest);
        { MergeAllIdempotent(b, rest); }
        MergeAll(b, rest);
      }
  }
}
