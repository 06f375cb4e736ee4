/** `Document.entities`: the distinct entities that a document's
    annotations refer to, built by collecting `a.entity` into a set. */
module Documents {
  import opened Values
  import opened Reconstruction

  /** Python's `hash` refuses lists, dicts and sets. */
  predicate Hashable(v: Value) {
    !(v.ListV? || v.DictV? || v.SetV?)
  }

  /** No value occurs twice. */
  predicate Distinct(xs: seq<Value>) {
    forall i, j | 0 <= i < j < |xs| :: xs[i] != xs[j]
  }

  /** `a.entity`, checked hashable as the set receives it. */
  function EntityOf(store: Store, a: Value): (r: Result<Value>)
    ensures r.Ok? <==> GetAttr(store, a, "entity").Ok? && Hashable(GetAttr(store, a, "entity").value)
    ensures r.Ok? ==> r.value == GetAttr(store, a, "entity").value
  {
    var e :- GetAttr(store, a, "entity");
    if Hashable(e) then Ok(e) else Err(Unhashable(TypeName(e)))
  }

  /** The generator `a.entity for a in items`, consumed in order: the
      first annotation that fails raises its error. */
  function EntitiesIn(store: Store, items: seq<Value>): (r: Result<seq<Value>>)
    ensures r.Ok? <==> forall i | 0 <= i < |items| :: EntityOf(store, items[i]).Ok?
    ensures r.Ok? ==> |r.value| == |items| &&
                      forall i | 0 <= i < |items| :: r.value[i] == EntityOf(store, items[i]).value
    ensures r.Err? ==> exists i | 0 <= i < |items| ::
                         && EntityOf(store, items[i]) == Err(r.error)
                         && forall j | 0 <= j < i :: EntityOf(store, items[j]).Ok?
    decreases |items|
  {
    if items == [] then Ok([])
    else
      var e :- EntityOf(store, items[0]);
      var rest :- EntitiesIn(store, items[1..]);
      assert forall i | 1 <= i < |items| :: items[i] == items[1..][i - 1];
      Ok([e] + rest)
  }

  /** `set(xs)` listed back: every value of `xs` once. Python leaves the
      order open; the model keeps first occurrences. */
  function Dedupe(xs: seq<Value>): (r: seq<Value>)
    ensures Distinct(r)
    ensures forall x :: x in r <==> x in xs
    decreases |xs|
  {
    if xs == [] then []
    else
      var rest := Dedupe(xs[..|xs| - 1]);
      var last := xs[|xs| - 1];
      assert xs == xs[..|xs| - 1] + [last];
      if last in rest then rest else rest + [last]
  }

  /** `document.entities` for the document registered under `d`. */
  function DocumentEntities(store: Store, d: Key): (r: Result<seq<Value>>)
    requires d in store
    ensures "annotations" !in store[d] ==> r == Err(AttributeError("annotations"))
    ensures r.Ok? ==> Distinct(r.value)
    ensures "annotations" in store[d] && store[d]["annotations"].DictV? ==>
              r == if store[d]["annotations"].entries == map[] then Ok([]) else Err(AttributeError("entity"))
    ensures r.Ok? ==> "annotations" in store[d]
    ensures r.Ok? && !store[d]["annotations"].DictV? ==>
                      && Iterate(store[d]["annotations"]).Ok?
                      && var items := Iterate(store[d]["annotations"]).value;
                         forall x :: x in r.value <==>
                           exists i | 0 <= i < |items| :: EntityOf(store, items[i]) == Ok(x)
  {
    var annotations :- Attr(store[d], "annotations");
    if annotations.DictV? then
      // The generator visits the keys, and a string has no `entity`.
      if annotations.entries == map[] then Ok([]) else Err(AttributeError("entity"))
    else
      var items :- Iterate(annotations);
      var entities :- EntitiesIn(store, items);
      Ok(Dedupe(entities))
  }

  /** Annotations whose entity attribute is an entity object yield it. */
  lemma EntitiesOfObjs(store: Store, items: seq<Value>) returns (es: seq<Value>)
    requires forall i | 0 <= i < |items| ::
               && items[i].Obj? && items[i].ref in store && "entity" in store[items[i].ref]
               && store[items[i].ref]["entity"].Obj? && store[items[i].ref]["entity"].ref.kind == Entity
    ensures EntitiesIn(store, items) == Ok(es)
    ensures |es| == |items| && forall i | 0 <= i < |items| :: es[i] == store[items[i].ref]["entity"]
  {
    assert forall i | 0 <= i < |items| :: EntityOf(store, items[i]) == Ok(store[items[i].ref]["entity"]);
    es := EntitiesIn(store, items).value;
  }

  /** A document whose tracked annotations were all constructed: its
      entities are computed without error and are entity objects, one for
      each distinct entity its annotations name. */
  lemma TrackedEntities(store: Store, d: Key)
    requires d in store && "annotations" in store[d] && store[d]["annotations"].SetV?
    requires var members := store[d]["annotations"].members;
             forall i | 0 <= i < |members| :: members[i] in store && AnnotationShaped(store[members[i]])
    ensures DocumentEntities(store, d).Ok?
    ensures forall x | x in DocumentEntities(store, d).value :: x.Obj? && x.ref.kind == Entity
    ensures var members := store[d]["annotations"].members;
            forall i | 0 <= i < |members| :: store[members[i]]["entity"] in DocumentEntities(store, d).value
  {
    var members := store[d]["annotations"].members;
    var items := Iterate(store[d]["annotations"]).value;
    forall i | 0 <= i < |items|
      ensures items[i] == Obj(members[i]) && AnnotationShaped(store[items[i].ref])
    {
    }
    var es := EntitiesOfObjs(store, items);
    assert DocumentEntities(store, d) == Ok(Dedupe(es));
    forall x | x in Dedupe(es)
      ensures x.Obj? && x.ref.kind == Entity
    {
      var i :| 0 <= i < |es| && es[i] == x;
    }
    forall i | 0 <= i < |members|
      ensures store[members[i]]["entity"] in Dedupe(es)
    {
      assert es[i] == store[members[i]]["entity"];
    }
  }
}
