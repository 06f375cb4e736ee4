/** The serializers that turn selectors, targets, annotations and documents
    into plain dictionaries, one `_serialize` per class, and the `Serializer`
    front end that serializes either one instance or each element of a
    sized collection. */
module Serializers {
  import opened Values
  import opened Timestamps
  import opened Selectors
  import opened References
  import opened Reconstruction

  /** The serializer classes. */
  datatype SerializerKind = BoundingBoxS | XPathS | TargetS | AnnotationS | DocumentS

  /** How deep a serializer nests other serializers, for termination. */
  function Rank(kind: SerializerKind): nat {
    match kind
    case AnnotationS => 2
    case TargetS => 1
    case _ => 0
  }

  /** The attribute each `_serialize` reads first. */
  function FirstAttr(kind: SerializerKind): string {
    match kind
    case BoundingBoxS => "vertex"
    case XPathS => "start_container"
    case TargetS => "source"
    case AnnotationS => "annotator"
    case DocumentS => "id"
  }

  // ---- The leaf serializers ----

  /** `BoundingBoxSerializer._serialize`. */
  function BoxFields(store: Store, v: Value): (r: Result<Value>)
    ensures v.Sel? && v.sel.BoundingBox? ==>
              r == Ok(DictV(map["vertex" := VertexV(v.sel.vertex), "height" := v.sel.height,
                                 "width" := v.sel.width]))
    ensures r.Err? ==> r.error.AttributeError?
  {
    var vertex :- GetAttr(store, v, "vertex");
    var height :- GetAttr(store, v, "height");
    var width :- GetAttr(store, v, "width");
    Ok(DictV(map["vertex" := vertex, "height" := height, "width" := width]))
  }

  /** `XPathSelectorSerializer._serialize`: the snake-case attributes under
      camel-case keys. */
  function XPathFields(store: Store, v: Value): (r: Result<Value>)
    ensures v.Sel? && v.sel.XPath? ==>
              r == Ok(DictV(map["startContainer" := v.sel.startContainer,
                                 "endContainer" := v.sel.endContainer,
                                 "startOffset" := v.sel.startOffset,
                                 "endOffset" := v.sel.endOffset]))
    ensures r.Err? ==> r.error.AttributeError?
  {
    var startContainer :- GetAttr(store, v, "start_container");
    var endContainer :- GetAttr(store, v, "end_container");
    var startOffset :- GetAttr(store, v, "start_offset");
    var endOffset :- GetAttr(store, v, "end_offset");
    Ok(DictV(map["startContainer" := startContainer, "endContainer" := endContainer,
                 "startOffset" := startOffset, "endOffset" := endOffset]))
  }

  /** `DocumentSerializer._serialize`. */
  function DocumentFields(store: Store, v: Value): (r: Result<Value>)
    ensures v.Obj? ==> (r.Ok? <==> v.ref in store && "uri" in store[v.ref] && "content" in store[v.ref])
    ensures v.Obj? && r.Ok? ==>
              r.value == DictV(map["id" := Str(v.ref.id), "uri" := store[v.ref]["uri"],
                                   "content" := store[v.ref]["content"]])
    ensures r.Err? ==> r.error.AttributeError?
  {
    var id :- GetAttr(store, v, "id");
    var uri :- GetAttr(store, v, "uri");
    var content :- GetAttr(store, v, "content");
    Ok(DictV(map["id" := id, "uri" := uri, "content" := content]))
  }

  /** `SelectorSerializerFactory.create`: the serializer for the exact
      class of the selector. */
  function SelectorSerializerFor(v: Value): (r: Result<SerializerKind>)
    ensures r.Ok? <==> v.Sel?
    ensures r.Ok? ==> (r.value == XPathS <==> v.sel.XPath?) && (r.value == BoundingBoxS <==> v.sel.BoundingBox?)
    ensures r.Err? ==> r.error == NoSerializer(TypeName(v))
  {
    match v
    case Sel(XPath(_, _, _, _)) => Ok(XPathS)
    case Sel(BoundingBox(_, _, _)) => Ok(BoundingBoxS)
    case _ => Err(NoSerializer(TypeName(v)))
  }

  /** `obj.strftime('%Y/%m/%d %H:%M:%S.%f')`. */
  function Strftime(v: Value): (r: Result<Value>)
    ensures r.Ok? <==> v.Time?
    ensures r.Ok? ==> r.value.Str? && ParseCreated(r.value.s) == Some(v.dt)
    ensures r.Err? ==> r.error == AttributeError("strftime")
  {
    if v.Time? then
      CreatedRoundTrip(v.dt);
      Ok(Str(FormatCreated(v.dt)))
    else Err(AttributeError("strftime"))
  }

  // ---- Serializer.serialize and the nesting serializers ----

  /** `Serializer(instance).serialize()`: a sized instance is iterated and
      each element serialized into a list; any other instance is serialized
      on its own. A dictionary iterates over its keys, which are strings, so
      a non-empty one fails on its first key whatever the key order (see
      `SerializeOneStr`); the model raises that error directly. */
  function Serialize(kind: SerializerKind, store: Store, v: Value): (r: Result<Value>)
    ensures !HasLen(v) ==> r == SerializeOne(kind, store, v)
    ensures HasLen(v) && r.Ok? ==> r.value.ListV?
    decreases Rank(kind), 3
  {
    if !HasLen(v) then SerializeOne(kind, store, v)
    else if v.DictV? then
      (if v.entries == map[] then Ok(ListV([])) else Err(AttributeError(FirstAttr(kind))))
    else
      var items :- Iterate(v);
      SerializeAll(kind, store, items)
  }

  /** `[self._serialize(i) for i in items]`: the first failure is raised. */
  function SerializeAll(kind: SerializerKind, store: Store, items: seq<Value>): (r: Result<Value>)
    ensures r.Ok? <==> forall i | 0 <= i < |items| :: SerializeOne(kind, store, items[i]).Ok?
    ensures r.Ok? ==> r.value.ListV? && |r.value.items| == |items| &&
                      forall i | 0 <= i < |items| :: r.value.items[i] == SerializeOne(kind, store, items[i]).value
    ensures r.Err? ==> exists i | 0 <= i < |items| ::
                         && SerializeOne(kind, store, items[i]) == Err(r.error)
                         && forall j | 0 <= j < i :: SerializeOne(kind, store, items[j]).Ok?
    decreases Rank(kind), 2, |items|
  {
    if items == [] then Ok(ListV([]))
    else
      var first :- SerializeOne(kind, store, items[0]);
      var rest :- SerializeAll(kind, store, items[1..]);
      assert forall i | 1 <= i < |items| :: items[i] == items[1..][i - 1];
      Ok(ListV([first] + rest.items))
  }

  /** `_serialize(instance)` of the serializer `kind`. */
  function SerializeOne(kind: SerializerKind, store: Store, v: Value): (r: Result<Value>)
    ensures r.Ok? ==> r.value.DictV?
    decreases Rank(kind), 1
  {
    match kind
    case BoundingBoxS => BoxFields(store, v)
    case XPathS => XPathFields(store, v)
    case DocumentS => DocumentFields(store, v)
    case TargetS => TargetFields(store, v)
    case AnnotationS => AnnotationFields(store, v)
  }

  /** `SelectorSerializerFactory.create(selector).serialize()`. A selector
      has no length, so `serialize` is the chosen serializer's `_serialize`
      (`SerializeSelectorIsSerialize`). */
  function SerializeSelector(store: Store, v: Value): (r: Result<Value>)
    ensures SelectorSerializerFor(v).Err? ==> r == Err(SelectorSerializerFor(v).error)
    ensures r.Ok? ==> r.value.DictV?
  {
    match v
    case Sel(XPath(_, _, _, _)) => XPathFields(store, v)
    case Sel(BoundingBox(_, _, _)) => BoxFields(store, v)
    case _ => Err(NoSerializer(TypeName(v)))
  }

  /** A selector is serialized by the serializer `create` picks for it, as
      `Serializer.serialize` does it. */
  lemma SerializeSelectorIsSerialize(store: Store, v: Value)
    requires SelectorSerializerFor(v).Ok?
    ensures SerializeSelector(store, v) == Serialize(SelectorSerializerFor(v).value, store, v)
  {
  }

  /** The selector list `TargetSerializer._serialize` appends to: one
      serialization per selector, in order; the first failure is raised. */
  function SerializeSelectors(store: Store, items: seq<Value>): (r: Result<seq<Value>>)
    ensures r.Ok? ==> |r.value| == |items|
    decreases |items|
  {
    if items == [] then Ok([])
    else
      var init :- SerializeSelectors(store, items[..|items| - 1]);
      var last :- SerializeSelector(store, items[|items| - 1]);
      Ok(init + [last])
  }

  /** `TargetSerializer._serialize`: the id of the source and the
      serialized selectors. */
  function TargetFields(store: Store, v: Value): (r: Result<Value>)
    ensures r.Ok? ==> r.value.DictV? && r.value.entries.Keys == {"source", "selector"}
  {
    var source :- GetAttr(store, v, "source");
    var id :- GetAttr(store, source, "id");
    var selector :- GetAttr(store, v, "selector");
    if selector.DictV? then
      // The loop visits the keys, and no serializer is made for a string.
      if selector.entries == map[] then Ok(DictV(map["source" := id, "selector" := ListV([])]))
      else Err(NoSerializer("str"))
    else
      var items :- Iterate(selector);
      var serialized :- SerializeSelectors(store, items);
      Ok(DictV(map["source" := id, "selector" := ListV(serialized)]))
  }

  /** `annotator.id`, or `None` when there is no annotator. */
  function AnnotatorIdOf(store: Store, annotator: Value): (r: Result<Value>)
    ensures r.Ok? ==> (r.value == NoneV <==> annotator == NoneV)
    ensures annotator.Obj? ==> r == Ok(Str(annotator.ref.id))
  {
    if annotator != NoneV then GetAttr(store, annotator, "id") else Ok(NoneV)
  }

  /** `TargetSerializer(target).serialize()`, or `None` when there is no
      target. */
  function TargetDictOf(store: Store, target: Value): (r: Result<Value>)
    ensures r.Ok? ==> (r.value == NoneV <==> target == NoneV)
    ensures target != NoneV ==> r == Serialize(TargetS, store, target)
    decreases 1, 4
  {
    if target != NoneV then Serialize(TargetS, store, target) else Ok(NoneV)
  }

  /** `AnnotationSerializer._serialize`: the annotator and target are read
      first (each may be `None`), then the dictionary is built key by key. */
  function AnnotationFields(store: Store, v: Value): (r: Result<Value>)
    ensures GetAttr(store, v, "annotator").Err? ==> r == Err(GetAttr(store, v, "annotator").error)
    ensures r.Ok? ==> && r.value.DictV?
                      && GetAttr(store, v, "created").Ok? && GetAttr(store, v, "created").value.Time?
    decreases 2, 0
  {
    var annotator :- GetAttr(store, v, "annotator");
    var annotatorId :- AnnotatorIdOf(store, annotator);
    var target :- GetAttr(store, v, "target");
    var targetS :- TargetDictOf(store, target);
    var task :- GetAttr(store, v, "task");
    var taskId :- GetAttr(store, task, "id");
    var entity :- GetAttr(store, v, "entity");
    var entityId :- GetAttr(store, entity, "id");
    var body :- GetAttr(store, v, "body");
    var document :- GetAttr(store, v, "document");
    var documentId :- GetAttr(store, document, "id");
    var created :- GetAttr(store, v, "created");
    var createdS :- Strftime(created);
    Ok(DictV(SevenKeys(taskId, entityId, if Truthy(body) then body else Str(""),
                       annotatorId, documentId, createdS, targetS)))
  }

  /** Whatever the annotation holds, a serialization that succeeds has
      exactly the seven keys; `annotator_id` and `target` are `None` exactly
      when the annotator and the target are; a falsy body becomes `''`;
      `created` is the rendered timestamp. */
  lemma AnnotationFieldsShape(store: Store, v: Value)
    requires AnnotationFields(store, v).Ok?
    ensures var d := AnnotationFields(store, v).value.entries;
            && d.Keys == {"task_id", "entity_id", "body", "annotator_id", "document_id", "created", "target"}
            && GetAttr(store, v, "annotator").Ok? && GetAttr(store, v, "target").Ok?
            && GetAttr(store, v, "body").Ok? && GetAttr(store, v, "created").Ok?
            && (d["annotator_id"] == NoneV <==> GetAttr(store, v, "annotator").value == NoneV)
            && (d["target"] == NoneV <==> GetAttr(store, v, "target").value == NoneV)
            && (!Truthy(GetAttr(store, v, "body").value) ==> d["body"] == Str(""))
            && (Truthy(GetAttr(store, v, "body").value) ==> d["body"] == GetAttr(store, v, "body").value)
            && GetAttr(store, v, "created").value.Time?
            && d["created"] == Str(FormatCreated(GetAttr(store, v, "created").value.dt))
  {
    var annotatorId := AnnotatorIdOf(store, GetAttr(store, v, "annotator").value).value;
    var targetS := TargetDictOf(store, GetAttr(store, v, "target").value).value;
    var taskId := GetAttr(store, GetAttr(store, v, "task").value, "id").value;
    var entityId := GetAttr(store, GetAttr(store, v, "entity").value, "id").value;
    var body := GetAttr(store, v, "body").value;
    var documentId := GetAttr(store, GetAttr(store, v, "document").value, "id").value;
    var createdS := Strftime(GetAttr(store, v, "created").value).value;
    var shown := if Truthy(body) then body else Str("");
    assert AnnotationFields(store, v) ==
           Ok(DictV(SevenKeys(taskId, entityId, shown, annotatorId, documentId, createdS, targetS)));
    SevenKeysShape(taskId, entityId, shown, annotatorId, documentId, createdS, targetS);
  }

  function SevenKeys(taskId: Value, entityId: Value, body: Value, annotatorId: Value,
                     documentId: Value, created: Value, target: Value): map<string, Value> {
    map["task_id" := taskId, "entity_id" := entityId, "body" := body, "annotator_id" := annotatorId,
        "document_id" := documentId, "created" := created, "target" := target]
  }

  lemma SevenKeysShape(taskId: Value, entityId: Value, body: Value, annotatorId: Value,
                       documentId: Value, created: Value, target: Value)
    ensures var d := SevenKeys(taskId, entityId, body, annotatorId, documentId, created, target);
            && d.Keys == {"task_id", "entity_id", "body", "annotator_id", "document_id", "created", "target"}
            && d["annotator_id"] == annotatorId && d["target"] == target && d["body"] == body
            && d["created"] == created
  {
  }

  /** When every selector serializes, the selector list is built. */
  lemma {:induction false} SerializeSelectorsAllOk(store: Store, items: seq<Value>)
    requires forall i | 0 <= i < |items| :: SerializeSelector(store, items[i]).Ok?
    ensures SerializeSelectors(store, items).Ok?
    decreases |items|
  {
    if items != [] {
      var n := |items| - 1;
      var init := items[..n];
      forall i | 0 <= i < n
        ensures SerializeSelector(store, init[i]).Ok?
      {
        assert init[i] == items[i];
      }
      SerializeSelectorsAllOk(store, init);
    }
  }

  /** Entry `i` of a built selector list is the serialization of selector `i`. */
  lemma {:induction false} SerializeSelectorAt(store: Store, items: seq<Value>, i: nat)
    requires i < |items| && SerializeSelectors(store, items).Ok?
    ensures SerializeSelector(store, items[i]).Ok?
    ensures SerializeSelectors(store, items).value[i] == SerializeSelector(store, items[i]).value
    decreases |items|
  {
    var n := |items| - 1;
    var init := items[..n];
    assert SerializeSelectors(store, items).value
        == SerializeSelectors(store, init).value + [SerializeSelector(store, items[n]).value];
    if i < n {
      SerializeSelectorAt(store, init, i);
      assert init[i] == items[i];
    }
  }

  /** A built selector list holds one serialization per selector, in order. */
  lemma SerializeSelectorsValues(store: Store, items: seq<Value>)
    requires SerializeSelectors(store, items).Ok?
    ensures forall i | 0 <= i < |items| ::
              && SerializeSelector(store, items[i]).Ok?
              && SerializeSelectors(store, items).value[i] == SerializeSelector(store, items[i]).value
  {
    forall i | 0 <= i < |items|
      ensures && SerializeSelector(store, items[i]).Ok?
              && SerializeSelectors(store, items).value[i] == SerializeSelector(store, items[i]).value
    {
      SerializeSelectorAt(store, items, i);
    }
  }

  /** The selector list is built exactly when every selector serializes. */
  lemma SerializeSelectorsOk(store: Store, items: seq<Value>)
    ensures SerializeSelectors(store, items).Ok? <==>
            forall i | 0 <= i < |items| :: SerializeSelector(store, items[i]).Ok?
  {
    if forall i | 0 <= i < |items| :: SerializeSelector(store, items[i]).Ok? {
      SerializeSelectorsAllOk(store, items);
    }
    if SerializeSelectors(store, items).Ok? {
      SerializeSelectorsValues(store, items);
    }
  }

  /** A target serializes to its source's id and one entry per selector,
      in order. */
  lemma TargetSerializedEach(store: Store, t: Target)
    requires TargetFields(store, TargetV(t)).Ok?
    ensures var d := TargetFields(store, TargetV(t)).value.entries;
            var out := d["selector"];
            && GetAttr(store, t.source, "id") == Ok(d["source"])
            && out.ListV? && |out.items| == |t.selectors|
            && forall i | 0 <= i < |t.selectors| ::
                 SerializeSelector(store, t.selectors[i]).Ok? &&
                 out.items[i] == SerializeSelector(store, t.selectors[i]).value
  {
    SerializeSelectorsOk(store, t.selectors);
    SerializeSelectorsValues(store, t.selectors);
  }

  /** `TargetSerializer._serialize` as the code runs it: the dictionary is
      created with an empty selector list, then each selector's
      serialization is appended in turn. */
  method SerializeTarget(store: Store, target: Value) returns (r: Result<Value>)
    ensures r == TargetFields(store, target)
  {
    var source :- GetAttr(store, target, "source");
    var id :- GetAttr(store, source, "id");
    var selector :- GetAttr(store, target, "selector");
    if selector.DictV? {
      if selector.entries == map[] {
        return Ok(DictV(map["source" := id, "selector" := ListV([])]));
      }
      return Err(NoSerializer("str"));
    }
    var items :- Iterate(selector);
    var out: seq<Value> := [];
    var i := 0;
    while i < |items|
      invariant 0 <= i <= |items|
      invariant SerializeSelectors(store, items[..i]) == Ok(out)
    {
      SelectorsStep(store, items, i, out);
      var serializer := SelectorSerializerFor(items[i]);
      if serializer.Err? {
        return Err(serializer.error);
      }
      var s := Serialize(serializer.value, store, items[i]);
      SerializeSelectorIsSerialize(store, items[i]);
      if s.Err? {
        return Err(s.error);
      }
      out := out + [s.value];
      i := i + 1;
    }
    assert items[..i] == items;
    r := Ok(DictV(map["source" := id, "selector" := ListV(out)]));
  }

  /** One turn of the loop in `SerializeTarget`: the next selector's
      serialization is appended, or its failure is the whole list's. */
  lemma SelectorsStep(store: Store, items: seq<Value>, i: nat, out: seq<Value>)
    requires i < |items| && SerializeSelectors(store, items[..i]) == Ok(out)
    ensures SerializeSelector(store, items[i]).Ok? ==>
              SerializeSelectors(store, items[..i + 1]) == Ok(out + [SerializeSelector(store, items[i]).value])
    ensures SerializeSelector(store, items[i]).Err? ==>
              SerializeSelectors(store, items) == Err(SerializeSelector(store, items[i]).error)
  {
    assert items[..i + 1][..i] == items[..i];
    if SerializeSelector(store, items[i]).Err? {
      SelectorsFailFrom(store, items, i + 1, SerializeSelector(store, items[i]).error);
    }
  }

  /** Once a prefix of the selectors fails, the whole list fails with the
      same error. */
  lemma {:induction false} SelectorsFailFrom(store: Store, items: seq<Value>, n: nat, e: Error)
    requires n <= |items| && SerializeSelectors(store, items[..n]) == Err(e)
    ensures SerializeSelectors(store, items) == Err(e)
    decreases |items| - n
  {
    if n < |items| {
      assert items[..n + 1][..n] == items[..n];
      SelectorsFailFrom(store, items, n + 1, e);
    } else {
      assert items[..n] == items;
    }
  }

  // ---- What the serialized forms say ----

  /** Serializing a list or a set gives a list holding one serialization per
      element, in iteration order, and fails exactly when one element does. */
  lemma SerializeMany(kind: SerializerKind, store: Store, v: Value)
    requires v.ListV? || v.SetV?
    ensures Iterate(v).Ok?
    ensures var items := Iterate(v).value;
            var r := Serialize(kind, store, v);
            && (r.Ok? <==> forall i | 0 <= i < |items| :: SerializeOne(kind, store, items[i]).Ok?)
            && (r.Ok? ==> && r.value.ListV? && |r.value.items| == |items|
                          && forall i | 0 <= i < |items| :: r.value.items[i] == SerializeOne(kind, store, items[i]).value)
  {
  }

  /** Every `_serialize` handed a string fails on the first attribute it
      reads, so serializing a non-empty dictionary fails the same way
      whichever key Python yields first. */
  lemma SerializeOneStr(kind: SerializerKind, store: Store, s: string)
    ensures SerializeOne(kind, store, Str(s)) == Err(AttributeError(FirstAttr(kind)))
  {
  }

  /** A serialized XPath selector is read back by the selector factory as
      the same selector. */
  lemma XPathRoundTrip(store: Store, x: Selector)
    requires x.XPath?
    ensures Serialize(XPathS, store, Sel(x)).Ok?
    ensures var d := Serialize(XPathS, store, Sel(x)).value;
            SelectorFactoryAsWritten(d) == Ok(Sel(x))
  {
    var d := Serialize(XPathS, store, Sel(x)).value;
    assert IsXPathDict(d.entries);
  }

  /** A serialized bounding box is not read back: it has `vertex` where the
      selector factory looks for `x` and `y`, and no `startOffset`, so the
      factory raises. */
  lemma BoundingBoxNotReadBack(store: Store, b: Selector)
    requires b.BoundingBox?
    ensures Serialize(BoundingBoxS, store, Sel(b)).Ok?
    ensures var d := Serialize(BoundingBoxS, store, Sel(b)).value;
            SelectorFactoryAsWritten(d) == Err(NoFactory("dict"))
  {
    var d := Serialize(BoundingBoxS, store, Sel(b)).value;
    assert "vertex" in d.entries;
  }

  predicate AllXPath(selectors: seq<Value>) {
    forall i | 0 <= i < |selectors| :: selectors[i].Sel? && selectors[i].sel.XPath?
  }

  /** XPath selectors serialize one by one, and each serialization is read
      back as its selector. */
  lemma {:induction false} XPathSelectorsRoundTrip(store: Store, items: seq<Value>)
    requires AllXPath(items)
    ensures SerializeSelectors(store, items).Ok?
    ensures var out := SerializeSelectors(store, items).value;
            forall i | 0 <= i < |items| :: SelectorFactoryAsWritten(out[i]) == Ok(items[i])
    decreases |items|
  {
    if items != [] {
      var init := items[..|items| - 1];
      var last := items[|items| - 1];
      assert AllXPath(init) by {
        assert forall i | 0 <= i < |init| :: init[i] == items[i];
      }
      XPathSelectorsRoundTrip(store, init);
      XPathRoundTrip(store, last.sel);
      var out := SerializeSelectors(store, items).value;
      assert out == SerializeSelectors(store, init).value + [Serialize(XPathS, store, last).value];
    }
  }

  /** The dictionary a target serializes to. */
  lemma TargetSerialized(store: Store, t: Target, id: string, out: seq<Value>)
    requires t.source == Obj(Key(Document, id)) && SerializeSelectors(store, t.selectors) == Ok(out)
    ensures Serialize(TargetS, store, TargetV(t)) ==
            Ok(DictV(map["source" := Str(id), "selector" := ListV(out)]))
  {
  }

  /** `TargetFactory` reads a dictionary with a document id and selectors
      the factory maps onto `sels` as the target on that document with
      those selectors. */
  lemma TargetReadBack(id: string, out: seq<Value>, sels: seq<Value>)
    requires |out| == |sels| && AllXPath(sels)
    requires forall i | 0 <= i < |out| :: SelectorFactoryAsWritten(out[i]) == Ok(sels[i])
    ensures TargetOfDict(map["source" := Str(id), "selector" := ListV(out)]) ==
            Ok(Target(Obj(Key(Document, id)), sels))
  {
    var d := map["source" := Str(id), "selector" := ListV(out)];
    assert d != map[] by { assert "source" in d; }
    var r := TargetOfDict(d);
    assert r.Ok?;
    assert r.value.selectors == sels;
  }

  /** A target on a document whose selectors are XPath selectors serializes,
      and `TargetFactory` reads the serialization back as the same target. */
  lemma TargetRoundTrip(store: Store, t: Target, id: string)
    requires t.source == Obj(Key(Document, id)) && AllXPath(t.selectors)
    ensures Serialize(TargetS, store, TargetV(t)).Ok?
    ensures var d := Serialize(TargetS, store, TargetV(t)).value;
            d.DictV? && TargetOfDict(d.entries) == Ok(t)
  {
    XPathSelectorsRoundTrip(store, t.selectors);
    var out := SerializeSelectors(store, t.selectors).value;
    TargetSerialized(store, t, id, out);
    TargetReadBack(id, out, t.selectors);
  }

  // ---- Reading a serialized annotation back ----

  /** `d.get(key)`: the keyword argument, or the parameter's default `None`. */
  function KeywordOr(d: map<string, Value>, key: string): Value {
    if key in d then d[key] else NoneV
  }

  function Keyword(d: map<string, Value>, key: string): Option<Value> {
    if key in d then Some(d[key]) else None
  }

  /** `Annotation(**d)`: keys naming parameters bind them, `entity_id`,
      `task_id`, `annotator_id` and `document_id` land in `kwargs`, where the
      constructor prefers them to the positional references. */
  function AnnotationKeywords(d: map<string, Value>): (a: AnnotationArgs)
    ensures a.entityId.Some? <==> "entity_id" in d
    ensures a.target == KeywordOr(d, "target") && a.created == KeywordOr(d, "created")
    ensures a.body == KeywordOr(d, "body") && a.score == KeywordOr(d, "score")
  {
    AnnotationArgs(KeywordOr(d, "entity"), KeywordOr(d, "document"), KeywordOr(d, "body"),
                   KeywordOr(d, "annotator"), KeywordOr(d, "task"), KeywordOr(d, "created"),
                   KeywordOr(d, "target"), KeywordOr(d, "score"),
                   if "auto_track" in d then Truthy(d["auto_track"]) else true,
                   Keyword(d, "entity_id"), Keyword(d, "task_id"),
                   Keyword(d, "annotator_id"), Keyword(d, "document_id"))
  }

  /** An annotation the constructor built, with a timestamp and a target on a
      document whose selectors are XPath selectors. */
  predicate Serializable(store: Store, k: Key) {
    && k in store && AnnotationShaped(store[k])
    && store[k]["created"].Time?
    && store[k]["target"].target.source.Obj?
    && store[k]["target"].target.source.ref.kind == Document
    && AllXPath(store[k]["target"].target.selectors)
  }

  /** The dictionary such an annotation serializes to. */
  lemma AnnotationSerialized(store: Store, k: Key, target: Value)
    requires Serializable(store, k)
    requires Serialize(TargetS, store, store[k]["target"]) == Ok(target)
    ensures var attrs := store[k];
            var body := attrs["body"];
            AnnotationFields(store, Obj(k)) ==
              Ok(DictV(SevenKeys(Str(attrs["task"].ref.id), Str(attrs["entity"].ref.id),
                                 if Truthy(body) then body else Str(""),
                                 Str(attrs["annotator"].ref.id), Str(attrs["document"].ref.id),
                                 Str(FormatCreated(attrs["created"].dt)), target)))
  {
  }

  /** `Annotation(**d)` on a serialized annotation: the four ids arrive as
      keyword arguments, and no positional reference or score is given. */
  lemma SerializedKeywords(taskId: Value, entityId: Value, body: Value, annotatorId: Value,
                           documentId: Value, created: Value, target: Value)
    ensures AnnotationKeywords(SevenKeys(taskId, entityId, body, annotatorId, documentId, created, target))
         == AnnotationArgs(NoneV, NoneV, body, NoneV, NoneV, created, target, NoneV, true,
                           Some(entityId), Some(taskId), Some(annotatorId), Some(documentId))
  {
    var d := SevenKeys(taskId, entityId, body, annotatorId, documentId, created, target);
    assert "entity" !in d && "document" !in d && "annotator" !in d && "task" !in d;
    assert "score" !in d && "auto_track" !in d;
  }

    /** The keyword arguments `Annotation(**d)` receives from the dictionary
      a serializable annotation serializes to. */
  lemma SerializedArgs(store: Store, k: Key) returns (target: Value)
    requires Serializable(store, k)
    ensures Serialize(TargetS, store, store[k]["target"]) == Ok(target)
    ensures AnnotationFields(store, Obj(k)).Ok?
    ensures var attrs := store[k];
            var body := attrs["body"];
            AnnotationKeywords(AnnotationFields(store, Obj(k)).value.entries)
              == AnnotationArgs(NoneV, NoneV, if Truthy(body) then body else Str(""), NoneV, NoneV,
                                Str(FormatCreated(attrs["created"].dt)), target, NoneV, true,
                                Some(Str(attrs["entity"].ref.id)), Some(Str(attrs["task"].ref.id)),
                                Some(Str(attrs["annotator"].ref.id)), Some(Str(attrs["document"].ref.id)))
  {
    var t := store[k]["target"].target;
    TargetRoundTrip(store, t, t.source.ref.id);
    target := Serialize(TargetS, store, TargetV(t)).value;
    AnnotationSerialized(store, k, target);
    var attrs := store[k];
    var body := attrs["body"];
    SerializedKeywords(Str(attrs["task"].ref.id), Str(attrs["entity"].ref.id),
                       if Truthy(body) then body else Str(""),
                       Str(attrs["annotator"].ref.id), Str(attrs["document"].ref.id),
                       Str(FormatCreated(attrs["created"].dt)), target);
  }

  /** Reading the dictionary back resolves the four ids to the objects the
      annotation referred to. */
  lemma AnnotationRefsRoundTrip(store: Store, k: Key)
    requires Serializable(store, k)
    ensures AnnotationFields(store, Obj(k)).Ok?
    ensures var attrs := store[k];
            var a := AnnotationKeywords(AnnotationFields(store, Obj(k)).value.entries);
            && Resolvable(Entity, EntityArg(a)) && RefKey(Entity, EntityArg(a)) == attrs["entity"].ref
            && Resolvable(Task, TaskArg(a)) && RefKey(Task, TaskArg(a)) == attrs["task"].ref
            && Resolvable(Annotator, AnnotatorArg(a)) && RefKey(Annotator, AnnotatorArg(a)) == attrs["annotator"].ref
            && Resolvable(Document, DocumentArg(a)) && DocKey(a) == attrs["document"].ref
  {
    var _ := SerializedArgs(store, k);
  }

  /** Reading the dictionary back rebuilds the same target and keeps a
      truthy body; the timestamp arrives as the serializer's text, which the
      parser of that same pattern reads back as the original instant. */
  lemma AnnotationContentRoundTrip(store: Store, k: Key, env: Env)
    requires Serializable(store, k)
    ensures AnnotationFields(store, Obj(k)).Ok?
    ensures var attrs := store[k];
            var a := AnnotationKeywords(AnnotationFields(store, Obj(k)).value.entries);
            && TargetOf(a.target, env) == Ok(attrs["target"].target)
            && (Truthy(attrs["body"]) ==> a.body == attrs["body"])
            && a.created == Str(FormatCreated(attrs["created"].dt))
            && ParseCreated(a.created.s) == Some(attrs["created"].dt)
  {
    var t := store[k]["target"].target;
    TargetRoundTrip(store, t, t.source.ref.id);
    var _ := SerializedArgs(store, k);
    CreatedRoundTrip(store[k]["created"].dt);
  }

  /** Constructing an annotation from its own serialization resolves every
      reference to the original's objects (the `_id` keys name them by id),
      rebuilds the same target and keeps a non-empty body. The timestamp is
      handed over as `%Y/%m/%d %H:%M:%S.%f` text, so the construction
      completes exactly when the document keeps a set of annotations and
      `fromisoformat` accepts that text. */
  lemma AnnotationRoundTrip(store: Store, k: Key, env: Env, docAttrs: map<string, Value>)
    requires Serializable(store, k)
    ensures AnnotationFields(store, Obj(k)).Ok?
    ensures var attrs := store[k];
            var a := AnnotationKeywords(AnnotationFields(store, Obj(k)).value.entries);
            && Resolvable(Entity, EntityArg(a)) && RefKey(Entity, EntityArg(a)) == attrs["entity"].ref
            && Resolvable(Task, TaskArg(a)) && RefKey(Task, TaskArg(a)) == attrs["task"].ref
            && Resolvable(Annotator, AnnotatorArg(a)) && RefKey(Annotator, AnnotatorArg(a)) == attrs["annotator"].ref
            && Resolvable(Document, DocumentArg(a)) && DocKey(a) == attrs["document"].ref
            && TargetOf(a.target, env) == Ok(attrs["target"].target)
            && (Truthy(attrs["body"]) ==> a.body == attrs["body"])
            && a.created == Str(FormatCreated(attrs["created"].dt))
            && (AnnotationInitError(a, env, docAttrs).None? <==>
                  TrackError(a, docAttrs).None? && env.fromIsoFormat(FormatCreated(attrs["created"].dt)).Some?)
  {
    AnnotationRefsRoundTrip(store, k);
    AnnotationContentRoundTrip(store, k, env);
  }

  /** What Python's `datetime.fromisoformat` does with a date whose year is
      followed by '/': ISO 8601 separates the date with '-', or not at all,
      so the text is refused. */
  ghost predicate RejectsSlashDates(env: Env) {
    forall s: string | |s| > 4 && s[4] == '/' :: env.fromIsoFormat(s).None?
  }

  /** The constructor as written parses a string `created` with
      `fromisoformat`, which refuses the serializer's text: an annotation is
      never rebuilt from its own serialization, and once its document keeps
      a set of annotations the error is a `ValueError`. */
  lemma CreatedNotReadBack(store: Store, k: Key, env: Env, docAttrs: map<string, Value>)
    requires Serializable(store, k) && RejectsSlashDates(env)
    ensures AnnotationFields(store, Obj(k)).Ok?
    ensures var a := AnnotationKeywords(AnnotationFields(store, Obj(k)).value.entries);
            && AnnotationInitError(a, env, docAttrs).Some?
            && (TrackError(a, docAttrs).None? ==>
                  AnnotationInitError(a, env, docAttrs) == Some(ValueError("Invalid isoformat string")))
  {
    AnnotationRoundTrip(store, k, env, docAttrs);
    var text := FormatCreated(store[k]["created"].dt);
    assert text[4] == '/';
  }
}
