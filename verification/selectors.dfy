/** Selector dispatch and target values (`SelectorFactory`, `XPathSelector`,
    `Target.__init__`, `Target.copy` and the selector part of
    `TargetFactory.from_dict`). */
module Selectors {
  import opened Values

  /** `d[key]` on a dictionary. */
  function Get(m: map<string, Value>, key: string): (r: Result<Value>)
    ensures r.Ok? <==> key in m
    ensures r.Ok? ==> r.value == m[key]
    ensures r.Err? ==> r.error == KeyError(key)
  {
    if key in m then Ok(m[key]) else Err(KeyError(key))
  }

  /** What the selector factory hands back: a selector, or the empty dictionary. */
  predicate Dispatched(v: Value) {
    v.Sel? || v == DictV(map[])
  }

  predicate IsBoxDict(m: map<string, Value>) {
    "x" in m && "y" in m && "height" in m && "width" in m
  }

  predicate IsXPathDict(m: map<string, Value>) {
    "x" !in m && "startOffset" in m && "startContainer" in m && "endContainer" in m && "endOffset" in m
  }

  /** The values the factory as written hands back unchanged: `{}` and an
      `XPathSelector`. */
  predicate PassesThrough(v: Value) {
    v == DictV(map[]) || (v.Sel? && v.sel.XPath?)
  }

  /** `SelectorFactory.factory` as the code has it: dictionaries are
      dispatched on the presence of `'x'` and then `'startOffset'`; an
      `XPathSelector` passes through; everything else raises, a
      `BoundingBox` instance included. The targets of this model use this
      factory. */
  function SelectorFactoryAsWritten(d: Value): (r: Result<Value>)
    ensures r.Ok? ==> Dispatched(r.value)
    ensures PassesThrough(d) ==> r == Ok(d)
    ensures d.Sel? && d.sel.BoundingBox? ==> r == Err(NoFactory("BoundingBox"))
    ensures !(d.Sel? && d.sel.BoundingBox?) ==> r == SelectorFactory(d)
  {
    match d
    case DictV(m) =>
      if m == map[] then Ok(d)
      else if "x" in m then
        var y :- Get(m, "y");
        var height :- Get(m, "height");
        var width :- Get(m, "width");
        Ok(Sel(BoundingBox(Vertex(m["x"], y), height, width)))
      else if "startOffset" in m then
        var startContainer :- Get(m, "startContainer");
        var endContainer :- Get(m, "endContainer");
        var endOffset :- Get(m, "endOffset");
        Ok(Sel(XPath(startContainer, endContainer, m["startOffset"], endOffset)))
      else Err(NoFactory("dict"))
    case Sel(XPath(_, _, _, _)) => Ok(d)
    case _ => Err(NoFactory(TypeName(d)))
  }

  /** The selector factory with the pass-through the code evidently intends
      for every selector instance: a `BoundingBox` is returned unchanged as
      an `XPathSelector` is. It differs from the factory as written only on
      a `BoundingBox` instance. */
  function SelectorFactory(d: Value): (r: Result<Value>)
    ensures r.Ok? ==> Dispatched(r.value)
    ensures Dispatched(d) ==> r == Ok(d)
    ensures d.DictV? && d.entries != map[] && IsBoxDict(d.entries) ==>
              var m := d.entries;
              r == Ok(Sel(BoundingBox(Vertex(m["x"], m["y"]), m["height"], m["width"])))
    ensures d.DictV? && IsXPathDict(d.entries) ==>
              var m := d.entries;
              r == Ok(Sel(XPath(m["startContainer"], m["endContainer"], m["startOffset"], m["endOffset"])))
    ensures r.Ok? <==> Dispatched(d) || (d.DictV? && (IsBoxDict(d.entries) || IsXPathDict(d.entries)))
    ensures d.DictV? && d.entries != map[] && "x" !in d.entries && "startOffset" !in d.entries ==>
              r == Err(NoFactory("dict"))
    ensures !d.DictV? && !d.Sel? ==> r == Err(NoFactory(TypeName(d)))
  {
    match d
    case DictV(m) =>
      if m == map[] then Ok(d)
      else if "x" in m then
        var y :- Get(m, "y");
        var height :- Get(m, "height");
        var width :- Get(m, "width");
        Ok(Sel(BoundingBox(Vertex(m["x"], y), height, width)))
      else if "startOffset" in m then
        var startContainer :- Get(m, "startContainer");
        var endContainer :- Get(m, "endContainer");
        var endOffset :- Get(m, "endOffset");
        Ok(Sel(XPath(startContainer, endContainer, m["startOffset"], endOffset)))
      else Err(NoFactory("dict"))
    case Sel(_) => Ok(d)
    case _ => Err(NoFactory(TypeName(d)))
  }

  /** Dispatching a value the factory already produced gives it back: the
      property `Target.__init__` relies on when it re-dispatches every
      selector it is handed. */
  lemma SelectorFactoryIdempotent(d: Value)
    requires SelectorFactory(d).Ok?
    ensures SelectorFactory(SelectorFactory(d).value) == SelectorFactory(d)
  {
  }

  /** The code as written does not have that property: a bounding-box
      dictionary is dispatched to a `BoundingBox`, and dispatching that
      `BoundingBox` again raises, where the intended factory hands it back. */
  lemma BoundingBoxRedispatchFails()
    ensures var d := DictV(map["x" := Int(0), "y" := Int(0), "height" := Int(10), "width" := Int(20)]);
            var first := SelectorFactoryAsWritten(d);
            && first == Ok(Sel(BoundingBox(Vertex(Int(0), Int(0)), Int(10), Int(20))))
            && SelectorFactoryAsWritten(first.value) == Err(NoFactory("BoundingBox"))
            && SelectorFactory(first.value) == first
  {
    var d := DictV(map["x" := Int(0), "y" := Int(0), "height" := Int(10), "width" := Int(20)]);
    assert d.entries != map[] by { assert "x" in d.entries; }
  }

  /** `XPathSelector(start_container=..., ...)`. */
  function NewXPathSelector(startContainer: Value, endContainer: Value,
                            startOffset: Value, endOffset: Value): (r: Value)
    ensures GetAttr(map[], r, "start_container") == Ok(startContainer)
    ensures GetAttr(map[], r, "end_container") == Ok(endContainer)
    ensures GetAttr(map[], r, "start_offset") == Ok(startOffset)
    ensures GetAttr(map[], r, "end_offset") == Ok(endOffset)
  {
    Sel(XPath(startContainer, endContainer, startOffset, endOffset))
  }

  /** `[SelectorFactory.factory(s) for s in items]`: the first failure aborts. */
  function DispatchAll(items: seq<Value>): (r: Result<seq<Value>>)
    ensures r.Ok? <==> forall i :: 0 <= i < |items| ==> SelectorFactoryAsWritten(items[i]).Ok?
    ensures r.Ok? ==> (|r.value| == |items| &&
              forall i :: 0 <= i < |items| ==> r.value[i] == SelectorFactoryAsWritten(items[i]).value)
    ensures r.Err? ==> exists i :: (0 <= i < |items| && SelectorFactoryAsWritten(items[i]).Err? &&
              r.error == SelectorFactoryAsWritten(items[i]).error &&
              forall j :: 0 <= j < i ==> SelectorFactoryAsWritten(items[j]).Ok?)
  {
    if items == [] then Ok([])
    else
      var head :- SelectorFactoryAsWritten(items[0]);
      var tail :- DispatchAll(items[1..]);
      Ok([head] + tail)
  }

  /** A target whose selectors are all factory outputs, as `Target.__init__`
      leaves it. */
  predicate WellFormed(t: Target) {
    forall i :: 0 <= i < |t.selectors| ==> Dispatched(t.selectors[i])
  }

  /** A target every selector of which the factory hands back unchanged: a
      target that can be copied, and the only kind `from_dict` builds. */
  predicate Settled(t: Target) {
    forall i :: 0 <= i < |t.selectors| ==> PassesThrough(t.selectors[i])
  }

  /** A value that comes through the factory twice, as each selector of a
      target read from a dictionary does: it dispatches to `{}` or an
      `XPathSelector`. */
  predicate SurvivesRedispatch(v: Value) {
    SelectorFactoryAsWritten(v).Ok? && PassesThrough(SelectorFactoryAsWritten(v).value)
  }

  /** `Target(source=..., selector=...)`: the source is stored as given and
      every selector is dispatched again, so a `BoundingBox` instance raises. */
  function NewTarget(source: Value, selectors: seq<Value>): (r: Result<Target>)
    ensures r.Ok? <==> forall i :: 0 <= i < |selectors| ==> SelectorFactoryAsWritten(selectors[i]).Ok?
    ensures r.Ok? ==> && r.value.source == source && |r.value.selectors| == |selectors| && WellFormed(r.value)
                      && forall i :: 0 <= i < |selectors| ==>
                           r.value.selectors[i] == SelectorFactoryAsWritten(selectors[i]).value
    ensures (exists i :: 0 <= i < |selectors| && selectors[i].Sel? && selectors[i].sel.BoundingBox?) ==> r.Err?
    ensures Settled(Target(source, selectors)) ==> r == Ok(Target(source, selectors))
  {
    var sels :- DispatchAll(selectors);
    assert Settled(Target(source, selectors)) ==> sels == selectors;
    Ok(Target(source, sels))
  }

  /** `Target.copy`: the same source object, and a fresh copy of each selector
      dispatched again by the constructor, so a target holding a
      `BoundingBox` cannot be copied. Selectors are values here, so a copy
      is its own value and changing it cannot reach the original. */
  function CopyTarget(t: Target): (r: Result<Target>)
    ensures r.Ok? <==> forall i :: 0 <= i < |t.selectors| ==> SelectorFactoryAsWritten(t.selectors[i]).Ok?
    ensures WellFormed(t) ==> (r.Ok? <==> Settled(t))
    ensures WellFormed(t) && r.Ok? ==> r.value == t
    ensures r.Ok? ==> r.value.source == t.source && |r.value.selectors| == |t.selectors|
  {
    NewTarget(t.source, t.selectors)
  }

  /** The selector list `TargetFactory.from_dict` builds from `d['selector']`
      once the source is resolved: dispatched by the comprehension, then
      again by `Target.__init__`. A dictionary there yields its keys, which
      are strings: none when it is empty, and otherwise a first key the
      factory rejects, whichever key that is. */
  function TargetFromDict(source: Value, d: map<string, Value>): (r: Result<Target>)
    requires d != map[]
    ensures r.Ok? ==> r.value.source == source && Settled(r.value)
    ensures "selector" !in d ==> r == Err(KeyError("selector"))
    ensures "selector" in d && d["selector"].ListV? ==>
              var items := d["selector"].items;
              && (r.Ok? <==> forall i :: 0 <= i < |items| ==> SurvivesRedispatch(items[i]))
              && (r.Ok? ==> (|r.value.selectors| == |items| &&
                   forall i :: 0 <= i < |items| ==> r.value.selectors[i] == SelectorFactoryAsWritten(items[i]).value))
    ensures "selector" in d && d["selector"].ListV? ==>
              var items := d["selector"].items;
              (exists i :: 0 <= i < |items| && items[i].DictV? && IsBoxDict(items[i].entries)) ==> r.Err?
    ensures "selector" in d && d["selector"].DictV? ==>
              r == if d["selector"].entries == map[] then Ok(Target(source, [])) else Err(NoFactory("str"))
    ensures "selector" in d && d["selector"].Str? ==>
              r == if d["selector"].s == "" then Ok(Target(source, [])) else Err(NoFactory("str"))
  {
    var raw :- Get(d, "selector");
    if raw.DictV? then
      if raw.entries == map[] then NewTarget(source, []) else Err(NoFactory("str"))
    else
      var items :- Iterate(raw);
      var first :- DispatchAll(items);
      NewTarget(source, first)
  }
}
