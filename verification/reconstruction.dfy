/** What constructing a registered object again does to it: the effect of
    `kind.factory(id)` on an object that already exists, and the arguments
    `Annotation.copy` hands to the constructor. */
module Reconstruction {
  import opened Values
  import opened Attributes
  import opened Selectors
  import opened References

  // ---- Re-resolution by id ----

  /** Every value of the run is one `setattr` refuses to write over a
      populated field. */
  predicate AllEmpty(u: Updates) {
    match u
    case Done => true
    case Then(_, v, rest) => IsEmptyCandidate(v) && AllEmpty(rest)
  }

  /** A run of empty candidates changes no populated field. */
  lemma {:induction false} MergeAllEmptyKeeps(attrs: map<string, Value>, u: Updates, name: string)
    requires AllEmpty(u) && Populated(attrs, name)
    ensures Populated(MergeAll(attrs, u), name)
    ensures MergeAll(attrs, u)[name] == attrs[name]
    decreases u
  {
    match u
    case Done =>
    case Then(n, v, rest) =>
      MergeFrame(attrs, n, v);
      MergeAllEmptyKeeps(Merge(attrs, n, v).attrs, rest, name);
  }

  /** `Entity.factory(id)`, `Corpus.factory(id)` and `Task.factory(id)` on a
      registered object leave every populated field as it was: all their
      default arguments are `None` or `[]`. */
  lemma FactoryByIdKeepsPopulated(kind: Kind, attrs: map<string, Value>, name: string)
    requires kind == Entity || kind == Corpus || kind == Task
    requires Populated(attrs, name)
    ensures MergeAll(attrs, DefaultUpdates(kind))[name] == attrs[name]
  {
    assert AllEmpty(DefaultUpdates(kind));
    MergeAllEmptyKeeps(attrs, DefaultUpdates(kind), name);
  }

  lemma DefaultUpdatesDistinct(kind: Kind)
    ensures DistinctNames(DefaultUpdates(kind))
  {
  }

  /** A second `kind.factory(id)` right after the first changes nothing. */
  lemma FactoryByIdIdempotent(kind: Kind, attrs: map<string, Value>)
    ensures var once := MergeAll(attrs, DefaultUpdates(kind));
            MergeAll(once, DefaultUpdates(kind)) == once
  {
    DefaultUpdatesDistinct(kind);
    MergeAllIdempotent(attrs, DefaultUpdates(kind));
  }

  // ---- Re-initialising registries ----

  lemma ReInitStoreNone(s: Store)
    ensures ReInitStore(s, {}) == s
  {
  }

  /** Re-initialising `a`, then `b`, is re-initialising `a + b`: a second
      default run on an object changes nothing. */
  lemma ReInitStoreTwice(s: Store, a: set<Key>, b: set<Key>)
    ensures ReInitStore(ReInitStore(s, a), b) == ReInitStore(s, a + b)
  {
    var lhs, rhs := ReInitStore(ReInitStore(s, a), b), ReInitStore(s, a + b);
    forall k | k in rhs
      ensures k in lhs && lhs[k] == rhs[k]
    {
      if k in a && k in b {
        FactoryByIdIdempotent(k.kind, AttrsIn(s, k));
      }
    }
  }

  /** An object `t` that is set afterwards may be set beforehand too. */
  lemma ReInitStoreAfterSet(s: Store, ks: set<Key>, t: Key, before: map<string, Value>, after: map<string, Value>)
    ensures ReInitStore(s[t := before], ks)[t := after] == ReInitStore(s, ks)[t := after]
  {
  }

  /** A run that re-initialised `a` and set `t`, then a call that
      re-initialises `b`, then `t` set again. */
  lemma ReInitStoreThen(s: Store, a: set<Key>, b: set<Key>, t: Key, mid: map<string, Value>, after: map<string, Value>)
    ensures ReInitStore(ReInitStore(s, a)[t := mid], b)[t := after] == ReInitStore(s, a + b)[t := after]
  {
    ReInitStoreAfterSet(ReInitStore(s, a), b, t, mid, after);
    ReInitStoreTwice(s, a, b);
  }

  /** Re-initialising one more object `k`. */
  lemma ReInitStoreAdd(s: Store, ks: set<Key>, k: Key)
    ensures ReInitStore(s, ks)[k := MergeAll(AttrsIn(s, k), DefaultUpdates(k.kind))] == ReInitStore(s, ks + {k})
  {
  }

  /** Setting `d` before re-initialising is setting it afterwards to what
      the re-initialisation makes of it. */
  lemma ReInitStoreSet(s: Store, ks: set<Key>, d: Key, doc: map<string, Value>)
    ensures ReInitStore(s[d := doc], ks)
            == ReInitStore(s, ks)[d := if d in ks then MergeAll(doc, DefaultUpdates(d.kind)) else doc]
  {
  }

  /** A run that re-initialised `a` and set both `t` and the document `d`,
      then a call that re-initialises `b`, then `t` set again: `d` keeps what
      the run set, re-initialised once more if it is in `b`. */
  lemma ReInitStoreThenDoc(s: Store, a: set<Key>, b: set<Key>, t: Key, mid: map<string, Value>,
                           d: Key, doc: map<string, Value>, after: map<string, Value>)
    requires t != d
    ensures ReInitStore(ReInitStore(s, a)[t := mid][d := doc], b)[t := after]
            == ReInitStore(s, a + b)[t := after][d := if d in b then MergeAll(doc, DefaultUpdates(d.kind)) else doc]
  {
    var y := ReInitStore(s, a)[t := mid];
    var w := if d in b then MergeAll(doc, DefaultUpdates(d.kind)) else doc;
    ReInitStoreSet(y, b, d, doc);
    SetCommute(ReInitStore(y, b), d, w, t, after);
    ReInitStoreThen(s, a, b, t, mid, after);
  }

  /** Updates of two different objects commute. */
  lemma SetCommute(s: Store, d: Key, x: map<string, Value>, t: Key, y: map<string, Value>)
    requires d != t
    ensures s[d := x][t := y] == s[t := y][d := x]
  {
  }

  /** Re-initialising a single object. */
  lemma ReInitStoreOne(s: Store, k: Key)
    ensures ReInitStore(s, {k}) == s[k := MergeAll(AttrsIn(s, k), DefaultUpdates(k.kind))]
  {
  }

  /** A constructor run by id that re-initialised the defaults its class
      falls back on and then gave its own object `k` its default run. */
  lemma ReInitById(s0: Store, s: Store, ks: set<Key>, k: Key, u: Updates)
    requires u == DefaultUpdates(k.kind) && ks == DefaultKeys(k.kind)
    requires k in s && s == ReInitStore(s0, ks)[k := s[k]] && s[k] == MergeAll(AttrsIn(s0, k), u)
    ensures s == ReInitStore(s0, {k} + DefaultKeys(k.kind))
  {
    ReInitStoreAdd(s0, ks, k);
    assert ks + {k} == {k} + DefaultKeys(k.kind);
  }

  /** `Document(unique_id=id)`: the default corpus re-initialised, then the
      document given its default run. */
  lemma DocumentReInitById(s0: Store, s: Store, d: Key)
    requires d.kind == Document && d in s
    requires s == ReInitStore(s0, ReInitKeys(Corpus, NoneV))[d := s[d]]
    requires s[d] == MergeAll(AttrsIn(s0, d), DocumentUpdates(NoneV, NoneV, RefKey(Corpus, NoneV)))
    ensures s == ReInitStore(s0, {d} + DefaultKeys(Document))
  {
    ReInitById(s0, s, ReInitKeys(Corpus, NoneV), d, DefaultUpdates(Document));
  }

  /** One more element of `[kind.factory(x) for x in args]` resolved. */
  lemma ReInitListStep(s0: Store, s: Store, s1: Store, kind: Kind, args: seq<Value>, i: nat)
    requires i < |args|
    requires s == ReInitStore(s0, ReInitListKeys(kind, args[..i]))
    requires s1 == ReInitStore(s, ReInitKeys(kind, args[i]))
    ensures s1 == ReInitStore(s0, ReInitListKeys(kind, args[..i + 1]))
  {
    ReInitListKeysSnoc(kind, args, i);
    ReInitStoreTwice(s0, ReInitListKeys(kind, args[..i]), ReInitKeys(kind, args[i]));
  }

  lemma SetSame(s: Store, t: Key)
    requires t in s
    ensures s[t := s[t]] == s
  {
  }

  /** Setting `t` twice is setting it once. */
  lemma SetTwice(s: Store, t: Key, before: map<string, Value>, after: map<string, Value>)
    ensures s[t := before][t := after] == s[t := after]
  {
  }

  /** `Document.factory(id)` on a registered document: its corpus is
      replaced by the default corpus, but its populated `uri`, `content`
      and `annotations` are kept, so no tracked annotation is lost; a
      document without annotations gets the empty set. */
  lemma DocumentByIdKeepsAnnotations(attrs: map<string, Value>)
    ensures var r := MergeAll(attrs, DefaultUpdates(Document));
            && "corpus" in r && r["corpus"] == Obj(Key(Corpus, "default"))
            && "annotations" in r
            && (Populated(attrs, "annotations") ==> r["annotations"] == attrs["annotations"])
            && (!Populated(attrs, "annotations") ==> r["annotations"] == SetV([]))
            && (Populated(attrs, "uri") ==> r["uri"] == attrs["uri"])
            && (Populated(attrs, "content") ==> r["content"] == attrs["content"])
            && KeepsTracked(attrs, r)
  {
    var u := DefaultUpdates(Document);
    DefaultUpdatesDistinct(Document);
    MergeAllField(attrs, u, "corpus");
    MergeAllField(attrs, u, "annotations");
    MergeAllField(attrs, u, "uri");
    MergeAllField(attrs, u, "content");
  }

  /** `Annotator.factory(id)` on a registered annotator: the populated
      `name`, `owner` and `entity_id` are kept, but the task becomes the
      default task, the model `'MACHINE'` and the threshold `0`, whatever
      they were, because those defaults are not empty candidates. */
  lemma AnnotatorByIdResets(attrs: map<string, Value>)
    ensures var r := MergeAll(attrs, DefaultUpdates(Annotator));
            && "task" in r && r["task"] == Obj(Key(Task, "default"))
            && "model" in r && r["model"] == Str("MACHINE")
            && "threshold" in r && r["threshold"] == Int(0)
            && (Populated(attrs, "name") ==> r["name"] == attrs["name"])
            && (Populated(attrs, "owner") ==> r["owner"] == attrs["owner"])
            && (Populated(attrs, "entity_id") ==> r["entity_id"] == attrs["entity_id"])
  {
    var u := DefaultUpdates(Annotator);
    DefaultUpdatesDistinct(Annotator);
    MergeAllField(attrs, u, "task");
    MergeAllField(attrs, u, "model");
    MergeAllField(attrs, u, "threshold");
    MergeAllField(attrs, u, "name");
    MergeAllField(attrs, u, "owner");
    MergeAllField(attrs, u, "entity_id");
  }

  // ---- Annotation.copy ----

  /** `self.name` on an object whose attributes are `attrs`. */
  function Attr(attrs: map<string, Value>, name: string): Result<Value> {
    if name in attrs then Ok(attrs[name]) else Err(AttributeError(name))
  }

  /** `value.copy()`: a target copies its selectors; a dict, list or set is
      copied shallowly, which is the same value here; other values have no
      `copy`. */
  function CopyValue(v: Value): Result<Value> {
    match v
    case TargetV(t) =>
      var c :- CopyTarget(t);
      Ok(TargetV(c))
    case DictV(_) => Ok(v)
    case ListV(_) => Ok(v)
    case SetV(_) => Ok(v)
    case _ => Err(AttributeError("copy"))
  }

  /** The arguments `Annotation.copy` passes to the constructor, read from
      the original's attributes in the order the code reads them: the
      target (copied first), then entity, document, task, body, annotator
      and score. `created` is left out, so it defaults to now, and
      `auto_track` keeps its default. */
  function CopyArgs(attrs: map<string, Value>): (r: Result<AnnotationArgs>)
    ensures r.Ok? <==> && "target" in attrs && CopyValue(attrs["target"]).Ok?
                       && "entity" in attrs && "document" in attrs && "task" in attrs
                       && "body" in attrs && "annotator" in attrs && "score" in attrs
    ensures "target" !in attrs ==> r == Err(AttributeError("target"))
    ensures r.Ok? ==> && r.value.entity == attrs["entity"] && r.value.document == attrs["document"]
                      && r.value.task == attrs["task"] && r.value.annotator == attrs["annotator"]
                      && r.value.body == attrs["body"] && r.value.score == attrs["score"]
                      && r.value.target == CopyValue(attrs["target"]).value
                      && r.value.created == NoneV && r.value.autoTrack
                      && r.value.entityId.None? && r.value.documentId.None?
                      && r.value.annotatorId.None? && r.value.taskId.None?
  {
    var target :- Attr(attrs, "target");
    var copied :- CopyValue(target);
    var entity :- Attr(attrs, "entity");
    var document :- Attr(attrs, "document");
    var task :- Attr(attrs, "task");
    var body :- Attr(attrs, "body");
    var annotator :- Attr(attrs, "annotator");
    var score :- Attr(attrs, "score");
    Ok(AnnotationArgs(entity, document, body, annotator, task, NoneV, copied, score, true,
                      None, None, None, None))
  }

  /** The attributes a completed `Annotation.__init__` leaves: references
      to objects of the right classes, a target, and the plain fields. */
  predicate AnnotationShaped(attrs: map<string, Value>) {
    && "entity" in attrs && attrs["entity"].Obj? && attrs["entity"].ref.kind == Entity
    && "task" in attrs && attrs["task"].Obj? && attrs["task"].ref.kind == Task
    && "annotator" in attrs && attrs["annotator"].Obj? && attrs["annotator"].ref.kind == Annotator
    && "document" in attrs && attrs["document"].Obj? && attrs["document"].ref.kind == Document
    && "target" in attrs && attrs["target"].TargetV?
    && "body" in attrs && "score" in attrs && "created" in attrs
  }

  /** Putting a new field in front of a run adds that name and keeps the
      values the run sets for the others. */
  lemma ThenStep(n: string, v: Value, rest: Updates, names: set<string>)
    requires Names(rest) == names && DistinctNames(rest) && n !in names
    ensures Names(Then(n, v, rest)) == {n} + names && DistinctNames(Then(n, v, rest))
    ensures ValueOf(Then(n, v, rest), n) == v
    ensures forall m :: m in names ==> ValueOf(Then(n, v, rest), m) == ValueOf(rest, m)
  {
  }

  /** The last four steps of the run of `Annotation.__init__`: annotator,
      document, target and created, each set once. */
  lemma AnnotationRunTail(annotator: Key, document: Key, target: Target, created: Value)
    ensures var u := Then("annotator", Obj(annotator), Then("document", Obj(document),
                         Then("target", TargetV(target), Then("created", created, Done))));
            && DistinctNames(u)
            && Names(u) == {"annotator", "document", "target", "created"}
            && ValueOf(u, "annotator") == Obj(annotator) && ValueOf(u, "document") == Obj(document)
            && ValueOf(u, "target") == TargetV(target) && ValueOf(u, "created") == created
  {
    var u4 := Then("created", created, Done);
    ThenStep("created", created, Done, {});
    var u3 := Then("target", TargetV(target), u4);
    ThenStep("target", TargetV(target), u4, {"created"});
    var u2 := Then("document", Obj(document), u3);
    ThenStep("document", Obj(document), u3, {"target", "created"});
    ThenStep("annotator", Obj(annotator), u2, {"document", "target", "created"});
  }

  /** The eight-step run of `Annotation.__init__`, built from its last step
      outwards: each step adds one new field and keeps the values of the
      steps after it. */
  lemma AnnotationRun(entity: Key, score: Value, body: Value, task: Key, annotator: Key,
                      document: Key, target: Target, created: Value)
    ensures var u := AnnotationUpdates(entity, score, body, task, annotator, document, target, created);
            && DistinctNames(u)
            && Names(u) == {"entity", "score", "body", "task", "annotator", "document", "target", "created"}
            && ValueOf(u, "entity") == Obj(entity) && ValueOf(u, "score") == score
            && ValueOf(u, "body") == body && ValueOf(u, "task") == Obj(task)
            && ValueOf(u, "annotator") == Obj(annotator) && ValueOf(u, "document") == Obj(document)
            && ValueOf(u, "target") == TargetV(target) && ValueOf(u, "created") == created
  {
    var u5 := Then("annotator", Obj(annotator), Then("document", Obj(document),
                Then("target", TargetV(target), Then("created", created, Done))));
    AnnotationRunTail(annotator, document, target, created);
    var u4 := Then("task", Obj(task), u5);
    ThenStep("task", Obj(task), u5, {"annotator", "document", "target", "created"});
    var u3 := Then("body", body, u4);
    ThenStep("body", body, u4, {"task", "annotator", "document", "target", "created"});
    var u2 := Then("score", score, u3);
    ThenStep("score", score, u3, {"body", "task", "annotator", "document", "target", "created"});
    var u1 := Then("entity", Obj(entity), u2);
    ThenStep("entity", Obj(entity), u2, {"score", "body", "task", "annotator", "document", "target", "created"});
    assert AnnotationUpdates(entity, score, body, task, annotator, document, target, created) == u1;
  }

  /** An annotation's run sets each of its eight fields once, to the
      resolved references and the given values. */
  lemma AnnotationUpdatesDistinct(a: AnnotationArgs, env: Env)
    ensures DistinctNames(AnnotationUpdatesIn(a, env))
    ensures Names(AnnotationUpdatesIn(a, env)) ==
            {"entity", "score", "body", "task", "annotator", "document", "target", "created"}
    ensures var u := AnnotationUpdatesIn(a, env);
            var target := TargetOf(a.target, env);
            var created := CreatedValue(a.created, env);
            && ValueOf(u, "entity") == Obj(RefKey(Entity, EntityArg(a)))
            && ValueOf(u, "score") == a.score
            && ValueOf(u, "body") == a.body
            && ValueOf(u, "task") == Obj(RefKey(Task, TaskArg(a)))
            && ValueOf(u, "annotator") == Obj(RefKey(Annotator, AnnotatorArg(a)))
            && ValueOf(u, "document") == Obj(DocKey(a))
            && ValueOf(u, "target") == TargetV(if target.Ok? then target.value else Target(NoneV, []))
            && ValueOf(u, "created") == (if created.Ok? then created.value else NoneV)
  {
    var target := TargetOf(a.target, env);
    var created := CreatedValue(a.created, env);
    var t := if target.Ok? then target.value else Target(NoneV, []);
    var c := if created.Ok? then created.value else NoneV;
    AnnotationRun(RefKey(Entity, EntityArg(a)), a.score, a.body, RefKey(Task, TaskArg(a)),
                  RefKey(Annotator, AnnotatorArg(a)), DocKey(a), t, c);
  }

  /** A run that sets the references to objects of the right classes and
      the target to a target leaves any annotation shaped. */
  lemma RunShapes(attrs: map<string, Value>, u: Updates)
    requires DistinctNames(u)
    requires Names(u) == {"entity", "score", "body", "task", "annotator", "document", "target", "created"}
    requires ValueOf(u, "entity").Obj? && ValueOf(u, "entity").ref.kind == Entity
    requires ValueOf(u, "task").Obj? && ValueOf(u, "task").ref.kind == Task
    requires ValueOf(u, "annotator").Obj? && ValueOf(u, "annotator").ref.kind == Annotator
    requires ValueOf(u, "document").Obj? && ValueOf(u, "document").ref.kind == Document
    requires ValueOf(u, "target").TargetV?
    ensures var r := MergeAll(attrs, u);
            && AnnotationShaped(r)
            && r["entity"] == ValueOf(u, "entity") && r["task"] == ValueOf(u, "task")
            && r["annotator"] == ValueOf(u, "annotator") && r["document"] == ValueOf(u, "document")
            && r["target"] == ValueOf(u, "target")
  {
    MergeAllField(attrs, u, "body");
    MergeAllField(attrs, u, "score");
    MergeAllField(attrs, u, "created");
    MergeAllField(attrs, u, "entity");
    MergeAllField(attrs, u, "task");
    MergeAllField(attrs, u, "annotator");
    MergeAllField(attrs, u, "document");
    MergeAllField(attrs, u, "target");
  }

  /** Whatever an annotation held before, a completed construction leaves
      it shaped: every reference is the object its factory returned. */
  lemma ConstructedAnnotationShaped(attrs: map<string, Value>, a: AnnotationArgs, env: Env)
    requires AnnotationResolved(a, env)
    ensures var r := MergeAll(attrs, AnnotationUpdatesIn(a, env));
            && AnnotationShaped(r)
            && r["entity"] == Obj(RefKey(Entity, EntityArg(a)))
            && r["task"] == Obj(RefKey(Task, TaskArg(a)))
            && r["annotator"] == Obj(RefKey(Annotator, AnnotatorArg(a)))
            && r["document"] == Obj(DocKey(a))
            && r["target"] == TargetV(TargetOf(a.target, env).value)
  {
    AnnotationUpdatesDistinct(a, env);
    RunShapes(attrs, AnnotationUpdatesIn(a, env));
  }

  /** Copying a shaped annotation whose target copies: the constructor is
      handed the original's own references, body and score and the copied
      target, every reference resolves to the object it names, and the
      construction completes exactly when the document still holds a set of
      annotations. */
  lemma CopyArgsOfShaped(attrs: map<string, Value>, docAttrs: map<string, Value>, env: Env)
    requires AnnotationShaped(attrs) && CopyTarget(attrs["target"].target).Ok?
    ensures CopyArgs(attrs).Ok?
    ensures var a := CopyArgs(attrs).value;
            && a.entity == attrs["entity"] && a.document == attrs["document"]
            && a.task == attrs["task"] && a.annotator == attrs["annotator"]
            && a.body == attrs["body"] && a.score == attrs["score"]
            && a.target == TargetV(CopyTarget(attrs["target"].target).value)
            && a.created == NoneV && a.autoTrack
            && DocKey(a) == attrs["document"].ref
    ensures var a := CopyArgs(attrs).value;
            AnnotationInitError(a, env, docAttrs).None? <==>
              "annotations" in docAttrs && docAttrs["annotations"].SetV?
  {
    var a := CopyArgs(attrs).value;
    assert FactoryDispatch(Document, a.document).Existing?;
  }

  /** The copy's attributes against the original's: the same entity,
      document, task, annotator, body and score, a target with the same
      source and as many selectors (equal to the original's when its
      selectors are all factory outputs), and `created` set to now. */
  predicate CopyOf(c: map<string, Value>, attrs: map<string, Value>, now: Timestamp)
    requires AnnotationShaped(attrs)
  {
    && "entity" in c && c["entity"] == attrs["entity"]
    && "document" in c && c["document"] == attrs["document"]
    && "task" in c && c["task"] == attrs["task"]
    && "annotator" in c && c["annotator"] == attrs["annotator"]
    && "body" in c && c["body"] == attrs["body"]
    && "score" in c && c["score"] == attrs["score"]
    && "target" in c && c["target"].TargetV?
    && c["target"].target.source == attrs["target"].target.source
    && |c["target"].target.selectors| == |attrs["target"].target.selectors|
    && (WellFormed(attrs["target"].target) ==> c["target"] == attrs["target"])
    && "created" in c && c["created"] == Time(now)
  }

  /** An annotation constructed from the copy arguments on a fresh id is a
      copy of the original. */
  lemma CopyFresh(attrs: map<string, Value>, env: Env)
    requires AnnotationShaped(attrs) && CopyArgs(attrs).Ok?
    requires AnnotationResolved(CopyArgs(attrs).value, env)
    ensures CopyOf(MergeAll(map[], AnnotationUpdatesIn(CopyArgs(attrs).value, env)), attrs, env.now)
  {
    var a := CopyArgs(attrs).value;
    var u := AnnotationUpdatesIn(a, env);
    AnnotationUpdatesDistinct(a, env);
    MergeAllFresh(u, "entity");
    MergeAllFresh(u, "document");
    MergeAllFresh(u, "task");
    MergeAllFresh(u, "annotator");
    MergeAllFresh(u, "body");
    MergeAllFresh(u, "score");
    MergeAllFresh(u, "target");
    MergeAllFresh(u, "created");
  }
}
