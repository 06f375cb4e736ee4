/** How the entity constructors resolve their references: the dispatch of
    `FromIdFactoryMixin.factory`, the object each call yields, the runs of
    `setattr` each `__init__` performs, and `TargetFactory`. Everything here
    is a function of the arguments; the state changes are in `Registry`. */
module References {
  import opened Values
  import opened Attributes
  import opened Selectors

  /** The `unique_id` and `id` keyword arguments of a constructor call. */
  datatype IdArgs = IdArgs(uniqueId: Option<string>, id: Option<string>)

  /** The collaborators the constructors consult: the clock, ISO-8601 parsing
      and JSON parsing, supplied by the caller. */
  datatype Env = Env(now: Timestamp,
                     fromIsoFormat: string -> Option<Timestamp>,
                     jsonLoads: string -> Option<Value>)

  /** The id `__new__` registers under: `id` if given, else `unique_id`,
      else the freshly generated uuid. */
  function ChooseId(args: IdArgs, generated: string): (r: string)
    ensures args.id.Some? ==> r == args.id.value
    ensures args.id.None? && args.uniqueId.Some? ==> r == args.uniqueId.value
    ensures args.id.None? && args.uniqueId.None? ==> r == generated
  {
    match args.id
    case Some(i) => i
    case None =>
      (match args.uniqueId
       case Some(u) => u
       case None => generated)
  }

  /** The branch `FromIdFactoryMixin.factory` takes for an argument. */
  datatype Dispatch = Existing(k: Key) | ById(id: string) | Rejected(typeName: string)

  function FactoryDispatch(kind: Kind, arg: Value): (r: Dispatch)
    ensures arg.NoneV? ==> r == ById("default")
    ensures arg.Str? ==> r == ById(arg.s)
    ensures r.Existing? <==> arg.Obj? && arg.ref.kind == kind
    ensures r.Existing? ==> r.k == arg.ref
    ensures r.Rejected? <==> !(arg.NoneV? || arg.Str? || (arg.Obj? && arg.ref.kind == kind))
    ensures r.Rejected? ==> r.typeName == TypeName(arg)
  {
    match arg
    case NoneV => ById("default")
    case Obj(k) => if k.kind == kind then Existing(k) else Rejected(TypeName(arg))
    case Str(s) => ById(s)
    case _ => Rejected(TypeName(arg))
  }

  /** Whether `kind.factory(arg)` succeeds: an instance of the class or an id.
      An annotation by id is constructed without a target, which raises. */
  predicate Resolvable(kind: Kind, arg: Value) {
    FactoryDispatch(kind, arg).Existing? || (FactoryDispatch(kind, arg).ById? && kind != Annotation)
  }

  /** The id a factory call re-initialises: the string itself, or
      `'default'` for `None`. */
  function IdOr(arg: Value): string {
    if arg.Str? then arg.s else "default"
  }

  /** The object `kind.factory(arg)` hands back when it succeeds. */
  function RefKey(kind: Kind, arg: Value): (r: Key)
    ensures r.kind == kind
    ensures FactoryDispatch(kind, arg).Existing? ==> r == arg.ref
    ensures FactoryDispatch(kind, arg).ById? ==> r == Key(kind, FactoryDispatch(kind, arg).id)
  {
    if arg.Obj? && arg.ref.kind == kind then arg.ref else Key(kind, IdOr(arg))
  }

  /** `factory(None)` is the instance with id `'default'`, the same one on
      every call; two ids name the same object only if they are equal. */
  lemma FactoryIdentity(kind: Kind, s1: string, s2: string)
    ensures RefKey(kind, NoneV) == Key(kind, "default")
    ensures RefKey(kind, Str(s1)) == RefKey(kind, Str(s2)) <==> s1 == s2
    ensures RefKey(kind, Str("default")) == RefKey(kind, NoneV)
  {
  }

  // ---- Constructor arguments and the setattr runs of each __init__ ----

  datatype CorpusArgs = CorpusArgs(name: Value, description: Value, documents: seq<Value>)
  datatype DocumentArgs = DocumentArgs(content: Value, uri: Value, corpus: Value)
  datatype TaskArgs = TaskArgs(name: Value, description: Value, entities: seq<Value>,
                               corpora: seq<Value>, annotators: seq<Value>,
                               documents: seq<Value>, annotations: seq<Value>)
  datatype AnnotatorArgs = AnnotatorArgs(name: Value, model: Value, task: Value,
                                         entityId: Value, threshold: Value, owner: Value)
  /** The `entity_id`, `task_id`, `annotator_id` and `document_id` keyword
      arguments, when present, replace the corresponding reference. */
  datatype AnnotationArgs = AnnotationArgs(entity: Value, document: Value, body: Value,
                                           annotator: Value, task: Value, created: Value,
                                           target: Value, score: Value, autoTrack: bool,
                                           entityId: Option<Value>, taskId: Option<Value>,
                                           annotatorId: Option<Value>, documentId: Option<Value>)

  const DefaultCorpus := CorpusArgs(NoneV, NoneV, [])
  const DefaultDocument := DocumentArgs(NoneV, NoneV, NoneV)
  const DefaultTask := TaskArgs(NoneV, NoneV, [], [], [], [], [])
  const DefaultAnnotator := AnnotatorArgs(NoneV, NoneV, NoneV, NoneV, Int(0), NoneV)
  const DefaultAnnotation := AnnotationArgs(NoneV, NoneV, NoneV, NoneV, NoneV, NoneV, NoneV, NoneV,
                                            true, None, None, None, None)

  function EntityUpdates(name: Value, color: Value): Updates {
    Then("name", name, Then("color", color, Done))
  }

  function CorpusUpdates(name: Value, description: Value, documents: seq<Value>): Updates {
    Then("name", name, Then("description", description,
      if documents != [] then Then("documents", ListV(documents), Done) else Done))
  }

  function DocumentUpdates(uri: Value, content: Value, corpus: Key): Updates {
    Then("uri", uri, Then("content", content, Then("corpus", Obj(corpus), Then("annotations", SetV([]), Done))))
  }

  function TaskUpdates(name: Value, description: Value, entities: seq<Value>, corpora: seq<Value>,
                       annotators: seq<Value>, annotations: seq<Value>, documents: seq<Value>): Updates {
    Then("name", name, Then("description", description, Then("entities", ListV(entities),
    Then("corpora", ListV(corpora), Then("annotators", ListV(annotators),
    Then("annotations", ListV(annotations), Then("documents", ListV(documents), Done)))))))
  }

  /** `model or 'MACHINE'`. */
  function ModelOrMachine(model: Value): (r: Value)
    ensures Truthy(r)
    ensures Truthy(model) ==> r == model
  {
    if Truthy(model) then model else Str("MACHINE")
  }

  function AnnotatorUpdates(args: AnnotatorArgs, task: Key): Updates {
    Then("name", args.name, Then("task", Obj(task), Then("owner", args.owner,
    Then("model", ModelOrMachine(args.model), Then("entity_id", args.entityId,
    Then("threshold", args.threshold, Done))))))
  }

  function AnnotationUpdates(entity: Key, score: Value, body: Value, task: Key,
                             annotator: Key, document: Key, target: Target,
                             created: Value): Updates {
    Then("entity", Obj(entity), Then("score", score, Then("body", body, Then("task", Obj(task),
    Then("annotator", Obj(annotator), Then("document", Obj(document), Then("target", TargetV(target),
    Then("created", created, Done))))))))
  }

  function Pick(keyword: Option<Value>, positional: Value): Value {
    if keyword.Some? then keyword.value else positional
  }

  function EntityArg(a: AnnotationArgs): Value { Pick(a.entityId, a.entity) }
  function TaskArg(a: AnnotationArgs): Value { Pick(a.taskId, a.task) }
  function AnnotatorArg(a: AnnotationArgs): Value { Pick(a.annotatorId, a.annotator) }
  function DocumentArg(a: AnnotationArgs): Value { Pick(a.documentId, a.document) }

  /** The `created` attribute: now when absent, parsed when a string,
      otherwise stored as given. */
  function CreatedValue(created: Value, env: Env): (r: Result<Value>)
    ensures created.NoneV? ==> r == Ok(Time(env.now))
    ensures created.Str? ==> (r.Ok? <==> env.fromIsoFormat(created.s).Some?)
    ensures created.Str? && r.Ok? ==> r == Ok(Time(env.fromIsoFormat(created.s).value))
    ensures created.Str? && r.Err? ==> r == Err(ValueError("Invalid isoformat string"))
    ensures !created.NoneV? && !created.Str? ==> r == Ok(created)
  {
    match created
    case NoneV => Ok(Time(env.now))
    case Str(s) =>
      (match env.fromIsoFormat(s)
       case Some(dt) => Ok(Time(dt))
       case None => Err(ValueError("Invalid isoformat string")))
    case _ => Ok(created)
  }

  /** `data.replace("'", '"')`. */
  function ReplaceQuotes(s: string): (r: string)
    ensures |r| == |s|
    ensures forall i :: 0 <= i < |s| ==> r[i] == (if s[i] == '\'' then '"' else s[i])
  {
    if s == [] then [] else [if s[0] == '\'' then '"' else s[0]] + ReplaceQuotes(s[1..])
  }

  /** `TargetFactory.from_dict(d)`: `{}` is the empty target; otherwise the
      source goes through `Document.factory` and the selectors through the
      selector factory, twice. */
  function TargetOfDict(d: map<string, Value>): (r: Result<Target>)
    ensures d == map[] ==> r == Ok(Target(NoneV, []))
    ensures d != map[] && "source" !in d ==> r == Err(KeyError("source"))
    ensures d != map[] && "source" in d && !Resolvable(Document, d["source"]) ==>
              r == Err(NoFactoryMethod(TypeName(d["source"])))
    ensures r.Ok? && d != map[] ==> r.value.source == Obj(RefKey(Document, d["source"]))
    ensures r.Ok? ==> Settled(r.value)
  {
    if d == map[] then Ok(Target(NoneV, []))
    else if "source" !in d then Err(KeyError("source"))
    else if !Resolvable(Document, d["source"]) then Err(NoFactoryMethod(TypeName(d["source"])))
    else TargetFromDict(Obj(RefKey(Document, d["source"])), d)
  }

  /** A dictionary target on a document with one bounding-box selector is
      rejected: the comprehension turns the selector into a `BoundingBox`,
      which `Target.__init__` hands to the factory again. */
  lemma BoundingBoxTargetRejected(id: string)
    ensures var box := DictV(map["x" := Int(0), "y" := Int(0), "height" := Int(10), "width" := Int(20)]);
            TargetOfDict(map["source" := Str(id), "selector" := ListV([box])]) == Err(NoFactory("BoundingBox"))
  {
    var box := DictV(map["x" := Int(0), "y" := Int(0), "height" := Int(10), "width" := Int(20)]);
    assert box.entries != map[] by { assert "x" in box.entries; }
    var d := map["source" := Str(id), "selector" := ListV([box])];
    assert d != map[] by { assert "source" in d; }
    assert IsBoxDict(box.entries);
    var b := Sel(BoundingBox(Vertex(Int(0), Int(0)), Int(10), Int(20)));
    assert SelectorFactoryAsWritten(box) == Ok(b);
    var r := DispatchAll([box]);
    assert r.Ok? && |r.value| == 1 && r.value[0] == b;
    assert r.value == [b];
  }

  /** `TargetFactory.factory(data)`: a Target passes through, a dict is built
      with `from_dict`, a string is parsed as JSON first, anything else
      (`None` included) raises `NotImplementedError`. */
  function TargetOf(arg: Value, env: Env): (r: Result<Target>)
    ensures arg.TargetV? ==> r == Ok(arg.target)
    ensures arg.DictV? ==> r == TargetOfDict(arg.entries)
    ensures !arg.TargetV? && !arg.DictV? && !arg.Str? ==> r == Err(NotImplemented(TypeName(arg)))
  {
    match arg
    case TargetV(target) => Ok(target)
    case DictV(d) => TargetOfDict(d)
    case Str(s) =>
      (match env.jsonLoads(ReplaceQuotes(s))
       case None => Err(ValueError("Expecting value"))
       case Some(DictV(d)) => TargetOfDict(d)
       case Some(v) => Err(TypeError(TypeName(v))))
    case _ => Err(NotImplemented(TypeName(arg)))
  }

  /** The attributes a document has once `Document.factory(arg)` has
      returned it: re-initialised with default arguments when given by id,
      untouched when given as an instance. */
  function DocumentAfterFactory(attrs: map<string, Value>, arg: Value): map<string, Value> {
    if FactoryDispatch(Document, arg).ById?
    then MergeAll(attrs, DocumentUpdates(NoneV, NoneV, Key(Corpus, "default")))
    else attrs
  }

  /** The exception the first statements of `Annotation.__init__` raise:
      the entity, task and annotator factory calls, in that order. */
  function ReferencesError(a: AnnotationArgs): Option<Error> {
    if !Resolvable(Entity, EntityArg(a)) then Some(NoFactoryMethod(TypeName(EntityArg(a))))
    else if !Resolvable(Task, TaskArg(a)) then Some(NoFactoryMethod(TypeName(TaskArg(a))))
    else if !Resolvable(Annotator, AnnotatorArg(a)) then Some(NoFactoryMethod(TypeName(AnnotatorArg(a))))
    else None
  }

  /** The exception the document statements of `Annotation.__init__` raise:
      the factory call, then `self.document.annotations.add(self)` when
      auto-tracking, given the attributes the document has beforehand. */
  function TrackError(a: AnnotationArgs, docAttrs: map<string, Value>): Option<Error> {
    var doc := DocumentAfterFactory(docAttrs, DocumentArg(a));
    if !Resolvable(Document, DocumentArg(a)) then Some(NoFactoryMethod(TypeName(DocumentArg(a))))
    else if a.autoTrack && "annotations" !in doc then Some(AttributeError("annotations"))
    else if a.autoTrack && !doc["annotations"].SetV? then Some(AttributeError("add"))
    else None
  }

  /** The exception the last statements of `Annotation.__init__` raise: the
      target factory call, then the `created` default. */
  function TailError(a: AnnotationArgs, env: Env): Option<Error> {
    if TargetOf(a.target, env).Err? then Some(TargetOf(a.target, env).error)
    else if CreatedValue(a.created, env).Err? then Some(CreatedValue(a.created, env).error)
    else None
  }

  /** The first exception `Annotation.__init__` raises, in the order of its
      statements, given the attributes its document has beforehand; `None`
      when it completes. */
  function AnnotationInitError(a: AnnotationArgs, env: Env, docAttrs: map<string, Value>): (r: Option<Error>)
    ensures r.None? <==> ReferencesError(a).None? && TrackError(a, docAttrs).None? && TailError(a, env).None?
    ensures r.Some? ==> r in {ReferencesError(a), TrackError(a, docAttrs), TailError(a, env)}
    ensures ReferencesError(a).Some? ==> r == ReferencesError(a)
  {
    if ReferencesError(a).Some? then ReferencesError(a)
    else if TrackError(a, docAttrs).Some? then TrackError(a, docAttrs)
    else TailError(a, env)
  }

  /** Every reference an annotation's `__init__` resolves succeeds. */
  predicate AnnotationResolved(a: AnnotationArgs, env: Env) {
    && Resolvable(Entity, EntityArg(a))
    && Resolvable(Task, TaskArg(a))
    && Resolvable(Annotator, AnnotatorArg(a))
    && Resolvable(Document, DocumentArg(a))
    && TargetOf(a.target, env).Ok?
    && CreatedValue(a.created, env).Ok?
  }

  /** An annotation's `__init__` completes exactly when every reference
      resolves and, with auto-tracking, its document holds a set. */
  lemma AnnotationInitSucceeds(a: AnnotationArgs, env: Env, docAttrs: map<string, Value>)
    ensures AnnotationInitError(a, env, docAttrs).None? <==>
              AnnotationResolved(a, env) &&
              (a.autoTrack ==> var doc := DocumentAfterFactory(docAttrs, DocumentArg(a));
                               "annotations" in doc && doc["annotations"].SetV?)
  {
  }

  /** The document an annotation is attached to. */
  function DocKey(a: AnnotationArgs): Key {
    RefKey(Document, DocumentArg(a))
  }

  function AnnotationUpdatesIn(a: AnnotationArgs, env: Env): Updates {
    var target := TargetOf(a.target, env);
    var created := CreatedValue(a.created, env);
    AnnotationUpdates(RefKey(Entity, EntityArg(a)), a.score, a.body, RefKey(Task, TaskArg(a)),
                      RefKey(Annotator, AnnotatorArg(a)), DocKey(a),
                      if target.Ok? then target.value else Target(NoneV, []),
                      if created.Ok? then created.value else NoneV)
  }

  // ---- Lists of references ----

  predicate AllResolvable(kind: Kind, args: seq<Value>) {
    forall i :: 0 <= i < |args| ==> Resolvable(kind, args[i])
  }

  /** The objects a list of references resolves to, in order. */
  function ObjsIn(kind: Kind, args: seq<Value>): (r: seq<Value>)
    ensures |r| == |args|
    ensures forall i :: 0 <= i < |args| ==> r[i] == Obj(RefKey(kind, args[i]))
  {
    seq(|args|, i requires 0 <= i < |args| => Obj(RefKey(kind, args[i])))
  }

  /** Resolving one more reference extends the resolved list by its object. */
  lemma ObjsInSnoc(kind: Kind, args: seq<Value>, i: nat)
    requires i < |args|
    ensures ObjsIn(kind, args[..i + 1]) == ObjsIn(kind, args[..i]) + [Obj(RefKey(kind, args[i]))]
    ensures AllResolvable(kind, args[..i]) && Resolvable(kind, args[i]) ==> AllResolvable(kind, args[..i + 1])
  {
    assert args[..i + 1] == args[..i] + [args[i]];
  }

  predicate TaskResolvable(a: TaskArgs) {
    && AllResolvable(Entity, a.entities) && AllResolvable(Corpus, a.corpora)
    && AllResolvable(Annotator, a.annotators) && AllResolvable(Annotation, a.annotations)
    && AllResolvable(Document, a.documents)
  }

  function TaskUpdatesIn(a: TaskArgs): Updates {
    TaskUpdates(a.name, a.description, ObjsIn(Entity, a.entities), ObjsIn(Corpus, a.corpora),
                ObjsIn(Annotator, a.annotators), ObjsIn(Annotation, a.annotations),
                ObjsIn(Document, a.documents))
  }

  /** The `setattr` run of `kind(unique_id=...)` with every other argument
      defaulted, as `factory` performs it on an id. (An annotation by id
      raises before it completes.) */
  function DefaultUpdates(kind: Kind): Updates {
    match kind
    case Entity => EntityUpdates(NoneV, NoneV)
    case Corpus => CorpusUpdates(NoneV, NoneV, [])
    case Task => TaskUpdates(NoneV, NoneV, [], [], [], [], [])
    case Document => DocumentUpdates(NoneV, NoneV, Key(Corpus, "default"))
    case Annotator => AnnotatorUpdates(DefaultAnnotator, Key(Task, "default"))
    case Annotation => Done
  }

  // ---- Which objects a call may change ----

  /** The default objects, besides its own, that `kind(unique_id=...)`
      re-initialises through nested `factory(None)` calls. */
  function DefaultKeys(kind: Kind): set<Key> {
    match kind
    case Document => {Key(Corpus, "default")}
    case Annotator => {Key(Task, "default")}
    case Annotation => {Key(Entity, "default"), Key(Task, "default"), Key(Annotator, "default"),
                        Key(Document, "default"), Key(Corpus, "default")}
    case _ => {}
  }

  /** The objects `kind.factory(arg)` may change. */
  function Footprint(kind: Kind, arg: Value): set<Key> {
    {RefKey(kind, arg)} + DefaultKeys(kind)
  }

  /** A frame of whole classes `kinds` and single objects `keys` covers the
      classes `kinds0` and the objects `keys0`. */
  predicate Within(kinds0: set<Kind>, keys0: set<Key>, kinds: set<Kind>, keys: set<Key>) {
    kinds0 <= kinds && forall k | k in keys0 :: k.kind in kinds || k in keys
  }

  /** The classes `[kind.factory(x) for x in args]` may change objects of,
      and the default objects of other classes it may change. */
  function ListKinds(kind: Kind, args: seq<Value>): set<Kind> {
    if args == [] then {} else {kind}
  }

  function ListKeys(kind: Kind, args: seq<Value>): set<Key> {
    if args == [] then {} else DefaultKeys(kind)
  }

  function TaskKinds(a: TaskArgs): set<Kind> {
    ListKinds(Entity, a.entities) + ListKinds(Corpus, a.corpora) + ListKinds(Annotator, a.annotators)
    + ListKinds(Annotation, a.annotations) + ListKinds(Document, a.documents)
  }

  function TaskKeys(a: TaskArgs): set<Key> {
    ListKeys(Entity, a.entities) + ListKeys(Corpus, a.corpora) + ListKeys(Annotator, a.annotators)
    + ListKeys(Annotation, a.annotations) + ListKeys(Document, a.documents)
  }

  /** `TargetFactory.factory` changes objects only when it builds from a
      dictionary: the source document, and through it the default corpus. */
  function TargetKinds(arg: Value): set<Kind> {
    if arg.DictV? || arg.Str? then {Document} else {}
  }

  function TargetKeys(arg: Value): set<Key> {
    if arg.DictV? || arg.Str? then {Key(Corpus, "default")} else {}
  }

  function AnnotationKeys(a: AnnotationArgs): set<Key> {
    Footprint(Entity, EntityArg(a)) + Footprint(Task, TaskArg(a)) + Footprint(Annotator, AnnotatorArg(a))
    + Footprint(Document, DocumentArg(a)) + TargetKeys(a.target)
  }

  /** Resolving an annotation's entity, task and annotator changes no
      document. */
  lemma ReferenceKeysSpareDocument(a: Key, args: AnnotationArgs)
    requires a.kind == Annotation
    ensures DocKey(args) !in {a} + Footprint(Entity, EntityArg(args)) + Footprint(Task, TaskArg(args))
                             + Footprint(Annotator, AnnotatorArg(args))
  {
  }

  /** Constructing an annotation changes no other annotation. */
  lemma AnnotationKeysSpareAnnotations(a: AnnotationArgs)
    ensures forall k | k in AnnotationKeys(a) :: k.kind != Annotation
    ensures Annotation !in TargetKinds(a.target)
  {
  }

  /** The order in which the constructors call one another, for termination. */
  function ResolveLevel(kind: Kind): nat {
    match kind
    case Entity => 1
    case Corpus => 1
    case Task => 1
    case Document => 3
    case Annotator => 3
    case Annotation => 6
  }

  function TaskSize(a: TaskArgs): nat {
    |a.entities| + |a.corpora| + |a.annotators| + |a.annotations| + |a.documents|
  }

  // ---- Tracked annotations ----

  /** The annotations a document's attributes say it tracks. */
  function TrackedIn(attrs: map<string, Value>): seq<Key> {
    if "annotations" in attrs && attrs["annotations"].SetV? then attrs["annotations"].members else []
  }

  /** Every annotation tracked under the attributes `a` is still tracked
      under `b`. */
  predicate KeepsTracked(a: map<string, Value>, b: map<string, Value>) {
    forall x | x in TrackedIn(a) :: x in TrackedIn(b)
  }

  lemma KeepsTrackedTrans(a: map<string, Value>, b: map<string, Value>, c: map<string, Value>)
    requires KeepsTracked(a, b) && KeepsTracked(b, c)
    ensures KeepsTracked(a, c)
  {
  }

  /** No document registered in `s0` tracks fewer annotations in `s1`. */
  predicate Grows(s0: Store, s1: Store) {
    forall k | k in s0 && k.kind == Document :: k in s1 && KeepsTracked(s0[k], s1[k])
  }

  lemma GrowsTrans(s0: Store, s1: Store, s2: Store)
    requires Grows(s0, s1) && Grows(s1, s2)
    ensures Grows(s0, s2)
  {
  }

  /** Replacing one object's attributes keeps every document's tracked
      annotations as long as that object's own are kept. */
  lemma GrowsUpdate(s: Store, k: Key, attrs: map<string, Value>)
    requires k in s ==> KeepsTracked(s[k], attrs)
    ensures Grows(s, s[k := attrs])
  {
  }

  /** Only objects of classes in `kinds`, or the objects in `keys`, are new
      or changed from `s0` to `s1`, and none is dropped. */
  predicate Touches(s0: Store, s1: Store, kinds: set<Kind>, keys: set<Key>) {
    && s0.Keys <= s1.Keys
    && (forall k | k in s1 && k !in s0 :: k.kind in kinds || k in keys)
    && (forall k | k in s0 && k.kind !in kinds && k !in keys :: s1[k] == s0[k])
  }

  lemma TouchesTrans(s0: Store, s1: Store, s2: Store, kinds: set<Kind>, keys: set<Key>)
    requires Touches(s0, s1, kinds, keys) && Touches(s1, s2, kinds, keys)
    ensures Touches(s0, s2, kinds, keys)
  {
  }

  lemma TouchesRefl(s: Store, kinds: set<Kind>, keys: set<Key>)
    ensures Touches(s, s, kinds, keys)
  {
  }

  /** A frame that covers some classes and objects covers any part of them. */
  lemma WithinMono(kinds0: set<Kind>, keys0: set<Key>, kinds1: set<Kind>, keys1: set<Key>,
                   kinds: set<Kind>, keys: set<Key>)
    requires Within(kinds1, keys1, kinds, keys) && kinds0 <= kinds1 && keys0 <= keys1
    ensures Within(kinds0, keys0, kinds, keys)
  {
  }

  /** A change inside the frame followed by one more update inside it. */
  lemma TouchesStep(s0: Store, s: Store, k: Key, attrs: map<string, Value>, kinds: set<Kind>, keys: set<Key>)
    requires Touches(s0, s, kinds, keys) && (k.kind in kinds || k in keys)
    ensures Touches(s0, s[k := attrs], kinds, keys)
  {
  }

  /** Replacing the attributes of an object inside the frame stays inside it. */
  lemma TouchesUpdate(s: Store, k: Key, attrs: map<string, Value>, kinds: set<Kind>, keys: set<Key>)
    requires k.kind in kinds || k in keys
    ensures Touches(s, s[k := attrs], kinds, keys)
  {
  }

  /** A change confined to one frame is confined to any frame covering it. */
  lemma TouchesWiden(s0: Store, s1: Store, kinds0: set<Kind>, keys0: set<Key>, kinds: set<Kind>, keys: set<Key>)
    requires Touches(s0, s1, kinds0, keys0) && Within(kinds0, keys0, kinds, keys)
    ensures Touches(s0, s1, kinds, keys)
  {
  }

  /** An object outside the frame keeps its attributes. */
  lemma TouchesFrame(s0: Store, s1: Store, kinds: set<Kind>, keys: set<Key>, k: Key)
    requires Touches(s0, s1, kinds, keys) && k.kind !in kinds && k !in keys
    ensures k in s1 <==> k in s0
    ensures k in s0 ==> s1[k] == s0[k]
  {
  }

  /** A change that reaches no document keeps every tracked annotation. */
  lemma TouchesGrows(s0: Store, s1: Store, kinds: set<Kind>, keys: set<Key>)
    requires Touches(s0, s1, kinds, keys)
    requires Document !in kinds && forall k | k in keys :: k.kind != Document
    ensures Grows(s0, s1)
  {
  }

  /** A `setattr` on any other field, or of an empty candidate on
      `annotations`, drops no tracked annotation. */
  lemma MergeKeepsTracked(attrs: map<string, Value>, name: string, value: Value)
    requires name != "annotations" || IsEmptyCandidate(value)
    ensures KeepsTracked(attrs, Merge(attrs, name, value).attrs)
  {
  }

  /** `set.add`: no duplicates, insertion order kept. */
  function AddMember(members: seq<Key>, x: Key): (r: seq<Key>)
    ensures x in r && forall y :: y in members ==> y in r
    ensures forall y :: y in r ==> y in members || y == x
    ensures x in members ==> r == members
  {
    if x in members then members else members + [x]
  }

  /** `self.document.annotations.add(a)` when `auto_track` is set; the
      attributes as they are otherwise. */
  function Tracking(attrs: map<string, Value>, a: Key, autoTrack: bool): (r: map<string, Value>)
    requires autoTrack ==> "annotations" in attrs && attrs["annotations"].SetV?
    ensures autoTrack ==> a in TrackedIn(r) && KeepsTracked(attrs, r)
    ensures !autoTrack ==> r == attrs
  {
    if autoTrack then attrs["annotations" := SetV(AddMember(attrs["annotations"].members, a))] else attrs
  }

  // ---- Objects re-initialised by id ----

  /** The attributes registered under `k` in `s`; none if absent. */
  function AttrsIn(s: Store, k: Key): map<string, Value> {
    if k in s then s[k] else map[]
  }

  /** The registries `s` after `kind(unique_id=...)` has re-initialised
      every object in `ks` with its class's default run; every other object
      is as it was. */
  function ReInitStore(s: Store, ks: set<Key>): Store {
    map k | k in s.Keys + ks :: ReInitAttrs(s, ks, k)
  }

  /** The attributes of `k` in `ReInitStore(s, ks)`. */
  function ReInitAttrs(s: Store, ks: set<Key>, k: Key): map<string, Value> {
    if k in ks then MergeAll(AttrsIn(s, k), DefaultUpdates(k.kind)) else AttrsIn(s, k)
  }

  /** The objects `kind.factory(arg)` re-initialises: for an id (or `None`)
      the object it names and the defaults its constructor falls back on;
      nothing for an instance or a rejected argument. */
  function ReInitKeys(kind: Kind, arg: Value): (r: set<Key>)
    ensures r <= Footprint(kind, arg)
  {
    if FactoryDispatch(kind, arg).ById? then Footprint(kind, arg) else {}
  }

  /** The objects `[kind.factory(x) for x in args]` re-initialises. */
  function ReInitListKeys(kind: Kind, args: seq<Value>): set<Key> {
    if args == [] then {} else ReInitListKeys(kind, args[..|args| - 1]) + ReInitKeys(kind, args[|args| - 1])
  }

  lemma ReInitListKeysSnoc(kind: Kind, args: seq<Value>, i: nat)
    requires i < |args|
    ensures ReInitListKeys(kind, args[..i + 1]) == ReInitListKeys(kind, args[..i]) + ReInitKeys(kind, args[i])
  {
    assert args[..i + 1][..i] == args[..i];
  }

  /** An object is re-initialised by the list exactly when some element of
      the list is an id (or `None`) whose factory call reaches it. */
  lemma {:induction false} ReInitListKeysMembers(kind: Kind, args: seq<Value>, k: Key)
    ensures k in ReInitListKeys(kind, args) <==>
              exists i :: 0 <= i < |args| && FactoryDispatch(kind, args[i]).ById? && k in Footprint(kind, args[i])
  {
    if args != [] {
      var n := |args| - 1;
      ReInitListKeysMembers(kind, args[..n], k);
      if k in ReInitListKeys(kind, args) {
        if k !in ReInitKeys(kind, args[n]) {
          var i :| 0 <= i < n && FactoryDispatch(kind, args[..n][i]).ById? && k in Footprint(kind, args[..n][i]);
          assert args[i] == args[..n][i];
        }
      } else {
        forall i | 0 <= i < |args| && FactoryDispatch(kind, args[i]).ById?
          ensures k !in Footprint(kind, args[i])
        {
          if i < n {
            assert args[..n][i] == args[i];
          }
        }
      }
    }
  }

  /** The objects the list arguments of `Task.__init__` re-initialise. */
  function TaskReInitKeys(a: TaskArgs): set<Key> {
    ReInitListKeys(Entity, a.entities) + ReInitListKeys(Corpus, a.corpora) + ReInitListKeys(Annotator, a.annotators)
    + ReInitListKeys(Annotation, a.annotations) + ReInitListKeys(Document, a.documents)
  }

  /** The objects resolving an annotation's entity, task and annotator
      re-initialises. */
  function RefsReInitKeys(a: AnnotationArgs): set<Key> {
    ReInitKeys(Entity, EntityArg(a)) + ReInitKeys(Task, TaskArg(a)) + ReInitKeys(Annotator, AnnotatorArg(a))
  }

  /** The objects `TargetFactory.from_dict(d)` re-initialises through the
      `Document.factory` call on its source. */
  function DictReInitKeys(d: map<string, Value>): set<Key> {
    if d != map[] && "source" in d then ReInitKeys(Document, d["source"]) else {}
  }

  /** The objects `TargetFactory.factory(arg)` re-initialises: only a
      dictionary, given as it is or as JSON text, reaches a document. */
  function TargetReInitKeys(arg: Value, env: Env): set<Key> {
    match arg
    case DictV(d) => DictReInitKeys(d)
    case Str(s) =>
      (match env.jsonLoads(ReplaceQuotes(s))
       case Some(DictV(d)) => DictReInitKeys(d)
       case _ => {})
    case _ => {}
  }

  /** The objects the statements of `Annotation.__init__` after the
      references re-initialise: the document's, then the target's. */
  function TailReInitKeys(a: AnnotationArgs, env: Env): set<Key> {
    ReInitKeys(Document, DocumentArg(a)) + TargetReInitKeys(a.target, env)
  }

  /** The objects `Annotation.__init__` re-initialises. */
  function AnnotationReInitKeys(a: AnnotationArgs, env: Env): set<Key> {
    RefsReInitKeys(a) + TailReInitKeys(a, env)
  }

  /** The attributes an annotation's document has once `__init__` has
      completed, given those it had before: the factory call on the
      document, the tracking of the annotation `a`, and the factory call on
      the target's source when that re-initialises the same document. */
  function DocumentAfterInit(a: Key, args: AnnotationArgs, env: Env, docAttrs: map<string, Value>): map<string, Value>
    requires TrackError(args, docAttrs).None?
  {
    var tracked := Tracking(DocumentAfterFactory(docAttrs, DocumentArg(args)), a, args.autoTrack);
    if DocKey(args) in TargetReInitKeys(args.target, env) then MergeAll(tracked, DefaultUpdates(Document)) else tracked
  }
}
