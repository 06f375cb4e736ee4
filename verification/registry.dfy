/** The identity registries (`RegistryMixin`) and everything that changes
    them: get-or-create by id, `register`, `setattr`, `factory`, the entity
    constructors, `TargetFactory` and `Annotation.copy`.

    Python's `cls(...)` is `__new__` (get-or-create by id) followed by
    `__init__` (a run of `setattr` merges); here that is `Construct*`, a call
    to `GetOrCreate` followed by the matching `Init*`.

    Every call that may reach other objects takes a frame, whole classes
    `kinds` and single objects `keys`, that must cover what the call can
    reach, and promises to change nothing outside it. */
module Registry {
  import opened Values
  import opened Attributes
  import opened Selectors
  import opened References
  import opened Reconstruction

  class Registry {
    /** The per-class registries, flattened: an entry per (class, id), holding
        that object's attributes. */
    var store: Store

    constructor ()
      ensures store == map[]
    {
      store := map[];
    }

    /** The attributes of the object registered under `k`; none if absent. */
    ghost function AttrsAt(k: Key): map<string, Value>
      reads this
    {
      if k in store then store[k] else map[]
    }

    /** What a call may change: no entry is ever dropped, new entries and
        changed attributes belong to classes in `kinds` or to objects in
        `keys`. */
    twostate predicate OnlyTouches(kinds: set<Kind>, keys: set<Key>)
      reads this
    {
      Touches(old(store), store, kinds, keys)
    }

    /** No registered document stops tracking an annotation. */
    twostate predicate TrackedGrows()
      reads this
    {
      Grows(old(store), store)
    }

    /** `RegistryMixin.__new__`: the registered object for the id, or a new
        object stamped with the id and registered under it. */
    method GetOrCreate(kind: Kind, id: string) returns (k: Key)
      modifies this
      ensures k == Key(kind, id) && k in store
      ensures k in old(store) ==> store == old(store)
      ensures k !in old(store) ==> store == old(store)[k := map[]]
    {
      k := Key(kind, id);
      if k !in store {
        store := store[k := map[]];
      }
    }

    /** `RegistryMixin.register`: store the object under its own id. The
        object is registered already, so the registry is as it was. */
    method Register(k: Key)
      requires k in store
      modifies this
      ensures store == old(store)
    {
      store := store[k := store[k]];
    }

    /** `RegistryMixin.setattr(name, value)` on the object `k`. */
    method SetAttr(k: Key, name: string, value: Value) returns (applied: bool)
      requires k in store
      modifies this
      ensures store == old(store)[k := Merge(old(store)[k], name, value).attrs]
      ensures applied == Merge(old(store)[k], name, value).applied
    {
      var attrs := store[k];
      if name !in attrs {
        applied := true;
      } else if attrs[name] == NoneV {
        applied := true;
      } else if !IsEmptyCandidate(value) {
        applied := true;
      } else {
        applied := false;
      }
      if applied {
        store := store[k := attrs[name := value]];
      }
    }

    /** One `setattr` of an `__init__` run, where `todo` is the part of the
        run still to come: the call performs its first update, and what is
        left of the run then leads to the same attributes. */
    method SetStep(k: Key, name: string, value: Value, ghost todo: Updates) returns (ghost rest: Updates)
      requires k in store && todo.Then? && todo.name == name && todo.value == value
      modifies this
      ensures rest == todo.rest
      ensures store == old(store)[k := Merge(old(store)[k], name, value).attrs]
      ensures MergeAll(store[k], rest) == MergeAll(old(store)[k], todo)
    {
      var _ := SetAttr(k, name, value);
      rest := todo.rest;
    }

    /** `kind.factory(arg)` (`FromIdFactoryMixin.factory`): `None` resolves
        the instance with id `'default'`, an instance of the class is returned
        as it is, a string resolves the instance with that id, and anything
        else raises. Only the object returned and the defaults its
        constructor falls back on can change. */
    method Resolve(kind: Kind, arg: Value, env: Env, ghost kinds: set<Kind>, ghost keys: set<Key>)
      returns (r: Result<Key>)
      requires Within({}, Footprint(kind, arg), kinds, keys)
      modifies this
      ensures OnlyTouches(kinds, keys)
      ensures kind == Document ==> TrackedGrows()
      ensures r.Ok? <==> Resolvable(kind, arg)
      ensures r.Ok? ==> r.value == RefKey(kind, arg)
      ensures FactoryDispatch(kind, arg).Rejected? ==> r == Err(NoFactoryMethod(TypeName(arg)))
      ensures !FactoryDispatch(kind, arg).ById? ==> store == old(store)
      ensures r.Ok? ==> store == ReInitStore(old(store), ReInitKeys(kind, arg))
      ensures r.Ok? && FactoryDispatch(kind, arg).ById? ==>
                r.value in store && store[r.value] == MergeAll(old(AttrsAt(r.value)), DefaultUpdates(kind))
      decreases 0, ResolveLevel(kind), 1
    {
      match FactoryDispatch(kind, arg)
      case Rejected(name) =>
        r := Err(NoFactoryMethod(name));
      case Existing(k) =>
        ReInitStoreNone(store);
        r := Ok(k);
      case ById(id) =>
        r := ResolveId(kind, id, env, kinds, keys);
    }

    /** `kind(unique_id=id)`: the constructor re-run with default arguments.
        For an annotation this always raises, since no target is given. */
    method ResolveId(kind: Kind, id: string, env: Env, ghost kinds: set<Kind>, ghost keys: set<Key>)
      returns (r: Result<Key>)
      requires Within({}, {Key(kind, id)} + DefaultKeys(kind), kinds, keys)
      modifies this
      ensures OnlyTouches(kinds, keys)
      ensures kind == Document ==> TrackedGrows()
      ensures r.Ok? <==> kind != Annotation
      ensures r.Ok? ==> r.value == Key(kind, id)
      ensures r.Ok? ==> store == ReInitStore(old(store), {Key(kind, id)} + DefaultKeys(kind))
      decreases 0, ResolveLevel(kind), 0
    {
      var ids := IdArgs(Some(id), None);
      match kind {
        case Entity =>
          var e := ConstructEntity(ids, id, NoneV, NoneV);
          r := Ok(e);
        case Corpus =>
          r := ConstructCorpus(ids, id, DefaultCorpus, env, kinds, keys);
        case Document =>
          r := ConstructDocument(ids, id, DefaultDocument, env, kinds, keys);
        case Task =>
          r := ConstructTask(ids, id, DefaultTask, env, kinds, keys);
        case Annotator =>
          r := ConstructAnnotator(ids, id, DefaultAnnotator, env, kinds, keys);
        case Annotation =>
          r := ConstructDefaultAnnotation(id, env, kinds, keys);
      }
    }

    /** `Annotation(unique_id=id)`: with no target given, the constructor
        always raises. */
    method ConstructDefaultAnnotation(id: string, env: Env, ghost kinds: set<Kind>, ghost keys: set<Key>)
      returns (r: Result<Key>)
      requires Within({}, {Key(Annotation, id)} + DefaultKeys(Annotation), kinds, keys)
      modifies this
      ensures OnlyTouches(kinds, keys)
      ensures r.Err?
      decreases 0, 5, 4
    {
      r := ConstructAnnotation(IdArgs(Some(id), None), id, DefaultAnnotation, env, kinds, keys);
    }

    /** `[kind.factory(x) for x in args]`: the first failure aborts. */
    method ResolveAll(kind: Kind, args: seq<Value>, env: Env, ghost kinds: set<Kind>, ghost keys: set<Key>)
      returns (r: Result<seq<Value>>)
      requires Within(ListKinds(kind, args), ListKeys(kind, args), kinds, keys)
      modifies this
      ensures OnlyTouches(kinds, keys)
      ensures r.Ok? <==> AllResolvable(kind, args)
      ensures r.Ok? ==> r.value == ObjsIn(kind, args)
      ensures r.Ok? ==> store == ReInitStore(old(store), ReInitListKeys(kind, args))
      decreases |args|, 0, 0
    {
      var out: seq<Value> := [];
      var i := 0;
      ghost var re: set<Key> := {};
      ReInitStoreNone(store);
      while i < |args|
        invariant 0 <= i <= |args|
        invariant OnlyTouches(kinds, keys)
        invariant out == ObjsIn(kind, args[..i]) && AllResolvable(kind, args[..i])
        invariant re == ReInitListKeys(kind, args[..i]) && store == ReInitStore(old(store), re)
      {
        ghost var s := store;
        var x := Resolve(kind, args[i], env, kinds, keys);
        TouchesTrans(old(store), s, store, kinds, keys);
        if x.Err? {
          return Err(x.error);
        }
        ObjsInSnoc(kind, args, i);
        ReInitListStep(old(store), s, store, kind, args, i);
        re := ReInitListKeys(kind, args[..i + 1]);
        out := out + [Obj(x.value)];
        i := i + 1;
      }
      assert args[..i] == args;
      return Ok(out);
    }

    // ---- Entity ----

    method InitEntity(e: Key, name: Value, color: Value)
      requires e in store
      modifies this
      ensures store == old(store)[e := MergeAll(old(store)[e], EntityUpdates(name, color))]
    {
      ghost var todo := EntityUpdates(name, color);
      todo := SetStep(e, "name", name, todo);
      todo := SetStep(e, "color", color, todo);
      Register(e);
    }

    /** `Entity(name=..., color=..., unique_id=..., id=...)`. */
    method ConstructEntity(ids: IdArgs, generated: string, name: Value, color: Value) returns (e: Key)
      modifies this
      ensures e == Key(Entity, ChooseId(ids, generated))
      ensures store == old(store)[e := MergeAll(old(AttrsAt(e)), EntityUpdates(name, color))]
      ensures name == NoneV && color == NoneV ==> store == ReInitStore(old(store), {e} + DefaultKeys(Entity))
    {
      ghost var s0 := store;
      e := GetOrCreate(Entity, ChooseId(ids, generated));
      InitEntity(e, name, color);
      if name == NoneV && color == NoneV {
        ReInitStoreNone(s0);
        ReInitById(s0, store, {}, e, EntityUpdates(name, color));
      }
    }

    // ---- Corpus ----

    method InitCorpus(c: Key, args: CorpusArgs, env: Env, ghost kinds: set<Kind>, ghost keys: set<Key>)
      returns (r: Result<Key>)
      requires c in store && c.kind == Corpus
      requires Within(ListKinds(Document, args.documents), {c} + ListKeys(Document, args.documents), kinds, keys)
      modifies this
      ensures OnlyTouches(kinds, keys)
      ensures r.Ok? <==> AllResolvable(Document, args.documents)
      ensures r.Ok? ==> r.value == c
      ensures r.Ok? && (c.id != "default" || args.documents == []) ==>
                store[c] == MergeAll(old(store)[c], CorpusUpdates(args.name, args.description,
                                                                  ObjsIn(Document, args.documents)))
      ensures r.Ok? ==> store == ReInitStore(old(store), ReInitListKeys(Document, args.documents))[c := store[c]]
      decreases |args.documents|, 0, 2
    {
      ghost var todo := CorpusUpdates(args.name, args.description, ObjsIn(Document, args.documents));
      ghost var s0 := store;
      todo := SetStep(c, "name", args.name, todo);
      TouchesUpdate(s0, c, store[c], kinds, keys);
      ghost var s := store;
      todo := SetStep(c, "description", args.description, todo);
      TouchesStep(s0, s, c, store[c], kinds, keys);
      SetTwice(s0, c, s[c], store[c]);
      if |args.documents| > 0 {
        ghost var s1 := store;
        ghost var merged := MergeAll(s1[c], todo);
        assert c.id != "default" ==> c !in ListKeys(Document, args.documents);
        var docs;
        docs, todo := ResolveInto(c, "documents", Document, args.documents, env, todo, kinds, keys);
        TouchesTrans(s0, s1, store, kinds, keys);
        if docs.Err? {
          return Err(docs.error);
        }
        assert c.id != "default" ==> MergeAll(store[c], todo) == merged;
        ReInitStoreAfterSet(s0, ReInitListKeys(Document, args.documents), c, s1[c], store[c]);
      } else {
        ReInitStoreNone(s0);
      }
      Register(c);
      r := Ok(c);
    }

    /** `Corpus(name=..., description=..., documents=[...], unique_id=..., id=...)`;
        the documents are resolved and stored only when the list is not empty. */
    method ConstructCorpus(ids: IdArgs, generated: string, args: CorpusArgs, env: Env,
                           ghost kinds: set<Kind>, ghost keys: set<Key>) returns (r: Result<Key>)
      requires Within(ListKinds(Document, args.documents),
                      {Key(Corpus, ChooseId(ids, generated))} + ListKeys(Document, args.documents), kinds, keys)
      modifies this
      ensures OnlyTouches(kinds, keys)
      ensures r.Ok? <==> AllResolvable(Document, args.documents)
      ensures r.Ok? ==> r.value == Key(Corpus, ChooseId(ids, generated)) && r.value in store
      ensures r.Ok? && (r.value.id != "default" || args.documents == []) ==>
                store[r.value] == MergeAll(old(AttrsAt(r.value)),
                                           CorpusUpdates(args.name, args.description, ObjsIn(Document, args.documents)))
      ensures r.Ok? ==> store == ReInitStore(old(store), ReInitListKeys(Document, args.documents))[r.value := store[r.value]]
      ensures r.Ok? && args == DefaultCorpus ==> store == ReInitStore(old(store), {r.value} + DefaultKeys(Corpus))
      decreases |args.documents|, 0, 3
    {
      ghost var s0 := store;
      var c := GetOrCreate(Corpus, ChooseId(ids, generated));
      if c in s0 {
        TouchesRefl(s0, kinds, keys);
      } else {
        TouchesUpdate(s0, c, map[], kinds, keys);
      }
      ghost var s1 := store;
      r := InitCorpus(c, args, env, kinds, keys);
      TouchesTrans(s0, s1, store, kinds, keys);
      if r.Ok? && c !in s0 {
        ReInitStoreAfterSet(s0, ReInitListKeys(Document, args.documents), c, map[], store[c]);
      }
      if r.Ok? && args == DefaultCorpus {
        ReInitById(s0, store, ReInitListKeys(Document, args.documents), c,
                   CorpusUpdates(args.name, args.description, ObjsIn(Document, args.documents)));
      }
    }

    // ---- Document ----

    method InitDocument(d: Key, args: DocumentArgs, env: Env, ghost kinds: set<Kind>, ghost keys: set<Key>)
      returns (r: Result<Key>)
      requires d in store && d.kind == Document
      requires Within({}, {d} + Footprint(Corpus, args.corpus), kinds, keys)
      modifies this
      ensures OnlyTouches(kinds, keys)
      ensures TrackedGrows()
      ensures r.Ok? <==> Resolvable(Corpus, args.corpus)
      ensures r.Ok? ==> (r.value == d &&
                store[d] == MergeAll(old(store)[d], DocumentUpdates(args.uri, args.content, RefKey(Corpus, args.corpus))))
      ensures r.Ok? ==> store == ReInitStore(old(store), ReInitKeys(Corpus, args.corpus))[d := store[d]]
      decreases 0, 2, 1
    {
      ghost var todo := DocumentUpdates(args.uri, args.content, RefKey(Corpus, args.corpus));
      ghost var s0 := store;
      MergeKeepsTracked(store[d], "uri", args.uri);
      todo := SetStep(d, "uri", args.uri, todo);
      GrowsUpdate(s0, d, store[d]);
      TouchesUpdate(s0, d, store[d], kinds, keys);
      ghost var s1 := store;
      MergeKeepsTracked(store[d], "content", args.content);
      todo := SetStep(d, "content", args.content, todo);
      GrowsUpdate(s1, d, store[d]);
      GrowsTrans(s0, s1, store);
      TouchesUpdate(s1, d, store[d], kinds, keys);
      TouchesTrans(s0, s1, store, kinds, keys);
      SetTwice(s0, d, s1[d], store[d]);
      ghost var s2 := store;
      ghost var fp: set<Key>, none: set<Kind> := Footprint(Corpus, args.corpus), {};
      var corpus := Resolve(Corpus, args.corpus, env, none, fp);
      TouchesWiden(s2, store, none, fp, kinds, keys);
      TouchesTrans(s0, s2, store, kinds, keys);
      TouchesGrows(s2, store, none, fp);
      GrowsTrans(s0, s2, store);
      if corpus.Err? {
        return Err(corpus.error);
      }
      TouchesFrame(s2, store, none, fp, d);
      ghost var s3 := store;
      MergeKeepsTracked(store[d], "corpus", Obj(corpus.value));
      todo := SetStep(d, "corpus", Obj(corpus.value), todo);
      GrowsUpdate(s3, d, store[d]);
      GrowsTrans(s0, s3, store);
      TouchesUpdate(s3, d, store[d], kinds, keys);
      TouchesTrans(s0, s3, store, kinds, keys);
      ghost var s4 := store;
      MergeKeepsTracked(store[d], "annotations", SetV([]));
      todo := SetStep(d, "annotations", SetV([]), todo);
      GrowsUpdate(s4, d, store[d]);
      GrowsTrans(s0, s4, store);
      TouchesUpdate(s4, d, store[d], kinds, keys);
      TouchesTrans(s0, s4, store, kinds, keys);
      SetTwice(s3, d, s4[d], store[d]);
      ReInitStoreAfterSet(s0, ReInitKeys(Corpus, args.corpus), d, s2[d], store[d]);
      Register(d);
      r := Ok(d);
    }

    /** `Document(content=..., uri=..., corpus=..., unique_id=..., id=...)`: the
        corpus goes through `Corpus.factory`, and the tracked annotations start
        as an empty set unless the document already tracks some. */
    method ConstructDocument(ids: IdArgs, generated: string, args: DocumentArgs, env: Env,
                             ghost kinds: set<Kind>, ghost keys: set<Key>) returns (r: Result<Key>)
      requires Within({}, {Key(Document, ChooseId(ids, generated))} + Footprint(Corpus, args.corpus), kinds, keys)
      modifies this
      ensures OnlyTouches(kinds, keys)
      ensures TrackedGrows()
      ensures r.Ok? <==> Resolvable(Corpus, args.corpus)
      ensures r.Ok? ==> (r.value == Key(Document, ChooseId(ids, generated)) && r.value in store &&
                store[r.value] == MergeAll(old(AttrsAt(r.value)),
                                           DocumentUpdates(args.uri, args.content, RefKey(Corpus, args.corpus))))
      ensures r.Ok? ==> store == ReInitStore(old(store), ReInitKeys(Corpus, args.corpus))[r.value := store[r.value]]
      ensures r.Ok? && args == DefaultDocument ==> store == ReInitStore(old(store), {r.value} + DefaultKeys(Document))
      decreases 0, 2, 2
    {
      ghost var s0 := store;
      var d := GetOrCreate(Document, ChooseId(ids, generated));
      if d in s0 {
        TouchesRefl(s0, kinds, keys);
      } else {
        TouchesUpdate(s0, d, map[], kinds, keys);
        GrowsUpdate(s0, d, map[]);
      }
      ghost var s1 := store;
      r := InitDocument(d, args, env, kinds, keys);
      TouchesTrans(s0, s1, store, kinds, keys);
      GrowsTrans(s0, s1, store);
      if r.Ok? && d !in s0 {
        ReInitStoreAfterSet(s0, ReInitKeys(Corpus, args.corpus), d, map[], store[d]);
      }
      if r.Ok? && args == DefaultDocument {
        DocumentReInitById(s0, store, d);
      }
    }

    // ---- Task ----

    /** One list argument of `Task.__init__`: `[kind.factory(x) for x in items]`
        followed by the `setattr` of the resulting list on `t`. */
    method ResolveInto(t: Key, name: string, kind: Kind, items: seq<Value>, env: Env, ghost todo: Updates,
                       ghost kinds: set<Kind>, ghost keys: set<Key>)
      returns (r: Result<seq<Value>>, ghost rest: Updates)
      requires t in store && todo.Then? && todo.name == name && todo.value == ListV(ObjsIn(kind, items))
      requires Within(ListKinds(kind, items), {t} + ListKeys(kind, items), kinds, keys)
      modifies this
      ensures OnlyTouches(kinds, keys)
      ensures r.Ok? <==> AllResolvable(kind, items)
      ensures rest == todo.rest
      ensures r.Ok? && t.kind != kind && t !in ListKeys(kind, items) ==>
                MergeAll(store[t], rest) == MergeAll(old(store)[t], todo)
      ensures r.Ok? ==> store == ReInitStore(old(store), ReInitListKeys(kind, items))[t := store[t]]
      decreases |items|, 0, 1
    {
      rest := todo.rest;
      ghost var s0 := store;
      ghost var lkinds, lkeys := ListKinds(kind, items), ListKeys(kind, items);
      r := ResolveAll(kind, items, env, lkinds, lkeys);
      TouchesWiden(s0, store, lkinds, lkeys, kinds, keys);
      if r.Err? {
        return;
      }
      if t.kind != kind && t !in lkeys {
        TouchesFrame(s0, store, lkinds, lkeys, t);
      }
      ghost var s1 := store;
      rest := SetStep(t, name, ListV(r.value), todo);
      TouchesUpdate(s1, t, store[t], kinds, keys);
      TouchesTrans(s0, s1, store, kinds, keys);
    }

    method InitTask(t: Key, args: TaskArgs, env: Env, ghost kinds: set<Kind>, ghost keys: set<Key>)
      returns (r: Result<Key>)
      requires t in store && t.kind == Task
      requires Within(TaskKinds(args), {t} + TaskKeys(args), kinds, keys)
      modifies this
      ensures OnlyTouches(kinds, keys)
      ensures r.Ok? <==> TaskResolvable(args)
      ensures r.Ok? ==> r.value == t
      ensures r.Ok? && t !in TaskKeys(args) ==> store[t] == MergeAll(old(store)[t], TaskUpdatesIn(args))
      ensures r.Ok? ==> store == ReInitStore(old(store), TaskReInitKeys(args))[t := store[t]]
      decreases TaskSize(args), 0, 2
    {
      ghost var todo := TaskUpdatesIn(args);
      ghost var s0 := store;
      todo := SetStep(t, "name", args.name, todo);
      TouchesUpdate(s0, t, store[t], kinds, keys);
      ghost var s := store;
      todo := SetStep(t, "description", args.description, todo);
      TouchesStep(s0, s, t, store[t], kinds, keys);
      SetTwice(s0, t, s[t], store[t]);
      var entities, corpora, annotators, annotations, documents;
      ghost var s1 := store;
      ghost var re := ReInitListKeys(Entity, args.entities);
      entities, todo := ResolveInto(t, "entities", Entity, args.entities, env, todo, kinds, keys);
      TouchesTrans(s0, s1, store, kinds, keys);
      if entities.Err? { return Err(entities.error); }
      ReInitStoreAfterSet(s0, re, t, s1[t], store[t]);
      s1 := store;
      ghost var rk := ReInitListKeys(Corpus, args.corpora);
      corpora, todo := ResolveInto(t, "corpora", Corpus, args.corpora, env, todo, kinds, keys);
      TouchesTrans(s0, s1, store, kinds, keys);
      if corpora.Err? { return Err(corpora.error); }
      ReInitStoreThen(s0, re, rk, t, s1[t], store[t]);
      re := re + rk;
      s1 := store;
      rk := ReInitListKeys(Annotator, args.annotators);
      annotators, todo := ResolveInto(t, "annotators", Annotator, args.annotators, env, todo, kinds, keys);
      TouchesTrans(s0, s1, store, kinds, keys);
      if annotators.Err? { return Err(annotators.error); }
      ReInitStoreThen(s0, re, rk, t, s1[t], store[t]);
      re := re + rk;
      s1 := store;
      rk := ReInitListKeys(Annotation, args.annotations);
      annotations, todo := ResolveInto(t, "annotations", Annotation, args.annotations, env, todo, kinds, keys);
      TouchesTrans(s0, s1, store, kinds, keys);
      if annotations.Err? { return Err(annotations.error); }
      ReInitStoreThen(s0, re, rk, t, s1[t], store[t]);
      re := re + rk;
      s1 := store;
      rk := ReInitListKeys(Document, args.documents);
      documents, todo := ResolveInto(t, "documents", Document, args.documents, env, todo, kinds, keys);
      TouchesTrans(s0, s1, store, kinds, keys);
      if documents.Err? { return Err(documents.error); }
      ReInitStoreThen(s0, re, rk, t, s1[t], store[t]);
      Register(t);
      r := Ok(t);
    }

    /** `Task(name=..., description=..., entities=[...], corpora=[...],
        annotators=[...], documents=[...], annotations=[...], unique_id=..., id=...)`:
        each list goes through the matching `factory`, in this order. */
    method ConstructTask(ids: IdArgs, generated: string, args: TaskArgs, env: Env,
                         ghost kinds: set<Kind>, ghost keys: set<Key>) returns (r: Result<Key>)
      requires Within(TaskKinds(args), {Key(Task, ChooseId(ids, generated))} + TaskKeys(args), kinds, keys)
      modifies this
      ensures OnlyTouches(kinds, keys)
      ensures r.Ok? <==> TaskResolvable(args)
      ensures r.Ok? ==> r.value == Key(Task, ChooseId(ids, generated)) && r.value in store
      ensures r.Ok? && r.value !in TaskKeys(args) ==>
                store[r.value] == MergeAll(old(AttrsAt(r.value)), TaskUpdatesIn(args))
      ensures r.Ok? ==> store == ReInitStore(old(store), TaskReInitKeys(args))[r.value := store[r.value]]
      ensures r.Ok? && args == DefaultTask ==> store == ReInitStore(old(store), {r.value} + DefaultKeys(Task))
      decreases TaskSize(args), 0, 3
    {
      ghost var s0 := store;
      var t := GetOrCreate(Task, ChooseId(ids, generated));
      if t in s0 {
        TouchesRefl(s0, kinds, keys);
      } else {
        TouchesUpdate(s0, t, map[], kinds, keys);
      }
      ghost var s1 := store;
      r := InitTask(t, args, env, kinds, keys);
      TouchesTrans(s0, s1, store, kinds, keys);
      if r.Ok? && t !in s0 {
        ReInitStoreAfterSet(s0, TaskReInitKeys(args), t, map[], store[t]);
      }
      if r.Ok? && args == DefaultTask {
        ReInitById(s0, store, TaskReInitKeys(args), t, TaskUpdatesIn(args));
      }
    }

    // ---- Annotator ----

    /** The `setattr` calls of `Annotator.__init__` after the task is
        resolved: task, owner, model (`'MACHINE'` when missing), entity id
        and threshold. Only the annotator changes. */
    method SetAnnotatorFields(a: Key, args: AnnotatorArgs, task: Key)
      requires a in store
      modifies this
      ensures a in store && store == old(store)[a := store[a]]
      ensures MergeAll(old(store)[a], AnnotatorUpdates(args, task).rest)
              == store[a]
    {
      ghost var todo := AnnotatorUpdates(args, task).rest;
      ghost var s0 := store;
      todo := SetStep(a, "task", Obj(task), todo);
      ghost var s := store;
      todo := SetStep(a, "owner", args.owner, todo);
      SetTwice(s0, a, s[a], store[a]);
      s := store;
      todo := SetStep(a, "model", ModelOrMachine(args.model), todo);
      SetTwice(s0, a, s[a], store[a]);
      s := store;
      todo := SetStep(a, "entity_id", args.entityId, todo);
      SetTwice(s0, a, s[a], store[a]);
      s := store;
      todo := SetStep(a, "threshold", args.threshold, todo);
      SetTwice(s0, a, s[a], store[a]);
    }

    method InitAnnotator(a: Key, args: AnnotatorArgs, env: Env, ghost kinds: set<Kind>, ghost keys: set<Key>)
      returns (r: Result<Key>)
      requires a in store && a.kind == Annotator
      requires Within({}, {a} + Footprint(Task, args.task), kinds, keys)
      modifies this
      ensures OnlyTouches(kinds, keys)
      ensures r.Ok? <==> Resolvable(Task, args.task)
      ensures r.Ok? ==> (r.value == a &&
                store[a] == MergeAll(old(store)[a], AnnotatorUpdates(args, RefKey(Task, args.task))))
      ensures r.Ok? ==> store == ReInitStore(old(store), ReInitKeys(Task, args.task))[a := store[a]]
      decreases 0, 2, 1
    {
      ghost var todo := AnnotatorUpdates(args, RefKey(Task, args.task));
      ghost var s0 := store;
      todo := SetStep(a, "name", args.name, todo);
      TouchesUpdate(s0, a, store[a], kinds, keys);
      ghost var s1 := store;
      ghost var fp: set<Key>, none: set<Kind> := Footprint(Task, args.task), {};
      var task := Resolve(Task, args.task, env, none, fp);
      TouchesWiden(s1, store, none, fp, kinds, keys);
      TouchesTrans(s0, s1, store, kinds, keys);
      if task.Err? {
        return Err(task.error);
      }
      TouchesFrame(s1, store, none, fp, a);
      ghost var x := ReInitStore(s0, ReInitKeys(Task, args.task));
      SetSame(store, a);
      ReInitStoreAfterSet(s0, ReInitKeys(Task, args.task), a, s1[a], store[a]);
      ghost var s2 := store;
      SetAnnotatorFields(a, args, task.value);
      SetTwice(x, a, s2[a], store[a]);
      TouchesUpdate(s2, a, store[a], kinds, keys);
      TouchesTrans(s0, s2, store, kinds, keys);
      Register(a);
      r := Ok(a);
    }

    /** `Annotator(name=..., model=..., task=..., entity_id=..., threshold=...,
        owner=..., unique_id=..., id=...)`: a missing model becomes `'MACHINE'`. */
    method ConstructAnnotator(ids: IdArgs, generated: string, args: AnnotatorArgs, env: Env,
                              ghost kinds: set<Kind>, ghost keys: set<Key>) returns (r: Result<Key>)
      requires Within({}, {Key(Annotator, ChooseId(ids, generated))} + Footprint(Task, args.task), kinds, keys)
      modifies this
      ensures OnlyTouches(kinds, keys)
      ensures r.Ok? <==> Resolvable(Task, args.task)
      ensures r.Ok? ==> (r.value == Key(Annotator, ChooseId(ids, generated)) && r.value in store &&
                store[r.value] == MergeAll(old(AttrsAt(r.value)), AnnotatorUpdates(args, RefKey(Task, args.task))))
      ensures r.Ok? ==> store == ReInitStore(old(store), ReInitKeys(Task, args.task))[r.value := store[r.value]]
      ensures r.Ok? && args == DefaultAnnotator ==> store == ReInitStore(old(store), {r.value} + DefaultKeys(Annotator))
      decreases 0, 2, 2
    {
      ghost var s0 := store;
      var a := GetOrCreate(Annotator, ChooseId(ids, generated));
      if a in s0 {
        TouchesRefl(s0, kinds, keys);
      } else {
        TouchesUpdate(s0, a, map[], kinds, keys);
      }
      ghost var s1 := store;
      r := InitAnnotator(a, args, env, kinds, keys);
      TouchesTrans(s0, s1, store, kinds, keys);
      if r.Ok? && a !in s0 {
        ReInitStoreAfterSet(s0, ReInitKeys(Task, args.task), a, map[], store[a]);
      }
      if r.Ok? && args == DefaultAnnotator {
        ReInitById(s0, store, ReInitKeys(Task, args.task), a, AnnotatorUpdates(args, RefKey(Task, args.task)));
      }
    }

    // ---- Target ----

    /** `TargetFactory.from_dict(d)`, with the side effects of the
        `Document.factory` call on the source. */
    method ResolveTargetDict(d: map<string, Value>, env: Env, ghost kinds: set<Kind>, ghost keys: set<Key>)
      returns (r: Result<Target>)
      requires Within({Document}, {Key(Corpus, "default")}, kinds, keys)
      modifies this
      ensures OnlyTouches(kinds, keys) && TrackedGrows()
      ensures r == TargetOfDict(d)
      ensures store == ReInitStore(old(store), DictReInitKeys(d))
      decreases 0, 4, 0
    {
      ReInitStoreNone(store);
      if d == map[] {
        return Ok(Target(NoneV, []));
      }
      if "source" !in d {
        return Err(KeyError("source"));
      }
      var doc :- Resolve(Document, d["source"], env, kinds, keys);
      r := TargetFromDict(Obj(doc), d);
    }

    /** `TargetFactory.factory(data)`. */
    method ResolveTarget(arg: Value, env: Env, ghost kinds: set<Kind>, ghost keys: set<Key>)
      returns (r: Result<Target>)
      requires Within(TargetKinds(arg), TargetKeys(arg), kinds, keys)
      modifies this
      ensures OnlyTouches(kinds, keys) && TrackedGrows()
      ensures r == TargetOf(arg, env)
      ensures store == ReInitStore(old(store), TargetReInitKeys(arg, env))
      decreases 0, 4, 1
    {
      ReInitStoreNone(store);
      match arg {
        case TargetV(t) =>
          r := Ok(t);
        case DictV(d) =>
          r := ResolveTargetDict(d, env, kinds, keys);
        case Str(s) =>
          match env.jsonLoads(ReplaceQuotes(s)) {
            case None =>
              r := Err(ValueError("Expecting value"));
            case Some(DictV(d)) =>
              r := ResolveTargetDict(d, env, kinds, keys);
            case Some(v) =>
              r := Err(TypeError(TypeName(v)));
          }
        case _ =>
          r := Err(NotImplemented(TypeName(arg)));
      }
    }

    // ---- Annotation ----

    /** `self.<name> = <kind>.factory(arg)` on the object `a`: the reference
        is resolved, then stored through `setattr`. */
    method SetReference(a: Key, name: string, kind: Kind, arg: Value, env: Env,
                        ghost todo: Updates, ghost kinds: set<Kind>, ghost keys: set<Key>)
      returns (r: Result<Key>, ghost rest: Updates)
      requires kind != Annotation
      requires a in store && a.kind != kind && a !in DefaultKeys(kind)
      requires todo.Then? && todo.name == name && todo.value == Obj(RefKey(kind, arg))
      requires Within({}, {a} + Footprint(kind, arg), kinds, keys)
      modifies this
      ensures OnlyTouches(kinds, keys)
      ensures r.Ok? <==> Resolvable(kind, arg)
      ensures r.Err? ==> r.error == NoFactoryMethod(TypeName(arg))
      ensures r.Ok? ==> (r.value == RefKey(kind, arg) && rest == todo.rest &&
                MergeAll(store[a], rest) == MergeAll(old(store)[a], todo))
      ensures r.Ok? ==> store == ReInitStore(old(store), ReInitKeys(kind, arg))[a := store[a]]
      decreases 0, ResolveLevel(kind), 2
    {
      rest := todo;
      ghost var s0 := store;
      ghost var fp: set<Key>, none: set<Kind> := Footprint(kind, arg), {};
      r := Resolve(kind, arg, env, none, fp);
      TouchesWiden(s0, store, none, fp, kinds, keys);
      if r.Err? {
        return;
      }
      TouchesFrame(s0, store, none, fp, a);
      ghost var s1 := store;
      rest := SetStep(a, name, Obj(r.value), todo);
      TouchesStep(s0, s1, a, store[a], kinds, keys);
    }

    /** `self.entity = Entity.factory(entity)`, then `self.score` and
        `self.body`: the first three statements of `Annotation.__init__`. */
    method SetEntityScoreBody(a: Key, args: AnnotationArgs, ghost todo: Updates, env: Env,
                              ghost kinds: set<Kind>, ghost keys: set<Key>)
      returns (err: Option<Error>, ghost rest: Updates)
      requires a in store && a.kind == Annotation
      requires todo == AnnotationUpdatesIn(args, env)
      requires Within({}, {a} + Footprint(Entity, EntityArg(args)), kinds, keys)
      modifies this
      ensures OnlyTouches(kinds, keys)
      ensures err.None? <==> Resolvable(Entity, EntityArg(args))
      ensures err.Some? ==> err == Some(NoFactoryMethod(TypeName(EntityArg(args))))
      ensures err.None? ==> (rest == todo.rest.rest.rest &&
                MergeAll(store[a], rest) == MergeAll(old(store)[a], todo))
      ensures err.None? ==> store == ReInitStore(old(store), ReInitKeys(Entity, EntityArg(args)))[a := store[a]]
      decreases 0, 5, 0
    {
      rest := todo;
      ghost var s0 := store;
      var entity;
      entity, rest := SetReference(a, "entity", Entity, EntityArg(args), env, rest, kinds, keys);
      if entity.Err? {
        return Some(entity.error), rest;
      }
      ghost var x := ReInitStore(s0, ReInitKeys(Entity, EntityArg(args)));
      ghost var s := store;
      rest := SetStep(a, "score", args.score, rest);
      TouchesStep(s0, s, a, store[a], kinds, keys);
      SetTwice(x, a, s[a], store[a]);
      s := store;
      rest := SetStep(a, "body", args.body, rest);
      TouchesStep(s0, s, a, store[a], kinds, keys);
      SetTwice(x, a, s[a], store[a]);
      err := None;
    }

    /** The first statements of `Annotation.__init__`: the entity, score,
        body, task and annotator, each reference through its factory. No
        document changes. */
    method InitReferences(a: Key, args: AnnotationArgs, env: Env, ghost todo: Updates,
                          ghost kinds: set<Kind>, ghost keys: set<Key>)
      returns (err: Option<Error>, ghost rest: Updates)
      requires a in store && a.kind == Annotation
      requires todo == AnnotationUpdatesIn(args, env)
      requires Within({}, {a} + Footprint(Entity, EntityArg(args)) + Footprint(Task, TaskArg(args))
                          + Footprint(Annotator, AnnotatorArg(args)), kinds, keys)
      modifies this
      ensures OnlyTouches(kinds, keys)
      ensures err == ReferencesError(args)
      ensures err.None? ==> (rest == todo.rest.rest.rest.rest.rest &&
                MergeAll(store[a], rest) == MergeAll(old(store)[a], todo))
      ensures err.None? ==> store == ReInitStore(old(store), RefsReInitKeys(args))[a := store[a]]
      decreases 0, 5, 1
    {
      ghost var s0 := store;
      err, rest := SetEntityScoreBody(a, args, todo, env, kinds, keys);
      if err.Some? {
        return;
      }
      ghost var re := ReInitKeys(Entity, EntityArg(args));
      ghost var s := store;
      var task, annotator;
      ghost var rk := ReInitKeys(Task, TaskArg(args));
      task, rest := SetReference(a, "task", Task, TaskArg(args), env, rest, kinds, keys);
      TouchesTrans(s0, s, store, kinds, keys);
      if task.Err? {
        return Some(task.error), rest;
      }
      ReInitStoreThen(s0, re, rk, a, s[a], store[a]);
      re := re + rk;
      s := store;
      rk := ReInitKeys(Annotator, AnnotatorArg(args));
      annotator, rest := SetReference(a, "annotator", Annotator, AnnotatorArg(args), env, rest, kinds, keys);
      TouchesTrans(s0, s, store, kinds, keys);
      if annotator.Err? {
        return Some(annotator.error), rest;
      }
      ReInitStoreThen(s0, re, rk, a, s[a], store[a]);
      err := None;
    }

    /** `self.document = Document.factory(document)`, then, with
        `auto_track`, `self.document.annotations.add(self)`. */
    method SetDocument(a: Key, args: AnnotationArgs, env: Env, ghost todo: Updates,
                       ghost kinds: set<Kind>, ghost keys: set<Key>) returns (err: Option<Error>, ghost rest: Updates)
      requires a in store && a.kind == Annotation
      requires todo.Then? && todo.name == "document" && todo.value == Obj(DocKey(args))
      requires Within({}, {a} + Footprint(Document, DocumentArg(args)), kinds, keys)
      modifies this
      ensures OnlyTouches(kinds, keys)
      ensures err == TrackError(args, old(AttrsAt(DocKey(args))))
      ensures err.None? ==> (rest == todo.rest && MergeAll(store[a], rest) == MergeAll(old(store)[a], todo))
      ensures err.None? && args.autoTrack ==> DocKey(args) in store && a in TrackedIn(store[DocKey(args)])
      ensures err.None? && !args.autoTrack ==>
                store == ReInitStore(old(store), ReInitKeys(Document, DocumentArg(args)))[a := store[a]]
      ensures err.None? && args.autoTrack ==>
                store == ReInitStore(old(store), ReInitKeys(Document, DocumentArg(args)))[a := store[a]]
                           [DocKey(args) := Tracking(DocumentAfterFactory(old(AttrsAt(DocKey(args))), DocumentArg(args)),
                                                     a, true)]
      decreases 0, 5, 0
    {
      rest := todo;
      ghost var docAttrs := AttrsAt(DocKey(args));
      ghost var s0 := store;
      ghost var fp: set<Key>, none: set<Kind> := Footprint(Document, DocumentArg(args)), {};
      var document := Resolve(Document, DocumentArg(args), env, none, fp);
      TouchesWiden(s0, store, none, fp, kinds, keys);
      if document.Err? {
        return Some(document.error), rest;
      }
      TouchesFrame(s0, store, none, fp, a);
      assert AttrsAt(document.value) == DocumentAfterFactory(docAttrs, DocumentArg(args));
      ghost var s1 := store;
      rest := SetStep(a, "document", Obj(document.value), todo);
      TouchesStep(s0, s1, a, store[a], kinds, keys);
      if args.autoTrack {
        // `self.document` is the document just stored.
        ghost var s2 := store;
        err := AddTracked(document.value, a);
        if err.Some? {
          return err, rest;
        }
        TouchesStep(s0, s2, document.value, store[document.value], kinds, keys);
      }
      err := None;
    }

    /** `self.document.annotations.add(self)`: the document's annotations
        must exist and be a set. */
    method AddTracked(d: Key, a: Key) returns (err: Option<Error>)
      modifies this
      ensures err == if d !in old(store) || "annotations" !in old(store)[d] then Some(AttributeError("annotations"))
                     else if !old(store)[d]["annotations"].SetV? then Some(AttributeError("add"))
                     else None
      ensures err.Some? ==> store == old(store)
      ensures err.None? ==> store == old(store)[d := Tracking(old(store)[d], a, true)]
    {
      if d !in store || "annotations" !in store[d] {
        return Some(AttributeError("annotations"));
      }
      var tracked := store[d]["annotations"];
      if !tracked.SetV? {
        return Some(AttributeError("add"));
      }
      store := store[d := store[d]["annotations" := SetV(AddMember(tracked.members, a))]];
      err := None;
    }

    /** `self.target = TargetFactory.factory(target)`, then
        `self.created = created or datetime.now()`. */
    method SetTargetCreated(a: Key, args: AnnotationArgs, env: Env, ghost todo: Updates,
                            ghost kinds: set<Kind>, ghost keys: set<Key>) returns (err: Option<Error>, ghost rest: Updates)
      requires a in store && a.kind == Annotation
      requires todo.Then? && todo.name == "target" && todo.rest.Then? && todo.rest.name == "created"
      requires TargetOf(args.target, env).Ok? ==> todo.value == TargetV(TargetOf(args.target, env).value)
      requires CreatedValue(args.created, env).Ok? ==> todo.rest.value == CreatedValue(args.created, env).value
      requires Within(TargetKinds(args.target), {a} + TargetKeys(args.target), kinds, keys)
      modifies this
      ensures OnlyTouches(kinds, keys) && TrackedGrows()
      ensures err == TailError(args, env)
      ensures err.None? ==> (rest == todo.rest.rest && MergeAll(store[a], rest) == MergeAll(old(store)[a], todo))
      ensures err.None? ==> store == ReInitStore(old(store), TargetReInitKeys(args.target, env))[a := store[a]]
      decreases 0, 5, 0
    {
      rest := todo;
      ghost var s0 := store;
      ghost var tkinds, tkeys := TargetKinds(args.target), TargetKeys(args.target);
      var target := ResolveTarget(args.target, env, tkinds, tkeys);
      TouchesWiden(s0, store, tkinds, tkeys, kinds, keys);
      if target.Err? {
        return Some(target.error), rest;
      }
      TouchesFrame(s0, store, tkinds, tkeys, a);
      ghost var s1 := store;
      rest := SetStep(a, "target", TargetV(target.value), rest);
      TouchesStep(s0, s1, a, store[a], kinds, keys);
      MergeKeepsTracked(s1[a], "target", TargetV(target.value));
      GrowsUpdate(s1, a, store[a]);
      GrowsTrans(s0, s1, store);
      var created := CreatedValue(args.created, env);
      if created.Err? {
        return Some(created.error), rest;
      }
      ghost var s2 := store;
      rest := SetStep(a, "created", created.value, rest);
      TouchesStep(s0, s2, a, store[a], kinds, keys);
      SetTwice(s1, a, s2[a], store[a]);
      MergeKeepsTracked(s2[a], "created", created.value);
      GrowsUpdate(s2, a, store[a]);
      GrowsTrans(s0, s2, store);
      err := None;
    }

    /** The statements of `Annotation.__init__` after the references: the
        document with its auto-tracking, the target and `created`. */
    method InitTail(a: Key, args: AnnotationArgs, env: Env, ghost todo: Updates,
                    ghost kinds: set<Kind>, ghost keys: set<Key>) returns (err: Option<Error>)
      requires a in store && a.kind == Annotation
      requires todo == AnnotationUpdatesIn(args, env).rest.rest.rest.rest.rest
      requires Within(TargetKinds(args.target), {a} + Footprint(Document, DocumentArg(args)) + TargetKeys(args.target),
                      kinds, keys)
      modifies this
      ensures OnlyTouches(kinds, keys)
      ensures err == if TrackError(args, old(AttrsAt(DocKey(args)))).Some? then TrackError(args, old(AttrsAt(DocKey(args))))
                     else TailError(args, env)
      ensures err.None? ==> store[a] == MergeAll(old(store)[a], todo)
      ensures err.None? && args.autoTrack ==> DocKey(args) in store && a in TrackedIn(store[DocKey(args)])
      ensures err.None? && !args.autoTrack ==> store == ReInitStore(old(store), TailReInitKeys(args, env))[a := store[a]]
      ensures err.None? && args.autoTrack ==>
                store == ReInitStore(old(store), TailReInitKeys(args, env))[a := store[a]]
                           [DocKey(args) := DocumentAfterInit(a, args, env, old(AttrsAt(DocKey(args))))]
      decreases 0, 5, 1
    {
      ghost var s0 := store;
      ghost var rest;
      err, rest := SetDocument(a, args, env, todo, kinds, keys);
      if err.Some? {
        return;
      }
      ghost var s := store;
      err, rest := SetTargetCreated(a, args, env, rest, kinds, keys);
      TouchesTrans(s0, s, store, kinds, keys);
      if err.None? {
        ghost var rd, rt := ReInitKeys(Document, DocumentArg(args)), TargetReInitKeys(args.target, env);
        if args.autoTrack {
          ghost var d := DocKey(args);
          ghost var doc := Tracking(DocumentAfterFactory(AttrsIn(s0, d), DocumentArg(args)), a, true);
          ReInitStoreThenDoc(s0, rd, rt, a, s[a], d, doc, store[a]);
        } else {
          ReInitStoreThen(s0, rd, rt, a, s[a], store[a]);
        }
      }
    }

    method InitAnnotation(a: Key, args: AnnotationArgs, env: Env, ghost kinds: set<Kind>, ghost keys: set<Key>)
      returns (r: Result<Key>)
      requires a in store && a.kind == Annotation
      requires Within(TargetKinds(args.target), {a} + AnnotationKeys(args), kinds, keys)
      modifies this
      ensures OnlyTouches(kinds, keys)
      ensures AnnotationInitError(args, env, old(AttrsAt(DocKey(args)))) == if r.Ok? then None else Some(r.error)
      ensures r.Ok? ==> (r.value == a && AnnotationResolved(args, env) &&
                store[a] == MergeAll(old(store)[a], AnnotationUpdatesIn(args, env)))
      ensures r.Ok? && args.autoTrack ==> DocKey(args) in store && a in TrackedIn(store[DocKey(args)])
      ensures r.Ok? && !args.autoTrack ==> store == ReInitStore(old(store), AnnotationReInitKeys(args, env))[a := store[a]]
      ensures r.Ok? && args.autoTrack ==>
                store == ReInitStore(old(store), AnnotationReInitKeys(args, env))[a := store[a]]
                           [DocKey(args) := DocumentAfterInit(a, args, env, old(AttrsAt(DocKey(args))))]
      decreases 0, 5, 2
    {
      ghost var todo := AnnotationUpdatesIn(args, env);
      ghost var s0 := store;
      ghost var rkeys := {a} + Footprint(Entity, EntityArg(args)) + Footprint(Task, TaskArg(args))
                         + Footprint(Annotator, AnnotatorArg(args));
      var err;
      err, todo := InitReferences(a, args, env, todo, {}, rkeys);
      TouchesWiden(s0, store, {}, rkeys, kinds, keys);
      ReferenceKeysSpareDocument(a, args);
      TouchesFrame(s0, store, {}, rkeys, DocKey(args));
      if err.Some? {
        return Err(err.value);
      }
      ghost var s := store;
      ghost var tkeys := {a} + Footprint(Document, DocumentArg(args)) + TargetKeys(args.target);
      WithinMono(TargetKinds(args.target), tkeys, TargetKinds(args.target), {a} + AnnotationKeys(args), kinds, keys);
      err := InitTail(a, args, env, todo, kinds, keys);
      TouchesTrans(s0, s, store, kinds, keys);
      if err.Some? {
        return Err(err.value);
      }
      ReInitStoreThen(s0, RefsReInitKeys(args), TailReInitKeys(args, env), a, s[a], store[a]);
      AnnotationInitSucceeds(args, env, old(AttrsAt(DocKey(args))));
      Register(a);
      r := Ok(a);
    }

    /** `Annotation(entity=..., document=..., body=..., annotator=..., task=...,
        created=..., target=..., score=..., auto_track=..., **kwargs)`: the
        references go through their factories, the annotation is added to its
        document's annotations when `auto_track` is set, the target goes
        through `TargetFactory.factory`, and `created` defaults to now. */
    method ConstructAnnotation(ids: IdArgs, generated: string, args: AnnotationArgs, env: Env,
                               ghost kinds: set<Kind>, ghost keys: set<Key>) returns (r: Result<Key>)
      requires Within(TargetKinds(args.target), {Key(Annotation, ChooseId(ids, generated))} + AnnotationKeys(args),
                      kinds, keys)
      modifies this
      ensures OnlyTouches(kinds, keys)
      ensures AnnotationInitError(args, env, old(AttrsAt(DocKey(args)))) == if r.Ok? then None else Some(r.error)
      ensures r.Ok? ==> (r.value == Key(Annotation, ChooseId(ids, generated)) && r.value in store &&
                AnnotationResolved(args, env) &&
                store[r.value] == MergeAll(old(AttrsAt(r.value)), AnnotationUpdatesIn(args, env)))
      ensures r.Ok? && args.autoTrack ==> DocKey(args) in store && r.value in TrackedIn(store[DocKey(args)])
      ensures r.Ok? && !args.autoTrack ==>
                store == ReInitStore(old(store), AnnotationReInitKeys(args, env))[r.value := store[r.value]]
      ensures r.Ok? && args.autoTrack ==>
                store == ReInitStore(old(store), AnnotationReInitKeys(args, env))[r.value := store[r.value]]
                           [DocKey(args) := DocumentAfterInit(r.value, args, env, old(AttrsAt(DocKey(args))))]
      decreases 0, 5, 3
    {
      ghost var s0 := store;
      var a := GetOrCreate(Annotation, ChooseId(ids, generated));
      if a in s0 {
        TouchesRefl(s0, kinds, keys);
      } else {
        TouchesUpdate(s0, a, map[], kinds, keys);
      }
      ghost var s1 := store;
      r := InitAnnotation(a, args, env, kinds, keys);
      TouchesTrans(s0, s1, store, kinds, keys);
      if r.Ok? && a !in s0 {
        ReInitStoreAfterSet(s0, AnnotationReInitKeys(args, env), a, map[], store[a]);
      }
    }

    /** `Annotation.copy`: a new annotation under the fresh id `generated`
        with the original's references, body and score, a copy of its
        target and the current time, tracked in the original's document.
        The original is left as it was. */
    method CopyAnnotation(k: Key, generated: string, env: Env) returns (r: Result<Key>)
      requires k in store && k.kind == Annotation
      requires Key(Annotation, generated) !in store
      modifies this
      ensures CopyArgs(old(store)[k]).Err? ==> r == Err(CopyArgs(old(store)[k]).error) && store == old(store)
      ensures CopyArgs(old(store)[k]).Ok? ==>
                var a := CopyArgs(old(store)[k]).value;
                AnnotationInitError(a, env, old(AttrsAt(DocKey(a)))) == if r.Ok? then None else Some(r.error)
      ensures r.Ok? ==> && r.value == Key(Annotation, generated) && r.value in store
                        && k in store && store[k] == old(store)[k]
      ensures r.Ok? && AnnotationShaped(old(store)[k]) ==> CopyOf(store[r.value], old(store)[k], env.now)
      ensures r.Ok? ==> && CopyArgs(old(store)[k]).Ok?
                        && DocKey(CopyArgs(old(store)[k]).value) in store
                        && r.value in TrackedIn(store[DocKey(CopyArgs(old(store)[k]).value)])
      ensures CopyArgs(old(store)[k]).Ok? ==>
                var a := CopyArgs(old(store)[k]).value;
                Touches(old(store), store, TargetKinds(a.target), {Key(Annotation, generated)} + AnnotationKeys(a))
      ensures r.Ok? ==>
                var a := CopyArgs(old(store)[k]).value;
                && TrackError(a, old(AttrsAt(DocKey(a)))).None?
                && store == ReInitStore(old(store), AnnotationReInitKeys(a, env))[r.value := store[r.value]]
                           [DocKey(a) := DocumentAfterInit(r.value, a, env, old(AttrsAt(DocKey(a))))]
    {
      var args :- CopyArgs(store[k]);
      ghost var s0 := store;
      ghost var kinds := TargetKinds(args.target);
      ghost var keys := {Key(Annotation, generated)} + AnnotationKeys(args);
      r := ConstructAnnotation(IdArgs(Some(generated), None), generated, args, env, kinds, keys);
      if r.Ok? {
        AnnotationKeysSpareAnnotations(args);
        TouchesFrame(s0, store, kinds, keys, k);
        if AnnotationShaped(s0[k]) {
          CopyFresh(s0[k], env);
        }
      }
    }
  }
}
