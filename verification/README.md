# linalgo annotate: a Dafny model of the entity layer and its serializers

This project models the in-memory entity layer of linalgo's annotation package
(`linalgo/annotate/models.py`) and the serializers that flatten it
(`linalgo/annotate/serializers.py`), and proves what they promise.

The parts of the model:

- **The registry.** Every `Entity`, `Corpus`, `Document`, `Task`, `Annotator` and
  `Annotation` is registered by id. In Python each class keeps its own `_registry`
  dictionary. Here, one `Registry` class holds a map from `Key(kind, id)` to that
  object's attributes (`registry.dfy`).
  - `GetOrCreate` is `RegistryMixin.__new__`.
  - `SetAttr` is `RegistryMixin.setattr`.
  - Each `__init__` becomes an `Init…` method: a run of merges in the source's own
    order. The `Construct…` methods chain the two steps.
  - A reference to another registered object is `Obj(key)`.
  - `Document.annotations` is a duplicate-free sequence of annotation keys. An
    annotation adds itself to it in place.
- **The setattr merge rule.** `Merge` is one `setattr` call, and `MergeAll` is a run of
  them (`attributes.dfy`). Their lemmas cover:
  - idempotence;
  - the frame (which attributes a run can change);
  - commutation of distinct names;
  - re-running a constructor.
- **Factory dispatch** (`references.dfy`, `selectors.dfy`):
  - `FromIdFactoryMixin.factory`, as `FactoryDispatch`/`RefKey`;
  - `SelectorFactory.factory`;
  - `TargetFactory.factory`/`from_dict`.

  Each raised exception is an `Err` value, tagged with the exception's kind and the
  type name it reports.
- **Targets** are values holding their source and selectors (`selectors.dfy`).
  `Target.copy` keeps the source and re-dispatches copies of the selectors.
- **Reconstruction** (`reconstruction.dfy`):
  - what a factory call on an existing id does to that object;
  - the arguments `Annotation.copy` passes;
  - the proof that a successful copy agrees with its original.
- **`Document.entities`** (`documents.dfy`): the distinct entities of a document's
  annotations.
- **The schedule enumerations** `DocumentStatus` and `ScheduleType` (`schedule.dfy`).
- **Serializers** (`serializers.dfy`):
  - They are pure functions over a snapshot of the registry.
  - `TargetSerializer`'s loop is the method `SerializeTarget`, proved equal to its
    specification `TargetFields`.
  - They are proved to invert the factories where the code allows it. An XPath
    selector and an XPath-only target read back as the same objects. Reading a
    serialized annotation back through `Annotation(**d)` resolves the same
    references, rebuilds the same target and keeps a truthy body.
  - The `created` text does not read back: the constructor hands it to
    `datetime.fromisoformat`, which refuses `/`-separated dates (see "## Findings").
    The text does parse back with its own pattern (`timestamps.dfy`).

Where the code departs from what its comments and documentation describe, the model
follows the code:

- A second `setattr` with the same non-empty value reports that it was applied.
- `Annotator.factory(id)` on an existing annotator resets its model to `'MACHINE'` and its
  threshold to `0`.
- `Document.factory(id)` re-points an existing document at the default corpus.
- `Annotation.factory(id)` always raises: the by-id path calls the constructor with no
  target, and `TargetFactory.factory(None)` raises.
- The `created` timestamp is serialized as `%Y/%m/%d %H:%M:%S.%f`, not in ISO form, so
  the constructor cannot read it back.
- `Target.__init__` sends every selector through the selector factory a second time,
  and that factory rejects a `BoundingBox` instance. So a target holding a bounding
  box cannot be read from a dictionary or copied (see "## Findings"). It can still be
  built directly, `Target(source, [box_dict])`, since that dispatches each selector once.
- A dictionary given as a target's `selector` is iterated over its keys. An empty one
  gives no selectors, and any other fails on its first key.

Inputs the program takes from its environment are parameters:

- the fresh uuid is `generated`;
- `datetime.now()` is `env.now`;
- `datetime.fromisoformat` is `env.fromIsoFormat`;
- `json.loads` is `env.jsonLoads`.

## Model

| member | source | states |
|---|---|---|
| Attributes.Merge | linalgo/annotate/models.py:102-114 | setattr applies the value iff the attribute is missing or None, or the value is not None, `[]` or `set()`; when applied the attribute holds the value, otherwise nothing changes; no other attribute changes |
| Attributes.MergeFrame | linalgo/annotate/models.py:102-114 | one setattr adds at most the named attribute and leaves every other attribute as it was |
| Attributes.MergeIdempotent | linalgo/annotate/models.py:102-114 | repeating a setattr changes nothing more, and a repeated non-empty value still reports applied |
| Attributes.MergeMonotone | linalgo/annotate/models.py:107-112 | a None attribute is overwritten by any value; an empty candidate never erases a non-empty value |
| Attributes.MergeAllFrame | linalgo/annotate/models.py:102-114 | a run of setattr calls adds exactly the names it sets and keeps every other attribute |
| Attributes.MergeAllField | linalgo/annotate/models.py:102-114 | after a run with distinct names, each set attribute is what the single setattr of that name gives |
| Attributes.MergeAllFresh | linalgo/annotate/models.py:102-114 | on a new object every attribute of the run holds the value passed to it |
| Attributes.MergeSwap | linalgo/annotate/models.py:102-114 | setattr calls on different names commute |
| Attributes.MergeCommutes | linalgo/annotate/models.py:102-114 | a setattr commutes with a whole run that does not set its name |
| Attributes.MergeAllIdempotent | linalgo/annotate/models.py:102-114 | running the same constructor arguments twice leaves the attributes of the first run |
| References.ChooseId | linalgo/annotate/models.py:87-88 | the registered id is the `id` keyword if given, else `unique_id`, else the generated uuid |
| References.FactoryDispatch | linalgo/annotate/models.py:119-128 | None goes to id 'default', a string to that id, an instance of exactly the class is returned; anything else is rejected, reporting its type name |
| References.RefKey | linalgo/annotate/models.py:119-128 | the object a successful factory call yields: the instance itself, or the registry key of the chosen id, always of the factory's class |
| References.FactoryIdentity | linalgo/annotate/models.py:121-126 | factory(None) is the 'default' object each time; two string ids give the same object iff they are equal |
| References.ModelOrMachine | linalgo/annotate/models.py:214 | the annotator's model is truthy, and is the given model when that is truthy |
| References.CreatedValue | linalgo/annotate/models.py:175-178 | no `created` means now; a string is parsed by fromisoformat and a failed parse raises ValueError; any other value is kept |
| References.ReplaceQuotes | linalgo/annotate/models.py:55 | single quotes become double quotes and every other character is kept |
| References.TargetOfDict | linalgo/annotate/models.py:62-68 | `{}` gives a target with no source and no selectors; a missing 'source' raises KeyError; an unresolvable source raises naming its type; on success the source is the resolved Document and every selector is one the factory hands back unchanged |
| References.BoundingBoxTargetRejected | linalgo/annotate/models.py:62-76 | from_dict on a document with one bounding-box selector dict raises "No factory found for BoundingBox", from the second dispatch in `Target.__init__` |
| References.TargetOf | linalgo/annotate/models.py:51-59 | a Target is returned unchanged, a dict goes through from_dict, and any other type except str (None included) raises NotImplementedError |
| References.AnnotationInitError | linalgo/annotate/models.py:158-180 | the constructor completes iff the reference, document and target/created steps all do; otherwise it raises one of their errors, and a failing entity, task or annotator reference wins |
| References.AnnotationInitSucceeds | linalgo/annotate/models.py:158-180 | the constructor succeeds iff every reference and the target and created value resolve, and, with auto_track, the document has an annotations set |
| References.AddMember | linalgo/annotate/models.py:173 | adding to the annotations set keeps every member, adds the annotation, and adds nothing else; adding a member again changes nothing |
| References.MergeKeepsTracked | linalgo/annotate/models.py:296 | a setattr of any non-annotations name, or of an empty candidate, keeps every tracked annotation |
| Selectors.SelectorFactoryAsWritten | linalgo/annotate/models.py:18-35 | the code as written: as the corrected factory except that a BoundingBox instance raises |
| Selectors.SelectorFactory | linalgo/annotate/models.py:18-35 | `{}` and selectors pass through; a dict with 'x' gives a BoundingBox; a dict with 'startOffset' and no 'x' gives an XPathSelector with the four fields verbatim; it succeeds exactly on those; another dict raises for 'dict', any other type for its own type name |
| Selectors.SelectorFactoryIdempotent | linalgo/annotate/models.py:18-35 | dispatching a factory output again gives the same output |
| Selectors.BoundingBoxRedispatchFails | linalgo/annotate/models.py:22-25 | as written, a BoundingBox built from a dict is rejected when `Target.__init__` dispatches it again |
| Selectors.NewXPathSelector | linalgo/annotate/models.py:40-45 | the four constructor arguments are the selector's four attributes |
| Selectors.DispatchAll | linalgo/annotate/models.py:76 | the comprehension, with the factory as written, succeeds iff every selector dispatches, keeps length and order, and otherwise raises the first failure |
| Selectors.NewTarget | linalgo/annotate/models.py:73-76 | the source is kept as given; the selectors are dispatched in order by the factory as written, so a BoundingBox instance raises; a target whose selectors pass through is returned as it is |
| Selectors.CopyTarget | linalgo/annotate/models.py:78-81 | the copy succeeds iff every selector dispatches again; a constructed target copies iff none of its selectors is a BoundingBox, and then the copy equals the original |
| Selectors.TargetFromDict | linalgo/annotate/models.py:65-76 | a missing 'selector' raises KeyError; a selector list succeeds iff every item survives both dispatches, giving one selector per item in order; a bounding-box dict raises; an empty dict or string gives no selectors, and a non-empty one raises for its first key, a str |
| Values.Iterate | linalgo/annotate/models.py:67 | `for x in v`: a list yields its items, a set its members, a string its characters; any other value but a dictionary raises TypeError |
| Timestamps.FormatCreated | linalgo/annotate/serializers.py:83 | with the year zero-padded to four digits, the text is 26 characters, with `/`, `/`, space, `:`, `:` and `.` at their places and digits elsewhere |
| Timestamps.CreatedRoundTrip | linalgo/annotate/serializers.py:83 | the zero-padded `%Y/%m/%d %H:%M:%S.%f` text parses back to the same date and time fields |
| Timestamps.FormatCreatedInjective | linalgo/annotate/serializers.py:83 | two different date-and-time values never render to the same text |
| Registry.Registry.GetOrCreate | linalgo/annotate/models.py:86-97 | an id already registered returns its object and leaves the registry unchanged; otherwise exactly one new entry with that id is added |
| Registry.Registry.Register | linalgo/annotate/models.py:99-100 | re-registering an object under its own id leaves the registry unchanged |
| Registry.Registry.SetAttr | linalgo/annotate/models.py:102-114 | the object's attributes become the merge result, its return value is whether it applied, and no other object changes |
| Registry.Registry.Resolve | linalgo/annotate/models.py:119-128 | succeeds iff the argument is None, a string or an instance of the class; returns the object RefKey names; an instance or a rejected type leaves the registry unchanged; a by-id call leaves the registry exactly as re-initialising that object and the defaults its constructor falls back on makes it; a rejected type raises reporting it |
| Registry.Registry.ResolveId | linalgo/annotate/models.py:122-126 | `cls(unique_id=id)` registers that id; the registry is then exactly the old one with that object and its class's default objects re-initialised; for Annotation it always raises |
| Registry.Registry.ConstructDefaultAnnotation | linalgo/annotate/models.py:122-126 | `Annotation(unique_id=id)` always raises, since no target is given |
| Registry.Registry.ResolveAll | linalgo/annotate/models.py:355-359 | a list comprehension of factory calls succeeds iff each argument resolves, returns the resolved objects in order, and leaves the registry exactly as re-initialising every object an id in the list reaches makes it |
| Registry.Registry.InitEntity | linalgo/annotate/models.py:320-323 | the entity's attributes become the merge of name and color |
| Registry.Registry.ConstructEntity | linalgo/annotate/models.py:320-323 | the entity is registered under the chosen id, its attributes are its previous ones merged with name and color, and nothing else changes; with default arguments this is the by-id re-initialisation |
| Registry.Registry.InitCorpus | linalgo/annotate/models.py:262-268 | succeeds iff every document resolves; the corpus gets name, description and, when non-empty, the resolved documents in order; every other object ends exactly as re-initialising the documents given by id makes it |
| Registry.Registry.ConstructCorpus | linalgo/annotate/models.py:262-268 | as InitCorpus, on the object registered under the chosen id; with default arguments the registry is exactly the by-id re-initialisation |
| Registry.Registry.InitDocument | linalgo/annotate/models.py:291-297 | succeeds iff the corpus argument resolves; the document gets uri, content, the resolved corpus and an annotations set that an existing one survives; no tracked annotation is lost; every other object ends exactly as resolving the corpus makes it |
| Registry.Registry.ConstructDocument | linalgo/annotate/models.py:291-297 | as InitDocument, on the object registered under the chosen id; `Document(unique_id=id)` leaves exactly the by-id re-initialisation of the document and the default corpus |
| Registry.Registry.ResolveInto | linalgo/annotate/models.py:355-359 | resolves a list argument and sets it on the task; succeeds iff every item resolves; every other object ends exactly as the list's by-id calls leave it |
| Registry.Registry.InitTask | linalgo/annotate/models.py:348-360 | succeeds iff every entity, corpus, annotator, annotation and document resolves; the task gets name, description and the five resolved lists; every other object ends exactly as re-initialising the objects the lists name by id makes it |
| Registry.Registry.ConstructTask | linalgo/annotate/models.py:348-360 | as InitTask, on the object registered under the chosen id; with default arguments the registry is exactly the by-id re-initialisation |
| Registry.Registry.SetAnnotatorFields | linalgo/annotate/models.py:212-216 | task, owner, model, entity_id and threshold are merged in order onto the annotator, and no other object changes |
| Registry.Registry.InitAnnotator | linalgo/annotate/models.py:208-217 | succeeds iff the task resolves; the annotator gets name, the task, owner, model or 'MACHINE', entity_id and threshold; every other object ends exactly as resolving the task makes it |
| Registry.Registry.ConstructAnnotator | linalgo/annotate/models.py:208-217 | as InitAnnotator, on the object registered under the chosen id; with default arguments the registry is exactly the by-id re-initialisation of the annotator and the default task |
| Registry.Registry.ResolveTargetDict | linalgo/annotate/models.py:62-68 | resolving a target dict gives exactly TargetOfDict; the registry is exactly the old one with the source document re-initialised when it is given by id |
| Registry.Registry.ResolveTarget | linalgo/annotate/models.py:51-59 | resolving a target argument gives exactly TargetOf; only a dict or JSON dict reaches a document, which is re-initialised as in ResolveTargetDict; nothing else changes |
| Registry.Registry.SetReference | linalgo/annotate/models.py:158-168 | one `setattr(name, Kind.factory(arg))` step: succeeds iff the argument resolves, otherwise raises reporting its type, and sets the resolved object; every other object ends exactly as the factory call leaves it |
| Registry.Registry.SetEntityScoreBody | linalgo/annotate/models.py:158-162 | the entity reference, then score and body: fails iff the entity does not resolve, reporting its type; on success the three merges are applied and every other object ends as the entity's factory call leaves it |
| Registry.Registry.InitReferences | linalgo/annotate/models.py:158-168 | entity, score, body, task and annotator are set in order; the error is the first unresolvable reference, a keyword id winning over the positional argument; every other object ends exactly as the three factory calls leave it |
| Registry.Registry.AddTracked | linalgo/annotate/models.py:173 | `document.annotations.add(self)`: a document without annotations raises AttributeError('annotations'), one whose annotations are not a set raises AttributeError('add'), and otherwise exactly that document gains the annotation |
| Registry.Registry.SetDocument | linalgo/annotate/models.py:169-173 | the document is resolved and set; with auto_track the annotation is added to its annotations, and a document without an annotations set raises; the registry is then exactly the factory call's result with the annotation and the tracking document updated |
| Registry.Registry.SetTargetCreated | linalgo/annotate/models.py:174-179 | the target then the created time are resolved and set; the error is the first that fails, so a target dict with a bounding-box selector raises; the registry is then exactly the target factory's result with the annotation updated |
| Registry.Registry.InitTail | linalgo/annotate/models.py:169-180 | the document, target and created steps in order, with the first error raised; on success the registry is exactly the re-initialisations of the two factory calls, the annotation, and the document's new state |
| Registry.Registry.InitAnnotation | linalgo/annotate/models.py:152-180 | the constructor fails exactly with AnnotationInitError; on success the attributes are the whole run of merges, the annotation is tracked by its document, and every other object ends exactly as the factory calls and the tracking leave it |
| Registry.Registry.ConstructAnnotation | linalgo/annotate/models.py:152-180 | as InitAnnotation, on the object registered under the chosen id |
| Registry.Registry.CopyAnnotation | linalgo/annotate/models.py:185-189 | a missing attribute raises and changes nothing; otherwise it fails exactly as the constructor would and touches only the copy and the objects its arguments reach; a success is a new annotation under the fresh id that agrees with the original (CopyOf), is tracked by the document, and leaves the registry exactly as the constructor on the copied arguments does |
| Reconstruction.MergeAllEmptyKeeps | linalgo/annotate/models.py:110-114 | a run of empty candidates keeps every populated attribute |
| Reconstruction.FactoryByIdKeepsPopulated | linalgo/annotate/models.py:119-128 | `factory(id)` on an existing entity, corpus or task keeps every populated attribute |
| Reconstruction.FactoryByIdIdempotent | linalgo/annotate/models.py:119-128 | a second by-id factory call on the same object changes nothing |
| References.ReInitListKeysMembers | linalgo/annotate/models.py:355-359 | an object is re-initialised by a list of factory calls iff some element is an id or None whose call reaches it |
| Reconstruction.ReInitStoreTwice | linalgo/annotate/models.py:119-128 | two rounds of by-id re-initialisation are one round over both sets: a second default run changes nothing |
| Reconstruction.ReInitStoreThen | linalgo/annotate/models.py:158-168 | re-initialising, setting an attribute on the constructed object, re-initialising again and setting it again is one re-initialisation followed by the last set |
| Reconstruction.DocumentReInitById | linalgo/annotate/models.py:291-297 | `Document(unique_id=id)` re-initialises the default corpus and gives the document its default run, which is the by-id re-initialisation of both |
| Reconstruction.DocumentByIdKeepsAnnotations | linalgo/annotate/models.py:291-297 | `Document.factory(id)` points the document at the default corpus, keeps populated annotations, uri and content, and loses no tracked annotation |
| Reconstruction.AnnotatorByIdResets | linalgo/annotate/models.py:208-217 | `Annotator.factory(id)` resets task to the default task, model to 'MACHINE' and threshold to 0, and keeps a populated name, owner and entity_id |
| Reconstruction.CopyArgs | linalgo/annotate/models.py:185-189 | copy succeeds iff every read attribute exists and the target copies; a missing target raises AttributeError; the arguments are the original's, with a copied target, no created time and auto_track on |
| Reconstruction.ConstructedAnnotationShaped | linalgo/annotate/models.py:158-180 | a constructed annotation refers to the resolved entity, task, annotator and document, and holds the resolved target |
| Reconstruction.CopyArgsOfShaped | linalgo/annotate/models.py:185-189 | the copy arguments of a constructed annotation are its own fields; its copy fails only when the document has no annotations set |
| Reconstruction.CopyFresh | linalgo/annotate/models.py:185-189 | the fresh annotation built from the copy arguments agrees with the original in entity, document, task, annotator, body, score and target, and was created now |
| Documents.EntityOf | linalgo/annotate/models.py:301 | reads `a.entity`, and fails when it is missing or unhashable |
| Documents.EntitiesIn | linalgo/annotate/models.py:301 | the generator succeeds iff every annotation's entity does, keeps order, and otherwise raises the first failure |
| Documents.Dedupe | linalgo/annotate/models.py:301 | the set has no duplicates and holds exactly the listed entities |
| Documents.DocumentEntities | linalgo/annotate/models.py:299-301 | without annotations it raises AttributeError; otherwise the result has no duplicates and holds exactly the entities of the document's annotations |
| Documents.TrackedEntities | linalgo/annotate/models.py:299-301 | for constructed annotations, entities succeeds, yields entities only, and contains the entity of every tracked annotation |
| Schedules.ParseStatus | linalgo/annotate/models.py:372-374 | `DocumentStatus(v)` succeeds exactly on 'A' and 'C', returning the member with that value, and otherwise raises ValueError |
| Schedules.ParseType | linalgo/annotate/models.py:377-379 | `ScheduleType(v)` succeeds exactly on 'R' and 'A', returning the member with that value, and otherwise raises ValueError |
| Schedules.StatusRoundTrip | linalgo/annotate/models.py:372-374 | each status parses back from its value, and distinct statuses have distinct values |
| Schedules.TypeRoundTrip | linalgo/annotate/models.py:377-379 | each schedule type parses back from its value, and distinct types have distinct values |
| Serializers.BoxFields | linalgo/annotate/serializers.py:20-26 | a bounding box gives exactly vertex, height and width |
| Serializers.XPathFields | linalgo/annotate/serializers.py:31-38 | an XPath selector gives exactly startContainer, endContainer, startOffset and endOffset with its fields |
| Serializers.DocumentFields | linalgo/annotate/serializers.py:90-95 | a document gives exactly id, uri and content, and fails iff uri or content is missing |
| Serializers.SelectorSerializerFor | linalgo/annotate/serializers.py:43-49 | a BoundingBox gets the bounding-box serializer and an XPathSelector the XPath one; anything else raises naming its type |
| Serializers.Strftime | linalgo/annotate/serializers.py:83 | only a datetime formats, and its text parses back to it; anything else raises AttributeError |
| Serializers.Serialize | linalgo/annotate/serializers.py:11-14 | an instance without a length is serialized on its own; a sized one gives a list |
| Serializers.SerializeAll | linalgo/annotate/serializers.py:13 | one serialization per item, in order, failing iff some item fails, with the first failure raised |
| Serializers.SerializeMany | linalgo/annotate/serializers.py:11-14 | a list or set gives a list with one serialization per element in iteration order, failing iff some element fails |
| Serializers.SerializeOneStr | linalgo/annotate/serializers.py:11-14 | each serializer given a string fails on its first attribute read, which is why a non-empty dict fails however its keys are ordered |
| Serializers.SerializeSelector | linalgo/annotate/serializers.py:61-62 | anything but a selector raises as `create` does; a serialized selector is a dict |
| Serializers.SerializeSelectorIsSerialize | linalgo/annotate/serializers.py:61-62 | a selector's serialization is what `serialize()` of the serializer `create` picks for it returns |
| Serializers.SerializeSelectorsOk | linalgo/annotate/serializers.py:60-62 | the selector list is built exactly when every selector serializes |
| Serializers.SerializeSelectors | linalgo/annotate/serializers.py:60-62 | the selector list has one entry per selector |
| Serializers.TargetFields | linalgo/annotate/serializers.py:55-63 | a serialized target has exactly the keys source and selector |
| Serializers.SerializeTarget | linalgo/annotate/serializers.py:55-63 | the loop that appends each serialized selector computes exactly TargetFields |
| Serializers.TargetSerializedEach | linalgo/annotate/serializers.py:55-63 | source is the source's id, and selector holds the serialization of each selector in the same order |
| Serializers.AnnotatorIdOf | linalgo/annotate/serializers.py:70-72 | annotator_id is None iff there is no annotator, and otherwise is its id |
| Serializers.TargetDictOf | linalgo/annotate/serializers.py:73-76 | target is None iff there is no target, and otherwise is the target serializer's output |
| Serializers.AnnotationFields | linalgo/annotate/serializers.py:69-86 | the annotator is read first and a missing one raises that error; a success is a dict, and requires `created` to be a datetime |
| Serializers.AnnotationFieldsShape | linalgo/annotate/serializers.py:69-86 | exactly the seven keys; annotator_id and target are None iff those fields are; body is '' when falsy and the body otherwise; created is the fixed-pattern text of the datetime |
| Serializers.XPathRoundTrip | linalgo/annotate/serializers.py:31-38 | the selector factory reads a serialized XPath selector back as the same selector |
| Serializers.BoundingBoxNotReadBack | linalgo/annotate/serializers.py:20-26 | a serialized bounding box has no 'x' key, so the selector factory rejects it |
| Serializers.XPathSelectorsRoundTrip | linalgo/annotate/serializers.py:60-62 | each serialized XPath selector reads back as the selector it came from |
| Serializers.TargetSerialized | linalgo/annotate/serializers.py:55-63 | a target on document `id` serializes to `{'source': id, 'selector': [...]}` |
| Serializers.TargetReadBack | linalgo/annotate/models.py:62-68 | from_dict on that dict gives back the target on the registered document with the read-back selectors |
| Serializers.TargetRoundTrip | linalgo/annotate/serializers.py:55-63 | a target with XPath selectors on a document reads back through from_dict as the same target |
| Serializers.AnnotationKeywords | linalgo/annotate/models.py:152-171 | `Annotation(**d)`: each `_id` key becomes its keyword id; target, created, body and score come from their keys or default to None |
| Serializers.SerializedKeywords | linalgo/annotate/models.py:158-171 | a serialized annotation passes its four ids as keywords and no positional reference or score |
| Serializers.AnnotationSerialized | linalgo/annotate/serializers.py:69-86 | a constructed annotation with a created datetime serializes to the seven keys holding its ids, body or '', time text and serialized target |
| Serializers.SerializedArgs | linalgo/annotate/serializers.py:69-86 | the keyword arguments `Annotation(**d)` receives from a serialized annotation |
| Serializers.AnnotationRefsRoundTrip | linalgo/annotate/serializers.py:78-82 | reading the dict back resolves entity, task, annotator and document to the original objects |
| Serializers.AnnotationContentRoundTrip | linalgo/annotate/serializers.py:80-84 | reading the dict back rebuilds the same target, keeps a truthy body, and hands over text that the serializer's own pattern parses back to the original date and time fields |
| Serializers.AnnotationRoundTrip | linalgo/annotate/serializers.py:69-86 | the serialized annotation reads back to the same references, target and truthy body; `Annotation(**d)` completes iff the document step does and `fromisoformat` accepts the `%Y/%m/%d` text |
| Serializers.CreatedNotReadBack | linalgo/annotate/models.py:175-178 | for a `fromisoformat` that refuses '/' after the year, rebuilding an annotation from its own serialization always raises, and raises ValueError once the document step succeeds |

## Left out

- `linalgo/hub/bq_client.py` is not part of this model. It is a BigQuery network client.
- `Annotator._get_annotation` and `Annotator.annotate` are not modelled:
  - they call an external machine-learning model and compare float scores;
  - `_get_annotation` reads a misspelt attribute (`entoty_id`) and would raise.
- `Annotator.assign_task` is not modelled. It is a single field assignment outside the registry's merge rule.
- `Task.add_annotation` and `Task.add_document` are not modelled. They call `.add` on the lists the constructor stores and would raise.
- Some `from_dict` front-ends are not modelled: those of Annotation, Annotator, Corpus, Document, Entity and Task.
  - They only call the constructors, which are modelled.
  - `TargetFactory.from_dict` is modelled.
- `Schedule.__init__` is reduced to its two enumeration parses. The other fields are plain assignments or constructor calls modelled elsewhere.
- `__repr__` methods and `logging.info` are left out, since they produce text only.
- `BoundingBox` and `Vertex` come from `linalgo/annotate/bbox.py`, which is not part of this model.
  - A bounding box is a record of vertex, height and width.
  - The selector factory's `BoundingBox.fromVertex` builds that record directly.
- The uuid, the clock, `datetime.fromisoformat` and `json.loads` are parameters. ISO-8601 parsing and JSON parsing are not modelled.
- Floats are exact reals (`Float(r: real)`), with no rounding. NaN and the infinities are not modelled, nor is Python's equality of `1` and `1.0` inside sets.
- The list arguments of `Corpus` and `Task` are sequences of values. So `Corpus(documents=None)` (a TypeError from `len(None)`, models.py:266) and a string given as a list (`Task(entities='ab')`, iterated character by character at models.py:355) cannot be expressed.
- Exceptions are `Err` values carrying the exception's kind and the type or attribute name in its message. The message text itself is not modelled.
- Selectors are values, so a deep copy is the value itself. "Changing a copied selector leaves the original alone" holds trivially, and aliasing of selector objects is not modelled.
- Documents.DocumentEntities: Python's `list(set(...))` order is unspecified, so the contract states the members and their distinctness, not their order.
- Registry.Registry.InitAnnotation, Registry.Registry.InitTask, Registry.Registry.InitCorpus, Registry.Registry.InitDocument, Registry.Registry.InitAnnotator: when a constructor raises part-way, the contract states which objects may have changed, not the attributes Python has already set.
- Registry.Registry.ConstructAnnotation, Registry.Registry.ConstructDocument, Registry.Registry.ConstructAnnotator, Registry.Registry.ConstructDefaultAnnotation: the same limit as the `Init*` methods they call. On a raise, the contract states which objects may have changed, not their attributes.
- References.ChooseId: ids are `Option<string>`. An explicit `unique_id=None`, or an id that is not a string (models.py:87-88), registers under that value in Python. The model cannot express either.
- Timestamps.FormatCreated: `DateTime` carries no time zone, and `strftime` (serializers.py:83) drops the UTC offset of an aware `created`, such as one `fromisoformat` parsed at models.py:178. Zero-padding the year to four digits follows the ISO C `%Y`. The C library that renders it may write years below 1000 with fewer digits, and then the text is shorter than 26 characters.
- Timestamps.CreatedRoundTrip: the text gives back the date and time fields. For an aware `created` the offset is lost, so the instant is recovered only for naive datetimes.
- Registry.Registry.InitCorpus: the corpus's attributes are stated only when it is not the default corpus or no documents are given. Resolving a document can re-initialise the default corpus itself.
- Registry.Registry.ConstructCorpus: the same limit as InitCorpus, for `Corpus(unique_id='default', documents=[...])`.
- Registry.Registry.InitTask: the task's attributes are stated only when the task is not itself among the objects its lists resolve to.
- Registry.Registry.ConstructTask: the same limit as InitTask.
- Serializers.AnnotationContentRoundTrip: the `created` text is read back with the serializer's own pattern (`ParseCreated`), the intended behaviour. The constructor as written hands it to `fromisoformat` instead (Serializers.AnnotationRoundTrip, Serializers.CreatedNotReadBack).
- Serializers.AnnotationRoundTrip: covers annotations whose target has only XPath selectors on a document. A bounding box does not read back (Serializers.BoundingBoxNotReadBack).
- Serializers.SerializeSelectors: the contract states the length only. The element-by-element statement is Serializers.TargetSerializedEach.

## Findings

| source | as written | input that shows it | evidently intended | confidence | as-written member | corrected member |
|---|---|---|---|---|---|---|
| linalgo/annotate/models.py:18-35 | the selector factory passes an `XPathSelector` through but raises for a `BoundingBox` instance, and `Target.__init__` dispatches every selector again | `TargetFactory.from_dict({'source': 'd', 'selector': [{'x': 0, 'y': 0, 'height': 10, 'width': 20}]})`: the comprehension builds a BoundingBox, and `Target.__init__` then raises "No factory found" for it | a `BoundingBox` passes through like an `XPathSelector`, so that dispatching is idempotent | not executed | Selectors.BoundingBoxRedispatchFails | Selectors.SelectorFactoryIdempotent |
| linalgo/annotate/serializers.py:83 | `created` is written as `%Y/%m/%d %H:%M:%S.%f`, while `Annotation.__init__` (models.py:177-178) hands a string `created` to `datetime.fromisoformat` | `Annotation(**AnnotationSerializer(a).serialize())` for any annotation `a` with a created datetime: `fromisoformat` is given text such as `2024/01/02 03:04:05.000006` and raises ValueError | a serialized annotation reads back with its own creation time, the text being in a form the reader parses | not executed | Serializers.CreatedNotReadBack | Serializers.AnnotationContentRoundTrip |
