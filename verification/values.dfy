/** The dynamic values of the annotation model: the Python values that entity
    attributes, input dictionaries and serializer outputs hold, and the
    registered entity objects themselves. */
module Values {

  /** The registered entity classes, each with its own identity registry. */
  datatype Kind = Annotation | Annotator | Corpus | Document | Entity | Task

  /** The errors the modelled code raises, by Python exception. */
  datatype Error =
    | NoFactory(typeName: string)        // SelectorFactory: "No factory found for ..."
    | NoFactoryMethod(typeName: string)  // FromIdFactoryMixin: "No factory method found for ..."
    | NotImplemented(typeName: string)   // TargetFactory: NotImplementedError
    | NoSerializer(typeName: string)     // SelectorSerializerFactory
    | KeyError(key: string)
    | AttributeError(name: string)
    | TypeError(typeName: string)        // iterating a value that is not iterable
    | ValueError(text: string)           // enum lookup, ISO-8601 and JSON parsing
    | Unhashable(typeName: string)       // adding a list, dict or set to a set

  datatype Result<+T> = Ok(value: T) | Err(error: Error) {
    predicate IsFailure() { Err? }
    function PropagateFailure<U>(): Result<U> requires Err? { Err(error) }
    function Extract(): T requires Ok? { value }
  }

  datatype Option<+T> = None | Some(value: T)

  predicate IsLeapYear(y: int) {
    (y % 4 == 0 && y % 100 != 0) || y % 400 == 0
  }

  function DaysInMonth(y: int, m: int): int {
    if m == 2 then (if IsLeapYear(y) then 29 else 28)
    else if m == 4 || m == 6 || m == 9 || m == 11 then 30
    else 31
  }

  /** A calendar timestamp with microseconds. */
  datatype DateTime = DateTime(year: int, month: int, day: int,
                               hour: int, minute: int, second: int, microsecond: int)

  /** The range Python's `datetime` guarantees for every instance. */
  predicate ValidDateTime(dt: DateTime) {
    && 1 <= dt.year <= 9999
    && 1 <= dt.month <= 12
    && 1 <= dt.day <= DaysInMonth(dt.year, dt.month)
    && 0 <= dt.hour < 24
    && 0 <= dt.minute < 60
    && 0 <= dt.second < 60
    && 0 <= dt.microsecond < 1000000
  }

  /** A `datetime` instance: always in range. */
  type Timestamp = dt: DateTime | ValidDateTime(dt) witness DateTime(1, 1, 1, 0, 0, 0, 0)

  /** A registered entity object, identified as its class's registry
      identifies it: by class and id. */
  datatype Key = Key(kind: Kind, id: string)

  /** A Python value. Floats are taken as reals (no rounding); a Python set
      of entities is a duplicate-free sequence in insertion order, one of the
      iteration orders Python may produce. */
  datatype Value =
    | NoneV
    | Int(i: int)
    | Float(r: real)
    | Str(s: string)
    | ListV(items: seq<Value>)
    | DictV(entries: map<string, Value>)
    | SetV(members: seq<Key>)
    | Obj(ref: Key)
    | Sel(sel: Selector)
    | TargetV(target: Target)
    | Time(dt: Timestamp)
    | VertexV(vertex: Vertex)

  /** The corner of a bounding box; its internals are not part of this model. */
  datatype Vertex = Vertex(x: Value, y: Value)

  /** The two selector classes: an XPath text range and a bounding box. */
  datatype Selector =
    | XPath(startContainer: Value, endContainer: Value, startOffset: Value, endOffset: Value)
    | BoundingBox(vertex: Vertex, height: Value, width: Value)

  /** A target: the source document (or None) and the list of selectors,
      each a selector or the empty dictionary the selector factory lets through. */
  datatype Target = Target(source: Value, selectors: seq<Value>)

  /** The attributes of every registered object. An object's `id` is its key;
      every other attribute lives in its map, so that "has no such attribute"
      is a missing key, as with Python's `hasattr`. */
  type Store = map<Key, map<string, Value>>

  /** Python's `type(v).__name__`, as the error messages print it. */
  function TypeName(v: Value): string {
    match v
    case NoneV => "NoneType"
    case Int(_) => "int"
    case Float(_) => "float"
    case Str(_) => "str"
    case ListV(_) => "list"
    case DictV(_) => "dict"
    case SetV(_) => "set"
    case Obj(k) => KindName(k.kind)
    case Sel(XPath(_, _, _, _)) => "XPathSelector"
    case Sel(BoundingBox(_, _, _)) => "BoundingBox"
    case TargetV(_) => "Target"
    case Time(_) => "datetime"
    case VertexV(_) => "Vertex"
  }

  function KindName(k: Kind): string {
    match k
    case Annotation => "Annotation"
    case Annotator => "Annotator"
    case Corpus => "Corpus"
    case Document => "Document"
    case Entity => "Entity"
    case Task => "Task"
  }

  /** Python truthiness (`x or ''`). Objects without `__len__`/`__bool__` are true. */
  predicate Truthy(v: Value) {
    match v
    case NoneV => false
    case Int(i) => i != 0
    case Float(r) => r != 0.0
    case Str(s) => s != ""
    case ListV(items) => items != []
    case DictV(m) => m != map[]
    case SetV(members) => members != []
    case _ => true
  }

  /** `hasattr(v, '__len__')`: strings, lists, dicts and sets. */
  predicate HasLen(v: Value) {
    v.Str? || v.ListV? || v.DictV? || v.SetV?
  }

  /** Attribute access `v.name` on the values of the model, objects being
      looked up in `store`. */
  function GetAttr(store: Store, v: Value, name: string): (r: Result<Value>)
    ensures r.Err? ==> r.error == AttributeError(name)
    ensures v.Obj? && name == "id" ==> r == Ok(Str(v.ref.id))
    ensures v.Obj? && name != "id" ==>
              (r.Ok? <==> v.ref in store && name in store[v.ref]) &&
              (r.Ok? ==> r.value == store[v.ref][name])
  {
    match v
    case Obj(k) =>
      if name == "id" then Ok(Str(k.id))
      else if k in store && name in store[k] then Ok(store[k][name])
      else Err(AttributeError(name))
    case Sel(XPath(sc, ec, so, eo)) =>
      if name == "start_container" then Ok(sc)
      else if name == "end_container" then Ok(ec)
      else if name == "start_offset" then Ok(so)
      else if name == "end_offset" then Ok(eo)
      else Err(AttributeError(name))
    case Sel(BoundingBox(vx, h, w)) =>
      if name == "vertex" then Ok(VertexV(vx))
      else if name == "height" then Ok(h)
      else if name == "width" then Ok(w)
      else Err(AttributeError(name))
    case TargetV(Target(src, sels)) =>
      if name == "source" then Ok(src)
      else if name == "selector" then Ok(ListV(sels))
      else Err(AttributeError(name))
    case _ => Err(AttributeError(name))
  }

  /** The registered objects `members` names, in order. */
  function ObjectsOf(members: seq<Key>): (r: seq<Value>)
    ensures |r| == |members| && forall i | 0 <= i < |members| :: r[i] == Obj(members[i])
  {
    seq(|members|, i requires 0 <= i < |members| => Obj(members[i]))
  }

  /** The elements `for x in v` visits: list items, set members, and the
      one-character strings of a string; any other value but a dictionary
      raises `TypeError`. A dictionary visits its keys in insertion order,
      which `DictV` does not record, so its callers treat it themselves:
      every key is a string, and each loop here fails on a string the same
      way, so the outcome does not depend on that order. */
  function Iterate(v: Value): (r: Result<seq<Value>>)
    requires !v.DictV?
    ensures v.ListV? ==> r == Ok(v.items)
    ensures v.SetV? ==> r.Ok? && |r.value| == |v.members| &&
                        forall i | 0 <= i < |v.members| :: r.value[i] == Obj(v.members[i])
    ensures r.Ok? ==> v.ListV? || v.SetV? || v.Str?
  {
    match v
    case ListV(items) => Ok(items)
    case SetV(members) => Ok(ObjectsOf(members))
    case Str(s) => Ok(seq(|s|, i requires 0 <= i < |s| => Str([s[i]])))
    case _ => Err(TypeError(TypeName(v)))
  }
}
