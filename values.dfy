/**
 * PHP values as the middleware sees them: request parameters, entity fields,
 * session entries and listener results.
 */
module Values {

  datatype Option<+T> = None | Some(value: T)

  /** A PHP value. `Record(true, f)` is an ORM entity, `Record(false, f)` an associative array. */
  datatype Value =
    | Null
    | Bool(b: bool)
    | Int(i: int)
    | Str(s: string)
    | List(items: seq<Value>)
    | Record(isEntity: bool, fields: map<string, Value>)

  /** The fields of an entity, or the keys of an associative array. */
  type Fields = map<string, Value>

  /** PHP's conversion to boolean, as used by `if ($x)`, `!$x` and `empty($x)`. */
  predicate Truthy(v: Value)
  {
    match v
    case Null => false
    case Bool(b) => b
    case Int(i) => i != 0
    case Str(s) => s != "" && s != "0"
    case List(items) => items != []
    case Record(isEntity, f) => isEntity || f != map[]
  }

  /** `$entity->get($k)` / `Hash::get($array, $k)`: a missing key reads as null. */
  function Get(f: Fields, k: string): (v: Value)
    ensures k !in f ==> v == Null
    ensures k in f ==> v == f[k]
  {
    if k in f then f[k] else Null
  }

  /** A value that `toArray` converts: an entity. */
  predicate IsEntity(v: Value)
  {
    v.Record? && v.isEntity
  }

  /**
   * Entity::toArray() of the entity `e`: every field that holds an entity, and
   * every entity directly inside a field that holds a list or an array, becomes
   * an array in turn; every other value is kept as it is.
   */
  function EntityToArray(e: Value): (r: Value)
    requires e.Record?
    ensures r.Record? && !r.isEntity && r.fields.Keys == e.fields.Keys
    ensures forall k :: k in e.fields && !e.fields[k].Record? && !e.fields[k].List? ==> r.fields[k] == e.fields[k]
    ensures forall k :: k in e.fields && e.fields[k].Record? ==>
      r.fields[k].Record? && !r.fields[k].isEntity && r.fields[k].fields.Keys == e.fields[k].fields.Keys
    ensures forall k :: k in e.fields && IsEntity(e.fields[k]) ==> r.fields[k] == EntityToArray(e.fields[k])
    ensures forall k :: k in e.fields && e.fields[k].List? ==>
      r.fields[k].List? && |r.fields[k].items| == |e.fields[k].items|
    ensures forall k, i :: k in e.fields && e.fields[k].List? && 0 <= i < |e.fields[k].items| ==>
      r.fields[k].items[i] == ElementToArray(e.fields[k].items[i])
    ensures forall k, j :: k in e.fields && e.fields[k].Record? && !e.fields[k].isEntity && j in e.fields[k].fields ==>
      r.fields[k].fields[j] == ElementToArray(e.fields[k].fields[j])
    decreases e, 1
  {
    Record(false, map k | k in e.fields :: FieldToArray(e.fields[k]))
  }

  /** One field of `toArray`: an entity is converted, a list or array has its entity elements converted. */
  function FieldToArray(v: Value): (r: Value)
    ensures !v.Record? && !v.List? ==> r == v
    ensures v.Record? ==> r.Record? && !r.isEntity && r.fields.Keys == v.fields.Keys
    ensures IsEntity(v) ==> r == EntityToArray(v)
    ensures v.Record? && !v.isEntity ==>
      forall k :: k in v.fields ==> r.fields[k] == ElementToArray(v.fields[k])
    ensures v.List? ==> r.List? && |r.items| == |v.items|
    ensures v.List? ==> forall i :: 0 <= i < |v.items| ==> r.items[i] == ElementToArray(v.items[i])
    decreases v, 2
  {
    match v
    case Record(true, _) => EntityToArray(v)
    case Record(false, g) => Record(false, map k | k in g :: ElementToArray(g[k]))
    case List(items) => List(seq(|items|, i requires 0 <= i < |items| => ElementToArray(items[i])))
    case _ => v
  }

  /** One element of a list or array field: only an entity is converted. */
  function ElementToArray(v: Value): (r: Value)
    ensures !IsEntity(v) ==> r == v
    ensures IsEntity(v) ==> r == EntityToArray(v)
    decreases v, 2
  {
    if IsEntity(v) then EntityToArray(v) else v
  }
}
