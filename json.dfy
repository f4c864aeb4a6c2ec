/** Parsed JSON documents, as `JSON.parse` hands them to the orchestrator. */
module JsonModel {
  import opened Wrappers

  /** A JSON value. Numbers are modelled as integers. */
  datatype Json =
    | Null
    | Bool(b: bool)
    | Num(n: int)
    | Str(s: string)
    | Arr(items: seq<Json>)
    | Obj(fields: map<string, Json>)

  /** JavaScript truthiness of a parsed JSON value (objects and arrays are always truthy). */
  predicate Truthy(v: Json)
  {
    match v
    case Null => false
    case Bool(b) => b
    case Num(n) => n != 0
    case Str(s) => s != ""
    case Arr(_) => true
    case Obj(_) => true
  }

  /** A string, number or boolean: assigning a property to one throws a TypeError in strict mode. */
  predicate IsPrimitive(v: Json)
  {
    v.Bool? || v.Num? || v.Str?
  }

  /** The member `key` is `undefined` or `null`, which is what `??=` replaces. */
  predicate IsNullish(doc: map<string, Json>, key: string)
  {
    key !in doc || doc[key] == Null
  }

  /** `doc[key] ?? dflt` */
  function MemberOr(doc: map<string, Json>, key: string, dflt: Json): Json
  {
    if IsNullish(doc, key) then dflt else doc[key]
  }

  /** Follows a chain of object keys (`j.a.b.c`); None where a key is missing or a value is not an object. */
  function Get(j: Json, path: seq<string>): Option<Json>
    decreases |path|
  {
    if path == [] then Some(j)
    else if j.Obj? && path[0] in j.fields then Get(j.fields[path[0]], path[1..])
    else None
  }
}
