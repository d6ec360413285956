/** Optional values, results, and the JSON values that ride on the bus. */
module Wrappers {
  datatype Option<+T> = None | Some(value: T)

  datatype Result<+T, +E> = Ok(value: T) | Err(error: E)

  /** `map.get(key).unwrap_or(default)` */
  function GetOr<K, V>(m: map<K, V>, key: K, default: V): V {
    if key in m then m[key] else default
  }

  /** JSON as the crates use it: enough structure for field lookups and typed reads. */
  datatype Json =
    | Null
    | Bool(b: bool)
    | Num(n: int)
    | Str(s: string)
    | Arr(items: seq<Json>)
    | Obj(fields: map<string, Json>)
  {
    /** `Value::get(key)`: a field of an object, nothing for every other value. */
    function Get(key: string): Option<Json> {
      if Obj? && key in fields then Some(fields[key]) else None
    }

    function AsStr(): Option<string> {
      if Str? then Some(s) else None
    }

    /** `get(key).and_then(as_str)` */
    function GetStr(key: string): Option<string> {
      match Get(key)
      case Some(v) => v.AsStr()
      case None => None
    }
  }

  ghost predicate HasField(j: Json, key: string, v: Json) {
    j.Obj? && key in j.fields && j.fields[key] == v
  }

  /** The text a JSON value has under a key, if it is text. */
  ghost predicate HasText(j: Json, key: string, text: Option<string>) {
    if text.Some? then HasField(j, key, Str(text.value)) else forall t :: !HasField(j, key, Str(t))
  }
}
