// Decoded JSON and the lookups the gateway makes in it. Parsing and printing JSON
// text, formatting numbers and drawing random IDs are supplied by the runtime and
// are parameters here.
module Json {
  import opened Wrappers

  datatype Json =
    | Null
    | Bool(flag: bool)
    | Num(number: real)
    | Str(text: string)
    | Arr(items: seq<Json>)
    | Obj(fields: map<string, Json>)

  type Fields = map<string, Json>

  datatype Runtime = Runtime(
    decode: string -> Option<Fields>, // a stream payload as an object; None when it does not decode
    nested: string -> Option<Fields>, // an object carried inside a JSON string; None when there is none
    jsonText: Json -> string,         // json.Marshal
    format: real -> string,           // strconv.FormatFloat
    valid: string -> bool,            // json.Valid
    newID: set<string> -> string)     // a random ID, given the IDs already in use
  {
    // Random IDs are non-empty and do not collide with the IDs in use.
    ghost predicate Sound() {
      && valid("{}")
      && forall used: set<string> :: newID(used) != "" && newID(used) !in used
    }
  }

  function Get(m: Fields, key: string): Option<Json> {
    if key in m then Some(m[key]) else None
  }

  // A Go map lookup compared with nil: absent and null are the same.
  predicate Present(m: Fields, key: string) {
    key in m && m[key] != Null
  }

  function ObjectValue(rt: Runtime, v: Option<Json>): Option<Fields> {
    match v
    case Some(Obj(m)) => Some(m)
    case Some(Str(s)) => rt.nested(s)
    case _ => None
  }

  // The first key that holds a non-empty string or a number.
  function FirstString(rt: Runtime, m: Fields, keys: seq<string>): string {
    if keys == [] then "" else
      match Get(m, keys[0])
      case Some(Num(n)) => rt.format(n)
      case Some(Str(s)) => if s != "" then s else FirstString(rt, m, keys[1..])
      case _ => FirstString(rt, m, keys[1..])
  }
}
