/** Shared value types: optional values, results, JSON trees and instants. */
module Prelude {

  datatype Option<+T> = None | Some(value: T)

  datatype Result<+T> = Ok(value: T) | Err

  /** Instants are counted from an arbitrary origin. */
  type Time = nat

  /** `serde_json::Value`. An RFC 3339 timestamp string is represented by the instant it
      denotes, as `Instant`; it is a string to no reader that expects one. */
  datatype Json =
    | Null
    | Bool(b: bool)
    | Number(n: nat)
    | Instant(at: Time)
    | Str(s: string)
    | Arr(items: seq<Json>)
    | Obj(fields: map<string, Json>)

  /** `Value::get` with a string key. */
  function Get(j: Json, key: string): Option<Json> {
    if j.Obj? && key in j.fields then Some(j.fields[key]) else None
  }

  /** `Value::get(..).and_then(Value::as_str)`. */
  function GetStr(j: Json, key: string): Option<string> {
    match Get(j, key)
    case Some(Str(s)) => Some(s)
    case _ => None
  }

  /** `json!(option)` for optional strings and numbers. */
  function StrOrNull(o: Option<string>): Json {
    if o.Some? then Str(o.value) else Null
  }

  function NumberOrNull(o: Option<nat>): Json {
    if o.Some? then Number(o.value) else Null
  }

  lemma {:induction false} ConcatAssoc<T>(a: seq<T>, b: seq<T>, c: seq<T>)
    ensures (a + b) + c == a + (b + c)
  {
  }
}
