/**
  Saved games as a tree of JSON values, and the org.json accessors the
  decoder uses. Text syntax is not modelled: a stored game is a `Json` value.
  Each accessor accepts the kind of value the encoder writes; a `get`
  accessor fails (org.json throws) on a missing key or another kind, an
  `opt` accessor falls back to its default.
 */
module Json {
  import opened Wrappers

  datatype Json =
    | JNull
    | JBool(b: bool)
    | JNumber(n: real)
    | JString(s: string)
    | JArray(elems: seq<Json>)
    | JObject(fields: map<string, Json>)

  /** Why decoding a saved game failed. */
  datatype JsonError =
    | Missing(key: string)
    | WrongKind(key: string)
    | NotAnObject
    | UnknownRarity(name: string)

  /**
    Conversion of a number to an integer as `intValue()` does it for values
    within `Int`'s 32-bit range: toward zero. Values outside that range are
    not modelled.
   */
  function Truncate(x: real): (n: int)
    ensures 0.0 <= x ==> n as real <= x < n as real + 1.0
    ensures x < 0.0 ==> n as real - 1.0 < x <= n as real
  {
    if 0.0 <= x then x.Floor else -((-x).Floor)
  }

  /** A stored integer reads back unchanged. */
  lemma TruncateInt(n: int)
    ensures Truncate(n as real) == n
  {
  }

  /** `getString`: the string stored under `key`. */
  function GetString(o: map<string, Json>, key: string): Result<string, JsonError> {
    if key !in o then Failure(Missing(key))
    else if o[key].JString? then Success(o[key].s)
    else Failure(WrongKind(key))
  }

  /** `getInt`: the number stored under `key`, truncated. */
  function GetInt(o: map<string, Json>, key: string): Result<int, JsonError> {
    if key !in o then Failure(Missing(key))
    else if o[key].JNumber? then Success(Truncate(o[key].n))
    else Failure(WrongKind(key))
  }

  /** `getBoolean`: the boolean stored under `key`. */
  function GetBoolean(o: map<string, Json>, key: string): Result<bool, JsonError> {
    if key !in o then Failure(Missing(key))
    else if o[key].JBool? then Success(o[key].b)
    else Failure(WrongKind(key))
  }

  /** `getJSONObject`: the object stored under `key`. */
  function GetObject(o: map<string, Json>, key: string): Result<map<string, Json>, JsonError> {
    if key !in o then Failure(Missing(key))
    else if o[key].JObject? then Success(o[key].fields)
    else Failure(WrongKind(key))
  }

  /** `optDouble`: the number stored under `key`, or `fallback`. */
  function OptDouble(o: map<string, Json>, key: string, fallback: real): real {
    if key in o && o[key].JNumber? then o[key].n else fallback
  }

  /** `optInt`: the number stored under `key`, truncated, or `fallback`. */
  function OptInt(o: map<string, Json>, key: string, fallback: int): int {
    if key in o && o[key].JNumber? then Truncate(o[key].n) else fallback
  }

  /** `optJSONArray`, with a missing or non-array value read as no elements (the loop over it does not run). */
  function OptArray(o: map<string, Json>, key: string): seq<Json> {
    if key in o && o[key].JArray? then o[key].elems else []
  }
}
