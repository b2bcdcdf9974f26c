/** JSON values as the executor sees them, and the error-envelope conventions built on them. */
module JsonValues {
  import opened Base

  /** Numbers keep their literal text: nothing in the modelled code computes with them. */
  datatype Json =
    | Null
    | Bool(b: bool)
    | Number(text: string)
    | String(s: string)
    | Array(items: seq<Json>)
    | Object(fields: map<string, Json>)

  function Get(v: Json, key: string): Option<Json> {
    if v.Object? && key in v.fields then Some(v.fields[key]) else None
  }

  function GetString(v: Json, key: string): Option<string> {
    match Get(v, key)
    case Some(String(s)) => Some(s)
    case _ => None
  }

  /** Insertion into an object; other values are left alone. */
  function Insert(v: Json, key: string, x: Json): Json {
    if v.Object? then Object(v.fields[key := x]) else v
  }

  function Remove(v: Json, key: string): Json {
    if v.Object? then Object(v.fields - {key}) else v
  }

  /** The type of the first entry of `errors`: what makes a state a typed error envelope. */
  function ErrorType(v: Json): Option<string> {
    match Get(v, "errors")
    case Some(Array(items)) => if items != [] then GetString(items[0], "type") else None
    case _ => None
  }

  /** `@error(name)`: retype the first error object, if there is one. */
  function OverrideErrorType(v: Json, errorType: Option<string>): Json {
    match (errorType, Get(v, "errors"))
    case (Some(t), Some(Array(items))) =>
      if items != [] && items[0].Object?
      then Insert(v, "errors", Array(items[0 := Insert(items[0], "type", String(t))]))
      else v
    case _ => v
  }

  /** The envelope a failing middleware leaves in the state. */
  function MiddlewareErrorValue(name: string, message: string, location: Option<string>): Json {
    var base := map["type" := String(name + "Error"), "message" := String(message), "step" := String(name)];
    var err := if location.Some? then base["location" := String(location.value)] else base;
    Object(map["errors" := Array([Object(err)])])
  }

  /** Object merge in which the incoming keys win; anything else replaces. */
  function MergeState(current: Json, incoming: Json): Json {
    if current.Object? && incoming.Object? then Object(current.fields + incoming.fields) else incoming
  }

  // ----- selector paths -----

  function SplitDots(s: string, current: string): seq<string> {
    if s == [] then [current]
    else if s[0] == '.' then [current] + SplitDots(s[1..], [])
    else SplitDots(s[1..], current + [s[0]])
  }

  function NonEmpty(parts: seq<string>): seq<string> {
    if parts == [] then []
    else if parts[0] == [] then NonEmpty(parts[1..])
    else [parts[0]] + NonEmpty(parts[1..])
  }

  /** Dots separate; leading, doubled and trailing dots are ignored. */
  function ParsePath(path: string): seq<string> { NonEmpty(SplitDots(path, [])) }

  function GetPath(v: Json, parts: seq<string>): Option<Json>
    decreases |parts|
  {
    if parts == [] then Some(v)
    else match v
      case Object(fields) =>
        if parts[0] in fields then GetPath(fields[parts[0]], parts[1..]) else None
      case Array(items) =>
        (match ParseUnsigned(parts[0])
         case Some(i) => if i < |items| then GetPath(items[i], parts[1..]) else None
         case None => None)
      case _ => None
  }

  /** Write through the path when it exists; otherwise leave the value alone. */
  function SetPath(v: Json, parts: seq<string>, x: Json): Json
    decreases |parts|
  {
    if parts == [] then x
    else match v
      case Object(fields) =>
        if parts[0] in fields
        then Object(fields[parts[0] := SetPath(fields[parts[0]], parts[1..], x)])
        else v
      case Array(items) =>
        (match ParseUnsigned(parts[0])
         case Some(i) => if i < |items| then Array(items[i := SetPath(items[i], parts[1..], x)]) else v
         case None => v)
      case _ => v
  }
}
