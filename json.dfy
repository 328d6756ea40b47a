/**
 * JSON values as the JavaScript side sees them once parsed, with the three
 * language operations the source applies to them: truthiness (`body ? … : …`),
 * the `detail` property read, and the `String(…)` conversion an `Error`
 * constructor applies to its message.
 */
module Json {
  import opened Wrappers
  import JsStrings

  /** A parsed JSON value; numbers are integers (see README, "Left out"). */
  datatype Value =
    | JNull
    | JBool(b: bool)
    | JNum(n: int)
    | JStr(s: string)
    | JArr(items: seq<Value>)
    | JObj(fields: map<string, Value>)

  /** JavaScript's ToBoolean on a JSON value: arrays and objects are always truthy. */
  predicate Truthy(v: Value) {
    match v
    case JNull => false
    case JBool(b) => b
    case JNum(n) => n != 0
    case JStr(s) => s != ""
    case JArr(_) => true
    case JObj(_) => true
  }

  /** `s || null` for a string: `null` exactly for the empty string. */
  function OrNull(s: string): (v: Value)
    ensures v == JNull <==> s == ""
    ensures s != "" ==> v == JStr(s)
  {
    if s != "" then JStr(s) else JNull
  }

  /** The outcome of reading a property `v.key`: reading a property of `null` throws a TypeError. */
  datatype PropertyRead = ThrowsTypeError | Read(value: Option<Value>)

  /**
   * `v.key` for a key that is not a built-in property of strings or arrays:
   * only an object can hold it, and `None` stands for `undefined`.
   */
  function GetProperty(v: Value, key: string): (r: PropertyRead)
    ensures r.ThrowsTypeError? <==> v == JNull
    ensures r.Read? && r.value.Some? <==> v.JObj? && key in v.fields
    ensures r.Read? && r.value.Some? ==> r.value.value == v.fields[key]
  {
    match v
    case JNull => ThrowsTypeError
    case JObj(fields) => Read(if key in fields then Some(fields[key]) else None)
    case _ => Read(None)
  }

  /**
   * Whether `String(v)` throws a TypeError. A parsed object holding its own
   * `toString` key shadows the inherited method with a value that is not
   * callable, and its inherited `valueOf` returns the object itself, so
   * there is no primitive to convert. An array throws when one of its
   * elements does.
   */
  predicate ToStringThrows(v: Value)
    decreases v
  {
    match v
    case JObj(fields) => "toString" in fields
    case JArr(items) => exists i :: 0 <= i < |items| && ToStringThrows(items[i])
    case _ => false
  }

  /** `parts.join(sep)` over element renderings, any of which may have thrown (`None`). */
  function JoinRendered(parts: seq<Option<string>>, sep: string): (r: Option<string>)
    ensures r.None? <==> exists i :: 0 <= i < |parts| && parts[i].None?
  {
    if parts == [] then Some("")
    else if parts[0].None? then None
    else if |parts| == 1 then parts[0]
    else
      match JoinRendered(parts[1..], sep)
      case None => None
      case Some(rest) => Some(parts[0].value + sep + rest)
  }

  /**
   * `String(v)`, or `None` when it throws: strings stand for themselves, an
   * array is the comma-joined rendering of its elements with `null`
   * elements rendered empty, and an object without its own `toString` is
   * "[object Object]".
   */
  function ToJsString(v: Value): (r: Option<string>)
    ensures r.None? <==> ToStringThrows(v)
    ensures v.JStr? ==> r == Some(v.s)
    decreases v
  {
    match v
    case JNull => Some("null")
    case JBool(b) => Some(if b then "true" else "false")
    case JNum(n) => Some(JsStrings.IntToString(n))
    case JStr(s) => Some(s)
    case JArr(items) =>
      var parts := seq(|items|, i requires 0 <= i < |items| =>
        if items[i] == JNull then Some("") else ToJsString(items[i]));
      assert forall i :: 0 <= i < |items| ==> (parts[i].None? <==> ToStringThrows(items[i]));
      JoinRendered(parts, ",")
    case JObj(fields) => if "toString" in fields then None else Some("[object Object]")
  }
}
