/** Request bodies and messages as `json_decode($text, true)` leaves them,
    and the PHP tests the services apply to their fields (`isset`, `empty`,
    `??`). Decoding itself is a library call and is not modelled: a body is
    either malformed or an already decoded key-to-value map. */
module Json {
  import opened Php

  /** A decoded field value. A nested array or object is only observed
      through `empty()` and through being an array, so it is kept as its
      element count. */
  datatype Value =
    | Null
    | Bool(b: bool)
    | Int(i: int)
    | Float(x: real)
    | Str(s: string)
    | Array(size: nat)

  /** `empty($v)`: null, false, 0, 0.0, "", "0" and the empty array. A value
      that is not empty is in particular set. */
  function Empty(v: Value): (e: bool)
    ensures v == Null ==> e
    ensures v.Str? ==> (e <==> EmptyString(v.s))
    ensures !e ==> v != Null
  {
    match v
    case Null => true
    case Bool(b) => !b
    case Int(i) => i == 0
    case Float(x) => x == 0.0
    case Str(s) => s == "" || s == "0"
    case Array(n) => n == 0
  }

  /** The result of `json_decode($text, true)`: `Malformed` when
      `json_last_error()` reports an error, otherwise the top-level keys of
      the document (none for a scalar or a list, whose fields are never set). */
  datatype Doc = Malformed | Decoded(fields: map<string, Value>)

  /** `$data[$key] ?? null`. */
  function Get(d: Doc, key: string): Value {
    if d.Decoded? && key in d.fields then d.fields[key] else Null
  }

  /** `isset($data[$key])`: present and not null. A malformed body has no
      field set. */
  function IsSet(d: Doc, key: string): (b: bool)
    ensures b <==> d.Decoded? && key in d.fields && d.fields[key] != Null
  {
    Get(d, key) != Null
  }

  /** `$data[$key] ?? $default`. */
  function GetOr(d: Doc, key: string, default: Value): (v: Value)
    ensures IsSet(d, key) ==> v == Get(d, key) && v != Null
    ensures !IsSet(d, key) ==> v == default
  {
    if IsSet(d, key) then Get(d, key) else default
  }
}

/** What a PHP script sends back: a status code and a body. */
module Http {
  import opened Php
  import opened Json

  datatype Body =
    | NoBody
      /** Bytes echoed verbatim. */
    | Raw(text: string)
      /** `json_encode` of an associative array. */
    | Object(fields: map<string, Value>)
      /** `json_encode` of a list of rows. */
    | Objects(items: seq<map<string, Value>>)

  datatype Response = Response(status: int, body: Body)

  /** `json_encode(['error' => $message])`. */
  function ErrorBody(message: string): Body {
    Object(map["error" := Str(message)])
  }

  function Error(status: int, message: string): Response {
    Response(status, ErrorBody(message))
  }

  /** What the client gets when a script dies of an exception it does not
      catch. PHP's own answer depends on its `display_errors` setting; it is
      taken to be a 500 with no JSON body. */
  const UncaughtError := Response(500, NoBody)

  /** `($_SERVER['HTTP_X_USER_ROLE'] ?? 'guest') === 'admin'`, the role test
      both backend services apply to the header the gateway sets. */
  function IsAdmin(roleHeader: Option<string>): (b: bool)
    ensures b <==> roleHeader == Some("admin")
  {
    roleHeader.GetOr("guest") == "admin"
  }
}
