/**
 * The slice of JavaScript the webhook handler relies on: the values
 * JSON.parse can produce, `undefined`, reading a property, converting a
 * value to text for `+` (which can throw), and the errors the handler can
 * throw.
 */
module Js {

  datatype Option<+T> = None | Some(value: T)

  /** A value JSON.parse can produce. A number carries the text JavaScript
      prints for it. */
  datatype Json =
    | Null
    | Bool(b: bool)
    | Num(text: string)
    | Str(s: string)
    | Arr(items: seq<Json>)
    | Obj(fields: map<string, Json>)

  /** A JavaScript value read out of a parsed payload. */
  datatype Value = Undefined | Defined(json: Json)

  /** What the handler can throw. */
  datatype Error =
    | InvalidArgType(argument: string)  // Node's ERR_INVALID_ARG_TYPE from the crypto module
    | JsonSyntaxError                   // JSON.parse on text that is not JSON
    | NullishRead(property: string)     // TypeError: a property read on undefined or null
    | ServiceError(message: string)     // an AWS client call that rejected
    | NoPrimitive                       // TypeError: an object that cannot be converted to text

  /** A computation that either produced a value or threw. */
  datatype Outcome<+T> = Done(value: T) | Threw(error: Error)

  /** `m[key]` on a plain object of strings, with `undefined` as None. */
  function Lookup(m: map<string, string>, key: string): (v: Option<string>)
    ensures v.Some? <==> key in m
    ensures v.Some? ==> v.value == m[key]
  {
    if key in m then Some(m[key]) else None
  }

  predicate Nullish(v: Value)
  {
    v == Undefined || v == Defined(Null)
  }

  /** `v[key]`: throws on undefined and null, reads an own field of an
      object, and is `undefined` on every other value. */
  function Get(v: Value, key: string): (r: Outcome<Value>)
    ensures r.Threw? <==> Nullish(v)
    ensures r.Threw? ==> r.error == NullishRead(key)
    ensures r.Done? ==> (r.value != Undefined <==> v.json.Obj? && key in v.json.fields)
    ensures r.Done? && r.value != Undefined ==> r.value.json == v.json.fields[key]
  {
    match v
    case Undefined => Threw(NullishRead(key))
    case Defined(j) =>
      match j
      case Null => Threw(NullishRead(key))
      case Obj(fields) => if key in fields then Done(Defined(fields[key])) else Done(Undefined)
      case _ => Done(Undefined)
  }

  /** Whether converting j to text reaches an object with an own `toString`
      field. A field of a parsed object is never callable, so the lookup of
      `toString` finds a value it cannot call and the conversion has nothing
      left that yields a primitive: `valueOf` of an object returns the object
      itself. Array elements are converted one by one when an array is
      joined, so the same holds for an object anywhere inside an array. */
  predicate HasOwnToString(j: Json)
  {
    match j
    case Obj(fields) => "toString" in fields
    case Arr(items) => exists i :: 0 <= i < |items| && HasOwnToString(items[i])
    case _ => false
  }

  /** The text `"" + v` produces: `undefined` prints as such, a string is
      itself, and a value that cannot be converted makes `+` throw. */
  function Text(v: Value): (r: Outcome<string>)
    ensures r.Threw? <==> v.Defined? && HasOwnToString(v.json)
    ensures r.Threw? ==> r.error == NoPrimitive
    ensures v == Undefined ==> r == Done("undefined")
    ensures v.Defined? && v.json.Str? ==> r == Done(v.json.s)
  {
    match v
    case Undefined => Done("undefined")
    case Defined(j) => JsonText(j)
  }

  /** The text of a parsed value. An array joins its elements with ","
      and prints a null element as empty text; an object prints as
      "[object Object]". */
  function JsonText(j: Json): (r: Outcome<string>)
    ensures r.Threw? <==> HasOwnToString(j)
    ensures r.Threw? ==> r.error == NoPrimitive
  {
    match j
    case Null => Done("null")
    case Bool(b) => Done(if b then "true" else "false")
    case Num(t) => Done(t)
    case Str(s) => Done(s)
    case Arr(items) =>
      var parts := seq(|items|, i requires 0 <= i < |items| => if items[i].Null? then Done("") else JsonText(items[i]));
      assert forall i :: 0 <= i < |items| ==> (parts[i].Threw? <==> HasOwnToString(items[i]));
      if exists i :: 0 <= i < |parts| && parts[i].Threw? then Threw(NoPrimitive)
      else Done(Join(seq(|parts|, i requires 0 <= i < |parts| => parts[i].value), ","))
    case Obj(fields) => if "toString" in fields then Threw(NoPrimitive) else Done("[object Object]")
  }

  /** The parts joined with `sep` between neighbours. */
  function Join(parts: seq<string>, sep: string): string
  {
    if |parts| == 0 then ""
    else if |parts| == 1 then parts[0]
    else parts[0] + sep + Join(parts[1..], sep)
  }

  /** `Join` agrees with Array.prototype.join, which builds the text from the
      left: the separator, then the next element, appended to what is there. */
  lemma {:induction false} JoinAppend(parts: seq<string>, p: string, sep: string)
    ensures Join(parts + [p], sep) == if parts == [] then p else Join(parts, sep) + sep + p
  {
    if |parts| > 1 {
      assert (parts + [p])[1..] == parts[1..] + [p];
      JoinAppend(parts[1..], p, sep);
    } else if |parts| == 1 {
      assert (parts + [p])[1..] == [p];
    }
  }
}

/** The event record the Lambda runtime hands to the handler. */
module Events {
  import opened Js

  /** The body is the raw request text on arrival; the handler replaces it
      with the parsed payload once the signature has been checked. */
  datatype Body = Absent | Raw(text: string) | Parsed(json: Json)

  /** `rest` stands for every other field of the event (request context and
      so on); the handler never reads it but serialises it with the rest. */
  datatype Event = Event(headers: map<string, string>, body: Body, rest: map<string, Json>)
}
