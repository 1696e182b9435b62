/**
 * JSON documents and the JavaScript values read out of them. `JSON.stringify` and
 * `JSON.parse` are not modelled character by character: they are an injected `Codec`
 * whose only law is that parsing what was stringified gives the document back.
 */
module Json {
  import opened Common
  import opened Text

  /** A JSON document. Numbers are integers in this model. */
  datatype Json =
    | JNull
    | JBool(b: bool)
    | JNum(n: int)
    | JStr(s: string)
    | JArr(items: seq<Json>)
    | JObj(fields: map<string, Json>)

  /** A JavaScript value read from a document: `undefined`, or a JSON value. */
  datatype Js = Undefined | Value(v: Json)

  /** JavaScript `null`. */
  const Null: Js := Value(JNull)

  /** JavaScript truthiness (`if (x)`, `x || y`): undefined, null, false, 0 and "" are falsy. */
  predicate Truthy(x: Js) {
    match x
    case Undefined => false
    case Value(JNull) => false
    case Value(JBool(b)) => b
    case Value(JNum(n)) => n != 0
    case Value(JStr(s)) => s != ""
    case Value(_) => true
  }

  /** A truthy optional string (`s` where `null`/`undefined` is `None`): present and not empty. */
  predicate Given(s: Option<string>) {
    s.Some? && s.value != ""
  }

  /** Reading `v.name` from a value that is not null: only objects have named members here. */
  function Member(v: Json, name: string): (r: Js)
    requires v != JNull
    ensures r != Undefined <==> (v.JObj? && name in v.fields)
    ensures r != Undefined ==> r == Value(v.fields[name])
  {
    if v.JObj? && name in v.fields then Value(v.fields[name]) else Undefined
  }

  /**
   * JavaScript's `Number(x)` on the values a timestamp field can hold; `None` is NaN. A string
   * converts as a decimal literal (`StringToNumber`), an array through its text `String(x)`
   * (so `[]` is 0 and `[t]` is `t`), and an object is NaN.
   */
  function ToNumber(x: Js): Option<int> {
    match x
    case Undefined => None
    case Value(JNum(n)) => Some(n)
    case Value(JNull) => Some(0)
    case Value(JBool(b)) => Some(if b then 1 else 0)
    case Value(JStr(s)) => StringToNumber(s)
    case Value(JArr(items)) => StringToNumber(ToText(JArr(items)))
    case Value(JObj(_)) => None
  }

  /** A timestamp held as text: the decimal text of `t`, with any white space around it, is `t`. */
  lemma ToNumberText(t: int, a: string, b: string)
    requires IsBlank(a) && IsBlank(b)
    ensures ToNumber(Value(JStr(a + IntToString(t) + b))) == Some(t)
    ensures ToNumber(Value(JStr(IntToString(t)))) == Some(t)
  {
    StringToNumberOfIntToString(t, a, b);
    StringToNumberOfDecimal(t);
  }

  /** An empty text or array is 0, and an object or undefined is NaN. */
  lemma ToNumberEmpty(fields: map<string, Json>)
    ensures ToNumber(Value(JStr(""))) == Some(0)
    ensures ToNumber(Value(JArr([]))) == Some(0)
    ensures ToNumber(Value(JObj(fields))).None? && ToNumber(Undefined).None?
  {
    var none: seq<Json> := [];
    assert ToText(JArr(none)) == "";
    StringToNumberBlank("");
  }

  /** A one-element array holding the number `t` converts through its text to `t`. */
  lemma ToNumberSingleton(t: int)
    ensures ToNumber(Value(JArr([JNum(t)]))) == Some(t)
  {
    var one := [JNum(t)];
    var texts := seq(|one|, i requires 0 <= i < |one| => if one[i] == JNull then "" else ToText(one[i]));
    assert texts == [IntToString(t)];
    assert ToText(JArr(one)) == IntToString(t);
    StringToNumberOfDecimal(t);
  }

  /** `parts.join(",")`. */
  function JoinComma(parts: seq<string>): string {
    if |parts| == 0 then ""
    else if |parts| == 1 then parts[0]
    else parts[0] + "," + JoinComma(parts[1..])
  }

  /**
   * JavaScript's `String(x)` (and so the message of `new Error(x)`): arrays are joined with
   * commas, a null element giving "", and every object reads "[object Object]".
   */
  function ToText(j: Json): string {
    match j
    case JNull => "null"
    case JBool(b) => if b then "true" else "false"
    case JNum(n) => IntToString(n)
    case JStr(s) => s
    case JArr(items) =>
      JoinComma(seq(|items|, i requires 0 <= i < |items| => if items[i] == JNull then "" else ToText(items[i])))
    case JObj(_) => "[object Object]"
  }

  /** The message of the TypeError a member read on `null` throws (V8's wording). */
  function NullRead(member: string): string {
    "Cannot read properties of null (reading '" + member + "')"
  }

  /**
   * How a `fetch` went: it rejected with a message, or a response came with its OK flag and
   * its body as `response.json()` reads it (an error message when that read throws).
   */
  datatype HttpReply = Unreachable(message: string) | Answered(ok: bool, body: Result<Json, string>)

  /**
   * The message of `new Error(data[member] || fallback)` thrown after `data = await
   * response.json()`: the read's own error when it threw, the TypeError of a member read
   * when the body is null, the member's text when it is truthy, else the fallback.
   */
  function ErrorMessage(body: Result<Json, string>, member: string, fallback: string): (m: string)
    ensures body.Err? ==> m == body.error
    ensures body.Ok? && body.value == JNull ==> m == NullRead(member)
    ensures body.Ok? && body.value != JNull && !Truthy(Member(body.value, member)) ==> m == fallback
    ensures body.Ok? && body.value != JNull && Member(body.value, member).Value?
            && Member(body.value, member).v.JStr? && Member(body.value, member).v.s != "" ==>
              m == Member(body.value, member).v.s
  {
    match body
    case Err(e) => e
    case Ok(data) =>
      if data == JNull then NullRead(member)
      else
        var value := Member(data, member);
        if Truthy(value) then ToText(value.v) else fallback
  }

  /** `JSON.stringify` and `JSON.parse`; `parse` returns `None` where `JSON.parse` throws. */
  datatype Codec = Codec(stringify: Json -> string, parse: string -> Option<Json>)

  /** A JSON text is never empty, and parsing it gives back the document it was made from. */
  ghost predicate Lawful(c: Codec) {
    forall j: Json :: c.stringify(j) != "" && c.parse(c.stringify(j)) == Some(j)
  }
}
