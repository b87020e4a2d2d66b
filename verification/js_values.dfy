/**
  The JavaScript values that flow through the relay and the page: JSON data
  plus `undefined` and `NaN`, with JavaScript's truthiness and property
  access. Every check in the relay is a truthiness test (`!webhookUrl`,
  `!payload.text`), so truthiness is spelled out here rather than
  approximated by "non-empty".
 */
module JsValues {

  /** The media type of JSON text, sent as the `Content-Type` of every webhook POST. */
  const JsonMediaType: string := "application/json"

  /** `None` stands for `undefined`: a field that was never supplied. */
  datatype Option<+T> = None | Some(value: T)

  /**
    A JavaScript number as far as this system produces one: the integers
    `parseInt` and the page's literals yield, or `NaN`. Negative zero is
    identified with zero; fractions are not modelled.
   */
  datatype Number = Int(i: int) | NaN

  datatype Json =
    | JNull
    | JBool(b: bool)
    | JNumber(n: Number)
    | JString(s: string)
    | JArray(items: seq<Json>)
    | JObject(members: seq<Member>)

  /** One `key: value` entry of an object, in source order. */
  datatype Member = Member(key: string, value: Json)

  /**
    JavaScript's ToBoolean: `null`, `false`, `0`, `NaN` and `""` are falsy;
    every array and every object is truthy, including `[]` and `{}`.
   */
  predicate Truthy(v: Json)
    ensures v.JArray? || v.JObject? ==> Truthy(v)
    ensures v.JString? ==> (Truthy(v) <==> |v.s| > 0)
    ensures v.JNumber? ==> (Truthy(v) <==> v.n != NaN && v.n != Int(0))
    ensures v.JNull? ==> !Truthy(v)
    ensures v.JBool? ==> (Truthy(v) <==> v.b)
  {
    match v
    case JNull => false
    case JBool(b) => b
    case JNumber(n) => n.Int? && n.i != 0
    case JString(s) => s != ""
    case JArray(_) => true
    case JObject(_) => true
  }

  /** Truthiness of a possibly-`undefined` value; `undefined` is falsy. */
  predicate Defined(v: Option<Json>) {
    v.Some? && Truthy(v.value)
  }

  /**
    The value an object with these entries holds under `key`. A later entry
    with the same key overrides an earlier one, as in an object literal and
    in `JSON.parse`.
   */
  function Lookup(members: seq<Member>, key: string): (r: Option<Json>)
    ensures r.None? <==> forall i :: 0 <= i < |members| ==> members[i].key != key
    ensures r.Some? ==>
      exists i :: 0 <= i < |members| && members[i] == Member(key, r.value) &&
        forall j :: i < j < |members| ==> members[j].key != key
  {
    if |members| == 0 then None
    else if members[|members| - 1].key == key then Some(members[|members| - 1].value)
    else Lookup(members[..|members| - 1], key)
  }

  /**
    The property read `v.key` on a defined value, for the keys the relay
    reads (`text`, `blocks`, `content`, `embeds`), none of which is inherited
    from a built-in prototype: only an object can supply them.
   */
  function Get(v: Json, key: string): (r: Option<Json>)
    ensures r.Some? ==> v.JObject?
  {
    if v.JObject? then Lookup(v.members, key) else None
  }

  /** A one-entry object `{key: value}`. */
  function Single(key: string, value: Json): (o: Json)
    ensures Get(o, key) == Some(value)
    ensures forall k :: k != key ==> Get(o, k).None?
  {
    JObject([Member(key, value)])
  }
}
