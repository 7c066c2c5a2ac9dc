/**
 * The JavaScript values the SDK's decision logic inspects, the JSON values it
 * sends and receives, and the foreign operations it calls (the URL parser,
 * number parsing and printing, base64, JSON). The foreign operations are not
 * modelled: they enter every member that needs them as fields of a `Host`.
 */
module Js {

  datatype Option<T> = None | Some(value: T)

  datatype Result<T, E> = Ok(value: T) | Err(error: E)

  /** A JavaScript primitive as it can appear as a claim field, a user id or a query parameter. */
  datatype JsValue = Undefined | Null | Str(s: string) | Num(n: real) | NaN | Bool(b: bool)

  /** A JSON value: what `JSON.parse` yields and `JSON.stringify` accepts. */
  datatype Json =
    | JNull
    | JBool(b: bool)
    | JNum(n: real)
    | JStr(s: string)
    | JArr(items: seq<Json>)
    | JObj(fields: map<string, Json>)

  /** The parts of a parsed URL that `parseURI` reads: `protocol`, `hostname` and `pathname`. */
  datatype UrlParts = UrlParts(protocol: string, hostname: string, pathname: string)

  /**
   * The foreign operations, as total functions:
   *  - urlParses(s): `new URL(s)` does not throw (WHATWG URL Standard, basic URL parser);
   *  - urlParts(s): the components of `new URL(s)` when it parses;
   *  - parseNumber(s): `Number(s)`, None when the result is NaN;
   *  - numberToString(n): `String(n)`;
   *  - base64Decode(s): `atob(s)` followed by the percent-escape and
   *    `decodeURIComponent` steps, None when either throws;
   *  - base64Encode(s): `Buffer.from(s).toString('base64')`;
   *  - jsonParse(s): `JSON.parse(s)`, None when it throws;
   *  - jsonStringify(j): `JSON.stringify(j)`;
   *  - jsonToString(j): `String(j)` for a parsed JSON value.
   */
  datatype Host = Host(
    urlParses: string -> bool,
    urlParts: string -> UrlParts,
    parseNumber: string -> Option<real>,
    numberToString: real -> string,
    base64Decode: string -> Option<string>,
    base64Encode: string -> string,
    jsonParse: string -> Option<Json>,
    jsonStringify: Json -> string,
    jsonToString: Json -> string
  )

  /** `!!v` */
  predicate Truthy(v: JsValue) {
    match v
    case Undefined => false
    case Null => false
    case Str(s) => s != ""
    case Num(n) => n != 0.0
    case NaN => false
    case Bool(b) => b
  }

  /** `!!j` for a JSON value: arrays and objects are always truthy. */
  predicate JsonTruthy(j: Json) {
    match j
    case JNull => false
    case JBool(b) => b
    case JNum(n) => n != 0.0
    case JStr(s) => s != ""
    case JArr(_) => true
    case JObj(_) => true
  }

  /** `Number(v)`, None standing for NaN. */
  function JsToNumber(v: JsValue, host: Host): (r: Option<real>)
    ensures v.Num? ==> r == Some(v.n)
    ensures v == Undefined || v == NaN ==> r == None
    ensures v == Null ==> r == Some(0.0)
  {
    match v
    case Undefined => None
    case Null => Some(0.0)
    case Str(s) => host.parseNumber(s)
    case Num(n) => Some(n)
    case NaN => None
    case Bool(b) => Some(if b then 1.0 else 0.0)
  }

  /** `String(v)`: how a value is printed into a URL, a template or a query parameter. */
  function JsToString(v: JsValue, host: Host): (r: string)
    ensures v.Str? ==> r == v.s
  {
    match v
    case Undefined => "undefined"
    case Null => "null"
    case Str(s) => s
    case Num(n) => host.numberToString(n)
    case NaN => "NaN"
    case Bool(b) => if b then "true" else "false"
  }

  /** `String(j)` for a JSON value; strings print as themselves. */
  function JsonToString(j: Json, host: Host): (r: string)
    ensures j.JStr? ==> r == j.s
  {
    if j.JStr? then j.s else host.jsonToString(j)
  }

  /** `Math.round(x)`: the nearest integer, halves rounded up. */
  function JsRound(x: real): (r: int)
    ensures x - 0.5 < r as real <= x + 0.5
  {
    (x + 0.5).Floor
  }

  lemma {:induction false} JsRoundOfInt(k: int)
    ensures JsRound(k as real) == k
  {
    var r := JsRound(k as real);
    assert k as real - 0.5 < r as real <= k as real + 0.5;
  }

  /** A JavaScript object with primitive properties, as the list that `Object.entries` gives. */
  type JsObject = seq<(string, JsValue)>

  /** JavaScript objects never hold a key twice. */
  predicate DistinctKeys(o: JsObject) {
    forall i, j | 0 <= i < j < |o| :: o[i].0 != o[j].0
  }

  /** `o[key]`; an absent key reads as undefined. */
  function Get(o: JsObject, key: string): (v: JsValue)
    ensures v != Undefined ==> exists i | 0 <= i < |o| :: o[i] == (key, v)
    ensures forall i | 0 <= i < |o| :: o[i].0 == key && (forall j | 0 <= j < i :: o[j].0 != key) ==> v == o[i].1
    decreases |o|
  {
    if o == [] then Undefined
    else if o[0].0 == key then o[0].1
    else
      var v := Get(o[1..], key);
      assert forall i | 1 <= i < |o| :: o[i] == o[1..][i - 1];
      v
  }

  /** The JSON text an object turns into: undefined properties are dropped and NaN becomes null. */
  function ObjectToJson(o: JsObject): (j: Json)
    ensures j.JObj?
    ensures forall k | k in j.fields :: exists i | 0 <= i < |o| :: o[i].0 == k && o[i].1 != Undefined
    decreases |o|
  {
    if o == [] then JObj(map[])
    else
      var rest := ObjectToJson(o[1..]);
      assert forall k | k in rest.fields :: exists i | 0 <= i < |o| :: o[i].0 == k && o[i].1 != Undefined by {
        forall k | k in rest.fields ensures exists i | 0 <= i < |o| :: o[i].0 == k && o[i].1 != Undefined {
          var i :| 0 <= i < |o[1..]| && o[1..][i].0 == k && o[1..][i].1 != Undefined;
          assert o[i + 1] == o[1..][i];
        }
      }
      match PrimitiveToJson(o[0].1)
      case None => rest
      case Some(v) => JObj(rest.fields[o[0].0 := v])
  }

  /** Every defined property of the object reaches the JSON object. */
  lemma {:induction false} DefinedPropertyKept(o: JsObject, i: nat)
    requires i < |o| && o[i].1 != Undefined
    ensures o[i].0 in ObjectToJson(o).fields
    decreases i
  {
    if i > 0 {
      assert o[1..][i - 1] == o[i];
      DefinedPropertyKept(o[1..], i - 1);
    }
  }

  /** A defined property carries its own value into the JSON object (the first one, should a key repeat). */
  lemma {:induction false} DefinedPropertyValue(o: JsObject, i: nat)
    requires i < |o| && o[i].1 != Undefined
    requires forall m | 0 <= m < i :: o[m].0 != o[i].0
    ensures o[i].0 in ObjectToJson(o).fields
    ensures Some(ObjectToJson(o).fields[o[i].0]) == PrimitiveToJson(o[i].1)
    decreases i
  {
    if i > 0 {
      assert o[1..][i - 1] == o[i];
      assert o[0].0 != o[i].0;
      forall m | 0 <= m < i - 1
        ensures o[1..][m].0 != o[1..][i - 1].0
      {
        assert o[1..][m] == o[m + 1];
      }
      DefinedPropertyValue(o[1..], i - 1);
    }
  }

  /** The JSON form of one primitive; undefined has none. */
  function PrimitiveToJson(v: JsValue): (r: Option<Json>)
    ensures r.None? <==> v == Undefined
  {
    match v
    case Undefined => None
    case Null => Some(JNull)
    case Str(s) => Some(JStr(s))
    case Num(n) => Some(JNum(n))
    case NaN => Some(JNull)
    case Bool(b) => Some(JBool(b))
  }
}
