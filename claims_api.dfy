/**
 * The claims endpoints (sdk/typescript/src/claims-api.ts): a first-failure
 * validation that throws, its own looser URI test, and the requests each
 * method hands to `request`.
 */
module ClaimsApi {
  import opened Js
  import opened Strings
  import opened ApiClient
  import Validators

  /** A call to `request`: the path and the options. */
  datatype Call = Call(path: string, options: RequestOptions)

  /**
   * `isValidURI`: true when `new URL` accepts the text; when it throws, true
   * exactly for text starting with `urn:` or `did:`. The value is converted by
   * `String`, as both `new URL` and `RegExp.test` do.
   */
  function IsValidURI(v: JsValue, host: Host): (r: bool)
    ensures host.urlParses(JsToString(v, host)) ==> r
    ensures !host.urlParses(JsToString(v, host)) ==>
      (r <==> |JsToString(v, host)| >= 4 && JsToString(v, host)[..4] in {"urn:", "did:"})
  {
    var s := JsToString(v, host);
    host.urlParses(s) || StartsWith(s, "urn:") || StartsWith(s, "did:")
  }

  /** `x < bound` with `x` converted by `Number`; NaN compares false. */
  predicate Below(v: JsValue, bound: real, host: Host) {
    JsToNumber(v, host).Some? && JsToNumber(v, host).value < bound
  }

  /** `x > bound` with `x` converted by `Number`; NaN compares false. */
  predicate Above(v: JsValue, bound: real, host: Host) {
    JsToNumber(v, host).Some? && JsToNumber(v, host).value > bound
  }

  /** The messages of the eight checks, in the order `validateClaim` makes them. */
  const CHECK_MESSAGES: seq<string> := [
    "subject is required",
    "subject must be a valid URI",
    "claim is required",
    "statement is required",
    "object must be a valid URI",
    "sourceURI must be a valid URI",
    "score must be between -1 and 1",
    "stars must be between 1 and 5"
  ]

  /** Check number `i` rejects the claim. */
  predicate CheckFails(claim: JsObject, i: nat, host: Host) {
    var subject := Get(claim, "subject");
    var obj := Get(claim, "object");
    var source := Get(claim, "sourceURI");
    var score := Get(claim, "score");
    var stars := Get(claim, "stars");
    if i == 0 then !Truthy(subject)
    else if i == 1 then !IsValidURI(subject, host)
    else if i == 2 then !Truthy(Get(claim, "claim"))
    else if i == 3 then !Truthy(Get(claim, "statement"))
    else if i == 4 then Truthy(obj) && !IsValidURI(obj, host)
    else if i == 5 then Truthy(source) && !IsValidURI(source, host)
    else if i == 6 then score != Undefined && (Below(score, -1.0, host) || Above(score, 1.0, host))
    else if i == 7 then stars != Undefined && (Below(stars, 1.0, host) || Above(stars, 5.0, host))
    else false
  }

  /** The first check from number `from` on that rejects the claim. */
  function FirstFailure(claim: JsObject, from: nat, host: Host): (r: Option<nat>)
    ensures r.Some? ==> from <= r.value < 8 && CheckFails(claim, r.value, host)
    ensures r.Some? ==> forall j: nat | from <= j < r.value :: !CheckFails(claim, j, host)
    ensures r.None? <==> forall j: nat | from <= j < 8 :: !CheckFails(claim, j, host)
    decreases 8 - from
  {
    if from >= 8 then None
    else if CheckFails(claim, from, host) then Some(from)
    else FirstFailure(claim, from + 1, host)
  }

  /**
   * `validateClaim`: the checks run in their fixed order and the first one
   * that fails throws its message; None when all pass.
   */
  function ValidateClaim(claim: JsObject, host: Host): (r: Option<string>)
    ensures r.None? <==> forall i: nat | i < 8 :: !CheckFails(claim, i, host)
    ensures r.Some? ==> exists i: nat | i < 8 ::
      CheckFails(claim, i, host) && r.value == CHECK_MESSAGES[i] &&
      forall j: nat | j < i :: !CheckFails(claim, j, host)
  {
    match FirstFailure(claim, 0, host)
    case None => None
    case Some(i) => Some(CHECK_MESSAGES[i])
  }

  /** A missing subject is reported whatever else is wrong. */
  lemma {:induction false} MissingSubjectFirst(claim: JsObject, host: Host)
    requires !Truthy(Get(claim, "subject"))
    ensures ValidateClaim(claim, host) == Some("subject is required")
  {
    assert CheckFails(claim, 0, host);
  }

  /** A score out of range is reported only once every earlier check passes, and before the stars. */
  lemma {:induction false} ScoreBeforeStars(claim: JsObject, host: Host)
    requires forall i: nat | i < 6 :: !CheckFails(claim, i, host)
    requires CheckFails(claim, 6, host)
    ensures ValidateClaim(claim, host) == Some("score must be between -1 and 1")
  {
    var r := ValidateClaim(claim, host);
    var i: nat :| i < 8 && CheckFails(claim, i, host) && r.value == CHECK_MESSAGES[i] &&
      forall j: nat | j < i :: !CheckFails(claim, j, host);
    assert i == 6;
  }

  /** A defined numeric score passes exactly inside [-1, 1], and stars exactly inside [1, 5]. */
  lemma {:induction false} NumericBounds(claim: JsObject, host: Host)
    ensures Get(claim, "score").Num? ==> (CheckFails(claim, 6, host) <==> !(-1.0 <= Get(claim, "score").n <= 1.0))
    ensures Get(claim, "stars").Num? ==> (CheckFails(claim, 7, host) <==> !(1.0 <= Get(claim, "stars").n <= 5.0))
    ensures Get(claim, "score") == NaN ==> !CheckFails(claim, 6, host)
    ensures Get(claim, "stars") == Null ==> CheckFails(claim, 7, host)
  {
  }

  /** `create`: validate first; only a claim that passes is posted, as its JSON text. */
  function Create(claim: JsObject, host: Host): (r: Result<Call, string>)
    ensures r.Err? <==> ValidateClaim(claim, host).Some?
    ensures r.Err? ==> r.error == ValidateClaim(claim, host).value
    ensures r.Ok? ==> r.value == Call("/api/claims", PostOptions(Some(ObjectToJson(claim)), [], host))
    ensures r.Ok? ==> r.value.options.body == Some(host.jsonStringify(ObjectToJson(claim)))
  {
    match ValidateClaim(claim, host)
    case Some(message) => Err(message)
    case None => Ok(Call("/api/claims", PostOptions(Some(ObjectToJson(claim)), [], host)))
  }

  /** `getById(id)` */
  function GetById(id: real, host: Host): (c: Call)
    ensures c.path == "/api/claims/" + host.numberToString(id) && c.options == GetOptions([])
  {
    Call("/api/claims/" + host.numberToString(id), GetOptions([]))
  }

  /** A default parameter value: only an undefined argument takes it. */
  function Defaulted(v: JsValue, fallback: real): (r: JsValue)
    ensures v == Undefined ==> r == Num(fallback)
    ensures v != Undefined ==> r == v
  {
    if v == Undefined then Num(fallback) else v
  }

  /** `options?.x || fallback`: every falsy value takes the fallback. */
  function OrDefault(v: JsValue, fallback: real): (r: JsValue)
    ensures Truthy(v) ==> r == v
    ensures !Truthy(v) ==> r == Num(fallback)
  {
    if Truthy(v) then v else Num(fallback)
  }

  /** `getBySubject(uri, page = 1, limit = 50)`: the subject travels base64-encoded in the path. */
  function GetBySubject(uri: string, page: JsValue, limit: JsValue, host: Host): (c: Call)
    ensures c.path == "/api/claims/subject/" + host.base64Encode(uri)
    ensures c.options == GetOptions([("page", Defaulted(page, 1.0)), ("limit", Defaulted(limit, 50.0))])
  {
    Call("/api/claims/subject/" + host.base64Encode(uri), GetOptions([("page", Defaulted(page, 1.0)), ("limit", Defaulted(limit, 50.0))]))
  }

  /** `query(params)` */
  function Query(params: JsObject): (c: Call)
    ensures c == Call("/api/claim", GetOptions(params))
  {
    Call("/api/claim", GetOptions(params))
  }

  /** `getByObject(uri, options)`: page and limit fall back to 1 and 50 whenever falsy, 0 included. */
  function GetByObject(uri: string, page: JsValue, limit: JsValue): (c: Call)
    ensures c.path == "/api/claim" && c.options.verb == GET && c.options.body == None
    ensures c.options.params == [("object", Str(uri)), ("page", OrDefault(page, 1.0)), ("limit", OrDefault(limit, 50.0))]
  {
    Call("/api/claim", GetOptions([("object", Str(uri)), ("page", OrDefault(page, 1.0)), ("limit", OrDefault(limit, 50.0))]))
  }

  lemma {:induction false} PaginationDefaults(uri: string, host: Host)
    ensures GetByObject(uri, Num(0.0), Num(0.0)).options.params == [("object", Str(uri)), ("page", Num(1.0)), ("limit", Num(50.0))]
    ensures GetBySubject(uri, Num(0.0), Undefined, host).options.params == [("page", Num(0.0)), ("limit", Num(50.0))]
  {
  }

  /**
   * The object URI `getValidations(claimId)` queries by, read from the
   * response to `getById(claimId)`: its `claim.claimAddress` when truthy,
   * else `baseUrl + "/claim/" + claimId`. None: the response has no
   * `claim` object to read from, and reading it throws.
   */
  function ValidationsSubject(claimId: real, byId: Json, baseUrl: string, host: Host): (r: Option<string>)
    ensures r.None? <==> (match Prop(byId, "claim") case None => true case Some(c) => c == JNull)
    ensures r.Some? && PropTruthy(byId.fields["claim"], "claimAddress") ==>
      r.value == JsonToString(byId.fields["claim"].fields["claimAddress"], host)
    ensures r.Some? && !PropTruthy(byId.fields["claim"], "claimAddress") ==>
      r.value == baseUrl + "/claim/" + host.numberToString(claimId)
  {
    match Prop(byId, "claim")
    case None => None
    case Some(c) =>
      if c == JNull then None
      else if PropTruthy(c, "claimAddress") then Some(JsonToString(c.fields["claimAddress"], host))
      else Some(baseUrl + "/claim/" + host.numberToString(claimId))
  }

  /** `getValidations(claimId)`: the two calls it makes, the second built from the answer to the first. */
  function GetValidations(claimId: real, byId: Json, baseUrl: string, host: Host): (r: (Call, Option<Call>))
    ensures r.0 == GetById(claimId, host)
    ensures r.1.Some? <==> ValidationsSubject(claimId, byId, baseUrl, host).Some?
    ensures r.1.Some? ==> r.1.value == GetByObject(ValidationsSubject(claimId, byId, baseUrl, host).value, Undefined, Undefined)
  {
    (GetById(claimId, host),
     match ValidationsSubject(claimId, byId, baseUrl, host)
     case None => None
     case Some(uri) => Some(GetByObject(uri, Undefined, Undefined)))
  }

  /** Without a claim address the validations are looked up under the claim's own URL, 1 to 50. */
  lemma {:induction false} ValidationsFallback(claimId: real, baseUrl: string, host: Host)
    ensures var byId := JObj(map["claim" := JObj(map["claimAddress" := JStr("")])]);
      GetValidations(claimId, byId, baseUrl, host).1 ==
        Some(GetByObject(baseUrl + "/claim/" + host.numberToString(claimId), Undefined, Undefined))
  {
  }

  /** Zero stars pass the collecting validator but fail this one: the two star ranges differ. */
  lemma {:induction false} StarBoundsDiffer(host: Host)
    ensures Validators.ValidateClaimField("stars", Num(0.0), host).None?
    ensures CheckFails([("stars", Num(0.0))], 7, host)
  {
  }

  /** "urn:" passes this URI test but not the scheme-based one. */
  lemma {:induction false} UriTestsDiffer(host: Host)
    ensures IsValidURI(Str("urn:"), host)
    ensures !Validators.IsValidUri("urn:", host)
  {
    assert Validators.SchemeAt("urn:", 3);
  }
}
