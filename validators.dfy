/**
 * Claim-field validation that COLLECTS errors (sdk/typescript/src/validators.ts),
 * with its own URI test: a scheme in the syntax of section 3.1 of RFC 3986,
 * then either a URL that parses (http and https) or at least one
 * non-whitespace character after the colon (every other scheme).
 */
module Validators {
  import opened Js
  import opened Strings

  predicate IsSchemeChar(c: char) {
    IsAsciiAlpha(c) || IsAsciiDigit(c) || c == '+' || c == '-' || c == '.'
  }

  /** The characters of the `\s` class of JavaScript regular expressions. */
  predicate IsWhitespace(c: char) {
    var n := c as int;
    n == 0x09 || n == 0x0A || n == 0x0B || n == 0x0C || n == 0x0D || n == 0x20
    || n == 0xA0 || n == 0x1680 || (0x2000 <= n <= 0x200A) || n == 0x2028 || n == 0x2029
    || n == 0x202F || n == 0x205F || n == 0x3000 || n == 0xFEFF
  }

  /** The scheme of `s` ends with a colon at position `k`: `ALPHA *( ALPHA / DIGIT / "+" / "-" / "." ) ":"`. */
  ghost predicate SchemeAt(s: string, k: nat) {
    0 < k < |s| && s[k] == ':' && IsAsciiAlpha(s[0]) && forall j | 1 <= j < k :: IsSchemeChar(s[j])
  }

  /** The end of the run of scheme characters that starts at `i`. */
  function SchemeEnd(s: string, i: nat): (k: nat)
    requires i <= |s|
    ensures i <= k <= |s|
    ensures forall j | i <= j < k :: IsSchemeChar(s[j])
    ensures k < |s| ==> !IsSchemeChar(s[k])
    decreases |s| - i
  {
    if i < |s| && IsSchemeChar(s[i]) then SchemeEnd(s, i + 1) else i
  }

  /** `/^[a-zA-Z][a-zA-Z0-9+.-]*:/`: the position of the colon that ends the scheme, if there is one. */
  function SchemeColon(s: string): (r: Option<nat>)
    ensures r.Some? ==> SchemeAt(s, r.value)
    ensures forall k: nat | SchemeAt(s, k) :: r == Some(k)
  {
    if |s| > 0 && IsAsciiAlpha(s[0]) then
      var k := SchemeEnd(s, 1);
      if k < |s| && s[k] == ':' then Some(k) else None
    else None
  }

  predicate IsHttpLike(s: string) {
    StartsWith(s, "http://") || StartsWith(s, "https://")
  }

  /** `/^[a-zA-Z][a-zA-Z0-9+.-]*:[^\s]+$/` */
  predicate SchemeThenNonWhitespace(s: string) {
    match SchemeColon(s)
    case None => false
    case Some(k) => k + 1 < |s| && forall j | k < j < |s| :: !IsWhitespace(s[j])
  }

  lemma {:induction false} HttpLikeHasScheme(s: string)
    requires IsHttpLike(s)
    ensures SchemeColon(s).Some?
  {
    if StartsWith(s, "http://") {
      assert s[..7] == "http://";
      assert SchemeAt(s, 4);
    } else {
      assert s[..8] == "https://";
      assert SchemeAt(s, 5);
    }
  }

  /** `isValidUri` */
  function IsValidUri(uri: string, host: Host): (r: bool)
    ensures r ==> exists k: nat :: SchemeAt(uri, k)
    ensures IsHttpLike(uri) ==> (r <==> host.urlParses(uri))
    ensures !IsHttpLike(uri) ==>
      (r <==> exists k: nat :: SchemeAt(uri, k) && k + 1 < |uri| && forall j | k < j < |uri| :: !IsWhitespace(uri[j]))
  {
    if uri == "" then false
    else if IsHttpLike(uri) then
      HttpLikeHasScheme(uri);
      host.urlParses(uri)
    else if SchemeColon(uri).None? then false
    else SchemeThenNonWhitespace(uri)
  }

  /** `isValidUri` applied to an arbitrary value: anything but a string fails its `typeof` test. */
  predicate IsValidUriValue(v: JsValue, host: Host) {
    v.Str? && IsValidUri(v.s, host)
  }

  lemma {:induction false} EmptyIsNotUri(host: Host)
    ensures !IsValidUri("", host)
  {
  }

  /** A colon that is not followed by anything is not enough. */
  lemma {:induction false} SchemeAloneIsNotUri(host: Host)
    ensures !IsValidUri("foo:", host)
  {
    assert SchemeAt("foo:", 3);
  }

  /** Whitespace after the scheme is refused. */
  lemma {:induction false} WhitespaceIsNotUri(host: Host)
    ensures !IsValidUri("urn:a b", host)
  {
    assert SchemeAt("urn:a b", 3);
    assert IsWhitespace("urn:a b"[5]);
  }

  /** Text without a scheme is refused. */
  lemma {:induction false} PlainTextIsNotUri(host: Host)
    ensures !IsValidUri("not a uri", host)
  {
    assert SchemeEnd("not a uri", 1) == 3;
  }

  /** DIDs pass without the URL parser. */
  lemma {:induction false} DidIsUri(host: Host)
    ensures IsValidUri("did:example:123", host)
  {
    assert SchemeAt("did:example:123", 3);
  }

  /** Any non-http scheme followed by a non-empty run without whitespace passes, without the URL parser. */
  lemma {:induction false} SchemeWithRestIsUri(scheme: string, rest: string, host: Host)
    requires |scheme| > 0 && IsAsciiAlpha(scheme[0]) && forall j | 1 <= j < |scheme| :: IsSchemeChar(scheme[j])
    requires |rest| > 0 && forall j | 0 <= j < |rest| :: !IsWhitespace(rest[j])
    requires !IsHttpLike(scheme + ":" + rest)
    ensures IsValidUri(scheme + ":" + rest, host)
  {
    var s := scheme + ":" + rest;
    var k := |scheme|;
    assert s[0] == scheme[0] && s[k] == ':';
    forall j | 1 <= j < k
      ensures IsSchemeChar(s[j])
    {
      assert s[j] == scheme[j];
    }
    assert SchemeAt(s, k);
    forall j | k < j < |s|
      ensures !IsWhitespace(s[j])
    {
      assert s[j] == rest[j - k - 1];
    }
  }

  /** One validation failure: the field, the message and, for most rules, the offending value. */
  datatype ValidationResult = ValidationResult(field: string, error: string, value: Option<JsValue>)

  const SUBJECT_REQUIRED := ValidationResult("subject", "Subject is required", None)
  const CLAIM_REQUIRED := ValidationResult("claim", "Claim type is required", None)

  /** The fields that have a rule; every other field passes. */
  const RULED_FIELDS: set<string> :=
    {"subject", "claim", "object", "sourceURI", "issuerId", "confidence", "stars", "score", "amt"}

  /** `Number(v)` is NaN or falls outside `[lo, hi]`. */
  predicate NumberOutside(v: JsValue, lo: real, hi: real, host: Host) {
    match JsToNumber(v, host)
    case None => true
    case Some(n) => n < lo || n > hi
  }

  /** `validateClaimField`: at most one failure for one field. */
  function ValidateClaimField(field: string, value: JsValue, host: Host): (r: Option<ValidationResult>)
    ensures r.Some? ==> r.value.field == field
    ensures field !in RULED_FIELDS ==> r == None
    ensures field == "subject" ==> (r.Some? <==> !IsValidUriValue(value, host))
    ensures field == "subject" && !Truthy(value) ==> r == Some(SUBJECT_REQUIRED)
    ensures field == "claim" ==> (r.Some? <==> !(value.Str? && value.s != ""))
    ensures field in {"object", "sourceURI", "issuerId"} ==>
      (r.Some? <==> Truthy(value) && !IsValidUriValue(value, host))
    ensures field in {"confidence", "stars", "score", "amt"} && (value == Undefined || value == Null) ==> r == None
    ensures field == "confidence" && value != Undefined && value != Null ==>
      (r.Some? <==> NumberOutside(value, 0.0, 1.0, host))
    ensures field == "stars" && value != Undefined && value != Null ==>
      (r.Some? <==> NumberOutside(value, 0.0, 5.0, host))
    ensures field == "score" && value != Undefined && value != Null ==>
      (r.Some? <==> NumberOutside(value, -1.0, 1.0, host))
    ensures field == "amt" && value != Undefined && value != Null ==>
      (r.Some? <==> JsToNumber(value, host).None?)
  {
    var given := value != Undefined && value != Null;
    if field == "subject" then
      if !Truthy(value) then Some(SUBJECT_REQUIRED)
      else if !IsValidUriValue(value, host) then Some(ValidationResult(field, "Subject must be a valid URI", Some(value)))
      else None
    else if field == "claim" then
      if !Truthy(value) || !value.Str? then Some(ValidationResult(field, "Claim type is required and must be a string", None))
      else None
    else if field == "object" then
      if Truthy(value) && !IsValidUriValue(value, host) then
        Some(ValidationResult(field, "Object must be a valid URI if provided", Some(value)))
      else None
    else if field == "sourceURI" then
      if Truthy(value) && value != Str("") && !IsValidUriValue(value, host) then
        Some(ValidationResult(field, "Source URI must be a valid URI if provided", Some(value)))
      else None
    else if field == "issuerId" then
      if Truthy(value) && !IsValidUriValue(value, host) then
        Some(ValidationResult(field, "Issuer ID must be a valid URI (including DIDs)", Some(value)))
      else None
    else if field == "confidence" then
      if given && NumberOutside(value, 0.0, 1.0, host) then
        Some(ValidationResult(field, "Confidence must be between 0 and 1", Some(value)))
      else None
    else if field == "stars" then
      if given && NumberOutside(value, 0.0, 5.0, host) then
        Some(ValidationResult(field, "Stars must be between 0 and 5", Some(value)))
      else None
    else if field == "score" then
      if given && NumberOutside(value, -1.0, 1.0, host) then
        Some(ValidationResult(field, "Score must be between -1 and 1", Some(value)))
      else None
    else if field == "amt" then
      if given && JsToNumber(value, host).None? then
        Some(ValidationResult(field, "Amount must be a valid number", Some(value)))
      else None
    else None
  }

  /** The failure of one entry, as a list of none or one. */
  function EntryErrors(entry: (string, JsValue), host: Host): (r: seq<ValidationResult>)
    ensures |r| <= 1
    ensures r == [] <==> ValidateClaimField(entry.0, entry.1, host).None?
  {
    var e := ValidateClaimField(entry.0, entry.1, host);
    if e.Some? then [e.value] else []
  }

  /** The failures of the entries, in entry order. */
  function FieldErrors(claim: JsObject, host: Host): (r: seq<ValidationResult>)
    ensures |r| <= |claim|
    decreases |claim|
  {
    if claim == [] then [] else EntryErrors(claim[0], host) + FieldErrors(claim[1..], host)
  }

  lemma {:induction false} FieldErrorsAppend(claim: JsObject, entry: (string, JsValue), host: Host)
    ensures FieldErrors(claim + [entry], host) == FieldErrors(claim, host) + EntryErrors(entry, host)
    decreases |claim|
  {
    if claim != [] {
      assert (claim + [entry])[1..] == claim[1..] + [entry];
      FieldErrorsAppend(claim[1..], entry, host);
    }
  }

  /** The failure of each entry is among the failures of the claim. */
  lemma {:induction false} EntryErrorReported(claim: JsObject, i: nat, host: Host)
    requires i < |claim| && EntryErrors(claim[i], host) != []
    ensures EntryErrors(claim[i], host)[0] in FieldErrors(claim, host)
    decreases i
  {
    if i > 0 {
      var tail := claim[1..];
      assert tail[i - 1] == claim[i];
      EntryErrorReported(tail, i - 1, host);
    }
  }

  /** The two presence checks `validateClaim` always makes after the per-field pass. */
  function PresenceErrors(claim: JsObject): (r: seq<ValidationResult>)
    ensures SUBJECT_REQUIRED in r <==> !Truthy(Get(claim, "subject"))
    ensures CLAIM_REQUIRED in r <==> !Truthy(Get(claim, "claim"))
  {
    (if !Truthy(Get(claim, "subject")) then [SUBJECT_REQUIRED] else [])
    + (if !Truthy(Get(claim, "claim")) then [CLAIM_REQUIRED] else [])
  }

  /** `validateClaim`: one pass over the entries, collecting failures, then the presence checks. */
  method ValidateClaim(claim: JsObject, host: Host) returns (errors: seq<ValidationResult>)
    ensures errors == ClaimErrors(claim, host)
    ensures |errors| <= |claim| + 2
  {
    errors := [];
    var i := 0;
    while i < |claim|
      invariant 0 <= i <= |claim|
      invariant errors == FieldErrors(claim[..i], host)
    {
      var e := ValidateClaimField(claim[i].0, claim[i].1, host);
      FieldErrorsAppend(claim[..i], claim[i], host);
      assert claim[..i + 1] == claim[..i] + [claim[i]];
      if e.Some? {
        errors := errors + [e.value];
      }
      i := i + 1;
    }
    assert claim[..i] == claim;
    if !Truthy(Get(claim, "subject")) {
      errors := errors + [SUBJECT_REQUIRED];
    }
    if !Truthy(Get(claim, "claim")) {
      errors := errors + [CLAIM_REQUIRED];
    }
  }

  /** The errors of a claim, as `validateClaim` returns them. */
  function ClaimErrors(claim: JsObject, host: Host): seq<ValidationResult> {
    FieldErrors(claim, host) + PresenceErrors(claim)
  }

  lemma {:induction false} EmptyClaimErrors(host: Host)
    ensures ClaimErrors([], host) == [SUBJECT_REQUIRED, CLAIM_REQUIRED]
  {
  }

  /** A subject that is present but falsy is reported by its field rule and again by the presence check. */
  lemma {:induction false} FalsySubjectReportedTwice(claim: JsObject, i: nat, host: Host)
    requires DistinctKeys(claim)
    requires i < |claim| && claim[i].0 == "subject" && !Truthy(claim[i].1)
    ensures multiset(ClaimErrors(claim, host))[SUBJECT_REQUIRED] >= 2
  {
    assert EntryErrors(claim[i], host) == [SUBJECT_REQUIRED];
    EntryErrorReported(claim, i, host);
    assert Get(claim, "subject") == claim[i].1;
    assert SUBJECT_REQUIRED in PresenceErrors(claim);
  }

  /** A claim whose only fault is its score gets exactly one failure, on the score. */
  lemma {:induction false} OnlyScoreFails(host: Host)
    requires host.urlParses("https://a.org")
    ensures ClaimErrors([("subject", Str("https://a.org")), ("claim", Str("x")), ("statement", Str("y")), ("score", Num(2.0))], host)
      == [ValidationResult("score", "Score must be between -1 and 1", Some(Num(2.0)))]
  {
    var claim := [("subject", Str("https://a.org")), ("claim", Str("x")), ("statement", Str("y")), ("score", Num(2.0))];
    var err := ValidationResult("score", "Score must be between -1 and 1", Some(Num(2.0)));
    HttpLikeHasScheme("https://a.org");
    assert ValidateClaimField("subject", Str("https://a.org"), host) == None;
    assert ValidateClaimField("claim", Str("x"), host) == None;
    assert ValidateClaimField("statement", Str("y"), host) == None;
    assert ValidateClaimField("score", Num(2.0), host) == Some(err);
    assert FieldErrors(claim[4..], host) == [];
    assert FieldErrors(claim[3..], host) == [err];
    assert FieldErrors(claim[2..], host) == [err];
    assert FieldErrors(claim[1..], host) == [err];
    assert FieldErrors(claim, host) == [err];
    assert Get(claim, "subject") == Str("https://a.org");
    assert Get(claim, "claim") == Str("x");
    assert PresenceErrors(claim) == [];
  }
}
