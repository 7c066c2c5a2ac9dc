/**
 * Normalisation of identifiers and rating scales (sdk/typescript/src/normalizers.ts):
 * URIs, user ids, the 0..5 star scale against the -1..1 score scale, half-star
 * rounding and clamping.
 */
module Normalizers {
  import opened Js
  import opened Strings
  import opened Validators

  predicate IsLabelChar(c: char) {
    IsAsciiAlpha(c) || IsAsciiDigit(c) || c == '-'
  }

  /** The characters that `.` in a JavaScript regular expression does not match. */
  predicate IsLineTerminator(c: char) {
    c == '\n' || c == '\r' || c as int == 0x2028 || c as int == 0x2029
  }

  predicate IsLabel(l: string) {
    |l| > 0 && forall k | 0 <= k < |l| :: IsLabelChar(l[k])
  }

  /** `[a-zA-Z]{2,}` */
  predicate IsTopLevel(l: string) {
    |l| >= 2 && forall k | 0 <= k < |l| :: IsAsciiAlpha(l[k])
  }

  /** `([a-zA-Z0-9-]+\.)*[a-zA-Z0-9-]+\.[a-zA-Z]{2,}`: two or more labels, the last one letters only. */
  predicate IsHostName(h: string) {
    var labels := Split(h, '.');
    |labels| >= 2 && (forall k | 0 <= k < |labels| :: IsLabel(labels[k])) && IsTopLevel(labels[|labels| - 1])
  }

  /** `/^([a-zA-Z0-9-]+\.)*[a-zA-Z0-9-]+\.[a-zA-Z]{2,}(\/.*)?$/`: a host name, then optionally a path on one line. */
  predicate LooksLikeDomain(s: string) {
    var i := IndexOf(s, '/');
    IsHostName(s[..i]) && forall j | i < j < |s| :: !IsLineTerminator(s[j])
  }

  /** A domain-like string has no scheme, so the first test of `normalizeUri` never accepts it. */
  lemma {:induction false} DomainIsNotUri(s: string, host: Host)
    requires LooksLikeDomain(s)
    ensures !IsValidUri(s, host)
  {
    var i := IndexOf(s, '/');
    var h := s[..i];
    var labels := Split(h, '.');
    assert Split("", '.') == [""];
    assert i > 0;
    forall j | 0 <= j < i
      ensures IsSchemeChar(s[j])
    {
      if h[j] != '.' {
        var m := SplitCovers(h, '.', h[j]);
        assert IsLabel(labels[m]);
      }
    }
    assert SchemeEnd(s, 1) == i;
  }

  /** `normalizeUri` */
  function NormalizeUri(uri: string, host: Host): (r: Option<string>)
    ensures uri == "" ==> r == None
    ensures IsValidUri(uri, host) ==> r == Some(uri)
    ensures r.Some? ==> IsValidUri(r.value, host)
    ensures !IsValidUri(uri, host) ==>
      (r.Some? <==> uri != "" && LooksLikeDomain(uri) && host.urlParses("https://" + uri))
    ensures !IsValidUri(uri, host) && r.Some? ==> r.value == "https://" + uri
  {
    var withScheme := "https://" + uri;
    assert withScheme[..8] == "https://";
    assert IsHttpLike(withScheme);
    if uri == "" then None
    else if IsValidUri(uri, host) then Some(uri)
    else if LooksLikeDomain(uri) && IsValidUri(withScheme, host) then Some(withScheme)
    else None
  }

  /** Normalising twice changes nothing more than normalising once. */
  lemma {:induction false} NormalizeUriIdempotent(uri: string, host: Host)
    requires NormalizeUri(uri, host).Some?
    ensures NormalizeUri(NormalizeUri(uri, host).value, host) == NormalizeUri(uri, host)
  {
  }

  /** What `normalizeUri` does with a string that is neither a URI nor domain-like. */
  lemma {:induction false} NormalizeRejects(s: string, host: Host)
    requires !IsValidUri(s, host) && !LooksLikeDomain(s)
    ensures NormalizeUri(s, host) == None
  {
  }

  /** What `normalizeUri` does with a domain-like string. */
  lemma {:induction false} NormalizeAddsScheme(s: string, host: Host)
    requires s != "" && LooksLikeDomain(s)
    ensures NormalizeUri(s, host) == (if host.urlParses("https://" + s) then Some("https://" + s) else None)
  {
    DomainIsNotUri(s, host);
  }

  /** `name.tld/path` is domain-like, so `normalizeUri` prefixes it with `https://` when the URL parser accepts that. */
  lemma {:induction false} NormalizeTwoLabelDomain(name: string, tld: string, path: string, host: Host)
    requires IsLabel(name) && IsTopLevel(tld)
    requires forall j | 0 <= j < |path| :: !IsLineTerminator(path[j])
    ensures var s := name + "." + tld + "/" + path;
      NormalizeUri(s, host) == (if host.urlParses("https://" + s) then Some("https://" + s) else None)
  {
    var h := name + "." + tld;
    var s := h + "/" + path;
    var k := |h|;
    assert s[..k] == h && s[k] == '/';
    assert '/' !in h;
    IndexOfIs(s, '/', k);
    assert h[..|name|] == name && h[|name|] == '.';
    IndexOfIs(h, '.', |name|);
    assert h[|name| + 1..] == tld;
    assert '.' !in tld;
    assert Split(h, '.') == [name] + Split(tld, '.') == [name, tld];
    assert IsHostName(h);
    assert forall j | k < j < |s| :: s[j] == path[j - k - 1];
    assert LooksLikeDomain(s);
    NormalizeAddsScheme(s, host);
  }

  /** Text with spaces is neither a URI nor a domain. */
  lemma {:induction false} NormalizeRejectsText(s: string, host: Host)
    requires s == "not a domain!!"
    ensures NormalizeUri(s, host) == None
  {
    assert s[3] == ' ';
    assert SchemeEnd(s, 1) == 3;
    assert !IsValidUri(s, host);
    assert '.' !in s;
    assert Split(s, '.') == [s];
    assert !IsHostName(s);
    assert '/' !in s;
    assert IndexOf(s, '/') == |s|;
    assert s[..|s|] == s;
    assert !LooksLikeDomain(s);
    NormalizeRejects(s, host);
  }

  /** `userIdToUri`, with `getBaseUrl()` passed in as `baseUrl`. */
  function UserIdToUri(userId: JsValue, baseUrl: string, host: Host): (r: Option<string>)
    ensures !Truthy(userId) ==> r == None
    ensures userId.Num? && Truthy(userId) ==> r == Some(baseUrl + "/user/" + host.numberToString(userId.n))
    ensures userId.Str? && AllDigits(userId.s) ==> r == Some(baseUrl + "/user/" + userId.s)
    ensures userId.Str? && !AllDigits(userId.s) ==> (r.Some? <==> IsValidUri(userId.s, host))
    ensures userId.Str? && !AllDigits(userId.s) && r.Some? ==> r.value == userId.s
    ensures !userId.Str? && !userId.Num? ==> r == None
  {
    if !Truthy(userId) then None
    else if userId.Num? || (userId.Str? && AllDigits(userId.s)) then
      Some(baseUrl + "/user/" + JsToString(userId, host))
    else if userId.Str? && IsValidUri(userId.s, host) then Some(userId.s)
    else None
  }

  /** A string of digits has no scheme, so the two branches of `userIdToUri` never compete. */
  lemma {:induction false} DigitsAreNotUris(s: string, host: Host)
    requires AllDigits(s)
    ensures !IsValidUri(s, host)
  {
    assert !IsAsciiAlpha(s[0]);
  }

  /** `starsToScore`: 0 stars is -1, 2.5 stars is 0, 5 stars is 1. */
  function StarsToScore(stars: real): (r: Result<real, string>)
    ensures r.Err? <==> stars < 0.0 || stars > 5.0
    ensures r.Err? ==> r.error == "Stars must be between 0 and 5"
    ensures r.Ok? ==> -1.0 <= r.value <= 1.0
  {
    if stars < 0.0 || stars > 5.0 then Err("Stars must be between 0 and 5")
    else Ok((stars - 2.5) / 2.5)
  }

  /** `scoreToStars`: -1 is 0 stars, 0 is 2.5 stars, 1 is 5 stars. */
  function ScoreToStars(score: real): (r: Result<real, string>)
    ensures r.Err? <==> score < -1.0 || score > 1.0
    ensures r.Err? ==> r.error == "Score must be between -1 and 1"
    ensures r.Ok? ==> 0.0 <= r.value <= 5.0
  {
    if score < -1.0 || score > 1.0 then Err("Score must be between -1 and 1")
    else Ok(score * 2.5 + 2.5)
  }

  lemma {:induction false} StarsScoreRoundTrip(stars: real)
    requires 0.0 <= stars <= 5.0
    ensures ScoreToStars(StarsToScore(stars).value) == Ok(stars)
  {
  }

  lemma {:induction false} ScoreStarsRoundTrip(score: real)
    requires -1.0 <= score <= 1.0
    ensures StarsToScore(ScoreToStars(score).value) == Ok(score)
  {
  }

  lemma {:induction false} StarsToScoreEndpoints()
    ensures StarsToScore(0.0) == Ok(-1.0)
    ensures StarsToScore(2.5) == Ok(0.0)
    ensures StarsToScore(5.0) == Ok(1.0)
  {
  }

  /** More stars never give a lower score. */
  lemma {:induction false} StarsToScoreMonotone(a: real, b: real)
    requires 0.0 <= a <= b <= 5.0
    ensures StarsToScore(a).value <= StarsToScore(b).value
  {
  }

  /** `roundStars`: the nearest multiple of one half, ties rounded up. */
  function RoundStars(stars: real): (r: real)
    ensures (r * 2.0).Floor as real == r * 2.0
    ensures stars - 0.25 < r <= stars + 0.25
    ensures 0.0 <= stars <= 5.0 ==> 0.0 <= r <= 5.0
  {
    var k := JsRound(stars * 2.0);
    assert (k as real / 2.0) * 2.0 == k as real;
    k as real / 2.0
  }

  /** Rounding an already rounded rating changes nothing. */
  lemma {:induction false} RoundStarsIdempotent(stars: real)
    ensures RoundStars(RoundStars(stars)) == RoundStars(stars)
  {
    var r := RoundStars(stars);
    var k := (r * 2.0).Floor;
    assert r * 2.0 == k as real;
    JsRoundOfInt(k);
  }

  /** `clamp`: `Math.max(lo, Math.min(hi, value))`. */
  function Clamp(value: real, lo: real, hi: real): (r: real)
    ensures r >= lo
    ensures lo <= hi ==> r <= hi
    ensures lo <= value <= hi ==> r == value
    ensures r == lo || r == hi || r == value
    ensures value < lo ==> r == lo
    ensures lo <= hi < value ==> r == hi
    ensures hi < lo ==> r == lo
  {
    var m := if hi < value then hi else value;
    if lo > m then lo else m
  }

  lemma {:induction false} ClampIdempotent(value: real, lo: real, hi: real)
    ensures Clamp(Clamp(value, lo, hi), lo, hi) == Clamp(value, lo, hi)
  {
  }
}
