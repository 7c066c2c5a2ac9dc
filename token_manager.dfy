/**
 * The token store of the SDK (sdk/typescript/src/token-manager.ts): an access
 * and a refresh token held in memory and, in `localStorage` mode inside a
 * browser, mirrored under two keys of the browser's key-value storage.
 */
module TokenStore {
  import opened Js
  import opened Strings

  datatype StorageMode = LocalStorage | Memory | NoStorage

  const ACCESS_KEY := "accessToken"
  const REFRESH_KEY := "refreshToken"

  /** The browser's `localStorage`: a string-to-string map shared by everyone holding it. */
  class KeyValueStore {
    var items: map<string, string>

    constructor(items0: map<string, string>)
      ensures items == items0
    {
      items := items0;
    }

    /** `getItem`: null (None) for an absent key. */
    function GetItem(key: string): (r: Option<string>)
      reads this
      ensures r.Some? <==> key in items
      ensures r.Some? ==> r.value == items[key]
    {
      if key in items then Some(items[key]) else None
    }

    method SetItem(key: string, value: string)
      modifies this
      ensures items == old(items)[key := value]
    {
      items := items[key := value];
    }

    method RemoveItem(key: string)
      modifies this
      ensures items == old(items) - {key}
    {
      items := items - {key};
    }
  }

  /** The two tokens a manager holds; None is null. */
  datatype Session = Session(access: Option<string>, refresh: Option<string>)

  /** `getItem` on a map value. */
  function Lookup(items: map<string, string>, key: string): (r: Option<string>)
    ensures r.Some? <==> key in items
    ensures r.Some? ==> r.value == items[key]
  {
    if key in items then Some(items[key]) else None
  }

  /** `s || null` for an optional string: the empty string becomes null too. */
  function OrNull(s: Option<string>): (r: Option<string>)
    ensures r.Some? <==> s.Some? && s.value != ""
    ensures r.Some? ==> r == s
  {
    if s.Some? && s.value != "" then s else None
  }

  /** The tokens a manager loads from storage when it is constructed. */
  function Loaded(items: map<string, string>): (s: Session)
    ensures s.access == Lookup(items, ACCESS_KEY) && s.refresh == Lookup(items, REFRESH_KEY)
  {
    Session(Lookup(items, ACCESS_KEY), Lookup(items, REFRESH_KEY))
  }

  /** The storage after `setTokens(access, refresh)`: the refresh token is written only when it is non-empty. */
  function StoreAfterSet(items: map<string, string>, access: string, refresh: Option<string>, persistent: bool): (r: map<string, string>)
    ensures !persistent ==> r == items
    ensures persistent ==> Lookup(r, ACCESS_KEY) == Some(access)
    ensures persistent ==>
      Lookup(r, REFRESH_KEY) == (if OrNull(refresh).Some? then refresh else Lookup(items, REFRESH_KEY))
    ensures forall k | k != ACCESS_KEY && k != REFRESH_KEY :: Lookup(r, k) == Lookup(items, k)
  {
    if !persistent then items
    else
      var withAccess := items[ACCESS_KEY := access];
      if OrNull(refresh).Some? then withAccess[REFRESH_KEY := refresh.value] else withAccess
  }

  /** The storage after `clearTokens()`. */
  function StoreAfterClear(items: map<string, string>, persistent: bool): (r: map<string, string>)
    ensures !persistent ==> r == items
    ensures persistent ==> ACCESS_KEY !in r && REFRESH_KEY !in r
    ensures forall k | k != ACCESS_KEY && k != REFRESH_KEY :: Lookup(r, k) == Lookup(items, k)
  {
    if persistent then items - {ACCESS_KEY, REFRESH_KEY} else items
  }

  /** The second `.`-separated segment of a token, where a JSON Web Token carries its payload. */
  function PayloadSegment(token: string): (r: Option<string>)
    ensures r.Some? <==> '.' in token
    ensures r.Some? ==> '.' !in r.value
    ensures r.Some? ==>
      var rest := token[IndexOf(token, '.') + 1..];
      StartsWith(rest, r.value) && (|r.value| == |rest| || rest[|r.value|] == '.')
  {
    var parts := Split(token, '.');
    if '.' !in token then
      None
    else
      SplitSecond(token, '.');
      Some(parts[1])
  }

  /** header.payload.signature: the payload segment is the middle piece. */
  lemma {:induction false} PayloadOfThreeSegments(header: string, payload: string, signature: string)
    requires '.' !in header && '.' !in payload
    ensures PayloadSegment(header + "." + payload + "." + signature) == Some(payload)
  {
    var t := header + "." + payload + "." + signature;
    assert t[..|header|] == header;
    IndexOfIs(t, '.', |header|);
    var rest := t[|header| + 1..];
    assert rest == payload + "." + signature;
    assert rest[..|payload|] == payload;
    IndexOfIs(rest, '.', |payload|);
    SplitTail(t, '.');
  }

  /** The digit of value `i` in the base64 alphabet (Table 1 of RFC 4648). */
  function Base64Digit(i: nat): (c: char)
    requires i < 64
  {
    if i < 26 then ('A' as int + i) as char
    else if i < 52 then ('a' as int + i - 26) as char
    else if i < 62 then ('0' as int + i - 52) as char
    else if i == 62 then '+'
    else '/'
  }

  /** The digit of value `i` in the URL- and filename-safe alphabet (Table 2 of RFC 4648). */
  function Base64UrlDigit(i: nat): (c: char)
    requires i < 64
  {
    if i < 62 then Base64Digit(i) else if i == 62 then '-' else '_'
  }

  /** `replace(/-/g, '+').replace(/_/g, '/')` */
  function Base64UrlToBase64(s: string): (r: string)
    ensures |r| == |s|
    ensures forall k | 0 <= k < |s| :: r[k] == (if s[k] == '-' then '+' else if s[k] == '_' then '/' else s[k])
    ensures '-' !in r && '_' !in r
    decreases |s|
  {
    if s == [] then []
    else [if s[0] == '-' then '+' else if s[0] == '_' then '/' else s[0]] + Base64UrlToBase64(s[1..])
  }

  /** The rewrite turns a base64url text into the base64 text of the same digit values. */
  lemma {:induction false} Base64UrlToBase64Digits(digits: seq<nat>)
    requires forall k | 0 <= k < |digits| :: digits[k] < 64
    ensures Base64UrlToBase64(seq(|digits|, k requires 0 <= k < |digits| => Base64UrlDigit(digits[k])))
      == seq(|digits|, k requires 0 <= k < |digits| => Base64Digit(digits[k]))
  {
    var url := seq(|digits|, k requires 0 <= k < |digits| => Base64UrlDigit(digits[k]));
    var std := seq(|digits|, k requires 0 <= k < |digits| => Base64Digit(digits[k]));
    var r := Base64UrlToBase64(url);
    forall k | 0 <= k < |digits|
      ensures r[k] == std[k]
    {
      var d := digits[k];
      assert url[k] == Base64UrlDigit(d);
      if d < 62 {
        assert Base64Digit(d) != '-' && Base64Digit(d) != '_';
      }
    }
  }

  /** `decodeToken`: every failure on the way becomes one "Invalid token" error. */
  function DecodeToken(token: string, host: Host): (r: Result<Json, string>)
    ensures r.Err? ==> r.error == "Invalid token"
    ensures PayloadSegment(token).None? ==> r.Err?
    ensures r.Ok? ==>
      var text := host.base64Decode(Base64UrlToBase64(PayloadSegment(token).value));
      text.Some? && host.jsonParse(text.value) == Some(r.value)
    ensures r.Ok? <==>
      PayloadSegment(token).Some? &&
      var text := host.base64Decode(Base64UrlToBase64(PayloadSegment(token).value));
      text.Some? && host.jsonParse(text.value).Some?
  {
    match PayloadSegment(token)
    case None => Err("Invalid token")
    case Some(segment) =>
      match host.base64Decode(Base64UrlToBase64(segment))
      case None => Err("Invalid token")
      case Some(text) =>
        match host.jsonParse(text)
        case None => Err("Invalid token")
        case Some(payload) => Ok(payload)
  }

  /** `Number(j)`, as the comparison `payload.exp < now` converts a JSON value; None is NaN. */
  function JsonToNumber(j: Json, host: Host): (r: Option<real>)
    ensures j.JNum? ==> r == Some(j.n)
    ensures j.JNull? ==> r == Some(0.0)
  {
    match j
    case JNull => Some(0.0)
    case JBool(b) => Some(if b then 1.0 else 0.0)
    case JNum(n) => Some(n)
    case JStr(s) => host.parseNumber(s)
    case _ => host.parseNumber(host.jsonToString(j))
  }

  /**
   * `payload.exp < Date.now() / 1000` for a decoded payload: reading `exp`
   * from null throws (and `isExpired` answers true), a payload without a
   * numeric `exp` is never expired.
   */
  function ExpiredAt(payload: Json, nowMs: int, host: Host): (r: bool)
    ensures payload.JNull? ==> r
    ensures !payload.JNull? && !payload.JObj? ==> !r
    ensures payload.JObj? && "exp" !in payload.fields ==> !r
    ensures payload.JObj? && "exp" in payload.fields && payload.fields["exp"].JNum? ==>
      (r <==> payload.fields["exp"].n < nowMs as real / 1000.0)
  {
    match payload
    case JNull => true
    case JObj(fields) =>
      if "exp" in fields then
        match JsonToNumber(fields["exp"], host)
        case None => false
        case Some(exp) => exp < nowMs as real / 1000.0
      else false
    case _ => false
  }

  /** Once expired, a payload stays expired. */
  lemma {:induction false} ExpiryIsMonotone(payload: Json, earlier: int, later: int, host: Host)
    requires earlier <= later && ExpiredAt(payload, earlier, host)
    ensures ExpiredAt(payload, later, host)
  {
    if payload.JObj? {
      assert earlier as real / 1000.0 <= later as real / 1000.0;
    }
  }

  /** `isExpired` for a non-empty token: a token that does not decode is expired. */
  function TokenExpired(token: string, nowMs: int, host: Host): (r: bool)
    ensures DecodeToken(token, host).Err? ==> r
    ensures '.' !in token ==> r
    ensures DecodeToken(token, host).Ok? ==> (r <==> ExpiredAt(DecodeToken(token, host).value, nowMs, host))
  {
    match DecodeToken(token, host)
    case Err(_) => true
    case Ok(payload) => ExpiredAt(payload, nowMs, host)
  }

  /** `TokenManager` */
  class TokenManager {
    var accessToken: Option<string>
    var refreshToken: Option<string>
    const storage: StorageMode
    /** `typeof window !== 'undefined'` */
    const windowPresent: bool
    const store: KeyValueStore

    /** Tokens are mirrored in `store` only in localStorage mode inside a browser. */
    predicate Persistent() {
      storage == LocalStorage && windowPresent
    }

    function Current(): Session
      reads this
    {
      Session(accessToken, refreshToken)
    }

    /** What is in memory is what is in storage. */
    predicate InSync()
      reads this, store
    {
      Persistent() ==> Current() == Loaded(store.items)
    }

    constructor(storage: StorageMode, windowPresent: bool, store: KeyValueStore)
      ensures this.storage == storage && this.windowPresent == windowPresent && this.store == store
      ensures Current() == if Persistent() then Loaded(store.items) else Session(None, None)
      ensures InSync()
    {
      this.storage := storage;
      this.windowPresent := windowPresent;
      this.store := store;
      if storage == LocalStorage && windowPresent {
        accessToken := store.GetItem(ACCESS_KEY);
        refreshToken := store.GetItem(REFRESH_KEY);
      } else {
        accessToken := None;
        refreshToken := None;
      }
    }

    /** `setTokens`; an empty or missing refresh token is held as null and leaves the stored one alone. */
    method SetTokens(access: string, refresh: Option<string>)
      modifies this, store
      ensures Current() == Session(Some(access), OrNull(refresh))
      ensures store.items == StoreAfterSet(old(store.items), access, refresh, Persistent())
      ensures OrNull(refresh).Some? ==> InSync()
    {
      accessToken := Some(access);
      refreshToken := OrNull(refresh);
      if storage == LocalStorage && windowPresent {
        store.SetItem(ACCESS_KEY, access);
        if refresh.Some? && refresh.value != "" {
          store.SetItem(REFRESH_KEY, refresh.value);
        }
      }
    }

    method GetAccessToken() returns (token: Option<string>)
      ensures token == accessToken
    {
      token := accessToken;
    }

    method GetRefreshToken() returns (token: Option<string>)
      ensures token == refreshToken
    {
      token := refreshToken;
    }

    /** `clearTokens` */
    method ClearTokens()
      modifies this, store
      ensures Current() == Session(None, None)
      ensures store.items == StoreAfterClear(old(store.items), Persistent())
      ensures InSync()
    {
      accessToken := None;
      refreshToken := None;
      if storage == LocalStorage && windowPresent {
        store.RemoveItem(ACCESS_KEY);
        store.RemoveItem(REFRESH_KEY);
      }
    }

    /** `isAuthenticated`: a non-empty access token is held. */
    function IsAuthenticated(): (r: bool)
      reads this
      ensures r <==> accessToken.Some? && accessToken.value != ""
    {
      OrNull(accessToken).Some?
    }

    /** `isExpired(token)`: the given token, or else the held access token; no token at all is expired. */
    function IsExpired(token: Option<string>, nowMs: int, host: Host): (r: bool)
      reads this
      ensures OrNull(token).None? && !IsAuthenticated() ==> r
      ensures OrNull(token).Some? ==> r == TokenExpired(token.value, nowMs, host)
      ensures OrNull(token).None? && IsAuthenticated() ==> r == TokenExpired(accessToken.value, nowMs, host)
    {
      var check := if OrNull(token).Some? then token else accessToken;
      if OrNull(check).None? then true else TokenExpired(check.value, nowMs, host)
    }

    /** `getAuthHeader`: a bearer Authorization header exactly when authenticated. */
    function GetAuthHeader(): (r: map<string, string>)
      reads this
      ensures r.Keys <= {"Authorization"}
      ensures "Authorization" in r <==> IsAuthenticated()
      ensures "Authorization" in r ==> r["Authorization"] == "Bearer " + accessToken.value
    {
      if IsAuthenticated() then map["Authorization" := "Bearer " + accessToken.value] else map[]
    }
  }

  /** A persistent manager built over cleared storage starts with no tokens. */
  lemma {:induction false} ReloadAfterClear(items: map<string, string>)
    ensures Loaded(StoreAfterClear(items, true)) == Session(None, None)
  {
    var r := StoreAfterClear(items, true);
    assert Lookup(r, ACCESS_KEY) == None && Lookup(r, REFRESH_KEY) == None;
  }

  lemma {:induction false} ClearIsIdempotent(items: map<string, string>, persistent: bool)
    ensures StoreAfterClear(StoreAfterClear(items, persistent), persistent) == StoreAfterClear(items, persistent)
  {
  }

  /**
   * `setTokens` without a refresh token keeps a refresh token stored earlier:
   * a manager built later over the same storage loads it back, although the
   * manager that set the tokens holds none.
   */
  lemma {:induction false} StaleRefreshSurvivesReload(items: map<string, string>, access: string, refresh: Option<string>)
    requires OrNull(refresh).None?
    ensures Loaded(StoreAfterSet(items, access, refresh, true)) == Session(Some(access), Lookup(items, REFRESH_KEY))
  {
    var r := StoreAfterSet(items, access, refresh, true);
    assert Lookup(r, ACCESS_KEY) == Some(access);
    assert Lookup(r, REFRESH_KEY) == Lookup(items, REFRESH_KEY);
  }

  /** With a refresh token, a later manager over the same storage loads exactly what was set. */
  lemma {:induction false} ReloadAfterSet(items: map<string, string>, access: string, refresh: string)
    requires refresh != ""
    ensures Loaded(StoreAfterSet(items, access, Some(refresh), true)) == Session(Some(access), Some(refresh))
  {
    var r := StoreAfterSet(items, access, Some(refresh), true);
    assert Lookup(r, ACCESS_KEY) == Some(access);
    assert Lookup(r, REFRESH_KEY) == Some(refresh);
  }
}
