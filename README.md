# LinkedClaims TypeScript SDK: a verified model of its core

This project models, in Dafny, the core of the LinkedClaims TypeScript SDK
(`sdk/typescript/src`). That core is the client-side logic between a caller and
the LinkedClaims backend:

- **Validators** (`validators.ts`): the scheme-based URI test, the per-field
  claim rules, and the collecting `validateClaim`. That function reports every
  failing field, plus the presence checks for `subject` and `claim`.
- **Normalizers** (`normalizers.ts`):
  - URI normalisation, which adds `https://` to bare domains;
  - user-id-to-URI conversion;
  - the 0–5 star ↔ −1..1 score conversions, half-star rounding and clamping.
- **Token manager** (`token-manager.ts`): a class holding the access and refresh
  tokens. It writes through to a key-value store (`localStorage`), decodes the
  payload segment of a bearer token, and checks it for expiry.
- **Base API client** (`base-api-client.ts`): the request pipeline. It builds the
  query string and the headers, then settles a fetch outcome:
  - a JSON body, or `{}` for an empty body, on success;
  - an `HttpError` carrying message, code, status and data on a non-OK status;
  - on a 401 it clears the session and calls the auth-error callback.
- **Claims API** (`claims-api.ts`):
  - a first-failure `validateClaim` with its own, looser URI test;
  - the calls each endpoint hands to `request`;
  - the two-step `getValidations`.
- **Credentials API** (`credentials-api.ts`): the credential id taken from the
  last `/`-separated piece of a URI, and the calls each endpoint makes.
- **Semantic helpers** (`semantic-helpers.ts`):
  - the simplified how-known choices;
  - the keyword mapping from free text to `HowKnown`;
  - field guidance and the source requirements;
  - `buildURI` / `parseURI`;
  - the 1–5 star ↔ score scale used for display.

Two support modules carry what the TypeScript gets from the JavaScript runtime:

- `Js` holds JS values (`undefined`, `null`, strings, numbers, `NaN`, booleans),
  truthiness, `Number(…)`, `String(…)` and JSON values.
- `Strings` holds `split`, `join`, `includes`, `startsWith` and ASCII
  `toLowerCase`.

Operations the SDK takes from its platform are fields of a `Js.Host` value that
every member needing them receives. These are the WHATWG URL parser, JSON
parse/stringify, base64 and `decodeURIComponent(atob(…))`, and number
printing. The model therefore proves its properties for every behaviour of
those platform functions.

Numbers read from claims and payloads are modelled as mathematical reals, with
`NaN` as a separate value; relational comparisons with `NaN` are false, as in
JavaScript. The rating conversions, `roundStars` and `clamp` take plain reals
(see "Left out"). `Date.now()` and
the fetch outcome (status and body text, or a rejection) are parameters.

Behaviours of the code worth knowing, all modelled as written:

- `setTokens(access)` without a refresh token clears the in-memory refresh
  token. It does not remove the stored one, so a reload brings the old refresh
  token back (`StaleRefreshSurvivesReload`).
- `isAuthenticated` is truthiness of the access token, so an empty string
  counts as signed out.
- `decodeToken` takes the second `.`-separated piece of any token with at least
  one dot.
- A 401 whose body parses to JSON `null` throws a `TypeError` inside
  `handleErrorResponse` before the tokens are cleared. Such a response
  therefore does not clear the session.
- The `buildURI` type map has an entry keyed by `EntityType.PROJECT`, which does
  not exist in the enum. JavaScript evaluates that key to `"undefined"`, and the
  model does the same; `"PROJECT"` still reaches `"project"` through the
  lower-case fallback.

## Model

| member | source | states |
|---|---|---|
| Validators.IsValidUri | sdk/typescript/src/validators.ts:12-36 | a URI is accepted only if it has a `scheme:` prefix; an `http(s)://` URI is accepted exactly when the URL parser accepts it; any other URI is accepted exactly when a non-whitespace character follows the scheme's colon |
| Validators.EmptyIsNotUri | sdk/typescript/src/validators.ts:13-15 | the empty string is not a URI |
| Validators.SchemeAloneIsNotUri | sdk/typescript/src/validators.ts:30-35 | `foo:` with nothing after the colon is rejected |
| Validators.WhitespaceIsNotUri | sdk/typescript/src/validators.ts:30-35 | `urn:a b`, which contains whitespace, is rejected |
| Validators.PlainTextIsNotUri | sdk/typescript/src/validators.ts:12-36 | an example: `not a uri`, text without a scheme, is rejected |
| Validators.DidIsUri | sdk/typescript/src/validators.ts:30-35 | an example: `did:example:123` is accepted without the URL parser |
| Validators.SchemeWithRestIsUri | sdk/typescript/src/validators.ts:30-35 | any scheme other than http(s), followed by a colon and a non-empty run of non-whitespace characters, is accepted without the URL parser |
| Validators.ValidateClaimField | sdk/typescript/src/validators.ts:41-114 | rules per field: `subject` fails exactly when it is not a valid URI, with "required" when falsy; `claim` fails unless it is a non-empty string; `object`/`sourceURI`/`issuerId` fail only when present and not a URI; the numeric fields pass when null/undefined and otherwise fail exactly outside their ranges; fields without a rule pass |
| Validators.FieldErrorsAppend | sdk/typescript/src/validators.ts:123-128 | per-field errors are collected in entry order: one more entry appends exactly that entry's error, if any |
| Validators.EntryErrorReported | sdk/typescript/src/validators.ts:123-128 | every entry's failure appears among the collected errors |
| Validators.PresenceErrors | sdk/typescript/src/validators.ts:131-137 | "subject is required" is added exactly when the subject is falsy, and "claim is required" exactly when the claim is falsy |
| Validators.ValidateClaim | sdk/typescript/src/validators.ts:119-140 | the loop returns the claim's errors (`ClaimErrors`: the per-field errors in entry order, then the presence errors), and at most two more errors than the claim has entries |
| Validators.EmptyClaimErrors | sdk/typescript/src/validators.ts:119-140 | an empty claim yields exactly the two "required" errors |
| Validators.FalsySubjectReportedTwice | sdk/typescript/src/validators.ts:123-133 | a present but falsy subject is reported twice, once by its field rule and once by the presence check |
| Validators.OnlyScoreFails | sdk/typescript/src/validators.ts:94-100 | a claim whose only fault is a score of 2 yields exactly the score error |
| Normalizers.DomainIsNotUri | sdk/typescript/src/normalizers.ts:18-23 | text matching the bare-domain pattern is never already a valid URI, so the `https://` branch is reachable |
| Normalizers.NormalizeUri | sdk/typescript/src/normalizers.ts:8-26 | empty input gives nothing; a valid URI is returned unchanged; otherwise only a bare domain yields a result, namely `https://` + input, and only when that result is a valid URI |
| Normalizers.NormalizeUriIdempotent | sdk/typescript/src/normalizers.ts:8-26 | normalising a normalised URI changes nothing |
| Normalizers.NormalizeRejects | sdk/typescript/src/normalizers.ts:18-25 | input that is neither a URI nor a bare domain is rejected |
| Normalizers.NormalizeAddsScheme | sdk/typescript/src/normalizers.ts:18-23 | a bare domain becomes `https://` + domain exactly when the URL parser accepts that |
| Normalizers.NormalizeTwoLabelDomain | sdk/typescript/src/normalizers.ts:18-23 | `name.tld/path` matches the domain pattern and gets the `https://` prefix |
| Normalizers.NormalizeRejectsText | sdk/typescript/src/normalizers.ts:8-26 | an example: `not a domain!!`, free text with spaces and punctuation, is rejected |
| Normalizers.UserIdToUri | sdk/typescript/src/normalizers.ts:31-47 | a falsy id gives nothing; a number or all-digit string becomes `baseUrl/user/<id>`; any other string is kept exactly when it is a valid URI; other types give nothing |
| Normalizers.DigitsAreNotUris | sdk/typescript/src/normalizers.ts:38-43 | an all-digit id is never a URI, so the numeric branch is the one taken |
| Normalizers.StarsToScore | sdk/typescript/src/normalizers.ts:53-58 | fails with its message exactly outside 0..5; otherwise the score lies in −1..1 |
| Normalizers.ScoreToStars | sdk/typescript/src/normalizers.ts:64-69 | fails with its message exactly outside −1..1; otherwise the stars lie in 0..5 |
| Normalizers.StarsScoreRoundTrip | sdk/typescript/src/normalizers.ts:53-69 | stars → score → stars returns the input |
| Normalizers.ScoreStarsRoundTrip | sdk/typescript/src/normalizers.ts:53-69 | score → stars → score returns the input |
| Normalizers.StarsToScoreEndpoints | sdk/typescript/src/normalizers.ts:53-58 | 0 stars give −1, 2.5 give 0 and 5 give 1 |
| Normalizers.StarsToScoreMonotone | sdk/typescript/src/normalizers.ts:53-58 | more stars never give a lower score |
| Normalizers.RoundStars | sdk/typescript/src/normalizers.ts:74-76 | the result is a multiple of one half, within a quarter of the input, and stays in 0..5 when the input does |
| Normalizers.RoundStarsIdempotent | sdk/typescript/src/normalizers.ts:74-76 | rounding twice equals rounding once |
| Normalizers.Clamp | sdk/typescript/src/normalizers.ts:81-83 | a value inside the range is kept; a value below `min` gives `min`; a value above `max` gives `max` when `min <= max`; when `max < min` the result is `min`; the result is never below `min` |
| Normalizers.ClampIdempotent | sdk/typescript/src/normalizers.ts:81-83 | clamping twice equals clamping once, for any bounds, even inverted ones |
| TokenStore.Loaded | sdk/typescript/src/token-manager.ts:12-15 | the tokens read at construction are the stored entries under the two keys |
| TokenStore.StoreAfterSet | sdk/typescript/src/token-manager.ts:22-27 | in persistent mode the access key is written and the refresh key only for a truthy refresh token; other keys and other modes are untouched |
| TokenStore.StoreAfterClear | sdk/typescript/src/token-manager.ts:42-45 | in persistent mode both keys are removed; nothing else changes |
| TokenStore.PayloadSegment | sdk/typescript/src/token-manager.ts:67 | a segment exists exactly when the token contains a dot; it is the text between the first dot and the next one, without dots |
| TokenStore.PayloadOfThreeSegments | sdk/typescript/src/token-manager.ts:67 | for `header.payload.signature` the payload segment is `payload` |
| TokenStore.Base64UrlToBase64 | sdk/typescript/src/token-manager.ts:68 | same length; `-` becomes `+` and `_` becomes `/`, each in place, every other character is kept; no `-` or `_` remains |
| TokenStore.Base64UrlToBase64Digits | sdk/typescript/src/token-manager.ts:68 | the URL-safe encoding of any digit sequence is turned into its standard base64 encoding |
| TokenStore.DecodeToken | sdk/typescript/src/token-manager.ts:65-79 | succeeds exactly when the token has a payload segment that base64url-decodes and parses as JSON, and the result is that parsed payload; every failure is "Invalid token" |
| TokenStore.ExpiredAt | sdk/typescript/src/token-manager.ts:57-59 | a null payload counts as expired, a non-object or an object without `exp` as not expired, and a numeric `exp` as expired exactly when it is before now in seconds |
| TokenStore.ExpiryIsMonotone | sdk/typescript/src/token-manager.ts:57-59 | a payload expired at some time stays expired later |
| TokenStore.TokenExpired | sdk/typescript/src/token-manager.ts:56-62 | a token that fails to decode, or has no dot, is expired; otherwise the payload's expiry decides |
| TokenStore.TokenManager.constructor | sdk/typescript/src/token-manager.ts:8-16 | tokens are loaded from the store in persistent mode with a window, and are unset otherwise; memory and store agree |
| TokenStore.TokenManager.SetTokens | sdk/typescript/src/token-manager.ts:18-28 | the session becomes the access token and the refresh token, or null when that is falsy; the store is updated as `StoreAfterSet` says; memory and store agree whenever a refresh token was given |
| TokenStore.TokenManager.GetAccessToken | sdk/typescript/src/token-manager.ts:30-32 | returns the current access token |
| TokenStore.TokenManager.GetRefreshToken | sdk/typescript/src/token-manager.ts:34-36 | returns the current refresh token |
| TokenStore.TokenManager.ClearTokens | sdk/typescript/src/token-manager.ts:38-46 | both tokens become unset; the store is updated as `StoreAfterClear` says; memory and store agree afterwards |
| TokenStore.TokenManager.IsAuthenticated | sdk/typescript/src/token-manager.ts:48-50 | true exactly when the access token is set and non-empty |
| TokenStore.TokenManager.IsExpired | sdk/typescript/src/token-manager.ts:52-63 | checks the given token when it is truthy, else the access token; true when neither is set |
| TokenStore.TokenManager.GetAuthHeader | sdk/typescript/src/token-manager.ts:81-86 | has an `Authorization: Bearer <token>` entry exactly when authenticated, and no other keys |
| TokenStore.ReloadAfterClear | sdk/typescript/src/token-manager.ts:38-46 | after a persistent clear, a fresh manager starts signed out |
| TokenStore.ClearIsIdempotent | sdk/typescript/src/token-manager.ts:38-46 | clearing the store twice equals clearing it once |
| TokenStore.StaleRefreshSurvivesReload | sdk/typescript/src/token-manager.ts:18-28 | after `setTokens(access)` without a refresh token, a reload sees the new access token and the previously stored refresh token |
| TokenStore.ReloadAfterSet | sdk/typescript/src/token-manager.ts:18-28 | after `setTokens(access, refresh)`, a reload sees exactly those two tokens |
| ApiClient.KeptParams | sdk/typescript/src/base-api-client.ts:32-38 | every query pair comes from a defined parameter, with its value converted by `String`, and there are no more pairs than parameters |
| ApiClient.KeptParamsAppend | sdk/typescript/src/base-api-client.ts:32-38 | parameters are appended in order; an undefined one adds nothing |
| ApiClient.DefinedParamsKept | sdk/typescript/src/base-api-client.ts:32-38 | every defined parameter reaches the query string |
| ApiClient.AppendParams | sdk/typescript/src/base-api-client.ts:31-38 | the loop appends exactly the kept parameters, in order, after the existing query |
| ApiClient.MergeHeaders | sdk/typescript/src/base-api-client.ts:41-45 | the keys are Content-Type plus the auth and caller keys; caller headers override auth headers, which override the JSON content type |
| ApiClient.SerializedBody | sdk/typescript/src/base-api-client.ts:103-117 | a body is sent exactly when the data is present and truthy, as its JSON text |
| ApiClient.GetOptions | sdk/typescript/src/base-api-client.ts:99-101 | GET with the parameters and no body |
| ApiClient.PostOptions | sdk/typescript/src/base-api-client.ts:103-109 | POST with the serialised body and the parameters |
| ApiClient.PutOptions | sdk/typescript/src/base-api-client.ts:111-117 | PUT with the serialised body and the parameters |
| ApiClient.DeleteOptions | sdk/typescript/src/base-api-client.ts:119-121 | DELETE with the parameters and no body |
| ApiClient.MessageOf | sdk/typescript/src/base-api-client.ts:80-82 | the message is a truthy `error`, else a truthy `message`, else `HTTP <status>` |
| ApiClient.CodeOf | sdk/typescript/src/base-api-client.ts:83 | the code is a truthy `code`, else `HTTP_ERROR` |
| ApiClient.ErrorData | sdk/typescript/src/base-api-client.ts:73-78 | the error data is the parsed body, or `{error: "Request failed"}` when the body does not parse |
| ApiClient.ErrorFor | sdk/typescript/src/base-api-client.ts:72-86 | a body that parses to null yields a TypeError; any other body yields an HttpError carrying message, code, status and data |
| ApiClient.Settle | sdk/typescript/src/base-api-client.ts:47-69 | only an OK response gives data: `{}` for an empty body, else the parsed JSON or a SyntaxError; a non-OK response throws its `ErrorFor`; a rejection is rethrown when it is an Error, else becomes "Network error" |
| ApiClient.UnauthorizedWithoutBody | sdk/typescript/src/base-api-client.ts:72-95 | a 401 with an unparsable body clears the session and throws "Request failed" with status 401 |
| ApiClient.ServerErrorWithEmptyObject | sdk/typescript/src/base-api-client.ts:80-86 | a 500 whose body is `{}` throws `HTTP 500` with code `HTTP_ERROR` |
| ApiClient.BaseApiClient.constructor | sdk/typescript/src/base-api-client.ts:14-22 | keeps the base URL, the token manager and whether a callback was given; nothing has happened yet |
| ApiClient.BaseApiClient.AuthEffects | sdk/typescript/src/base-api-client.ts:87-93 | a 401 first clears the tokens, then calls the auth-error callback when there is one, and does nothing else |
| ApiClient.BaseApiClient.HandleErrorResponse | sdk/typescript/src/base-api-client.ts:72-96 | throws `ErrorFor(status, body)`; on a 401 that reaches the check, the tokens are cleared and the callback logged; otherwise the session and the log are untouched |
| ApiClient.BaseApiClient.Request | sdk/typescript/src/base-api-client.ts:24-70 | an unparsable URL throws before fetching; otherwise the fetch is made to the URL with the kept query and the merged headers, and the result is `Settle` of the outcome; only a clearing 401 changes the session |
| ClaimsApi.FirstFailure | sdk/typescript/src/claims-api.ts:108-140 | the index of the first failing check at or after `from`, or none exactly when all of them pass |
| ClaimsApi.ValidateClaim | sdk/typescript/src/claims-api.ts:108-140 | passes exactly when all eight checks pass; otherwise throws the message of the first failing check |
| ClaimsApi.MissingSubjectFirst | sdk/typescript/src/claims-api.ts:109-111 | a falsy subject is reported before anything else |
| ClaimsApi.ScoreBeforeStars | sdk/typescript/src/claims-api.ts:133-139 | with every earlier check passing, a bad score is reported even if the stars are also bad |
| ClaimsApi.NumericBounds | sdk/typescript/src/claims-api.ts:133-139 | a numeric score fails exactly outside [−1, 1] and numeric stars exactly outside [1, 5]; a NaN score passes; null stars fail |
| ClaimsApi.Create | sdk/typescript/src/claims-api.ts:15-18 | throws exactly when validation fails, with its message; otherwise POSTs the claim's JSON text to `/api/claims` |
| Js.ObjectToJson | sdk/typescript/src/claims-api.ts:17 | the JSON object the claim is posted as has only keys of defined properties |
| Js.DefinedPropertyKept | sdk/typescript/src/claims-api.ts:17 | every defined property of the claim is posted |
| Js.DefinedPropertyValue | sdk/typescript/src/claims-api.ts:17 | each defined property is posted with its own value in JSON form (NaN as null) |
| ClaimsApi.GetById | sdk/typescript/src/claims-api.ts:24-26 | GET `/api/claims/<id>` |
| ClaimsApi.Defaulted | sdk/typescript/src/claims-api.ts:32-43 | a default parameter applies only to `undefined` |
| ClaimsApi.OrDefault | sdk/typescript/src/claims-api.ts:81-90 | `x \|\| fallback` replaces every falsy value |
| ClaimsApi.GetBySubject | sdk/typescript/src/claims-api.ts:32-43 | GET `/api/claims/subject/<base64 of the URI>` with page and limit defaulting to 1 and 50 |
| ClaimsApi.Query | sdk/typescript/src/claims-api.ts:49-53 | GET `/api/claim` with the given parameters |
| ClaimsApi.GetByObject | sdk/typescript/src/claims-api.ts:81-90 | GET `/api/claim` with no body, with the object, and page/limit falling back to 1/50 whenever falsy |
| ClaimsApi.PaginationDefaults | sdk/typescript/src/claims-api.ts:81-90 | page 0 and limit 0 become 1 and 50 for `getByObject`, while `getBySubject` keeps page 0 |
| ClaimsApi.ValidationsSubject | sdk/typescript/src/claims-api.ts:95-103 | the object URI is a truthy `claimAddress`, else `baseUrl/claim/<id>`; a missing or null `claim` makes the read fail |
| ClaimsApi.GetValidations | sdk/typescript/src/claims-api.ts:95-103 | first `getById(claimId)`, then `getByObject` on that object URI with default pagination, exactly when it exists |
| ClaimsApi.ValidationsFallback | sdk/typescript/src/claims-api.ts:95-103 | an empty claim address falls back to the claim's own URL |
| ClaimsApi.StarBoundsDiffer | sdk/typescript/src/claims-api.ts:137-139 | 0 stars pass the field validator but fail this check, so the two star ranges differ |
| ClaimsApi.IsValidURI | sdk/typescript/src/claims-api.ts:142-150 | true whenever the URL parser accepts the value's text; otherwise true exactly when that text starts with `urn:` or `did:` |
| ClaimsApi.UriTestsDiffer | sdk/typescript/src/claims-api.ts:142-150 | `urn:` passes this URI test but fails the scheme-based one |
| CredentialsApi.CredentialId | sdk/typescript/src/credentials-api.ts:48 | without `/` the id is the whole input; otherwise it is the `/`-free suffix that follows the last `/` |
| CredentialsApi.TrailingSlashGivesEmptyId | sdk/typescript/src/credentials-api.ts:48 | a URI ending in `/` gives the empty id |
| CredentialsApi.IdOfCredentialUri | sdk/typescript/src/credentials-api.ts:48 | the id of `base/id` is `id` |
| CredentialsApi.GetCredential | sdk/typescript/src/credentials-api.ts:46-52 | GET `/api/credentials/<id>` |
| CredentialsApi.Verify | sdk/typescript/src/credentials-api.ts:71-81 | GET `/api/credentials/<id>/verify` |
| CredentialsApi.GetBySubject | sdk/typescript/src/credentials-api.ts:57-66 | GET `/api/credentials` with subject, and page/limit defaulting to 1/20 |
| CredentialsApi.InputToJson | sdk/typescript/src/credentials-api.ts:39-41 | the posted object has exactly the properties that were given, each with its given value (the schema as a JSON string) |
| CredentialsApi.Create | sdk/typescript/src/credentials-api.ts:39-41 | POSTs the input's JSON text to `/api/credentials`, with no query parameters |
| CredentialsApi.SubmitCredential | sdk/typescript/src/credentials-api.ts:95-100 | is `create` with the credential and metadata and no schema |
| CredentialsApi.SubmitSendsNoSchema | sdk/typescript/src/credentials-api.ts:95-100 | the posted object never has a schema |
| SemanticHelpers.GetSimplifiedHowKnown | sdk/typescript/src/semantic-helpers.ts:14-34 | four choices, in order FIRST_HAND, WEB_DOCUMENT, SECOND_HAND, VERIFIED_LOGIN; only the web-document choice requires a source |
| SemanticHelpers.SimplifiedLabelMapsBack | sdk/typescript/src/semantic-helpers.ts:14-63 | each simplified choice's label, passed to `mapHowKnown`, gives back that choice's value |
| SemanticHelpers.FirstHandLabelMapsBack | sdk/typescript/src/semantic-helpers.ts:17-20 | "I witnessed this directly" maps to FIRST_HAND |
| SemanticHelpers.WebDocumentLabelMapsBack | sdk/typescript/src/semantic-helpers.ts:21-25 | "I found this online" maps to WEB_DOCUMENT |
| SemanticHelpers.SecondHandLabelMapsBack | sdk/typescript/src/semantic-helpers.ts:26-29 | "Someone told me about this" maps to SECOND_HAND |
| SemanticHelpers.VerifiedLoginLabelMapsBack | sdk/typescript/src/semantic-helpers.ts:30-33 | "Verified through login" maps to VERIFIED_LOGIN |
| SemanticHelpers.MapsToFirstKey | sdk/typescript/src/semantic-helpers.ts:43-60 | when the k-th keyword occurs in the lower-cased text and no earlier one does, the result is that keyword's value |
| SemanticHelpers.OnlineFirstKey | sdk/typescript/src/semantic-helpers.ts:43-60 | text containing "online" and no 'w' or 'r' maps to WEB_DOCUMENT |
| SemanticHelpers.ToldFirstKey | sdk/typescript/src/semantic-helpers.ts:43-60 | text containing "told", with no 'w', no 'r' and no "nl", maps to SECOND_HAND |
| SemanticHelpers.VerifiedFirstKey | sdk/typescript/src/semantic-helpers.ts:43-60 | text containing "verified", with no 'w', 'c' or 'a' and no "on" or "to", maps to VERIFIED_LOGIN |
| SemanticHelpers.GetSourceRequirements | sdk/typescript/src/semantic-helpers.ts:253-288 | a source is required exactly for WEB_DOCUMENT; the field is `author` for SECOND_HAND and `sourceURI` otherwise |
| SemanticHelpers.SimplifiedChoicesAgreeWithRequirements | sdk/typescript/src/semantic-helpers.ts:14-34 | each simplified choice's source flag agrees with the source requirements |
| SemanticHelpers.FirstMatch | sdk/typescript/src/semantic-helpers.ts:56-60 | none exactly when no key from `i` on occurs; otherwise the value of the first key that occurs |
| SemanticHelpers.MapHowKnown | sdk/typescript/src/semantic-helpers.ts:39-63 | OTHER exactly when no keyword occurs in the lower-cased input; otherwise the value of the first keyword, in table order, that occurs |
| SemanticHelpers.OnlineBeatsLaterKeys | sdk/typescript/src/semantic-helpers.ts:43-60 | "online" wins over every later keyword once no first-hand keyword occurs |
| SemanticHelpers.VerifiedOnlineIsWebDocument | sdk/typescript/src/semantic-helpers.ts:43-60 | "verified online" maps to WEB_DOCUMENT, not VERIFIED_LOGIN |
| SemanticHelpers.GetFieldGuidance | sdk/typescript/src/semantic-helpers.ts:68-174 | known fields get their table entry; unknown fields get `Enter <field>` with no rules |
| SemanticHelpers.StarGuidanceMatchesClaimsApi | sdk/typescript/src/semantic-helpers.ts:159-166 | the stars guidance range 1..5 is exactly the claims API's star check, which the field validator's 0..5 does not match |
| SemanticHelpers.RangeGuidanceMatchesValidators | sdk/typescript/src/semantic-helpers.ts:141-157 | the confidence and score guidance ranges are exactly the field validator's ranges |
| SemanticHelpers.TypeSegment | sdk/typescript/src/semantic-helpers.ts:188-198 | a type in the map gets its segment, any other its lower-case form; the result has no upper case |
| SemanticHelpers.EntitySegments | sdk/typescript/src/semantic-helpers.ts:188-198 | each entity type gets its path segment (ORGANIZATION → `org`, DOCUMENT → `doc`, …) |
| SemanticHelpers.ProjectSegment | sdk/typescript/src/semantic-helpers.ts:192 | "PROJECT" still becomes `project` |
| SemanticHelpers.IsValidURI | sdk/typescript/src/semantic-helpers.ts:240-248 | true whenever the URL parser accepts the text; otherwise true exactly when it starts with `urn:` or `did:` |
| SemanticHelpers.SameUriTestAsClaimsApi | sdk/typescript/src/semantic-helpers.ts:240-248 | this URI test gives the same answer as the claims API's one on every string |
| SemanticHelpers.BuildURI | sdk/typescript/src/semantic-helpers.ts:179-200 | a valid URI is returned as is; otherwise the result is `<domain or https://example.org>/<segment>/<identifier>`; it always ends with the identifier |
| SemanticHelpers.BuildKeepsDids | sdk/typescript/src/semantic-helpers.ts:181-183 | a DID is returned unchanged |
| SemanticHelpers.ParseURI | sdk/typescript/src/semantic-helpers.ts:205-235 | a DID gives scheme `did`, the second `:`-piece as domain and the rest joined by `:` as identifier; a parsable URL gives its parts; anything else gives only the identifier |
| SemanticHelpers.DidPiecesRebuild | sdk/typescript/src/semantic-helpers.ts:213-219 | `did:` + domain + `:` + identifier is the original DID |
| SemanticHelpers.DidRoundTrip | sdk/typescript/src/semantic-helpers.ts:213-219 | parsing a DID and rebuilding it from scheme, domain and identifier returns it |
| SemanticHelpers.StarsToScore | sdk/typescript/src/semantic-helpers.ts:293-296 | 1..5 stars map into −1..1, with 3 stars at 0 |
| SemanticHelpers.ScoreToStars | sdk/typescript/src/semantic-helpers.ts:298-301 | a score in −1..1 gives a whole number of stars in 1..5 |
| SemanticHelpers.WholeStarsRoundTrip | sdk/typescript/src/semantic-helpers.ts:293-301 | whole stars → score → stars returns the input |
| SemanticHelpers.StarScalesAgreeOnlyAtFive | sdk/typescript/src/semantic-helpers.ts:293-296 | on 0..5 stars this scale and the normalizers' scale agree only at 5 stars |

## Left out

- Networking: `fetch` is not performed. `Request` receives the outcome (status and
  body text, or a rejection and whether it is an `Error`). Fetch options other
  than method, body and headers are not modelled.
- The WHATWG URL parser, `JSON.parse`/`JSON.stringify`, `atob`/`Buffer` base64,
  `decodeURIComponent`, `Number(string)` and number-to-string printing are
  uninterpreted fields of `Js.Host`. Only their results are used.
- `Date.now()` is a parameter (milliseconds). Floating-point numbers are reals:
  rounding error, infinities and `-0` are not modelled.
- Normalizers.StarsToScore, Normalizers.ScoreToStars: a `NaN` argument makes
  both range guards false, so the code returns `NaN` without throwing. These
  members take reals, so that case is not modelled. Normalizers.RoundStars,
  Normalizers.Clamp, SemanticHelpers.StarsToScore and SemanticHelpers.ScoreToStars
  also take reals; in the code they pass `NaN` through.
- Js.Json: a JSON object (`JObj`) is a map, so the key order of the text `JSON.stringify`
  writes (insertion order) is not modelled; only which keys it has and their values.
- `toLowerCase` is modelled on ASCII letters only.
- `localStorage` is a `KeyValueStore` object. The browser's storage events,
  quota errors and cross-tab sharing are not modelled. `typeof window` is a
  constructor flag.
- Concurrency: requests are not interleaved; each call runs to completion.
- `ParseURI` gets the URL's protocol, hostname and pathname from the host parser
  as a whole. The `filter(p => p)` of path pieces is modelled, but URL parsing
  itself is not.
- Property lookups in `guides[field]` and `typeMap[type]` that would hit
  `Object.prototype` names (for example `"constructor"`) are not modelled: only
  own keys are looked up.
- `ClaimsApi.GetValidations`: the response to `getById` is an input, and the
  result is the pair of calls. Reading `response.claims` from the second
  response is not modelled.
- The delegating aliases (`createClaim`, `getClaim`, `getClaimsBySubject`,
  `queryClaims`, `getByUri`) add nothing beyond the methods they call, so they
  have no members of their own.
- `auth-api.ts`, `client.ts`, `index.ts`, `types.ts` (beyond the two enums) and
  the Python signing script are not part of this model.
- `ApiClient.BaseApiClient.HandleErrorResponse`: the `onAuthError` callback is
  recorded as an effect; whatever the callback does is not modelled.
