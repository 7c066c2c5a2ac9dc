/**
 * User-interface helpers for claim forms (sdk/typescript/src/semantic-helpers.ts):
 * the simplified "how known" choices and their mapping from free text,
 * field guidance, URI building and parsing, source requirements, and a
 * 1..5 star scale.
 */
module SemanticHelpers {
  import opened Js
  import opened Strings
  import ClaimsApi
  import Validators
  import Normalizers

  /** The `HowKnown` enum of sdk/typescript/src/types.ts. */
  datatype HowKnown =
    | FIRST_HAND | SECOND_HAND | WEB_DOCUMENT | VERIFIED_LOGIN | BLOCKCHAIN | SIGNED_DOCUMENT
    | PHYSICAL_DOCUMENT | INTEGRATION | RESEARCH | OPINION | OTHER

  /** The `EntityType` enum of sdk/typescript/src/types.ts; each value is its own name as a string. */
  datatype EntityType =
    | PERSON | ORGANIZATION | CLAIM | IMPACT | EVENT | DOCUMENT | PRODUCT | PLACE | UNKNOWN | OTHER_ENTITY | CREDENTIAL

  function EntityName(t: EntityType): string {
    match t
    case PERSON => "PERSON"
    case ORGANIZATION => "ORGANIZATION"
    case CLAIM => "CLAIM"
    case IMPACT => "IMPACT"
    case EVENT => "EVENT"
    case DOCUMENT => "DOCUMENT"
    case PRODUCT => "PRODUCT"
    case PLACE => "PLACE"
    case UNKNOWN => "UNKNOWN"
    case OTHER_ENTITY => "OTHER"
    case CREDENTIAL => "CREDENTIAL"
  }

  /** One choice offered to users: the value, its label, and `requiresSource` (None when absent). */
  datatype SimplifiedOption = SimplifiedOption(value: HowKnown, labelText: string, requiresSource: Option<bool>)

  /** `getSimplifiedHowKnown` */
  function GetSimplifiedHowKnown(): (r: seq<SimplifiedOption>)
    ensures |r| == 4
    ensures r[0].value == FIRST_HAND && r[1].value == WEB_DOCUMENT
    ensures r[2].value == SECOND_HAND && r[3].value == VERIFIED_LOGIN
    ensures forall i, j | 0 <= i < j < |r| :: r[i].value != r[j].value
    ensures forall i | 0 <= i < |r| :: r[i].requiresSource == (if r[i].value == WEB_DOCUMENT then Some(true) else None)
  {
    [ SimplifiedOption(FIRST_HAND, "I witnessed this directly", None),
      SimplifiedOption(WEB_DOCUMENT, "I found this online", Some(true)),
      SimplifiedOption(SECOND_HAND, "Someone told me about this", None),
      SimplifiedOption(VERIFIED_LOGIN, "Verified through login", None) ]
  }

  /** What `getSourceRequirements` answers. */
  datatype SourceRequirements = SourceRequirements(required: bool, fieldName: string, help: string)

  /** `getSourceRequirements` */
  function GetSourceRequirements(howKnown: HowKnown): (r: SourceRequirements)
    ensures r.required <==> howKnown == WEB_DOCUMENT
    ensures r.fieldName == (if howKnown == SECOND_HAND then "author" else "sourceURI")
  {
    match howKnown
    case WEB_DOCUMENT =>
      SourceRequirements(true, "sourceURI", "Please provide the URL of the web page where you found this information")
    case SECOND_HAND =>
      SourceRequirements(false, "author", "You can optionally provide the URI of the person who told you")
    case SIGNED_DOCUMENT =>
      SourceRequirements(false, "sourceURI", "If available online, provide the document URL")
    case PHYSICAL_DOCUMENT =>
      SourceRequirements(false, "sourceURI", "If available online, provide the document URL")
    case _ =>
      SourceRequirements(false, "sourceURI", "You can optionally provide a source URL")
  }

  /** The choices that ask for a source are exactly those whose source is required. */
  lemma {:induction false} SimplifiedChoicesAgreeWithRequirements()
    ensures forall o | o in GetSimplifiedHowKnown() :: (o.requiresSource == Some(true)) == GetSourceRequirements(o.value).required
  {
  }

  /** The table of `mapHowKnown`, in its listed order. */
  const HOW_KNOWN_TABLE: seq<(string, HowKnown)> := [
    ("witnessed", FIRST_HAND), ("saw it", FIRST_HAND), ("direct", FIRST_HAND),
    ("online", WEB_DOCUMENT), ("website", WEB_DOCUMENT), ("article", WEB_DOCUMENT),
    ("told", SECOND_HAND), ("heard", SECOND_HAND),
    ("verified", VERIFIED_LOGIN), ("logged in", VERIFIED_LOGIN)
  ]

  /** The value of the first entry from position `i` on whose key occurs in `s`. */
  function FirstMatch(s: string, table: seq<(string, HowKnown)>, i: nat): (r: Option<HowKnown>)
    requires i <= |table|
    ensures r.None? <==> forall k | i <= k < |table| :: !Contains(s, table[k].0)
    ensures r.Some? ==> exists k | i <= k < |table| ::
      Contains(s, table[k].0) && r.value == table[k].1 && forall j | i <= j < k :: !Contains(s, table[j].0)
    decreases |table| - i
  {
    if i == |table| then None
    else if Contains(s, table[i].0) then Some(table[i].1)
    else FirstMatch(s, table, i + 1)
  }

  /** `mapHowKnown`: lower-case the text and take the first key that occurs in it; OTHER when none does. */
  function MapHowKnown(userValue: string): (r: HowKnown)
    ensures r in {FIRST_HAND, WEB_DOCUMENT, SECOND_HAND, VERIFIED_LOGIN, OTHER}
    ensures r == OTHER <==> forall k | 0 <= k < |HOW_KNOWN_TABLE| :: !Contains(ToLower(userValue), HOW_KNOWN_TABLE[k].0)
    ensures r != OTHER ==> exists k | 0 <= k < |HOW_KNOWN_TABLE| ::
      Contains(ToLower(userValue), HOW_KNOWN_TABLE[k].0) && r == HOW_KNOWN_TABLE[k].1 &&
      forall j | 0 <= j < k :: !Contains(ToLower(userValue), HOW_KNOWN_TABLE[j].0)
  {
    assert forall e | e in HOW_KNOWN_TABLE :: e.1 in {FIRST_HAND, WEB_DOCUMENT, SECOND_HAND, VERIFIED_LOGIN};
    match FirstMatch(ToLower(userValue), HOW_KNOWN_TABLE, 0)
    case None => OTHER
    case Some(h) => h
  }

  /** No upper-case ASCII letter occurs in `s`. */
  predicate NoUpperCase(s: string) {
    forall k | 0 <= k < |s| :: !('A' <= s[k] <= 'Z')
  }

  /** Lower-casing leaves text without upper-case ASCII letters alone. */
  lemma {:induction false} LowerOfLower(s: string)
    requires NoUpperCase(s)
    ensures ToLower(s) == s
  {
    assert forall k | 0 <= k < |s| :: ToLower(s)[k] == s[k];
  }

  /** Text mentioning 'online' is a web document unless a first-hand key occurs, whatever else it mentions. */
  lemma {:induction false} OnlineBeatsLaterKeys(userValue: string)
    requires Contains(ToLower(userValue), "online")
    requires forall k | 0 <= k < 3 :: !Contains(ToLower(userValue), HOW_KNOWN_TABLE[k].0)
    ensures MapHowKnown(userValue) == WEB_DOCUMENT
  {
    assert HOW_KNOWN_TABLE[3].0 == "online";
    assert FirstMatch(ToLower(userValue), HOW_KNOWN_TABLE, 3) == Some(WEB_DOCUMENT);
  }

  /** Lower-case text with 'online' at position 9 and no 'w', 's' or 'c' maps to a web document. */
  lemma {:induction false} OnlineWithoutFirstHandLetters(s: string)
    requires NoUpperCase(s) && 'w' !in s && 's' !in s && 'c' !in s && OccursAt("online", s, 9)
    ensures MapHowKnown(s) == WEB_DOCUMENT
  {
    LowerOfLower(s);
    MissingCharNotContained(s, HOW_KNOWN_TABLE[0].0, 0);
    MissingCharNotContained(s, HOW_KNOWN_TABLE[1].0, 0);
    MissingCharNotContained(s, HOW_KNOWN_TABLE[2].0, 4);
    ContainsIsOccurrence(s, "online");
    OnlineBeatsLaterKeys(s);
  }

  /** The keys of the table, in order. */
  lemma {:induction false} TableKeys()
    ensures |HOW_KNOWN_TABLE| == 10
    ensures HOW_KNOWN_TABLE[0].0 == "witnessed" && HOW_KNOWN_TABLE[1].0 == "saw it" && HOW_KNOWN_TABLE[2].0 == "direct"
    ensures HOW_KNOWN_TABLE[3].0 == "online" && HOW_KNOWN_TABLE[4].0 == "website" && HOW_KNOWN_TABLE[5].0 == "article"
    ensures HOW_KNOWN_TABLE[6].0 == "told" && HOW_KNOWN_TABLE[7].0 == "heard" && HOW_KNOWN_TABLE[8].0 == "verified"
  {
  }

  /** Once the `k`-th key occurs in the lower-cased text and no earlier one does, `mapHowKnown` gives that key's value. */
  lemma {:induction false} MapsToFirstKey(userValue: string, k: nat)
    requires k < |HOW_KNOWN_TABLE| && Contains(ToLower(userValue), HOW_KNOWN_TABLE[k].0)
    requires forall j | 0 <= j < k :: !Contains(ToLower(userValue), HOW_KNOWN_TABLE[j].0)
    ensures MapHowKnown(userValue) == HOW_KNOWN_TABLE[k].1
  {
    var s := ToLower(userValue);
    var r := MapHowKnown(userValue);
    var m :| 0 <= m < |HOW_KNOWN_TABLE| && Contains(s, HOW_KNOWN_TABLE[m].0) && r == HOW_KNOWN_TABLE[m].1 &&
      forall j | 0 <= j < m :: !Contains(s, HOW_KNOWN_TABLE[j].0);
    assert m == k;
  }

  /** The lower-cased first-hand label has "witnessed" at position 2. */
  lemma {:induction false} FirstHandLabelLowered(labelText: string)
    requires labelText == "I witnessed this directly"
    ensures OccursAt("witnessed", ToLower(labelText), 2)
  {
    var l := "i witnessed this directly";
    ToLowerIs(labelText, l);
    FirstHandTextFacts(l);
  }

  lemma {:induction false} FirstHandTextFacts(l: string)
    requires l == "i witnessed this directly"
    ensures OccursAt("witnessed", l, 2)
  {
    assert l[2] == 'w' && l[3] == 'i' && l[4] == 't' && l[5] == 'n' && l[6] == 'e';
    assert l[7] == 's' && l[8] == 's' && l[9] == 'e' && l[10] == 'd';
  }

  /** The first-hand label maps back to FIRST_HAND: it contains "witnessed". */
  lemma {:induction false} FirstHandLabelMapsBack(labelText: string)
    requires labelText == "I witnessed this directly"
    ensures MapHowKnown(labelText) == FIRST_HAND
  {
    FirstHandLabelLowered(labelText);
    OccurrenceContained(ToLower(labelText), "witnessed", 2);
    MapsToFirstKey(labelText, 0);
  }

  /** Text with "online" at some position and without 'w' or 'r' maps to WEB_DOCUMENT. */
  lemma {:induction false} OnlineFirstKey(userValue: string, i: nat)
    requires 'w' !in ToLower(userValue) && 'r' !in ToLower(userValue)
    requires OccursAt("online", ToLower(userValue), i)
    ensures MapHowKnown(userValue) == WEB_DOCUMENT
  {
    var l := ToLower(userValue);
    OnlineKeysAbsent(l);
    OccurrenceContained(l, "online", i);
    TableKeys();
    MapsToFirstKey(userValue, 3);
  }

  /** The three keys before "online" are absent from text lacking 'w' and 'r'. */
  lemma {:induction false} OnlineKeysAbsent(l: string)
    requires 'w' !in l && 'r' !in l
    ensures forall j | 0 <= j < 3 :: !Contains(l, HOW_KNOWN_TABLE[j].0)
  {
    TableKeys();
    MissingCharNotContained(l, "witnessed", 0);
    MissingCharNotContained(l, "saw it", 2);
    MissingCharNotContained(l, "direct", 2);
  }

  /** The lower-cased web-document label has "online" at position 13 and neither 'w' nor 'r'. */
  lemma {:induction false} WebDocumentLabelLowered(labelText: string)
    requires labelText == "I found this online"
    ensures 'w' !in ToLower(labelText) && 'r' !in ToLower(labelText)
    ensures OccursAt("online", ToLower(labelText), 13)
  {
    var l := "i found this online";
    ToLowerIs(labelText, l);
    WebDocumentTextFacts(l);
  }

  lemma {:induction false} WebDocumentTextFacts(l: string)
    requires l == "i found this online"
    ensures 'w' !in l && 'r' !in l
    ensures OccursAt("online", l, 13)
  {
  }

  /** The web-document label maps back to WEB_DOCUMENT: "online" is its first key. */
  lemma {:induction false} WebDocumentLabelMapsBack(labelText: string)
    requires labelText == "I found this online"
    ensures MapHowKnown(labelText) == WEB_DOCUMENT
  {
    WebDocumentLabelLowered(labelText);
    OnlineFirstKey(labelText, 13);
  }

  /** `a` is never directly followed by `b` in `s`. */
  ghost predicate NeverAdjacent(s: string, a: char, b: char) {
    forall k | 0 <= k < |s| - 1 :: !(s[k] == a && s[k + 1] == b)
  }

  /** Text with "told" at some position, without 'w' or 'r' and without "nl" maps to SECOND_HAND. */
  lemma {:induction false} ToldFirstKey(userValue: string, i: nat)
    requires 'w' !in ToLower(userValue) && 'r' !in ToLower(userValue) && NeverAdjacent(ToLower(userValue), 'n', 'l')
    requires OccursAt("told", ToLower(userValue), i)
    ensures MapHowKnown(userValue) == SECOND_HAND
  {
    var l := ToLower(userValue);
    ToldKeysAbsent(l);
    OccurrenceContained(l, "told", i);
    TableKeys();
    MapsToFirstKey(userValue, 6);
  }

  /** The six keys before "told" are absent from text lacking 'w', 'r' and the pair "nl". */
  lemma {:induction false} ToldKeysAbsent(l: string)
    requires 'w' !in l && 'r' !in l && NeverAdjacent(l, 'n', 'l')
    ensures forall j | 0 <= j < 6 :: !Contains(l, HOW_KNOWN_TABLE[j].0)
  {
    TableKeys();
    OnlineKeysAbsent(l);
    MissingPairNotContained(l, "online", 1);
    MissingCharNotContained(l, "website", 0);
    MissingCharNotContained(l, "article", 1);
  }

  /** The lower-cased second-hand label has "told" at position 8, neither 'w' nor 'r', and no "nl". */
  lemma {:induction false} SecondHandLabelLowered(labelText: string)
    requires labelText == "Someone told me about this"
    ensures 'w' !in ToLower(labelText) && 'r' !in ToLower(labelText) && NeverAdjacent(ToLower(labelText), 'n', 'l')
    ensures OccursAt("told", ToLower(labelText), 8)
  {
    var l := "someone told me about this";
    ToLowerIs(labelText, l);
    SecondHandTextFacts(l);
  }

  lemma {:induction false} SecondHandTextFacts(l: string)
    requires l == "someone told me about this"
    ensures 'w' !in l && 'r' !in l && NeverAdjacent(l, 'n', 'l')
    ensures OccursAt("told", l, 8)
  {
  }

  /** The second-hand label maps back to SECOND_HAND: "told" is its first key. */
  lemma {:induction false} SecondHandLabelMapsBack(labelText: string)
    requires labelText == "Someone told me about this"
    ensures MapHowKnown(labelText) == SECOND_HAND
  {
    SecondHandLabelLowered(labelText);
    ToldFirstKey(labelText, 8);
  }

  /** Text with "verified" at some position, without 'w', 'c' or 'a' and without "on" or "to" maps to VERIFIED_LOGIN. */
  lemma {:induction false} VerifiedFirstKey(userValue: string, i: nat)
    requires 'w' !in ToLower(userValue) && 'c' !in ToLower(userValue) && 'a' !in ToLower(userValue)
    requires NeverAdjacent(ToLower(userValue), 'o', 'n') && NeverAdjacent(ToLower(userValue), 't', 'o')
    requires OccursAt("verified", ToLower(userValue), i)
    ensures MapHowKnown(userValue) == VERIFIED_LOGIN
  {
    var l := ToLower(userValue);
    VerifiedKeysAbsent(l);
    TableKeys();
    OccurrenceContained(l, "verified", i);
    MapsToFirstKey(userValue, 8);
  }

  /** The eight keys before "verified" are absent from text lacking 'w', 'c' and 'a' and the pairs "on" and "to". */
  lemma {:induction false} VerifiedKeysAbsent(l: string)
    requires 'w' !in l && 'c' !in l && 'a' !in l
    requires NeverAdjacent(l, 'o', 'n') && NeverAdjacent(l, 't', 'o')
    ensures !Contains(l, "witnessed") && !Contains(l, "saw it") && !Contains(l, "direct") && !Contains(l, "online")
    ensures !Contains(l, "website") && !Contains(l, "article") && !Contains(l, "told") && !Contains(l, "heard")
    ensures forall j | 0 <= j < 8 :: !Contains(l, HOW_KNOWN_TABLE[j].0)
  {
    TableKeys();
    MissingCharNotContained(l, "witnessed", 0);
    MissingCharNotContained(l, "saw it", 2);
    MissingCharNotContained(l, "direct", 4);
    MissingPairNotContained(l, "online", 0);
    MissingCharNotContained(l, "website", 0);
    MissingCharNotContained(l, "article", 0);
    MissingPairNotContained(l, "told", 0);
    MissingCharNotContained(l, "heard", 2);
  }

  /** The lower-cased verified-login label starts with "verified", lacks 'w', 'c' and 'a', and has no "on" or "to". */
  lemma {:induction false} VerifiedLoginLabelLowered(labelText: string)
    requires labelText == "Verified through login"
    ensures 'w' !in ToLower(labelText) && 'c' !in ToLower(labelText) && 'a' !in ToLower(labelText)
    ensures NeverAdjacent(ToLower(labelText), 'o', 'n') && NeverAdjacent(ToLower(labelText), 't', 'o')
    ensures OccursAt("verified", ToLower(labelText), 0)
  {
    var l := "verified through login";
    ToLowerIs(labelText, l);
    VerifiedLoginTextFacts(l);
  }

  lemma {:induction false} VerifiedLoginTextFacts(l: string)
    requires l == "verified through login"
    ensures 'w' !in l && 'c' !in l && 'a' !in l
    ensures NeverAdjacent(l, 'o', 'n') && NeverAdjacent(l, 't', 'o')
    ensures OccursAt("verified", l, 0)
  {
  }

  /** The verified-login label maps back to VERIFIED_LOGIN: "verified" is its first key. */
  lemma {:induction false} VerifiedLoginLabelMapsBack(labelText: string)
    requires labelText == "Verified through login"
    ensures MapHowKnown(labelText) == VERIFIED_LOGIN
  {
    VerifiedLoginLabelLowered(labelText);
    VerifiedFirstKey(labelText, 0);
  }

  /** Each simplified choice's label, fed back to `mapHowKnown`, gives that choice's value. */
  lemma {:induction false} SimplifiedLabelMapsBack(i: nat)
    requires i < |GetSimplifiedHowKnown()|
    ensures MapHowKnown(GetSimplifiedHowKnown()[i].labelText) == GetSimplifiedHowKnown()[i].value
  {
    var o := GetSimplifiedHowKnown()[i];
    if i == 0 {
      FirstHandLabelMapsBack(o.labelText);
    } else if i == 1 {
      WebDocumentLabelMapsBack(o.labelText);
    } else if i == 2 {
      SecondHandLabelMapsBack(o.labelText);
    } else {
      VerifiedLoginLabelMapsBack(o.labelText);
    }
  }

  /** "verified online" is a web document: 'online' comes before 'verified' in the table. */
  lemma {:induction false} VerifiedOnlineIsWebDocument(s: string)
    requires s == "verified online"
    ensures MapHowKnown(s) == WEB_DOCUMENT
  {
    assert NoUpperCase(s) && 'w' !in s && 's' !in s && 'c' !in s;
    assert OccursAt("online", s, 9);
    OnlineWithoutFirstHandLetters(s);
  }

  /** One validation rule of a guidance entry; `range` is the `{min, max}` of a range rule. */
  datatype ValidationRule = ValidationRule(kind: string, message: string, range: Option<(real, real)>)

  /** A `FieldGuidance`; None stands for an absent property. */
  datatype FieldGuidance = FieldGuidance(
    labelText: string, placeholder: Option<string>, help: string,
    examples: Option<seq<string>>, validation: Option<seq<ValidationRule>>)

  /** The guidance table of `getFieldGuidance`. */
  const GUIDES: map<string, FieldGuidance> := map[
    "subject" := FieldGuidance("What is this claim about?", Some("https://example.org/entity/123"),
      "Enter the URL of the entity (person, project, organization) this claim is about",
      Some(["https://github.com/username", "https://example.org/project/clean-water", "did:example:123", "https://linkedin.com/in/username"]),
      Some([ValidationRule("required", "Subject is required", None), ValidationRule("uri", "Subject must be a valid URI", None)])),
    "claim" := FieldGuidance("Type of claim", Some("impact"), "The type or verb of your claim",
      Some(["impact", "endorsement", "same_as", "certification"]),
      Some([ValidationRule("required", "Claim type is required", None)])),
    "statement" := FieldGuidance("Claim statement", Some("Describe the claim in detail"),
      "A clear, natural language description of what you're claiming", None,
      Some([ValidationRule("required", "Statement is required", None)])),
    "object" := FieldGuidance("Related entity (optional)", Some("https://example.org/entity/456"),
      "If this claim relates two entities, enter the URL of the second entity",
      Some(["For same_as: URL of equivalent entity", "For impact: URL of what was impacted"]),
      Some([ValidationRule("uri", "Object must be a valid URI", None)])),
    "effectiveDate" := FieldGuidance("When did this happen?", Some("2024-01-15"),
      "The date when the claimed event or situation occurred (not today's date)", None,
      Some([ValidationRule("date", "Must be a valid date", None)])),
    "sourceURI" := FieldGuidance("Source document", Some("https://example.com/article"),
      "URL of the document or source where you found this information", None,
      Some([ValidationRule("uri", "Source must be a valid URL", None)])),
    "howKnown" := FieldGuidance("How do you know this?", None, "Select how you learned about this information", None, None),
    "confidence" := FieldGuidance("Confidence level", Some("0.95"),
      "Your confidence in this claim (0 to 1, where 1 is complete certainty)", None,
      Some([ValidationRule("range", "Must be between 0 and 1", Some((0.0, 1.0)))])),
    "score" := FieldGuidance("Rating score", Some("0.8"), "Normalized score from -1 (worst) to 1 (best)", None,
      Some([ValidationRule("range", "Must be between -1 and 1", Some((-1.0, 1.0)))])),
    "stars" := FieldGuidance("Star rating", Some("5"), "Traditional star rating from 1 to 5", None,
      Some([ValidationRule("range", "Must be between 1 and 5", Some((1.0, 5.0)))]))
  ]

  /** `getFieldGuidance`: the table entry, or a generic one built from the field name. */
  function GetFieldGuidance(field: string): (r: FieldGuidance)
    ensures field in GUIDES ==> r == GUIDES[field]
    ensures field !in GUIDES ==> r == FieldGuidance(field, None, "Enter " + field, None, Some([]))
  {
    if field in GUIDES then GUIDES[field] else FieldGuidance(field, None, "Enter " + field, None, Some([]))
  }

  /** The range rule of a guidance entry, if it has one. */
  function RangeOf(g: FieldGuidance): Option<(real, real)> {
    if g.validation.Some? && |g.validation.value| == 1 then g.validation.value[0].range else None
  }

  /** The star range shown to users is the one the claims endpoint enforces, not the collecting validator's. */
  lemma {:induction false} StarGuidanceMatchesClaimsApi(x: real, host: Host)
    ensures RangeOf(GetFieldGuidance("stars")) == Some((1.0, 5.0))
    ensures ClaimsApi.CheckFails([("stars", Num(x))], 7, host) <==> !(1.0 <= x <= 5.0)
    ensures 0.0 <= x < 1.0 ==> Validators.ValidateClaimField("stars", Num(x), host).None?
  {
  }

  /** The confidence and score ranges shown to users are the ones the collecting validator enforces. */
  lemma {:induction false} RangeGuidanceMatchesValidators(x: real, host: Host)
    ensures RangeOf(GetFieldGuidance("confidence")) == Some((0.0, 1.0))
    ensures Validators.ValidateClaimField("confidence", Num(x), host).None? <==> 0.0 <= x <= 1.0
    ensures RangeOf(GetFieldGuidance("score")) == Some((-1.0, 1.0))
    ensures Validators.ValidateClaimField("score", Num(x), host).None? <==> -1.0 <= x <= 1.0
  {
  }

  /** `isValidURI`: true when `new URL` accepts the text; when it throws, true exactly for text starting with `urn:` or `did:`. */
  function IsValidURI(uri: string, host: Host): (r: bool)
    ensures host.urlParses(uri) ==> r
    ensures !host.urlParses(uri) ==> (r <==> |uri| >= 4 && uri[..4] in {"urn:", "did:"})
  {
    host.urlParses(uri) || StartsWith(uri, "urn:") || StartsWith(uri, "did:")
  }

  /** This file's URI test and the claims API's one agree on every string. */
  lemma {:induction false} SameUriTestAsClaimsApi(uri: string, host: Host)
    ensures IsValidURI(uri, host) == ClaimsApi.IsValidURI(Str(uri), host)
  {
  }

  /**
   * The path segments of `buildURI`'s type map. Its `EntityType.PROJECT` entry
   * names an enum member that does not exist, so that key is "undefined".
   */
  const TYPE_SEGMENTS: map<string, string> := map[
    "PERSON" := "person", "ORGANIZATION" := "org", "DOCUMENT" := "doc", "undefined" := "project",
    "IMPACT" := "impact", "EVENT" := "event", "PRODUCT" := "product"
  ]

  /** `typeMap[type] || type.toLowerCase()` */
  function TypeSegment(entityType: string): (r: string)
    ensures entityType in TYPE_SEGMENTS ==> r == TYPE_SEGMENTS[entityType]
    ensures entityType !in TYPE_SEGMENTS ==> r == ToLower(entityType)
    ensures NoUpperCase(r)
  {
    if entityType in TYPE_SEGMENTS then TYPE_SEGMENTS[entityType] else ToLower(entityType)
  }

  /** Every entity type gets its lower-cased name as segment, except organisations and documents. */
  lemma {:induction false} EntitySegments(t: EntityType)
    ensures TypeSegment(EntityName(t)) ==
      (if t == ORGANIZATION then "org" else if t == DOCUMENT then "doc" else ToLower(EntityName(t)))
  {
    var name := EntityName(t);
    match t
    case PERSON => ToLowerIs(name, TYPE_SEGMENTS[name]);
    case IMPACT => ToLowerIs(name, TYPE_SEGMENTS[name]);
    case EVENT => ToLowerIs(name, TYPE_SEGMENTS[name]);
    case PRODUCT => ToLowerIs(name, TYPE_SEGMENTS[name]);
    case ORGANIZATION =>
    case DOCUMENT =>
    case _ => assert name !in TYPE_SEGMENTS;
  }

  /** "PROJECT" still maps to "project", by lower-casing. */
  lemma {:induction false} ProjectSegment()
    ensures TypeSegment("PROJECT") == "project"
  {
    assert "PROJECT" !in TYPE_SEGMENTS;
  }

  /** `buildURI(type, identifier, domain)` */
  function BuildURI(entityType: string, identifier: string, domain: Option<string>, host: Host): (r: string)
    ensures IsValidURI(identifier, host) ==> r == identifier
    ensures !IsValidURI(identifier, host) ==>
      r == (if domain.Some? && domain.value != "" then domain.value else "https://example.org")
           + "/" + TypeSegment(entityType) + "/" + identifier
    ensures EndsWith(r, identifier)
  {
    if IsValidURI(identifier, host) then identifier
    else
      var baseUrl := if domain.Some? && domain.value != "" then domain.value else "https://example.org";
      var r := baseUrl + "/" + TypeSegment(entityType) + "/" + identifier;
      assert r[|r| - |identifier|..] == identifier;
      r
  }

  /** A DID is returned by `buildURI` as it is, whatever the type and domain. */
  lemma {:induction false} BuildKeepsDids(entityType: string, did: string, domain: Option<string>, host: Host)
    requires StartsWith(did, "did:")
    ensures BuildURI(entityType, did, domain, host) == did
  {
  }

  /** What `parseURI` answers; None stands for an absent property. */
  datatype ParsedUri = ParsedUri(
    scheme: Option<string>, domain: Option<string>, path: Option<string>,
    entityType: Option<string>, identifier: Option<string>)

  /** `parts[i]`, None when out of range. */
  function At(parts: seq<string>, i: nat): (r: Option<string>)
    ensures r.Some? <==> i < |parts|
    ensures r.Some? ==> r.value == parts[i]
  {
    if i < |parts| then Some(parts[i]) else None
  }

  /** A DID splits at `:` into "did" and the pieces of what follows the prefix. */
  lemma {:induction false} DidSplit(uri: string)
    requires StartsWith(uri, "did:")
    ensures Split(uri, ':') == ["did"] + Split(uri[4..], ':')
  {
    assert uri[..4] == "did:";
    assert uri[..3] == "did";
    SplitAt(uri, ':', 3);
  }

  /** `parseURI(uri)`: the DID fields, else the URL's components, else the whole input as identifier. */
  function ParseURI(uri: string, host: Host): (r: ParsedUri)
    ensures StartsWith(uri, "did:") ==> r.scheme == Some("did") && r.path.None? && r.entityType.None?
    ensures StartsWith(uri, "did:") ==>
      |Split(uri, ':')| >= 2 &&
      r.domain == Some(Split(uri, ':')[1]) && r.identifier == Some(Join(Split(uri, ':')[2..], ':'))
    ensures !StartsWith(uri, "did:") && !host.urlParses(uri) ==> r == ParsedUri(None, None, None, None, Some(uri))
    ensures !StartsWith(uri, "did:") && host.urlParses(uri) ==>
      var url := host.urlParts(uri);
      var pathParts := NonEmpty(Split(url.pathname, '/'));
      r == ParsedUri(Some(RemoveFirst(url.protocol, ':')), Some(url.hostname), Some(url.pathname), At(pathParts, 0), At(pathParts, 1))
  {
    if StartsWith(uri, "did:") then
      DidSplit(uri);
      var parts := Split(uri, ':');
      ParsedUri(Some("did"), Some(parts[1]), None, None, Some(Join(parts[2..], ':')))
    else if host.urlParses(uri) then
      var url := host.urlParts(uri);
      var pathParts := NonEmpty(Split(url.pathname, '/'));
      ParsedUri(Some(RemoveFirst(url.protocol, ':')), Some(url.hostname), Some(url.pathname), At(pathParts, 0), At(pathParts, 1))
    else
      ParsedUri(None, None, None, None, Some(uri))
  }

  /** The second piece and the join of the rest, put back together after the prefix, rebuild the DID. */
  lemma {:induction false} DidPiecesRebuild(uri: string)
    requires StartsWith(uri, "did:") && ':' in uri[4..]
    ensures |Split(uri, ':')| >= 3
    ensures uri[..4] + Split(uri, ':')[1] + [':'] + Join(Split(uri, ':')[2..], ':') == uri
  {
    var rest := uri[4..];
    DidSplit(uri);
    SplitTwoPieces(rest, ':');
    var pieces := Split(rest, ':');
    JoinCons(pieces, ':');
    SplitJoin(rest, ':');
    PrefixThenPieces(uri[..4], pieces[0], Join(pieces[1..], ':'), uri);
    ConsPieces(Split(uri, ':'), "did", pieces);
  }

  /** Putting a prefix before `head:tail` is concatenation in either grouping. */
  lemma {:induction false} PrefixThenPieces(pre: string, head: string, tail: string, whole: string)
    requires |pre| <= |whole| && whole[..|pre|] == pre && whole[|pre|..] == head + [':'] + tail
    ensures pre + head + [':'] + tail == whole
  {
    assert whole == whole[..|pre|] + whole[|pre|..];
  }

  /** After one leading piece, the pieces of a split are the rest shifted by one. */
  lemma {:induction false} ConsPieces(parts: seq<string>, first: string, pieces: seq<string>)
    requires parts == [first] + pieces && |pieces| >= 2
    ensures |parts| >= 3 && parts[1] == pieces[0] && parts[2..] == pieces[1..]
  {
  }

  /** A DID with a `:` after its method is rebuilt from the domain and identifier `parseURI` gives. */
  lemma {:induction false} DidRoundTrip(uri: string, host: Host)
    requires StartsWith(uri, "did:") && ':' in uri[4..]
    ensures var p := ParseURI(uri, host);
      p.domain.Some? && p.identifier.Some? && "did:" + p.domain.value + ":" + p.identifier.value == uri
  {
    DidPiecesRebuild(uri);
    var p := ParseURI(uri, host);
    var pre := uri[..4];
    assert pre == "did:";
    assert pre + p.domain.value + [':'] + p.identifier.value == uri;
  }

  /** `starsToScore` of this file: `(stars - 3) / 2`, with no range check. */
  function StarsToScore(stars: real): (r: real)
    ensures 1.0 <= stars <= 5.0 ==> -1.0 <= r <= 1.0
    ensures stars == 3.0 ==> r == 0.0
  {
    (stars - 3.0) / 2.0
  }

  /** `scoreToStars` of this file: `Math.round((score + 1) * 2 + 1)`, with no range check. */
  function ScoreToStars(score: real): (r: int)
    ensures -1.0 <= score <= 1.0 ==> 1 <= r <= 5
  {
    JsRound((score + 1.0) * 2.0 + 1.0)
  }

  /** Whole stars survive the trip to a score and back. */
  lemma {:induction false} WholeStarsRoundTrip(k: int)
    ensures ScoreToStars(StarsToScore(k as real)) == k
  {
    assert (StarsToScore(k as real) + 1.0) * 2.0 + 1.0 == k as real;
    JsRoundOfInt(k);
  }

  /** The two star-to-score maps of the SDK agree only at five stars. */
  lemma {:induction false} StarScalesAgreeOnlyAtFive(stars: real)
    requires 0.0 <= stars <= 5.0
    ensures StarsToScore(stars) == Normalizers.StarsToScore(stars).value <==> stars == 5.0
  {
  }
}
