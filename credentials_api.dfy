/**
 * The verifiable-credential endpoints (sdk/typescript/src/credentials-api.ts):
 * the id taken from a credential URI, and the requests each method hands to
 * `request`.
 */
module CredentialsApi {
  import opened Js
  import opened Strings
  import opened ApiClient
  import opened ClaimsApi

  /** `s.includes('/') ? s.split('/').pop() : s`: the text after the last `/`, or the whole input. */
  function CredentialId(s: string): (id: string)
    ensures '/' !in s ==> id == s
    ensures '/' !in id
    ensures EndsWith(s, id)
    ensures '/' in s ==> |id| < |s| && s[|s| - |id| - 1] == '/'
  {
    if '/' in s then
      var parts := Split(s, '/');
      SplitLast(s, '/');
      SplitPieceLacksSeparator(s, '/', |parts| - 1);
      parts[|parts| - 1]
    else s
  }

  /** An input that ends in `/` gives the empty id. */
  lemma {:induction false} TrailingSlashGivesEmptyId(s: string)
    requires |s| > 0 && s[|s| - 1] == '/'
    ensures CredentialId(s) == ""
  {
  }

  /** The id of `base + "/" + id` is `id`, for an id without `/`. */
  lemma {:induction false} IdOfCredentialUri(base: string, id: string)
    requires '/' !in id
    ensures CredentialId(base + "/" + id) == id
  {
    var s := base + "/" + id;
    var r := CredentialId(s);
    assert s[|base|] == '/';
    assert '/' in s;
    assert EndsWith(s, r) && '/' !in r;
    assert s[|s| - |id|..] == id;
    assert s[|s| - |r| - 1] == '/';
  }

  /** `getCredential(uriOrId)` */
  function GetCredential(uriOrId: string): (c: Call)
    ensures c.path == "/api/credentials/" + CredentialId(uriOrId)
    ensures c.options == RequestOptions(GET, None, [], map[])
  {
    Call("/api/credentials/" + CredentialId(uriOrId), RequestOptions(GET, None, [], map[]))
  }

  /** `verify(uri)` */
  function Verify(uri: string): (c: Call)
    ensures c.path == "/api/credentials/" + CredentialId(uri) + "/verify"
    ensures c.options == RequestOptions(GET, None, [], map[])
  {
    Call("/api/credentials/" + CredentialId(uri) + "/verify", RequestOptions(GET, None, [], map[]))
  }

  /** `getBySubject(subjectUri, page = 1, limit = 20)` */
  function GetBySubject(subjectUri: string, page: JsValue, limit: JsValue): (c: Call)
    ensures c.path == "/api/credentials" && c.options.verb == GET && c.options.body == None
    ensures c.options.params == [("subject", Str(subjectUri)), ("page", Defaulted(page, 1.0)), ("limit", Defaulted(limit, 20.0))]
  {
    Call("/api/credentials", RequestOptions(GET, None, [("subject", Str(subjectUri)), ("page", Defaulted(page, 1.0)), ("limit", Defaulted(limit, 20.0))], map[]))
  }

  /** `CreateCredentialInput`; None stands for an absent (undefined) property. */
  datatype CreateCredentialInput = CreateCredentialInput(credential: Option<Json>, schema: Option<string>, metadata: Option<Json>)

  /** The JSON text of the input: `JSON.stringify` drops the undefined properties. */
  function InputToJson(input: CreateCredentialInput): (j: Json)
    ensures j.JObj?
    ensures "credential" in j.fields <==> input.credential.Some?
    ensures "schema" in j.fields <==> input.schema.Some?
    ensures "metadata" in j.fields <==> input.metadata.Some?
    ensures j.fields.Keys <= {"credential", "schema", "metadata"}
    ensures input.credential.Some? ==> j.fields["credential"] == input.credential.value
    ensures input.schema.Some? ==> j.fields["schema"] == JStr(input.schema.value)
    ensures input.metadata.Some? ==> j.fields["metadata"] == input.metadata.value
  {
    var m1: map<string, Json> := if input.credential.Some? then map["credential" := input.credential.value] else map[];
    var m2 := if input.schema.Some? then m1["schema" := JStr(input.schema.value)] else m1;
    var m3 := if input.metadata.Some? then m2["metadata" := input.metadata.value] else m2;
    JObj(m3)
  }

  /** `create(input)`: an object is always truthy, so the body is always sent. */
  function Create(input: CreateCredentialInput, host: Host): (c: Call)
    ensures c.path == "/api/credentials" && c.options.verb == POST && c.options.params == []
    ensures c.options.body == Some(host.jsonStringify(InputToJson(input)))
  {
    Call("/api/credentials", PostOptions(Some(InputToJson(input)), [], host))
  }

  /** `submitCredential(credential, metadata)`: a create without a schema. */
  function SubmitCredential(credential: Option<Json>, metadata: Option<Json>, host: Host): (c: Call)
    ensures c == Create(CreateCredentialInput(credential, None, metadata), host)
  {
    Create(CreateCredentialInput(credential, None, metadata), host)
  }

  /** What `submitCredential` posts never carries a schema. */
  lemma {:induction false} SubmitSendsNoSchema(credential: Option<Json>, metadata: Option<Json>, host: Host)
    ensures SubmitCredential(credential, metadata, host).options.body ==
      Some(host.jsonStringify(InputToJson(CreateCredentialInput(credential, None, metadata))))
    ensures "schema" !in InputToJson(CreateCredentialInput(credential, None, metadata)).fields
  {
  }
}
