/**
 * The base query every endpoint shares: where requests go, and the rule
 * that attaches the session token to them.
 */
module Api {
  import opened Common

  const DefaultBaseUrl: string := "http://localhost:5000/api/v1"

  /** The cache tags the endpoints declare. */
  const TagTypes: seq<string> := ["User", "Agent", "Transaction", "Wallet"]

  const AuthorizationHeader: string := "authorization"

  /** `VITE_API_URL || default`: the configured URL unless it is missing or empty. */
  function BaseUrl(configured: Option<string>): (r: string)
    ensures configured.Some? && configured.value != "" ==> r == configured.value
    ensures configured.None? || configured.value == "" ==> r == DefaultBaseUrl
    ensures r != ""
  {
    if configured.Some? && configured.value != "" then configured.value else DefaultBaseUrl
  }

  /** The request headers, which `prepareHeaders` edits in place. */
  class Headers {
    var entries: map<string, string>

    constructor(initial: map<string, string>)
      ensures entries == initial
    {
      entries := initial;
    }

    method Set(name: string, value: string)
      modifies this
      ensures entries == old(entries)[name := value]
    {
      entries := entries[name := value];
    }
  }

  /**
   * `prepareHeaders`: a truthy token (present and non-empty) is set as the
   * `authorization` header exactly as stored, with no scheme prefix; with no
   * token the headers are returned untouched. The same object is returned.
   */
  method PrepareHeaders(headers: Headers, token: Option<string>) returns (r: Headers)
    modifies headers
    ensures r == headers
    ensures token.Some? && token.value != "" ==>
              headers.entries == old(headers.entries)[AuthorizationHeader := token.value]
    ensures token.None? || token.value == "" ==> headers.entries == old(headers.entries)
  {
    if token.Some? && token.value != "" {
      headers.Set(AuthorizationHeader, token.value);
    }
    r := headers;
  }

  /** Only the `authorization` header is ever touched, and it carries the token verbatim. */
  method PrepareHeadersTouchesOnlyAuthorization(headers: Headers, token: Option<string>)
    modifies headers
    ensures forall k :: k != AuthorizationHeader ==>
              (k in headers.entries <==> k in old(headers.entries)) &&
              (k in headers.entries ==> headers.entries[k] == old(headers.entries)[k])
    ensures AuthorizationHeader in headers.entries && AuthorizationHeader !in old(headers.entries) ==>
              token.Some? && headers.entries[AuthorizationHeader] == token.value
  {
    var _ := PrepareHeaders(headers, token);
  }
}
