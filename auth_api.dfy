/** The API-key guard of the service's own endpoints (src/auth/auth_api.py). */
module AuthApi {
  import opened Common

  /** The guard's verdict: the accepted key, or the HTTP error it raises
      (`challenge` is the `WWW-Authenticate: ApiKey` header). */
  datatype AuthOutcome = Accepted(key: string) | Rejected(status: nat, detail: string, challenge: bool)

  /** `Auth_API_KEY`: `configured` is the server's key, `header` the value of
      the API-key header (`None` when the request has none). The checks run
      in order: configuration, presence, equality. */
  function AuthApiKey(configured: string, header: Option<string>): (r: AuthOutcome)
    ensures configured == "" ==> r == Rejected(500, "API Key não configurada no servidor", false)
    ensures configured != "" && (header.None? || header.value == "") ==>
              r.Rejected? && r.status == 401 && r.challenge
    ensures configured != "" && header.Some? && header.value != "" && header.value != configured ==>
              r.Rejected? && r.status == 403 && r.challenge
    ensures r.Accepted? <==> configured != "" && header == Some(configured)
    ensures r.Accepted? ==> r.key == configured
  {
    if configured == "" then Rejected(500, "API Key não configurada no servidor", false)
    else if header.None? || header.value == "" then Rejected(401, "API Key não fornecida", true)
    else if header.value != configured then Rejected(403, "API Key inválida", true)
    else Accepted(header.value)
  }

  /** The first failing guard decides: a missing server key answers 500
      whatever header was sent, and a missing header answers 401 whatever
      server key is set. */
  lemma GuardOrder(configured: string, h1: Option<string>, h2: Option<string>, k1: string, k2: string)
    requires k1 != "" && k2 != ""
    ensures AuthApiKey("", h1) == AuthApiKey("", h2)
    ensures AuthApiKey(k1, None) == AuthApiKey(k2, None) == AuthApiKey(k1, Some(""))
  {
  }
}
