/**
 * `TokenController`: `POST api/v1/token` exchanges the caller's own client
 * credentials for a token through `SpotifyClient.GetOAuthToken`, at the
 * configured token endpoint or the default one.
 */
module TokenController {
  import opened Wrappers
  import opened Text
  import opened Http
  import opened Model
  import opened ClientCredentials
  import opened Client

  const CredentialsRequired: string := "client_id and client_secret are required in the request body."
  const TokenFailed: string := "Failed to obtain token from Spotify."
  const BadGateway: int := 502
  /** The `expires_in` this endpoint always reports, whatever the token endpoint said. */
  const ReportedExpiresIn: Int32 := 3600

  /** The endpoint used: the configured one unless it is blank. */
  function ResolveTokenUrl(configured: string): (url: string)
    ensures IsBlank(configured) ==> url == DefaultTokenUrl
    ensures !IsBlank(configured) ==> url == configured
    ensures !IsBlank(url)
  {
    if IsBlank(configured) then
      assert DefaultTokenUrl[0] == 'h';
      DefaultTokenUrl
    else configured
  }

  /** A missing body, or a null or blank id or secret. */
  predicate MissingCredentials(request: Option<TokenRequest>) {
    request.None? || IsNullOrWhiteSpace(request.value.clientId) || IsNullOrWhiteSpace(request.value.clientSecret)
  }

  /** The action's result and the POST it made to the token endpoint, if any. */
  datatype TokenOutcome = TokenOutcome(result: ActionResult, post: Option<HttpPost>)

  /** `GetToken` with the token endpoint's reply as a parameter. */
  function GetToken(request: Option<TokenRequest>, config: OAuthConfig, reply: TokenReply): (o: TokenOutcome)
    // Missing credentials: 400, and nothing is sent.
    ensures MissingCredentials(request) <==> o.result == BadRequest(CredentialsRequired)
    ensures MissingCredentials(request) ==> o.post.None?
    // Otherwise one POST of the caller's credentials to the resolved endpoint.
    ensures !MissingCredentials(request) ==>
      o.post == Some(TokenPost(ResolveTokenUrl(config.tokenUrl), request.value.clientId.value, request.value.clientSecret.value))
    // 502 exactly when the reply is not 2xx or carries a null or empty token.
    ensures o.result == StatusCode(BadGateway, TokenFailed) <==>
      !MissingCredentials(request) && (!IsSuccessStatusCode(reply.status) || IsNullOrEmpty(reply.json.accessToken))
    // Success: the upstream token, typed "Bearer", with a fixed lifetime of 3600 whatever the reply said.
    ensures o.result.Ok? <==>
      !MissingCredentials(request) && IsSuccessStatusCode(reply.status) && !IsNullOrEmpty(reply.json.accessToken)
    ensures o.result.Ok? ==>
      o.result.token == TokenResult(reply.json.accessToken, Some("Bearer"), Some(ReportedExpiresIn))
  {
    if MissingCredentials(request) then
      TokenOutcome(BadRequest(CredentialsRequired), None)
    else
      var tokenUrl := ResolveTokenUrl(config.tokenUrl);
      var x := GetOAuthToken(request.value.clientId.value, request.value.clientSecret.value, tokenUrl, reply);
      if IsNullOrEmpty(x.token) then
        TokenOutcome(StatusCode(BadGateway, TokenFailed), Some(x.post))
      else
        TokenOutcome(Ok(TokenResult(x.token, Some("Bearer"), Some(ReportedExpiresIn))), Some(x.post))
  }

  /** The reply's own `expires_in` never reaches the result. */
  lemma GetTokenIgnoresReplyLifetime(request: Option<TokenRequest>, config: OAuthConfig, token: string, e1: Option<Int32>, e2: Option<Int32>, status: int)
    ensures GetToken(request, config, TokenReply(status, TokenJson(Some(token), e1))) ==
            GetToken(request, config, TokenReply(status, TokenJson(Some(token), e2)))
  {
  }

  /** Read back as a form, the POST carries the caller's credentials, not the configured ones. */
  lemma GetTokenSendsCallerCredentials(id: string, secret: string, config: OAuthConfig, reply: TokenReply)
    requires !IsBlank(id) && !IsBlank(secret)
    requires '&' !in id && '&' !in secret
    ensures var o := GetToken(Some(TokenRequest(Some(id), Some(secret))), config, reply);
      && o.post.Some?
      && Split(o.post.value.body, '&') == ["grant_type=client_credentials", "client_id=" + id, "client_secret=" + secret]
  {
    FormBodyFields(id, secret);
  }
}
