/**
 * `SpotifyClient`: the client-credentials exchange on behalf of a caller
 * (`GetOAuthToken`) and the authenticated GET against the catalog API
 * (`MakeAuthenticatedRequest`). Upstream replies are parameters.
 */
module Client {
  import opened Wrappers
  import opened Text
  import opened Http
  import opened ClientCredentials
  import opened TokenService

  /** The outcome of `GetOAuthToken`: the POST it sent and the token it hands back. */
  datatype OAuthExchange = OAuthExchange(post: HttpPost, token: Option<string>)

  /**
   * `GetOAuthToken`: always one POST of the fixed form body to `tokenUrl`;
   * a non-2xx reply gives null, a 2xx reply gives whatever `access_token`
   * holds (null if absent, possibly empty: no emptiness check here).
   */
  function GetOAuthToken(clientId: string, clientSecret: string, tokenUrl: string, reply: TokenReply): (x: OAuthExchange)
    ensures x.post == HttpPost(tokenUrl, FormBody(clientId, clientSecret), FormContentType)
    ensures !IsSuccessStatusCode(reply.status) ==> x.token.None?
    ensures IsSuccessStatusCode(reply.status) ==> x.token == reply.json.accessToken
  {
    var post := TokenPost(tokenUrl, clientId, clientSecret);
    if IsSuccessStatusCode(reply.status) then OAuthExchange(post, reply.json.accessToken)
    else OAuthExchange(post, None)
  }

  /** The outcome of an authenticated request: the GET sent, if any, and the response handed back. */
  datatype Dispatched = Dispatched(get: Option<HttpGet>, response: HttpResponse)

  /** `MakeAuthenticatedRequest` once the token is known: a synthetic 401, or one GET whose response is returned as it is. */
  function Dispatch(token: Option<string>, url: string, upstream: HttpResponse): (d: Dispatched)
    ensures IsNullOrEmpty(token) ==> d.get.None? && d.response == HttpResponse(Unauthorized, "")
    ensures !IsNullOrEmpty(token) ==>
      d.get == Some(HttpGet(url, Some("Bearer " + token.value))) && d.response == upstream
  {
    if IsNullOrEmpty(token) then Dispatched(None, HttpResponse(Unauthorized, ""))
    else
      var header := AuthenticationHeader("Bearer", token.value);
      assert HeaderValue(header) == "Bearer " + token.value;
      Dispatched(Some(HttpGet(url, Some(HeaderValue(header)))), upstream)
  }

  /** A sent GET carries the token as its bearer credential: the header is "Bearer", a space, the token. */
  lemma BearerHeaderCarriesToken(token: Option<string>, url: string, upstream: HttpResponse)
    requires !IsNullOrEmpty(token)
    ensures var a := Dispatch(token, url, upstream).get.value.authorization.value;
      a[..7] == "Bearer " && a[7..] == token.value
  {
  }

  /** The client: the token service it uses and a ghost record of the GETs sent to the catalog API. */
  class SpotifyClient {
    const tokenService: SpotifyTokenService
    ghost var sent: seq<HttpGet>

    ghost predicate Valid()
      reads this, tokenService
    {
      tokenService.Valid()
    }

    constructor (tokenService: SpotifyTokenService)
      requires tokenService.Valid()
      ensures Valid()
      ensures this.tokenService == tokenService && sent == []
    {
      this.tokenService := tokenService;
      sent := [];
    }

    /**
     * `MakeAuthenticatedRequest`: ask the token service for a token, then
     * answer 401 without a GET, or send one GET with the bearer header and
     * return the upstream response unchanged.
     */
    method MakeAuthenticatedRequest(url: string, now: nat, tokenReply: TokenReply, upstream: HttpResponse)
      returns (response: HttpResponse)
      requires Valid()
      modifies this, tokenService
      ensures Valid()
      ensures var s := GetTokenSpec(tokenService.config, old(tokenService.cached), now, tokenReply);
        && tokenService.cached == s.cache
        && tokenService.posts == old(tokenService.posts) + OptionToSeq(s.post)
        && var d := Dispatch(s.token, url, upstream);
           response == d.response && sent == old(sent) + OptionToSeq(d.get)
    {
      var token := tokenService.GetTokenAsync(now, tokenReply);
      if IsNullOrEmpty(token) {
        return HttpResponse(Unauthorized, "");
      }

      var request := new HttpRequestMessage(url);
      request.authorization := Some(AuthenticationHeader("Bearer", token.value));
      sent := sent + [request.AsSent()];
      response := upstream;
    }
  }
}
