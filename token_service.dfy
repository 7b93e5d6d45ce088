/**
 * `SpotifyTokenService`: one cache slot holding the access token and the
 * instant it stops being served. A call returns the cached token while it is
 * live; otherwise it checks the configured credentials, runs the
 * client-credentials exchange, validates the reply and caches the new token
 * for `max(0, expires_in - 60)` seconds. The reply of the token endpoint and
 * the current time (whole seconds) are parameters.
 */
module TokenService {
  import opened Wrappers
  import opened Text
  import opened Http
  import opened Model
  import opened ClientCredentials

  /** Tokens are dropped from the cache this many seconds before the server says they expire. */
  const ExpiryBufferSeconds: int := 60

  /** The cache entry: the token and the first instant at which it is no longer served. */
  datatype CacheEntry = CacheEntry(token: string, expiresAt: nat)

  /** `_cache.TryGetValue(...) && !string.IsNullOrEmpty(cached)`: a live, non-empty entry. */
  predicate CacheHit(cached: Option<CacheEntry>, now: nat) {
    cached.Some? && now < cached.value.expiresAt && cached.value.token != ""
  }

  /** Wrap-around of 32-bit two's complement arithmetic, as C# does it in an unchecked context. */
  function Wrap32(x: int): (r: Int32)
    ensures -0x8000_0000 <= x < 0x8000_0000 ==> r == x
    ensures (r - x) % 0x1_0000_0000 == 0
  {
    (x + 0x8000_0000) % 0x1_0000_0000 - 0x8000_0000
  }

  /** `Math.Max(0, expiresIn - ExpiryBufferSeconds)` as written, with the subtraction on 32-bit `int`. */
  function LifetimeAsWritten(expiresIn: Int32): (l: int)
    ensures 0 <= l < 0x8000_0000
  {
    var d := Wrap32(expiresIn - ExpiryBufferSeconds);
    if d < 0 then 0 else d
  }

  /** The cache lifetime the safety margin calls for: `max(0, expiresIn - 60)` without wrap-around. */
  function Lifetime(expiresIn: Int32): (l: nat)
    ensures expiresIn <= ExpiryBufferSeconds ==> l == 0
    ensures expiresIn > ExpiryBufferSeconds ==> l + ExpiryBufferSeconds == expiresIn
    ensures l < expiresIn || l == 0
  {
    if expiresIn - ExpiryBufferSeconds < 0 then 0 else expiresIn - ExpiryBufferSeconds
  }

  /** The "minus 60" as written wraps for the most negative `expires_in` values and yields a lifetime of about 68 years. */
  lemma LifetimeAsWrittenWraps()
    ensures LifetimeAsWritten(-0x8000_0000) == 0x7FFF_FFC4
    ensures Lifetime(-0x8000_0000) == 0
  {
  }

  /** Everywhere else the code as written computes the intended lifetime. */
  lemma LifetimeAsWrittenAgrees(expiresIn: Int32)
    requires expiresIn >= -0x8000_0000 + ExpiryBufferSeconds
    ensures LifetimeAsWritten(expiresIn) == Lifetime(expiresIn)
  {
  }

  /** What one `GetTokenAsync` call returns, what the cache holds afterwards and the POST it makes, if any. */
  datatype TokenStep = TokenStep(token: Option<string>, cache: Option<CacheEntry>, post: Option<HttpPost>)

  /** The POST the service sends with its configured credentials. */
  function ConfiguredPost(config: OAuthConfig): HttpPost {
    TokenPost(config.tokenUrl, config.clientId, config.clientSecret)
  }

  /** One `GetTokenAsync` call as a function of the configuration, the cache, the time and the token endpoint's reply. */
  function GetTokenSpec(config: OAuthConfig, cached: Option<CacheEntry>, now: nat, reply: TokenReply): (s: TokenStep)
    // A hit returns the cached token, with no credential check, no POST and the cache untouched.
    ensures CacheHit(cached, now) ==> s == TokenStep(Some(cached.value.token), cached, None)
    // A miss with missing credentials fails with no POST and the cache untouched.
    ensures !CacheHit(cached, now) && (config.clientId == "" || config.clientSecret == "") ==>
      s == TokenStep(None, cached, None)
    // Otherwise exactly the one client-credentials POST is made.
    ensures !CacheHit(cached, now) && config.clientId != "" && config.clientSecret != "" ==>
      s.post == Some(ConfiguredPost(config))
    // A non-2xx reply, or a 2xx reply without a usable access_token, fails and leaves the cache alone.
    ensures s.post.Some? && (!IsSuccessStatusCode(reply.status) || IsNullOrEmpty(reply.json.accessToken)) ==>
      s.token.None? && s.cache == cached
    // A usable reply is returned and cached for the lifetime its expires_in allows.
    ensures s.post.Some? && IsSuccessStatusCode(reply.status) && !IsNullOrEmpty(reply.json.accessToken) ==>
      s.token == reply.json.accessToken &&
      s.cache == Some(CacheEntry(reply.json.accessToken.value, now + Lifetime(ExpiresIn(reply.json))))
    // The service never hands out an empty token, and the cache changes only by storing the token it returns.
    ensures s.token.Some? ==> s.token.value != ""
    ensures s.cache != cached ==> s.post.Some? && s.token.Some? && s.cache.Some? && s.cache.value.token == s.token.value
  {
    if CacheHit(cached, now) then TokenStep(Some(cached.value.token), cached, None)
    else if config.clientId == "" || config.clientSecret == "" then TokenStep(None, cached, None)
    else
      var post := Some(ConfiguredPost(config));
      if !IsSuccessStatusCode(reply.status) then TokenStep(None, cached, post)
      else
        var accessToken := reply.json.accessToken;
        if IsNullOrEmpty(accessToken) then TokenStep(None, cached, post)
        else
          var expiresAt := now + Lifetime(ExpiresIn(reply.json));
          TokenStep(accessToken, Some(CacheEntry(accessToken.value, expiresAt)), post)
  }

  /** The token service: the cache slot, the configuration, and a ghost record of the POSTs sent. */
  class SpotifyTokenService {
    const config: OAuthConfig
    var cached: Option<CacheEntry>
    ghost var posts: seq<HttpPost>

    /** Only non-empty tokens are ever stored. */
    ghost predicate Valid()
      reads this
    {
      cached.Some? ==> cached.value.token != ""
    }

    /**
     * Because only non-empty tokens are stored, the service's emptiness test
     * on the cached token never turns a live entry away: an entry is served
     * exactly while it is live.
     */
    lemma LiveEntryIsHit(now: nat)
      requires Valid()
      ensures CacheHit(cached, now) <==> cached.Some? && now < cached.value.expiresAt
    {
    }

    /**
     * The empty slot stands for the process-wide `IMemoryCache` at start-up;
     * a later instance of the service sees whatever that shared cache holds,
     * which is the `cached` state the methods start from.
     */
    constructor (config: OAuthConfig)
      ensures Valid()
      ensures this.config == config && cached == None && posts == []
    {
      this.config := config;
      cached := None;
      posts := [];
    }

    /** `GetTokenAsync`: the result, the new cache and the POSTs made are those of `GetTokenSpec`. */
    method GetTokenAsync(now: nat, reply: TokenReply) returns (token: Option<string>)
      requires Valid()
      modifies this
      ensures Valid()
      ensures var s := GetTokenSpec(config, old(cached), now, reply);
        token == s.token && cached == s.cache && posts == old(posts) + OptionToSeq(s.post)
    {
      if CacheHit(cached, now) {
        return Some(cached.value.token);
      }

      if config.clientId == "" || config.clientSecret == "" {
        return None;
      }

      var body := FormBody(config.clientId, config.clientSecret);
      posts := posts + [HttpPost(config.tokenUrl, body, FormContentType)];

      if !IsSuccessStatusCode(reply.status) {
        return None;
      }

      var accessToken := reply.json.accessToken;
      var expiresIn := if reply.json.expiresIn.Some? then reply.json.expiresIn.value else DefaultExpiresIn;

      if IsNullOrEmpty(accessToken) {
        return None;
      }

      var lifetime := Lifetime(expiresIn);
      cached := Some(CacheEntry(accessToken.value, now + lifetime));
      return accessToken;
    }
  }

  // Several sequential calls.

  /** One call: the time it happens and the reply the token endpoint would give to a POST. */
  datatype Call = Call(now: nat, reply: TokenReply)

  datatype RunResult = RunResult(tokens: seq<Option<string>>, cache: Option<CacheEntry>, postCount: nat)

  /** A sequence of calls made one after the other, each seeing the cache the previous one left. */
  function Run(config: OAuthConfig, cached: Option<CacheEntry>, calls: seq<Call>): (r: RunResult)
    ensures |r.tokens| == |calls|
    decreases |calls|
  {
    if calls == [] then RunResult([], cached, 0)
    else
      var s := GetTokenSpec(config, cached, calls[0].now, calls[0].reply);
      var rest := Run(config, s.cache, calls[1..]);
      RunResult([s.token] + rest.tokens, rest.cache, |OptionToSeq(s.post)| + rest.postCount)
  }

  /** While an entry is live, every call is served from it: no POST and the cache never changes. */
  lemma {:induction false} LiveEntryServesAll(config: OAuthConfig, entry: CacheEntry, calls: seq<Call>)
    requires entry.token != ""
    requires forall i :: 0 <= i < |calls| ==> calls[i].now < entry.expiresAt
    ensures var r := Run(config, Some(entry), calls);
      r.postCount == 0 && r.cache == Some(entry) &&
      forall i :: 0 <= i < |calls| ==> r.tokens[i] == Some(entry.token)
    decreases |calls|
  {
    if calls != [] {
      LiveEntryServesAll(config, entry, calls[1..]);
    }
  }

  /**
   * Calls made one after the other on a cold cache: the first refresh
   * succeeds, and every later call that comes before the new entry expires
   * gets the same token with no further POST: one POST in all.
   */
  lemma ColdStartRefreshesOnce(config: OAuthConfig, first: Call, later: seq<Call>)
    requires GetTokenSpec(config, None, first.now, first.reply).token.Some?
    requires forall i :: 0 <= i < |later| ==>
      later[i].now < first.now + Lifetime(ExpiresIn(first.reply.json))
    ensures var r := Run(config, None, [first] + later);
      r.postCount == 1 &&
      forall i :: 0 <= i < |r.tokens| ==> r.tokens[i] == first.reply.json.accessToken
  {
    var s := GetTokenSpec(config, None, first.now, first.reply);
    assert ([first] + later)[1..] == later;
    LiveEntryServesAll(config, s.cache.value, later);
  }
}
