/**
 * What every catalog action shares: it either rejects the request before
 * any upstream activity, or forwards one upstream path through the client
 * and relays the reply, copying a non-success status into
 * `Response.StatusCode` and handing the body back as JSON either way.
 */
module Controllers {
  import opened Wrappers
  import opened Text
  import opened Http
  import opened UriEscape
  import opened QueryString
  import opened ClientCredentials
  import opened TokenService
  import opened Client

  /** The decision an action makes from its inputs alone. */
  datatype Route = Reject(result: ActionResult) | Forward(path: string)

  /** The parameters read back from `path` after a known prefix, if `path` has that prefix. */
  function QueryAfter(path: string, prefix: string): Option<Query> {
    if |prefix| <= |path| && path[..|prefix|] == prefix then ParseQuery(path[|prefix|..]) else None
  }

  /** The query part of a request target: everything from its first `?` on, or nothing when it has none. */
  function QueryPart(path: string): (qs: string)
    decreases |path|
    ensures qs == "" || qs[0] == '?'
    ensures |qs| <= |path| && qs == path[|path| - |qs|..]
    ensures '?' !in path ==> qs == ""
  {
    if path == [] then "" else if path[0] == '?' then path else QueryPart(path[1..])
  }

  /** What `HttpClient` sends of a URL: everything before its first `#`, which starts a fragment. */
  function BeforeFragment(path: string): (t: string)
    decreases |path|
    ensures |t| <= |path| && t == path[..|t|]
    ensures '#' !in t
    ensures '#' !in path ==> t == path
  {
    if path == [] || path[0] == '#' then ""
    else
      assert path == [path[0]] + path[1..];
      [path[0]] + BeforeFragment(path[1..])
  }

  /**
   * The parameters a server reads from the path an action forwards: the
   * fragment is not sent, and the server splits what is sent at its first
   * `?`, knowing no prefix.
   */
  function ServerQuery(path: string): Option<Query> {
    ParseQuery(QueryPart(BeforeFragment(path)))
  }

  /** A `#` cuts off whatever follows it. */
  lemma {:induction false} BeforeFragmentStops(a: string, rest: string)
    requires '#' !in a
    ensures BeforeFragment(a + "#" + rest) == a
    decreases |a|
  {
    if a != [] {
      assert (a + "#" + rest)[1..] == a[1..] + "#" + rest;
      BeforeFragmentStops(a[1..], rest);
      assert a == [a[0]] + a[1..];
    } else {
      assert a + "#" + rest == "#" + rest;
    }
  }

  /** Behind a prefix without `?`, the query part is exactly the query string that follows it. */
  lemma {:induction false} QueryPartAfterPrefix(prefix: string, qs: string)
    requires '?' !in prefix
    requires qs == "" || qs[0] == '?'
    ensures QueryPart(prefix + qs) == qs
    decreases |prefix|
  {
    if prefix == [] {
      assert prefix + qs == qs;
    } else {
      assert (prefix + qs)[0] == prefix[0];
      assert (prefix + qs)[1..] == prefix[1..] + qs;
      QueryPartAfterPrefix(prefix[1..], qs);
    }
  }

  /**
   * The paging parameters shared by `GetAlbumTracks` and the artist
   * controller's `BuildQuery`: `market` when not blank, then `limit` and
   * `offset` when given, in that order.
   */
  function MarketPageParams(market: Option<string>, limit: Option<Int32>, offset: Option<Int32>): Query {
    TextParam("market", market) + IntParam("limit", limit) + IntParam("offset", offset)
  }

  /** A path built as prefix plus query string reads back as the non-empty parameters. */
  lemma QueryAfterPrefix(prefix: string, q: Query)
    requires NoEmptyValue(q)
    ensures QueryAfter(prefix + ToQueryString(q), prefix) == Some(q)
    ensures '?' !in prefix && '#' !in prefix ==> ServerQuery(prefix + ToQueryString(q)) == Some(q)
  {
    var path := prefix + ToQueryString(q);
    assert path[..|prefix|] == prefix && path[|prefix|..] == ToQueryString(q);
    QueryRoundTrip(q);
    if '?' !in prefix && '#' !in prefix {
      QueryStringHasNoHash(q);
      assert '#' !in path;
      QueryPartAfterPrefix(prefix, ToQueryString(q));
    }
  }

  /**
   * An action's path `base + id + suffix + query` reads back after its known
   * prefix, and a server splitting at the first `?` reads the same parameters
   * as long as the unescaped id holds neither `?` nor `#`.
   */
  lemma ReadBack(base: string, id: string, suffix: string, q: Query)
    requires '?' !in base && '?' !in suffix
    requires '#' !in base && '#' !in suffix
    requires NoEmptyValue(q)
    ensures QueryAfter(base + id + suffix + ToQueryString(q), base + id + suffix) == Some(q)
    ensures '?' !in id && '#' !in id ==> ServerQuery(base + id + suffix + ToQueryString(q)) == Some(q)
  {
    QueryAfterPrefix(base + id + suffix, q);
  }

  /** `ReadBack` for a path that ends with the id. */
  lemma ReadBackId(base: string, id: string, q: Query)
    requires '?' !in base && '#' !in base
    requires NoEmptyValue(q)
    ensures QueryAfter(base + id + ToQueryString(q), base + id) == Some(q)
    ensures '?' !in id && '#' !in id ==> ServerQuery(base + id + ToQueryString(q)) == Some(q)
  {
    QueryAfterPrefix(base + id, q);
  }

  /** Behind a path without `?`, an unescaped id `a?k=v` is read by a server as the parameter `k=v`. */
  lemma MarkInIdMovesQuery(base: string, a: string, k: string, v: string)
    requires '?' !in base && '?' !in a && v != ""
    requires '#' !in base && '#' !in a
    requires EscapeDataString(k) == k && EscapeDataString(v) == v
    ensures ServerQuery(base + (a + "?" + k + "=" + v) + ToQueryString([])) == Some([(k, v)])
  {
    var qs := "?" + k + "=" + v;
    LiteralPairReadsBack(k, v);
    EscapeHasNoDelimiters(k);
    EscapeHasNoDelimiters(v);
    IdRegroup(base, a, k, v);
    QueryPartAfterPrefix(base + a, qs);
  }

  /** The path of an id `a?k=v` is `base + a` followed by the literal `?k=v`. */
  lemma IdRegroup(base: string, a: string, k: string, v: string)
    requires '#' !in base && '#' !in a && '#' !in k && '#' !in v
    ensures base + (a + "?" + k + "=" + v) + ToQueryString([]) == (base + a) + ("?" + k + "=" + v)
    ensures '#' !in (base + a) + ("?" + k + "=" + v)
  {
    assert ToQueryString([]) == "";
    ConcatAssoc(a + "?" + k, "=", v);
    ConcatAssoc(a + "?", k, "=" + v);
    ConcatAssoc(a, "?", k + ("=" + v));
    ConcatAssoc("?", k, "=" + v);
    ConcatAssoc("?" + k, "=", v);
    ConcatAssoc(base, a, "?" + k + "=" + v);
  }

  /**
   * Behind a path without `?` or `#`, an unescaped id `a#rest` loses `rest`
   * and every parameter after it: the server reads no parameters at all.
   */
  lemma HashInIdDropsQuery(base: string, a: string, rest: string, q: Query)
    requires '?' !in base && '?' !in a
    requires '#' !in base && '#' !in a
    ensures ServerQuery(base + (a + "#" + rest) + ToQueryString(q)) == Some([])
  {
    var path := base + (a + "#" + rest) + ToQueryString(q);
    assert path == (base + a) + "#" + (rest + ToQueryString(q));
    BeforeFragmentStops(base + a, rest + ToQueryString(q));
    QueryPartAfterPrefix(base + a, "");
    assert base + a + "" == base + a;
  }

  /** A pair that escaping leaves alone reads back from its literal `?k=v`. */
  lemma LiteralPairReadsBack(k: string, v: string)
    requires v != ""
    requires EscapeDataString(k) == k && EscapeDataString(v) == v
    ensures ParseQuery("?" + k + "=" + v) == Some([(k, v)])
  {
    SinglePairLiteralKey(k, v);
    QueryRoundTrip([(k, v)]);
    assert NonEmptyPairs([(k, v)]) == [(k, v)];
  }

  /** The fixed route segments the actions put around an id: no `?` and no `#`. */
  lemma RouteSegmentsHaveNoMark()
    ensures '?' !in "/v1/albums/" && '?' !in "/v1/playlists/" && '?' !in "/v1/tracks/" && '?' !in "/v1/artists/"
    ensures '?' !in "/tracks" && '?' !in "/albums" && '?' !in "/top-tracks" && '?' !in "/v1/search"
  {
  }

  lemma RouteSegmentsHaveNoHash()
    ensures '#' !in "/v1/albums/" && '#' !in "/v1/playlists/" && '#' !in "/v1/tracks/" && '#' !in "/v1/artists/"
    ensures '#' !in "/tracks" && '#' !in "/albums" && '#' !in "/top-tracks" && '#' !in "/v1/search"
  {
  }

  /** A controller instance: the client it calls and the response status it may set. */
  class ApiController {
    const client: SpotifyClient
    var statusCode: int

    constructor (client: SpotifyClient)
      ensures this.client == client && statusCode == 200
    {
      this.client := client;
      statusCode := 200;
    }

    /** Run a route: a rejection touches nothing; a forward makes one authenticated request and relays its reply. */
    method Serve(route: Route, now: nat, tokenReply: TokenReply, upstream: HttpResponse) returns (result: ActionResult)
      requires client.Valid()
      modifies this, client, client.tokenService
      ensures client.Valid()
      ensures route.Reject? ==>
        result == route.result && statusCode == old(statusCode) &&
        unchanged(client) && unchanged(client.tokenService)
      ensures route.Forward? ==>
        var ts := client.tokenService;
        var s := GetTokenSpec(ts.config, old(ts.cached), now, tokenReply);
        var d := Dispatch(s.token, route.path, upstream);
        && ts.cached == s.cache
        && ts.posts == old(ts.posts) + OptionToSeq(s.post)
        && client.sent == old(client.sent) + OptionToSeq(d.get)
        && result == Content(d.response.body, JsonContentType)
        && statusCode == (if IsSuccessStatusCode(d.response.status) then old(statusCode) else d.response.status)
    {
      match route
      case Reject(r) =>
        return r;
      case Forward(path) =>
        var apiResponse := client.MakeAuthenticatedRequest(path, now, tokenReply, upstream);
        var content := apiResponse.body;
        if IsSuccessStatusCode(apiResponse.status) {
          return Content(content, JsonContentType);
        }
        statusCode := apiResponse.status;
        return Content(content, JsonContentType);
    }
  }
}
