/** `AlbumsController`: `GET api/v1/albums/{id}` and `GET api/v1/albums/{id}/tracks`. */
module AlbumsController {
  import opened Wrappers
  import opened Text
  import opened Http
  import opened UriEscape
  import opened QueryString
  import opened Controllers

  const AlbumIdRequired: string := "Album id is required."

  /** The parameters `GetAlbum` forwards: `market` when it is not blank. */
  function AlbumParams(market: Option<string>): Query {
    TextParam("market", market)
  }

  method GetAlbum(id: string, market: Option<string>) returns (route: Route)
    ensures IsBlank(id) <==> route == Reject(BadRequest(AlbumIdRequired))
    ensures !IsBlank(id) ==> route == Forward("/v1/albums/" + id + ToQueryString(AlbumParams(market)))
    ensures route.Forward? ==> QueryAfter(route.path, "/v1/albums/" + id) == Some(AlbumParams(market))
    ensures route.Forward? && '?' !in id && '#' !in id ==> ServerQuery(route.path) == Some(AlbumParams(market))
  {
    if IsBlank(id) {
      return Reject(BadRequest(AlbumIdRequired));
    }

    var query: Query := [];
    query := AddIfNotBlank(query, "market", market);
    assert query == TextParam("market", market);
    var path := "/v1/albums/" + id + ToQueryString(query);
    RouteSegmentsHaveNoMark();
    RouteSegmentsHaveNoHash();
    ReadBackId("/v1/albums/", id, query);
    return Forward(path);
  }

  /**
   * The id goes into the path unescaped, so an id holding `?` moves the
   * query. For the id `a?k=v` and no market, such as `a?market=XX`, no
   * parameter follows the known prefix, yet a server splitting at the first
   * `?` reads `k=v`.
   */
  lemma IdWithMarkInjectsQuery(a: string, k: string, v: string)
    requires '?' !in a && '#' !in a && v != ""
    requires EscapeDataString(k) == k && EscapeDataString(v) == v
    ensures var id := a + "?" + k + "=" + v;
      var path := "/v1/albums/" + id + ToQueryString(AlbumParams(None));
      && QueryAfter(path, "/v1/albums/" + id) == Some(AlbumParams(None))
      && AlbumParams(None) == []
      && ServerQuery(path) == Some([(k, v)])
  {
    RouteSegmentsHaveNoMark();
    RouteSegmentsHaveNoHash();
    MarkInIdMovesQuery("/v1/albums/", a, k, v);
    ReadBackId("/v1/albums/", a + "?" + k + "=" + v, []);
  }

  /**
   * An id holding `#`, such as `a#b` with the market `XX`, starts a fragment
   * that is never sent: the parameters still follow the known prefix, yet a
   * server reads none of them.
   */
  lemma IdWithHashDropsQuery(a: string, rest: string, market: Option<string>)
    requires '?' !in a && '#' !in a
    ensures var id := a + "#" + rest;
      var path := "/v1/albums/" + id + ToQueryString(AlbumParams(market));
      && QueryAfter(path, "/v1/albums/" + id) == Some(AlbumParams(market))
      && ServerQuery(path) == Some([])
  {
    RouteSegmentsHaveNoMark();
    RouteSegmentsHaveNoHash();
    HashInIdDropsQuery("/v1/albums/", a, rest, AlbumParams(market));
    ReadBackId("/v1/albums/", a + "#" + rest, AlbumParams(market));
  }

  method GetAlbumTracks(id: string, market: Option<string>, limit: Option<Int32>, offset: Option<Int32>)
    returns (route: Route)
    ensures IsBlank(id) <==> route == Reject(BadRequest(AlbumIdRequired))
    ensures !IsBlank(id) ==>
      route == Forward("/v1/albums/" + id + "/tracks" + ToQueryString(MarketPageParams(market, limit, offset)))
    ensures route.Forward? ==>
      QueryAfter(route.path, "/v1/albums/" + id + "/tracks") == Some(MarketPageParams(market, limit, offset))
    ensures route.Forward? && '?' !in id && '#' !in id ==> ServerQuery(route.path) == Some(MarketPageParams(market, limit, offset))
  {
    if IsBlank(id) {
      return Reject(BadRequest(AlbumIdRequired));
    }

    var query: Query := [];
    query := AddIfNotBlank(query, "market", market);
    assert query == TextParam("market", market);
    KeyAbsent(query, "limit", ["market"]);
    query := AddIfHasValue(query, "limit", limit);
    KeyAbsent(query, "offset", ["market", "limit"]);
    query := AddIfHasValue(query, "offset", offset);
    var path := "/v1/albums/" + id + "/tracks" + ToQueryString(query);
    RouteSegmentsHaveNoMark();
    RouteSegmentsHaveNoHash();
    ReadBack("/v1/albums/", id, "/tracks", query);
    return Forward(path);
  }
}
