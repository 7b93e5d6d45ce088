/** `PlaylistsController`: `GET api/v1/playlists/{id}` and `GET api/v1/playlists/{id}/tracks`. */
module PlaylistsController {
  import opened Wrappers
  import opened Text
  import opened Http
  import opened QueryString
  import opened Controllers

  const PlaylistIdRequired: string := "Playlist id is required."

  /** The parameters `GetPlaylist` forwards, in the order market, fields; blank ones are left out. */
  function PlaylistParams(market: Option<string>, fields: Option<string>): Query {
    TextParam("market", market) + TextParam("fields", fields)
  }

  /** The parameters `GetPlaylistTracks` forwards, in the order market, fields, limit, offset. */
  function PlaylistTracksParams(market: Option<string>, fields: Option<string>, limit: Option<Int32>, offset: Option<Int32>): Query {
    PlaylistParams(market, fields) + IntParam("limit", limit) + IntParam("offset", offset)
  }

  /** The first inserts of both actions: `market`, then `fields`, each when not blank. */
  method MarketAndFields(market: Option<string>, fields: Option<string>) returns (query: Query)
    ensures query == PlaylistParams(market, fields)
    ensures NoEmptyValue(query)
    ensures forall i :: 0 <= i < |query| ==> query[i].0 in ["market", "fields"]
  {
    query := [];
    query := AddIfNotBlank(query, "market", market);
    assert query == TextParam("market", market);
    KeyAbsent(query, "fields", ["market"]);
    query := AddIfNotBlank(query, "fields", fields);
  }

  method GetPlaylist(id: string, market: Option<string>, fields: Option<string>) returns (route: Route)
    ensures IsBlank(id) <==> route == Reject(BadRequest(PlaylistIdRequired))
    ensures !IsBlank(id) ==>
      route == Forward("/v1/playlists/" + id + ToQueryString(PlaylistParams(market, fields)))
    ensures route.Forward? ==>
      QueryAfter(route.path, "/v1/playlists/" + id) == Some(PlaylistParams(market, fields))
    ensures route.Forward? && '?' !in id && '#' !in id ==> ServerQuery(route.path) == Some(PlaylistParams(market, fields))
  {
    if IsBlank(id) {
      return Reject(BadRequest(PlaylistIdRequired));
    }

    var query := MarketAndFields(market, fields);
    var path := "/v1/playlists/" + id + ToQueryString(query);
    RouteSegmentsHaveNoMark();
    RouteSegmentsHaveNoHash();
    ReadBackId("/v1/playlists/", id, query);
    return Forward(path);
  }

  method GetPlaylistTracks(id: string, market: Option<string>, fields: Option<string>, limit: Option<Int32>, offset: Option<Int32>)
    returns (route: Route)
    ensures IsBlank(id) <==> route == Reject(BadRequest(PlaylistIdRequired))
    ensures !IsBlank(id) ==>
      route == Forward("/v1/playlists/" + id + "/tracks" + ToQueryString(PlaylistTracksParams(market, fields, limit, offset)))
    ensures route.Forward? ==>
      QueryAfter(route.path, "/v1/playlists/" + id + "/tracks") == Some(PlaylistTracksParams(market, fields, limit, offset))
    ensures route.Forward? && '?' !in id && '#' !in id ==>
      ServerQuery(route.path) == Some(PlaylistTracksParams(market, fields, limit, offset))
  {
    if IsBlank(id) {
      return Reject(BadRequest(PlaylistIdRequired));
    }

    var query := MarketAndFields(market, fields);
    KeyAbsent(query, "limit", ["market", "fields"]);
    query := AddIfHasValue(query, "limit", limit);
    KeyAbsent(query, "offset", ["market", "fields", "limit"]);
    query := AddIfHasValue(query, "offset", offset);
    assert query == PlaylistTracksParams(market, fields, limit, offset);
    var path := "/v1/playlists/" + id + "/tracks" + ToQueryString(query);
    RouteSegmentsHaveNoMark();
    RouteSegmentsHaveNoHash();
    ReadBack("/v1/playlists/", id, "/tracks", query);
    return Forward(path);
  }
}
