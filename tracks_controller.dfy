/** `TracksController`: `GET api/v1/tracks/{id}`. */
module TracksController {
  import opened Wrappers
  import opened Text
  import opened Http
  import opened UriEscape
  import opened QueryString
  import opened Controllers

  const TrackIdRequired: string := "Track id is required."

  /** The parameters `GetTrack` forwards: `market` when it is not blank. */
  function TrackParams(market: Option<string>): Query {
    TextParam("market", market)
  }

  /** The track path: the bare path for a blank market, or the escaped market alone. */
  lemma TrackPath(id: string, market: Option<string>)
    ensures var path := "/v1/tracks/" + id + ToQueryString(TrackParams(market));
      && (IsNullOrWhiteSpace(market) ==> path == "/v1/tracks/" + id)
      && (!IsNullOrWhiteSpace(market) ==> path == "/v1/tracks/" + id + "?market=" + EscapeDataString(market.value))
      && QueryAfter(path, "/v1/tracks/" + id) == Some(TrackParams(market))
      && ('?' !in id && '#' !in id ==> ServerQuery(path) == Some(TrackParams(market)))
  {
    var prefix := "/v1/tracks/" + id;
    var query := TrackParams(market);
    if query != [] {
      MarketQueryString(market.value);
      assert prefix + ToQueryString(query) == prefix + ("?market=" + EscapeDataString(market.value));
    }
    RouteSegmentsHaveNoMark();
    RouteSegmentsHaveNoHash();
    ReadBackId("/v1/tracks/", id, query);
  }

  method GetTrack(id: string, market: Option<string>) returns (route: Route)
    ensures IsBlank(id) <==> route == Reject(BadRequest(TrackIdRequired))
    ensures !IsBlank(id) && IsNullOrWhiteSpace(market) ==> route == Forward("/v1/tracks/" + id)
    ensures !IsBlank(id) && !IsNullOrWhiteSpace(market) ==>
      route == Forward("/v1/tracks/" + id + "?market=" + EscapeDataString(market.value))
    ensures route.Forward? ==> QueryAfter(route.path, "/v1/tracks/" + id) == Some(TrackParams(market))
    ensures route.Forward? && '?' !in id && '#' !in id ==> ServerQuery(route.path) == Some(TrackParams(market))
  {
    if IsBlank(id) {
      return Reject(BadRequest(TrackIdRequired));
    }

    var query: Query := [];
    query := AddIfNotBlank(query, "market", market);
    assert query == TrackParams(market);
    var path := "/v1/tracks/" + id + ToQueryString(query);
    TrackPath(id, market);
    return Forward(path);
  }
}
