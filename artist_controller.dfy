/**
 * `ArtistController`: `GET api/v1/artists/{id}`, `.../albums`,
 * `.../top-tracks` and `.../related-artists`. It has its own query-string
 * helper, which tests the dictionary's size rather than the filtered pairs.
 */
module ArtistController {
  import opened Wrappers
  import opened Text
  import opened Http
  import opened UriEscape
  import opened QueryString
  import opened Controllers

  const ArtistIdRequired: string := "Artist id is required."

  /** The artist controller's `ToQueryString`: empty only for an empty dictionary. */
  function ArtistQueryString(q: Query): (r: string)
    ensures r == "" <==> q == []
    ensures r != "" ==> r[0] == '?'
  {
    if |q| == 0 then "" else "?" + Join(FormatPairs(NonEmptyPairs(q)), '&')
  }

  /** The two helpers agree whenever some pair survives the filter, and on the empty dictionary. */
  lemma ArtistQueryStringAgrees(q: Query)
    ensures q == [] || NonEmptyPairs(q) != [] <==> ArtistQueryString(q) == ToQueryString(q)
  {
    if q != [] && NonEmptyPairs(q) == [] {
      assert ArtistQueryString(q) == "?" + Join([], '&') == "?";
    }
  }

  /** A non-empty dictionary whose every value is empty yields a bare `?` here and nothing in the other controllers. */
  lemma ArtistQueryStringBareMark(q: Query)
    requires q != []
    requires forall i :: 0 <= i < |q| ==> q[i].1 == ""
    ensures ArtistQueryString(q) == "?"
    ensures ToQueryString(q) == ""
  {
    AllEmptyFiltersToNothing(q);
    assert ArtistQueryString(q) == "?" + Join([], '&');
  }

  /** Without empty values the artist query string reads back as the dictionary itself. */
  lemma ArtistQueryRoundTrip(q: Query)
    requires NoEmptyValue(q)
    ensures ParseQuery(ArtistQueryString(q)) == Some(q)
  {
    ArtistQueryStringAgrees(q);
    QueryRoundTrip(q);
  }

  /** The parameters `GetArtistAlbums` forwards: those of `BuildQuery`, then `include_groups`. */
  function ArtistAlbumsParams(market: Option<string>, includeGroups: Option<string>, limit: Option<Int32>, offset: Option<Int32>): Query {
    MarketPageParams(market, limit, offset) + NonEmptyParam("include_groups", includeGroups)
  }

  method BuildQuery(market: Option<string>, limit: Option<Int32>, offset: Option<Int32>) returns (q: Query)
    ensures q == MarketPageParams(market, limit, offset)
    ensures NoEmptyValue(q)
    ensures forall i :: 0 <= i < |q| ==> q[i].0 in ["market", "limit", "offset"]
  {
    q := [];
    q := AddIfNotBlank(q, "market", market);
    assert q == TextParam("market", market);
    KeyAbsent(q, "limit", ["market"]);
    q := AddIfHasValue(q, "limit", limit);
    KeyAbsent(q, "offset", ["market", "limit"]);
    q := AddIfHasValue(q, "offset", offset);
  }

  method GetArtistFromId(id: string) returns (route: Route)
    ensures IsBlank(id) <==> route == Reject(BadRequest(ArtistIdRequired))
    ensures !IsBlank(id) ==> route == Forward("/v1/artists/" + id)
  {
    if IsBlank(id) {
      return Reject(BadRequest(ArtistIdRequired));
    }
    return Forward("/v1/artists/" + id);
  }

  method GetArtistAlbums(id: string, market: Option<string>, includeGroups: Option<string>, limit: Option<Int32>, offset: Option<Int32>)
    returns (route: Route)
    ensures IsBlank(id) <==> route == Reject(BadRequest(ArtistIdRequired))
    ensures !IsBlank(id) ==>
      route == Forward("/v1/artists/" + id + "/albums" + ToQueryString(ArtistAlbumsParams(market, includeGroups, limit, offset)))
    ensures route.Forward? ==>
      QueryAfter(route.path, "/v1/artists/" + id + "/albums") == Some(ArtistAlbumsParams(market, includeGroups, limit, offset))
    ensures route.Forward? && '?' !in id && '#' !in id ==>
      ServerQuery(route.path) == Some(ArtistAlbumsParams(market, includeGroups, limit, offset))
  {
    if IsBlank(id) {
      return Reject(BadRequest(ArtistIdRequired));
    }

    var query := BuildQuery(market, limit, offset);
    KeyAbsent(query, "include_groups", ["market", "limit", "offset"]);
    query := AddIfNotEmpty(query, "include_groups", includeGroups);
    var path := "/v1/artists/" + id + "/albums" + ArtistQueryString(query);
    ArtistQueryStringAgrees(query);
    RouteSegmentsHaveNoMark();
    RouteSegmentsHaveNoHash();
    ReadBack("/v1/artists/", id, "/albums", query);
    return Forward(path);
  }

  /** The top-tracks query: nothing for a blank market, otherwise the escaped market alone. */
  lemma TopTracksQuery(market: Option<string>)
    ensures IsNullOrWhiteSpace(market) ==> ArtistQueryString(TextParam("market", market)) == ""
    ensures !IsNullOrWhiteSpace(market) ==>
      ArtistQueryString(TextParam("market", market)) == "?market=" + EscapeDataString(market.value)
  {
    if !IsNullOrWhiteSpace(market) {
      NotBlankIsNotEmpty(market);
      MarketQueryString(market.value);
      ArtistQueryStringAgrees([("market", market.value)]);
    }
  }

  /** The top-tracks path: the bare path for a blank market, or the escaped market alone. */
  lemma TopTracksPath(id: string, market: Option<string>)
    ensures var path := "/v1/artists/" + id + "/top-tracks" + ArtistQueryString(TextParam("market", market));
      && (IsNullOrWhiteSpace(market) ==> path == "/v1/artists/" + id + "/top-tracks")
      && (!IsNullOrWhiteSpace(market) ==> path == "/v1/artists/" + id + "/top-tracks" + "?market=" + EscapeDataString(market.value))
      && QueryAfter(path, "/v1/artists/" + id + "/top-tracks") == Some(TextParam("market", market))
      && ('?' !in id && '#' !in id ==> ServerQuery(path) == Some(TextParam("market", market)))
  {
    var query := TextParam("market", market);
    TopTracksQuery(market);
    ArtistQueryStringAgrees(query);
    RouteSegmentsHaveNoMark();
    RouteSegmentsHaveNoHash();
    ReadBack("/v1/artists/", id, "/top-tracks", query);
  }

  method GetArtistTopTracks(id: string, market: Option<string>) returns (route: Route)
    ensures IsBlank(id) <==> route == Reject(BadRequest(ArtistIdRequired))
    ensures !IsBlank(id) && IsNullOrWhiteSpace(market) ==> route == Forward("/v1/artists/" + id + "/top-tracks")
    ensures !IsBlank(id) && !IsNullOrWhiteSpace(market) ==>
      route == Forward("/v1/artists/" + id + "/top-tracks" + "?market=" + EscapeDataString(market.value))
    ensures route.Forward? ==>
      QueryAfter(route.path, "/v1/artists/" + id + "/top-tracks") == Some(TextParam("market", market))
    ensures route.Forward? && '?' !in id && '#' !in id ==> ServerQuery(route.path) == Some(TextParam("market", market))
  {
    if IsBlank(id) {
      return Reject(BadRequest(ArtistIdRequired));
    }

    var query: Query := [];
    query := AddIfNotBlank(query, "market", market);
    assert query == TextParam("market", market);
    var path := "/v1/artists/" + id + "/top-tracks" + ArtistQueryString(query);
    TopTracksPath(id, market);
    return Forward(path);
  }

  method GetRelatedArtists(id: string) returns (route: Route)
    ensures IsBlank(id) <==> route == Reject(BadRequest(ArtistIdRequired))
    ensures !IsBlank(id) ==> route == Forward("/v1/artists/" + id + "/related-artists")
  {
    if IsBlank(id) {
      return Reject(BadRequest(ArtistIdRequired));
    }
    return Forward("/v1/artists/" + id + "/related-artists");
  }
}
