/** `SearchController`: `GET api/v1/search`. */
module SearchController {
  import opened Wrappers
  import opened Text
  import opened Http
  import opened UriEscape
  import opened QueryString
  import opened Controllers

  const QueryRequired: string := "Query parameter 'q' is required."
  const TypeRequired: string := "Query parameter 'type' is required (e.g. artist,track,album,playlist)."

  /** The parameters `Search` forwards: q and type always, then market, limit, offset when given. */
  function SearchParams(q: string, searchType: string, market: Option<string>, limit: Option<Int32>, offset: Option<Int32>): Query {
    [("q", q), ("type", searchType)] + TextParam("market", market) + IntParam("limit", limit) + IntParam("offset", offset)
  }

  /** Helper: the two escaped leading pairs after `/v1/search`, regrouped as one string. */
  lemma SearchLead(e1: string, e2: string)
    ensures "/v1/search" + ("?" + ("q" + "=" + e1) + "&" + ("type" + "=" + e2)) == "/v1/search?q=" + e1 + "&type=" + e2
  {
    var a := "/v1/search?q=";
    var b := "&type=";
    assert "/v1/search" + ("?" + ("q" + "=" + e1) + "&" + ("type" + "=" + e2)) == a + e1 + (b + e2);
  }

  /** Two inserts of distinct keys into a new dictionary leave them in insertion order. */
  lemma PutTwo(k1: string, v1: string, k2: string, v2: string)
    requires k1 != k2
    ensures Put(Put([], k1, v1), k2, v2) == [(k1, v1), (k2, v2)]
  {
    assert Put([], k1, v1) == [(k1, v1)];
    KeyAbsent([(k1, v1)], k2, [k1]);
  }

  lemma SearchKeysLiteral()
    ensures EscapeDataString("q") == "q" && EscapeDataString("type") == "type"
  {
    EscapeKeepsUnreserved("q");
    EscapeKeepsUnreserved("type");
  }

  /** Every search path starts with the escaped `q` and `type`, in that order, whatever else it carries. */
  lemma SearchPathLead(q: string, searchType: string, market: Option<string>, limit: Option<Int32>, offset: Option<Int32>)
    requires q != "" && searchType != ""
    ensures var path := "/v1/search" + ToQueryString(SearchParams(q, searchType, market, limit, offset));
      var lead := "/v1/search?q=" + EscapeDataString(q) + "&type=" + EscapeDataString(searchType);
      |lead| <= |path| && path[..|lead|] == lead
  {
    var query := SearchParams(q, searchType, market, limit, offset);
    assert query[0] == ("q", q) && query[1] == ("type", searchType);
    PathStartsWithTwo("/v1/search", query);
    SearchKeysLiteral();
    SearchLead(EscapeDataString(q), EscapeDataString(searchType));
  }

  /** The dictionary `Search` fills, in insertion order. */
  method SearchQuery(q: string, searchType: string, market: Option<string>, limit: Option<Int32>, offset: Option<Int32>)
    returns (query: Query)
    requires q != "" && searchType != ""
    ensures query == SearchParams(q, searchType, market, limit, offset)
    ensures NoEmptyValue(query)
    ensures |query| >= 2 && query[0] == ("q", q) && query[1] == ("type", searchType)
  {
    query := Put([], "q", q);
    query := Put(query, "type", searchType);
    PutTwo("q", q, "type", searchType);
    query := AddIfNotBlank(query, "market", market);
    KeyAbsent(query, "limit", ["q", "type", "market"]);
    query := AddIfHasValue(query, "limit", limit);
    KeyAbsent(query, "offset", ["q", "type", "market", "limit"]);
    query := AddIfHasValue(query, "offset", offset);
  }

  method Search(q: Option<string>, searchType: Option<string>, market: Option<string>, limit: Option<Int32>, offset: Option<Int32>)
    returns (route: Route)
    // `q` is checked first, then `type`.
    ensures IsNullOrWhiteSpace(q) <==> route == Reject(BadRequest(QueryRequired))
    ensures !IsNullOrWhiteSpace(q) && IsNullOrWhiteSpace(searchType) <==> route == Reject(BadRequest(TypeRequired))
    ensures route.Forward? <==> !IsNullOrWhiteSpace(q) && !IsNullOrWhiteSpace(searchType)
    ensures route.Forward? ==>
      route.path == "/v1/search" + ToQueryString(SearchParams(q.value, searchType.value, market, limit, offset))
    ensures route.Forward? ==>
      QueryAfter(route.path, "/v1/search") == Some(SearchParams(q.value, searchType.value, market, limit, offset))
    ensures route.Forward? ==>
      ServerQuery(route.path) == Some(SearchParams(q.value, searchType.value, market, limit, offset))
    // The upstream path always starts with the escaped q and type.
    ensures route.Forward? ==>
      var lead := "/v1/search?q=" + EscapeDataString(q.value) + "&type=" + EscapeDataString(searchType.value);
      |lead| <= |route.path| && route.path[..|lead|] == lead
  {
    if IsNullOrWhiteSpace(q) {
      return Reject(BadRequest(QueryRequired));
    }

    if IsNullOrWhiteSpace(searchType) {
      return Reject(BadRequest(TypeRequired));
    }

    NotBlankIsNotEmpty(q);
    NotBlankIsNotEmpty(searchType);
    var query := SearchQuery(q.value, searchType.value, market, limit, offset);

    var path := "/v1/search" + ToQueryString(query);

    RouteSegmentsHaveNoMark();
    RouteSegmentsHaveNoHash();
    QueryAfterPrefix("/v1/search", query);
    SearchPathLead(q.value, searchType.value, market, limit, offset);
    return Forward(path);
  }
}
