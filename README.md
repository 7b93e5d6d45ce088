# SpotifyPlaylists proxy: a Dafny model

SpotifyPlaylists is a small ASP.NET proxy in front of the Spotify Web API.
It serves these routes:

- `api/v1/albums`, `api/v1/artists`, `api/v1/playlists`, `api/v1/search` and `api/v1/tracks`;
- `POST api/v1/token`.

Each catalog action does three things:

1. It validates its route and query parameters.
2. It builds one upstream path with a query string.
3. It forwards the path through `SpotifyClient.MakeAuthenticatedRequest`, which adds a bearer token from `SpotifyTokenService`. The action then relays the upstream body, and copies the upstream status when it is not a success.

The token service keeps a single cached client-credentials token. It caches that token for `max(0, expires_in - 60)` seconds. The code computes `expires_in - 60` on a 32-bit `int`, which wraps for the most negative replies; the service model uses the intended lifetime, and the code as written is modelled beside it (see Findings). The token endpoint runs the same client-credentials exchange with credentials the caller supplies.

This project models that core and proves what it promises:

- **The token cache** (`token_service.dfy`). It is a class with a mutable cache slot and a ghost record of the POSTs sent. One call is specified by the function `GetTokenSpec`, and the method `GetTokenAsync` is proved against it. Lemmas about `Run` cover several calls in a row.
- **The client** (`client.dfy`). `GetOAuthToken` maps the token endpoint's reply to an optional token. `MakeAuthenticatedRequest` answers a synthetic 401 without a GET, or sends exactly one GET that carries `Bearer <token>` and returns the upstream response unchanged.
- **OAuth client credentials** (`client_credentials.dfy`). This is the form body, which is not escaped, and the `expires_in` default of 3600.
- **Query strings** (`query_string.dfy`, `uri_escape.dfy`, `text.dfy`):
  - The query dictionary is an insertion-ordered sequence of pairs.
  - `Uri.EscapeDataString` follows RFC 3986. Unreserved characters are kept, and every other character is written as the percent-encoded triplets of its UTF-8 bytes.
  - `int.ToString()` and `string.Join` are modelled too.
  - A decoder (`ParseQuery`) is the partner. The round trip `ParseQuery(ToQueryString(q)) == Some(non-empty pairs of q)` is proved.
- **The controllers** (`controllers.dfy` and one file per controller):
  - Each action is a method that returns a `Route`: either the rejection it answers, or the upstream path it forwards. Each method is proved to build exactly the reference parameters. Those parameters read back from the path after its known prefix. `HttpClient` does not send a fragment, so what goes out stops before the first `#`. A server that splits what it receives at the first `?` reads the same parameters whenever the route id holds neither `?` nor `#`.
  - `ApiController.Serve` runs a route through the client and relays the reply.
  - The token endpoint is a pure function.

`SpotifyTokenService.GetTokenAsync`, `SpotifyClient.MakeAuthenticatedRequest` and `ApiController.Serve` state their new state in terms of `old(...)`. They rest on `GetTokenSpec` and `Dispatch`, whose properties are proved separately.

The clock (`now`, in whole seconds), the token endpoint's reply and the upstream response are parameters.

## Model

| member | source | states |
|---|---|---|
| TokenService.GetTokenSpec | Services/SpotifyTokenService.cs:31-72 | A live, non-empty cached token is returned with no credential check, no POST and the cache untouched. On a miss with an empty id or secret, the result is null, with no POST and the cache untouched. Otherwise exactly one client-credentials POST goes out. A non-2xx reply, or a reply with a null or empty `access_token`, gives null and leaves the cache as it was. A usable reply is returned and cached until `now + Lifetime(expires_in or 3600)`. The token returned is never empty, and the cache changes only by storing the token returned. |
| TokenService.SpotifyTokenService.GetTokenAsync | Services/SpotifyTokenService.cs:31-72 | Performs the early-return steps in place. The new cache slot, the token returned and the POST appended to the ghost log are exactly those of `GetTokenSpec` for the old cache. |
| TokenService.SpotifyTokenService.constructor | Services/SpotifyTokenService.cs:19-29 | Starts with the given configuration, an empty cache and no POST sent. |
| TokenService.CacheHit | Services/SpotifyTokenService.cs:33 | `TryGetValue` finds an entry and its token is non-empty. An entry is found while `now` is before its expiry instant. |
| TokenService.SpotifyTokenService.LiveEntryIsHit | Services/SpotifyTokenService.cs:33 | Since only non-empty tokens are stored, a cached entry is served exactly while it is live: the emptiness test never turns one away. |
| TokenService.LifetimeAsWritten | Services/SpotifyTokenService.cs:67 | The code as written: the subtraction wraps to a 32-bit `int`, and `Math.Max` then gives a lifetime in `[0, 2^31)`. |
| TokenService.Lifetime | Services/SpotifyTokenService.cs:67 | The lifetime is 0 when `expires_in <= 60`, and otherwise is exactly `expires_in - 60`. It is never negative. |
| TokenService.LifetimeAsWrittenWraps | Services/SpotifyTokenService.cs:67 | The code as written, which subtracts on a 32-bit `int`, gives a lifetime of 2147483588 seconds for `expires_in = -2147483648`. The intended lifetime is 0. |
| TokenService.LifetimeAsWrittenAgrees | Services/SpotifyTokenService.cs:67 | For every `expires_in >= -2147483588`, the code as written and `Lifetime` agree. |
| TokenService.Wrap32 | Services/SpotifyTokenService.cs:67 | Matches the input within the 32-bit range, and is congruent to it modulo 2^32. |
| TokenService.LiveEntryServesAll | Services/SpotifyTokenService.cs:33-34 | Calls made in order while a non-empty entry is live are all served that token. They send no POST and never change the cache. |
| TokenService.ColdStartRefreshesOnce | Services/SpotifyTokenService.cs:33-71 | On a cold cache, a successful first call followed by calls before the new expiry makes one POST in all, and every call gets the same token. |
| TokenService.Run | Services/SpotifyTokenService.cs:31-72 | A series of calls yields one result per call. |
| ClientCredentials.FormBodyFields | Services/SpotifyTokenService.cs:42-45 | When neither credential contains `&`, the form body reads back as exactly the three fields: grant type, client id and client secret, in that order. |
| ClientCredentials.FormBodyIsJoin | Services/SpotifyTokenService.cs:42-45 | The body is exactly the grant type, `client_id=<id>` and `client_secret=<secret>`, joined by `&`. |
| ClientCredentials.FormBodySecretSplits | Services/SpotifyTokenService.cs:43 | The credentials are interpolated unescaped, so a secret `a&b` reads back as two fields, `client_secret=a` and `b`. |
| ClientCredentials.FormBodyNotEscaped | Services/SpotifyTokenService.cs:43 | For instance, the secret `a&b` yields four form fields. |
| ClientCredentials.ExpiresIn | Services/SpotifyTokenService.cs:59 | A missing `expires_in` means 3600. A present one is taken as it is. |
| Client.GetOAuthToken | SpotifyClient.cs:23-41 | Always one POST of the fixed form body to the given token URL. A non-2xx reply gives null. A 2xx reply gives the `access_token` if present and null otherwise, with no emptiness check. |
| Client.Dispatch | SpotifyClient.cs:46-60 | A null or empty token gives a 401 with no GET. Otherwise exactly one GET goes to `url` with `Authorization: Bearer <token>`, and the upstream response is returned unchanged, whatever its status. |
| Client.BearerHeaderCarriesToken | SpotifyClient.cs:54 | The header sent is `Bearer ` followed by the token itself. |
| Client.SpotifyClient.MakeAuthenticatedRequest | SpotifyClient.cs:44-61 | Asks the token service first, so the cache and the POST log move as `GetTokenSpec` says. The response is `Dispatch`'s response for that token, and the GET log grows by exactly `Dispatch`'s GET. |
| Client.SpotifyClient.constructor | SpotifyClient.cs:13-19 | Uses the given token service and starts with no GET sent. |
| Http.HeaderValue | SpotifyClient.cs:54 | `AuthenticationHeaderValue` renders as the scheme, one space, then the parameter, or as the scheme alone when the parameter is empty. |
| Http.IsSuccessStatusCode | Controller/AlbumsController.cs:34 | `IsSuccessStatusCode`: the status lies in 200-299. |
| Http.HttpRequestMessage.constructor | SpotifyClient.cs:53 | A new GET request to the given URL carries no `Authorization` header. |
| Http.HttpRequestMessage.AsSent | SpotifyClient.cs:53-55 | The request sent goes to the request's URL, and carries a header exactly when one was set. |
| Controllers.ApiController.Serve | Controller/AlbumsController.cs:31-42 | A rejection returns its result and changes nothing. A forward makes the authenticated request. The body always comes back as `application/json`. A non-success upstream status becomes the response status, and a success leaves the status as it was. |
| Controllers.ApiController.constructor | Controller/AlbumsController.cs:12-16 | A controller starts with response status 200. |
| Controllers.QueryAfterPrefix | Controller/AlbumsController.cs:29-58 | A path built as a prefix plus the query string of a dictionary with no empty value reads back as that dictionary after the prefix. A server reads the same whenever the prefix holds neither `?` nor `#`, because the query string holds no `#`. |
| Controllers.QueryPart | Controller/AlbumsController.cs:29 | The query part of a request target is empty or starts with `?`, and is a suffix of the target. It is empty when the target has no `?`. |
| Controllers.BeforeFragment | Controller/AlbumsController.cs:29 | What is sent of a URL is a prefix of it without `#`, and the whole URL when it holds no `#`. |
| Controllers.ReadBack | Controller/AlbumsController.cs:58 | A path of a fixed segment, an id, a fixed segment and a query string reads back after its known prefix. A server reads the same parameters when the id holds neither `?` nor `#`. |
| Controllers.ReadBackId | Controller/AlbumsController.cs:29 | The same for a path that ends with the id. |
| Controllers.MarkInIdMovesQuery | Controller/AlbumsController.cs:29 | Because ids are not escaped, an id `a?k=v` makes a server read the parameter `k=v`. |
| Controllers.HashInIdDropsQuery | Controller/AlbumsController.cs:29 | An id `a#rest` starts a fragment: neither `rest` nor any parameter after it is sent, and a server reads no parameters. |
| QueryString.QueryRoundTrip | Controller/AlbumsController.cs:74-78 | Parsing a query string gives back exactly the pairs with a non-empty value, in dictionary order. |
| QueryString.ToQueryString | Controller/PlaylistsController.cs:76-80 | The result is `""` exactly when no pair has a non-empty value, and otherwise starts with `?`. |
| QueryString.QueryStringHasNoHash | Controller/PlaylistsController.cs:76-80 | A query string never holds `#`. |
| QueryString.QueryStringStartsWithTwo | Controller/SearchController.cs:64-68 | When the first two pairs have values, the query string starts with `?`, their escaped `k=v` forms and an `&` between them. |
| QueryString.PathStartsWithTwo | Controller/SearchController.cs:48-68 | The same holds after any path prefix. |
| QueryString.Put | Controller/SearchController.cs:39-46 | `query[k] = v`. A key not yet present is appended at the end. |
| QueryString.PutOverwrites | Controller/SearchController.cs:39-46 | For a key that is present, the dictionary's own entry takes the new value in its place, and every other pair is unchanged. |
| QueryString.PutKeepsDistinctKeys | Controller/SearchController.cs:39-46 | No key ever appears twice, and overwriting a key leaves the key order as it was. |
| QueryString.NonEmptyPairs | Controller/TracksController.cs:47 | Every pair it keeps has a non-empty value and comes from the input, and every input pair with a non-empty value is kept. It is never longer than the input, and it is the input itself when no value is empty. |
| QueryString.NonEmptyPairsConcat | Controller/TracksController.cs:47 | The filter keeps the dictionary's order: filtering `a + b` gives the filtered `a` followed by the filtered `b`. |
| QueryString.AllEmptyFiltersToNothing | Controller/TracksController.cs:47-48 | A dictionary whose values are all empty filters to no pairs, so `pairs.Any()` is false. |
| QueryString.FormatPair | Controller/TracksController.cs:47 | The `Select` lambda: the escaped key, `=`, then the escaped value. |
| QueryString.FormatPairHasNoAmpersand | Controller/TracksController.cs:47 | An escaped `k=v` piece never contains `&`. |
| QueryString.ParseFormattedPair | Controller/TracksController.cs:47 | An escaped `k=v` piece reads back as its pair. |
| QueryString.ParseFormattedPairs | Controller/TracksController.cs:47-48 | A list of pieces reads back as its pairs. |
| QueryString.TextParam | Controller/AlbumsController.cs:28 | `if (!string.IsNullOrWhiteSpace(v)) query[k] = v`. The result holds no pair exactly when `v` is null or blank, and otherwise holds the single pair. It has no empty value. |
| QueryString.IntParam | Controller/AlbumsController.cs:55-56 | `if (v.HasValue) query[k] = v.Value.ToString()`. The result holds no pair exactly when `v` is null, and otherwise holds the decimal rendering. |
| QueryString.NonEmptyParam | Controller/ArtistController.cs:51 | `if (!string.IsNullOrEmpty(v)) query[k] = v`. This is an emptiness check, not a white-space check. |
| QueryString.AddIfNotBlank | Controller/AlbumsController.cs:28 | Applied to a key not yet present, the insert produces the dictionary followed by `TextParam` and keeps "no empty value". |
| QueryString.AddIfHasValue | Controller/AlbumsController.cs:55-56 | Applied to a key not yet present, the insert produces the dictionary followed by `IntParam` and keeps "no empty value". |
| QueryString.AddIfNotEmpty | Controller/ArtistController.cs:51 | Applied to a key not yet present, the insert produces the dictionary followed by `NonEmptyParam` and keeps "no empty value". |
| QueryString.MarketQueryString | Controller/TracksController.cs:27-48 | A non-empty market alone gives `?market=<escaped market>`. |
| QueryString.SinglePairQueryString | Controller/TracksController.cs:45-49 | A one-pair dictionary with a value gives `?k=v`, with both parts escaped. |
| UriEscape.EscapeRoundTrip | Controller/AlbumsController.cs:76 | Following RFC 3986, unescaping what `Uri.EscapeDataString` produced gives back the original string. |
| UriEscape.EscapeHasNoDelimiters | Controller/AlbumsController.cs:76 | Escaped text contains no `&`, `=`, `?`, `/` or `#`. A value therefore cannot inject a parameter or a path segment, or start a fragment. |
| UriEscape.EscapeKeepsUnreserved | Controller/AlbumsController.cs:76 | A string made only of RFC 3986 unreserved characters is left as it is. Keys such as `market` and `include_groups` therefore go out literally. |
| UriEscape.EscapeAlphabet | Controller/AlbumsController.cs:76 | Each character of the output is unreserved or `%`. |
| UriEscape.Utf8RoundTrip | Controller/AlbumsController.cs:76 | Following RFC 3629, the UTF-8 bytes of a character decode back to that character. |
| UriEscape.HexRoundTrip | Controller/AlbumsController.cs:76 | An upper-case hex digit reads back as its value. |
| UriEscape.DecodeTripletsOfEncoded | Controller/AlbumsController.cs:76 | Percent-encoded bytes read back as those bytes. |
| UriEscape.UnescapeEscapedChar | Controller/AlbumsController.cs:76 | One escaped character, followed by any text, decodes to the character plus the decoding of the rest. |
| UriEscape.EscapeDataString | Controller/AlbumsController.cs:76 | The escaped text is never shorter than the input. |
| Text.IntToStringRoundTrip | Controller/AlbumsController.cs:55-56 | `int.ToString()` is lossless: reading the decimal text back gives the number. |
| Text.IntToString | Controller/AlbumsController.cs:55-56 | The text is non-empty, starts with `-` exactly for a negative number, and is otherwise made of digits. |
| Text.NatToString | Controller/AlbumsController.cs:55-56 | The text is made of decimal digits with no leading zero. |
| Text.Join | Controller/AlbumsController.cs:77 | `string.Join`: the pieces in order with one separator between neighbours, and `""` for no pieces. |
| Text.SplitJoin | Controller/AlbumsController.cs:77 | Joining pieces that contain no separator, then splitting, gives back the pieces. |
| Text.IsWhiteSpace | Controller/AlbumsController.cs:21 | `char.IsWhiteSpace`: the Unicode White_Space characters, from tab to ideographic space. |
| Text.IsNullOrWhiteSpace | Controller/AlbumsController.cs:21 | `string.IsNullOrWhiteSpace`: null, or only white space. Every null or empty string counts as blank. |
| Text.IsNullOrEmpty | Controller/AlbumsController.cs:76 | `string.IsNullOrEmpty`: null or of length 0. |
| Text.NotBlankIsNotEmpty | Controller/SearchController.cs:27-37 | A value that passes `!IsNullOrWhiteSpace` also passes `!IsNullOrEmpty`. The filter therefore keeps `q`, `type` and `market`. |
| AlbumsController.GetAlbum | Controller/AlbumsController.cs:19-43 | A blank id, and only a blank id, gives 400 "Album id is required." with no upstream call. Otherwise the path is `/v1/albums/{id}` plus the query of a non-blank `market`, and it reads back as exactly that parameter. A server reads the same parameter when the id holds neither `?` nor `#`. |
| AlbumsController.IdWithMarkInjectsQuery | Controller/AlbumsController.cs:29 | For the id `a?k=v` (such as `a?market=XX`) and no market, no parameter follows the known prefix, yet a server reads `k=v`. |
| AlbumsController.IdWithHashDropsQuery | Controller/AlbumsController.cs:29 | For the id `a#rest` and any market, such as `a#b` with `XX`, the parameter still follows the known prefix, yet a server reads none. |
| AlbumsController.GetAlbumTracks | Controller/AlbumsController.cs:46-72 | Rejects a blank id in the same way. Otherwise the path is `/v1/albums/{id}/tracks` plus `market`, `limit` and `offset` in that order, each present under its own condition, and it reads back as those parameters. A server reads the same parameters when the id holds neither `?` nor `#`. |
| PlaylistsController.GetPlaylist | Controller/PlaylistsController.cs:19-44 | A blank id, and only a blank id, gives 400 "Playlist id is required.". Otherwise the path is `/v1/playlists/{id}` plus `market` and then `fields`, each when not blank, and it reads back as those parameters. A server reads the same parameters when the id holds neither `?` nor `#`. |
| PlaylistsController.MarketAndFields | Controller/PlaylistsController.cs:28-29 | The inserts both playlist actions begin with: `market`, then `fields`, each when not blank, with no empty value and no other key. |
| PlaylistsController.GetPlaylistTracks | Controller/PlaylistsController.cs:47-74 | Rejects a blank id in the same way. Otherwise the query has the keys `market`, `fields`, `limit` and `offset` in that order, and it reads back as those parameters. A server reads the same parameters when the id holds neither `?` nor `#`. |
| SearchController.SearchQuery | Controller/SearchController.cs:39-46 | The dictionary begins with q and type, then adds market when not blank, and limit and offset when given. No value is empty. |
| SearchController.Search | Controller/SearchController.cs:27-48 | A blank `q` gives the `q` message, checked before `type`. A blank `type` gives the `type` message. Forwarding happens exactly when both are present. The path is `/v1/search` plus the reference parameters. It reads back as them, also for a server splitting at the first `?`, and always starts with `/v1/search?q=<escaped q>&type=<escaped type>`. |
| SearchController.SearchPathLead | Controller/SearchController.cs:39-48 | For any market, limit and offset, the path built from the search parameters starts with `/v1/search?q=<escaped q>&type=<escaped type>`. |
| TracksController.TrackPath | Controller/TracksController.cs:27-29 | The track path is the bare path for a blank market, and otherwise the path followed by `?market=<escaped>`. It reads back as the market parameter, also for a server when the id holds neither `?` nor `#`. |
| TracksController.GetTrack | Controller/TracksController.cs:19-49 | A blank id gives 400 "Track id is required.". A blank market gives exactly `/v1/tracks/{id}` with no `?`. Otherwise the path is `/v1/tracks/{id}?market=<escaped market>`. A server reads the same parameter when the id holds neither `?` nor `#`. |
| ArtistController.ArtistQueryString | Controller/ArtistController.cs:127-132 | This controller's own helper. It gives `""` exactly for an empty dictionary, and otherwise starts with `?`. |
| ArtistController.ArtistQueryStringAgrees | Controller/ArtistController.cs:127-132 | It equals the others' `ToQueryString` exactly when the dictionary is empty or some value is non-empty. |
| ArtistController.ArtistQueryStringBareMark | Controller/ArtistController.cs:129-131 | Every non-empty dictionary whose values are all empty gives a bare `?` here, where the other controllers give `""`. |
| ArtistController.ArtistQueryRoundTrip | Controller/ArtistController.cs:127-132 | A dictionary with no empty value reads back from this helper's output. |
| ArtistController.BuildQuery | Controller/ArtistController.cs:118-125 | Produces `market` when not blank, then `limit` and `offset` when given, in that order, with no empty value and no other key. |
| ArtistController.GetArtistFromId | Controller/ArtistController.cs:19-39 | A blank id, and only a blank id, gives 400 "Artist id is required.". Otherwise the path is `/v1/artists/{id}`, with the id unescaped. |
| ArtistController.GetArtistAlbums | Controller/ArtistController.cs:42-66 | Rejects a blank id in the same way. Otherwise the path is `/v1/artists/{id}/albums` plus the `BuildQuery` keys, followed by `include_groups` when it is non-empty. It reads back as those parameters, also for a server when the id holds neither `?` nor `#`. Because no value is empty here, this helper's output equals the usual query string. |
| ArtistController.TopTracksQuery | Controller/ArtistController.cs:77-79 | The top-tracks query is `""` for a blank market and `?market=<escaped market>` otherwise. |
| ArtistController.TopTracksPath | Controller/ArtistController.cs:77-79 | The top-tracks path is the bare path for a blank market, and otherwise the path followed by `?market=<escaped>`. It reads back as the market parameter, also for a server when the id holds neither `?` nor `#`. |
| ArtistController.GetArtistTopTracks | Controller/ArtistController.cs:69-93 | Rejects a blank id in the same way. Otherwise the path is `/v1/artists/{id}/top-tracks`, followed by `?market=<escaped>` only when market is not blank. A server reads the same parameter when the id holds neither `?` nor `#`. |
| ArtistController.GetRelatedArtists | Controller/ArtistController.cs:96-116 | Rejects a blank id in the same way. Otherwise the path is `/v1/artists/{id}/related-artists`. |
| TokenController.ResolveTokenUrl | Controller/TokenController.cs:31-33 | Uses the configured TokenUrl unless it is blank, in which case it uses `https://accounts.spotify.com/api/token`. The result is never blank. |
| TokenController.MissingCredentials | Controller/TokenController.cs:25 | The request body is null, or its id or secret is null or white space only. |
| TokenController.GetToken | Controller/TokenController.cs:23-49 | A null body, or a blank id or secret, gives 400 with no POST, and that is the only way to get a 400. Otherwise one POST of the caller's credentials goes to the resolved URL. The result is 502 "Failed to obtain token from Spotify." exactly when the reply is not 2xx or its token is null or empty. Otherwise it is `Ok` with the token, `token_type` "Bearer" and `expires_in` 3600, a value fixed by this endpoint and not taken from the reply. |
| TokenController.GetTokenIgnoresReplyLifetime | Controller/TokenController.cs:43-48 | The result does not depend on the reply's own `expires_in`. |
| TokenController.GetTokenSendsCallerCredentials | Controller/TokenController.cs:35 | When neither credential contains `&`, the form sent reads back as the caller's credentials, not the configured ones. |

## Left out

- HTTP transport, `HttpClient`, ASP.NET routing and model binding, dependency injection, and the set-up in Program.cs. Upstream replies and the clock are parameters. Route ids come bound as non-null, already decoded strings.
- JSON parsing. The token reply is an abstract record with optional `access_token` and `expires_in`. The exceptions `JsonDocument.Parse` and `GetInt32` throw on malformed input are not modelled.
- Concurrency. The token service has no lock, so concurrent misses can each POST. The model has one sequential caller and claims no single-flight refresh.
- `IMemoryCache` internals. The slot is an explicit `Option<CacheEntry>`, live while `now < expiresAt`. An expired entry stays in the field but is never served, which looks the same from outside. The cache key constant plays no part, since there is one slot.
- TokenService.GetTokenSpec: for `expires_in <= 60` the model returns the token and stores an entry whose expiry is `now`, so it is never live. `MemoryCache` instead rejects a non-positive relative expiration by throwing, so the real call fails at line 68 instead of returning the token. This exception is not modelled.
- TokenService.GetTokenSpec: the service model caches for the corrected `Lifetime`, not for the wrapped lifetime of line 67 as written. For `expires_in` between -2147483648 and -2147483589 the code as written caches for decades, and the model caches for 0 seconds. `TokenService.LifetimeAsWritten` models the code as written (see Findings).
- Logging, `CancellationToken` and `using` disposal have no observable logic.
- `.NET Dictionary` enumeration order is taken to be insertion order. `int.ToString()` is taken to be culture-invariant decimal.
- The query-string decoder `UnescapeStrict` is the partner of `EscapeDataString` and rejects malformed escapes. It is not `Uri.UnescapeDataString`, which passes them through.
- Strings are sequences of Unicode scalar values. UTF-16 lone surrogates are not modelled.
- Dictionary values are non-null strings, because every insert in the source is guarded.
- Controller actions return a `Route` and do not call the client themselves. `ApiController.Serve`, which is the same for every catalog action, performs the request and the status relay once for all of them.
- Model/OAuthConfig.cs, Model/TokenRequest.cs and Model/TokenResult.cs are mirrored as datatypes. Services/ISpotifyTokenService.cs is an interface and is not part of this model.
- AlbumsController.GetAlbum and the other actions with a route id: the id goes into the upstream path unescaped, as the code does. An id holding `?`, which a route segment such as `a%3Fmarket=XX` decodes to, therefore shifts the query as a server reads it. An id holding `#`, decoded from `%23`, starts a fragment that `HttpClient` does not send, so everything after it is lost. The read-back that a server sees is promised only for ids with neither `?` nor `#`; `AlbumsController.IdWithMarkInjectsQuery` and `AlbumsController.IdWithHashDropsQuery` exhibit the other cases.
- Where the design description and the code disagree, the model follows the code, with two exceptions described above: the lifetime wrap-around of line 67, and the exception `MemoryCache` raises at line 68 for a lifetime of 0. A 2xx upstream status other than 200 keeps the response status at its default, rather than copying the upstream status. The code also has no cache invalidation operation. A transport failure reaching the catalog API is not turned into a synthetic 502; the code lets the exception propagate, and the model has no transport failures at all.

## Findings

| source | as written | input that shows it | evidently intended | confidence | as-written member | corrected member |
|---|---|---|---|---|---|---|
| Services/SpotifyTokenService.cs:67 | `Math.Max(0, expiresIn - ExpiryBufferSeconds)` subtracts on a 32-bit `int` and wraps around | `expires_in = -2147483648` gives a cache lifetime of 2147483588 s, about 68 years | A lifetime of 0 for any `expires_in <= 60` | not executed | TokenService.LifetimeAsWritten (shown by TokenService.LifetimeAsWrittenWraps) | TokenService.Lifetime (used by TokenService.GetTokenSpec) |
