# MyFlixer add-on: a Dafny model of its scraping rules

The MyFlixer add-on serves a media-centre client through three handlers:
- the catalog handler lists movies or series, or search results;
- the meta handler returns details and, for a series, the episodes;
- the stream handler returns stream descriptors for a movie or an episode.

Each handler scrapes the MyFlixer site through a proxy. For videostr-hosted links it also decrypts an OpenSSL-style envelope.

This project models the rules underneath that glue. The sources are `lib/utils.js`, the handlers `api/catalog.js`, `api/meta.js` and `api/stream.js`, and the older SDK-based `addon.js`.

Every network request is an input: the `Upstream` record of per-endpoint functions from the requested URL to the extracted body, with `None` when the request throws. HTML selection is modelled the same way. Each body is a record holding exactly the attributes and texts the code reads: `None` for an absent attribute, `""` for the text of a missing element. The foreign primitives are uninterpreted function fields of `Foreign.Primitives`: MD5, base64 decoding, UTF-8, AES-256-CBC (a partial function), `JSON.parse` and `decodeURIComponent`.

Modules:
- `Wrappers` holds `Option`.
- `JsString` covers the JavaScript string behaviour the code relies on. It uses the ECMAScript white-space set for `trim` and `\s`, and `replace` with a string pattern changes only the first occurrence. It also covers `split`, `includes`, `pop`, and `parseInt` with `NaN` as `None`.
- `EpisodeLabel` holds the two `Eps (\d+):` regular expressions, searched leftmost-first.
- `Upstream` holds the extracted records and the URL templates.
- `Utils` is `lib/utils.js`.
- `Catalog`, `Meta` and `Stream` are the three `api/` handlers.
- `Addon` holds the behaviour where `addon.js` differs.

`addon.js` repeats `opensslKeyIv`, `decryptOpenSSL` and `parseSearchResults`, and its copies are the same code as `lib/utils.js`. The only difference is that its card rule reads the poster from `data-src` only. Their rows below therefore name both files.

The three `api/` handlers and `Addon.AddonStreamHandler` are methods that run the source's loops. Each is proved equal to a specification function, and the properties are lemmas about those functions. The catalog and meta handlers of `addon.js` are modelled as functions only (see "## Left out").

The model follows the code in these places:
- `decryptOpenSSL` does not check that the data holds at least 16 bytes. The `subarray` calls clamp, and only the magic test and the cipher can fail.
- Season labels lose only the first `Season ` and the first `Series`.
- Within one link, descriptors pushed before an exception stay in the list.
- Episode numbers are compared as strings: a season label is compared with `parts[3]`, and the captured digits with `parts[4]`.
- In `api/meta.js` a failing episode fetch is caught per season, while a failing season-list fetch leaves no videos.
- In `addon.js` any failure in the season loop leaves no videos.

## Model

| member | source | states |
|---|---|---|
| Utils.Stretch | lib/utils.js:64-67 | after `n` rounds the buffer holds `16·n` bytes |
| Utils.StretchBlock | lib/utils.js:64-66 | block `k` of the buffer is `D_k`: `D_0 = H(password ‖ salt)`, `D_{k+1} = H(D_k ‖ password ‖ salt)` |
| Utils.Rounds | lib/utils.js:64 | the loop runs the least number of rounds whose 16-byte digests reach `keyLen + ivLen` |
| Utils.LoopExit | lib/utils.js:64-67 | on exit the buffer is at least `keyLen + ivLen` long, a multiple of 16, and one round fewer would not have sufficed |
| Utils.DeriveKeyIv | lib/utils.js:69-72 | the key has `keyLen` bytes, the IV `ivLen`, and key ‖ IV is the buffer's first `keyLen + ivLen` bytes |
| Utils.OpensslKeyIv | lib/utils.js:60-73 | the buffer-growing loop returns key and IV of the stated lengths, equal to the derivation from the blocks (addon.js:194-207 is the same loop) |
| Utils.DefaultKeyIv | lib/utils.js:60-72 | with the defaults 32/16 the loop runs three times: key `D_0 ‖ D_1`, IV `D_2` |
| Utils.DecryptOpenSSL | lib/utils.js:75-95 | input whose decoded bytes do not open with `Salted__` (including input under 8 bytes) decrypts to `""` (addon.js:209-229 is the same function) |
| Utils.DecryptFailure | lib/utils.js:86-94 | a cipher failure also yields `""`: the function never throws |
| Utils.DecryptRoundTrip | lib/utils.js:77-90 | an envelope of magic, an 8-byte salt at 8..16, and the ciphertext from byte 16, made with the derived key and IV, decrypts back to the plaintext |
| Utils.ParseUrlParams | lib/utils.js:98-108 | the `forEach` fill loop gives exactly the fold `UrlParams`, with a decoding `URIError` propagating as `None` |
| Utils.NoQuery | lib/utils.js:100-101 | a URL without `?` gives the empty map |
| Utils.OnlyFirstQuery | lib/utils.js:100-102 | only the text between the first and second `?` is read |
| Utils.PairWithoutValue | lib/utils.js:103-104 | a pair without `=` maps its key to `""` |
| Utils.PairSecondEquals | lib/utils.js:103-104 | in `a=b=c` the value is `b` |
| Utils.ParamsFailureSticks | lib/utils.js:102-105 | once a decode has thrown, later pairs do not restore a result |
| Utils.ParamsKeysPresent | lib/utils.js:102-105 | a map exists only if every pair decoded, and each decoded key is in it |
| Utils.ParamsKeysFromPairs | lib/utils.js:102-105 | every key of the map comes from some pair |
| Utils.ParamsLastWins | lib/utils.js:102-105 | a key holds the value of the last pair that names it |
| Utils.CardPreview | lib/utils.js:37-53 | a card is kept iff title, link and poster are truthy; `name == description == title`; type is `movie` iff the link contains `/movie/`, else `series`; id is `myflixer:<type>:<last path segment>` |
| Utils.Previews | lib/utils.js:35-54 | the results are no longer than the cards |
| Utils.ParseSearchResults | lib/utils.js:31-57 | the `.each` push loop gives exactly `Previews` of the cards |
| Utils.PreviewsConcat | lib/utils.js:35-54 | card order is preserved: results of `a + b` are those of `a` then `b` |
| Utils.PreviewsSingle | lib/utils.js:41-53 | one card gives one entry when kept and none otherwise |
| Utils.PosterRulesAgree | addon.js:69-71 | reading `data-src` only keeps a card iff the fallback rule keeps it and `data-src` is truthy, with the same entry |
| Catalog.Page | api/catalog.js:22 | `page = floor(skip/20) + 1` is the unique `p` with `20(p-1) <= skip < 20p`, and at least 1 for `skip >= 0` |
| Catalog.PageOfBlock | api/catalog.js:25 | every `skip` in `[20(p-1), 20p)` maps to page `p` |
| Catalog.Slug | api/catalog.js:20 | the slug is no longer than the search |
| Catalog.SlugNoSpace | api/catalog.js:20 | the slug has no white space |
| Catalog.SlugOfWord | api/catalog.js:20 | a search without white space is its own slug |
| Catalog.SlugAtRun | api/catalog.js:20 | a leading run of white space becomes one `-` |
| Catalog.SlugRun | api/catalog.js:20 | a white-space run between two non-space parts becomes exactly one `-` |
| Catalog.SlugCons | api/catalog.js:20 | a non-space character is copied |
| Catalog.SlugIdempotent | api/catalog.js:20 | slugging a slug changes nothing |
| Catalog.EmptyExtra | api/catalog.js:9-17 | an empty `extra` string leaves `extra` empty, so `skip` is 0 and the page is 1 |
| Catalog.Extra | api/catalog.js:8-13 | only a non-empty `extra` string is parsed, so only it can throw |
| Catalog.Skip | api/catalog.js:15 | a missing or empty `skip` counts as 0 (`extra.skip \|\| 0`) |
| Catalog.ExtraIsQuery | api/catalog.js:11-14 | a non-empty `extra` is parsed as the query string of `?` + extra |
| Catalog.ListingUrl | api/catalog.js:19-29 | a truthy search gives the search URL whatever the type; otherwise `movie` and `series` give their listing page and any other type no URL |
| Catalog.OfType | api/catalog.js:34 | the filter keeps exactly the results of the requested type |
| Catalog.OfTypeConcat | api/catalog.js:34 | the filter preserves order |
| Catalog.Catalog | api/catalog.js:4-47 | a 400 reply makes no request; an `extra` string that throws while parsing gives 500 with no request; otherwise the requested URL is the one the search/type/skip rule picks |
| Catalog.CatalogHandler | api/catalog.js:4-47 | the handler's steps give exactly the `Catalog` specification |
| Catalog.InvalidType | api/catalog.js:27-28 | without a search, a type other than `movie`/`series` is a 400 and nothing is requested |
| Catalog.SearchFirst | api/catalog.js:19-20 | a search wins over the type |
| Catalog.MoviePage | api/catalog.js:21-23 | browsing movies requests the page holding offset `skip` |
| Catalog.MetasOfType | api/catalog.js:30-38 | a 200 reply means the listing loaded, and its metas equal the parsed cards filtered to the requested type, in listing order; membership iff parsed and of that type |
| Catalog.ListingOutcome | api/catalog.js:31-45 | once a URL is requested, a loaded listing answers 200 with the filtered cards and a failed fetch answers 500 |
| Catalog.SeriesPage | api/catalog.js:24-26 | browsing series requests the `tv-show` page holding offset `skip` |
| Meta.NonEmpty | api/meta.js:35-37 | `s or undefined` is `undefined` iff `s` is empty, and `s` otherwise |
| Meta.ImdbRatingOf | api/meta.js:21-24 | `IMDB: <r>` yields `r` |
| Meta.ImdbRatingUnknown | api/meta.js:21-24 | `N/A` yields `undefined` |
| Meta.SeasonLabelOf | api/meta.js:54-55 | `Season <digits>` is labelled `<digits>` |
| Meta.SeasonLabel | api/meta.js:54-55 | a label has no surrounding white space and is no longer than the season text |
| Meta.TrimmedText | api/meta.js:20-35 | `undefined` exactly when the trimmed text is empty, otherwise the trimmed text |
| Meta.ImdbRating | api/meta.js:21-36 | a rating is non-empty and has no surrounding white space |
| Meta.SeasonNumber | api/meta.js:73 | `parseInt(seasonNum)`, else 1, is never 0: a parsed non-zero number is kept, `NaN` and zero become 1 |
| Meta.SeasonNumberOf | api/meta.js:73 | a positive decimal season label reads back as its number |
| Meta.EpisodeVideoFields | api/meta.js:62-76 | a row gives a video iff its title and data-id are truthy and the title matches `Eps (\d+): (.+)`; id is `<id>:<season>:<digits>`, title and overview are the trimmed name, episode is the digits' value |
| Meta.EpisodeVideo | api/meta.js:61-77 | a row without a title or a data-id contributes nothing; a video has a non-negative episode, its title as overview and the season number `parseInt(seasonNum) \|\| 1` |
| Meta.EpisodeRowOf | api/meta.js:65-76 | a row `Eps <d>: <name>` with a data-id becomes episode `d` titled with the trimmed name |
| Meta.EpisodeVideos | api/meta.js:61-79 | a season contributes at most one video per row |
| Meta.EpisodeVideosSeason | api/meta.js:73 | every video of a season carries that season's number |
| Meta.SeasonVideos | api/meta.js:57-82 | a season whose episode fetch fails contributes nothing (the per-season catch); otherwise at most one video per row, each carrying the season's number |
| Meta.AllVideosConcat | api/meta.js:52-83 | seasons contribute independently and in order |
| Meta.SeasonFailureIsolated | api/meta.js:57-82 | a season whose episode fetch fails removes nothing from the other seasons |
| Meta.Insert | api/meta.js:86-89 | inserting adds exactly the element (multiset) |
| Meta.InsertSorted | api/meta.js:86-89 | inserting into a sorted list keeps it sorted |
| Meta.SortVideos | api/meta.js:86-89 | the result is sorted by (season, episode) and a permutation of the input |
| Meta.InsertStable | api/meta.js:85-88 | the sort is stable: among videos with the same season and episode, insertion keeps their input order |
| Meta.SortStable | api/meta.js:86-89 | videos with equal keys keep their collection order |
| Meta.BaseMeta | api/meta.js:18-39 | id and type are the request's; name is the trimmed name; poster and trailer are the page's attributes, `undefined` exactly when not truthy; description is the trimmed text, `undefined` exactly when that is empty; rating is `ImdbRating` of the button text; no videos yet |
| Meta.SeriesVideos | api/meta.js:42-95 | videos are set exactly when data-id is truthy, the season list loads and at least one video was collected; then they are sorted and a permutation of the collected videos |
| Meta.LoadSeriesVideos | api/meta.js:42-95 | the series block's steps (data-id check, season list, season loop, sort of a non-empty result) give exactly `SeriesVideos` |
| Meta.MetaOf | api/meta.js:4-105 | missing id or type gives 400; a failed detail fetch gives 500; an empty trimmed name gives 404 and a non-empty one 200; a 200 meta is `BaseMeta` of the page with videos `SeriesVideos` for type `series` and none otherwise |
| Meta.PushSeasonVideos | api/meta.js:61-79 | the row loop appends exactly the season's videos |
| Meta.CollectVideos | api/meta.js:52-83 | the season loop, catching episode-fetch failures, yields exactly the collected videos |
| Meta.MetaHandler | api/meta.js:4-105 | the handler's steps give exactly the `MetaOf` specification |
| EpisodeLabel.MatchNumberOf | api/stream.js:62-63 | `Eps <digits>:<rest>` yields exactly its digits |
| EpisodeLabel.MatchTitleOf | api/meta.js:66-69 | `Eps <digits>: <name>` with a one-line name yields the digits and the name |
| EpisodeLabel.TitleImpliesNumber | api/meta.js:66 | a title the listing regex matches is also matched by the selection regex |
| JsString.SplitJoin | api/stream.js:12 | an id joined from `:`-free parts with `:` splits back into exactly those parts |
| JsString.SplitJoinBack | api/stream.js:12 | joining the parts of `id.split(':')` with `:` gives the id back |
| Stream.CompositeIdParts | api/stream.js:12-14 | `myflixer:<type>:<slug>:<season>:<episode>` splits into its five fields |
| Stream.SeasonLabel | api/stream.js:51 | a label has no surrounding white space and is no longer than the season text |
| Stream.SeasonLabelOf | api/stream.js:51 | `Season <digits>` is labelled `<digits>` |
| Stream.SeasonLabelTrailingSpace | api/stream.js:51 | `Season <digits> ` is still labelled `<digits>` |
| Stream.LinkId | api/stream.js:83-85 | the link id is `data-linkid` when truthy, else `data-id`; with neither the link is skipped |
| Stream.VideoIdOf | api/stream.js:95 | the video id is the last path segment without its query |
| Stream.VideoId | api/stream.js:95 | the video id never holds a `?` |
| Stream.FirstSeason | api/stream.js:52-66 | the scan stops at the first season whose label equals the requested one, and no earlier season matches |
| Stream.OnlyFirstSeason | api/stream.js:55-65 | only the first matching season is examined, whatever follows it |
| Stream.ScanEpisodes | api/stream.js:61-67 | the selected row is the first whose `Eps (\d+):` digits equal the requested episode; an untitled row before it throws |
| Stream.SelectSeason | api/stream.js:52-66 | the `for`/`break` loop returns exactly `FirstSeason` |
| Stream.SelectEpisode | api/stream.js:61-67 | the `.each` with `return false` returns exactly `ScanEpisodes` |
| Stream.FindEpisodeDataId | api/stream.js:52-66 | the season loop with the episode scan gives exactly `EpisodeDataId` |
| Stream.HlsSources | api/stream.js:120-132 | every pushed descriptor is HLS with a non-empty URL; the loop completes iff no source is `null` |
| Stream.HlsSourcesConcat | api/stream.js:120-132 | sources are pushed in source order |
| Stream.HlsSourceOne | api/stream.js:121-130 | one source pushes a descriptor iff its `file` is truthy and its `type` is `hls` |
| Stream.PushSources | api/stream.js:120-132 | the source loop appends exactly `HlsSources` |
| Stream.SubtitleTracks | api/stream.js:136-141 | subtitles are the captions/subtitles tracks; a `null` track throws |
| Stream.AttachLast | api/stream.js:143-145 | subtitles go to the last descriptor only when both lists are non-empty; every other descriptor is unchanged |
| Stream.AddSubtitles | api/stream.js:135-146 | attaching subtitles changes only the last descriptor |
| Stream.VideostrStreams | api/stream.js:93-155 | the videostr branch only appends HLS descriptors and may change the last earlier descriptor's subtitles |
| Stream.SourcesStreams | api/stream.js:120-150 | the source loop and subtitle block append only HLS descriptors and leave earlier ones apart from the last one's subtitles |
| Stream.ProcessVideostr | api/stream.js:93-155 | the videostr branch's steps, fetch by fetch, give exactly `VideostrStreams` |
| Stream.VideostrAppendsSources | api/stream.js:117-131 | with no null source and no tracks, one HLS descriptor is appended per `hls` source, in order |
| Stream.EmptyDecryptionAppendsNothing | api/stream.js:115-117 | an empty decryption appends nothing |
| Stream.SubtitlesGoToEarlierDescriptor | api/stream.js:143-145 | a link that pushes nothing can still set the subtitles of an earlier link's descriptor |
| Stream.SourceStreams | api/stream.js:87-170 | one link only appends, apart from the subtitle write to the last descriptor |
| Stream.DirectLinkAppends | api/stream.js:156-165 | a direct link appends exactly one `MyFlixer - Direct` descriptor |
| Stream.LinkStreams | api/stream.js:83-170 | a link without an id adds nothing |
| Stream.CollectFrom | api/stream.js:82-171 | the server loop only extends the accumulated list |
| Stream.ProcessLink | api/stream.js:83-170 | one iteration, with the in-place subtitle write, gives exactly `LinkStreams` |
| Stream.CollectStreams | api/stream.js:78-171 | the server loop gives exactly `CollectFrom` |
| Stream.CollectConcat | api/stream.js:82-171 | the loop over `a + b` is the loop over `a`, then over `b` |
| Stream.FailingLinkIsolated | api/stream.js:87-170 | a skipped or failing link drops out and the others contribute as if it were absent |
| Stream.EarlierLinksKept | api/stream.js:82-171 | output follows server-list order |
| Stream.CollectShaped | api/stream.js:82-171 | every descriptor is a well-formed direct or HLS descriptor |
| Stream.Streams | api/stream.js:4-182 | missing id or type gives 400; a 200 reply holds only well-formed descriptors |
| Stream.SeriesStreams | api/stream.js:30-172 | a series episode whose server list loads answers 200 with `CollectFrom` over that list, skipping links without a data-id |
| Stream.ServerListFailure | api/stream.js:76-181 | for a movie or an episode, a failing fetch of the server list answers 500 |
| Stream.MovieServers | api/stream.js:19-30 | a failed page fetch halts with 500; a page without a truthy data-id halts with 404 `Movie data not found`; otherwise the server list is `/ajax/episode/list/<data-id>` |
| Stream.SeriesServers | api/stream.js:31-74 | it halts only with 500 or 404; 404 `Series data not found` exactly for a page without a truthy data-id; 404 `Episode not found` or a server-list URL only after the season scan, the URL exactly when the scan gives a truthy episode data-id |
| Stream.StreamsHalt | api/stream.js:4-76 | a request with both parameters answers with the reply its server step halts with |
| Stream.MovieWithoutDataIdNotFound | api/stream.js:26-28 | a movie page without a truthy data-id answers 404 `Movie data not found` |
| Stream.SeriesWithoutDataIdNotFound | api/stream.js:42-44 | any other type whose page has no truthy data-id answers 404 `Series data not found` |
| Stream.UnmatchedSeasonNotFound | api/stream.js:49-71 | no season labelled `parts[3]` answers 404 `Episode not found` |
| Stream.UnmatchedEpisodeNotFound | api/stream.js:53-71 | a selected season whose titled rows never match `parts[4]` answers 404 `Episode not found` |
| Stream.MovieStreams | api/stream.js:19-172 | a movie with a data-id and a loading server list answers 200 with `CollectFrom` over that list |
| Stream.NotFoundCauses | api/stream.js:26-71 | every 404 has one of the three causes: no movie data-id, no series data-id, or no episode data-id after the scan |
| Stream.StreamHandler | api/stream.js:4-182 | the handler's steps, with each element read through its own document, give exactly `Streams` |
| Stream.SeriesServersAsWritten | api/stream.js:30-73 | as written, the series path always halts with a 500 or a 404 and never reaches a server list |
| Stream.StreamsAsWritten | api/stream.js:4-182 | as written, a missing id or type still gives 400, and no reply carries a stream |
| Stream.AsWrittenLosesDirectLink | api/stream.js:83 | a movie with one direct link: corrected, one stream; as written, a 500 |
| Addon.AddonCatalog | addon.js:89-116 | the URL rule is the api one; with no URL or a failed fetch nothing is returned; a loaded listing gives its `data-src` cards filtered to the requested type |
| Addon.PreviewsRulesAgree | addon.js:69-71 | when no card depends on the `src` fallback, both rules give the same results |
| Addon.AddonPreviewsFewer | addon.js:69-71 | the addon never keeps more cards than the utils rule |
| Addon.AddonImdbRating | addon.js:130-132 | the rating, not trimmed, is never the empty string |
| Addon.AddonEpisodeVideo | addon.js:161-177 | an untitled row throws; a titled row gives a video iff it matches, with `season = parseInt(seasonNum)` and no default |
| Addon.AddonEpisodeRowOf | addon.js:161-174 | a row titled `Eps <d>: <name>` gives the video `<id>:<season>:<d>` titled and described by the untrimmed name, episode `parseInt(d)`, whatever its data-id |
| Addon.AddonEpisodeVideosFail | addon.js:161-178 | a season fails iff some row has no title |
| Addon.AddonEpisodeVideosSeason | addon.js:161-177 | a season gives at most one video per row, each with season `parseInt(seasonNum)` |
| Addon.AddonSeasonLabel | addon.js:156 | a text without `Season ` is kept; otherwise exactly seven characters go |
| Addon.AddonSeasonLabelOf | addon.js:156 | everything after a leading `Season ` is kept verbatim, `Series` and white space included |
| Addon.AddonSeasonLabelKeepsSpace | addon.js:259 | `Season <n> ` is labelled `<n> ` by the addon but `<n>` by api/stream.js |
| Addon.AddonSeasonFailureLosesAll | addon.js:154-184 | one failing episode fetch drops the videos of every season |
| Addon.AddonSeasonVideos | addon.js:155-176 | a season whose episode fetch fails makes the series block fail: there is no per-season catch |
| Addon.AddonSeasonVideosOf | addon.js:155-176 | a season fails iff its episode fetch fails or one of its rows has no title; otherwise at most one video per row, each numbered `parseInt(seasonNum)` |
| Addon.AddonAllVideosConcat | addon.js:154-179 | videos stay in scan order, unsorted |
| Addon.AddonMetaOf | addon.js:118-191 | `Content not found` exactly when the detail fetch fails; otherwise the request's id and type, the untrimmed name, poster and description, `AddonImdbRating`, the truthy trailer; videos exactly when the type is `series`, data-id is truthy and the season list and every season load, and then equal to the collected list |
| Addon.AddonVideosAlwaysSet | addon.js:150-181 | an empty season list still sets `videos` to the empty list |
| Addon.AddonServersUrl | addon.js:239-241 | a movie's server list is `/ajax/episode/list/<contentId>`, with no detail-page lookup |
| Addon.AddonSeriesServers | addon.js:243-278 | a server-list URL exactly when the page and the season list load and the scan, with the addon's label, gives a truthy episode data-id; that URL is `/ajax/episode/servers/<id>` |
| Addon.AddonVideostrAgrees | addon.js:298-350 | fetching the key first and letting `JSON.parse("")` throw gives the same result as api/stream.js's order of checks |
| Addon.AddonVideostrStreams | addon.js:298-350 | the videostr branch only appends `MyFlixer - HLS` descriptors, and may change only the subtitles of the last earlier descriptor |
| Addon.AddonLinkStreams | addon.js:289-365 | one server entry only appends, apart from the subtitle write on the last earlier descriptor |
| Addon.AddonCollect | addon.js:288-366 | the server loop only extends the list it starts from |
| Addon.AddonCollectAgrees | addon.js:288-366 | the server loop is `Stream.CollectFrom` with no link-id skip |
| Addon.EmptyDecryptionDropsLink | addon.js:317-318 | an empty decryption drops that link; other links are unaffected |
| Addon.AddonStreams | addon.js:231-373 | every returned descriptor is well formed; when the server-list URL is found and loads, the result is `CollectFrom` over that list, requesting even links without a data-id; every other path returns no streams |
| Addon.EpisodeNotFoundIsEmpty | addon.js:275-277 | an unmatched episode is answered with no streams |
| Addon.AddonStreamHandler | addon.js:231-373 | the handler's steps, corrected, give exactly `AddonStreams` |
| Addon.MissingLinkIdRequested | addon.js:289-292 | a link with neither id is requested at `.../sources/undefined`, where api/stream.js skips it |
| Addon.AddonSeriesServersAsWritten | addon.js:242-281 | as written, the series path never yields a server-list URL |
| Addon.AddonStreamsAsWritten | addon.js:231-371 | as written, the stream handler answers every request with an empty list |
| Addon.AddonAsWrittenLosesDirectLink | addon.js:289 | a movie with one direct link: corrected, one stream; as written, none |

## Left out

- Network behaviour is not modelled: timeouts, headers, proxying, and whether two requests for the same URL answer differently. Each endpoint is one function of the URL.
- Cheerio selector evaluation is not modelled: the extracted attributes and texts are inputs.
- MD5, AES-256-CBC with PKCS#7 padding, base64, UTF-8, `JSON.parse` and `decodeURIComponent` are uninterpreted. The model uses only two facts about the real primitives: `JSON.parse("")` throws, and `decodeURIComponent` leaves a string without `%` unchanged.
- The freshness of the remote key document is not modelled: its content is an input.
- JSON values of the wrong type are not modelled: a non-array `tracks`, a non-string `file`, a `sources` value that is not a string, a non-string `link` in a source reply (its `.includes` throws and the link is skipped, api/stream.js:93 and addon.js:297), and a non-string `vidstr` key or password (`Buffer.from` throws inside `decryptOpenSSL`, which then returns `""`). `Foreign.Primitives.parseSources` already folds "not iterable" into failure.
- Keys named `__proto__` in `parseUrlParams` are not modelled: the model uses a plain map.
- The query values that become arrays under repeated Express parameters are not modelled: `type`, `id` and `extra` are single strings.
- `parseInt` precision beyond 2^53 is not modelled, nor `-0`. Numbers are unbounded integers.
- Logging, HTTP response plumbing beyond the status and body, SDK wiring, `api/configure.js`, `api/manifest.js`, `api/index.js` and `server.js` are not part of this model.
- Addon.AddonCatalog, Addon.AddonMetaOf: the catalog and meta handlers of `addon.js` are modelled as functions, and the episode push loop at addon.js:154-179 as the recursion `AddonEpisodeVideos`/`AddonAllVideos`, not as methods with loops; the result is the same array, but the order of pushes is not modelled as state.
- Addon.AddonCatalog: a request for an undefined URL is taken to throw and give no metas.
- Addon.AddonImdbRating: states only non-emptiness. The value is the body: two first-occurrence replacements with no trim.
- Stream.VideostrStreams: a key fetch that throws inside api/stream.js's inner `try` and the outer videostr `try` both keep what was pushed. The two catch blocks are not told apart.
- Strings: a Dafny `char` is a Unicode scalar value while a JavaScript string is a sequence of UTF-16 code units. Every pattern and white-space character the code uses lies in the Basic Multilingual Plane, so no result changes, but lengths such as the `Catalog.Slug` bound count code points.

## Findings

| source | as written | input that shows it | evidently intended | confidence | as-written member | corrected member |
|---|---|---|---|---|---|---|
| api/stream.js:50-83 | the handler wraps season, episode and server elements with `$(...)`, but no `$` is bound in the handler (only `$movie`, `$series`, `$seasons`, `$episodes`, `$servers`), so each access throws a `ReferenceError` | any movie id `myflixer:movie:<slug>` (slug without `:`) whose detail page has data-id `1`, and one server entry with `data-linkid` `7` whose source link is `v.mp4` | each element read through the document it came from, giving `{streams: [Direct v.mp4]}` instead of a 500 | not executed | Stream.AsWrittenLosesDirectLink | Stream.StreamHandler |
| addon.js:258-289 | the stream handler uses the same unbound `$`; every such `ReferenceError` is caught by the outer `try` | any movie id `myflixer:movie:<slug>` (slug without `:`) with one server entry with `data-linkid` `7` whose source link is `v.mp4` | the direct link returned as one stream instead of `{streams: []}` | not executed | Addon.AddonAsWrittenLosesDirectLink | Addon.AddonStreamHandler |
