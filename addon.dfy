/**
 * addon.js: the older, SDK-based copy of the catalog, meta and stream handlers. Its key
 * derivation and decryption are the same code as lib/utils.js and use `Utils.OpensslKeyIv` and
 * `Utils.DecryptOpenSSL`; what differs is modelled here.
 */
module Addon {
  import opened Wrappers
  import opened JsString
  import opened Upstream
  import opened Foreign
  import opened Utils
  import opened EpisodeLabel
  import Catalog
  import Meta
  import Stream

  // ----------------------------------------------------------------- catalog

  /**
   * The catalog handler: the same URL rule as api/catalog.js, but with no type check before the
   * request; without a URL the request throws and, like every failure, gives no metas.
   */
  function AddonCatalog(up: Upstream, requestType: Option<string>, extra: map<string, string>): (r: (Option<string>, seq<MetaPreview>))
    ensures r.0 == Catalog.ListingUrl(requestType, extra)
    ensures r.0.None? ==> r.1 == []
    ensures r.0.Some? && up.listing(r.0.value).None? ==> r.1 == []
    ensures r.0.Some? && up.listing(r.0.value).Some? ==>
      r.1 == Catalog.OfType(Previews(up.listing(r.0.value).value, DataSrcOnly), requestType)
  {
    match Catalog.ListingUrl(requestType, extra)
    case None => (None, [])
    case Some(url) =>
      match up.listing(url)
      case None => (Some(url), [])
      case Some(cards) => (Some(url), Catalog.OfType(Previews(cards, DataSrcOnly), requestType))
  }

  /** When no card relies on the `src` fallback, both poster rules give the same entries. */
  lemma {:induction false} PreviewsRulesAgree(cards: seq<Card>)
    requires forall i :: 0 <= i < |cards| ==> Truthy(cards[i].dataSrc) || !Truthy(cards[i].src)
    ensures Previews(cards, DataSrcOnly) == Previews(cards, DataSrcThenSrc)
  {
    if cards != [] {
      PreviewsRulesAgree(cards[..|cards| - 1]);
      PosterRulesAgree(cards[|cards| - 1]);
    }
  }

  /** The addon keeps a subset of what api/catalog.js keeps: a card dropped there is dropped here too. */
  lemma {:induction false} AddonPreviewsFewer(cards: seq<Card>)
    ensures |Previews(cards, DataSrcOnly)| <= |Previews(cards, DataSrcThenSrc)|
  {
    if cards != [] {
      AddonPreviewsFewer(cards[..|cards| - 1]);
      PosterRulesAgree(cards[|cards| - 1]);
    }
  }

  // -------------------------------------------------------------------- meta

  /** A video as addon.js builds it: the name is not trimmed and `season` is `parseInt` with no default (`None` is `NaN`). */
  datatype RawVideo = RawVideo(id: string, title: string, season: Option<int>, episode: int, overview: string)

  /** The meta object; `name`, `poster` and `description` are taken as scraped. */
  datatype AddonMeta = AddonMeta(
    id: string, contentType: string, name: string, poster: Option<string>, description: string,
    imdbRating: Option<string>, trailer: Option<string>, videos: Option<seq<RawVideo>>)

  datatype AddonMetaReply = AddonMetaOk(meta: AddonMeta) | ContentNotFound

  /** The IMDb text with the first `N/A` and the first `IMDB: ` removed and no trim; empty becomes `undefined`. */
  function AddonImdbRating(text: string): (r: Option<string>)
    ensures r.Some? ==> r.value != ""
  {
    Meta.NonEmpty(ReplaceFirst(ReplaceFirst(text, "N/A", ""), "IMDB: ", ""))
  }

  /** The season label: only the first `Season ` is removed. */
  function AddonSeasonLabel(text: string): (r: string)
    ensures !Contains(text, "Season ") ==> r == text
    ensures Contains(text, "Season ") ==> |r| + 7 == |text|
  {
    ReplaceFirstShorter(text, "Season ", "");
    ReplaceFirst(text, "Season ", "")
  }

  /** Everything after a leading `Season ` is kept verbatim, including a `Series` and surrounding white space. */
  lemma AddonSeasonLabelOf(t: string)
    ensures AddonSeasonLabel("Season " + t) == t
  {
    ReplaceFirstAtStart("Season ", t, "");
    EmptyPrefix(t);
  }

  /** A season `Season <n> ` is labelled `<n> ` here but `<n>` by api/stream.js, so the addon never selects it for episode `<n>`. */
  lemma AddonSeasonLabelKeepsSpace(n: string)
    requires |n| >= 1 && AllDigits(n)
    ensures AddonSeasonLabel("Season " + n + " ") == n + " "
    ensures Stream.SeasonLabel("Season " + n + " ") == n
  {
    assert "Season " + n + " " == "Season " + (n + " ");
    AddonSeasonLabelOf(n + " ");
    Stream.SeasonLabelTrailingSpace(n);
  }

  /** One row: `None` when it has no title (`undefined.match` throws); a data-id is not required. */
  function AddonEpisodeVideo(id: string, seasonNum: string, e: EpisodeItem): (r: Option<Option<RawVideo>>)
    ensures r.None? <==> e.title.None?
    ensures r.Some? ==> (r.value.Some? <==> MatchTitle(e.title.value).Some?)
    ensures r.Some? && r.value.Some? ==> r.value.value.season == ParseInt(seasonNum)
  {
    if e.title.None? then None
    else
      match MatchTitle(e.title.value)
      case None => Some(None)
      case Some((digits, name)) =>
        ParseDigits(digits);
        Some(Some(RawVideo(id + ":" + seasonNum + ":" + digits, name, ParseInt(seasonNum), DigitsValue(digits, 10), name)))
  }

  /** A row titled `Eps <d>: <name>` becomes episode `d` named by the untrimmed name, whatever its data-id. */
  lemma AddonEpisodeRowOf(id: string, seasonNum: string, d: string, name: string, dataId: Option<string>)
    requires |d| >= 1 && AllDigits(d)
    requires |name| >= 1 && forall i :: 0 <= i < |name| ==> !IsLineTerminator(name[i])
    ensures ParseInt(d).Some?
    ensures AddonEpisodeVideo(id, seasonNum, EpisodeItem(Some(PREFIX + d + ": " + name), dataId))
      == Some(Some(RawVideo(id + ":" + seasonNum + ":" + d, name, ParseInt(seasonNum), ParseInt(d).value, name)))
  {
    MatchTitleOf(d, name);
    ParseDigits(d);
  }

  /** One season's rows; `None` as soon as a row throws. */
  function AddonEpisodeVideos(id: string, seasonNum: string, eps: seq<EpisodeItem>): Option<seq<RawVideo>> {
    if eps == [] then Some([])
    else
      match AddonEpisodeVideo(id, seasonNum, eps[0])
      case None => None
      case Some(v) =>
        match AddonEpisodeVideos(id, seasonNum, eps[1..])
        case None => None
        case Some(vs) => Some((match v case Some(x) => [x] case None => []) + vs)
  }

  /** A season fails exactly when one of its rows has no title. */
  lemma {:induction false} AddonEpisodeVideosFail(id: string, seasonNum: string, eps: seq<EpisodeItem>)
    ensures AddonEpisodeVideos(id, seasonNum, eps).None? <==> exists i :: 0 <= i < |eps| && eps[i].title.None?
  {
    if eps != [] {
      var tail := eps[1..];
      AddonEpisodeVideosFail(id, seasonNum, tail);
      if eps[0].title.None? {
      } else if AddonEpisodeVideos(id, seasonNum, tail).None? {
        var i :| 0 <= i < |tail| && tail[i].title.None?;
        assert eps[i + 1] == tail[i];
      } else {
        forall i | 0 <= i < |eps| ensures eps[i].title.Some? {
          if i > 0 {
            assert eps[i] == tail[i - 1];
          }
        }
      }
    }
  }

  /** A season gives at most one video per row, each numbered `parseInt(seasonNum)` with no default. */
  lemma {:induction false} AddonEpisodeVideosSeason(id: string, seasonNum: string, eps: seq<EpisodeItem>)
    requires AddonEpisodeVideos(id, seasonNum, eps).Some?
    ensures var vs := AddonEpisodeVideos(id, seasonNum, eps).value;
      |vs| <= |eps| && forall i :: 0 <= i < |vs| ==> vs[i].season == ParseInt(seasonNum)
  {
    if eps != [] {
      AddonEpisodeVideosSeason(id, seasonNum, eps[1..]);
      var v := AddonEpisodeVideo(id, seasonNum, eps[0]).value;
      var rest := AddonEpisodeVideos(id, seasonNum, eps[1..]).value;
      var row := match v case Some(x) => [x] case None => [];
      assert AddonEpisodeVideos(id, seasonNum, eps).value == row + rest;
    }
  }

  /** One season: `None` when its episode fetch throws. */
  function AddonSeasonVideos(up: Upstream, id: string, s: SeasonItem): (r: Option<seq<RawVideo>>)
    ensures up.episodeList(SeasonEpisodesUrl(s.dataId)).None? ==> r.None?
  {
    match up.episodeList(SeasonEpisodesUrl(s.dataId))
    case None => None
    case Some(eps) => AddonEpisodeVideos(id, AddonSeasonLabel(s.text), eps)
  }

  /** A season fails iff its episode fetch fails or one of its rows has no title; otherwise each row gives at most one video, numbered by the season's label. */
  lemma AddonSeasonVideosOf(up: Upstream, id: string, s: SeasonItem)
    ensures var eps := up.episodeList(SeasonEpisodesUrl(s.dataId));
      AddonSeasonVideos(up, id, s).None? <==> eps.None? || exists i :: 0 <= i < |eps.value| && eps.value[i].title.None?
    ensures var r := AddonSeasonVideos(up, id, s);
      r.Some? ==>
        |r.value| <= |up.episodeList(SeasonEpisodesUrl(s.dataId)).value| &&
        forall i :: 0 <= i < |r.value| ==> r.value[i].season == ParseInt(AddonSeasonLabel(s.text))
  {
    var eps := up.episodeList(SeasonEpisodesUrl(s.dataId));
    if eps.Some? {
      AddonEpisodeVideosFail(id, AddonSeasonLabel(s.text), eps.value);
      if AddonSeasonVideos(up, id, s).Some? {
        AddonEpisodeVideosSeason(id, AddonSeasonLabel(s.text), eps.value);
      }
    }
  }

  /** The season loop; there is no `try` inside it, so any failure loses every video. */
  function AddonAllVideos(up: Upstream, id: string, seasons: seq<SeasonItem>): Option<seq<RawVideo>> {
    if seasons == [] then Some([])
    else
      match AddonAllVideos(up, id, seasons[..|seasons| - 1])
      case None => None
      case Some(vs) =>
        match AddonSeasonVideos(up, id, seasons[|seasons| - 1])
        case None => None
        case Some(ws) => Some(vs + ws)
  }

  /** In contrast to api/meta.js, one season whose episode fetch fails drops the videos of all seasons. */
  lemma {:induction false} AddonSeasonFailureLosesAll(up: Upstream, id: string, a: seq<SeasonItem>, s: SeasonItem, b: seq<SeasonItem>)
    requires up.episodeList(SeasonEpisodesUrl(s.dataId)).None?
    ensures AddonAllVideos(up, id, a + [s] + b).None?
    decreases |b|
  {
    if b == [] {
      ConcatInit(a, [s]);
      assert a + [s] + b == a + [s];
      AddonAllVideosLastFails(up, id, a + [s]);
    } else {
      ConcatInit(a + [s], b);
      AddonSeasonFailureLosesAll(up, id, a, s, b[..|b| - 1]);
      AddonAllVideosInitFails(up, id, a + [s] + b);
    }
  }

  lemma AddonAllVideosLastFails(up: Upstream, id: string, c: seq<SeasonItem>)
    requires c != [] && AddonSeasonVideos(up, id, c[|c| - 1]).None?
    ensures AddonAllVideos(up, id, c).None?
  {
  }

  lemma AddonAllVideosInitFails(up: Upstream, id: string, c: seq<SeasonItem>)
    requires c != [] && AddonAllVideos(up, id, c[..|c| - 1]).None?
    ensures AddonAllVideos(up, id, c).None?
  {
  }

  /** Videos are kept in scan order: the season loop distributes over concatenation when nothing fails. */
  lemma {:induction false} AddonAllVideosConcat(up: Upstream, id: string, a: seq<SeasonItem>, b: seq<SeasonItem>)
    requires AddonAllVideos(up, id, a).Some? && AddonAllVideos(up, id, b).Some?
    ensures AddonAllVideos(up, id, a + b) == Some(AddonAllVideos(up, id, a).value + AddonAllVideos(up, id, b).value)
  {
    if b == [] {
      assert a + b == a;
      assert AddonAllVideos(up, id, b) == Some([]);
      assert AddonAllVideos(up, id, a).value + [] == AddonAllVideos(up, id, a).value;
    } else {
      var b0, s := b[..|b| - 1], b[|b| - 1];
      AddonAllVideosLast(up, id, b);
      AddonAllVideosConcat(up, id, a, b0);
      ConcatInit(a, b);
      var va, v0, ws := AddonAllVideos(up, id, a).value, AddonAllVideos(up, id, b0).value, AddonSeasonVideos(up, id, s).value;
      ConcatAssoc(va, v0, ws);
    }
  }

  lemma AddonAllVideosLast(up: Upstream, id: string, b: seq<SeasonItem>)
    requires b != [] && AddonAllVideos(up, id, b).Some?
    ensures AddonAllVideos(up, id, b[..|b| - 1]).Some? && AddonSeasonVideos(up, id, b[|b| - 1]).Some?
    ensures AddonAllVideos(up, id, b).value == AddonAllVideos(up, id, b[..|b| - 1]).value + AddonSeasonVideos(up, id, b[|b| - 1]).value
  {
  }

  lemma ConcatAssoc<T>(x: seq<T>, y: seq<T>, z: seq<T>)
    ensures x + y + z == x + (y + z)
  {
  }

  lemma ConcatInit<T>(a: seq<T>, b: seq<T>)
    requires b != []
    ensures (a + b)[..|a + b| - 1] == a + b[..|b| - 1] && (a + b)[|a + b| - 1] == b[|b| - 1]
  {
  }

  /** The meta handler: any failure fetching the detail page becomes `Content not found`. */
  function AddonMetaOf(up: Upstream, requestType: string, id: string): (r: AddonMetaReply)
    ensures r == ContentNotFound <==> up.detail(Meta.DetailPageUrl(id)).None?
    ensures r.AddonMetaOk? ==> r.meta.id == id && r.meta.contentType == requestType
    ensures r.AddonMetaOk? ==>
      (var d := up.detail(Meta.DetailPageUrl(id)).value;
       r.meta.name == d.name && r.meta.poster == d.poster && r.meta.description == d.description
       && r.meta.imdbRating == AddonImdbRating(d.imdb) && r.meta.trailer == Defined(d.trailer))
    ensures r.AddonMetaOk? ==>
      (var d := up.detail(Meta.DetailPageUrl(id)).value;
       var seasons := up.seasonList(SeasonListUrl(d.watchDataId));
       (r.meta.videos.Some? <==>
          requestType == "series" && Truthy(d.watchDataId) && seasons.Some? && AddonAllVideos(up, id, seasons.value).Some?)
       && (r.meta.videos.Some? ==> r.meta.videos == AddonAllVideos(up, id, seasons.value)))
  {
    match up.detail(Meta.DetailPageUrl(id))
    case None => ContentNotFound
    case Some(d) =>
      var meta := AddonMeta(id, requestType, d.name, d.poster, d.description, AddonImdbRating(d.imdb), Defined(d.trailer), None);
      if requestType == "series" && Truthy(d.watchDataId) then
        match up.seasonList(SeasonListUrl(d.watchDataId))
        case None => AddonMetaOk(meta)
        case Some(seasons) =>
          match AddonAllVideos(up, id, seasons)
          case None => AddonMetaOk(meta)
          case Some(vs) => AddonMetaOk(meta.(videos := Some(vs)))
      else AddonMetaOk(meta)
  }

  /** Unlike api/meta.js, the videos are set even when none was found. */
  lemma AddonVideosAlwaysSet(up: Upstream, id: string, d: DetailPage)
    requires up.detail(Meta.DetailPageUrl(id)) == Some(d) && Truthy(d.watchDataId)
    requires up.seasonList(SeasonListUrl(d.watchDataId)) == Some([])
    ensures AddonMetaOf(up, "series", id).meta.videos == Some([])
  {
  }

  // ------------------------------------------------------------------ stream

  /** The series path: no data-id check, the addon's season label, and every failure thrown (`None`). */
  function AddonSeriesServers(up: Upstream, parts: seq<string>): (r: Option<string>)
    ensures r.Some? <==>
      (up.detail(DetailUrl(Part(parts, 1), Part(parts, 2))).Some?
       && var d := up.detail(DetailUrl(Part(parts, 1), Part(parts, 2))).value;
       up.seasonList(SeasonListUrl(d.watchDataId)).Some?
       && var e := Stream.EpisodeDataId(up, up.seasonList(SeasonListUrl(d.watchDataId)).value, AddonSeasonLabel, Part(parts, 3), Part(parts, 4));
       e.Some? && Truthy(e.value) && r == Some(EpisodeServersUrl(e.value)))
  {
    match up.detail(DetailUrl(Part(parts, 1), Part(parts, 2)))
    case None => None
    case Some(d) =>
      match up.seasonList(SeasonListUrl(d.watchDataId))
      case None => None
      case Some(seasons) =>
        match Stream.EpisodeDataId(up, seasons, AddonSeasonLabel, Part(parts, 3), Part(parts, 4))
        case None => None
        case Some(episodeDataId) =>
          if !Truthy(episodeDataId) then None else Some(EpisodeServersUrl(episodeDataId))
  }

  /** The server-list URL: a movie's comes straight from the id's third field, with no detail-page lookup. */
  function AddonServersUrl(up: Upstream, requestType: string, parts: seq<string>): (r: Option<string>)
    ensures requestType == "movie" ==> r == Some(MovieServersUrl(Part(parts, 2)))
  {
    if requestType == "movie" then Some(MovieServersUrl(Part(parts, 2))) else AddonSeriesServers(up, parts)
  }

  /**
   * The videostr branch in addon.js's order: the key is fetched before the video data is checked,
   * and an empty decryption is not checked but makes `JSON.parse` throw.
   */
  function AddonVideostrStreams(p: Primitives, up: Upstream, acc: seq<Stream.Descriptor>, link: string): (r: seq<Stream.Descriptor>)
    ensures Stream.Extends(acc, r)
    ensures |acc| > 0 && |r| > |acc| ==> r[|acc| - 1] == acc[|acc| - 1]
    ensures forall i :: |acc| <= i < |r| ==> r[i].title == "MyFlixer - HLS" && r[i].notWebReady
  {
    match up.video(VideoSourcesUrl(Stream.VideoId(link)))
    case None => acc
    case Some(video) =>
      match up.keys(KEYS_URL)
      case None => acc
      case Some(keys) =>
        if !(Truthy(keys.vidstr) && Truthy(video.sources)) then acc
        else
          match JsonParseSources(p, DecryptOpenSSL(p, video.sources.value, keys.vidstr.value))
          case None => acc
          case Some(entries) => Stream.SourcesStreams(acc, entries, video.tracks)
  }

  /** One server entry: `data-linkid || data-id` is requested whatever it is, with no skip. */
  function AddonLinkStreams(p: Primitives, up: Upstream, acc: seq<Stream.Descriptor>, item: LinkItem): (r: seq<Stream.Descriptor>)
    ensures Stream.Extends(acc, r)
    ensures |acc| > 0 && |r| > |acc| ==> r[|acc| - 1] == acc[|acc| - 1]
  {
    match up.source(SourceUrl(if Truthy(item.linkId) then item.linkId else item.dataId))
    case None => acc
    case Some(data) =>
      if !Truthy(data.link) then acc
      else if Contains(data.link.value, VIDEOSTR_HOST) then AddonVideostrStreams(p, up, acc, data.link.value)
      else acc + [Stream.Direct(data.link.value)]
  }

  /** The server loop of addon.js, starting from `acc`. */
  function AddonCollect(p: Primitives, up: Upstream, acc: seq<Stream.Descriptor>, items: seq<LinkItem>): (r: seq<Stream.Descriptor>)
    ensures Stream.Extends(acc, r)
  {
    if items == [] then acc
    else
      var before := AddonCollect(p, up, acc, items[..|items| - 1]);
      var r := AddonLinkStreams(p, up, before, items[|items| - 1]);
      Stream.ExtendsTrans(acc, before, r);
      r
  }

  /** The two orders of the videostr checks have the same outcome. */
  lemma AddonVideostrAgrees(p: Primitives, up: Upstream, acc: seq<Stream.Descriptor>, link: string)
    ensures AddonVideostrStreams(p, up, acc, link) == Stream.VideostrStreams(p, up, acc, link)
  {
  }

  /** addon.js's server loop is api/stream.js's loop without the link-id skip. */
  lemma {:induction false} AddonCollectAgrees(p: Primitives, up: Upstream, acc: seq<Stream.Descriptor>, items: seq<LinkItem>)
    ensures AddonCollect(p, up, acc, items) == Stream.CollectFrom(p, up, Stream.RequestAnyway, acc, items)
  {
    if items != [] {
      var before := AddonCollect(p, up, acc, items[..|items| - 1]);
      AddonCollectAgrees(p, up, acc, items[..|items| - 1]);
      match up.source(SourceUrl(if Truthy(items[|items| - 1].linkId) then items[|items| - 1].linkId else items[|items| - 1].dataId))
      case None =>
      case Some(data) =>
        if Truthy(data.link) && Contains(data.link.value, VIDEOSTR_HOST) {
          AddonVideostrAgrees(p, up, before, data.link.value);
        }
    }
  }

  /** A videostr link whose decryption comes back empty is dropped, and the other links contribute as if it were absent. */
  lemma EmptyDecryptionDropsLink(p: Primitives, up: Upstream, acc: seq<Stream.Descriptor>, a: seq<LinkItem>, item: LinkItem,
                                 b: seq<LinkItem>, link: string, video: VideoData, keys: KeyDoc)
    requires up.source(SourceUrl(if Truthy(item.linkId) then item.linkId else item.dataId)) == Some(SourceData(Some(link)))
    requires link != "" && Contains(link, VIDEOSTR_HOST)
    requires up.video(VideoSourcesUrl(Stream.VideoId(link))) == Some(video) && Truthy(video.sources)
    requires up.keys(KEYS_URL) == Some(keys) && Truthy(keys.vidstr)
    requires DecryptOpenSSL(p, video.sources.value, keys.vidstr.value) == ""
    ensures AddonCollect(p, up, acc, a + [item] + b) == AddonCollect(p, up, acc, a + b)
  {
    var rule := Stream.RequestAnyway;
    AddonCollectAgrees(p, up, acc, a + [item] + b);
    AddonCollectAgrees(p, up, acc, a + b);
    var mid := Stream.CollectFrom(p, up, rule, acc, a);
    EmptyDecryptionSkipsItem(p, up, mid, item, link, video, keys);
    Stream.CollectConcat(p, up, rule, acc, a, [item]);
    assert Stream.CollectFrom(p, up, rule, acc, a + [item]) == mid;
    Stream.CollectConcat(p, up, rule, acc, a + [item], b);
    Stream.CollectConcat(p, up, rule, acc, a, b);
  }

  lemma EmptyDecryptionSkipsItem(p: Primitives, up: Upstream, acc: seq<Stream.Descriptor>, item: LinkItem,
                                 link: string, video: VideoData, keys: KeyDoc)
    requires up.source(SourceUrl(if Truthy(item.linkId) then item.linkId else item.dataId)) == Some(SourceData(Some(link)))
    requires link != "" && Contains(link, VIDEOSTR_HOST)
    requires up.video(VideoSourcesUrl(Stream.VideoId(link))) == Some(video) && Truthy(video.sources)
    requires up.keys(KEYS_URL) == Some(keys) && Truthy(keys.vidstr)
    requires DecryptOpenSSL(p, video.sources.value, keys.vidstr.value) == ""
    ensures Stream.CollectFrom(p, up, Stream.RequestAnyway, acc, [item]) == acc
  {
    assert [item][..0] == [];
    Stream.EmptyDecryptionAppendsNothing(p, up, acc, link, video, keys);
    assert Stream.LinkStreams(p, up, Stream.RequestAnyway, acc, item) == acc;
  }

  /** The stream handler, element reads corrected to their own documents; every failure yields no streams. */
  function AddonStreams(p: Primitives, up: Upstream, requestType: string, id: string): (r: seq<Stream.Descriptor>)
    ensures Stream.AllShaped(r)
    ensures var url := AddonServersUrl(up, requestType, Split(id, ':'));
      url.Some? && up.serverList(url.value).Some? ==>
        r == Stream.CollectFrom(p, up, Stream.RequestAnyway, [], up.serverList(url.value).value)
    ensures var url := AddonServersUrl(up, requestType, Split(id, ':'));
      url.None? || up.serverList(url.value).None? ==> r == []
  {
    match AddonServersUrl(up, requestType, Split(id, ':'))
    case None => []
    case Some(url) =>
      match up.serverList(url)
      case None => []
      case Some(items) =>
        Stream.CollectShaped(p, up, Stream.RequestAnyway, [], items);
        AddonCollectAgrees(p, up, [], items);
        AddonCollect(p, up, [], items)
  }

  /** An episode that is not found throws `Episode not found`, which the handler answers with no streams. */
  lemma EpisodeNotFoundIsEmpty(p: Primitives, up: Upstream, requestType: string, id: string, d: DetailPage, seasons: seq<SeasonItem>)
    requires requestType != "movie"
    requires var parts := Split(id, ':'); up.detail(DetailUrl(Part(parts, 1), Part(parts, 2))) == Some(d)
    requires up.seasonList(SeasonListUrl(d.watchDataId)) == Some(seasons)
    requires var parts := Split(id, ':'); Stream.EpisodeDataId(up, seasons, AddonSeasonLabel, Part(parts, 3), Part(parts, 4)) == Some(None)
    ensures AddonStreams(p, up, requestType, id) == []
  {
  }

  /** The handler as addon.js runs it, with the corrected element reads. */
  method AddonStreamHandler(p: Primitives, up: Upstream, requestType: string, id: string) returns (streams: seq<Stream.Descriptor>)
    ensures streams == AddonStreams(p, up, requestType, id)
  {
    var parts := Split(id, ':');
    var dataUrl: string;
    if requestType == "movie" {
      dataUrl := MovieServersUrl(Part(parts, 2));
    } else {
      var page := up.detail(DetailUrl(Part(parts, 1), Part(parts, 2)));
      if page.None? {
        return [];
      }
      var seasons := up.seasonList(SeasonListUrl(page.value.watchDataId));
      if seasons.None? {
        return [];
      }
      var episodeDataId := Stream.FindEpisodeDataId(up, seasons.value, AddonSeasonLabel, Part(parts, 3), Part(parts, 4));
      if episodeDataId.None? || !Truthy(episodeDataId.value) {
        return [];
      }
      dataUrl := EpisodeServersUrl(episodeDataId.value);
    }
    var items := up.serverList(dataUrl);
    if items.None? {
      return [];
    }
    streams := Stream.CollectStreams(p, up, Stream.RequestAnyway, items.value);
    AddonCollectAgrees(p, up, [], items.value);
  }

  /** A link with neither id is still requested, at `.../sources/undefined`. */
  lemma MissingLinkIdRequested(p: Primitives, up: Upstream, acc: seq<Stream.Descriptor>, link: string)
    requires up.source(SourceUrl(None)) == Some(SourceData(Some(link)))
    requires link != "" && !Contains(link, VIDEOSTR_HOST)
    ensures SourceUrl(None) == BASE_URL + "/ajax/episode/sources/undefined"
    ensures AddonLinkStreams(p, up, acc, LinkItem(None, None)) == acc + [Stream.Direct(link)]
    ensures Stream.LinkStreams(p, up, Stream.SkipMissingId, acc, LinkItem(None, None)) == acc
  {
  }

  // ------------------------------------------------------------- as written

  /** The series path as addon.js is written: `$` is unbound, so the first season entry throws, and an empty list throws `Episode not found`. */
  function AddonSeriesServersAsWritten(up: Upstream, parts: seq<string>): (r: Option<string>)
    ensures r.None?
  {
    match up.detail(DetailUrl(Part(parts, 1), Part(parts, 2)))
    case None => None
    case Some(d) =>
      match up.seasonList(SeasonListUrl(d.watchDataId))
      case None => None
      case Some(seasons) => None
  }

  /** addon.js as written: the first server entry also goes through the unbound `$`; the error is caught and answered with no streams. */
  function AddonStreamsAsWritten(up: Upstream, requestType: string, id: string): (r: seq<Stream.Descriptor>)
    ensures r == []
  {
    var parts := Split(id, ':');
    var dataUrl := if requestType == "movie" then Some(MovieServersUrl(Part(parts, 2))) else AddonSeriesServersAsWritten(up, parts);
    match dataUrl
    case None => []
    case Some(url) =>
      match up.serverList(url)
      case None => []
      case Some(_) => []  // an empty list pushes nothing; a non-empty one throws the caught `ReferenceError`
  }

  /** A movie with one direct link: the corrected handler returns it, the code as written nothing. */
  lemma AddonAsWrittenLosesDirectLink(p: Primitives, slug: string)
    requires ':' !in slug
    ensures AddonStreams(p, Stream.DirectLinkSite(), "movie", "myflixer:movie:" + slug) == [Stream.Direct("v.mp4")]
    ensures AddonStreamsAsWritten(Stream.DirectLinkSite(), "movie", "myflixer:movie:" + slug) == []
  {
    var site := Stream.DirectLinkSite();
    var items := [LinkItem(Some("7"), None)];
    var parts := Split("myflixer:movie:" + slug, ':');
    Stream.MovieIdParts(slug);
    assert Part(parts, 2) == Some(slug);
    assert AddonServersUrl(site, "movie", parts) == Some(MovieServersUrl(Some(slug)));
    assert site.serverList(MovieServersUrl(Some(slug))) == Some(items);
    Stream.DirectLinkSiteLinks(p, Stream.RequestAnyway);
    AddonCollectAgrees(p, site, [], items);
  }
}
