/**
 * api/stream.js: from a composite id to the list of stream descriptors. The handler finds the
 * server list (directly for a movie, through the season and episode scans for a series), then
 * folds over the server links, each link isolated by its own `try`.
 */
module Stream {
  import opened Wrappers
  import opened JsString
  import opened Foreign
  import opened Upstream
  import opened Utils
  import opened EpisodeLabel

  // ------------------------------------------------------------- descriptors

  /** One subtitle entry: the track's `file` and `label`. */
  datatype Subtitle = Subtitle(url: Option<string>, lang: Option<string>)

  /** One stream descriptor; `notWebReady == false` stands for the hint being absent. */
  datatype Descriptor = Descriptor(
    name: string, title: string, url: string, bingeGroup: string, notWebReady: bool,
    subtitles: Option<seq<Subtitle>>)

  /** The descriptor of a direct (non-videostr) link. */
  function Direct(link: string): Descriptor {
    Descriptor("MyFlixer", "MyFlixer - Direct", link, "myflixer", false, None)
  }

  /** The descriptor of one decrypted `hls` source. */
  function Hls(file: string): Descriptor {
    Descriptor("MyFlixer", "MyFlixer - HLS", file, "myflixer", true, None)
  }

  /** Every descriptor the handler builds is a direct or an HLS one with a non-empty URL, and holds subtitles only when there is at least one. */
  predicate Shaped(d: Descriptor) {
    d.name == "MyFlixer" && d.bingeGroup == "myflixer" && d.url != "" &&
    ((d.title == "MyFlixer - Direct" && !d.notWebReady) || (d.title == "MyFlixer - HLS" && d.notWebReady)) &&
    (d.subtitles.Some? ==> |d.subtitles.value| > 0)
  }

  predicate AllShaped(ds: seq<Descriptor>) {
    forall i :: 0 <= i < |ds| ==> Shaped(ds[i])
  }

  /**
   * `r` grows `acc` the way one or more links may: nothing before the last element of `acc` changes,
   * the last one changes at most in its `subtitles`, and the rest is appended.
   */
  predicate Extends(acc: seq<Descriptor>, r: seq<Descriptor>) {
    |r| >= |acc| &&
    (forall i :: 0 <= i < |acc| - 1 ==> r[i] == acc[i]) &&
    (|acc| > 0 ==> r[|acc| - 1] == acc[|acc| - 1].(subtitles := r[|acc| - 1].subtitles))
  }

  lemma ExtendsTrans(a: seq<Descriptor>, b: seq<Descriptor>, c: seq<Descriptor>)
    requires Extends(a, b) && Extends(b, c)
    ensures Extends(a, c)
  {
    if |a| > 0 && |b| > |a| {
      assert c[|a| - 1] == b[|a| - 1];
    }
  }

  // ----------------------------------------------------------------- ids

  /** A composite id `myflixer:<type>:<slug>:<season>:<episode>` splits into its five fields. */
  lemma CompositeIdParts(contentType: string, slug: string, season: string, episode: string)
    requires ':' !in contentType && ':' !in slug && ':' !in season && ':' !in episode
    ensures Split("myflixer:" + contentType + ":" + slug + ":" + season + ":" + episode, ':')
      == ["myflixer", contentType, slug, season, episode]
  {
    var s4 := season + [':'] + episode;
    var s3 := slug + [':'] + s4;
    var s2 := contentType + [':'] + s3;
    var s1 := "myflixer" + [':'] + s2;
    SplitNoSep(episode, ':');
    SplitFirst(season, ':', episode);
    assert Split(s4, ':') == [season, episode];
    SplitFirst(slug, ':', s4);
    assert Split(s3, ':') == [slug, season, episode];
    SplitFirst(contentType, ':', s3);
    assert Split(s2, ':') == [contentType, slug, season, episode];
    SplitFirst("myflixer", ':', s2);
    assert Split(s1, ':') == ["myflixer", contentType, slug, season, episode];
    CompositeIdText(contentType, slug, season, episode);
  }

  lemma CompositeIdText(contentType: string, slug: string, season: string, episode: string)
    ensures "myflixer" + [':'] + (contentType + [':'] + (slug + [':'] + (season + [':'] + episode)))
      == "myflixer:" + contentType + ":" + slug + ":" + season + ":" + episode
  {
  }

  /** `data-linkid || data-id`; `None` when the result is falsy and the link is skipped. */
  function LinkId(item: LinkItem): (r: Option<string>)
    ensures r.Some? <==> Truthy(item.linkId) || Truthy(item.dataId)
    ensures Truthy(item.linkId) ==> r == item.linkId
    ensures !Truthy(item.linkId) ==> r == Defined(item.dataId)
  {
    if Truthy(item.linkId) then item.linkId else Defined(item.dataId)
  }

  /** `link.split('/').pop().split('?')[0]`. */
  function VideoId(link: string): (r: string)
    ensures '?' !in r
  {
    SplitSound(LastSegment(link), '?');
    Split(LastSegment(link), '?')[0]
  }

  /** The video id is the last path segment, without its query string. */
  lemma VideoIdOf(prefix: string, id: string, query: string)
    requires '/' !in id && '?' !in id && '/' !in query
    ensures VideoId(prefix + "/" + id + "?" + query) == id
    ensures VideoId(prefix + "/" + id) == id
  {
    assert '/' !in id + "?" + query by {
      forall i | 0 <= i < |id + "?" + query| ensures (id + "?" + query)[i] != '/' {
        if i < |id| {
          assert (id + "?" + query)[i] == id[i];
        } else if i > |id| {
          assert (id + "?" + query)[i] == query[i - |id| - 1];
        }
      }
    }
    assert prefix + "/" + id + "?" + query == prefix + "/" + (id + "?" + query);
    LastSegmentOf(prefix, id + "?" + query);
    assert id + "?" + query == id + ['?'] + query;
    SplitFirst(id, '?', query);
    SplitNoSep(id, '?');
    LastSegmentOf(prefix, id);
  }

  // ------------------------------------------------------- season and episode

  /** The label the season scan compares: first `Season ` removed, then the first `Series`, then trimmed. */
  function SeasonLabel(text: string): (r: string)
    ensures r == [] || (!IsSpace(r[0]) && !IsSpace(r[|r| - 1]))
    ensures |r| <= |text|
  {
    ReplaceFirstShorter(text, "Season ", "");
    ReplaceFirstShorter(ReplaceFirst(text, "Season ", ""), "Series", "");
    Trim(ReplaceFirst(ReplaceFirst(text, "Season ", ""), "Series", ""))
  }

  /** `Season <n>` is labelled `<n>`. */
  lemma SeasonLabelOf(n: string)
    requires |n| >= 1 && AllDigits(n)
    ensures SeasonLabel("Season " + n) == n
  {
    ReplaceFirstAtStart("Season ", n, "");
    EmptyPrefix(n);
    SeasonLabelOfStripped("Season " + n, n);
  }

  lemma SeasonLabelOfStripped(text: string, n: string)
    requires |n| >= 1 && AllDigits(n)
    requires ReplaceFirst(text, "Season ", "") == n
    ensures SeasonLabel(text) == n
  {
    ReplaceFirstInDigits(n, "Series", "");
    TrimDigits(n);
  }

  /** A trailing blank is trimmed: `Season <n> ` is still labelled `<n>`. */
  lemma SeasonLabelTrailingSpace(n: string)
    requires |n| >= 1 && AllDigits(n)
    ensures SeasonLabel("Season " + n + " ") == n
  {
    assert "Season " + n + " " == "Season " + (n + " ");
    ReplaceFirstAtStart("Season ", n + " ", "");
    EmptyPrefix(n + " ");
    SeasonLabelOfSpaced("Season " + n + " ", n);
  }

  lemma SeasonLabelOfSpaced(text: string, n: string)
    requires |n| >= 1 && AllDigits(n)
    requires ReplaceFirst(text, "Season ", "") == n + " "
    ensures SeasonLabel(text) == n
  {
    assert 'S' !in n + " " by {
      forall j | 0 <= j < |n + " "| ensures (n + " ")[j] != 'S' {
        if j < |n| {
          assert IsDigit(n[j]);
        }
      }
    }
    ReplaceFirstMissing(n + " ", "Series", "");
    TrimDigitsSpace(n);
  }

  /** The first season at or after `i` whose label equals the requested season number. */
  function FirstSeason(seasons: seq<SeasonItem>, labelOf: string -> string, seasonNum: Option<string>, i: nat): (r: Option<nat>)
    requires i <= |seasons|
    decreases |seasons| - i
    ensures r.Some? ==> i <= r.value < |seasons| && Some(labelOf(seasons[r.value].text)) == seasonNum
    ensures r.Some? ==> forall j :: i <= j < r.value ==> Some(labelOf(seasons[j].text)) != seasonNum
    ensures r.None? ==> forall j :: i <= j < |seasons| ==> Some(labelOf(seasons[j].text)) != seasonNum
  {
    if i == |seasons| then None
    else if Some(labelOf(seasons[i].text)) == seasonNum then Some(i)
    else FirstSeason(seasons, labelOf, seasonNum, i + 1)
  }

  /** How the `.each` over a season's episodes ends. */
  datatype EpisodeScan =
    | Matched(index: nat)     // `return false` at this row
    | Unmatched               // every row visited, none matched
    | Crashed(index: nat)     // this row has no `title`: `undefined.match` throws

  /** The row's title matches `Eps (\d+):` and the digits are string-equal to the requested episode. */
  predicate EpisodeMatches(e: EpisodeItem, epNum: Option<string>)
    requires e.title.Some?
  {
    var m := MatchNumber(e.title.value);
    m.Some? && Some(m.value) == epNum
  }

  /** The episode scan from row `i`. */
  function ScanEpisodes(eps: seq<EpisodeItem>, epNum: Option<string>, i: nat): (r: EpisodeScan)
    requires i <= |eps|
    decreases |eps| - i
    ensures r.Matched? ==> i <= r.index < |eps| && eps[r.index].title.Some? && EpisodeMatches(eps[r.index], epNum)
    ensures r.Crashed? ==> i <= r.index < |eps| && eps[r.index].title.None?
    ensures r.Matched? || r.Crashed? ==>
      forall j :: i <= j < r.index ==> eps[j].title.Some? && !EpisodeMatches(eps[j], epNum)
    ensures r.Unmatched? ==> forall j :: i <= j < |eps| ==> eps[j].title.Some? && !EpisodeMatches(eps[j], epNum)
  {
    if i == |eps| then Unmatched
    else if eps[i].title.None? then Crashed(i)
    else if EpisodeMatches(eps[i], epNum) then Matched(i)
    else ScanEpisodes(eps, epNum, i + 1)
  }

  /**
   * `episodeDataId` after the season loop: `Some(None)` when it stays `null` (or the matched row has
   * no data-id), `None` when the scan throws (the episode fetch fails or a row has no title).
   */
  function EpisodeDataId(up: Upstream, seasons: seq<SeasonItem>, labelOf: string -> string,
                         seasonNum: Option<string>, epNum: Option<string>): Option<Option<string>>
  {
    match FirstSeason(seasons, labelOf, seasonNum, 0)
    case None => Some(None)
    case Some(k) =>
      match up.episodeList(SeasonEpisodesUrl(seasons[k].dataId))
      case None => None
      case Some(eps) =>
        match ScanEpisodes(eps, epNum, 0)
        case Matched(j) => Some(eps[j].dataId)
        case Unmatched => Some(None)
        case Crashed(_) => None
  }

  /** Only the first season with the requested label is examined: later seasons, matching or not, are never fetched. */
  lemma OnlyFirstSeason(up: Upstream, seasons: seq<SeasonItem>, later: seq<SeasonItem>, labelOf: string -> string,
                        seasonNum: Option<string>, epNum: Option<string>)
    requires FirstSeason(seasons, labelOf, seasonNum, 0).Some?
    ensures EpisodeDataId(up, seasons + later, labelOf, seasonNum, epNum) == EpisodeDataId(up, seasons, labelOf, seasonNum, epNum)
  {
    var k := FirstSeason(seasons, labelOf, seasonNum, 0).value;
    FirstSeasonPrefix(seasons, later, labelOf, seasonNum, 0);
    assert (seasons + later)[k] == seasons[k];
  }

  lemma {:induction false} FirstSeasonPrefix(seasons: seq<SeasonItem>, later: seq<SeasonItem>, labelOf: string -> string,
                                             seasonNum: Option<string>, i: nat)
    requires i <= |seasons|
    requires FirstSeason(seasons, labelOf, seasonNum, i).Some?
    ensures FirstSeason(seasons + later, labelOf, seasonNum, i) == FirstSeason(seasons, labelOf, seasonNum, i)
    decreases |seasons| - i
  {
    assert (seasons + later)[i] == seasons[i];
    if Some(labelOf(seasons[i].text)) != seasonNum {
      FirstSeasonPrefix(seasons, later, labelOf, seasonNum, i + 1);
    }
  }

  // ----------------------------------------------------------- one link

  /** The descriptors the `for (source of sources)` loop pushes, and whether it ran to the end (a `null` source throws). */
  function HlsSources(entries: seq<SourceEntry>): (r: (seq<Descriptor>, bool))
    ensures r.1 <==> NullSource !in entries
    ensures |r.0| <= |entries|
    ensures forall i :: 0 <= i < |r.0| ==> r.0[i] == Hls(r.0[i].url) && r.0[i].url != ""
  {
    if entries == [] then ([], true)
    else
      match entries[0]
      case NullSource => ([], false)
      case SourceObject(file, sourceType) =>
        var rest := HlsSources(entries[1..]);
        assert entries == [entries[0]] + entries[1..];
        ((if Truthy(file) && sourceType == Some("hls") then [Hls(file.value)] else []) + rest.0, rest.1)
  }

  /** Sources are taken in order: the pushes of a null-free front part come first. */
  lemma {:induction false} HlsSourcesConcat(a: seq<SourceEntry>, b: seq<SourceEntry>)
    requires NullSource !in a
    ensures HlsSources(a + b) == (HlsSources(a).0 + HlsSources(b).0, HlsSources(b).1)
  {
    if a == [] {
      assert a + b == b;
      assert HlsSources(a) == ([], true);
      assert [] + HlsSources(b).0 == HlsSources(b).0;
    } else {
      assert (a + b)[0] == a[0];
      assert a[0] in a;
      assert (a + b)[1..] == a[1..] + b;
      assert forall x :: x in a[1..] ==> x in a;
      HlsSourcesConcat(a[1..], b);
      var push := match a[0]
        case SourceObject(file, sourceType) => if Truthy(file) && sourceType == Some("hls") then [Hls(file.value)] else []
        case NullSource => [];
      assert HlsSources(a).0 == push + HlsSources(a[1..]).0;
      assert HlsSources(a + b).0 == push + HlsSources(a[1..] + b).0;
      assert push + (HlsSources(a[1..]).0 + HlsSources(b).0) == push + HlsSources(a[1..]).0 + HlsSources(b).0;
    }
  }

  /** One source object pushes a descriptor exactly when its `file` is truthy and its `type` is `hls`. */
  lemma HlsSourceOne(file: Option<string>, sourceType: Option<string>)
    ensures HlsSources([SourceObject(file, sourceType)])
      == (if Truthy(file) && sourceType == Some("hls") then [Hls(file.value)] else [], true)
  {
    var s := [SourceObject(file, sourceType)];
    assert s[1..] == [];
    assert HlsSources(s[1..]) == ([], true);
    var push := if Truthy(file) && sourceType == Some("hls") then [Hls(file.value)] else [];
    assert push + [] == push;
  }

  predicate IsSubtitleTrack(kind: Option<string>) {
    kind == Some("captions") || kind == Some("subtitles")
  }

  /** `tracks.filter(kind is captions or subtitles).map(...)`; `None` when a `null` track makes the filter throw. */
  function SubtitleTracks(tracks: seq<Track>): (r: Option<seq<Subtitle>>)
    ensures r.None? <==> NullTrack in tracks
    ensures r.Some? ==> |r.value| <= |tracks|
  {
    if tracks == [] then Some([])
    else
      match tracks[0]
      case NullTrack => None
      case Track(kind, file, trackLabel) =>
        assert tracks == [tracks[0]] + tracks[1..];
        match SubtitleTracks(tracks[1..])
        case None => None
        case Some(rest) => Some((if IsSubtitleTrack(kind) then [Subtitle(file, trackLabel)] else []) + rest)
  }

  /** `streams[streams.length - 1].subtitles = subtitles` when both lists are non-empty. */
  function AttachLast(streams: seq<Descriptor>, subs: seq<Subtitle>): (r: seq<Descriptor>)
    ensures |r| == |streams|
    ensures forall i :: 0 <= i < |streams| - 1 ==> r[i] == streams[i]
    ensures |streams| > 0 && |subs| > 0 ==> r[|r| - 1] == streams[|streams| - 1].(subtitles := Some(subs))
    ensures |streams| == 0 || |subs| == 0 ==> r == streams
  {
    if |subs| > 0 && |streams| > 0 then streams[|streams| - 1 := streams[|streams| - 1].(subtitles := Some(subs))]
    else streams
  }

  /** The `if (videoData.tracks)` block; it is reached only when the sources loop ran to the end. */
  function AddSubtitles(streams: seq<Descriptor>, tracks: Option<seq<Track>>): (r: seq<Descriptor>)
    ensures Extends(streams, r) && |r| == |streams|
  {
    match tracks
    case None => streams
    case Some(ts) =>
      match SubtitleTracks(ts)
      case None => streams
      case Some(subs) => AttachLast(streams, subs)
  }

  /** The videostr branch: video fetch, key fetch, decryption, source loop, subtitles; any failure keeps what was pushed so far. */
  function VideostrStreams(p: Primitives, up: Upstream, acc: seq<Descriptor>, link: string): (r: seq<Descriptor>)
    ensures Extends(acc, r)
    ensures |acc| > 0 && |r| > |acc| ==> r[|acc| - 1] == acc[|acc| - 1]
    ensures forall i :: |acc| <= i < |r| ==> r[i].title == "MyFlixer - HLS" && r[i].notWebReady
  {
    match up.video(VideoSourcesUrl(VideoId(link)))
    case None => acc
    case Some(video) =>
      if !Truthy(video.sources) then acc
      else
        match up.keys(KEYS_URL)
        case None => acc
        case Some(keys) =>
          if !Truthy(keys.vidstr) then acc
          else
            var plain := DecryptOpenSSL(p, video.sources.value, keys.vidstr.value);
            if plain == "" then acc
            else
              match JsonParseSources(p, plain)
              case None => acc
              case Some(entries) => SourcesStreams(acc, entries, video.tracks)
  }

  /** The sources loop followed by the subtitle block, which a `null` source skips by throwing. */
  function SourcesStreams(acc: seq<Descriptor>, entries: seq<SourceEntry>, tracks: Option<seq<Track>>): (r: seq<Descriptor>)
    ensures Extends(acc, r)
    ensures |acc| > 0 && |r| > |acc| ==> r[|acc| - 1] == acc[|acc| - 1]
    ensures forall i :: |acc| <= i < |r| ==> r[i].title == "MyFlixer - HLS" && r[i].notWebReady
  {
    var (pushed, completed) := HlsSources(entries);
    AddSubtitles(acc + pushed, if completed then tracks else None)
  }

  /** The `try` around one link: fetch its source, then follow the videostr branch or push a direct descriptor. */
  function SourceStreams(p: Primitives, up: Upstream, acc: seq<Descriptor>, linkId: Option<string>): (r: seq<Descriptor>)
    ensures Extends(acc, r)
    ensures |acc| > 0 && |r| > |acc| ==> r[|acc| - 1] == acc[|acc| - 1]
  {
    match up.source(SourceUrl(linkId))
    case None => acc
    case Some(data) =>
      if !Truthy(data.link) then acc
      else if Contains(data.link.value, VIDEOSTR_HOST) then VideostrStreams(p, up, acc, data.link.value)
      else acc + [Direct(data.link.value)]
  }

  /** api/stream.js skips a link without an id; addon.js requests it anyway, with the id rendered into the URL. */
  datatype LinkRule = SkipMissingId | RequestAnyway

  /** One iteration of the server loop. */
  function LinkStreams(p: Primitives, up: Upstream, rule: LinkRule, acc: seq<Descriptor>, item: LinkItem): (r: seq<Descriptor>)
    ensures Extends(acc, r)
    ensures |acc| > 0 && |r| > |acc| ==> r[|acc| - 1] == acc[|acc| - 1]
    ensures rule == SkipMissingId && LinkId(item).None? ==> r == acc
  {
    match rule
    case SkipMissingId => if LinkId(item).None? then acc else SourceStreams(p, up, acc, LinkId(item))
    case RequestAnyway => SourceStreams(p, up, acc, if Truthy(item.linkId) then item.linkId else item.dataId)
  }

  /** The accumulator after the server loop has visited `items`, starting from `acc`. */
  function CollectFrom(p: Primitives, up: Upstream, rule: LinkRule, acc: seq<Descriptor>, items: seq<LinkItem>): (r: seq<Descriptor>)
    ensures Extends(acc, r)
  {
    if items == [] then acc
    else
      var before := CollectFrom(p, up, rule, acc, items[..|items| - 1]);
      var r := LinkStreams(p, up, rule, before, items[|items| - 1]);
      ExtendsTrans(acc, before, r);
      r
  }

  // --------------------------------------------------- properties of the fold

  /** The server loop is a left fold: running it over `a + b` is running it over `a`, then over `b`. */
  lemma {:induction false} CollectConcat(p: Primitives, up: Upstream, rule: LinkRule, acc: seq<Descriptor>,
                                         a: seq<LinkItem>, b: seq<LinkItem>)
    ensures CollectFrom(p, up, rule, acc, a + b) == CollectFrom(p, up, rule, CollectFrom(p, up, rule, acc, a), b)
  {
    if b == [] {
      assert a + b == a;
    } else {
      var b0 := b[..|b| - 1];
      assert (a + b)[..|a + b| - 1] == a + b0;
      assert (a + b)[|a + b| - 1] == b[|b| - 1];
      CollectConcat(p, up, rule, acc, a, b0);
    }
  }

  /** A link that cannot contribute anything: skipped, or its source request throws. */
  predicate LinkFails(up: Upstream, rule: LinkRule, item: LinkItem) {
    match rule
    case SkipMissingId => LinkId(item).None? || up.source(SourceUrl(LinkId(item))).None?
    case RequestAnyway => up.source(SourceUrl(if Truthy(item.linkId) then item.linkId else item.dataId)).None?
  }

  /** Failure isolation: a failing link drops out and every other link contributes as if it were absent. */
  lemma FailingLinkIsolated(p: Primitives, up: Upstream, rule: LinkRule, acc: seq<Descriptor>,
                            a: seq<LinkItem>, item: LinkItem, b: seq<LinkItem>)
    requires LinkFails(up, rule, item)
    ensures CollectFrom(p, up, rule, acc, a + [item] + b) == CollectFrom(p, up, rule, acc, a + b)
  {
    CollectConcat(p, up, rule, acc, a + [item], b);
    CollectConcat(p, up, rule, acc, a, [item]);
    CollectConcat(p, up, rule, acc, a, b);
    var mid := CollectFrom(p, up, rule, acc, a);
    assert [item][..0] == [];
    assert CollectFrom(p, up, rule, mid, [item]) == LinkStreams(p, up, rule, mid, item);
  }

  /** Order follows the server list: whatever earlier links produced stays in front, changed at most in the last one's subtitles. */
  lemma EarlierLinksKept(p: Primitives, up: Upstream, rule: LinkRule, acc: seq<Descriptor>, a: seq<LinkItem>, b: seq<LinkItem>)
    ensures Extends(CollectFrom(p, up, rule, acc, a), CollectFrom(p, up, rule, acc, a + b))
  {
    CollectConcat(p, up, rule, acc, a, b);
  }

  /** A direct link appends exactly one direct descriptor and changes nothing else. */
  lemma DirectLinkAppends(p: Primitives, up: Upstream, acc: seq<Descriptor>, item: LinkItem, link: string)
    requires LinkId(item).Some?
    requires up.source(SourceUrl(LinkId(item))) == Some(SourceData(Some(link)))
    requires link != "" && !Contains(link, VIDEOSTR_HOST)
    ensures LinkStreams(p, up, SkipMissingId, acc, item) == acc + [Direct(link)]
  {
  }

  /** The inputs one videostr link sees when every step succeeds. */
  predicate VideostrSucceeds(p: Primitives, up: Upstream, link: string, video: VideoData, keys: KeyDoc,
                             plain: string, entries: seq<SourceEntry>) {
    up.video(VideoSourcesUrl(VideoId(link))) == Some(video) && Truthy(video.sources) &&
    up.keys(KEYS_URL) == Some(keys) && Truthy(keys.vidstr) &&
    DecryptOpenSSL(p, video.sources.value, keys.vidstr.value) == plain && plain != "" &&
    JsonParseSources(p, plain) == Some(entries)
  }

  /** A decrypted source list without null entries and without tracks appends one HLS descriptor per `hls` source, in order. */
  lemma VideostrAppendsSources(p: Primitives, up: Upstream, acc: seq<Descriptor>, link: string, video: VideoData,
                               keys: KeyDoc, plain: string, entries: seq<SourceEntry>)
    requires VideostrSucceeds(p, up, link, video, keys, plain, entries)
    requires NullSource !in entries && video.tracks.None?
    ensures VideostrStreams(p, up, acc, link) == acc + HlsSources(entries).0
  {
  }

  /** An empty decryption result appends nothing. */
  lemma EmptyDecryptionAppendsNothing(p: Primitives, up: Upstream, acc: seq<Descriptor>, link: string,
                                      video: VideoData, keys: KeyDoc)
    requires up.video(VideoSourcesUrl(VideoId(link))) == Some(video) && Truthy(video.sources)
    requires up.keys(KEYS_URL) == Some(keys) && Truthy(keys.vidstr)
    requires DecryptOpenSSL(p, video.sources.value, keys.vidstr.value) == ""
    ensures VideostrStreams(p, up, acc, link) == acc
  {
  }

  /**
   * The subtitle quirk: a videostr link whose sources yield no HLS descriptor but whose tracks
   * hold subtitles writes them onto the descriptor that is currently last, which an earlier link produced.
   */
  lemma SubtitlesGoToEarlierDescriptor(p: Primitives, up: Upstream, acc: seq<Descriptor>, link: string, video: VideoData,
                                       keys: KeyDoc, plain: string, entries: seq<SourceEntry>, subs: seq<Subtitle>)
    requires VideostrSucceeds(p, up, link, video, keys, plain, entries)
    requires HlsSources(entries) == ([], true)
    requires video.tracks.Some? && SubtitleTracks(video.tracks.value) == Some(subs)
    requires |acc| > 0 && |subs| > 0
    ensures VideostrStreams(p, up, acc, link)
      == acc[..|acc| - 1] + [acc[|acc| - 1].(subtitles := Some(subs))]
  {
    assert acc + [] == acc;
    var r := VideostrStreams(p, up, acc, link);
    assert r == AttachLast(acc, subs);
    assert r == acc[..|acc| - 1] + [acc[|acc| - 1].(subtitles := Some(subs))];
  }

  /** Every descriptor the fold produces is a well-formed direct or HLS descriptor. */
  lemma {:induction false} CollectShaped(p: Primitives, up: Upstream, rule: LinkRule, acc: seq<Descriptor>, items: seq<LinkItem>)
    requires AllShaped(acc)
    ensures AllShaped(CollectFrom(p, up, rule, acc, items))
  {
    if items != [] {
      var before := CollectFrom(p, up, rule, acc, items[..|items| - 1]);
      CollectShaped(p, up, rule, acc, items[..|items| - 1]);
      LinkShaped(p, up, rule, before, items[|items| - 1]);
    }
  }

  lemma LinkShaped(p: Primitives, up: Upstream, rule: LinkRule, acc: seq<Descriptor>, item: LinkItem)
    requires AllShaped(acc)
    ensures AllShaped(LinkStreams(p, up, rule, acc, item))
  {
    var linkId := match rule
      case SkipMissingId => LinkId(item)
      case RequestAnyway => if Truthy(item.linkId) then item.linkId else item.dataId;
    if !(rule == SkipMissingId && LinkId(item).None?) {
      SourceShaped(p, up, acc, linkId);
    }
  }

  lemma SourceShaped(p: Primitives, up: Upstream, acc: seq<Descriptor>, linkId: Option<string>)
    requires AllShaped(acc)
    ensures AllShaped(SourceStreams(p, up, acc, linkId))
  {
    match up.source(SourceUrl(linkId))
    case None =>
    case Some(data) =>
      if Truthy(data.link) && Contains(data.link.value, VIDEOSTR_HOST) {
        VideostrShaped(p, up, acc, data.link.value);
      }
  }

  lemma VideostrShaped(p: Primitives, up: Upstream, acc: seq<Descriptor>, link: string)
    requires AllShaped(acc)
    ensures AllShaped(VideostrStreams(p, up, acc, link))
  {
    match up.video(VideoSourcesUrl(VideoId(link)))
    case None =>
    case Some(video) =>
      if Truthy(video.sources) {
        match up.keys(KEYS_URL)
        case None =>
        case Some(keys) =>
          if Truthy(keys.vidstr) {
            var plain := DecryptOpenSSL(p, video.sources.value, keys.vidstr.value);
            if plain != "" {
              match JsonParseSources(p, plain)
              case None =>
              case Some(entries) =>
                var (pushed, completed) := HlsSources(entries);
                var s := acc + pushed;
                assert AllShaped(s) by {
                  forall i | 0 <= i < |s| ensures Shaped(s[i]) {
                    if i >= |acc| {
                      assert s[i] == pushed[i - |acc|];
                    }
                  }
                }
            }
          }
      }
  }

  // ---------------------------------------------------------------- handler

  datatype StreamReply =
    | StreamBadRequest                    // 400 Missing type or id parameter
    | StreamNotFound(message: string)     // 404 with `streams: []`
    | StreamServerError                   // 500 Failed to fetch streams, `streams: []`
    | StreamOk(streams: seq<Descriptor>)  // 200 { streams }

  /** Where the handler gets its server list from, or the reply it stops with. */
  datatype ServerStep = Servers(url: string) | Halt(reply: StreamReply)

  /** A movie: the detail page's watch `data-id` names the server list. */
  function MovieServers(up: Upstream, parts: seq<string>): (r: ServerStep)
    ensures r == Halt(StreamServerError) <==> up.detail(DetailUrl(Part(parts, 1), Part(parts, 2))).None?
    ensures r == Halt(StreamNotFound("Movie data not found")) <==>
      (up.detail(DetailUrl(Part(parts, 1), Part(parts, 2))).Some?
       && !Truthy(up.detail(DetailUrl(Part(parts, 1), Part(parts, 2))).value.watchDataId))
    ensures r.Servers? ==>
      (up.detail(DetailUrl(Part(parts, 1), Part(parts, 2))).Some?
       && r.url == MovieServersUrl(up.detail(DetailUrl(Part(parts, 1), Part(parts, 2))).value.watchDataId))
  {
    match up.detail(DetailUrl(Part(parts, 1), Part(parts, 2)))
    case None => Halt(StreamServerError)
    case Some(d) =>
      if !Truthy(d.watchDataId) then Halt(StreamNotFound("Movie data not found"))
      else Servers(MovieServersUrl(d.watchDataId))
  }

  /** A series episode: detail page, season list, the season scan and the episode scan. */
  function SeriesServers(up: Upstream, parts: seq<string>): (r: ServerStep)
    ensures r.Halt? ==> r.reply.StreamServerError? || r.reply.StreamNotFound?
    ensures r == Halt(StreamNotFound("Series data not found")) <==>
      (up.detail(DetailUrl(Part(parts, 1), Part(parts, 2))).Some?
       && !Truthy(up.detail(DetailUrl(Part(parts, 1), Part(parts, 2))).value.watchDataId))
    ensures r == Halt(StreamNotFound("Episode not found")) || r.Servers? ==>
      (up.detail(DetailUrl(Part(parts, 1), Part(parts, 2))).Some?
       && var d := up.detail(DetailUrl(Part(parts, 1), Part(parts, 2))).value;
       Truthy(d.watchDataId) && up.seasonList(SeasonListUrl(d.watchDataId)).Some?
       && var e := EpisodeDataId(up, up.seasonList(SeasonListUrl(d.watchDataId)).value, SeasonLabel, Part(parts, 3), Part(parts, 4));
       e.Some? && (r.Servers? <==> Truthy(e.value)) && (r.Servers? ==> r.url == EpisodeServersUrl(e.value)))
  {
    match up.detail(DetailUrl(Part(parts, 1), Part(parts, 2)))
    case None => Halt(StreamServerError)
    case Some(d) =>
      if !Truthy(d.watchDataId) then Halt(StreamNotFound("Series data not found"))
      else
        match up.seasonList(SeasonListUrl(d.watchDataId))
        case None => Halt(StreamServerError)
        case Some(seasons) =>
          match EpisodeDataId(up, seasons, SeasonLabel, Part(parts, 3), Part(parts, 4))
          case None => Halt(StreamServerError)
          case Some(episodeDataId) =>
            if !Truthy(episodeDataId) then Halt(StreamNotFound("Episode not found"))
            else Servers(EpisodeServersUrl(episodeDataId))
  }

  /** The whole handler, with each element read through the document it belongs to. */
  function Streams(p: Primitives, up: Upstream, requestType: Option<string>, id: Option<string>): (r: StreamReply)
    ensures !Truthy(id) || !Truthy(requestType) ==> r == StreamBadRequest
    ensures r.StreamOk? ==> AllShaped(r.streams)
  {
    if !Truthy(id) || !Truthy(requestType) then StreamBadRequest
    else
      var parts := Split(id.value, ':');
      match if requestType.value == "movie" then MovieServers(up, parts) else SeriesServers(up, parts)
      case Halt(reply) => reply
      case Servers(url) =>
        match up.serverList(url)
        case None => StreamServerError
        case Some(items) =>
          CollectShaped(p, up, SkipMissingId, [], items);
          StreamOk(CollectFrom(p, up, SkipMissingId, [], items))
  }

  /** A request with both parameters stops with the reply at which its server step halts. */
  lemma StreamsHalt(p: Primitives, up: Upstream, requestType: string, id: string, reply: StreamReply)
    requires id != "" && requestType != ""
    requires (if requestType == "movie" then MovieServers(up, Split(id, ':')) else SeriesServers(up, Split(id, ':'))) == Halt(reply)
    ensures Streams(p, up, Some(requestType), Some(id)) == reply
  {
  }

  /** A movie page without a truthy watch data-id answers 404 `Movie data not found`. */
  lemma MovieWithoutDataIdNotFound(p: Primitives, up: Upstream, id: string, d: DetailPage)
    requires id != ""
    requires up.detail(DetailUrl(Part(Split(id, ':'), 1), Part(Split(id, ':'), 2))) == Some(d)
    requires !Truthy(d.watchDataId)
    ensures Streams(p, up, Some("movie"), Some(id)) == StreamNotFound("Movie data not found")
  {
    StreamsHalt(p, up, "movie", id, StreamNotFound("Movie data not found"));
  }

  /** Any other type reads a series page; one without a truthy watch data-id answers 404 `Series data not found`. */
  lemma SeriesWithoutDataIdNotFound(p: Primitives, up: Upstream, requestType: string, id: string, d: DetailPage)
    requires id != "" && requestType != "" && requestType != "movie"
    requires up.detail(DetailUrl(Part(Split(id, ':'), 1), Part(Split(id, ':'), 2))) == Some(d)
    requires !Truthy(d.watchDataId)
    ensures Streams(p, up, Some(requestType), Some(id)) == StreamNotFound("Series data not found")
  {
    StreamsHalt(p, up, requestType, id, StreamNotFound("Series data not found"));
  }

  /** The series step halts with `Episode not found` when the season scan leaves no episode data-id. */
  lemma EpisodeNotFoundStep(up: Upstream, parts: seq<string>, d: DetailPage, seasons: seq<SeasonItem>)
    requires up.detail(DetailUrl(Part(parts, 1), Part(parts, 2))) == Some(d)
    requires Truthy(d.watchDataId) && up.seasonList(SeasonListUrl(d.watchDataId)) == Some(seasons)
    requires EpisodeDataId(up, seasons, SeasonLabel, Part(parts, 3), Part(parts, 4)) == Some(None)
    ensures SeriesServers(up, parts) == Halt(StreamNotFound("Episode not found"))
  {
  }

  /** No season labelled `parts[3]`: `episodeDataId` stays `null` and the reply is 404 `Episode not found`. */
  lemma UnmatchedSeasonNotFound(p: Primitives, up: Upstream, requestType: string, id: string, d: DetailPage,
                                seasons: seq<SeasonItem>)
    requires id != "" && requestType != "" && requestType != "movie"
    requires up.detail(DetailUrl(Part(Split(id, ':'), 1), Part(Split(id, ':'), 2))) == Some(d)
    requires Truthy(d.watchDataId) && up.seasonList(SeasonListUrl(d.watchDataId)) == Some(seasons)
    requires FirstSeason(seasons, SeasonLabel, Part(Split(id, ':'), 3), 0).None?
    ensures Streams(p, up, Some(requestType), Some(id)) == StreamNotFound("Episode not found")
  {
    EpisodeNotFoundStep(up, Split(id, ':'), d, seasons);
    StreamsHalt(p, up, requestType, id, StreamNotFound("Episode not found"));
  }

  /** The selected season's rows all have titles but none is episode `parts[4]`: 404 `Episode not found`. */
  lemma UnmatchedEpisodeNotFound(p: Primitives, up: Upstream, requestType: string, id: string, d: DetailPage,
                                 seasons: seq<SeasonItem>, k: nat, eps: seq<EpisodeItem>)
    requires id != "" && requestType != "" && requestType != "movie"
    requires up.detail(DetailUrl(Part(Split(id, ':'), 1), Part(Split(id, ':'), 2))) == Some(d)
    requires Truthy(d.watchDataId) && up.seasonList(SeasonListUrl(d.watchDataId)) == Some(seasons)
    requires FirstSeason(seasons, SeasonLabel, Part(Split(id, ':'), 3), 0) == Some(k)
    requires k < |seasons| && up.episodeList(SeasonEpisodesUrl(seasons[k].dataId)) == Some(eps)
    requires ScanEpisodes(eps, Part(Split(id, ':'), 4), 0) == Unmatched
    ensures Streams(p, up, Some(requestType), Some(id)) == StreamNotFound("Episode not found")
  {
    EpisodeNotFoundStep(up, Split(id, ':'), d, seasons);
    StreamsHalt(p, up, requestType, id, StreamNotFound("Episode not found"));
  }

  /** A movie with a watch data-id and a loading server list answers 200 with the server loop's descriptors. */
  lemma MovieStreams(p: Primitives, up: Upstream, id: string, d: DetailPage, items: seq<LinkItem>)
    requires id != ""
    requires up.detail(DetailUrl(Part(Split(id, ':'), 1), Part(Split(id, ':'), 2))) == Some(d)
    requires Truthy(d.watchDataId) && up.serverList(MovieServersUrl(d.watchDataId)) == Some(items)
    ensures Streams(p, up, Some("movie"), Some(id)) == StreamOk(CollectFrom(p, up, SkipMissingId, [], items))
  {
    assert MovieServers(up, Split(id, ':')) == Servers(MovieServersUrl(d.watchDataId));
  }

  /** A series episode whose server list loads answers 200 with the server loop's descriptors. */
  lemma SeriesStreams(p: Primitives, up: Upstream, requestType: string, id: string, url: string, items: seq<LinkItem>)
    requires id != "" && requestType != "" && requestType != "movie"
    requires SeriesServers(up, Split(id, ':')) == Servers(url)
    requires up.serverList(url) == Some(items)
    ensures Streams(p, up, Some(requestType), Some(id)) == StreamOk(CollectFrom(p, up, SkipMissingId, [], items))
  {
  }

  /** Once a server-list URL is known, a failing fetch of that list answers 500. */
  lemma ServerListFailure(p: Primitives, up: Upstream, requestType: string, id: string, url: string)
    requires id != "" && requestType != ""
    requires (if requestType == "movie" then MovieServers(up, Split(id, ':')) else SeriesServers(up, Split(id, ':'))) == Servers(url)
    requires up.serverList(url).None?
    ensures Streams(p, up, Some(requestType), Some(id)) == StreamServerError
  {
  }

  /** A 404 has exactly the three causes above: no movie data-id, no series data-id, or no episode data-id. */
  lemma NotFoundCauses(p: Primitives, up: Upstream, requestType: string, id: string)
    requires Streams(p, up, Some(requestType), Some(id)).StreamNotFound?
    ensures id != "" && requestType != ""
    ensures var parts := Split(id, ':');
      var page := up.detail(DetailUrl(Part(parts, 1), Part(parts, 2)));
      page.Some? &&
      (!Truthy(page.value.watchDataId) ||
       (requestType != "movie" && up.seasonList(SeasonListUrl(page.value.watchDataId)).Some?
        && var e := EpisodeDataId(up, up.seasonList(SeasonListUrl(page.value.watchDataId)).value, SeasonLabel, Part(parts, 3), Part(parts, 4));
        e.Some? && !Truthy(e.value)))
  {
    var parts := Split(id, ':');
    var r := Streams(p, up, Some(requestType), Some(id));
    if requestType == "movie" {
      assert MovieServers(up, parts) == Halt(r);
    } else {
      assert SeriesServers(up, parts) == Halt(r);
    }
  }

  // --------------------------------------------------------------- methods

  /** The season loop's test, with `break` at the first match. */
  method SelectSeason(seasons: seq<SeasonItem>, labelOf: string -> string, seasonNum: Option<string>) returns (k: Option<nat>)
    ensures k == FirstSeason(seasons, labelOf, seasonNum, 0)
  {
    var i := 0;
    while i < |seasons|
      invariant 0 <= i <= |seasons|
      invariant FirstSeason(seasons, labelOf, seasonNum, 0) == FirstSeason(seasons, labelOf, seasonNum, i)
    {
      if Some(labelOf(seasons[i].text)) == seasonNum {
        return Some(i);
      }
      i := i + 1;
    }
    return None;
  }

  /** The `.each` over a season's rows, with `return false` at the first match. */
  method SelectEpisode(eps: seq<EpisodeItem>, epNum: Option<string>) returns (r: EpisodeScan)
    ensures r == ScanEpisodes(eps, epNum, 0)
  {
    var i := 0;
    while i < |eps|
      invariant 0 <= i <= |eps|
      invariant ScanEpisodes(eps, epNum, 0) == ScanEpisodes(eps, epNum, i)
    {
      if eps[i].title.None? {
        return Crashed(i);
      }
      var m := MatchNumber(eps[i].title.value);
      if m.Some? && Some(m.value) == epNum {
        return Matched(i);
      }
      i := i + 1;
    }
    return Unmatched;
  }

  /** The season loop with the episode scan inside it; `None` when it throws. */
  method FindEpisodeDataId(up: Upstream, seasons: seq<SeasonItem>, labelOf: string -> string,
                           seasonNum: Option<string>, epNum: Option<string>) returns (r: Option<Option<string>>)
    ensures r == EpisodeDataId(up, seasons, labelOf, seasonNum, epNum)
  {
    var k := SelectSeason(seasons, labelOf, seasonNum);
    if k.None? {
      return Some(None);
    }
    var episodes := up.episodeList(SeasonEpisodesUrl(seasons[k.value].dataId));
    if episodes.None? {
      return None;
    }
    var scan := SelectEpisode(episodes.value, epNum);
    match scan
    case Matched(j) => return Some(episodes.value[j].dataId);
    case Unmatched => return Some(None);
    case Crashed(_) => return None;
  }

  /** `for (source of sources)`: pushes each `hls` source; a `null` entry throws and ends the loop. */
  method PushSources(streams: seq<Descriptor>, entries: seq<SourceEntry>) returns (out: seq<Descriptor>, completed: bool)
    ensures (out, completed) == (streams + HlsSources(entries).0, HlsSources(entries).1)
  {
    out := streams;
    var i := 0;
    while i < |entries|
      invariant 0 <= i <= |entries|
      invariant HlsSources(entries).1 == HlsSources(entries[i..]).1
      invariant streams + HlsSources(entries).0 == out + HlsSources(entries[i..]).0
    {
      HlsSourcesAt(entries, i);
      match entries[i]
      case NullSource =>
        assert out + [] == out;
        return out, false;
      case SourceObject(file, sourceType) =>
        ghost var rest := HlsSources(entries[i + 1..]).0;
        if Truthy(file) && sourceType == Some("hls") {
          assert out + ([Hls(file.value)] + rest) == (out + [Hls(file.value)]) + rest;
          out := out + [Hls(file.value)];
        } else {
          assert [] + rest == rest;
        }
      i := i + 1;
    }
    assert entries[i..] == [];
    assert out + [] == out;
    return out, true;
  }

  /** The loop's view of `HlsSources` from position `i` on: one entry, then the rest. */
  lemma HlsSourcesAt(entries: seq<SourceEntry>, i: nat)
    requires i < |entries|
    ensures entries[i].NullSource? ==> HlsSources(entries[i..]) == ([], false)
    ensures entries[i].SourceObject? ==>
      var (file, sourceType) := (entries[i].file, entries[i].sourceType);
      HlsSources(entries[i..]) ==
        ((if Truthy(file) && sourceType == Some("hls") then [Hls(file.value)] else []) + HlsSources(entries[i + 1..]).0,
         HlsSources(entries[i + 1..]).1)
  {
    assert entries[i..][0] == entries[i];
    assert entries[i..][1..] == entries[i + 1..];
  }

  /** One iteration of the server loop, updating the accumulated `streams`. */
  method ProcessLink(p: Primitives, up: Upstream, rule: LinkRule, streams: seq<Descriptor>, item: LinkItem)
    returns (out: seq<Descriptor>)
    ensures out == LinkStreams(p, up, rule, streams, item)
  {
    out := streams;
    var linkId := if Truthy(item.linkId) then item.linkId else item.dataId;
    if rule == SkipMissingId && !Truthy(linkId) {
      return;
    }
    var source := up.source(SourceUrl(linkId));
    if source.None? || !Truthy(source.value.link) {
      return;
    }
    var link := source.value.link.value;
    if !Contains(link, VIDEOSTR_HOST) {
      out := out + [Direct(link)];
      return;
    }
    out := ProcessVideostr(p, up, out, link);
  }

  /** The videostr branch of one iteration: fetch the video data and the key, decrypt, push the sources, attach subtitles. */
  method ProcessVideostr(p: Primitives, up: Upstream, streams: seq<Descriptor>, link: string)
    returns (out: seq<Descriptor>)
    ensures out == VideostrStreams(p, up, streams, link)
  {
    out := streams;
    var video := up.video(VideoSourcesUrl(VideoId(link)));
    if video.None? || !Truthy(video.value.sources) {
      return;
    }
    var keys := up.keys(KEYS_URL);
    if keys.None? || !Truthy(keys.value.vidstr) {
      return;
    }
    var plain := DecryptOpenSSL(p, video.value.sources.value, keys.value.vidstr.value);
    if plain == "" {
      return;
    }
    var entries := JsonParseSources(p, plain);
    if entries.None? {
      return;
    }
    var completed;
    out, completed := PushSources(out, entries.value);
    if !completed || video.value.tracks.None? {
      return;
    }
    var subs := SubtitleTracks(video.value.tracks.value);
    if subs.Some? && |subs.value| > 0 && |out| > 0 {
      out := out[|out| - 1 := out[|out| - 1].(subtitles := Some(subs.value))];
    }
  }

  /** The server loop. */
  method CollectStreams(p: Primitives, up: Upstream, rule: LinkRule, items: seq<LinkItem>) returns (streams: seq<Descriptor>)
    ensures streams == CollectFrom(p, up, rule, [], items)
  {
    streams := [];
    for i := 0 to |items|
      invariant streams == CollectFrom(p, up, rule, [], items[..i])
    {
      assert items[..i + 1][..i] == items[..i];
      streams := ProcessLink(p, up, rule, streams, items[i]);
    }
    assert items[..|items|] == items;
  }

  /** The stream handler as api/stream.js runs it, element reads corrected to their own documents. */
  method StreamHandler(p: Primitives, up: Upstream, requestType: Option<string>, id: Option<string>) returns (reply: StreamReply)
    ensures reply == Streams(p, up, requestType, id)
  {
    if !Truthy(id) || !Truthy(requestType) {
      return StreamBadRequest;
    }
    var parts := Split(id.value, ':');
    var dataUrl: string;
    var page := up.detail(DetailUrl(Part(parts, 1), Part(parts, 2)));
    if page.None? {
      return StreamServerError;
    }
    if requestType.value == "movie" {
      if !Truthy(page.value.watchDataId) {
        return StreamNotFound("Movie data not found");
      }
      dataUrl := MovieServersUrl(page.value.watchDataId);
    } else {
      if !Truthy(page.value.watchDataId) {
        return StreamNotFound("Series data not found");
      }
      var seasons := up.seasonList(SeasonListUrl(page.value.watchDataId));
      if seasons.None? {
        return StreamServerError;
      }
      var episodeDataId := FindEpisodeDataId(up, seasons.value, SeasonLabel, Part(parts, 3), Part(parts, 4));
      if episodeDataId.None? {
        return StreamServerError;
      }
      if !Truthy(episodeDataId.value) {
        return StreamNotFound("Episode not found");
      }
      dataUrl := EpisodeServersUrl(episodeDataId.value);
    }
    var items := up.serverList(dataUrl);
    if items.None? {
      return StreamServerError;
    }
    var streams := CollectStreams(p, up, SkipMissingId, items.value);
    return StreamOk(streams);
  }

  // ----------------------------------------------------- as written

  /**
   * The series path as api/stream.js is written: `$` is not bound in the handler, so wrapping the
   * first season entry throws a `ReferenceError`; with no season entries the scan finds nothing.
   */
  function SeriesServersAsWritten(up: Upstream, parts: seq<string>): (r: ServerStep)
    ensures r.Halt? && (r.reply.StreamServerError? || r.reply.StreamNotFound?)
  {
    match up.detail(DetailUrl(Part(parts, 1), Part(parts, 2)))
    case None => Halt(StreamServerError)
    case Some(d) =>
      if !Truthy(d.watchDataId) then Halt(StreamNotFound("Series data not found"))
      else
        match up.seasonList(SeasonListUrl(d.watchDataId))
        case None => Halt(StreamServerError)
        case Some(seasons) =>
          if seasons != [] then Halt(StreamServerError) else Halt(StreamNotFound("Episode not found"))
  }

  /** api/stream.js as written: the first server entry also goes through the unbound `$`, so any non-empty server list is a 500. */
  function StreamsAsWritten(up: Upstream, requestType: Option<string>, id: Option<string>): (r: StreamReply)
    ensures !Truthy(id) || !Truthy(requestType) ==> r == StreamBadRequest
    ensures r.StreamOk? ==> r.streams == []
  {
    if !Truthy(id) || !Truthy(requestType) then StreamBadRequest
    else
      var parts := Split(id.value, ':');
      match if requestType.value == "movie" then MovieServers(up, parts) else SeriesServersAsWritten(up, parts)
      case Halt(reply) => reply
      case Servers(url) =>
        match up.serverList(url)
        case None => StreamServerError
        case Some(items) => if items == [] then StreamOk([]) else StreamServerError
  }

  /** A site where every detail page has watch data-id `1`, every server list holds one entry with link id `7`, and every source is the direct link `v.mp4`. */
  function DirectLinkSite(): Upstream {
    Upstream(
      _ => None,
      _ => Some(DetailPage("Film", None, "", "", None, Some("1"))),
      _ => None,
      _ => None,
      _ => Some([LinkItem(Some("7"), None)]),
      _ => Some(SourceData(Some("v.mp4"))),
      _ => None,
      _ => None)
  }

  /** On that site the one server entry yields the one direct descriptor. */
  lemma DirectLinkSiteLinks(p: Primitives, rule: LinkRule)
    ensures CollectFrom(p, DirectLinkSite(), rule, [], [LinkItem(Some("7"), None)]) == [Direct("v.mp4")]
  {
    var items := [LinkItem(Some("7"), None)];
    NotContainsShort("v.mp4", VIDEOSTR_HOST);
    assert items[..0] == [];
    assert LinkId(items[0]) == Some("7");
    assert SourceStreams(p, DirectLinkSite(), [], Some("7")) == [Direct("v.mp4")];
  }

  /** A movie id `myflixer:movie:<slug>` splits into its three fields. */
  lemma MovieIdParts(slug: string)
    requires ':' !in slug
    ensures Split("myflixer:movie:" + slug, ':') == ["myflixer", "movie", slug]
  {
    SplitNoSep(slug, ':');
    SplitFirst("movie", ':', slug);
    SplitFirst("myflixer", ':', "movie" + [':'] + slug);
    assert "myflixer:movie:" + slug == "myflixer" + [':'] + ("movie" + [':'] + slug);
  }

  /** A movie with one direct link: the corrected handler returns its stream, the code as written a 500. */
  lemma AsWrittenLosesDirectLink(p: Primitives, slug: string)
    requires ':' !in slug
    ensures Streams(p, DirectLinkSite(), Some("movie"), Some("myflixer:movie:" + slug)) == StreamOk([Direct("v.mp4")])
    ensures StreamsAsWritten(DirectLinkSite(), Some("movie"), Some("myflixer:movie:" + slug)) == StreamServerError
  {
    MovieIdParts(slug);
    DirectLinkSiteLinks(p, SkipMissingId);
  }

  /** A text shorter than the pattern does not contain it. */
  lemma NotContainsShort(s: string, pat: string)
    requires |s| < |pat|
    ensures !Contains(s, pat)
  {
    ContainsIff(s, pat);
  }
}
