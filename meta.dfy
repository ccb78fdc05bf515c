/** api/meta.js: the detail-page record and, for a series, the sorted episode list. */
module Meta {
  import opened Wrappers
  import opened JsString
  import opened Upstream
  import opened EpisodeLabel

  // ---------------------------------------------------------- field clean-up

  /** `x || undefined` for a text that is always a string. */
  function NonEmpty(s: string): (r: Option<string>)
    ensures r.None? <==> s == ""
    ensures r.Some? ==> r.value == s
  {
    if s == "" then None else Some(s)
  }

  /** `s.trim() || undefined`. */
  function TrimmedText(s: string): (r: Option<string>)
    ensures r.None? <==> Trim(s) == ""
    ensures r.Some? ==> r.value == Trim(s)
    ensures r.Some? ==> r.value != "" && !IsSpace(r.value[0]) && !IsSpace(r.value[|r.value| - 1])
  {
    NonEmpty(Trim(s))
  }

  /** The IMDb button text with the first `N/A` and then the first `IMDB: ` removed, trimmed; empty becomes `undefined`. */
  function ImdbRating(text: string): (r: Option<string>)
    ensures r.Some? ==> r.value != "" && !IsSpace(r.value[0]) && !IsSpace(r.value[|r.value| - 1])
  {
    TrimmedText(ReplaceFirst(ReplaceFirst(text, "N/A", ""), "IMDB: ", ""))
  }

  /** `IMDB: <rating>` gives the rating itself, when it has no `N/A` and no surrounding white space. */
  lemma ImdbRatingOf(rating: string)
    requires !Contains("IMDB: " + rating, "N/A")
    requires rating != [] && !IsSpace(rating[0]) && !IsSpace(rating[|rating| - 1])
    ensures ImdbRating("IMDB: " + rating) == Some(rating)
  {
    ReplaceFirstNotContained("IMDB: " + rating, "N/A", "");
    ReplaceFirstAtStart("IMDB: ", rating, "");
    EmptyPrefix(rating);
    ImdbRatingOfStripped("IMDB: " + rating, rating);
  }

  /** A text that loses nothing to `N/A` and becomes a trimmed, non-empty `rating` without `IMDB: ` is rated `rating`. */
  lemma ImdbRatingOfStripped(text: string, rating: string)
    requires ReplaceFirst(text, "N/A", "") == text && ReplaceFirst(text, "IMDB: ", "") == rating
    requires rating != [] && !IsSpace(rating[0]) && !IsSpace(rating[|rating| - 1])
    ensures ImdbRating(text) == Some(rating)
  {
  }

  /** A rating of `N/A` is dropped. */
  lemma ImdbRatingUnknown()
    ensures ImdbRating("N/A") == None
  {
    ReplaceFirstAtStart("N/A", "", "");
    assert "N/A" + "" == "N/A";
    ReplaceFirstAbsent("", "IMDB: ", "");
  }

  /** A season entry's label: trimmed, first `Season ` and first `Series` removed, trimmed again. */
  function SeasonLabel(text: string): (r: string)
    ensures r == [] || (!IsSpace(r[0]) && !IsSpace(r[|r| - 1]))
    ensures |r| <= |text|
  {
    ReplaceFirstShorter(Trim(text), "Season ", "");
    ReplaceFirstShorter(ReplaceFirst(Trim(text), "Season ", ""), "Series", "");
    Trim(ReplaceFirst(ReplaceFirst(Trim(text), "Season ", ""), "Series", ""))
  }

  /** `Season <n>` is labelled `<n>`. */
  lemma SeasonLabelOf(n: string)
    requires |n| >= 1 && AllDigits(n)
    ensures SeasonLabel("Season " + n) == n
  {
    SeasonTextTrimmed(n);
    ReplaceFirstAtStart("Season ", n, "");
    EmptyPrefix(n);
    SeasonLabelOfTrimmed("Season " + n, n);
  }

  /** A trimmed text whose `Season ` replacement leaves digits is labelled by those digits. */
  lemma SeasonLabelOfTrimmed(text: string, n: string)
    requires |n| >= 1 && AllDigits(n)
    requires Trim(text) == text && ReplaceFirst(text, "Season ", "") == n
    ensures SeasonLabel(text) == n
  {
    ReplaceFirstInDigits(n, "Series", "");
    TrimDigits(n);
  }

  lemma SeasonTextTrimmed(n: string)
    requires |n| >= 1 && AllDigits(n)
    ensures Trim("Season " + n) == "Season " + n
  {
    var s := "Season " + n;
    DigitNotSpace(n[|n| - 1]);
    assert s[0] == 'S' && s[|s| - 1] == n[|n| - 1];
  }

  /** `parseInt(seasonNum) || 1`: `NaN` and zero both become 1. */
  function SeasonNumber(seasonText: string): (n: int)
    ensures n != 0
    ensures ParseInt(seasonText).Some? && ParseInt(seasonText).value != 0 ==> n == ParseInt(seasonText).value
    ensures ParseInt(seasonText).None? || ParseInt(seasonText) == Some(0) ==> n == 1
  {
    match ParseInt(seasonText)
    case None => 1
    case Some(k) => if k == 0 then 1 else k
  }

  /** A positive season number written in decimal is read back. */
  lemma SeasonNumberOf(k: nat)
    requires k >= 1
    ensures SeasonNumber(NatToString(k)) == k
  {
    ParseIntToString(k);
  }

  // ------------------------------------------------------------ episode rows

  /** One entry of `meta.videos`. */
  datatype Video = Video(id: string, title: string, season: int, episode: int, overview: string)

  /** One `a.eps-item` of season `seasonNum`: the video it contributes, if any. */
  function EpisodeVideo(id: string, seasonNum: string, e: EpisodeItem): (r: Option<Video>)
    ensures r.Some? ==> Truthy(e.title) && Truthy(e.dataId)
    ensures r.Some? ==> r.value.episode >= 0 && r.value.title == r.value.overview && r.value.season == SeasonNumber(seasonNum)
  {
    if Truthy(e.title) && Truthy(e.dataId) && MatchTitle(e.title.value).Some? then
      var (digits, name) := MatchTitle(e.title.value).value;
      ParseDigits(digits);
      Some(Video(id + ":" + seasonNum + ":" + digits, Trim(name), SeasonNumber(seasonNum), DigitsValue(digits, 10), Trim(name)))
    else None
  }

  /**
   * A row contributes a video exactly when it has a title and a data-id and the title matches
   * `Eps (\d+): (.+)`; the video's id joins the full id, the season label and the captured digits,
   * its title and overview are the trimmed name, and its episode is `parseInt` of the digits.
   */
  lemma EpisodeVideoFields(id: string, seasonNum: string, e: EpisodeItem)
    ensures EpisodeVideo(id, seasonNum, e).Some? <==> Truthy(e.title) && Truthy(e.dataId) && MatchTitle(e.title.value).Some?
    ensures EpisodeVideo(id, seasonNum, e).Some? ==>
      var v := EpisodeVideo(id, seasonNum, e).value;
      var (digits, name) := MatchTitle(e.title.value).value;
      v.id == id + ":" + seasonNum + ":" + digits &&
      v.title == Trim(name) && v.overview == Trim(name) &&
      v.season == SeasonNumber(seasonNum) && Some(v.episode) == ParseInt(digits)
  {
    if EpisodeVideo(id, seasonNum, e).Some? {
      ParseDigits(MatchTitle(e.title.value).value.0);
    }
  }

  /** A row titled `Eps <d>: <name>` with a data-id becomes episode `d` named by the trimmed name. */
  lemma EpisodeRowOf(id: string, seasonNum: string, d: string, name: string, dataId: string)
    requires |d| >= 1 && AllDigits(d)
    requires |name| >= 1 && forall i :: 0 <= i < |name| ==> !IsLineTerminator(name[i])
    requires dataId != ""
    ensures ParseInt(d).Some?
    ensures EpisodeVideo(id, seasonNum, EpisodeItem(Some(PREFIX + d + ": " + name), Some(dataId)))
      == Some(Video(id + ":" + seasonNum + ":" + d, Trim(name), SeasonNumber(seasonNum), ParseInt(d).value, Trim(name)))
  {
    var t := PREFIX + d + ": " + name;
    MatchTitleOf(d, name);
    assert MatchTitle(t) == Some((d, name));
    ParseDigits(d);
    EpisodeVideoFields(id, seasonNum, EpisodeItem(Some(t), Some(dataId)));
  }

  /** Every video of a season carries that season's number. */
  lemma {:induction false} EpisodeVideosSeason(id: string, seasonNum: string, eps: seq<EpisodeItem>)
    ensures forall v :: v in EpisodeVideos(id, seasonNum, eps) ==> v.season == SeasonNumber(seasonNum)
  {
    if eps != [] {
      EpisodeVideosSeason(id, seasonNum, eps[..|eps| - 1]);
    }
  }

  /** The videos one season's `.each` pushes, in row order. */
  function EpisodeVideos(id: string, seasonNum: string, eps: seq<EpisodeItem>): (vs: seq<Video>)
    ensures |vs| <= |eps|
  {
    if eps == [] then []
    else
      EpisodeVideos(id, seasonNum, eps[..|eps| - 1])
        + match EpisodeVideo(id, seasonNum, eps[|eps| - 1]) case Some(v) => [v] case None => []
  }

  /** What one season contributes: nothing when its episode page cannot be fetched. */
  function SeasonVideos(up: Upstream, id: string, s: SeasonItem): (r: seq<Video>)
    ensures up.episodeList(SeasonEpisodesUrl(s.dataId)).None? ==> r == []
    ensures up.episodeList(SeasonEpisodesUrl(s.dataId)).Some? ==> |r| <= |up.episodeList(SeasonEpisodesUrl(s.dataId)).value|
    ensures forall v :: v in r ==> v.season == SeasonNumber(SeasonLabel(s.text))
  {
    match up.episodeList(SeasonEpisodesUrl(s.dataId))
    case None => []
    case Some(eps) =>
      EpisodeVideosSeason(id, SeasonLabel(s.text), eps);
      EpisodeVideos(id, SeasonLabel(s.text), eps)
  }

  /** The collected (unsorted) videos after the season loop. */
  function AllVideos(up: Upstream, id: string, seasons: seq<SeasonItem>): seq<Video> {
    if seasons == [] then []
    else AllVideos(up, id, seasons[..|seasons| - 1]) + SeasonVideos(up, id, seasons[|seasons| - 1])
  }

  /** The season loop distributes over concatenation: seasons contribute independently, in order. */
  lemma {:induction false} AllVideosConcat(up: Upstream, id: string, a: seq<SeasonItem>, b: seq<SeasonItem>)
    ensures AllVideos(up, id, a + b) == AllVideos(up, id, a) + AllVideos(up, id, b)
  {
    if b != [] {
      var b0 := b[..|b| - 1];
      assert (a + b)[..|a + b| - 1] == a + b0;
      assert (a + b)[|a + b| - 1] == b[|b| - 1];
      AllVideosConcat(up, id, a, b0);
    } else {
      assert a + b == a;
    }
  }

  /** A season whose episode fetch fails removes nothing from the other seasons. */
  lemma SeasonFailureIsolated(up: Upstream, id: string, a: seq<SeasonItem>, s: SeasonItem, b: seq<SeasonItem>)
    requires up.episodeList(SeasonEpisodesUrl(s.dataId)).None?
    ensures AllVideos(up, id, a + [s] + b) == AllVideos(up, id, a + b)
  {
    AllVideosSnoc(up, id, a, s);
    assert SeasonVideos(up, id, s) == [];
    assert AllVideos(up, id, a) + [] == AllVideos(up, id, a);
    AllVideosConcat(up, id, a + [s], b);
    AllVideosConcat(up, id, a, b);
  }

  lemma AllVideosSnoc(up: Upstream, id: string, a: seq<SeasonItem>, s: SeasonItem)
    ensures AllVideos(up, id, a + [s]) == AllVideos(up, id, a) + SeasonVideos(up, id, s)
  {
    assert (a + [s])[..|a|] == a;
  }

  // ----------------------------------------------------------------- sorting

  /** The comparator `(a, b) => a.season - b.season || a.episode - b.episode`, as a strict order. */
  predicate Before(a: Video, b: Video) {
    a.season < b.season || (a.season == b.season && a.episode < b.episode)
  }

  predicate Sorted(vs: seq<Video>) {
    forall i, j :: 0 <= i < j < |vs| ==> !Before(vs[j], vs[i])
  }

  /** Inserts `x` after every element that does not come after it. */
  function Insert(s: seq<Video>, x: Video): (r: seq<Video>)
    ensures multiset(r) == multiset(s) + multiset{x}
  {
    if s == [] || !Before(x, s[|s| - 1]) then s + [x]
    else
      assert s == s[..|s| - 1] + [s[|s| - 1]];
      Insert(s[..|s| - 1], x) + [s[|s| - 1]]
  }

  /** Inserting into a sorted list keeps it sorted. */
  lemma {:induction false} InsertSorted(s: seq<Video>, x: Video)
    requires Sorted(s)
    ensures Sorted(Insert(s, x))
  {
    if s == [] || !Before(x, s[|s| - 1]) {
      var r := s + [x];
      forall i, j | 0 <= i < j < |r| ensures !Before(r[j], r[i]) {
        if j == |s| && i < |s| - 1 {
          assert !Before(s[|s| - 1], s[i]);
        }
      }
    } else {
      var last := s[|s| - 1];
      var init := s[..|s| - 1];
      var r := Insert(init, x);
      InsertSorted(init, x);
      forall i | 0 <= i < |r| ensures !Before(last, r[i]) {
        assert r[i] in multiset(r);
        if r[i] != x {
          assert r[i] in multiset(init);
          var k :| 0 <= k < |init| && init[k] == r[i];
          assert s[k] == r[i];
        }
      }
      var t := r + [last];
      forall i, j | 0 <= i < j < |t| ensures !Before(t[j], t[i]) {
        if j < |r| {
          assert t[j] == r[j] && t[i] == r[i];
        }
      }
    }
  }

  /** `videos.sort(...)`: a stable insertion sort, taking the videos in order. */
  function SortVideos(vs: seq<Video>): (r: seq<Video>)
    ensures Sorted(r)
    ensures multiset(r) == multiset(vs)
  {
    if vs == [] then []
    else
      var sorted := SortVideos(vs[..|vs| - 1]);
      InsertSorted(sorted, vs[|vs| - 1]);
      assert vs == vs[..|vs| - 1] + [vs[|vs| - 1]];
      Insert(sorted, vs[|vs| - 1])
  }

  /** `[v]` when `v` has the (season, episode) key, `[]` otherwise. */
  function KeyPart(v: Video, season: int, episode: int): seq<Video> {
    if v.season == season && v.episode == episode then [v] else []
  }

  /** The videos with a given (season, episode) key, in order. */
  function WithKey(vs: seq<Video>, season: int, episode: int): seq<Video> {
    if vs == [] then []
    else WithKey(vs[..|vs| - 1], season, episode) + KeyPart(vs[|vs| - 1], season, episode)
  }

  lemma WithKeySnoc(vs: seq<Video>, v: Video, season: int, episode: int)
    ensures WithKey(vs + [v], season, episode) == WithKey(vs, season, episode) + KeyPart(v, season, episode)
  {
    assert (vs + [v])[..|vs|] == vs;
  }

  lemma {:induction false} InsertStable(s: seq<Video>, x: Video, season: int, episode: int)
    ensures WithKey(Insert(s, x), season, episode) == WithKey(s, season, episode) + KeyPart(x, season, episode)
  {
    if s == [] || !Before(x, s[|s| - 1]) {
      WithKeySnoc(s, x, season, episode);
    } else {
      var last := s[|s| - 1];
      var init := s[..|s| - 1];
      assert Insert(s, x) == Insert(init, x) + [last];
      assert s == init + [last];
      InsertStable(init, x, season, episode);
      PassLast(init, Insert(init, x), x, last, season, episode);
    }
  }

  /** `x` moving in front of a `last` that sorts after it does not reorder videos of one key. */
  lemma PassLast(init: seq<Video>, r: seq<Video>, x: Video, last: Video, season: int, episode: int)
    requires Before(x, last)
    requires WithKey(r, season, episode) == WithKey(init, season, episode) + KeyPart(x, season, episode)
    ensures WithKey(r + [last], season, episode) == WithKey(init + [last], season, episode) + KeyPart(x, season, episode)
  {
    WithKeySnoc(r, last, season, episode);
    WithKeySnoc(init, last, season, episode);
    var w := WithKey(init, season, episode);
    var kx := KeyPart(x, season, episode);
    var kl := KeyPart(last, season, episode);
    assert kx == [] || kl == [];
    SwapEmpty(w, kx, kl);
  }

  lemma SwapEmpty<T>(w: seq<T>, a: seq<T>, b: seq<T>)
    requires a == [] || b == []
    ensures w + a + b == w + b + a
  {
    if a == [] {
      assert w + a == w && b + a == b;
    } else {
      assert w + b == w;
    }
  }


  /** The sort is stable: videos with equal keys keep their collection order. */
  lemma {:induction false} SortStable(vs: seq<Video>, season: int, episode: int)
    ensures WithKey(SortVideos(vs), season, episode) == WithKey(vs, season, episode)
  {
    if vs != [] {
      SortStable(vs[..|vs| - 1], season, episode);
      InsertStable(SortVideos(vs[..|vs| - 1]), vs[|vs| - 1], season, episode);
    }
  }

  // ------------------------------------------------------------------- reply

  /** The `meta` object; `None` fields are `undefined`, and `trailer` is the source of the one trailer entry. */
  datatype Meta = Meta(
    id: string, contentType: string, name: string, poster: Option<string>, description: Option<string>,
    imdbRating: Option<string>, trailer: Option<string>, videos: Option<seq<Video>>)

  datatype MetaReply =
    | MetaOk(meta: Meta)        // 200 { meta }
    | MetaBadRequest            // 400 Missing type or id parameter
    | MetaNotFound              // 404 Content not found
    | MetaServerError           // 500 Failed to fetch metadata

  /** The URL of the detail page named by parts 1 and 2 of the composite id. */
  function DetailPageUrl(id: string): string {
    var parts := Split(id, ':');
    DetailUrl(Part(parts, 1), Part(parts, 2))
  }

  /** The fields taken from the detail page, before any episode work. */
  function BaseMeta(id: string, requestType: string, d: DetailPage): (m: Meta)
    ensures m.id == id && m.contentType == requestType
    ensures m.name == Trim(d.name) && m.videos.None?
    ensures m.poster.None? <==> !Truthy(d.poster)
    ensures m.poster.Some? ==> m.poster == d.poster
    ensures m.description.None? <==> Trim(d.description) == ""
    ensures m.description.Some? ==> m.description.value == Trim(d.description)
    ensures m.imdbRating == ImdbRating(d.imdb)
    ensures m.imdbRating.Some? ==> m.imdbRating.value != ""
    ensures m.trailer.None? <==> !Truthy(d.trailer)
    ensures m.trailer.Some? ==> m.trailer == d.trailer
  {
    Meta(id, requestType, Trim(d.name), Defined(d.poster), TrimmedText(d.description),
         ImdbRating(d.imdb), Defined(d.trailer), None)
  }

  /** `meta.videos` for a series: set exactly when data-id is truthy, the season list loads and at least one video was collected. */
  function SeriesVideos(up: Upstream, id: string, d: DetailPage): (r: Option<seq<Video>>)
    ensures r.None? <==>
      (!Truthy(d.watchDataId) || up.seasonList(SeasonListUrl(d.watchDataId)).None?
       || AllVideos(up, id, up.seasonList(SeasonListUrl(d.watchDataId)).value) == [])
    ensures r.Some? ==> |r.value| > 0 && Sorted(r.value)
    ensures r.Some? ==> multiset(r.value) == multiset(AllVideos(up, id, up.seasonList(SeasonListUrl(d.watchDataId)).value))
  {
    if !Truthy(d.watchDataId) then None
    else
      match up.seasonList(SeasonListUrl(d.watchDataId))
      case None => None
      case Some(seasons) =>
        var vs := AllVideos(up, id, seasons);
        if vs == [] then None
        else
          var r := SortVideos(vs);
          assert |r| == |multiset(r)| == |multiset(vs)| == |vs|;
          Some(r)
  }

  /** The whole handler. */
  function MetaOf(up: Upstream, requestType: Option<string>, id: Option<string>): (r: MetaReply)
    ensures !Truthy(id) || !Truthy(requestType) ==> r == MetaBadRequest
    ensures Truthy(id) && Truthy(requestType) && up.detail(DetailPageUrl(id.value)).None? ==> r == MetaServerError
    ensures (Truthy(id) && Truthy(requestType) && up.detail(DetailPageUrl(id.value)).Some?
             && Trim(up.detail(DetailPageUrl(id.value)).value.name) == "") ==> r == MetaNotFound
    ensures (Truthy(id) && Truthy(requestType) && up.detail(DetailPageUrl(id.value)).Some?
             && Trim(up.detail(DetailPageUrl(id.value)).value.name) != "") ==> r.MetaOk?
    ensures r.MetaOk? ==> r.meta.name != "" && r.meta.id == id.value && r.meta.contentType == requestType.value
    ensures r.MetaOk? ==>
      (Truthy(id) && Truthy(requestType) && up.detail(DetailPageUrl(id.value)).Some?
       && r.meta == BaseMeta(id.value, requestType.value, up.detail(DetailPageUrl(id.value)).value).(videos := r.meta.videos))
    ensures r.MetaOk? ==>
      (r.meta.videos == if requestType == Some("series") then SeriesVideos(up, id.value, up.detail(DetailPageUrl(id.value)).value) else None)
  {
    if !Truthy(id) || !Truthy(requestType) then MetaBadRequest
    else
      match up.detail(DetailPageUrl(id.value))
      case None => MetaServerError
      case Some(d) =>
        var meta := BaseMeta(id.value, requestType.value, d);
        if meta.name == "" then MetaNotFound
        else if requestType.value == "series" then MetaOk(meta.(videos := SeriesVideos(up, id.value, d)))
        else MetaOk(meta)
  }

  lemma EpisodeVideosStep(id: string, seasonNum: string, eps: seq<EpisodeItem>, j: nat)
    requires j < |eps|
    ensures EpisodeVideos(id, seasonNum, eps[..j + 1])
      == EpisodeVideos(id, seasonNum, eps[..j]) + match EpisodeVideo(id, seasonNum, eps[j]) case Some(v) => [v] case None => []
  {
    assert eps[..j + 1][..j] == eps[..j];
  }

  lemma AllVideosStep(up: Upstream, id: string, seasons: seq<SeasonItem>, i: nat)
    requires i < |seasons|
    ensures AllVideos(up, id, seasons[..i + 1]) == AllVideos(up, id, seasons[..i]) + SeasonVideos(up, id, seasons[i])
  {
    assert seasons[..i + 1][..i] == seasons[..i];
  }

  /** The `.each` over one season's rows: pushes each row's video onto `videos`. */
  method PushSeasonVideos(videos: seq<Video>, id: string, seasonNum: string, eps: seq<EpisodeItem>)
    returns (pushed: seq<Video>)
    ensures pushed == videos + EpisodeVideos(id, seasonNum, eps)
  {
    pushed := videos;
    for j := 0 to |eps|
      invariant pushed == videos + EpisodeVideos(id, seasonNum, eps[..j])
    {
      var v := EpisodeVideo(id, seasonNum, eps[j]);
      EpisodeVideosStep(id, seasonNum, eps, j);
      PushContribution(videos, EpisodeVideos(id, seasonNum, eps[..j]), EpisodeVideos(id, seasonNum, eps[..j + 1]), v);
      if v.Some? {
        pushed := pushed + [v.value];
      }
    }
    assert eps[..|eps|] == eps;
  }

  /** Pushing a row's video, or nothing, onto `videos + before`. */
  lemma PushContribution(videos: seq<Video>, before: seq<Video>, after: seq<Video>, v: Option<Video>)
    requires after == before + match v case Some(x) => [x] case None => []
    ensures v.Some? ==> videos + before + [v.value] == videos + after
    ensures v.None? ==> videos + before == videos + after
  {
    if v.None? {
      assert before + [] == before;
    }
  }

  /** The season loop: each season's rows in turn; a failed episode fetch is caught and skipped. */
  method CollectVideos(up: Upstream, id: string, seasons: seq<SeasonItem>) returns (videos: seq<Video>)
    ensures videos == AllVideos(up, id, seasons)
  {
    videos := [];
    for i := 0 to |seasons|
      invariant videos == AllVideos(up, id, seasons[..i])
    {
      AllVideosStep(up, id, seasons, i);
      var seasonNum := SeasonLabel(seasons[i].text);
      var episodes := up.episodeList(SeasonEpisodesUrl(seasons[i].dataId));
      if episodes.Some? {
        videos := PushSeasonVideos(videos, id, seasonNum, episodes.value);
      }
    }
    assert seasons[..|seasons|] == seasons;
  }

  /** The handler as api/meta.js runs it: fields, then for a series the season loop and the sort. */
  method MetaHandler(up: Upstream, requestType: Option<string>, id: Option<string>) returns (reply: MetaReply)
    ensures reply == MetaOf(up, requestType, id)
  {
    if !Truthy(id) || !Truthy(requestType) {
      return MetaBadRequest;
    }
    var page := up.detail(DetailPageUrl(id.value));
    if page.None? {
      return MetaServerError;
    }
    var d := page.value;
    var meta := BaseMeta(id.value, requestType.value, d);
    if meta.name == "" {
      return MetaNotFound;
    }
    if requestType.value == "series" {
      var videos := LoadSeriesVideos(up, id.value, d);
      meta := meta.(videos := videos);
    }
    return MetaOk(meta);
  }

  /** The series block of the handler: the season list, the season loop, and the sort of a non-empty result. */
  method LoadSeriesVideos(up: Upstream, id: string, d: DetailPage) returns (videos: Option<seq<Video>>)
    ensures videos == SeriesVideos(up, id, d)
  {
    if !Truthy(d.watchDataId) {
      return None;
    }
    var seasonList := up.seasonList(SeasonListUrl(d.watchDataId));
    if seasonList.None? {
      return None;
    }
    var collected := CollectVideos(up, id, seasonList.value);
    if |collected| == 0 {
      return None;
    }
    return Some(SortVideos(collected));
  }
}
