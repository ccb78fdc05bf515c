/** api/catalog.js: the catalog handler, from the `type` and `extra` query values to the reply. */
module Catalog {
  import opened Wrappers
  import opened JsString
  import opened Foreign
  import opened Upstream
  import opened Utils

  // ------------------------------------------------------------------ paging

  /** `Math.floor(skip / 20) + 1`; for a positive divisor Dafny's `/` is the floor. */
  function Page(skip: int): (page: int)
    ensures 20 * (page - 1) <= skip < 20 * page
    ensures skip >= 0 ==> page >= 1
  {
    skip / 20 + 1
  }

  /** Each block of twenty offsets maps to one page. */
  lemma PageOfBlock(page: int, skip: int)
    requires 20 * (page - 1) <= skip < 20 * page
    ensures Page(skip) == page
  {
  }

  /** The page number as interpolated into the URL; `NaN` when `skip` did not parse. */
  function PageText(skip: Option<int>): string {
    match skip
    case None => "NaN"
    case Some(s) => IntToString(Page(s))
  }

  // -------------------------------------------------------------------- slug

  /** `search.replace(/\s+/g, '-')`: every maximal run of white space becomes one `-`. */
  function Slug(s: string): (r: string)
    ensures |r| <= |s|
    decreases |s|
  {
    if s == [] then []
    else if IsSpace(s[0]) then "-" + Slug(TrimStart(s[1..]))
    else [s[0]] + Slug(s[1..])
  }

  /** The slug has no white space left. */
  lemma {:induction false} SlugNoSpace(s: string)
    ensures forall i :: 0 <= i < |Slug(s)| ==> !IsSpace(Slug(s)[i])
    decreases |s|
  {
    if s != [] {
      if IsSpace(s[0]) {
        SlugNoSpace(TrimStart(s[1..]));
        NoSpaceCons('-', Slug(TrimStart(s[1..])));
      } else {
        SlugNoSpace(s[1..]);
        NoSpaceCons(s[0], Slug(s[1..]));
      }
    }
  }

  lemma NoSpaceCons(c: char, t: string)
    requires !IsSpace(c) && forall i :: 0 <= i < |t| ==> !IsSpace(t[i])
    ensures forall i :: 0 <= i < |[c] + t| ==> !IsSpace(([c] + t)[i])
  {
    forall i | 0 <= i < |[c] + t| ensures !IsSpace(([c] + t)[i]) {
      if i > 0 {
        assert ([c] + t)[i] == t[i - 1];
      }
    }
  }

  /** A search without white space is its own slug. */
  lemma {:induction false} SlugOfWord(s: string)
    requires forall i :: 0 <= i < |s| ==> !IsSpace(s[i])
    ensures Slug(s) == s
    decreases |s|
  {
    if s != [] {
      assert !IsSpace(s[0]);
      assert forall i :: 0 <= i < |s[1..]| ==> s[1..][i] == s[i + 1];
      SlugOfWord(s[1..]);
      assert [s[0]] + s[1..] == s;
    }
  }

  /** Dropping a run of white space in front of a character that is not white space. */
  lemma {:induction false} TrimStartRun(w: string, b: string)
    requires AllSpace(w)
    requires b == [] || !IsSpace(b[0])
    ensures TrimStart(w + b) == b
  {
    if w != [] {
      assert (w + b)[1..] == w[1..] + b;
      TrimStartRun(w[1..], b);
    } else {
      assert w + b == b;
    }
  }

  /** A non-empty white-space run in front of `b` becomes a single `-`. */
  lemma SlugAtRun(w: string, b: string)
    requires |w| >= 1 && AllSpace(w)
    requires b == [] || !IsSpace(b[0])
    ensures Slug(w + b) == "-" + Slug(b)
  {
    var s := w + b;
    assert s[0] == w[0];
    assert s[1..] == w[1..] + b;
    TrimStartRun(w[1..], b);
  }

  /**
   * The slug rule run by run: a white-space-free word `a`, then a non-empty white-space run `w`,
   * then the rest `b` (which starts with no white space) becomes `a`, one `-`, and the slug of `b`.
   */
  lemma {:induction false} SlugRun(a: string, w: string, b: string)
    requires forall i :: 0 <= i < |a| ==> !IsSpace(a[i])
    requires |w| >= 1 && AllSpace(w)
    requires b == [] || !IsSpace(b[0])
    ensures Slug(a + w + b) == a + "-" + Slug(b)
  {
    if a == [] {
      assert a + w + b == w + b;
      SlugAtRun(w, b);
    } else {
      var t := a[1..] + w + b;
      assert a + w + b == [a[0]] + t;
      SlugRun(a[1..], w, b);
      SlugCons(a[0], t);
      assert [a[0]] + (a[1..] + "-" + Slug(b)) == a + "-" + Slug(b);
    }
  }

  /** A character that is not white space is copied. */
  lemma SlugCons(c: char, t: string)
    requires !IsSpace(c)
    ensures Slug([c] + t) == [c] + Slug(t)
  {
    assert ([c] + t)[1..] == t;
  }

  /** Slugging twice is slugging once. */
  lemma SlugIdempotent(s: string)
    ensures Slug(Slug(s)) == Slug(s)
  {
    SlugNoSpace(s);
    SlugOfWord(Slug(s));
  }

  // ------------------------------------------------------------ extra params

  /** `extra` after `Object.assign`: empty for an empty `extra` string, else the parameters of `?` + extra. */
  function Extra(p: Primitives, extraStr: string): (r: Option<map<string, string>>)
    ensures r.None? ==> extraStr != ""
  {
    if extraStr == "" then Some(map[]) else UrlParams(p, "?" + extraStr)
  }

  /** A property of `extra`, `undefined` when absent. */
  function Lookup(extra: map<string, string>, key: string): Option<string> {
    if key in extra then Some(extra[key]) else None
  }

  /** `parseInt(extra.skip || 0)`; `None` is `NaN`. */
  function Skip(extra: map<string, string>): (r: Option<int>)
    ensures "skip" !in extra || extra["skip"] == "" ==> r == Some(0)
  {
    var skip := Lookup(extra, "skip");
    if Truthy(skip) then ParseInt(skip.value) else Some(0)
  }

  /** An empty `extra` leaves the parameters empty, and a missing `skip` counts as 0. */
  lemma EmptyExtra(p: Primitives)
    ensures Extra(p, "") == Some(map[])
    ensures Skip(map[]) == Some(0) && PageText(Skip(map[])) == "1"
  {
  }

  /** A non-empty `extra` without a second `?` is parsed as one query string. */
  lemma ExtraIsQuery(p: Primitives, extraStr: string)
    requires extraStr != [] && '?' !in extraStr
    ensures Extra(p, extraStr) == ParamsOf(p, Split(extraStr, '&'))
  {
    OnlyFirstQuery(p, "", extraStr, "");
    assert "" + "?" + extraStr + "" == "?" + extraStr;
  }

  // ------------------------------------------------------------------- reply

  datatype CatalogReply =
    | CatalogOk(metas: seq<MetaPreview>)      // 200 { metas }
    | CatalogBadRequest                       // 400 Invalid catalog type
    | CatalogServerError                      // 500 Failed to fetch catalog, metas []

  /** The listing URL the handler requests; `None` when the type is rejected before any request. */
  function ListingUrl(contentType: Option<string>, extra: map<string, string>): (url: Option<string>)
    ensures Truthy(Lookup(extra, "search")) ==> url == Some(BASE_URL + "/search/" + Slug(extra["search"]))
    ensures !Truthy(Lookup(extra, "search")) ==>
      (url.None? <==> contentType != Some("movie") && contentType != Some("series"))
  {
    var search := Lookup(extra, "search");
    var page := PageText(Skip(extra));
    if Truthy(search) then Some(BASE_URL + "/search/" + Slug(search.value))
    else if contentType == Some("movie") then Some(BASE_URL + "/movie?page=" + page)
    else if contentType == Some("series") then Some(BASE_URL + "/tv-show?page=" + page)
    else None
  }

  /** `results.filter(item => item.type === type)`. */
  function OfType(items: seq<MetaPreview>, contentType: Option<string>): (r: seq<MetaPreview>)
    ensures |r| <= |items|
    ensures forall i :: 0 <= i < |r| ==> Some(r[i].contentType) == contentType
    ensures forall x :: x in r <==> x in items && Some(x.contentType) == contentType
  {
    if items == [] then []
    else
      var rest := OfType(items[..|items| - 1], contentType);
      var x := items[|items| - 1];
      assert items == items[..|items| - 1] + [x];
      if Some(x.contentType) == contentType then rest + [x] else rest
  }

  /** The filter keeps the order of the results: it distributes over concatenation. */
  lemma {:induction false} OfTypeConcat(a: seq<MetaPreview>, b: seq<MetaPreview>, contentType: Option<string>)
    ensures OfType(a + b, contentType) == OfType(a, contentType) + OfType(b, contentType)
  {
    if b != [] {
      var b0 := b[..|b| - 1];
      assert (a + b)[..|a + b| - 1] == a + b0;
      assert (a + b)[|a + b| - 1] == b[|b| - 1];
      OfTypeConcat(a, b0, contentType);
    } else {
      assert a + b == a;
    }
  }

  /** The whole handler: the URL requested (if any) and the reply. */
  function Catalog(p: Primitives, up: Upstream, contentType: Option<string>, extraStr: string): (r: (Option<string>, CatalogReply))
    ensures r.1.CatalogBadRequest? ==> r.0.None?
    ensures Extra(p, extraStr).None? ==> r == (None, CatalogServerError)
    ensures Extra(p, extraStr).Some? ==> r.0 == ListingUrl(contentType, Extra(p, extraStr).value)
  {
    match Extra(p, extraStr)
    case None => (None, CatalogServerError)
    case Some(extra) =>
      match ListingUrl(contentType, extra)
      case None => (None, CatalogBadRequest)
      case Some(url) =>
        match up.listing(url)
        case None => (Some(url), CatalogServerError)
        case Some(cards) => (Some(url), CatalogOk(OfType(Previews(cards, DataSrcThenSrc), contentType)))
  }

  /** The handler, step by step as api/catalog.js runs it. */
  method CatalogHandler(p: Primitives, up: Upstream, contentType: Option<string>, extraStr: string)
    returns (requested: Option<string>, reply: CatalogReply)
    ensures (requested, reply) == Catalog(p, up, contentType, extraStr)
  {
    var extra: map<string, string> := map[];
    if extraStr != "" {
      var parsed := ParseUrlParams(p, "?" + extraStr);
      if parsed.None? {
        return None, CatalogServerError;
      }
      extra := parsed.value;
    }
    var url := ListingUrl(contentType, extra);
    if url.None? {
      return None, CatalogBadRequest;
    }
    requested := url;
    var cards := up.listing(url.value);
    if cards.None? {
      return requested, CatalogServerError;
    }
    var results := ParseSearchResults(cards.value, DataSrcThenSrc);
    reply := CatalogOk(OfType(results, contentType));
  }

  /** Without a search, a type other than `movie` or `series` is a 400 and nothing is requested. */
  lemma InvalidType(p: Primitives, up: Upstream, contentType: Option<string>, extraStr: string)
    requires Extra(p, extraStr).Some? && !Truthy(Lookup(Extra(p, extraStr).value, "search"))
    requires contentType != Some("movie") && contentType != Some("series")
    ensures Catalog(p, up, contentType, extraStr) == (None, CatalogBadRequest)
  {
  }

  /** A search wins over the type: the search page is requested whatever the type, paging ignored. */
  lemma SearchFirst(p: Primitives, up: Upstream, contentType: Option<string>, extraStr: string)
    requires Extra(p, extraStr).Some? && Truthy(Lookup(Extra(p, extraStr).value, "search"))
    ensures Catalog(p, up, contentType, extraStr).0 == Some(BASE_URL + "/search/" + Slug(Extra(p, extraStr).value["search"]))
  {
  }

  /** Browsing movies requests the page that holds offset `skip`. */
  lemma MoviePage(p: Primitives, up: Upstream, extraStr: string, skip: nat)
    requires Extra(p, extraStr).Some?
    requires !Truthy(Lookup(Extra(p, extraStr).value, "search"))
    requires Skip(Extra(p, extraStr).value) == Some(skip)
    ensures Catalog(p, up, Some("movie"), extraStr).0 == Some(BASE_URL + "/movie?page=" + NatToString(skip / 20 + 1))
  {
    BrowsePage(Extra(p, extraStr).value, skip);
  }

  /** Without a search, the movie and tv-show URLs carry the page of `skip`. */
  lemma BrowsePage(extra: map<string, string>, skip: nat)
    requires !Truthy(Lookup(extra, "search")) && Skip(extra) == Some(skip)
    ensures ListingUrl(Some("movie"), extra) == Some(BASE_URL + "/movie?page=" + NatToString(skip / 20 + 1))
    ensures ListingUrl(Some("series"), extra) == Some(BASE_URL + "/tv-show?page=" + NatToString(skip / 20 + 1))
  {
    assert PageText(Skip(extra)) == NatToString(skip / 20 + 1);
  }

  /** Returned metas are exactly the parsed entries of the requested type, in listing order. */
  lemma MetasOfType(p: Primitives, up: Upstream, contentType: Option<string>, extraStr: string, x: MetaPreview)
    requires Catalog(p, up, contentType, extraStr).1.CatalogOk?
    ensures var url := Catalog(p, up, contentType, extraStr).0.value;
      up.listing(url).Some? &&
      Catalog(p, up, contentType, extraStr).1.metas == OfType(Previews(up.listing(url).value, DataSrcThenSrc), contentType)
    ensures var url := Catalog(p, up, contentType, extraStr).0.value;
      up.listing(url).Some? &&
      (x in Catalog(p, up, contentType, extraStr).1.metas <==>
        x in Previews(up.listing(url).value, DataSrcThenSrc) && Some(x.contentType) == contentType)
  {
  }

  /** A loaded listing is answered 200; a failed fetch of a requested listing is a 500. */
  lemma ListingOutcome(p: Primitives, up: Upstream, contentType: Option<string>, extraStr: string)
    requires Catalog(p, up, contentType, extraStr).0.Some?
    ensures var url := Catalog(p, up, contentType, extraStr).0.value;
      Catalog(p, up, contentType, extraStr).1 ==
        match up.listing(url)
        case None => CatalogServerError
        case Some(cards) => CatalogOk(OfType(Previews(cards, DataSrcThenSrc), contentType))
  {
  }

  /** Browsing series requests the `tv-show` page that holds offset `skip`. */
  lemma SeriesPage(p: Primitives, up: Upstream, extraStr: string, skip: nat)
    requires Extra(p, extraStr).Some?
    requires !Truthy(Lookup(Extra(p, extraStr).value, "search"))
    requires Skip(Extra(p, extraStr).value) == Some(skip)
    ensures Catalog(p, up, Some("series"), extraStr).0 == Some(BASE_URL + "/tv-show?page=" + NatToString(skip / 20 + 1))
  {
    BrowsePage(Extra(p, extraStr).value, skip);
  }
}
