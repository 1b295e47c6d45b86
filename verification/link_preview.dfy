/**
 * The link preview of `useLinkPreview`: metadata extraction (`pickMeta`), the memoising
 * resolver (`resolveMeta`) with its static demo table and single meta-refresh hop, and the
 * hook's state updates.
 */
module LinkPreview {
  import opened Wrappers
  import opened Urls
  import opened Html
  import opened JsText

  /** A preview record; every field but `url` may be absent. */
  datatype LinkPreviewMeta = LinkPreviewMeta(
    url: string,
    siteName: Option<string>,
    title: Option<string>,
    description: Option<string>,
    image: Option<string>,
    favicon: Option<string>)

  // The expressions `pickMeta` tries, named after the tag they match.
  const OgTitle := MetaSel("property", "og:title")
  const TwitterTitle := MetaSel("name", "twitter:title")
  const OgDescription := MetaSel("property", "og:description")
  const NameDescription := MetaSel("name", "description")
  const TwitterDescription := MetaSel("name", "twitter:description")
  const OgSiteName := MetaSel("property", "og:site_name")
  const OgImage := MetaSel("property", "og:image")
  const OgImageUrl := MetaSel("property", "og:image:url")
  const OgImageSecureUrl := MetaSel("property", "og:image:secure_url")
  const TwitterImage := MetaSel("name", "twitter:image")
  const TwitterImageSrc := MetaSel("name", "twitter:image:src")

  /** Each field's selectors in priority order: the first one that finds a value supplies it. */
  const TitleOrder := [OgTitle, TwitterTitle, TitleSel]
  const DescriptionOrder := [OgDescription, NameDescription, TwitterDescription]
  const ImageOrder := [OgImage, OgImageUrl, OgImageSecureUrl, TwitterImage, TwitterImageSrc]

  /**
   * `pickMeta(html, url)`, following the source's evaluation order: the Open Graph lookups
   * first, then the Twitter-card fallbacks for whatever is still missing, then `<title>`,
   * then the favicon, with `abs` applied to image and favicon and the domain as last resort
   * for the title.
   */
  function PickMeta(ops: UrlOps, page: Page, url: string): (r: LinkPreviewMeta)
    ensures r.url == url
    ensures r.title.Some? && r.siteName.Some?
  {
    var title0 := Find(page, OgTitle);
    var description0 := JsOr(Find(page, OgDescription), Find(page, NameDescription));
    var siteName0 := Find(page, OgSiteName);
    var siteName := if TextTruthy(siteName0) then siteName0.value else GetDomain(ops, url);
    var image0 := JsOr(JsOr(Find(page, OgImage), Find(page, OgImageUrl)), Find(page, OgImageSecureUrl));
    var title1 := if !TextTruthy(title0) then Find(page, TwitterTitle) else title0;
    var description1 := if !TextTruthy(description0) then Find(page, TwitterDescription) else description0;
    var image1 := if !TextTruthy(image0) then JsOr(Find(page, TwitterImage), Find(page, TwitterImageSrc)) else image0;
    var titleText := Find(page, TitleSel);
    var title2 := if !TextTruthy(title1) && TextTruthy(titleText) then titleText else title1;
    var favicon := Find(page, IconSel);
    LinkPreviewMeta(url, Some(siteName), Some(title2.GetOr(GetDomain(ops, url))),
                    description1, Abs(ops, url, image1), Abs(ops, url, favicon))
  }

  /** A priority list is tried head first; `||` suffices since a lookup never yields `''`. */
  lemma FirstOfCons(page: Page, sels: seq<Selector>)
    requires |sels| > 0
    ensures FirstOf(page, sels) == JsOr(Find(page, sels[0]), FirstOf(page, sels[1..]))
  {
  }

  /** `FirstOf` over a list of two and of three selectors, written out. */
  lemma FirstOfThree(page: Page, a: Selector, b: Selector, c: Selector)
    ensures FirstOf(page, [b, c]) == JsOr(Find(page, b), Find(page, c))
    ensures FirstOf(page, [a, b, c]) == JsOr(JsOr(Find(page, a), Find(page, b)), Find(page, c))
  {
    FirstOfCons(page, [a, b, c]);
    assert [a, b, c][1..] == [b, c];
    FirstOfCons(page, [b, c]);
    assert [b, c][1..] == [c];
    FirstOfCons(page, [c]);
    assert [c][1..] == [];
  }

  /**
   * The extractor's interleaved lookups are equivalent to one priority list per field: title from `og:title`,
   * then `twitter:title`, then `<title>`, then the domain; description from `og:description`,
   * then `name=description`, then `twitter:description`; image from the three Open Graph
   * keys, then the two Twitter keys, passed through `abs`; favicon through `abs`; site name
   * from `og:site_name`, then the domain. The `url` field is the input URL.
   */
  lemma PickMetaPriorities(ops: UrlOps, page: Page, url: string)
    ensures PickMeta(ops, page, url).url == url
    ensures PickMeta(ops, page, url).title == Some(FirstOf(page, TitleOrder).GetOr(GetDomain(ops, url)))
    ensures PickMeta(ops, page, url).description == FirstOf(page, DescriptionOrder)
    ensures PickMeta(ops, page, url).image == Abs(ops, url, FirstOf(page, ImageOrder))
    ensures PickMeta(ops, page, url).favicon == Abs(ops, url, Find(page, IconSel))
    ensures PickMeta(ops, page, url).siteName == Some(Find(page, OgSiteName).GetOr(GetDomain(ops, url)))
  {
    FirstOfThree(page, OgTitle, TwitterTitle, TitleSel);
    FirstOfThree(page, OgDescription, NameDescription, TwitterDescription);
    FirstOfThree(page, OgImageSecureUrl, TwitterImage, TwitterImageSrc);
    assert ImageOrder[2..] == [OgImageSecureUrl, TwitterImage, TwitterImageSrc];
    FirstOfCons(page, ImageOrder);
    assert ImageOrder[1..][1..] == ImageOrder[2..];
    FirstOfCons(page, ImageOrder[1..]);
  }

  /** `og:title` beats every other title source, `<title>` included. */
  lemma OgTitleWins(ops: UrlOps, page: Page, url: string)
    requires Find(page, OgTitle).Some?
    ensures PickMeta(ops, page, url).title == Find(page, OgTitle)
  {
  }

  /**
   * Without any meta or title tag the title is the URL's domain — the empty string for a URL
   * that does not parse, so a title is present either way.
   */
  lemma TitleFallsBackToDomain(ops: UrlOps, page: Page, url: string)
    requires forall k :: 0 <= k < |page| ==> !page[k].MetaTag? && !page[k].TitleTag?
    ensures PickMeta(ops, page, url).title == Some(GetDomain(ops, url))
    ensures ops.host(url).None? ==> PickMeta(ops, page, url).title == Some("")
  {
    FindIsFirstCapture(page, OgTitle);
    FindIsFirstCapture(page, TwitterTitle);
    FindIsFirstCapture(page, TitleSel);
  }

  /** A present description was captured from a tag of the page by one of its three selectors. */
  lemma DescriptionComesFromPage(ops: UrlOps, page: Page, url: string)
    requires PickMeta(ops, page, url).description.Some?
    ensures exists k, j :: 0 <= k < |page| && 0 <= j < |DescriptionOrder|
              && Capture(page[k], DescriptionOrder[j]) == PickMeta(ops, page, url).description
  {
    PickMetaPriorities(ops, page, url);
    var d := PickMeta(ops, page, url).description;
    var j := if Find(page, OgDescription).Some? then 0
             else if Find(page, NameDescription).Some? then 1 else 2;
    FirstOfThree(page, OgDescription, NameDescription, TwitterDescription);
    assert d == Find(page, DescriptionOrder[j]);
    var k := FirstMatch(page, DescriptionOrder[j]);
    assert Capture(page[k], DescriptionOrder[j]) == d;
  }

  /**
   * An example page: a `<title>` followed by Open Graph tags, the first written in upper case.
   * Stated tag by tag rather than as a sequence display, which keeps the proofs small.
   */
  predicate IsExample(p: Page) {
    && |p| == 4
    && p[0] == TitleTag("Plain")
    && p[1] == MetaTag("PROPERTY", "OG:Title", "Hello")
    && p[2] == MetaTag("property", "og:description", "Desc")
    && p[3] == MetaTag("property", "og:image", "/img.png")
  }

  /** The example's `og:title`, found although written in upper case. */
  lemma ExampleTitle(p: Page)
    requires IsExample(p)
    ensures Find(p, OgTitle) == Some("Hello")
  {
    assert Fold("PROPERTY") == Fold("property");
    assert Fold("OG:Title") == Fold("og:title");
    FindIsFirstCapture(p, OgTitle);
    assert Capture(p[0], OgTitle).None?;
  }

  /** The example's description, which no other tag's key matches. */
  lemma ExampleDescription(p: Page)
    requires IsExample(p)
    ensures Find(p, OgDescription) == Some("Desc")
  {
    assert Fold("og:title") != Fold("og:description") by { assert Fold("og:title")[3] != Fold("og:description")[3]; }
    FindIsFirstCapture(p, OgDescription);
    assert Capture(p[1], OgDescription).None?;
  }

  /** The example's relative `og:image`. */
  lemma ExampleImage(p: Page)
    requires IsExample(p)
    ensures Find(p, OgImage) == Some("/img.png")
  {
    assert Fold("og:title") != Fold("og:image") by { assert Fold("og:title")[3] != Fold("og:image")[3]; }
    assert Fold("og:description") != Fold("og:image") by { assert Fold("og:description")[3] != Fold("og:image")[3]; }
    assert Capture(p[0], OgImage).None? && Capture(p[1], OgImage).None? && Capture(p[2], OgImage).None?;
    assert Capture(p[3], OgImage) == Some("/img.png");
    assert forall k :: 0 <= k < 3 ==> Capture(p[k], OgImage).None?;
    FindIsFirstCapture(p, OgImage);
  }

  /** The example has no site name and no favicon. */
  lemma ExampleAbsent(p: Page)
    requires IsExample(p)
    ensures Find(p, OgSiteName).None?
    ensures Find(p, IconSel).None?
  {
    assert Fold("og:title") != Fold("og:site_name") by { assert Fold("og:title")[3] != Fold("og:site_name")[3]; }
    assert Fold("og:description") != Fold("og:site_name") by { assert Fold("og:description")[3] != Fold("og:site_name")[3]; }
    assert Fold("og:image") != Fold("og:site_name") by { assert Fold("og:image")[3] != Fold("og:site_name")[3]; }
    FindIsFirstCapture(p, OgSiteName);
    FindIsFirstCapture(p, IconSel);
  }

  /**
   * On the example page: matching ignores case, `og:title` beats `<title>`, the site name falls
   * back to the domain, and the relative image is resolved against the page URL.
   */
  lemma ExampleExtraction(ops: UrlOps, p: Page)
    requires IsExample(p)
    requires ops.host("https://a.com/x") == Some("a.com")
    requires ops.join("/img.png", "https://a.com/x") == Some("https://a.com/img.png")
    ensures PickMeta(ops, p, "https://a.com/x")
            == LinkPreviewMeta("https://a.com/x", Some("a.com"), Some("Hello"), Some("Desc"),
                               Some("https://a.com/img.png"), None)
  {
    var url := "https://a.com/x";
    assert !IsHttpUrl("/img.png") by { assert "/img.png"[0] != 'h'; }
    assert !StartsWith("a.com", WwwPrefix) by { assert "a.com"[0] != WwwPrefix[0]; }
    PickMetaPriorities(ops, p, url);
    ExampleTitle(p);
    ExampleDescription(p);
    ExampleImage(p);
    ExampleAbsent(p);
    assert TitleOrder[0] == OgTitle && DescriptionOrder[0] == OgDescription && ImageOrder[0] == OgImage;
    assert FirstOf(p, TitleOrder) == Some("Hello");
    assert FirstOf(p, DescriptionOrder) == Some("Desc");
    assert FirstOf(p, ImageOrder) == Some("/img.png");
    assert GetDomain(ops, url) == "a.com";
  }

  /** The static table of demo entries `resolveMeta` consults before the network. */
  const Mock: map<string, LinkPreviewMeta> := map[
    "https://news.mt.co.kr/mtview.php?no=2025082813314052084" :=
      LinkPreviewMeta(
        "https://news.mt.co.kr/mtview.php?no=2025082813314052084",
        Some("머니투데이"),
        Some("예시) 8월 28일 경제 이슈 총정리"),
        Some("금리·주식·환율 등 핵심 포인트를 한 번에 정리했습니다."),
        Some("https://img.mt.co.kr/mt_static/img/mt_fb_share.png"),
        Some("https://news.mt.co.kr/favicon.ico")),
    "https://www.yna.co.kr/view/AKR20250828028000017?input=1195m" :=
      LinkPreviewMeta(
        "https://www.yna.co.kr/view/AKR20250828028000017?input=1195m",
        Some("연합뉴스"),
        Some("예시) 정부, 새로운 발표…주요 내용은?"),
        Some("정책 방향과 향후 일정에 대한 개요를 담았습니다."),
        Some("https://img.yna.co.kr/etc/logo/og_yna.png"),
        Some("https://www.yna.co.kr/favicon.ico"))
  ]

  /** What `fetchHTML` gives back: the page, or a rejection (network error, 6 s abort). */
  datatype Fetched = Fetched(page: Page) | FetchFailed

  /** The network as an oracle: the outcome of fetching each URL. */
  type Network = string -> Fetched

  /** Why `resolveMeta` rejects. */
  datatype ResolveError =
    | FetchError(url: string)            // fetchHTML of this URL rejected
    | UnresolvableRefresh(target: string) // `abs(url, metaRefresh)!` was undefined

  /** The process-wide cache, keyed by the exact input URL. */
  type Cache = map<string, LinkPreviewMeta>

  /**
   * One call of `resolveMeta`: its result, the cache afterwards, the URLs fetched in order,
   * and the image handed to `Image.prefetch`, if any.
   */
  datatype Resolution = Resolution(
    result: Result<LinkPreviewMeta, ResolveError>,
    cache: Cache,
    fetched: seq<string>,
    prewarmed: Option<string>)

  /**
   * `resolveMeta(url)`: the cache, then the demo table, then one fetch; a meta-refresh in the
   * page costs exactly one more fetch and the record describes the target page, while the
   * entry is stored under the original URL. The outcome of the image pre-warm is caught and
   * discarded, so only the attempt is recorded.
   */
  function ResolveMeta(ops: UrlOps, net: Network, cache: Cache, url: string): (r: Resolution)
    ensures url in cache ==> r == Resolution(Success(cache[url]), cache, [], None)
    ensures url !in cache && url in Mock ==>
              r.result == Success(Mock[url]) && r.cache == cache[url := Mock[url]] && r.fetched == []
    ensures r.fetched == [] <==> url in cache || url in Mock
    ensures |r.fetched| <= 2 && (|r.fetched| > 0 ==> r.fetched[0] == url)
    ensures r.result.Failure? ==> r.cache == cache && r.prewarmed.None?
    ensures r.result.Success? ==> r.cache == cache[url := r.result.value]
    ensures |r.fetched| == 2 ==> r.prewarmed.None?
    ensures r.prewarmed.Some? ==> r.result.Success? && r.result.value.image == r.prewarmed
  {
    if url in cache then Resolution(Success(cache[url]), cache, [], None)
    else if url in Mock then Resolution(Success(Mock[url]), cache[url := Mock[url]], [], None)
    else
      match net(url)
      case FetchFailed => Resolution(Failure(FetchError(url)), cache, [url], None)
      case Fetched(page) =>
        var metaRefresh := Find(page, RefreshSel);
        if TextTruthy(metaRefresh) then
          match Abs(ops, url, metaRefresh)
          case None => Resolution(Failure(UnresolvableRefresh(metaRefresh.value)), cache, [url], None)
          case Some(next) =>
            match net(next)
            case FetchFailed => Resolution(Failure(FetchError(next)), cache, [url, next], None)
            case Fetched(page2) =>
              var meta2 := PickMeta(ops, page2, next);
              Resolution(Success(meta2), cache[url := meta2], [url, next], None)
        else
          var meta := PickMeta(ops, page, url);
          var prewarm := if TextTruthy(meta.image) then meta.image else None;
          Resolution(Success(meta), cache[url := meta], [url], prewarm)
  }

  /**
   * The refresh hop: two fetches, the record extracted from the target page (so its `url` is
   * the target), stored under the input URL, no pre-warm.
   */
  lemma RefreshHop(ops: UrlOps, net: Network, cache: Cache, url: string, page: Page, next: string, page2: Page)
    requires url !in cache && url !in Mock
    requires net(url) == Fetched(page)
    requires Find(page, RefreshSel).Some?
    requires Abs(ops, url, Find(page, RefreshSel)) == Some(next)
    requires net(next) == Fetched(page2)
    ensures var r := ResolveMeta(ops, net, cache, url);
            && r.result == Success(PickMeta(ops, page2, next))
            && r.result.value.url == next
            && r.fetched == [url, next]
            && r.cache == cache[url := PickMeta(ops, page2, next)]
            && r.prewarmed.None?
  {
  }

  /** Without a refresh the record describes the fetched page and its image, if any, is pre-warmed. */
  lemma PlainFetch(ops: UrlOps, net: Network, cache: Cache, url: string, page: Page)
    requires url !in cache && url !in Mock
    requires net(url) == Fetched(page)
    requires Find(page, RefreshSel).None?
    ensures var r := ResolveMeta(ops, net, cache, url);
            && r.result == Success(PickMeta(ops, page, url))
            && r.fetched == [url]
            && r.prewarmed == (if TextTruthy(PickMeta(ops, page, url).image) then PickMeta(ops, page, url).image else None)
  {
  }

  /** A second resolution of a URL that resolved is served from the cache, with no fetch. */
  lemma SecondResolveHitsCache(ops: UrlOps, net: Network, net2: Network, cache: Cache, url: string)
    requires ResolveMeta(ops, net, cache, url).result.Success?
    ensures var r1 := ResolveMeta(ops, net, cache, url);
            ResolveMeta(ops, net2, r1.cache, url) == Resolution(r1.result, r1.cache, [], None)
  {
  }

  /** Entries are written once: a resolution never changes or drops an existing entry. */
  lemma EntriesNeverOverwritten(ops: UrlOps, net: Network, cache: Cache, url: string, k: string)
    requires k in cache
    ensures k in ResolveMeta(ops, net, cache, url).cache
    ensures ResolveMeta(ops, net, cache, url).cache[k] == cache[k]
  {
  }

  /** The state `useLinkPreview` exposes. */
  datatype PreviewState = PreviewState(data: Option<LinkPreviewMeta>, loading: bool, error: Option<ResolveError>)

  /**
   * The effect on a change of `url`: no URL (`undefined` or `''`) clears data and error but
   * leaves `loading` as it was; a URL sets `loading` and clears the error, keeping the old data
   * until the resolution settles.
   */
  function OnUrl(s: PreviewState, url: Option<string>): (r: PreviewState)
    ensures !TextTruthy(url) ==> r.data.None? && r.error.None? && r.loading == s.loading
    ensures TextTruthy(url) ==> r.loading && r.error.None? && r.data == s.data
  {
    if !TextTruthy(url) then s.(data := None, error := None)
    else s.(loading := true, error := None)
  }

  /** The settled resolution: data on success, error and no data on failure, never still loading. */
  function OnResolved(s: PreviewState, result: Result<LinkPreviewMeta, ResolveError>): (r: PreviewState)
    ensures !r.loading
    ensures r.data.Some? <==> result.Success?
    ensures result.Success? ==> r.data == Some(result.value) && r.error == s.error
    ensures result.Failure? ==> r.error == Some(result.error)
  {
    match result
    case Success(meta) => s.(data := Some(meta), loading := false)
    case Failure(e) => s.(error := Some(e), data := None, loading := false)
  }

  /**
   * The hook end to end: for a URL, what it ends up showing is what `resolveMeta` settled on —
   * the cached entry for a cached URL, the demo record for a demo URL, the extracted record
   * after a fetch — and a failure shows no data and its error. Without a URL the data and
   * error are cleared whatever the cache holds, and nothing is resolved.
   */
  lemma PreviewShowsResolution(ops: UrlOps, net: Network, cache: Cache, s: PreviewState, url: Option<string>)
    ensures !TextTruthy(url) ==> OnUrl(s, url) == s.(data := None, error := None)
    ensures TextTruthy(url) ==>
              var r := ResolveMeta(ops, net, cache, url.value);
              var after := OnResolved(OnUrl(s, url), r.result);
              && !after.loading
              && (r.result.Success? ==> after.data == Some(r.result.value) && after.error.None?)
              && (r.result.Failure? ==> after.data.None? && after.error == Some(r.result.error))
              && (url.value in cache ==> after == PreviewState(Some(cache[url.value]), false, None))
              && (url.value !in cache && url.value in Mock ==> after == PreviewState(Some(Mock[url.value]), false, None))
  {
  }
}
