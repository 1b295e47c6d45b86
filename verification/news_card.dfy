/** The view `LinkPreviewCard` renders for one URL, as a pure function of the hook's state. */
module NewsCard {
  import opened Wrappers
  import opened Urls
  import opened LinkPreview
  import opened JsText
  import Html

  /** The text of the fallback card. */
  const UnavailableNote := "미리보기를 불러오지 못했어요. 탭하여 열기"

  /** An image slot: the picture at a URI, or the grey placeholder box. */
  datatype Picture = Photo(uri: string) | PlaceholderBox

  /** The card's visual states. */
  datatype CardView =
    | Skeleton(thumbSize: nat)
    | Fallback(title: string, note: string)
    | CompactCard(thumb: Picture, title: string, description: Option<string>, site: string)
    | FullCard(hero: Picture, site: string, title: string, description: Option<string>)

  /**
   * The card's own domain: the host without one leading `www.`, and — unlike `getDomain` —
   * the raw URL itself when the URL does not parse.
   */
  function CardDomain(ops: UrlOps, url: string): (r: string)
    ensures ops.host(url).None? ==> r == url
    ensures ops.host(url).Some? ==> r == GetDomain(ops, url)
  {
    match ops.host(url)
    case None => url
    case Some(h) => StripWww(h)
  }

  /** The image slot: the picture only for a truthy `data.image`. */
  function HeroOf(image: Option<string>): (p: Picture)
    ensures p.Photo? <==> TextTruthy(image)
    ensures p.Photo? ==> p.uri == image.value
  {
    if TextTruthy(image) then Photo(image.value) else PlaceholderBox
  }

  /** The description line, rendered only when the description is truthy. */
  function ShownDescription(d: Option<string>): (r: Option<string>)
    ensures r.Some? <==> TextTruthy(d)
    ensures r.Some? ==> r == d
  {
    if TextTruthy(d) then d else None
  }

  /** `LinkPreviewCard({url, compact})` given the hook's `loading` and `data`. */
  function SelectView(ops: UrlOps, loading: bool, data: Option<LinkPreviewMeta>, compact: bool, url: string): (v: CardView)
    ensures loading ==> v.Skeleton? && v.thumbSize == (if compact then 64 else 88)
    ensures !loading && data.None? ==> v == Fallback(CardDomain(ops, url), UnavailableNote)
    ensures !loading && data.Some? ==> (v.CompactCard? <==> compact) && (v.FullCard? <==> !compact)
  {
    if loading then Skeleton(if compact then 64 else 88)
    else if data.None? then Fallback(CardDomain(ops, url), UnavailableNote)
    else
      var meta := data.value;
      var domain := CardDomain(ops, url);
      var hero := HeroOf(meta.image);
      var site := meta.siteName.GetOr(domain);
      var title := meta.title.GetOr(domain);
      if compact then CompactCard(hero, title, ShownDescription(meta.description), site)
      else FullCard(hero, site, title, ShownDescription(meta.description))
  }

  /** The site and title lines of a resolved card use `??`, so an empty site name is shown as is. */
  lemma CardTextFallbacks(ops: UrlOps, meta: LinkPreviewMeta, compact: bool, url: string)
    ensures var v := SelectView(ops, false, Some(meta), compact, url);
            && v.site == (if meta.siteName.Some? then meta.siteName.value else CardDomain(ops, url))
            && v.title == (if meta.title.Some? then meta.title.value else CardDomain(ops, url))
            && (v.description.Some? <==> TextTruthy(meta.description))
            && ((if compact then v.thumb else v.hero).Photo? <==> TextTruthy(meta.image))
  {
  }

  /**
   * For a URL that does not parse the card names the raw URL, where the extractor would have
   * used the empty string.
   */
  lemma CardDomainDiffersFromGetDomain(ops: UrlOps, url: string)
    requires ops.host(url).None? && url != ""
    ensures CardDomain(ops, url) == url && GetDomain(ops, url) == "" && CardDomain(ops, url) != GetDomain(ops, url)
  {
  }

  /** A card over a record the extractor produced always has a title line of its own. */
  lemma ExtractedTitleIsShown(ops: UrlOps, page: Html.Page, url: string, compact: bool)
    ensures SelectView(ops, false, Some(PickMeta(ops, page, url)), compact, url).title == PickMeta(ops, page, url).title.value
  {
  }
}
