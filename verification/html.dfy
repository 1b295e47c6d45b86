/**
 * A pre-tokenised HTML page and the regular-expression lookups the link preview runs on it.
 * Each lookup returns the capture of the FIRST tag that matches, as `RegExp.exec` does.
 */
module Html {
  import opened Wrappers
  import opened JsText

  /** The tags the preview extractor looks at; everything else is `OtherTag`. */
  datatype Tag =
    | MetaTag(attr: string, key: string, content: string)  // <meta {attr}="{key}" ... content="{content}">
    | TitleTag(text: string)                               // <title ...>{text}</title>
    | LinkTag(rel: string, href: string)                   // <link rel="{rel}" ... href="{href}">
    | RefreshTag(target: string)                           // <meta http-equiv="refresh" content="...url={target}...">
    | OtherTag

  type Page = seq<Tag>

  /** One of the expressions the extractor matches against the page. */
  datatype Selector =
    | MetaSel(attr: string, key: string)  // rx(attr, key)
    | TitleSel                            // /<title[^>]*>([^<]+)<\/title>/i
    | IconSel                             // <link rel="icon"|"shortcut icon" href=...>
    | RefreshSel                          // <meta http-equiv="refresh" ... url=...>

  /**
   * What a selector captures from one tag. Names and keys compare case-insensitively (the `i`
   * flag); every capture group is a `+` repetition, so an empty value does not match.
   */
  function Capture(t: Tag, sel: Selector): (r: Option<string>)
    ensures r.Some? ==> r.value != ""
    ensures t.OtherTag? ==> r.None?
  {
    match sel
    case MetaSel(attr, key) =>
      if t.MetaTag? && EqualsIgnoreCase(t.attr, attr) && EqualsIgnoreCase(t.key, key) && t.content != ""
      then Some(t.content) else None
    case TitleSel =>
      if t.TitleTag? && t.text != "" then Some(t.text) else None
    case IconSel =>
      if t.LinkTag? && (EqualsIgnoreCase(t.rel, "icon") || EqualsIgnoreCase(t.rel, "shortcut icon")) && t.href != ""
      then Some(t.href) else None
    case RefreshSel =>
      if t.RefreshTag? && t.target != "" then Some(t.target) else None
  }

  /**
   * The matching rule of each expression, against case folding rather than the `i`-flag
   * comparison: a meta expression captures a meta tag's content iff attribute name and key
   * lower-case to the expression's; the title expression a title's text; the favicon
   * expression the `href` of a link whose `rel` lower-cases to `icon` or `shortcut icon`; the
   * refresh expression a refresh tag's target — each only when that value is non-empty.
   */
  lemma CaptureRule(t: Tag, sel: Selector)
    ensures sel.MetaSel? ==>
              (Capture(t, sel).Some? <==>
                 t.MetaTag? && Fold(t.attr) == Fold(sel.attr) && Fold(t.key) == Fold(sel.key) && |t.content| > 0)
    ensures sel.TitleSel? ==> (Capture(t, sel).Some? <==> t.TitleTag? && |t.text| > 0)
    ensures sel.IconSel? ==>
              (Capture(t, sel).Some? <==>
                 t.LinkTag? && (Fold(t.rel) == "icon" || Fold(t.rel) == "shortcut icon") && |t.href| > 0)
    ensures sel.RefreshSel? ==> (Capture(t, sel).Some? <==> t.RefreshTag? && |t.target| > 0)
    ensures Capture(t, sel).Some? ==>
              Capture(t, sel).value == match t
                                       case MetaTag(_, _, content) => content
                                       case TitleTag(text) => text
                                       case LinkTag(_, href) => href
                                       case RefreshTag(target) => target
                                       case OtherTag => ""
  {
  }

  /**
   * The `i` flag: a meta selector whose name and key differ from another's only in ASCII case
   * captures exactly the same tags.
   */
  lemma CaptureIgnoresCase(t: Tag, attr: string, key: string, attr': string, key': string)
    requires EqualsIgnoreCase(attr, attr') && EqualsIgnoreCase(key, key')
    ensures Capture(t, MetaSel(attr, key)) == Capture(t, MetaSel(attr', key'))
  {
    if t.MetaTag? {
      assert EqualsIgnoreCase(t.attr, attr) <==> EqualsIgnoreCase(t.attr, attr');
      assert EqualsIgnoreCase(t.key, key) <==> EqualsIgnoreCase(t.key, key');
    }
  }

  /** Index of the first tag the selector captures from, `|page|` when there is none. */
  function FirstMatch(page: Page, sel: Selector): (i: nat)
    ensures i <= |page|
    ensures forall k :: 0 <= k < i ==> Capture(page[k], sel).None?
    ensures i < |page| ==> Capture(page[i], sel).Some?
  {
    if |page| == 0 then 0
    else if Capture(page[0], sel).Some? then 0
    else 1 + FirstMatch(page[1..], sel)
  }

  /** `regex.exec(html)?.[1]`: the capture of the first matching tag. */
  function Find(page: Page, sel: Selector): (r: Option<string>)
    ensures r.Some? ==> r.value != ""
  {
    var i := FirstMatch(page, sel);
    if i < |page| then Capture(page[i], sel) else None
  }

  /**
   * `Find` against its reference reading: nothing is found exactly when no tag matches, and
   * otherwise the value is the capture of the earliest matching tag.
   */
  lemma FindIsFirstCapture(page: Page, sel: Selector)
    ensures Find(page, sel).None? <==> forall k :: 0 <= k < |page| ==> Capture(page[k], sel).None?
    ensures forall i ::
              (0 <= i < |page| && Capture(page[i], sel).Some? && forall k :: 0 <= k < i ==> Capture(page[k], sel).None?)
              ==> Find(page, sel) == Capture(page[i], sel)
  {
    var m := FirstMatch(page, sel);
    forall i | 0 <= i < |page| && Capture(page[i], sel).Some? && forall k :: 0 <= k < i ==> Capture(page[k], sel).None?
      ensures Find(page, sel) == Capture(page[i], sel)
    {
      assert m == i;
    }
  }

  /** The first selector of a priority list that finds something, each searched over the whole page. */
  function FirstOf(page: Page, sels: seq<Selector>): (r: Option<string>)
    ensures r.Some? ==> r.value != ""
    ensures r.None? <==> forall j :: 0 <= j < |sels| ==> Find(page, sels[j]).None?
    ensures forall j :: 0 <= j < |sels| && Find(page, sels[j]).Some? && (forall k :: 0 <= k < j ==> Find(page, sels[k]).None?)
              ==> r == Find(page, sels[j])
  {
    if |sels| == 0 then None
    else if Find(page, sels[0]).Some? then Find(page, sels[0])
    else
      var tail := sels[1..];
      var rest := FirstOf(page, tail);
      assert rest.None? <==> forall j :: 0 <= j < |sels| ==> Find(page, sels[j]).None? by {
        assert forall j :: 1 <= j < |sels| ==> tail[j - 1] == sels[j];
      }
      assert forall j :: 0 <= j < |sels| && Find(page, sels[j]).Some? && (forall k :: 0 <= k < j ==> Find(page, sels[k]).None?)
               ==> rest == Find(page, sels[j]) by {
        forall j | 1 <= j < |sels| && Find(page, sels[j]).Some? && (forall k :: 0 <= k < j ==> Find(page, sels[k]).None?)
          ensures rest == Find(page, sels[j])
        {
          assert tail[j - 1] == sels[j];
          assert forall k :: 0 <= k < j - 1 ==> Find(page, tail[k]).None? by {
            forall k | 0 <= k < j - 1 ensures Find(page, tail[k]).None? { assert tail[k] == sels[k + 1]; }
          }
        }
      }
      rest
  }

  /**
   * First match wins: tags appended after a match never change what is found, and when the
   * prefix has no match the lookup behaves as on the appended part alone.
   */
  lemma {:induction false} FindAppend(a: Page, b: Page, sel: Selector)
    ensures Find(a + b, sel) == if Find(a, sel).Some? then Find(a, sel) else Find(b, sel)
  {
    if |a| > 0 {
      assert (a + b)[1..] == a[1..] + b;
      FindAppend(a[1..], b, sel);
      if Capture(a[0], sel).None? {
        FindSkipsHead(a + b, sel);
        FindSkipsHead(a, sel);
      }
    } else {
      assert a + b == b;
    }
  }

  /** A leading tag the selector does not capture from is skipped. */
  lemma FindSkipsHead(page: Page, sel: Selector)
    requires |page| > 0 && Capture(page[0], sel).None?
    ensures Find(page, sel) == Find(page[1..], sel)
  {
    assert FirstMatch(page, sel) == 1 + FirstMatch(page[1..], sel);
  }
}
