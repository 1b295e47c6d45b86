/** URL handling of the link preview: the `www.` strip, `getDomain` and `abs`. */
module Urls {
  import opened Wrappers
  import opened JsText

  /**
   * The WHATWG URL parser, which the model does not re-implement. `host(u)` is
   * `new URL(u).hostname`, `None` when the constructor throws; `join(rel, base)` is
   * `new URL(rel, base).toString()`, `None` when it throws.
   */
  datatype UrlOps = UrlOps(host: string -> Option<string>, join: (string, string) -> Option<string>)

  const WwwPrefix := "www."

  /** `hostname.replace(/^www\./, '')`: drops one leading `www.` (case-sensitive), nothing else. */
  function StripWww(h: string): (r: string)
    ensures StartsWith(h, WwwPrefix) ==> h == WwwPrefix + r
    ensures !StartsWith(h, WwwPrefix) ==> r == h
  {
    if StartsWith(h, WwwPrefix) then h[|WwwPrefix|..] else h
  }

  /** Only one `www.` is removed: `www.www.a` becomes `www.a`. */
  lemma StripWwwOnce(rest: string)
    ensures StripWww(WwwPrefix + rest) == rest
  {
    assert (WwwPrefix + rest)[..|WwwPrefix|] == WwwPrefix;
  }

  /** `getDomain(u)` of the link preview: the host without `www.`, `''` when `u` does not parse. */
  function GetDomain(ops: UrlOps, u: string): (r: string)
    ensures ops.host(u).None? ==> r == ""
    ensures ops.host(u).Some? ==> r == StripWww(ops.host(u).value)
    ensures ops.host(u).Some? && !StartsWith(ops.host(u).value, WwwPrefix) ==> r == ops.host(u).value
    ensures ops.host(u).Some? && StartsWith(ops.host(u).value, WwwPrefix) ==> ops.host(u).value == WwwPrefix + r
  {
    match ops.host(u)
    case None => ""
    case Some(h) => StripWww(h)
  }

  /** Starts with `http://` or `https://`, the test `abs` uses to pass a value through. */
  predicate IsHttpUrl(s: string) {
    StartsWith(s, "http://") || StartsWith(s, "https://")
  }

  /**
   * `abs(base, maybe)`: no value (`undefined` or `''`) stays absent; an `http(s)://` value is
   * returned unchanged; anything else is resolved against `base`, and a resolution that throws
   * gives absent instead of an error.
   */
  function Abs(ops: UrlOps, base: string, maybe: Option<string>): (r: Option<string>)
    ensures maybe.None? || maybe == Some("") ==> r.None?
    ensures maybe.Some? && IsHttpUrl(maybe.value) ==> r == maybe
    ensures maybe.Some? && maybe.value != "" && !IsHttpUrl(maybe.value) ==> r == ops.join(maybe.value, base)
  {
    match maybe
    case None => None
    case Some(m) =>
      if m == "" then None
      else if IsHttpUrl(m) then maybe
      else ops.join(m, base)
  }

  /** An absolute value does not depend on the page it was found on. */
  lemma AbsIgnoresBaseForAbsolute(ops: UrlOps, base1: string, base2: string, m: string)
    requires IsHttpUrl(m)
    ensures Abs(ops, base1, Some(m)) == Abs(ops, base2, Some(m)) == Some(m)
  {
  }

  /**
   * When the parser always serialises to an `http(s)` URL, `abs` is idempotent: resolving an
   * already resolved value again changes nothing.
   */
  lemma AbsIdempotent(ops: UrlOps, base: string, maybe: Option<string>)
    requires forall rel, b :: ops.join(rel, b).Some? ==> IsHttpUrl(ops.join(rel, b).value)
    ensures Abs(ops, base, Abs(ops, base, maybe)) == Abs(ops, base, maybe)
  {
    var r := Abs(ops, base, maybe);
    if r.Some? {
      assert IsHttpUrl(r.value);
      assert r.value != "" by { assert |r.value| >= |"http://"|; }
    }
  }
}
