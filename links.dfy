/**
 * The document-wide click handler's decision on a link's `href`: route it
 * inside the site, scroll to an anchor of the home page, follow an old
 * hash-style section link, or leave the click to the browser.
 */
module Links {
  import opened Wrappers
  import opened Text
  import opened Router

  datatype LinkAction =
    | Route(path: string)        // default prevented, `navigateTo(path)`
    | Anchor(sectionId: string)  // on `/`: scroll to the element with that id, if any
    | Default                    // the browser follows the link

  /** The section names an old `#section` link may carry. */
  const LegacyHashes: set<string> := {"novidades", "gaming", "parceiros", "quiz", "ganhadores"}

  /** An internal link: starts with one `/`, not `//`, and does not mention `http`. */
  predicate Internal(href: string) {
    StartsWith(href, "/") && !StartsWith(href, "//") && !Contains(href, "http")
  }

  function ClassifyLink(href: Option<string>, pathname: string): LinkAction {
    match href
    case None => Default
    case Some(h) =>
      if Internal(h) then Route(h)
      else if StartsWith(h, "#") && pathname == "/" then Anchor(h[1..])
      else if '#' in h then
        var hash := Split(h, '#')[1];
        if hash in LegacyHashes then Route("/" + hash) else Default
      else Default
  }

  /**
   * The three branches, in the handler's order: internal links are routed
   * as they are; on `/` a `#` link is an anchor and never navigates; any
   * other link with a `#` goes to `/` + the piece after its first `#` when
   * that piece names a section, and is left to the browser otherwise.
   */
  lemma ClassifyLinkCases(h: string, pathname: string)
    ensures Internal(h) ==> ClassifyLink(Some(h), pathname) == Route(h)
    ensures !Internal(h) && StartsWith(h, "#") && pathname == "/" ==>
      ClassifyLink(Some(h), pathname) == Anchor(h[1..])
    ensures !Internal(h) && !(StartsWith(h, "#") && pathname == "/") && '#' in h ==>
      var hash := UpTo(h[|UpTo(h, '#')| + 1..], '#');
      ClassifyLink(Some(h), pathname) == (if hash in LegacyHashes then Route("/" + hash) else Default)
    ensures '#' !in h && !Internal(h) ==> ClassifyLink(Some(h), pathname) == Default
  {
    HashPrefixHasHash(h);
    if '#' in h {
      var first := UpTo(h, '#');
      var t := h[|first| + 1..];
      assert h == first + ['#'] + t;
      SplitCons(first, t, '#');
      SplitFirst(t, '#');
    }
  }

  lemma HashPrefixHasHash(h: string)
    ensures StartsWith(h, "#") ==> '#' in h
  {
    if StartsWith(h, "#") {
      assert h[0] == '#';
    }
  }

  /** A routed link always hands `navigateTo` a path starting with `/`. */
  lemma RoutedPathsAreAbsolute(href: Option<string>, pathname: string)
    requires ClassifyLink(href, pathname).Route?
    ensures StartsWith(ClassifyLink(href, pathname).path, "/")
  {
  }

  /** An old hash-style link reaches the named section without a fallback to `/`. */
  lemma LegacyLinkReachesSection(h: string, pathname: string)
    requires !Internal(h)
    requires ClassifyLink(Some(h), pathname).Route?
    ensures '#' in h
    ensures var p := ClassifyLink(Some(h), pathname).path;
      && p == "/" + UpTo(h[|UpTo(h, '#')| + 1..], '#')
      && p in Routes && Resolve(p) == Target(Routes[p], None, p) && Resolve(p).info.id == p[1..]
  {
    var hash := LegacyLinkHash(h, pathname);
    LegacyTarget(hash);
  }

  /** A routed link that is not internal names an old section: it is routed to `/` + that name. */
  lemma LegacyLinkHash(h: string, pathname: string) returns (hash: string)
    requires !Internal(h)
    requires ClassifyLink(Some(h), pathname).Route?
    ensures '#' in h && hash == UpTo(h[|UpTo(h, '#')| + 1..], '#')
    ensures hash in LegacyHashes && ClassifyLink(Some(h), pathname) == Route("/" + hash)
  {
    ClassifyLinkCases(h, pathname);
    assert !(StartsWith(h, "#") && pathname == "/");
    assert '#' in h;
    hash := UpTo(h[|UpTo(h, '#')| + 1..], '#');
    var action := ClassifyLink(Some(h), pathname);
    assert action == (if hash in LegacyHashes then Route("/" + hash) else Default);
  }

  /** `/` + an old hash name is a table key that resolves to the section of that name. */
  lemma LegacyTarget(hash: string)
    requires hash in LegacyHashes
    ensures var p := "/" + hash;
      && p[1..] == hash
      && p in Routes && Resolve(p) == Target(Routes[p], None, p) && Resolve(p).info.id == hash
  {
    LegacyPath(hash);
    PathOfPageRoundTrip(hash);
    assert ("/" + hash)[1..] == hash;
  }

  /** The old hash names are section ids, and the page-id mapping sends each to `/<name>`. */
  lemma LegacyPath(hash: string)
    requires hash in LegacyHashes
    ensures hash in SectionIds && PathOfPage(hash) == "/" + hash
  {
  }
}
