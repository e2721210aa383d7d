/**
 * The client-side route table and the parsing half of `navigateTo`: a path
 * is mapped to a route entry (page id, document title) and, for the two
 * filterable sections, a category taken from the third `/`-separated piece.
 */
module Router {
  import opened Wrappers
  import opened Text

  /** One entry of the route table; `section` is the element Apoie scrolls to. */
  datatype RouteInfo = RouteInfo(id: string, title: string, section: Option<string>)

  const HomeTitle: string := "Home | Ottaku Brasil"
  const HomeInfo: RouteInfo := RouteInfo("home", HomeTitle, None)
  const NewsInfo: RouteInfo := RouteInfo("novidades", "Novidades | Ottaku Brasil", None)
  const WinnersInfo: RouteInfo := RouteInfo("ganhadores", "Ganhadores | Ottaku Brasil", None)

  /** The `routes` object. */
  const Routes: map<string, RouteInfo> := map[
    "" := HomeInfo,
    "/" := HomeInfo,
    "/home" := HomeInfo,
    "/novidades" := NewsInfo,
    "/gaming" := RouteInfo("gaming", "Gaming | Ottaku Brasil", None),
    "/parceiros" := RouteInfo("parceiros", "Parceiros | Ottaku Brasil", None),
    "/quiz" := RouteInfo("quiz", "Quiz | Ottaku Brasil", None),
    "/ganhadores" := WinnersInfo,
    "/apoie" := RouteInfo("home", "Apoie | Ottaku Brasil", Some("doadores"))
  ]

  /** The page sections a route can name: a closed set. */
  const SectionIds: set<string> := {"home", "novidades", "gaming", "parceiros", "quiz", "ganhadores"}

  const NewsRoute: string := "/novidades"
  const WinnersRoute: string := "/ganhadores"
  const NewsPrefix: string := "/novidades/"
  const WinnersPrefix: string := "/ganhadores/"

  /** The sentinel for "every category". */
  const AllCategories: string := "todos"

  /** A path taken apart: the key to look up and the category, null when absent. */
  datatype Parsed = Parsed(route: string, category: Option<string>)

  function Parse(path: string): Parsed {
    if StartsWith(path, NewsPrefix) then
      var parts := Split(path, '/');
      Parsed(NewsRoute, if |parts| > 2 then Some(parts[2]) else None)
    else if StartsWith(path, WinnersPrefix) then
      var parts := Split(path, '/');
      Parsed(WinnersRoute, if |parts| > 2 then Some(parts[2]) else None)
    else
      Parsed(path, None)
  }

  /** `routes[route]`, undefined when the key is missing. */
  function Lookup(route: string): Option<RouteInfo> {
    if route in Routes then Some(Routes[route]) else None
  }

  predicate Known(path: string) {
    Lookup(Parse(path).route).Some?
  }

  /** What a navigation to a path settles on: the entry, the category and the URL it shows. */
  datatype Target = Target(info: RouteInfo, category: Option<string>, url: string)

  /**
   * `navigateTo(path)` up to its effects: a known path keeps its own URL, an
   * unknown one is sent once to `/`.
   */
  function Resolve(path: string): Target
    decreases if Known(path) then 0 else 1
  {
    var p := Parse(path);
    match Lookup(p.route)
    case Some(info) => Target(info, p.category, path)
    case None =>
      assert Known("/");
      Resolve("/")
  }

  /** The pieces of a category path: the two leading pieces, then the tail's pieces. */
  lemma SectionPathSplit(name: string, t: string)
    requires '/' !in name
    ensures Split("/" + name + "/" + t, '/') == ["", name] + Split(t, '/')
  {
    var u := name + "/" + t;
    var s := "/" + name + "/" + t;
    assert s[0] == '/' && s[1..] == u;
    SplitCons(name, t, '/');
  }

  /** The category of a `/novidades/...` or `/ganhadores/...` path is the text up to the next `/`. */
  lemma CategorySegment(name: string, path: string)
    requires name == "novidades" || name == "ganhadores"
    requires StartsWith(path, "/" + name + "/")
    ensures var parts := Split(path, '/');
      |parts| > 2 && parts[2] == UpTo(path[|name| + 2..], '/')
  {
    var t := path[|name| + 2..];
    assert path == "/" + name + "/" + t;
    SectionPathSplit(name, t);
    SplitFirst(t, '/');
  }

  /**
   * The parsing half of `navigateTo`: under a category prefix the key is the
   * section and the category is the text up to the next `/`, possibly empty;
   * any other path is its own key, without a category.
   */
  lemma ParseRule(path: string)
    ensures StartsWith(path, NewsPrefix) ==>
      Parse(path) == Parsed(NewsRoute, Some(UpTo(path[|NewsPrefix|..], '/')))
    ensures !StartsWith(path, NewsPrefix) && StartsWith(path, WinnersPrefix) ==>
      Parse(path) == Parsed(WinnersRoute, Some(UpTo(path[|WinnersPrefix|..], '/')))
    ensures !StartsWith(path, NewsPrefix) && !StartsWith(path, WinnersPrefix) ==>
      Parse(path) == Parsed(path, None)
    ensures Parse(path).category.Some? <==> StartsWith(path, NewsPrefix) || StartsWith(path, WinnersPrefix)
  {
    if StartsWith(path, NewsPrefix) {
      CategorySegment("novidades", path);
    } else if StartsWith(path, WinnersPrefix) {
      CategorySegment("ganhadores", path);
    }
  }

  /** A category path always has a third piece, and it is the category `Parse` keeps. */
  lemma PrefixedPathParts(path: string)
    requires StartsWith(path, NewsPrefix) || StartsWith(path, WinnersPrefix)
    ensures |Split(path, '/')| > 2
    ensures Parse(path).category == Some(Split(path, '/')[2])
  {
    if StartsWith(path, NewsPrefix) {
      CategorySegment("novidades", path);
    } else {
      CategorySegment("ganhadores", path);
    }
  }

  /** A category path resolves to its section, with its third piece as category. */
  lemma PrefixedTarget(path: string)
    requires StartsWith(path, NewsPrefix) || StartsWith(path, WinnersPrefix)
    ensures |Split(path, '/')| > 2
    ensures Resolve(path) ==
      Target(if StartsWith(path, NewsPrefix) then NewsInfo else WinnersInfo, Some(Split(path, '/')[2]), path)
  {
    PrefixedPathParts(path);
  }

  /**
   * Route resolution is total and follows one rule: the two category
   * prefixes keep their third piece as category; every other path is its own
   * table entry or falls back to `/`.
   */
  lemma ResolveRule(path: string)
    ensures StartsWith(path, NewsPrefix) ==>
      Resolve(path) == Target(NewsInfo, Some(UpTo(path[|NewsPrefix|..], '/')), path)
    ensures !StartsWith(path, NewsPrefix) && StartsWith(path, WinnersPrefix) ==>
      Resolve(path) == Target(WinnersInfo, Some(UpTo(path[|WinnersPrefix|..], '/')), path)
    ensures !StartsWith(path, NewsPrefix) && !StartsWith(path, WinnersPrefix) ==>
      Resolve(path) == if path in Routes then Target(Routes[path], None, path) else Target(HomeInfo, None, "/")
  {
    if StartsWith(path, NewsPrefix) {
      CategorySegment("novidades", path);
    } else if StartsWith(path, WinnersPrefix) {
      CategorySegment("ganhadores", path);
    }
  }

  /** Every route entry names one of the page sections. */
  lemma RoutesInSections(route: string)
    requires route in Routes
    ensures Routes[route].id in SectionIds
  {
  }

  /** Whatever the path, the resolved section is in the closed set and its URL resolves to itself. */
  lemma {:induction false} ResolveClosed(path: string)
    ensures Resolve(path).info.id in SectionIds
    ensures Resolve(path).url == path || Resolve(path).url == "/"
    ensures Known(Resolve(path).url)
  {
    ResolveRule(path);
    if !StartsWith(path, NewsPrefix) && !StartsWith(path, WinnersPrefix) && path in Routes {
      RoutesInSections(path);
    }
  }

  /** A navigation keeps its URL exactly when the path is known; otherwise it shows `/`. */
  lemma KnownIffUrlKept(path: string)
    ensures Known(path) <==> Resolve(path).url == path
  {
    if !Known(path) {
      assert Known("/");
    }
  }

  /** An unknown path ends on `/`, with the title of the `/` entry and no category. */
  lemma UnknownGoesHome(path: string)
    requires !Known(path)
    ensures Resolve(path) == Target(Routes["/"], None, "/")
    ensures Resolve(path).info.title == HomeTitle
  {
  }

  /**
   * Category normalisation: a missing value, `''`, `'null'` and `'undefined'`
   * all stand for every category.
   */
  function NormalizeCategory(category: Option<string>): (c: string)
    ensures c != "" && c != "null" && c != "undefined"
    ensures category.None? ==> c == AllCategories
    ensures category.Some? && category.value in {"", "null", "undefined"} ==> c == AllCategories
    ensures category.Some? && category.value !in {"", "null", "undefined"} ==> c == category.value
  {
    match category
    case None => AllCategories
    case Some(s) => if s == "" || s == "null" || s == "undefined" then AllCategories else s
  }

  /** Normalising a normalised category changes nothing. */
  lemma NormalizeIdempotent(category: Option<string>)
    ensures NormalizeCategory(Some(NormalizeCategory(category))) == NormalizeCategory(category)
  {
  }

  /** The URL a filter writes for a category of the section at `base`. */
  function CategoryUrl(base: string, category: string): string {
    if category == AllCategories then base else base + "/" + category
  }

  /**
   * Writing a category URL and resolving it again gives back the section and
   * the category, for any normalised category without a `/`.
   */
  lemma CategoryUrlRoundTrip(base: string, category: string)
    requires base == NewsRoute || base == WinnersRoute
    requires category == NormalizeCategory(Some(category))
    requires '/' !in category
    ensures var t := Resolve(CategoryUrl(base, category));
      && t.info == Routes[base]
      && t.url == CategoryUrl(base, category)
      && NormalizeCategory(t.category) == category
      && (category != AllCategories ==> t.category == Some(category))
  {
    if category == AllCategories {
      OnePiecePlain(base);
      PlainRoute(base);
    } else {
      CategoryPath(base, category);
    }
  }

  /**
   * The URL a filter writes names its category: two categories of the same
   * section give the same URL only when they are equal.
   */
  lemma CategoryUrlInjective(base: string, c1: string, c2: string)
    ensures CategoryUrl(base, c1) == CategoryUrl(base, c2) <==> c1 == c2
  {
    if CategoryUrl(base, c1) == CategoryUrl(base, c2) && c1 != AllCategories && c2 != AllCategories {
      var u := CategoryUrl(base, c1);
      assert c1 == u[|base| + 1..];
      assert c2 == u[|base| + 1..];
    }
  }

  /** A path with no `/` after its first character is under neither category prefix. */
  lemma OnePiecePlain(path: string)
    requires |path| > 0 && '/' !in path[1..]
    ensures !StartsWith(path, NewsPrefix) && !StartsWith(path, WinnersPrefix)
  {
    PrefixedHasSlash(path);
  }

  /** Both category prefixes hold a second `/`. */
  lemma PrefixedHasSlash(path: string)
    ensures StartsWith(path, NewsPrefix) ==> '/' in path[1..]
    ensures StartsWith(path, WinnersPrefix) ==> '/' in path[1..]
  {
    if StartsWith(path, NewsPrefix) {
      assert path[1..][9] == '/';
    }
    if StartsWith(path, WinnersPrefix) {
      assert path[1..][10] == '/';
    }
  }

  /** A table key that is not under a category prefix resolves to its own entry. */
  lemma PlainRoute(path: string)
    requires path in Routes
    requires !StartsWith(path, NewsPrefix) && !StartsWith(path, WinnersPrefix)
    ensures Resolve(path) == Target(Routes[path], None, path)
  {
    assert Parse(path) == Parsed(path, None);
  }

  /** `<base>/<category>` resolves to the section with exactly that category. */
  lemma CategoryPath(base: string, category: string)
    requires base == NewsRoute || base == WinnersRoute
    requires '/' !in category
    ensures Resolve(base + "/" + category) == Target(Routes[base], Some(category), base + "/" + category)
  {
    if base == NewsRoute {
      NewsCategoryPath(category);
      assert Routes[NewsRoute] == NewsInfo;
    } else {
      WinnersCategoryPath(category);
      assert Routes[WinnersRoute] == WinnersInfo;
    }
  }

  lemma NewsCategoryPath(category: string)
    requires '/' !in category
    ensures Resolve(NewsRoute + "/" + category) == Target(NewsInfo, Some(category), NewsRoute + "/" + category)
  {
    var url := NewsRoute + "/" + category;
    assert url == NewsPrefix + category;
    PrefixedAt(url, category, true);
  }

  lemma WinnersCategoryPath(category: string)
    requires '/' !in category
    ensures Resolve(WinnersRoute + "/" + category) == Target(WinnersInfo, Some(category), WinnersRoute + "/" + category)
  {
    var url := WinnersRoute + "/" + category;
    assert url == WinnersPrefix + category;
    PrefixesExclusive(url);
    PrefixedAt(url, category, false);
  }

  /** No path starts with both category prefixes. */
  lemma PrefixesExclusive(path: string)
    ensures StartsWith(path, WinnersPrefix) ==> !StartsWith(path, NewsPrefix)
  {
    assert StartsWith(path, WinnersPrefix) ==> path[1] == 'g';
  }

  /** A category prefix followed by a piece without `/` resolves to that piece as category. */
  lemma PrefixedAt(path: string, category: string, news: bool)
    requires path == (if news then NewsPrefix else WinnersPrefix) + category
    requires news || !StartsWith(path, NewsPrefix)
    requires '/' !in category
    ensures Resolve(path) == Target(if news then NewsInfo else WinnersInfo, Some(category), path)
  {
    var prefix := if news then NewsPrefix else WinnersPrefix;
    assert path[|prefix|..] == category;
    UpToNoSep(category, '/');
    ResolveRule(path);
  }

  lemma {:induction false} UpToNoSep(s: string, sep: char)
    requires sep !in s
    ensures UpTo(s, sep) == s
    decreases |s|
  {
    if s != [] {
      UpToNoSep(s[1..], sep);
    }
  }

  /** The page id to path mapping of the legacy `showPage` wrapper and its click handler. */
  function PathOfPage(pageId: string): string {
    if pageId == "novidades" then "/novidades"
    else if pageId == "gaming" then "/gaming"
    else if pageId == "parceiros" then "/parceiros"
    else if pageId == "quiz" then "/quiz"
    else if pageId == "ganhadores" then "/ganhadores"
    else if pageId == "home" then "/"
    else "/"
  }

  /**
   * Every section id is sent to a path whose entry has that same id, without
   * a fallback; every other id is sent to `/`.
   */
  lemma PathOfPageRoundTrip(pageId: string)
    ensures pageId in SectionIds ==>
      Resolve(PathOfPage(pageId)) == Target(Routes[PathOfPage(pageId)], None, PathOfPage(pageId))
      && Resolve(PathOfPage(pageId)).info.id == pageId
    ensures pageId !in SectionIds ==> PathOfPage(pageId) == "/"
  {
    if pageId == "home" {
      PageRoute("/", pageId);
    } else if pageId == "novidades" {
      PageRoute("/novidades", pageId);
    } else if pageId == "gaming" {
      PageRoute("/gaming", pageId);
    } else if pageId == "parceiros" {
      PageRoute("/parceiros", pageId);
    } else if pageId == "quiz" {
      PageRoute("/quiz", pageId);
    } else if pageId == "ganhadores" {
      assert "/ganhadores"[1] != NewsPrefix[1];
      PageRoute("/ganhadores", pageId);
    }
  }

  /** Whatever the page id, the path it is mapped to is in the table, so `navigateTo` keeps it. */
  lemma PathOfPageKnown(pageId: string)
    ensures PathOfPage(pageId) in Routes
    ensures Resolve(PathOfPage(pageId)).url == PathOfPage(pageId)
  {
    PathOfPageRoundTrip(pageId);
    if pageId !in SectionIds {
      PageRoute("/", "home");
    }
  }

  /** A table key outside both category prefixes resolves to its own entry. */
  lemma PageRoute(p: string, id: string)
    requires p in Routes && Routes[p].id == id
    requires |p| < |NewsPrefix| || !StartsWith(p, NewsPrefix)
    requires !StartsWith(p, WinnersPrefix)
    ensures Resolve(p) == Target(Routes[p], None, p) && Resolve(p).info.id == id
  {
    PlainRoute(p);
  }
}
