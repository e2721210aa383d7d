/**
 * The site's navigation state: the browser's location and history, the
 * document title, the page sections, the two current categories and the
 * rendered cards, buttons and winner items, with `navigateTo`, `showPage`,
 * the two category filters, the start-up URL dispatch and the link handler.
 */
module Navigation {
  import opened Wrappers
  import opened Text
  import opened Router
  import opened Filters
  import opened Links

  /** A `.page` section element: its id and whether it carries the `active` class. */
  datatype Page = Page(id: string, active: bool)

  /**
   * What `showPage` reads before it runs: the page sections, the card grid
   * and its cards, the buttons, the winner items and the two categories.
   */
  datatype Screen = Screen(pages: seq<Page>, newsGrid: array<Card>, cards: seq<Card>,
                           newsButtons: seq<Button>, winnerButtons: seq<Button>,
                           winnerItems: seq<WinnerItem>, category: string, winnerCategory: string)

  /** `document.getElementById(id)` among the pages: the first page with that id. */
  function IndexOf(pages: seq<Page>, id: string): (r: Option<nat>)
    ensures r.Some? ==> r.value < |pages| && pages[r.value].id == id
    ensures r.Some? ==> forall k :: 0 <= k < r.value ==> pages[k].id != id
    ensures r.None? ==> forall k :: 0 <= k < |pages| ==> pages[k].id != id
  {
    if pages == [] then None
    else if pages[0].id == id then Some(0)
    else match IndexOf(pages[1..], id)
      case None => None
      case Some(j) => Some(j + 1)
  }

  predicate HasPage(pages: seq<Page>, id: string) {
    IndexOf(pages, id).Some?
  }

  /** The page `showPage(id)` ends up showing: `id` itself, or home when no page has that id. */
  function ShownId(pages: seq<Page>, id: string): string {
    if HasPage(pages, id) then id else "home"
  }

  /** Every page with its `active` class removed. */
  function Deactivated(pages: seq<Page>): (r: seq<Page>)
    ensures |r| == |pages|
  {
    if pages == [] then [] else [pages[0].(active := false)] + Deactivated(pages[1..])
  }

  lemma {:induction false} DeactivatedAt(pages: seq<Page>, i: int)
    requires 0 <= i < |pages|
    ensures Deactivated(pages)[i] == pages[i].(active := false)
    decreases i
  {
    if i > 0 {
      DeactivatedAt(pages[1..], i - 1);
    }
  }

  /** Removing the classes keeps every id, so the lookup finds the same page. */
  lemma {:induction false} IndexOfDeactivated(pages: seq<Page>, id: string)
    ensures IndexOf(Deactivated(pages), id) == IndexOf(pages, id)
    decreases |pages|
  {
    if pages != [] {
      assert Deactivated(pages)[1..] == Deactivated(pages[1..]);
      IndexOfDeactivated(pages[1..], id);
    }
  }

  /** The lookup reads the ids only. */
  lemma {:induction false} IndexOfSameIds(a: seq<Page>, b: seq<Page>, id: string)
    requires |a| == |b| && forall k :: 0 <= k < |a| ==> a[k].id == b[k].id
    ensures IndexOf(a, id) == IndexOf(b, id)
    decreases |a|
  {
    if a != [] {
      IndexOfSameIds(a[1..], b[1..], id);
    }
  }

  lemma {:induction false} DeactivatedIdempotent(pages: seq<Page>)
    ensures Deactivated(Deactivated(pages)) == Deactivated(pages)
    decreases |pages|
  {
    if pages != [] {
      assert Deactivated(pages)[1..] == Deactivated(pages[1..]);
      DeactivatedIdempotent(pages[1..]);
    }
  }

  /** The pages after `showPage(id)`: all inactive but the first page named `ShownId`. */
  function Shown(pages: seq<Page>, id: string): seq<Page>
    requires HasPage(pages, "home")
  {
    var j := IndexOf(pages, ShownId(pages, id)).value;
    Deactivated(pages)[j := pages[j].(active := true)]
  }

  /** The id of the first active page, if any. */
  function ActivePage(pages: seq<Page>): Option<string> {
    if pages == [] then None
    else if pages[0].active then Some(pages[0].id)
    else ActivePage(pages[1..])
  }

  lemma {:induction false} ActivePageOfOnlyActive(pages: seq<Page>, j: nat)
    requires j < |pages|
    requires forall k :: 0 <= k < |pages| ==> (pages[k].active <==> k == j)
    ensures ActivePage(pages) == Some(pages[j].id)
    decreases j
  {
    if j > 0 {
      ActivePageOfOnlyActive(pages[1..], j - 1);
    }
  }

  /**
   * After `showPage(id)` exactly one page is active, the first one named
   * `id` (home when there is none); every page keeps its id.
   */
  lemma ShownActivatesOne(pages: seq<Page>, id: string)
    requires HasPage(pages, "home")
    ensures var r := Shown(pages, id);
      && |r| == |pages|
      && (forall k :: 0 <= k < |pages| ==> r[k].id == pages[k].id)
      && (forall k :: 0 <= k < |pages| ==> (r[k].active <==> k == IndexOf(pages, ShownId(pages, id)).value))
      && ActivePage(r) == Some(ShownId(pages, id))
  {
    var r := Shown(pages, id);
    var j := IndexOf(pages, ShownId(pages, id)).value;
    forall k | 0 <= k < |pages|
      ensures r[k].id == pages[k].id && (r[k].active <==> k == j)
    {
      DeactivatedAt(pages, k);
    }
    ActivePageOfOnlyActive(r, j);
  }

  /** Showing a missing page after the pages were switched off is showing home. */
  lemma ShownFallback(pages: seq<Page>, id: string)
    requires HasPage(pages, "home") && !HasPage(pages, id)
    ensures HasPage(Deactivated(pages), "home")
    ensures Shown(Deactivated(pages), "home") == Shown(pages, id)
  {
    IndexOfDeactivated(pages, "home");
    DeactivatedIdempotent(pages);
    var j := IndexOf(pages, "home").value;
    DeactivatedAt(pages, j);
  }

  /** The loop of `showPage` that removes `active` from every page. */
  method DeactivateAll(pages: array<Page>)
    modifies pages
    ensures pages[..] == Deactivated(old(pages[..]))
  {
    var i := 0;
    while i < pages.Length
      invariant 0 <= i <= pages.Length
      invariant forall k :: 0 <= k < i ==> pages[k] == old(pages[k]).(active := false)
      invariant forall k :: i <= k < pages.Length ==> pages[k] == old(pages[k])
    {
      pages[i] := pages[i].(active := false);
      i := i + 1;
    }
    forall k | 0 <= k < pages.Length
      ensures pages[..][k] == Deactivated(old(pages[..]))[k]
    {
      DeactivatedAt(old(pages[..]), k);
    }
  }

  /**
   * The page switch of `showPage`: removes `active` from every page, then
   * adds it to the first page named `pageId` when there is one.
   */
  method SwitchPages(pages: array<Page>, pageId: string) returns (found: bool)
    requires HasPage(pages[..], "home")
    modifies pages
    ensures found == HasPage(old(pages[..]), pageId)
    ensures found ==> pages[..] == Shown(old(pages[..]), pageId)
    ensures !found ==> pages[..] == Deactivated(old(pages[..]))
    ensures HasPage(pages[..], "home")
  {
    ghost var before := pages[..];
    DeactivateAll(pages);
    IndexOfDeactivated(before, pageId);
    IndexOfDeactivated(before, "home");
    var target := IndexOf(pages[..], pageId);
    found := target.Some?;
    if found {
      var j := target.value;
      DeactivatedAt(before, j);
      pages[j] := pages[j].(active := true);
      assert pages[..] == Shown(before, pageId);
      ShownActivatesOne(before, pageId);
      IndexOfSameIds(pages[..], before, "home");
    }
  }

  class Site {
    /** `window.location.pathname`. */
    var pathname: string
    /** The browser's history entries and the index of the current one. */
    var history: seq<string>
    var position: nat
    /** `document.title`. */
    var title: string
    var currentCategory: string
    var currentWinnerCategory: string
    /** The value of `#searchInput`, null when the element is missing. */
    var searchInput: Option<string>
    /** What `loadNews()` answers: the news records, or nothing when the fetch fails. */
    var newsSource: seq<NewsItem>
    var pages: array<Page>
    var newsCards: array<Card>
    var newsButtons: array<Button>
    var winnerButtons: array<Button>
    var winnerItems: array<WinnerItem>

    ghost predicate Valid()
      reads this`position, this`history, this`pathname, this`pages, this`newsButtons, this`winnerButtons, pages
    {
      && position < |history|
      && history[position] == pathname
      && HasPage(pages[..], "home")
      && newsButtons != winnerButtons
    }

    constructor (path: string, initialTitle: string, pageList: seq<Page>, search: Option<string>,
                 news: seq<NewsItem>, newsButtonList: seq<Button>, winnerButtonList: seq<Button>,
                 itemList: seq<WinnerItem>)
      requires HasPage(pageList, "home")
      ensures Valid()
      ensures pathname == path && history == [path] && position == 0 && title == initialTitle
      ensures currentCategory == AllCategories && currentWinnerCategory == AllCategories
      ensures searchInput == search && newsSource == news
      ensures pages[..] == pageList && newsCards[..] == []
      ensures newsButtons[..] == newsButtonList && winnerButtons[..] == winnerButtonList
      ensures winnerItems[..] == itemList
      ensures fresh(pages) && fresh(newsCards) && fresh(newsButtons) && fresh(winnerButtons) && fresh(winnerItems)
    {
      pathname, history, position, title := path, [path], 0, initialTitle;
      currentCategory, currentWinnerCategory := AllCategories, AllCategories;
      searchInput, newsSource := search, news;
      pages := new Page[|pageList|](i requires 0 <= i < |pageList| => pageList[i]);
      newsCards := new Card[0];
      newsButtons := new Button[|newsButtonList|](i requires 0 <= i < |newsButtonList| => newsButtonList[i]);
      winnerButtons := new Button[|winnerButtonList|](i requires 0 <= i < |winnerButtonList| => winnerButtonList[i]);
      winnerItems := new WinnerItem[|itemList|](i requires 0 <= i < |itemList| => itemList[i]);
      new;
      assert pages[..] == pageList;
    }

    /** The part of the state that `showPage` reads and writes. */
    ghost function CurrentScreen(): Screen
      reads this`pages, this`newsCards, this`newsButtons, this`winnerButtons, this`winnerItems
      reads this`currentCategory, this`currentWinnerCategory, pages, newsCards, newsButtons, winnerButtons, winnerItems
    {
      Screen(pages[..], newsCards, newsCards[..], newsButtons[..], winnerButtons[..], winnerItems[..],
             currentCategory, currentWinnerCategory)
    }

    /**
     * What `showPage(pageId, category)` makes of the screen `before`: the page
     * sections switch and the category is handed to the section shown.
     */
    ghost predicate Switched(before: Screen, pageId: string, category: Option<string>)
      reads this`pages, this`newsCards, this`newsButtons, this`winnerButtons, this`winnerItems
      reads this`currentCategory, this`currentWinnerCategory, this`searchInput, this`newsSource, pages, newsCards, newsButtons, winnerButtons, winnerItems
    {
      && HasPage(before.pages, "home")
      && pages[..] == Shown(before.pages, pageId)
      && HandedOver(before, ShownId(before.pages, pageId), category)
    }

    /** The category handoff of `showPage` once the page `shown` is active. */
    ghost predicate HandedOver(before: Screen, shown: string, category: Option<string>)
      reads this`newsCards, this`newsButtons, this`winnerButtons, this`winnerItems
      reads this`currentCategory, this`currentWinnerCategory, this`searchInput, this`newsSource, newsCards, newsButtons, winnerButtons, winnerItems
    {
      NewsHandedOver(before, shown, category) && WinnersHandedOver(before, shown, category)
    }

    /** On `novidades` the cards are rendered again and filtered; elsewhere the news state stays. */
    ghost predicate NewsHandedOver(before: Screen, shown: string, category: Option<string>)
      reads this`newsCards, this`newsButtons, this`currentCategory, this`searchInput, this`newsSource, newsCards, newsButtons
    {
      if shown == "novidades" then
        && currentCategory == NormalizeCategory(category)
        && newsButtons[..] == ActivateButtons(before.newsButtons, currentCategory)
        && newsCards[..] == FilterCards(RenderCards(newsSource), SearchTerm(searchInput), currentCategory)
      else
        && currentCategory == before.category
        && newsCards == before.newsGrid && newsCards[..] == before.cards
        && newsButtons[..] == before.newsButtons
    }

    /** On `ganhadores` the winners are filtered; elsewhere the winners state stays. */
    ghost predicate WinnersHandedOver(before: Screen, shown: string, category: Option<string>)
      reads this`winnerButtons, this`winnerItems, this`currentWinnerCategory, winnerButtons, winnerItems
    {
      if shown == "ganhadores" then
        && currentWinnerCategory == NormalizeCategory(category)
        && winnerButtons[..] == ActivateButtons(before.winnerButtons, currentWinnerCategory)
        && winnerItems[..] == FilterWinnerItems(before.winnerItems, currentWinnerCategory)
      else
        && currentWinnerCategory == before.winnerCategory
        && winnerButtons[..] == before.winnerButtons
        && winnerItems[..] == before.winnerItems
    }

    /** The URL and history after `navigateTo(path)`, with the page switch it makes. */
    twostate predicate Navigated(path: string)
      reads this, pages, newsCards, newsButtons, winnerButtons, winnerItems
    {
      var t := Resolve(path);
      Located(t.url, t.info.title) && Switched(old(CurrentScreen()), t.info.id, t.category)
    }

    /** The URL, the history and the title once a navigation shows `url` under `newTitle`. */
    twostate predicate Located(url: string, newTitle: string)
      reads this`pathname, this`title, this`history, this`position
    {
      Pushed(url) && title == newTitle
    }

    /**
     * `if (location.pathname !== url) history.pushState({}, '', url)`: `url`
     * is current, and a new entry was pushed exactly when it was not already.
     */
    twostate predicate Pushed(url: string)
      reads this`pathname, this`history, this`position
    {
      && pathname == url
      && old(position < |history|)
      && (if old(pathname) == url then history == old(history) && position == old(position)
          else history == old(history[..position + 1]) + [url] && position == old(position) + 1)
    }

    /** `history.pushState({}, '', url)`: drops the forward entries and makes `url` current. */
    method PushState(url: string)
      requires position < |history|
      modifies this`history, this`position, this`pathname
      ensures history == old(history[..position + 1]) + [url]
      ensures position == old(position) + 1 && pathname == url
    {
      history := history[..position + 1] + [url];
      position := position + 1;
      pathname := url;
    }

    /** `filterNews()`: displays exactly the cards that pass the search and the category. */
    method FilterNews()
      modifies newsCards
      ensures newsCards[..] == FilterCards(old(newsCards[..]), SearchTerm(searchInput), currentCategory)
    {
      ApplyNewsFilter(newsCards, SearchTerm(searchInput), currentCategory);
    }

    /** `filterByCategory(category, updateURL)`. */
    method FilterByCategory(category: Option<string>, updateURL: bool)
      requires Valid()
      modifies this`currentCategory, this`history, this`position, this`pathname, newsCards, newsButtons
      ensures Valid()
      ensures currentCategory == NormalizeCategory(category)
      ensures newsButtons[..] == ActivateButtons(old(newsButtons[..]), currentCategory)
      ensures newsCards[..] == FilterCards(old(newsCards[..]), SearchTerm(searchInput), currentCategory)
      ensures !updateURL ==> pathname == old(pathname) && history == old(history) && position == old(position)
      ensures updateURL ==> Pushed(CategoryUrl(NewsRoute, currentCategory))
    {
      var c := NormalizeCategory(category);
      currentCategory := c;
      SetActiveButtons(newsButtons, c);
      FilterNews();
      if updateURL {
        var url := CategoryUrl(NewsRoute, c);
        if pathname != url {
          PushState(url);
        }
      }
    }

    /** `filterWinners(category, updateURL)`. */
    method FilterWinners(category: Option<string>, updateURL: bool)
      requires Valid()
      modifies this`currentWinnerCategory, this`history, this`position, this`pathname, winnerButtons, winnerItems
      ensures Valid()
      ensures currentWinnerCategory == NormalizeCategory(category)
      ensures winnerButtons[..] == ActivateButtons(old(winnerButtons[..]), currentWinnerCategory)
      ensures winnerItems[..] == FilterWinnerItems(old(winnerItems[..]), currentWinnerCategory)
      ensures !updateURL ==> pathname == old(pathname) && history == old(history) && position == old(position)
      ensures updateURL ==> Pushed(CategoryUrl(WinnersRoute, currentWinnerCategory))
    {
      var c := NormalizeCategory(category);
      currentWinnerCategory := c;
      SetActiveButtons(winnerButtons, c);
      ApplyWinnerFilter(winnerItems, c);
      if updateURL {
        var url := CategoryUrl(WinnersRoute, c);
        if pathname != url {
          PushState(url);
        }
      }
    }

    /** `showPage(pageId, category)`: switch the sections and hand the category to the filter. */
    method ShowPage(pageId: string, category: Option<string>)
      requires Valid()
      modifies this`newsCards, this`currentCategory, this`currentWinnerCategory
      modifies this`history, this`position, this`pathname
      modifies pages, newsButtons, winnerButtons, winnerItems
      ensures Valid()
      ensures Switched(old(CurrentScreen()), pageId, category)
      ensures pathname == old(pathname) && history == old(history) && position == old(position)
      decreases if pageId == "home" then 0 else 1
    {
      ghost var before := pages[..];
      var found := SwitchPages(pages, pageId);
      if found {
        HandOver(pageId, category);
      } else {
        ShownFallback(before, pageId);
        ShowPage("home", None);
      }
    }

    /** The `switch (pageId)` of `showPage` for the two filterable sections. */
    method HandOver(pageId: string, category: Option<string>)
      requires Valid()
      modifies this`newsCards, this`currentCategory, this`currentWinnerCategory
      modifies this`history, this`position, this`pathname
      modifies newsButtons, winnerButtons, winnerItems
      ensures Valid()
      ensures HandedOver(old(CurrentScreen()), pageId, category)
      ensures pathname == old(pathname) && history == old(history) && position == old(position)
    {
      if pageId == "novidades" {
        HandOverNews(category);
      } else if pageId == "ganhadores" {
        HandOverWinners(category);
      }
    }

    /** `case 'novidades'`: render the cards, then filter them by the category. */
    method HandOverNews(category: Option<string>)
      requires Valid()
      modifies this`newsCards, this`currentCategory, this`history, this`position, this`pathname, newsButtons
      ensures Valid()
      ensures NewsHandedOver(old(CurrentScreen()), "novidades", category)
      ensures pathname == old(pathname) && history == old(history) && position == old(position)
    {
      RenderAllNews();
      var c := if category.Some? && category.value != "" && category.value != "null" && category.value != "undefined"
        then category else Some(AllCategories);
      FilterByCategory(c, false);
    }

    /** `renderAllNews()`: the grid is replaced by one displayed card per news record. */
    method RenderAllNews()
      modifies this`newsCards
      ensures fresh(newsCards) && newsCards[..] == RenderCards(newsSource)
      ensures newsButtons[..] == old(newsButtons[..])
    {
      var cards := RenderCards(newsSource);
      newsCards := new Card[|cards|](i requires 0 <= i < |cards| => cards[i]);
      assert newsCards[..] == cards;
    }

    /** `case 'ganhadores'`: filter the winners by the category. */
    method HandOverWinners(category: Option<string>)
      requires Valid()
      modifies this`currentWinnerCategory, this`history, this`position, this`pathname, winnerButtons, winnerItems
      ensures Valid()
      ensures WinnersHandedOver(old(CurrentScreen()), "ganhadores", category)
      ensures pathname == old(pathname) && history == old(history) && position == old(position)
    {
      var c := if category.Some? && category.value != "" && category.value != "null" && category.value != "undefined"
        then category else Some(AllCategories);
      FilterWinners(c, false);
    }

    /**
     * `navigateTo(path)`: an unknown route leads to exactly one call
     * `navigateTo('/')`; history is pushed only when the URL changes.
     */
    method NavigateTo(path: string) returns (ghost fallbacks: nat)
      requires Valid()
      modifies this`newsCards, this`currentCategory, this`currentWinnerCategory
      modifies this`history, this`position, this`pathname, this`title
      modifies pages, newsButtons, winnerButtons, winnerItems
      ensures Valid()
      ensures Navigated(path)
      ensures fallbacks == if Known(path) then 0 else 1
      decreases if Known(path) then 0 else 1
    {
      var parsed := Parse(path);
      var routeInfo := Lookup(parsed.route);
      if routeInfo.None? {
        assert Known("/") && Resolve(path) == Resolve("/");
        fallbacks := NavigateTo("/");
        fallbacks := fallbacks + 1;
        return;
      }
      assert Resolve(path) == Target(routeInfo.value, parsed.category, path);
      fallbacks := 0;
      Arrive(path, routeInfo.value, parsed.category);
    }

    /** The rest of `navigateTo` once the route is known: URL, page and title. */
    method Arrive(path: string, info: RouteInfo, category: Option<string>)
      requires Valid()
      modifies this`newsCards, this`currentCategory, this`currentWinnerCategory
      modifies this`history, this`position, this`pathname, this`title
      modifies pages, newsButtons, winnerButtons, winnerItems
      ensures Valid()
      ensures Located(path, info.title)
      ensures Switched(old(CurrentScreen()), info.id, category)
    {
      ghost var before := CurrentScreen();
      if pathname != path {
        PushState(path);
      }
      title := info.title;
      assert CurrentScreen() == before;
      ShowPage(info.id, category);
    }

    /** `goHome()`. */
    method GoHome()
      requires Valid()
      modifies this`newsCards, this`currentCategory, this`currentWinnerCategory
      modifies this`history, this`position, this`pathname, this`title
      modifies pages, newsButtons, winnerButtons, winnerItems
      ensures Valid()
      ensures Navigated("/")
    {
      ghost var hops := NavigateTo("/");
    }

    /** `scrollToDoadores()`: the Apoie route (the scroll itself is not modelled). */
    method ScrollToDoadores()
      requires Valid()
      modifies this`newsCards, this`currentCategory, this`currentWinnerCategory
      modifies this`history, this`position, this`pathname, this`title
      modifies pages, newsButtons, winnerButtons, winnerItems
      ensures Valid()
      ensures Navigated("/apoie")
    {
      ghost var hops := NavigateTo("/apoie");
    }

    /**
     * `window.showPage(pageId)` and the handler that replaces old
     * `onclick="showPage(...)"` attributes: navigate to the page's path.
     */
    method ShowPageById(pageId: string)
      requires Valid()
      modifies this`newsCards, this`currentCategory, this`currentWinnerCategory
      modifies this`history, this`position, this`pathname, this`title
      modifies pages, newsButtons, winnerButtons, winnerItems
      ensures Valid()
      ensures Navigated(PathOfPage(pageId))
    {
      ghost var hops := NavigateTo(PathOfPage(pageId));
    }

    /** The `popstate` listener: navigate to the URL the browser now shows. */
    method OnPopState()
      requires Valid()
      modifies this`newsCards, this`currentCategory, this`currentWinnerCategory
      modifies this`history, this`position, this`pathname, this`title
      modifies pages, newsButtons, winnerButtons, winnerItems
      ensures Valid()
      ensures Navigated(old(pathname))
    {
      ghost var hops := NavigateTo(pathname);
    }

    /** The browser's back button, before it fires `popstate`: moves to the previous entry. */
    method Back()
      requires Valid()
      modifies this`position, this`pathname
      ensures Valid()
      ensures old(position) > 0 ==> position == old(position) - 1 && pathname == history[position]
      ensures old(position) == 0 ==> position == old(position) && pathname == old(pathname)
    {
      if position > 0 {
        position := position - 1;
        pathname := history[position];
      }
    }

    /**
     * The document-wide click handler on a link with this `href`: only a
     * routed link changes the model's state.
     */
    method OnLinkClick(href: Option<string>)
      requires Valid()
      modifies this`newsCards, this`currentCategory, this`currentWinnerCategory
      modifies this`history, this`position, this`pathname, this`title
      modifies pages, newsButtons, winnerButtons, winnerItems
      ensures Valid()
      ensures ClassifyLink(href, old(pathname)).Route? ==> Navigated(ClassifyLink(href, old(pathname)).path)
      ensures !ClassifyLink(href, old(pathname)).Route? ==>
        unchanged(this) && unchanged(pages, newsCards, newsButtons, winnerButtons, winnerItems)
    {
      var action := ClassifyLink(href, pathname);
      if action.Route? {
        ghost var hops := NavigateTo(action.path);
      }
    }

    /** A click on a news category button: filters with its `data-category`, if it has one. */
    method OnNewsCategoryClick(buttonCategory: Option<string>)
      requires Valid()
      modifies this`currentCategory, this`history, this`position, this`pathname, newsCards, newsButtons
      ensures Valid()
      ensures buttonCategory.None? || buttonCategory == Some("") ==> unchanged(this) && unchanged(newsCards, newsButtons)
      ensures buttonCategory.Some? && buttonCategory.value != "" ==>
        && currentCategory == NormalizeCategory(buttonCategory)
        && Pushed(CategoryUrl(NewsRoute, currentCategory))
        && newsButtons[..] == ActivateButtons(old(newsButtons[..]), currentCategory)
        && newsCards[..] == FilterCards(old(newsCards[..]), SearchTerm(searchInput), currentCategory)
    {
      if buttonCategory.Some? && buttonCategory.value != "" {
        FilterByCategory(buttonCategory, true);
      }
    }

    /** A click on a winners category button: filters with its `data-category`, if it has one. */
    method OnWinnerCategoryClick(buttonCategory: Option<string>)
      requires Valid()
      modifies this`currentWinnerCategory, this`history, this`position, this`pathname, winnerButtons, winnerItems
      ensures Valid()
      ensures buttonCategory.None? || buttonCategory == Some("") ==> unchanged(this) && unchanged(winnerButtons, winnerItems)
      ensures buttonCategory.Some? && buttonCategory.value != "" ==>
        && currentWinnerCategory == NormalizeCategory(buttonCategory)
        && Pushed(CategoryUrl(WinnersRoute, currentWinnerCategory))
        && winnerButtons[..] == ActivateButtons(old(winnerButtons[..]), currentWinnerCategory)
        && winnerItems[..] == FilterWinnerItems(old(winnerItems[..]), currentWinnerCategory)
    {
      if buttonCategory.Some? && buttonCategory.value != "" {
        FilterWinners(buttonCategory, true);
      }
    }

    /**
     * The URL dispatch of `initSite`: a category path shows its section with
     * its category directly, without touching the title or the history; any
     * other path goes through `navigateTo`.
     */
    method InitSite()
      requires Valid()
      modifies this`newsCards, this`currentCategory, this`currentWinnerCategory
      modifies this`history, this`position, this`pathname, this`title
      modifies pages, newsButtons, winnerButtons, winnerItems
      ensures Valid()
      ensures var p := old(pathname);
        if StartsWith(p, NewsPrefix) || StartsWith(p, WinnersPrefix) then
          && Switched(old(CurrentScreen()), Resolve(p).info.id, Resolve(p).category)
          && pathname == p && history == old(history) && position == old(position)
          && title == old(title)
        else
          Navigated(p)
    {
      var path := pathname;
      if StartsWith(path, NewsPrefix) {
        PrefixedTarget(path);
        var parts := Split(path, '/');
        ShowPage("novidades", Some(parts[2]));
      } else if StartsWith(path, WinnersPrefix) {
        PrefixedTarget(path);
        var parts := Split(path, '/');
        ShowPage("ganhadores", Some(parts[2]));
      } else {
        ghost var hops := NavigateTo(path);
      }
    }
  }

  /**
   * The popstate listener on `/novidades`: whatever category was chosen
   * before, it shows "todos", marks the buttons for "todos", switches to the
   * news section and pushes nothing.
   */
  method PopStateToNews(site: Site)
    requires site.Valid() && site.pathname == "/novidades"
    requires HasPage(site.pages[..], "novidades")
    modifies site`newsCards, site`currentCategory, site`currentWinnerCategory
    modifies site`history, site`position, site`pathname, site`title
    modifies site.pages, site.newsButtons, site.winnerButtons, site.winnerItems
    ensures site.currentCategory == "todos"
    ensures site.pathname == "/novidades"
    ensures site.history == old(site.history) && site.position == old(site.position)
    ensures site.title == "Novidades | Ottaku Brasil"
    ensures site.pages[..] == Shown(old(site.pages[..]), "novidades")
    ensures site.newsButtons[..] == ActivateButtons(old(site.newsButtons[..]), "todos")
    ensures site.newsCards[..] == FilterCards(RenderCards(site.newsSource), SearchTerm(site.searchInput), "todos")
  {
    OnePiecePlain("/novidades");
    PlainRoute("/novidades");
    site.OnPopState();
  }

  /**
   * On `/novidades`, choosing the category "anime" and going back: the
   * popstate handler restores "todos" and the "todos" button, and pushes
   * nothing.
   */
  method BackRestoresAllCategories()
  {
    var pageList := [Page("home", false), Page("novidades", true)];
    var buttons := [Button(Some("todos"), true), Button(Some("anime"), false)];
    assert IndexOf(pageList, "home") == Some(0);
    var site := new Site("/novidades", "Novidades | Ottaku Brasil", pageList, None, [], buttons, [], []);
    assert CategoryUrl(NewsRoute, "anime") == "/novidades/anime";
    site.FilterByCategory(Some("anime"), true);
    assert site.history == ["/novidades", "/novidades/anime"];
    ExampleButtons(buttons, "anime");
    site.Back();
    assert IndexOf(site.pages[..], "novidades") == Some(1);
    ghost var chosen := site.newsButtons[..];
    PopStateToNews(site);
    ExampleButtons(chosen, "todos");
    assert site.history == ["/novidades", "/novidades/anime"] && site.position == 0;
    assert site.currentCategory == "todos";
    assert site.newsButtons[..] == [Button(Some("todos"), true), Button(Some("anime"), false)];
  }

  /** The "todos" and "anime" buttons of the scenario above, after choosing one of them. */
  lemma ExampleButtons(buttons: seq<Button>, category: string)
    requires |buttons| == 2 && buttons[0].category == Some("todos") && buttons[1].category == Some("anime")
    ensures ActivateButtons(buttons, category) ==
      [Button(Some("todos"), category == "todos"), Button(Some("anime"), category == "anime")]
  {
    ActivateButtonsAt(buttons, category, 0);
    ActivateButtonsAt(buttons, category, 1);
  }

  /**
   * Every visit to `ganhadores` runs `initWinnersCategoryButtons` again and
   * adds one more click listener to each winners button, so one click runs
   * the handler once per listener. However many there are, the click ends
   * in the state a single run leaves, with at most one history entry pushed.
   */
  method WinnerClickWithListeners(site: Site, buttonCategory: Option<string>, listeners: nat)
    requires site.Valid() && listeners >= 1
    modifies site`currentWinnerCategory, site`history, site`position, site`pathname
    modifies site.winnerButtons, site.winnerItems
    ensures site.Valid()
    ensures buttonCategory.None? || buttonCategory == Some("") ==>
      unchanged(site) && unchanged(site.winnerButtons, site.winnerItems)
    ensures buttonCategory.Some? && buttonCategory.value != "" ==>
      && site.currentWinnerCategory == NormalizeCategory(buttonCategory)
      && site.Pushed(CategoryUrl(WinnersRoute, site.currentWinnerCategory))
      && site.winnerButtons[..] == ActivateButtons(old(site.winnerButtons[..]), site.currentWinnerCategory)
      && site.winnerItems[..] == FilterWinnerItems(old(site.winnerItems[..]), site.currentWinnerCategory)
  {
    site.OnWinnerCategoryClick(buttonCategory);
    var run := 1;
    while run < listeners
      invariant 1 <= run <= listeners
      invariant site.Valid()
      invariant buttonCategory.None? || buttonCategory == Some("") ==>
        unchanged(site) && unchanged(site.winnerButtons, site.winnerItems)
      invariant buttonCategory.Some? && buttonCategory.value != "" ==>
        && site.currentWinnerCategory == NormalizeCategory(buttonCategory)
        && site.Pushed(CategoryUrl(WinnersRoute, site.currentWinnerCategory))
        && site.winnerButtons[..] == ActivateButtons(old(site.winnerButtons[..]), site.currentWinnerCategory)
        && site.winnerItems[..] == FilterWinnerItems(old(site.winnerItems[..]), site.currentWinnerCategory)
    {
      ghost var buttons := site.winnerButtons[..];
      ghost var items := site.winnerItems[..];
      site.OnWinnerCategoryClick(buttonCategory);
      if buttonCategory.Some? && buttonCategory.value != "" {
        ActivateButtonsIdempotent(old(site.winnerButtons[..]), site.currentWinnerCategory);
        FilterWinnerItemsIdempotent(old(site.winnerItems[..]), site.currentWinnerCategory);
      }
      run := run + 1;
    }
  }
}
