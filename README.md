# Ottaku Brasil site router and category filters, in Dafny

This project models the client-side router and the two category filters of the Ottaku
Brasil public site script (`script.js`):

- the `routes` table and the parsing half of `navigateTo`: a path becomes a route key and,
  under `/novidades/` and `/ganhadores/`, a category;
- the navigation state machine: `navigateTo`, `showPage`, the `popstate` listener, the start-up
  URL dispatch of `initSite`, and the legacy `showPage(pageId)` wrapper. The state is the
  browser location and history, the document title, the page sections and the two current
  categories;
- the news filter (`filterNews`, `filterByCategory`), the winners filter (`filterWinners`) and
  the category buttons;
- the click handler's choice between an internal link, a home-page anchor and an old
  `#section` link.

Modules:

- `Text` models the JavaScript string operations the script uses: `startsWith`, `includes`,
  `toLowerCase` and `split`.
- `Router` holds the route table, `Parse`, `Resolve` (what a navigation settles on), category
  normalisation, category URLs and the page-id to path mapping, with their lemmas.
- `Filters` states a filter pass as a function on sequences of cards, buttons and winner items,
  and does the same pass in place on arrays.
- `Links` classifies a link's `href`.
- `Navigation` holds the class `Site`. Its fields are the page state the script reads and writes.
  The DOM is abstracted as arrays of page sections, news cards, buttons and winner items.
  The browser's history is a list of entries plus the index of the current one.

`Site.Back` stands for the browser's back button, not for code in the script. With
`Site.OnPopState` it lets `Navigation.BackRestoresAllCategories` state and verify one scenario:
open `/novidades`, choose "anime", go back. The result is the "todos" view, and nothing new is
pushed onto the history.

Three behaviours of the script are easy to miss:
- Categories are compared case-sensitively. Card categories are lower-cased when the cards are
  rendered, but the current category is not lower-cased before the comparison.
  `Filters.UpperCategoryMatchesNoCard` states what follows from this.
- There is no query-string (`cat`, `q`) routing.
- Nothing uses `replaceState`.

## Model

| member | source | states |
|---|---|---|
| `Text.ContainsIff` | script.js:557 | `includes` holds exactly when the term occurs at some position of the title |
| `Text.Lower` | script.js:208-209 | lower-casing keeps the length and lower-cases each character separately |
| `Text.Split` | script.js:416 | `split('/')` gives at least one piece; no piece holds the separator; there is one piece exactly when the string has no separator |
| `Text.JoinSplit` | script.js:416 | joining the pieces of a split with the separator gives back the string |
| `Text.SplitJoin` | script.js:416 | splitting a join of separator-free pieces gives back the pieces |
| `Text.SplitFirst` | script.js:419 | the first piece of a split is the text before the first separator |
| `Router.ParseRule` | script.js:410-427 | `Parse`: under `/novidades/` or `/ganhadores/` the key is the section and the category is the text up to the next `/`, possibly empty; any other path is its own key with no category; a category is set exactly under those two prefixes |
| `Router.PrefixedTarget` | script.js:415-427 | a path under `/novidades/` or `/ganhadores/` resolves to that section, its own URL and its third piece as the category |
| `Router.CategoryPath` | script.js:592 | `/novidades/<c>` and `/ganhadores/<c>`, for a category without `/`, resolve to their section with exactly that category |
| `Router.PrefixedPathParts` | script.js:415-427 | a `/novidades/` or `/ganhadores/` path always has a third piece, and that piece is the category kept |
| `Router.ResolveRule` | script.js:411-435 | `Resolve`, what `navigateTo` settles on: every path resolves by one rule: the two category prefixes go to their section with the text up to the next `/` as category (possibly empty); any other path uses its own table entry, or falls back to the `/` entry with URL `/` |
| `Router.ResolveClosed` | script.js:394-404 | every path resolves to one of the six section ids; the URL shown is the path itself or `/`; that URL resolves without a fallback |
| `Router.RoutesInSections` | script.js:394-404 | every table entry names one of the six page sections |
| `Router.KnownIffUrlKept` | script.js:430-440 | a navigation keeps its path as the URL exactly when the route is in the table |
| `Router.UnknownGoesHome` | script.js:430-435 | an unknown path ends on `/`, with no category and the title of the `/` entry |
| `Router.NormalizeCategory` | script.js:572-575 | null, `''`, `'null'` and `'undefined'` become `'todos'`; every other category is kept; the result is never one of those four |
| `Router.NormalizeIdempotent` | script.js:508-512 | normalising again what `showPage` already normalised changes nothing |
| `Router.CategoryUrlRoundTrip` | script.js:592 | `CategoryUrl`: the URL a filter writes for a normalised category without `/` resolves to the same section and category: the exact category, or none for `'todos'` |
| `Router.CategoryUrlInjective` | script.js:627 | the URL a filter writes names its category: two categories of one section give the same URL exactly when they are equal |
| `Router.PathOfPageRoundTrip` | script.js:730-737 | `PathOfPage`: each of the six section ids goes to a path whose table entry has that id, with no fallback; any other id goes to `/` |
| `Router.PathOfPageKnown` | script.js:825-831 | whatever the page id, the wrapper's path is in the table, so `navigateTo` keeps it as the URL |
| `Filters.RenderCard` | script.js:208-209 | a rendered card's `data-title` and `data-category` are the record's title and category lower-cased character by character; a missing field gives an empty attribute; the card starts displayed |
| `Filters.RenderCards` | script.js:175-236 | one card per news record, in order, each the record's rendering |
| `Filters.SearchTermCases` | script.js:551 | `SearchTerm`: the missing search box gives `''`; otherwise the term is the box's value lower-cased character by character, so it has no upper-case letter and lower-casing it again changes nothing |
| `Filters.FilterCardsAt` | script.js:554-566 | `FilterCards`: after the news filter, a card is displayed iff its title contains the term and the category is `'todos'` or the card's own; nothing else about the card changes |
| `Filters.FilterCardsIdempotent` | script.js:550-567 | running the news filter twice with the same term and category gives the same result as running it once |
| `Filters.EmptySearchMatchesAll` | script.js:551-557 | with an empty search term, only the category decides whether a card is shown |
| `Filters.RenderedCardMatches` | script.js:551-558 | on a rendered card, the search ignores case on both the title and the term; the category must equal the lower-cased record category |
| `Filters.UpperCategoryMatchesNoCard` | script.js:558 | a category other than `'todos'` that contains an upper-case letter matches no rendered card |
| `Filters.ActivateButtonsAt` | script.js:580-585 | `ActivateButtons`: afterwards, exactly the buttons whose `data-category` equals the category are active; nothing else about a button changes |
| `Filters.ActivateButtonsIdempotent` | script.js:612-617 | the same marking, used for the winners buttons: marking the buttons of a category twice gives the same buttons as marking them once |
| `Filters.FilterWinnerItemsAt` | script.js:619-623 | `FilterWinnerItems`: a winner item is hidden iff the category is neither `'todos'` nor the item's `data-category`; nothing else about the item changes |
| `Filters.FilterWinnerItemsIdempotent` | script.js:619-623 | running the winners filter twice with the same category gives the same result as running it once |
| `Filters.ApplyNewsFilter` | script.js:554-566 | the in-place loop leaves the card array equal to `FilterCards` of its old contents |
| `Filters.SetActiveButtons` | script.js:580-585 | the in-place loop leaves the button array equal to `ActivateButtons` of its old contents |
| `Filters.ApplyWinnerFilter` | script.js:619-623 | the in-place loop leaves the item array equal to `FilterWinnerItems` of its old contents |
| `Links.ClassifyLinkCases` | script.js:682-703 | `ClassifyLink`: the three branches are tried in order. An internal link is routed as it is. On `/`, a `#` link is an anchor and never navigates. Any other link containing `#` navigates to `/` + the text after its first `#` (up to any next `#`) when that text is one of `novidades`, `gaming`, `parceiros`, `quiz`, `ganhadores`, and is left to the browser otherwise. A link without `#` that is not internal is left to the browser |
| `Links.RoutedPathsAreAbsolute` | script.js:682-702 | a routed link always hands `navigateTo` a path starting with `/` |
| `Links.LegacyLinkReachesSection` | script.js:697-702 | an old `#section` link navigates to `/` + the hash it names; that path is a table key whose entry is the section of the same name, reached with no fallback to `/` |
| `Navigation.IndexOf` | script.js:496 | the lookup returns the first page with that id, or nothing when no page has it |
| `Navigation.ShownActivatesOne` | script.js:490-498 | `Shown`: after `showPage(id)` exactly one page is active: the first one named `id`, or home when none is; every page keeps its id |
| `Navigation.ShownFallback` | script.js:537-540 | showing a missing page ends like showing home |
| `Navigation.DeactivateAll` | script.js:491-493 | the loop removes `active` from every page and changes nothing else |
| `Navigation.SwitchPages` | script.js:490-498 | the pages switch as `Shown` says when the page exists; otherwise they are all inactive |
| `Navigation.Site.constructor` | script.js:548 | both current categories start as `'todos'` (also script.js:600); the history holds only the initial URL |
| `Navigation.Site.PushState` | script.js:439 | `pushState` drops the forward entries and makes the URL current |
| `Navigation.Site.FilterNews` | script.js:550-567 | every card's display is recomputed from the lower-cased search box value and `currentCategory` |
| `Navigation.Site.FilterByCategory` | script.js:569-597 | stores the normalised category, activates exactly its buttons and re-filters the cards. With `updateURL` it pushes `/novidades` or `/novidades/<c>`, but only when that differs from the current URL |
| `Navigation.Site.FilterWinners` | script.js:602-632 | the same for the winners: normalised category, buttons, `hidden` flags, and a push of `/ganhadores` or `/ganhadores/<c>` only when the URL differs |
| `Navigation.Site.HandOver` | script.js:505-531 | on `novidades` the cards are re-rendered and filtered with the normalised category; on `ganhadores` the winners are filtered; any other page changes nothing; URL and history stay unchanged |
| `Navigation.Site.HandOverNews` | script.js:506-513 | the card grid holds the filtered rendering of every news record, the buttons mark the normalised category, the winners are untouched; URL and history stay unchanged |
| `Navigation.Site.RenderAllNews` | script.js:169-238 | the grid is replaced by a new one holding one rendered card per news record; the buttons stay as they were |
| `Navigation.Site.HandOverWinners` | script.js:524-531 | the winner items and buttons are filtered with the normalised category, the news is untouched; URL and history stay unchanged |
| `Navigation.Site.ShowPage` | script.js:487-541 | switches the pages, falling back to home when the page is missing, and hands over the category; URL and history stay unchanged |
| `Navigation.Site.NavigateTo` | script.js:407-457 | ends in the `Resolve` target: its URL, its title and its page switch. History is pushed once, only when the URL changes. An unknown route makes exactly one call `navigateTo('/')` |
| `Navigation.Site.Arrive` | script.js:438-446 | pushes the URL only when it differs from the current one, sets the title, and switches to the page with its category |
| `Navigation.Site.GoHome` | script.js:543-545 | a navigation to `/` |
| `Navigation.Site.ScrollToDoadores` | script.js:645-647 | a navigation to `/apoie` |
| `Navigation.Site.ShowPageById` | script.js:824-834 | a navigation to the page id's path |
| `Navigation.Site.OnPopState` | script.js:769-772 | a navigation to the URL the browser now shows; it pushes nothing when that URL is known |
| `Navigation.Site.OnLinkClick` | script.js:670-705 | a routed link navigates to its path; any other click leaves the model's state unchanged |
| `Navigation.Site.OnNewsCategoryClick` | script.js:708-716 | a button with a category runs `filterByCategory` with a URL update; a button without one changes nothing |
| `Navigation.Site.OnWinnerCategoryClick` | script.js:636-641 | the same for the winners buttons and `filterWinners` |
| `Navigation.Site.InitSite` | script.js:793-807 | a category path shows its section with its category directly, leaving title and history unchanged; any other path goes through `navigateTo` |
| `Navigation.PopStateToNews` | script.js:769-772 | on `/novidades`, whatever screen was there, the popstate handler switches to the news section, brings back `'todos'`, marks the buttons for `'todos'`, re-filters the rendered cards with it, sets the title and leaves the URL and the history unchanged |
| `Navigation.WinnerClickWithListeners` | script.js:634-643 | a winners button with any number of registered listeners ends in the state a single click gives, with at most one history entry pushed |

## Left out

- Firebase loaders (`loadNews`, `loadPartners`, `loadGaming`, `loadQuiz`) are calls into a library that is not part of this model. The field `Site.newsSource` stands for what `loadNews()` returns. It is the empty list when the fetch fails.
- Record ordering and limits (`orderBy('createdAt')`, `limit`) happen inside that library and are not modelled.
- The HTML templates of the renderers are not modelled: colours, the icon and text chosen by target type, placeholder values, and date formatting with `toLocaleDateString`. Only the two `data-` attributes that the filter reads are kept.
- The renders that `showPage` starts for `home`, `gaming`, `parceiros` and `quiz` are not modelled. On those pages the model only switches the page sections.
- `renderAllNews` returns early when `#newsGrid` is missing. This is not modelled: the model always renders the cards.
- `renderAllNews().then(...)` runs the filter asynchronously. The model runs it right after the render.
- The `Promise.all` in `initSite`, the `try/catch` and the console logging are not modelled.
- These browser side effects are not modelled: `closeMenu`, `toggleMenu`, `scrollTo`, `scrollIntoView`, the `setTimeout` scroll to `#doadores` on `/apoie`, and the scroll of the home-page anchor branch. The anchor branch therefore leaves the model's state unchanged.
- Registering event listeners is not modelled: `setupEventListeners` itself, the Escape key, and the hamburger and overlay handlers. The handlers' bodies are modelled by `OnLinkClick`, `OnNewsCategoryClick`, `OnWinnerCategoryClick` and `OnPopState`.
- `initWinnersCategoryButtons` adds another listener to each winners button on every visit to `ganhadores`. The model does not keep a listener count; `Navigation.WinnerClickWithListeners` shows that the count does not change the outcome of a click.
- The extra listeners on `a[href="#novidades"]` and `a[href="#quiz"]` (script.js:751-766) are not modelled.
- `Text.Lower`: does not model full Unicode `toLowerCase`; only ASCII `A`-`Z` are mapped.
- `Navigation.Site.NavigateTo`: sets the title before switching the page, while the source sets it after `showPage`. `showPage` neither reads nor writes `document.title`, so the final state is the same.
- `navigateTo` looks up `routes[route]` through JavaScript's prototype chain. The model treats the lookup as a plain map. Every caller passes a path that starts with `/`, so no prototype key can match.
- The model sets `location.pathname` to exactly the URL that was pushed. The browser may normalise it, for example by percent-encoding, and keeps a `?query` or `#fragment` of a pushed URL such as `/novidades/x?q` or `/novidades/x#y` out of `pathname`; the model stores the whole URL.
- `Navigation.Site.OnLinkClick`: leaves the history unchanged when a `#` link is left to the browser. The browser itself would add a same-document history entry and fire `popstate`; that default action is not modelled.
- The model reads `script.js` as an ES module, so the assignment `window.showPage = ...` at script.js:824 does not rebind the `showPage` that `navigateTo` calls (script.js:443, 539) and `initSite` calls (script.js:799, 803). Loaded as a classic script, that assignment would replace the global `showPage`, and `navigateTo` would call itself through the wrapper without end. The page that loads the script is not part of this model, so neither reading can be confirmed from it.
- `document.getElementById` searches the whole document. The model searches only the page sections.
