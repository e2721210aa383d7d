/**
 * The news filter, the winners filter and the category buttons. The DOM is
 * abstracted as sequences of cards, winner items and buttons; the functions
 * state what a filter pass makes of them, the methods do the pass in place.
 */
module Filters {
  import opened Wrappers
  import opened Text
  import opened Router

  /** A news record as the data source returns it; only the fields the filter reads. */
  datatype NewsItem = NewsItem(title: Option<string>, category: Option<string>)

  /** A rendered `.news-card`: its `data-title`, its `data-category` and whether it is displayed. */
  datatype Card = Card(title: string, category: string, visible: bool)

  /** A `.category-btn`: its `data-category` (null when absent) and its `active` class. */
  datatype Button = Button(category: Option<string>, active: bool)

  /** A `.winner-card-item`: its `data-category` (null when absent) and its `hidden` class. */
  datatype WinnerItem = WinnerItem(category: Option<string>, hidden: bool)

  /** The attributes `renderAllNews` writes on a card: both lower-cased, missing ones empty. */
  function RenderCard(item: NewsItem): (c: Card)
    ensures |c.title| == |item.title.GetOr("")|
    ensures forall i :: 0 <= i < |c.title| ==> c.title[i] == LowerChar(item.title.GetOr("")[i])
    ensures |c.category| == |item.category.GetOr("")|
    ensures forall i :: 0 <= i < |c.category| ==> c.category[i] == LowerChar(item.category.GetOr("")[i])
    ensures item.title.None? ==> c.title == ""
    ensures item.category.None? ==> c.category == ""
    ensures forall i :: 0 <= i < |c.title| ==> !IsUpper(c.title[i])
    ensures forall i :: 0 <= i < |c.category| ==> !IsUpper(c.category[i])
    ensures c.visible
  {
    Card(Lower(item.title.GetOr("")), Lower(item.category.GetOr("")), true)
  }

  /** One card per news record, in order. */
  function RenderCards(items: seq<NewsItem>): (r: seq<Card>)
    ensures |r| == |items|
    ensures forall i :: 0 <= i < |items| ==> r[i] == RenderCard(items[i])
  {
    if items == [] then [] else [RenderCard(items[0])] + RenderCards(items[1..])
  }

  /** The search box's value lower-cased; a missing box or an empty value searches for `''`. */
  function SearchTerm(searchInput: Option<string>): string {
    Lower(searchInput.GetOr(""))
  }

  /**
   * The term the news filter searches for: empty without a search box,
   * otherwise the box's value lower-cased character by character, so free of
   * upper-case letters and unchanged by a second lower-casing.
   */
  lemma SearchTermCases(searchInput: Option<string>)
    ensures searchInput.None? ==> SearchTerm(searchInput) == ""
    ensures |SearchTerm(searchInput)| == |searchInput.GetOr("")|
    ensures forall i :: 0 <= i < |SearchTerm(searchInput)| ==> SearchTerm(searchInput)[i] == LowerChar(searchInput.GetOr("")[i])
    ensures forall i :: 0 <= i < |SearchTerm(searchInput)| ==> !IsUpper(SearchTerm(searchInput)[i])
    ensures SearchTerm(Some(SearchTerm(searchInput))) == SearchTerm(searchInput)
  {
    LowerIdempotent(searchInput.GetOr(""));
  }

  /** A card passes the news filter. */
  predicate CardMatches(card: Card, term: string, category: string) {
    Contains(card.title, term) && (category == AllCategories || card.category == category)
  }

  /** One pass of `filterNews` over the cards. */
  function FilterCards(cards: seq<Card>, term: string, category: string): (r: seq<Card>)
    ensures |r| == |cards|
  {
    if cards == [] then []
    else [cards[0].(visible := CardMatches(cards[0], term, category))] + FilterCards(cards[1..], term, category)
  }

  /**
   * After the news filter a card is displayed iff its title contains the
   * term and the category is "todos" or the card's own; nothing else of the
   * card changes.
   */
  lemma {:induction false} FilterCardsAt(cards: seq<Card>, term: string, category: string, i: int)
    requires 0 <= i < |cards|
    ensures FilterCards(cards, term, category)[i] == cards[i].(visible := CardMatches(cards[i], term, category))
    ensures FilterCards(cards, term, category)[i].visible <==>
      Contains(cards[i].title, term) && (category == AllCategories || cards[i].category == category)
    decreases i
  {
    if i > 0 {
      FilterCardsAt(cards[1..], term, category, i - 1);
    }
  }

  /** Filtering twice with the same search term and category is filtering once. */
  lemma {:induction false} FilterCardsIdempotent(cards: seq<Card>, term: string, category: string)
    ensures FilterCards(FilterCards(cards, term, category), term, category) == FilterCards(cards, term, category)
    decreases |cards|
  {
    if cards != [] {
      var once := FilterCards(cards, term, category);
      assert once[1..] == FilterCards(cards[1..], term, category);
      FilterCardsIdempotent(cards[1..], term, category);
    }
  }

  /** An empty search term matches every title: only the category decides. */
  lemma EmptySearchMatchesAll(cards: seq<Card>, category: string, i: int)
    requires 0 <= i < |cards|
    ensures FilterCards(cards, "", category)[i].visible <==> (category == AllCategories || cards[i].category == category)
  {
    ContainsEmpty(cards[i].title);
    FilterCardsAt(cards, "", category, i);
  }

  /**
   * On a rendered card the search is case-insensitive on the record's title,
   * while the category must equal the lower-cased record category exactly.
   */
  lemma RenderedCardMatches(item: NewsItem, search: Option<string>, category: string)
    ensures CardMatches(RenderCard(item), SearchTerm(search), category) <==>
      Contains(Lower(item.title.GetOr("")), Lower(search.GetOr("")))
      && (category == AllCategories || Lower(item.category.GetOr("")) == category)
  {
  }

  /**
   * The category is not lower-cased before it is compared, so a category with
   * an upper-case letter (other than "todos") matches no rendered card.
   */
  lemma UpperCategoryMatchesNoCard(item: NewsItem, term: string, category: string, k: int)
    requires category != AllCategories
    requires 0 <= k < |category| && IsUpper(category[k])
    ensures !CardMatches(RenderCard(item), term, category)
  {
    var c := RenderCard(item);
    assert k < |c.category| ==> !IsUpper(c.category[k]);
  }

  /** One pass of the button loop: a button is active iff its `data-category` is the category. */
  function ActivateButtons(buttons: seq<Button>, category: string): (r: seq<Button>)
    ensures |r| == |buttons|
  {
    if buttons == [] then []
    else [buttons[0].(active := buttons[0].category == Some(category))] + ActivateButtons(buttons[1..], category)
  }

  /** Exactly the buttons of the chosen category are active afterwards; nothing else changes. */
  lemma {:induction false} ActivateButtonsAt(buttons: seq<Button>, category: string, i: int)
    requires 0 <= i < |buttons|
    ensures ActivateButtons(buttons, category)[i] == buttons[i].(active := buttons[i].category == Some(category))
    ensures ActivateButtons(buttons, category)[i].active <==> buttons[i].category == Some(category)
    decreases i
  {
    if i > 0 {
      ActivateButtonsAt(buttons[1..], category, i - 1);
    }
  }

  /** Marking the buttons of a category twice is marking them once. */
  lemma {:induction false} ActivateButtonsIdempotent(buttons: seq<Button>, category: string)
    ensures ActivateButtons(ActivateButtons(buttons, category), category) == ActivateButtons(buttons, category)
    decreases |buttons|
  {
    if buttons != [] {
      var once := ActivateButtons(buttons, category);
      assert once[1..] == ActivateButtons(buttons[1..], category);
      ActivateButtonsIdempotent(buttons[1..], category);
    }
  }


  /** One pass of the winners loop: an item is hidden iff it is not "todos" nor the item's category. */
  function FilterWinnerItems(items: seq<WinnerItem>, category: string): (r: seq<WinnerItem>)
    ensures |r| == |items|
  {
    if items == [] then []
    else
      var first := items[0].(hidden := !(category == AllCategories || items[0].category == Some(category)));
      [first] + FilterWinnerItems(items[1..], category)
  }

  lemma {:induction false} FilterWinnerItemsAt(items: seq<WinnerItem>, category: string, i: int)
    requires 0 <= i < |items|
    ensures FilterWinnerItems(items, category)[i] ==
      items[i].(hidden := !(category == AllCategories || items[i].category == Some(category)))
    ensures FilterWinnerItems(items, category)[i].hidden <==>
      !(category == AllCategories || items[i].category == Some(category))
    decreases i
  {
    if i > 0 {
      FilterWinnerItemsAt(items[1..], category, i - 1);
    }
  }

  /** Filtering the winners twice with the same category is filtering once. */
  lemma {:induction false} FilterWinnerItemsIdempotent(items: seq<WinnerItem>, category: string)
    ensures FilterWinnerItems(FilterWinnerItems(items, category), category) == FilterWinnerItems(items, category)
    decreases |items|
  {
    if items != [] {
      var once := FilterWinnerItems(items, category);
      assert once[1..] == FilterWinnerItems(items[1..], category);
      FilterWinnerItemsIdempotent(items[1..], category);
    }
  }

  /** The `forEach` of `filterNews`, setting each card's display in place. */
  method ApplyNewsFilter(cards: array<Card>, term: string, category: string)
    modifies cards
    ensures cards[..] == FilterCards(old(cards[..]), term, category)
  {
    var i := 0;
    while i < cards.Length
      invariant 0 <= i <= cards.Length
      invariant forall k :: 0 <= k < i ==> cards[k] == old(cards[k]).(visible := CardMatches(old(cards[k]), term, category))
      invariant forall k :: i <= k < cards.Length ==> cards[k] == old(cards[k])
    {
      var card := cards[i];
      if Contains(card.title, term) && (category == AllCategories || card.category == category) {
        cards[i] := card.(visible := true);
      } else {
        cards[i] := card.(visible := false);
      }
      i := i + 1;
    }
    forall k | 0 <= k < cards.Length
      ensures cards[..][k] == FilterCards(old(cards[..]), term, category)[k]
    {
      FilterCardsAt(old(cards[..]), term, category, k);
    }
  }

  /** The button loops of `filterByCategory` and `filterWinners`. */
  method SetActiveButtons(buttons: array<Button>, category: string)
    modifies buttons
    ensures buttons[..] == ActivateButtons(old(buttons[..]), category)
  {
    var i := 0;
    while i < buttons.Length
      invariant 0 <= i <= buttons.Length
      invariant forall k :: 0 <= k < i ==> buttons[k] == old(buttons[k]).(active := old(buttons[k]).category == Some(category))
      invariant forall k :: i <= k < buttons.Length ==> buttons[k] == old(buttons[k])
    {
      var b := buttons[i].(active := false);
      if b.category == Some(category) {
        b := b.(active := true);
      }
      buttons[i] := b;
      i := i + 1;
    }
    forall k | 0 <= k < buttons.Length
      ensures buttons[..][k] == ActivateButtons(old(buttons[..]), category)[k]
    {
      ActivateButtonsAt(old(buttons[..]), category, k);
    }
  }

  /** The item loop of `filterWinners`, toggling each item's `hidden` class. */
  method ApplyWinnerFilter(items: array<WinnerItem>, category: string)
    modifies items
    ensures items[..] == FilterWinnerItems(old(items[..]), category)
  {
    var i := 0;
    while i < items.Length
      invariant 0 <= i <= items.Length
      invariant forall k :: 0 <= k < i ==>
        items[k] == old(items[k]).(hidden := !(category == AllCategories || old(items[k]).category == Some(category)))
      invariant forall k :: i <= k < items.Length ==> items[k] == old(items[k])
    {
      var show := category == AllCategories || items[i].category == Some(category);
      items[i] := items[i].(hidden := !show);
      i := i + 1;
    }
    forall k | 0 <= k < items.Length
      ensures items[..][k] == FilterWinnerItems(old(items[..]), category)[k]
    {
      FilterWinnerItemsAt(old(items[..]), category, k);
    }
  }
}
