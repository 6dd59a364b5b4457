/**
 * The page as one explicit state, and the event handlers of scripts/main.js
 * as methods that update it: search input, a click on a result, a click
 * anywhere on the document, the back button, the dark-mode toggle, and the
 * start-up sequence of `initializeApp`.
 */
module App {
  import opened Wrappers
  import opened Text
  import opened Cards
  import opened Search
  import opened Detail
  import opened Theme
  import opened Router

  class Page {
    /** The card database `initializeApp` loaded; never changed afterwards. */
    var cards: seq<Card>
    /** Which of the two views the sections show. */
    var view: View
    /** `window.location.hash` as it reads. */
    var hash: string
    /** The value of the search input. */
    var query: string
    /** The autocomplete results container. */
    var panel: Panel
    /** Whether the body carries the `dark-mode` class. */
    var dark: bool
    /** The dark-mode toggle's text. */
    var icon: Icon
    /** The `darkMode` entry of local storage. */
    var stored: Option<string>

    /**
     * A detail view is for a loaded card and is named by the hash; every
     * result row opens a loaded card; the theme parts agree with each other.
     */
    ghost predicate Valid()
      reads this
    {
      && (view.Detail? ==> view.card in cards && hash == CardHashPrefix + view.card.id)
      && (panel.content.Rows? ==>
            forall k :: 0 <= k < |panel.content.rows| ==> panel.content.rows[k].target in cards)
      && Consistent(CurrentTheme())
    }

    function CurrentTheme(): ThemeState
      reads this
    {
      ThemeState(dark, icon, stored)
    }

    /** Which sections are displayed. */
    function Shown(): Sections
      reads this
    {
      SectionsOf(view)
    }

    /**
     * `initializeApp` after the fetch ended in `outcome`: the cards loaded from
     * it, dark mode from storage, then the deep link in `initialHash`. The markup
     * starts light, showing the half moon, with an empty search box and a hidden,
     * empty results panel.
     */
    constructor (outcome: FetchOutcome, initialHash: string, storedTheme: Option<string>)
      requires LoadCardDatabase(outcome).CardList?
      ensures Valid()
      ensures cards == LoadCardDatabase(outcome).cards
      ensures LoadFails(outcome) ==> cards == FallbackCards()
      ensures hash == initialHash && query == ""
      ensures panel == Panel(false, Blank)
      ensures view == InitialView(cards, initialHash)
      ensures CurrentTheme() == AtInit(storedTheme)
    {
      cards := LoadCardDatabase(outcome).cards;
      view := List;
      hash := initialHash;
      query := "";
      panel := Panel(false, Blank);
      dark := false;
      icon := HalfMoon;
      stored := storedTheme;
      new;
      SetupDarkMode();
      OpenDeepLink();
    }

    /** The initialisation half of `setupDarkMode`. */
    method SetupDarkMode()
      requires !dark && icon == HalfMoon
      modifies this`dark, this`icon
      ensures CurrentTheme() == AtInit(stored)
    {
      if stored == Some(Enabled) {
        dark := true;
        icon := Sun;
      }
    }

    /** The end of `initializeApp`: show the card the hash names, if any; otherwise change nothing. */
    method OpenDeepLink()
      modifies this`view
      ensures view == if InitialView(cards, hash).Detail? then InitialView(cards, hash) else old(view)
    {
      if StartsWith(hash, CardHashPrefix) {
        var cardId := ReplaceFirst(hash, CardHashPrefix, "");
        var card := FindById(cards, cardId);
        if card.Some? {
          ShowCardDetails(card.value);
        }
      }
    }

    /** The view switch of `showCardDetails`; what it renders is `RenderCard(card)`. */
    method ShowCardDetails(card: Card)
      modifies this`view
      ensures view == Detail(card)
      ensures Shown() == Sections(false, false, true)
    {
      view := Detail(card);
    }

    /** `displayResults`: rows for the results, or "No cards found", and the panel shown. */
    method DisplayResults(results: seq<Card>)
      modifies this`panel
      ensures panel == ResultsPanel(results)
    {
      panel := panel.(content := Blank);
      if |results| == 0 {
        panel := panel.(content := NoResults);
      } else {
        var rows := BuildRows(results);
        panel := panel.(content := Rows(rows));
      }
      panel := panel.(visible := true);
    }

    /** The `input` listener: search for the trimmed value and display the outcome. */
    method Input(value: string)
      requires Valid()
      modifies this`query, this`panel
      ensures Valid()
      ensures query == value
      ensures panel == ResultsPanel(SearchCards(cards, Trim(value)))
      ensures AllWhitespace(value) ==> panel == Panel(true, NoResults)
      ensures cards == old(cards) && view == old(view) && hash == old(hash) && CurrentTheme() == old(CurrentTheme())
    {
      query := value;
      var results := SearchCards(cards, Trim(value));
      ResultRowsFromDatabase(cards, Trim(value));
      if AllWhitespace(value) {
        BlankInputFindsNothing(cards, value);
      }
      DisplayResults(results);
    }

    /** The click listener of one result row: open its card and name it in the hash. */
    method SelectResult(k: nat)
      requires Valid()
      requires panel.visible && panel.content.Rows? && k < |panel.content.rows|
      modifies this`view, this`hash
      ensures Valid()
      ensures view == Detail(panel.content.rows[k].target)
      ensures Shown() == Sections(false, false, true)
      ensures hash == CardHashPrefix + view.card.id
      ensures CardIdFromHash(hash) == Some(view.card.id)
      ensures cards == old(cards) && query == old(query) && panel == old(panel) && CurrentTheme() == old(CurrentTheme())
    {
      var card := panel.content.rows[k].target;
      ShowCardDetails(card);
      hash := AssignHash(CardFragment(card.id));
      HashRoundTrip(card.id);
    }

    /** The document click listener: a click outside the search input hides the results. */
    method DocumentClick(insideInput: bool)
      requires Valid()
      modifies this`panel
      ensures Valid()
      ensures panel == if insideInput then old(panel) else old(panel).(visible := false)
    {
      if !insideInput {
        panel := panel.(visible := false);
      }
    }

    /**
     * A click on a result row: the row's listener runs, then the click
     * bubbles to the document, outside the search input.
     */
    method ClickResultRow(k: nat)
      requires Valid()
      requires panel.visible && panel.content.Rows? && k < |panel.content.rows|
      modifies this`view, this`hash, this`panel
      ensures Valid()
      ensures view == Detail(old(panel.content.rows[k].target))
      ensures CardIdFromHash(hash) == Some(view.card.id)
      ensures panel == old(panel).(visible := false)
      ensures cards == old(cards) && query == old(query) && CurrentTheme() == old(CurrentTheme())
    {
      SelectResult(k);
      DocumentClick(false);
    }

    /** The back button: list view, empty hash, empty search box, results hidden. */
    method Back()
      requires Valid()
      modifies this`view, this`hash, this`query, this`panel
      ensures Valid()
      ensures view == List && Shown() == Sections(true, true, false)
      ensures hash == "" && query == ""
      ensures panel == old(panel).(visible := false)
      ensures cards == old(cards) && CurrentTheme() == old(CurrentTheme())
    {
      view := List;
      hash := AssignHash("");
      query := "";
      panel := panel.(visible := false);
    }

    /** The dark-mode toggle's click listener. */
    method ToggleDarkMode()
      requires Valid()
      modifies this`dark, this`icon, this`stored
      ensures Valid()
      ensures CurrentTheme() == Toggled(old(CurrentTheme()))
      ensures dark == !old(dark) && icon == IconFor(dark)
      ensures stored == Some(if dark then Enabled else Disabled)
    {
      dark := !dark;
      var isDark := dark;
      icon := if isDark then Sun else HalfMoon;
      stored := Some(if isDark then Enabled else Disabled);
    }

    /**
     * A click on the dark-mode toggle: its listener runs, then the click
     * bubbles to the document, outside the search input, and hides the results.
     */
    method ClickDarkModeToggle()
      requires Valid()
      modifies this`dark, this`icon, this`stored, this`panel
      ensures Valid()
      ensures CurrentTheme() == Toggled(old(CurrentTheme()))
      ensures panel == old(panel).(visible := false)
      ensures cards == old(cards) && view == old(view) && hash == old(hash) && query == old(query)
    {
      ToggleDarkMode();
      DocumentClick(false);
    }
  }
}
