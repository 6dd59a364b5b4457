# Card catalogue browser: a Dafny model of its search and navigation core

The catalogue is a static page for a tabletop card game. `scripts/main.js` loads a card
database (or falls back to two built-in cards), runs a name search behind an autocomplete
box, switches between a list view and a card-detail view, follows `#card-<id>` deep links
at start-up, and keeps a dark-mode preference in local storage.

This project models that script in Dafny 4.11:

- `wrappers.dfy` (`Wrappers`): `Option`, standing for a property that may be `undefined`.
- `text.dfy` (`Text`): the string built-ins the script uses. These are `toLowerCase` (ASCII
  letters only), `includes`, `startsWith`, `replace` with a string pattern and a replacement
  without `$` (first occurrence only), `trim` with the ECMAScript whitespace set, and `localeCompare` (modelled as
  lexicographic order on code points). `Text.IndexOf` is the substring search behind
  `includes` and `replace`; the script does not call `indexOf` itself.
- `cards.dfy` (`Cards`): the card record, the fallback cards and `loadCardDatabase`. The result
  of the fetch is an input value (`FetchOutcome`).
- `search.dfy` (`Search`): `searchCards`, a filter followed by a stable sort by name. It also
  holds the rows and panel state that `displayResults` produces.
- `detail.dfy` (`Detail`): which blocks `showCardDetails` renders for a card.
- `theme.dfy` (`Theme`): the dark-mode flag, the toggle icon and the stored preference.
- `router.dfy` (`Router`): the two views, the `location.hash` setter, `#card-` parsing, `find`
  by id and the start-up view.
- `app.dfy` (`App`): `class Page` is the whole page state. Its methods are the event handlers
  and the start-up sequence, and its `Valid()` invariant ties the parts together:
  - a detail view always shows a loaded card;
  - in the detail view the hash is `#card-` followed by that card's id, as long as only the page writes the hash;
  - every result row opens a loaded card;
  - storage says `enabled` exactly when the page is dark, and the icon matches, as long as only this page writes the key.

The script as written does not parse. Line 109 lacks the `)` that closes the `if` condition,
so none of it would run. The model follows the evident intent: a click outside the search
input hides the results panel.

## Model

| member | source | states |
|---|---|---|
| `Text.ToLower` | scripts/main.js:76 | Lower-casing keeps the length and maps each character on its own, ASCII capitals to small letters. |
| `Text.IndexFrom` | scripts/main.js:76 | The result is -1 or the first position at or after `from` where the pattern occurs. When it is -1, the pattern occurs nowhere from `from` on. |
| `Text.Includes` | scripts/main.js:76 | `includes` holds exactly when the needle occurs at some position of the haystack. |
| `Text.StartsWith` | scripts/main.js:197 | `startsWith(p)` holds exactly when `p` occurs at position 0. |
| `Text.ReplaceFirst` | scripts/main.js:198 | `replace` with a string pattern and a replacement without `$` returns the input unchanged when the pattern does not occur. Otherwise only the first occurrence is replaced. |
| `Text.IndexOfPrefix` | scripts/main.js:197-198 | A string that starts with `p` has its first occurrence of `p` at index 0. |
| `Text.ReplacePrefixStrips` | scripts/main.js:197-198 | On a string that starts with `p`, `replace(p, '')` removes exactly that prefix and leaves the rest intact. |
| `Text.SkipLeading` | scripts/main.js:105 | The scan stops at the first non-whitespace position from `i` on, or at the end, and passes only whitespace. |
| `Text.SkipTrailing` | scripts/main.js:105 | The backward scan stops just after the last non-whitespace character before `j`, or at 0, and passes only whitespace. |
| `Text.TrimStart` | scripts/main.js:105 | The result is a suffix of the input. Only whitespace precedes it, and it does not begin with whitespace. |
| `Text.TrimEnd` | scripts/main.js:105 | The result is a prefix of the input. Only whitespace follows it, and it does not end with whitespace. |
| `Text.Trim` | scripts/main.js:105 | `trim` never lengthens its input and leaves no whitespace at either end. |
| `Text.TrimKeepsCore` | scripts/main.js:105 | `trim` keeps one contiguous slice of the input. Only whitespace is cut on each side, and the kept slice neither begins nor ends with whitespace. |
| `Text.TrimEmptyIff` | scripts/main.js:105 | An input trims to "" exactly when it is all whitespace. |
| `Text.Compare` | scripts/main.js:77 | The comparison returns -1, 0 or 1, and returns 0 exactly for equal names. |
| `Text.CompareAntisymmetric` | scripts/main.js:77 | Swapping the operands negates the comparison. |
| `Text.CompareTransitive` | scripts/main.js:77 | "Sorts no later than" is transitive. |
| `Cards.FallbackCards` | scripts/main.js:6-25 | There are exactly two fallback cards, `goomba`/"Goomba" and `baseline-earth`/"Baseline Earth". Both have empty stats and no rules. |
| `Cards.LoadCardDatabase` | scripts/main.js:28-38 | These outcomes yield the fallback list: a network error, a non-2xx status, a body that is not JSON, and a JSON `null` (reading `.cards` of it throws). An array payload is returned as is. An object's `cards` array is returned. An object whose `cards` is a truthy non-array yields that value, and one whose `cards` is missing or falsy yields the object. A number, string or boolean is returned itself. None of these is a card list. |
| `Cards.FailedLoadIsUsable` | scripts/main.js:34-37 | Every failing load yields a card list of two cards. |
| `Cards.BothShapesAgree` | scripts/main.js:33 | `[...]` and `{cards: [...]}` normalise to the same card list. |
| `Search.NameMatches` | scripts/main.js:76 | A card matches exactly when its lower-cased name contains the lower-cased query at some position. |
| `Search.FilterByName` | scripts/main.js:75-76 | A card whose lower-cased name contains the lower-cased query occurs in the result as often as in the database. Any other card does not occur. |
| `Search.Insert` | scripts/main.js:77 | Inserting adds exactly one occurrence of the card and changes nothing else. |
| `Search.SortByName` | scripts/main.js:77 | The sort returns a permutation of its input. |
| `Search.InsertSorted` | scripts/main.js:77 | Inserting into a list sorted by name gives a list sorted by name. |
| `Search.SortByNameSorted` | scripts/main.js:77 | The sort's output is sorted by name. |
| `Search.SearchCards` | scripts/main.js:73-74 | The empty query finds nothing. |
| `Search.SearchIsMatchingSubset` | scripts/main.js:73-78 | The result is a permutation of exactly the matching cards of the database, with nothing added or dropped, and is empty for the empty query. |
| `Search.SearchMembership` | scripts/main.js:74-76 | A card is in the result if and only if the query is non-empty, the card is in the database and its name matches. |
| `Search.SearchSorted` | scripts/main.js:77 | Neighbouring results satisfy `compare(a.name, b.name) <= 0`. |
| `Search.BlankInputFindsNothing` | scripts/main.js:104-106 | An all-whitespace input is trimmed to "", so the `!query` test at line 74 returns no cards. |
| `Search.SearchIgnoresQueryCase` | scripts/main.js:74-77 | Two queries that lower-case alike give the same result. |
| `Search.FilterIgnoresQueryCase` | scripts/main.js:76 | Two queries that lower-case alike keep the same cards. |
| `Search.InsertKeepsNameOrder` | scripts/main.js:77 | An inserted card lands before every card of its name already in the list. The order of cards with any other name is unchanged. |
| `Search.SortKeepsNameOrder` | scripts/main.js:77 | The sort is stable: cards with the same name keep their relative order. |
| `Search.FilterKeepsNameOrder` | scripts/main.js:75-76 | For each name, the filter keeps either all of the cards with that name, in database order, or none of them. |
| `Search.SearchKeepsNameOrder` | scripts/main.js:73-78 | Results that share a name appear in database order. For a non-empty query whose lower-cased form the lower-cased name contains, all such cards appear; otherwise none do. |
| `Search.ResultsPanel` | scripts/main.js:80-101 | After `displayResults` the panel is shown. It holds "No cards found" exactly when there are no results, and otherwise one row per result, in order. |
| `Search.ResultRowsFromDatabase` | scripts/main.js:86-97 | Every row built from a search opens a card of the database. |
| `Search.BuildRows` | scripts/main.js:86-98 | The `forEach` loop builds one row per result, in result order, each showing that card's name and type and opening that card. |
| `Detail.RenderCard` | scripts/main.js:126-162 | Title and type are the card's name and type. The stats block is rendered exactly when `stats` is present, even when it is `{}`. The rules block is rendered exactly when `rules` is present and non-empty. The image source and the description are the card's own, and read `undefined` when missing. |
| `Detail.FallbackPages` | scripts/main.js:126-145 | The fallback cards render an empty stats block and no rules block. |
| `Theme.AtInit` | scripts/main.js:49-52 | At start-up the page is dark exactly when storage holds `enabled`. The icon matches, and storage is not written. |
| `Theme.Toggled` | scripts/main.js:55-62 | A toggle flips the flag and sets the matching icon. It stores `enabled` exactly when the page is now dark, and `disabled` otherwise. |
| `Theme.ToggleTwice` | scripts/main.js:55-62 | Two toggles restore the flag and the icon. |
| `Theme.ReloadAfterToggle` | scripts/main.js:49-61 | A reload after a toggle starts in the state that toggle left, provided no other tab wrote the key in between. |
| `Router.SectionsOf` | scripts/main.js:121-123 | The detail container is shown exactly in the detail view. The search and rules sections are shown exactly when it is not. |
| `Router.CardFragment` | scripts/main.js:95 | The fragment a click assigns does not start with `#`, and `#` followed by it is `#card-<id>`. |
| `Router.AssignHash` | scripts/main.js:95 | After `location.hash = v` the hash reads "" for an empty fragment. A fragment without `#` reads as `#` followed by it. |
| `Router.CardIdFromHash` | scripts/main.js:197-198 | An id is extracted exactly when the hash starts with `#card-`, and the hash is `#card-` followed by that id. |
| `Router.FindIndex` | scripts/main.js:199 | The result is the first index whose card has the id, or -1 when no card has it. |
| `Router.FindById` | scripts/main.js:199 | The result is the first card with the id, or nothing exactly when no card has it. |
| `Router.FindUniqueId` | scripts/main.js:199 | With unique ids, looking up a loaded card's id finds that card. |
| `Router.InitialView` | scripts/main.js:196-201 | Start-up opens the detail view exactly when the hash starts with `#card-` and some card has the rest of the hash as its id. It then shows the first such card. Otherwise it stays in the list view. |
| `Router.HashRoundTrip` | scripts/main.js:197-198 | The hash a click writes (line 95) reads as `#card-<id>`, and the start-up parsing gives back that id. This holds for ids the hash setter does not percent-encode; ids with spaces, quotes, `<`, `>`, backquotes or non-ASCII characters are outside the model. |
| `Router.ReloadShowsSelected` | scripts/main.js:197-201 | With unique ids, reloading on the hash a click wrote reopens the clicked card. As for `Router.HashRoundTrip`, this covers ids the hash setter leaves unencoded. |
| `Router.DeepLinkToFirst` | scripts/main.js:196-201 | A hash `#card-<id>` naming the first card's id opens that card. |
| `Router.FallbackDeepLink` | scripts/main.js:196-201 | With the fallback cards, `#card-goomba` opens the Goomba card. |
| `Router.FallbackUnknownId` | scripts/main.js:196-201 | With the fallback cards, `#card-unknown` stays in the list view. |
| `App.Page.constructor` | scripts/main.js:187-202 | Start-up takes its cards from `loadCardDatabase` on the fetch outcome, which is the fallback set whenever loading fails, and keeps the hash. The theme is taken from storage, and the view comes from the deep link. The search box is empty and the panel is hidden. The invariant holds. |
| `App.Page.SetupDarkMode` | scripts/main.js:48-52 | On a light page the start-up theme is `AtInit` of the stored value. |
| `App.Page.OpenDeepLink` | scripts/main.js:196-201 | The card the hash names is shown. An unknown id, or a hash without the prefix, leaves the view unchanged. |
| `App.Page.ShowCardDetails` | scripts/main.js:119-123 | The view becomes the card's detail: search and rules hidden, detail shown. |
| `App.Page.DisplayResults` | scripts/main.js:80-101 | The panel becomes the shown panel for the results, as `ResultsPanel` states. |
| `App.Page.Input` | scripts/main.js:104-106 | The panel shows the search for the trimmed input. A blank input shows "No cards found". Nothing else changes, and the invariant is kept. |
| `App.Page.SelectResult` | scripts/main.js:93-96 | Detail opens for the row's card and the hash becomes `#card-<id>`. Parsing that hash gives back the id. Nothing else changes. |
| `App.Page.DocumentClick` | scripts/main.js:108-112 | A click outside the search input hides the panel. A click inside leaves it. The invariant is kept. |
| `App.Page.ClickResultRow` | scripts/main.js:93-112 | Clicking a row opens its card's detail and names it in the hash. The click then bubbles to the document, which hides the panel. |
| `App.Page.Back` | scripts/main.js:170-180 | Back restores the list view with search and rules shown, empties the hash and the query, and hides the panel. Cards and theme are unchanged. |
| `App.Page.ToggleDarkMode` | scripts/main.js:55-62 | The new theme is `Toggled` of the old one, and the invariant is kept. |
| `App.Page.ClickDarkModeToggle` | scripts/main.js:55-62 | Clicking the toggle flips the theme as `ToggleDarkMode` does. The click then bubbles to the document listener (lines 108-112), which hides the results panel. Nothing else changes. |

## Left out

- The `fetch` call, `response.json()`, `async`/`await` and `DOMContentLoaded` are left out. The outcome of the fetch is a parameter (`FetchOutcome`) of `App.Page.constructor`.
- App.Page.constructor: a load that produces something other than a card array (`NotCardList`) is excluded by its precondition. The script would then fail inside `filter` or `find`, which is error plumbing the model does not carry.
- Decoding JSON objects into cards is left out. A card whose `name` is missing, which makes the search throw, cannot be expressed.
- Stat values are integers, and `stats` is modelled only as an object or missing. JSON numbers may be fractional. A truthy non-object `stats` is not modelled: a non-empty string renders one stat per character, and a number or `true` renders an empty block.
- The `console.warn` on fallback is left out.
- HTML strings, `createElement`/`appendChild`, `style.display` markup and the `onerror` placeholder image URL are left out. Panels and views are abstract state, and the detail page is a record of its blocks.
- `Text.Compare` models `localeCompare` as code-point lexicographic order, not locale collation. `Text.ToLower` only maps ASCII letters. JavaScript strings are UTF-16 code units and the model's characters are code points.
- `window.location` and `localStorage` are fields of `App.Page`. Percent-encoding by the hash setter is not modelled.
- `localStorage` is assumed available and written only by this page. Other tabs of the same origin can change `darkMode`, and `App.Page.Valid` ties `stored` to the theme only across this page's own writes; `Theme.ReloadAfterToggle` likewise assumes no other tab wrote the key in between. When storage is blocked, reading it at line 49 throws and the rest of `initializeApp` does not run; `App.Page.constructor` always completes.
- The start-up state of the markup is assumed, because the HTML is not part of this model. It is assumed to be a light page whose toggle shows the half moon, with an empty search box and a hidden, empty results container.
- The script's behaviour in these cases is modelled as it is, even where a reader might expect otherwise:
  - a blank input shows "No cards found" rather than hiding the panel;
  - an unknown deep-link id leaves the list view with no "not found" message;
  - there is no `hashchange` listener and no keyboard selection;
  - only names are searched;
  - a missing description renders as the text `undefined`.
- Browser navigation is not modelled. The back and forward buttons and edits of the URL change `location.hash` without changing the view, because there is no `hashchange` listener. `App.Page.Valid` ties the hash to the detail view only across the page's own writes.
- Listeners are modelled one at a time. Bubbling to the document listener is composed only for clicks on a result row (`App.Page.ClickResultRow`) and on the dark-mode toggle (`App.Page.ClickDarkModeToggle`).
- Text.IndexFrom: a start position past the end gives -1, where JavaScript clamps it to the length. The script only searches from position 0.
- The search handlers do not check which view is showing, so `App.Page.Input` may run in the detail view. The source does not guard against this either.
