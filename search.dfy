/**
 * The card search behind the autocomplete box (scripts/main.js, `searchCards`
 * inside `setupSearch`), and the rows `displayResults` builds from its result.
 */
module Search {
  import opened Text
  import opened Cards

  /** The card's lower-cased name contains the lower-cased query somewhere. */
  predicate NameMatches(card: Card, query: string): (b: bool)
    ensures b <==> exists j :: MatchAt(ToLower(card.name), ToLower(query), j)
  {
    Includes(ToLower(card.name), ToLower(query))
  }

  /**
   * The filter step of the search: keeps the cards whose lower-cased name contains
   * the lower-cased query, each as often as it occurs, and drops every other card.
   */
  function FilterByName(cards: seq<Card>, query: string): (r: seq<Card>)
    ensures forall c :: multiset(r)[c] == if NameMatches(c, query) then multiset(cards)[c] else 0
  {
    if cards == [] then []
    else
      assert cards == [cards[0]] + cards[1..];
      (if NameMatches(cards[0], query) then [cards[0]] else []) + FilterByName(cards[1..], query)
  }

  /** Adjacent, and hence all, pairs are in `localeCompare` order of their names. */
  predicate SortedByName(s: seq<Card>) {
    forall i, j :: 0 <= i < j < |s| ==> Compare(s[i].name, s[j].name) <= 0
  }

  /**
   * Places `c` before the first card it does not sort after. Cards that
   * compare equal keep their order, as the stable `Array.prototype.sort` does.
   */
  function Insert(c: Card, s: seq<Card>): (r: seq<Card>)
    ensures multiset(r) == multiset(s) + multiset{c}
  {
    if s == [] then [c]
    else if Compare(c.name, s[0].name) <= 0 then [c] + s
    else
      assert s == [s[0]] + s[1..];
      [s[0]] + Insert(c, s[1..])
  }

  /** The sort step of the search, by name with the locale comparator, as a stable insertion sort. */
  function SortByName(s: seq<Card>): (r: seq<Card>)
    ensures multiset(r) == multiset(s)
  {
    if s == [] then []
    else
      assert s == [s[0]] + s[1..];
      Insert(s[0], SortByName(s[1..]))
  }

  /** Putting a card in front of a sorted list keeps it sorted when the card sorts first. */
  lemma ConsSorted(x: Card, t: seq<Card>)
    requires SortedByName(t)
    requires forall j :: 0 <= j < |t| ==> Compare(x.name, t[j].name) <= 0
    ensures SortedByName([x] + t)
  {
    var r := [x] + t;
    forall i, j | 0 <= i < j < |r| ensures Compare(r[i].name, r[j].name) <= 0 {
      assert r[j] == t[j - 1];
      if i > 0 {
        assert r[i] == t[i - 1];
      }
    }
  }

  lemma SortedTail(s: seq<Card>)
    requires SortedByName(s) && s != []
    ensures SortedByName(s[1..])
  {
    var rest := s[1..];
    forall i, j | 0 <= i < j < |rest| ensures Compare(rest[i].name, rest[j].name) <= 0 {
      assert rest[i] == s[i + 1] && rest[j] == s[j + 1];
    }
  }

  lemma {:induction false} InsertSorted(c: Card, s: seq<Card>)
    requires SortedByName(s)
    ensures SortedByName(Insert(c, s))
  {
    if s == [] {
    } else if Compare(c.name, s[0].name) <= 0 {
      forall j | 0 <= j < |s| ensures Compare(c.name, s[j].name) <= 0 {
        if j > 0 {
          CompareTransitive(c.name, s[0].name, s[j].name);
        }
      }
      ConsSorted(c, s);
    } else {
      CompareAntisymmetric(c.name, s[0].name);
      var rest := s[1..];
      SortedTail(s);
      InsertSorted(c, rest);
      var t := Insert(c, rest);
      forall j | 0 <= j < |t| ensures Compare(s[0].name, t[j].name) <= 0 {
        assert t[j] in multiset(t);
        if t[j] != c {
          assert t[j] in multiset(rest);
          var k :| 0 <= k < |rest| && rest[k] == t[j];
          assert s[k + 1] == t[j];
        }
      }
      ConsSorted(s[0], t);
    }
  }

  lemma {:induction false} SortByNameSorted(s: seq<Card>)
    ensures SortedByName(SortByName(s))
  {
    if s != [] {
      SortByNameSorted(s[1..]);
      InsertSorted(s[0], SortByName(s[1..]));
    }
  }

  /**
   * `searchCards(query)`: nothing for the empty query, otherwise the
   * matching cards ordered by name.
   */
  function SearchCards(cards: seq<Card>, query: string): (r: seq<Card>)
    ensures query == "" ==> r == []
  {
    if query == "" then [] else SortByName(FilterByName(cards, query))
  }

  /** The search result is a permutation of exactly the matching cards of the database. */
  lemma SearchIsMatchingSubset(cards: seq<Card>, query: string)
    ensures forall c ::
      multiset(SearchCards(cards, query))[c] == if query != "" && NameMatches(c, query) then multiset(cards)[c] else 0
  {
  }

  /** A card is offered exactly when it is in the database and its name matches a non-empty query. */
  lemma SearchMembership(cards: seq<Card>, query: string, c: Card)
    ensures c in SearchCards(cards, query) <==> query != "" && c in cards && NameMatches(c, query)
  {
    SearchIsMatchingSubset(cards, query);
    assert c in SearchCards(cards, query) <==> multiset(SearchCards(cards, query))[c] > 0;
  }

  /** Neighbouring results satisfy `a.name.localeCompare(b.name) <= 0`. */
  lemma SearchSorted(cards: seq<Card>, query: string)
    ensures forall i :: 0 <= i < |SearchCards(cards, query)| - 1 ==>
      Compare(SearchCards(cards, query)[i].name, SearchCards(cards, query)[i + 1].name) <= 0
  {
    if query != "" {
      SortByNameSorted(FilterByName(cards, query));
    }
  }

  /** A blank input, once trimmed, finds nothing. */
  lemma BlankInputFindsNothing(cards: seq<Card>, input: string)
    requires AllWhitespace(input)
    ensures SearchCards(cards, Trim(input)) == []
  {
    TrimEmptyIff(input);
  }

  /** Matching ignores the case of ASCII letters in the query. */
  lemma SearchIgnoresQueryCase(cards: seq<Card>, q1: string, q2: string)
    requires ToLower(q1) == ToLower(q2)
    ensures SearchCards(cards, q1) == SearchCards(cards, q2)
  {
    FilterIgnoresQueryCase(cards, q1, q2);
  }

  lemma {:induction false} FilterIgnoresQueryCase(cards: seq<Card>, q1: string, q2: string)
    requires ToLower(q1) == ToLower(q2)
    ensures FilterByName(cards, q1) == FilterByName(cards, q2)
  {
    if cards != [] {
      FilterIgnoresQueryCase(cards[1..], q1, q2);
    }
  }

  // ---------------------------------------------------------------------
  // Cards that share a name
  // ---------------------------------------------------------------------

  /** The cards of `s` named `n`, in the order of `s`. */
  function WithName(s: seq<Card>, n: string): seq<Card> {
    if s == [] then [] else (if s[0].name == n then [s[0]] else []) + WithName(s[1..], n)
  }

  lemma WithNameCons(x: Card, t: seq<Card>, n: string)
    ensures WithName([x] + t, n) == (if x.name == n then [x] else []) + WithName(t, n)
  {
    assert ([x] + t)[1..] == t;
  }

  /** A card of another name in front of both sides leaves a `WithName` equation intact. */
  lemma ConsOtherName(x: Card, u: seq<Card>, v: seq<Card>, c: Card, n: string)
    requires x.name != c.name
    requires WithName(u, n) == (if c.name == n then [c] else []) + WithName(v, n)
    ensures WithName([x] + u, n) == (if c.name == n then [c] else []) + WithName([x] + v, n)
  {
    WithNameCons(x, u, n);
    WithNameCons(x, v, n);
    if c.name == n {
      assert WithName([x] + u, n) == WithName(u, n);
    }
  }

  /** Inserting a card puts it before every card of the same name already there. */
  lemma {:induction false} InsertKeepsNameOrder(c: Card, s: seq<Card>, n: string)
    ensures WithName(Insert(c, s), n) == (if c.name == n then [c] else []) + WithName(s, n)
  {
    if s == [] {
      WithNameCons(c, [], n);
    } else if Compare(c.name, s[0].name) <= 0 {
      assert Insert(c, s) == [c] + s;
      WithNameCons(c, s, n);
    } else {
      assert s == [s[0]] + s[1..];
      InsertKeepsNameOrder(c, s[1..], n);
      ConsOtherName(s[0], Insert(c, s[1..]), s[1..], c, n);
    }
  }

  /** The sort is stable: cards with the same name keep their relative order. */
  lemma {:induction false} SortKeepsNameOrder(s: seq<Card>, n: string)
    ensures WithName(SortByName(s), n) == WithName(s, n)
  {
    if s != [] {
      assert s == [s[0]] + s[1..];
      SortKeepsNameOrder(s[1..], n);
      InsertKeepsNameOrder(s[0], SortByName(s[1..]), n);
      WithNameCons(s[0], s[1..], n);
    }
  }

  /** The filter keeps all or none of the cards with a given name, in database order. */
  lemma {:induction false} FilterKeepsNameOrder(cards: seq<Card>, query: string, n: string)
    ensures WithName(FilterByName(cards, query), n)
         == if Includes(ToLower(n), ToLower(query)) then WithName(cards, n) else []
  {
    if cards != [] {
      var c, rest := cards[0], cards[1..];
      assert cards == [c] + rest;
      FilterKeepsNameOrder(rest, query, n);
      WithNameCons(c, rest, n);
      assert c.name == n ==> NameMatches(c, query) == Includes(ToLower(n), ToLower(query));
      if NameMatches(c, query) {
        assert FilterByName(cards, query) == [c] + FilterByName(rest, query);
        WithNameCons(c, FilterByName(rest, query), n);
      } else {
        assert FilterByName(cards, query) == FilterByName(rest, query);
      }
    }
  }

  /** Results that share a name are listed in the order the database holds them. */
  lemma SearchKeepsNameOrder(cards: seq<Card>, query: string, n: string)
    ensures WithName(SearchCards(cards, query), n)
         == if query != "" && Includes(ToLower(n), ToLower(query)) then WithName(cards, n) else []
  {
    if query != "" {
      FilterKeepsNameOrder(cards, query, n);
      SortKeepsNameOrder(FilterByName(cards, query), n);
    }
  }

  // ---------------------------------------------------------------------
  // displayResults
  // ---------------------------------------------------------------------

  /** One autocomplete entry: the name and type shown, and the card a click opens. */
  datatype Row = Row(name: string, cardType: string, target: Card)

  /** What the results container holds. */
  datatype PanelContent =
    | Blank               // nothing rendered yet
    | NoResults           // the "No cards found" entry
    | Rows(rows: seq<Row>)

  /** The results container: its `style.display` and its contents. */
  datatype Panel = Panel(visible: bool, content: PanelContent)

  /** The entry `displayResults` appends for one card. */
  function RowFor(card: Card): Row {
    Row(card.name, card.cardType, card)
  }

  /** The panel `displayResults` leaves: shown, with one row per result or "No cards found". */
  function ResultsPanel(results: seq<Card>): (p: Panel)
    ensures p.visible
    ensures p.content == NoResults <==> results == []
    ensures results != [] ==> p.content.Rows?
    ensures p.content.Rows? ==>
      |p.content.rows| == |results| && forall k :: 0 <= k < |results| ==> p.content.rows[k] == RowFor(results[k])
  {
    Panel(true, if results == [] then NoResults else Rows(seq(|results|, k requires 0 <= k < |results| => RowFor(results[k]))))
  }

  /** Every row of a search's panel opens a card of the database. */
  lemma ResultRowsFromDatabase(cards: seq<Card>, query: string)
    ensures var p := ResultsPanel(SearchCards(cards, query));
      p.content.Rows? ==> forall k :: 0 <= k < |p.content.rows| ==> p.content.rows[k].target in cards
  {
    var results := SearchCards(cards, query);
    forall k | 0 <= k < |results| ensures results[k] in cards {
      SearchMembership(cards, query, results[k]);
    }
  }

  /** The `forEach` loop of `displayResults`: one row per result, in result order. */
  method BuildRows(results: seq<Card>) returns (rows: seq<Row>)
    ensures |rows| == |results|
    ensures forall k :: 0 <= k < |results| ==> rows[k] == RowFor(results[k])
  {
    rows := [];
    var i := 0;
    while i < |results|
      invariant 0 <= i <= |results|
      invariant |rows| == i
      invariant forall k :: 0 <= k < i ==> rows[k] == RowFor(results[k])
    {
      rows := rows + [RowFor(results[i])];
      i := i + 1;
    }
  }
}
