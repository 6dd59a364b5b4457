/**
 * The two views and the `#card-<id>` deep links (scripts/main.js:
 * the view switch in `showCardDetails`, the back button, the deep-link
 * lookup in `initializeApp`, and the hash written when a result is chosen).
 */
module Router {
  import opened Wrappers
  import opened Text
  import opened Cards

  /** The prefix `initializeApp` looks for in `location.hash`. */
  const CardHashPrefix: string := "#card-"

  /** List: search and rules sections shown. Detail: the detail container shown for one card. */
  datatype View = List | Detail(card: Card)

  /** The `style.display` of the three sections, as shown (`true`) or hidden. */
  datatype Sections = Sections(search: bool, rules: bool, detail: bool)

  function SectionsOf(v: View): (s: Sections)
    ensures s.detail <==> v.Detail?
    ensures s.search == s.rules == !s.detail
  {
    match v
    case List => Sections(true, true, false)
    case Detail(_) => Sections(false, false, true)
  }

  /** What a click on a result assigns to `location.hash`. */
  function CardFragment(id: string): (r: string)
    ensures r != "" && r[0] != '#'
    ensures "#" + r == CardHashPrefix + id
  {
    "card-" + id
  }

  /**
   * What `location.hash` reads after `location.hash = v`: one leading `#` of
   * `v` is dropped, an empty fragment reads as "", any other gets a `#`.
   */
  function AssignHash(v: string): (h: string)
    ensures h == "" || h[0] == '#'
    ensures v == "" || v == "#" ==> h == ""
    ensures v != "" && v[0] != '#' ==> h == "#" + v
  {
    var fragment := if |v| > 0 && v[0] == '#' then v[1..] else v;
    if fragment == "" then "" else "#" + fragment
  }

  /** The deep-link test at start-up: a hash with the card prefix, and the id after that prefix once it is removed. */
  function CardIdFromHash(hash: string): (r: Option<string>)
    ensures r.Some? <==> StartsWith(hash, CardHashPrefix)
    ensures r.Some? ==> hash == CardHashPrefix + r.value
  {
    if StartsWith(hash, CardHashPrefix) then
      ReplacePrefixStrips(hash, CardHashPrefix);
      Some(ReplaceFirst(hash, CardHashPrefix, ""))
    else None
  }

  /** `cards.findIndex(c => c.id === id)`. */
  function FindIndex(cards: seq<Card>, id: string): (k: int)
    ensures -1 <= k < |cards|
    ensures k >= 0 ==> cards[k].id == id && forall j :: 0 <= j < k ==> cards[j].id != id
    ensures k < 0 ==> forall j :: 0 <= j < |cards| ==> cards[j].id != id
  {
    if cards == [] then -1
    else if cards[0].id == id then 0
    else
      var k := FindIndex(cards[1..], id);
      assert forall j :: 1 <= j < |cards| ==> cards[j] == cards[1..][j - 1];
      if k < 0 then -1 else k + 1
  }

  /** `cards.find(c => c.id === id)`: the first card with that id, if any. */
  function FindById(cards: seq<Card>, id: string): (r: Option<Card>)
    ensures r.None? <==> forall c :: c in cards ==> c.id != id
    ensures r.Some? ==> r.value in cards && r.value.id == id
    ensures r.Some? ==>
      exists k :: 0 <= k < |cards| && cards[k] == r.value && forall j :: 0 <= j < k ==> cards[j].id != id
  {
    var k := FindIndex(cards, id);
    if k < 0 then None else Some(cards[k])
  }

  /** No two cards share an id. */
  predicate UniqueIds(cards: seq<Card>) {
    forall i, j :: 0 <= i < j < |cards| ==> cards[i].id != cards[j].id
  }

  lemma FindUniqueId(cards: seq<Card>, c: Card)
    requires UniqueIds(cards) && c in cards
    ensures FindById(cards, c.id) == Some(c)
  {
    var r := FindById(cards, c.id);
    var k :| 0 <= k < |cards| && cards[k] == r.value && forall j :: 0 <= j < k ==> cards[j].id != c.id;
    var m :| 0 <= m < |cards| && cards[m] == c;
    if m < k {
    } else if k < m {
    }
  }

  /**
   * The view `initializeApp` opens on: the detail of the first card whose id
   * follows `#card-` in the hash, or the list when there is no such card.
   */
  function InitialView(cards: seq<Card>, hash: string): (v: View)
    ensures v.Detail? <==>
      (StartsWith(hash, CardHashPrefix) && exists c :: c in cards && c.id == hash[|CardHashPrefix|..])
    ensures v.Detail? ==> v.card in cards && hash == CardHashPrefix + v.card.id
    ensures v.Detail? ==> FindById(cards, v.card.id) == Some(v.card)
  {
    match CardIdFromHash(hash)
    case None => List
    case Some(id) =>
      match FindById(cards, id)
      case None => List
      case Some(c) => Detail(c)
  }

  /** Parsing the hash a click writes gives back the chosen card's id. */
  lemma HashRoundTrip(id: string)
    ensures AssignHash(CardFragment(id)) == CardHashPrefix + id
    ensures CardIdFromHash(AssignHash(CardFragment(id))) == Some(id)
  {
    assert (CardHashPrefix + id)[..|CardHashPrefix|] == CardHashPrefix;
  }

  /** With unique ids, reloading the page on the hash a click wrote reopens that card. */
  lemma ReloadShowsSelected(cards: seq<Card>, c: Card)
    requires UniqueIds(cards) && c in cards
    ensures InitialView(cards, AssignHash(CardFragment(c.id))) == Detail(c)
  {
    HashRoundTrip(c.id);
    FindUniqueId(cards, c);
  }

  /** A hash naming the first card's id opens that card. */
  lemma DeepLinkToFirst(cards: seq<Card>, id: string)
    requires cards != [] && cards[0].id == id
    ensures InitialView(cards, CardHashPrefix + id) == Detail(cards[0])
  {
    HashRoundTrip(id);
    assert FindIndex(cards, id) == 0;
  }

  /** The fallback set resolves `#card-goomba` to the Goomba card. */
  lemma FallbackDeepLink()
    ensures InitialView(FallbackCards(), "#card-goomba") == Detail(FallbackCards()[0])
  {
    assert "#card-goomba" == CardHashPrefix + "goomba";
    DeepLinkToFirst(FallbackCards(), "goomba");
  }

  /** An id no card has leaves the list in place. */
  lemma FallbackUnknownId()
    ensures InitialView(FallbackCards(), "#card-unknown") == List
  {
    HashRoundTrip("unknown");
    assert FallbackCards()[1].id != "unknown";
  }
}
