/**
 * The card database: the card record, the built-in fallback set and the
 * normalisation of whatever the fetch of `./database.json` produced
 * (scripts/main.js, "CARD DATABASE HANDLING").
 */
module Cards {
  import opened Wrappers

  /** One `key: value` entry of a card's `stats` object, in `Object.entries` order. */
  datatype Stat = Stat(key: string, value: int)

  /**
   * A card as the database holds it. `description`, `stats`, `rules` and
   * `image` may be missing from the JSON; `None` stands for `undefined`.
   */
  datatype Card = Card(
    id: string,
    name: string,
    cardType: string,
    description: Option<string>,
    stats: Option<seq<Stat>>,
    rules: Option<seq<string>>,
    image: Option<string>)

  /** The fallback descriptions. */
  const GoombaText: string := "A small, brown mushroom-like creature. Weak but appears in large numbers. (Fallback Data)"
  const EarthText: string := "Fundamental earth element that provides stability and defense. (Fallback Data)"

  /** The two cards used when the database cannot be loaded. */
  function FallbackCards(): (r: seq<Card>)
    ensures |r| == 2
    ensures r[0].id == "goomba" && r[0].name == "Goomba"
    ensures r[1].id == "baseline-earth" && r[1].name == "Baseline Earth"
    ensures forall k :: 0 <= k < |r| ==> r[k].stats == Some([]) && r[k].rules == None
  {
    [ Card("goomba", "Goomba", "Common Creature",
        Some(GoombaText),
        Some([]), None, Some("Images/goomba.png")),
      Card("baseline-earth", "Baseline Earth", "Terrain",
        Some(EarthText),
        Some([]), None, Some("Images/earth.png")) ]
  }

  // ---------------------------------------------------------------------
  // What the fetch produced
  // ---------------------------------------------------------------------

  /** The value of the `cards` property of a JSON object payload. */
  datatype CardsField =
    | Absent                      // no such property: `undefined`
    | Falsy                       // null, false, 0 or ""
    | CardArray(list: seq<Card>)  // an array (truthy even when empty)
    | OtherTruthy                 // any other truthy value (a number, a string, an object)

  /** The JSON value that `response.json()` parsed. */
  datatype Payload =
    | BareArray(items: seq<Card>)     // `[card, ...]`
    | Wrapped(cardsField: CardsField) // `{ "cards": ..., ... }`
    | JsonNull                        // `null`: reading `.cards` of it throws
    | Scalar                          // a number, string or boolean: `.cards` is `undefined`

  /** The body of an HTTP response. */
  datatype Body = NotJson | Json(payload: Payload)

  /** The outcome of `fetch('./database.json')`. */
  datatype FetchOutcome =
    | NetworkError
    | Response(status: int, body: Body)

  /** What `loadCardDatabase` resolves to. */
  datatype Loaded =
    | CardList(cards: seq<Card>)  // an array of cards
    | NotCardList                 // not an array: the payload itself, or its truthy non-array `cards`

  /** `response.ok`: the status is in the 2xx range. */
  predicate IsOk(status: int) {
    200 <= status <= 299
  }

  /** The fetch failed or threw somewhere on the way to `data.cards`. */
  predicate LoadFails(o: FetchOutcome) {
    || o.NetworkError?
    || !IsOk(o.status)
    || o.body.NotJson?
    || o.body.payload.JsonNull?
  }

  /**
   * `loadCardDatabase`: `data.cards || data` on a successful fetch, the
   * fallback set whenever anything on the way throws.
   */
  function LoadCardDatabase(o: FetchOutcome): (r: Loaded)
    ensures LoadFails(o) ==> r == CardList(FallbackCards())
    ensures o.Response? && IsOk(o.status) && o.body.Json? ==>
      match o.body.payload
      case BareArray(items) => r == CardList(items)
      case Wrapped(CardArray(list)) => r == CardList(list)
      case Wrapped(_) => r == NotCardList
      case JsonNull => r == CardList(FallbackCards())
      case Scalar => r == NotCardList
  {
    match o
    case NetworkError => CardList(FallbackCards())
    case Response(status, body) =>
      if !IsOk(status) then CardList(FallbackCards())
      else
        match body
        case NotJson => CardList(FallbackCards())
        case Json(payload) =>
          match payload
          case JsonNull => CardList(FallbackCards())
          case BareArray(items) => CardList(items)
          case Wrapped(field) =>
            (match field
             case CardArray(list) => CardList(list)
             case Absent => NotCardList
             case Falsy => NotCardList
             case OtherTruthy => NotCardList)
          case Scalar => NotCardList
  }

  /** Loading never leaves the application without cards when anything fails. */
  lemma FailedLoadIsUsable(o: FetchOutcome)
    requires LoadFails(o)
    ensures LoadCardDatabase(o).CardList? && |LoadCardDatabase(o).cards| == 2
  {
  }

  /** Both accepted shapes of the database normalise to the same card list. */
  lemma BothShapesAgree(status: int, list: seq<Card>)
    requires IsOk(status)
    ensures LoadCardDatabase(Response(status, Json(BareArray(list))))
         == LoadCardDatabase(Response(status, Json(Wrapped(CardArray(list)))))
         == CardList(list)
  {
  }
}
