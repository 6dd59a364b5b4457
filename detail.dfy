/**
 * What `showCardDetails` renders into the detail container for one card
 * (scripts/main.js, "CARD DETAILS DISPLAY"), as an abstract page rather than markup.
 */
module Detail {
  import opened Wrappers
  import opened Cards

  /** The blocks of the detail page, in the order the template lays them out. */
  datatype CardPage = CardPage(
    imageSrc: string,
    title: string,
    cardType: string,
    statsBlock: Option<seq<Stat>>,
    description: string,
    rulesBlock: Option<seq<string>>)

  /** How `${x}` shows a property that may be missing: the text `undefined`. */
  function Interpolate(s: Option<string>): string {
    s.GetOr("undefined")
  }

  /**
   * The stats block is rendered whenever `card.stats` is present, even when
   * it is `{}`; the rules block only when `card.rules` is present and non-empty.
   */
  function RenderCard(card: Card): (p: CardPage)
    ensures p.title == card.name && p.cardType == card.cardType
    ensures p.statsBlock.Some? <==> card.stats.Some?
    ensures p.statsBlock.Some? ==> p.statsBlock.value == card.stats.value
    ensures p.rulesBlock.Some? <==> card.rules.Some? && |card.rules.value| > 0
    ensures p.rulesBlock.Some? ==> p.rulesBlock.value == card.rules.value
    ensures card.description.Some? ==> p.description == card.description.value
    ensures card.description.None? ==> p.description == "undefined"
    ensures card.image.Some? ==> p.imageSrc == card.image.value
    ensures card.image.None? ==> p.imageSrc == "undefined"
  {
    var stats := if card.stats.Some? then Some(card.stats.value) else None;
    var rules := if card.rules.Some? && |card.rules.value| > 0 then Some(card.rules.value) else None;
    CardPage(Interpolate(card.image), card.name, card.cardType, stats, Interpolate(card.description), rules)
  }

  /** The fallback cards have `stats: {}` and no rules: an empty stats block and no rules block. */
  lemma FallbackPages()
    ensures forall k :: 0 <= k < |FallbackCards()| ==>
      RenderCard(FallbackCards()[k]).statsBlock == Some([]) && RenderCard(FallbackCards()[k]).rulesBlock == None
  {
  }
}
