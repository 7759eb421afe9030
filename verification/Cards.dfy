/** Cards, suits, ranks, the rule context of a round and the pattern record
    (types.h, card.h, card_pattern.h). */
module Cards {

  /** 16-bit card identifier. */
  type CardId = x: int | 0 <= x < 0x1_0000

  datatype Suit = Spade | Heart | Club | Diamond | JokerSuit

  /** Rank values 2..14 are 2..A; 15 and 16 are the two jokers. */
  type Rank = r: int | 2 <= r <= 16 witness 2

  const R10: Rank := 10
  const ACE: Rank := 14
  const SMALL_JOKER: Rank := 15
  const BIG_JOKER: Rank := 16

  datatype Card = Card(id: CardId, suit: Suit, rank: Rank)

  predicate IsJoker(r: int) {
    r == SMALL_JOKER || r == BIG_JOKER
  }

  /** The level of a round: 2..14. */
  type Level = x: int | 2 <= x <= 14 witness 2

  const LEVEL_CARD_PATTERN_RANK := 15
  const SMALL_JOKER_PATTERN_RANK := 16
  const BIG_JOKER_PATTERN_RANK := 17

  datatype RuleContext = RuleContext(currentLevel: Level, enableWildCard: bool) {

    /** The heart of the current level stands for any card. */
    predicate IsWild(c: Card) {
      enableWildCard && c.suit == Heart && c.rank == currentLevel
    }

    predicate IsLevel(c: Card) {
      !IsJoker(c.rank) && c.rank == currentLevel
    }

    /** Comparison rank of a natural rank in patterns where the level card beats the ace. */
    function PatternRank(raw: int): int {
      if raw == currentLevel then LEVEL_CARD_PATTERN_RANK else raw
    }

    /** Comparison rank of a single card. */
    function SingleRank(c: Card): int {
      if c.rank == SMALL_JOKER then SMALL_JOKER_PATTERN_RANK
      else if c.rank == BIG_JOKER then BIG_JOKER_PATTERN_RANK
      else if IsLevel(c) then LEVEL_CARD_PATTERN_RANK
      else c.rank
    }
  }

  datatype CardType =
    | Invalid | Single | Pair | Triple | TripleWithPair | Straight
    | ThreePairs | TwoTriples | StraightFlush | Bomb | JokerBomb

  datatype CardPattern = CardPattern(kind: CardType, primaryRank: int, length: int, pairRank: int, isValid: bool)

  const INVALID_PATTERN := CardPattern(Invalid, 0, 0, 0, false)

  /** The card with a given id: the first match in the deck, as a linear search finds it.
      Where the search would throw (no such id) the model returns a card outside every deck;
      the engine's invariant shows that no lookup reaches that case. */
  function CardById(all: seq<Card>, id: CardId): (c: Card)
    ensures c.id == id
    ensures (exists k :: 0 <= k < |all| && all[k].id == id) ==> c in all
  {
    if all == [] then Card(id, Spade, 2)
    else if all[0].id == id then all[0]
    else CardById(all[1..], id)
  }

  function CardsFromIds(all: seq<Card>, ids: seq<CardId>): (cards: seq<Card>)
    ensures |cards| == |ids|
    ensures forall k :: 0 <= k < |ids| ==> cards[k] == CardById(all, ids[k])
  {
    seq(|ids|, i requires 0 <= i < |ids| => CardById(all, ids[i]))
  }
}
