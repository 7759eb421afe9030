/** The pattern of a list of cards, defined from what the list amounts to: how many cards,
    which natural ranks, whether all are level cards and whether the natural ones share a suit. */
module Patterns {
  import opened Cards
  import opened Shapes

  datatype Tally = Tally(total: nat, wild: nat, counts: Counts, pureLevel: bool, flush: bool)

  /** Every natural card is of suit `s`. */
  ghost predicate OfSuit(cards: multiset<Card>, ctx: RuleContext, s: Suit) {
    forall c :: c in cards && !ctx.IsWild(c) ==> c.suit == s
  }

  ghost predicate SameSuit(cards: multiset<Card>, ctx: RuleContext) {
    exists s :: OfSuit(cards, ctx, s)
  }

  ghost predicate AllLevel(cards: multiset<Card>, ctx: RuleContext) {
    forall c :: c in cards ==> ctx.IsLevel(c)
  }

  ghost function TallyOf(cards: seq<Card>, ctx: RuleContext): Tally {
    Tally(|cards|, WildCount(cards, |cards|, ctx), CountsTo(cards, |cards|, ctx),
          AllLevel(multiset(cards), ctx), SameSuit(multiset(cards), ctx))
  }

  /** Wild and natural cards together are all the cards; ranks 0 and 1 do not occur. */
  ghost predicate WellFormed(t: Tally) {
    Total(t.counts) + t.wild == t.total && t.counts[0] == 0 && t.counts[1] == 0
  }

  lemma TallyWellFormed(cards: seq<Card>, ctx: RuleContext)
    ensures WellFormed(TallyOf(cards, ctx))
  {
    CountsTotal(cards, |cards|, ctx);
    CountRange(cards, |cards|, ctx, 0);
    CountRange(cards, |cards|, ctx, 1);
  }

  lemma TallyPermutation(a: seq<Card>, b: seq<Card>, ctx: RuleContext)
    requires multiset(a) == multiset(b)
    ensures TallyOf(a, ctx) == TallyOf(b, ctx)
  {
    assert |a| == |multiset(a)| == |b|;
    forall r | 0 <= r < 17
      ensures CountsTo(a, |a|, ctx)[r] == CountsTo(b, |b|, ctx)[r]
    {
      CountPermutation(a, b, ctx, r);
    }
    assert CountsTo(a, |a|, ctx) == CountsTo(b, |b|, ctx);
    TallyWellFormed(a, ctx);
    TallyWellFormed(b, ctx);
  }

  // ----- patterns -----

  function Valid(kind: CardType, primary: int, length: int, pairRank: int): CardPattern {
    CardPattern(kind, primary, length, pairRank, true)
  }

  ghost predicate Occurs(c: Counts, r: int) {
    2 <= r <= 16 && c[r] > 0
  }

  /** The rank of a one-rank list: its natural rank, or the level when all cards are wild. */
  ghost function BaseRank(t: Tally, ctx: RuleContext): (r: int)
    requires OneRank(t.counts)
    ensures (forall x :: !Occurs(t.counts, x)) ==> r == ctx.currentLevel
    ensures forall x :: Occurs(t.counts, x) ==> r == x
  {
    if exists x :: Occurs(t.counts, x) then var r :| Occurs(t.counts, r); r else ctx.currentLevel
  }

  ghost predicate IsJokerBomb(t: Tally) {
    t.counts[SMALL_JOKER] >= 2 && t.counts[BIG_JOKER] >= 2 &&
    t.counts[SMALL_JOKER] + t.counts[BIG_JOKER] == t.total
  }

  ghost predicate IsBomb(t: Tally) {
    t.total >= 4 && OneRank(t.counts)
  }

  ghost function BombPattern(t: Tally, ctx: RuleContext): CardPattern {
    if IsBomb(t) then Valid(Bomb, if t.pureLevel then LEVEL_CARD_PATTERN_RANK else BaseRank(t, ctx), t.total, 0)
    else INVALID_PATTERN
  }

  /** Pair or triple: one rank over all the cards. */
  ghost function SamePattern(kind: CardType, t: Tally, ctx: RuleContext): CardPattern {
    if OneRank(t.counts) then Valid(kind, ctx.PatternRank(BaseRank(t, ctx)), t.total, 0) else INVALID_PATTERN
  }

  /** Three of one rank and two of another, both present; the lower rank is tripled if it can be. */
  ghost predicate PicksTriple(c: Counts, a: int, b: int) {
    Occurs(c, a) && Occurs(c, b) && a != b && Fits(c, House(a, b)) && (b < a ==> !Fits(c, House(b, a)))
  }

  ghost function FullHousePattern(t: Tally, ctx: RuleContext): CardPattern {
    if exists a, b :: PicksTriple(t.counts, a, b) then
      var a, b :| PicksTriple(t.counts, a, b);
      Valid(TripleWithPair, ctx.PatternRank(a), 5, b)
    else INVALID_PATTERN
  }

  lemma PicksTripleUnique(c: Counts, a: int, b: int, a': int, b': int)
    requires PicksTriple(c, a, b) && PicksTriple(c, a', b')
    ensures a == a' && b == b'
  {
    assert c[a'] <= Cell(House(a, b), a') && c[b'] <= Cell(House(a, b), b');
  }

  /** The least start from `start` on whose window holds all the natural cards; 0 if none does. */
  ghost function LeastWindow(c: Counts, start: nat, maxStart: nat, len: nat, mult: nat): (s: nat)
    requires start >= 1
    ensures s == 0 || (start <= s <= maxStart && Fits(c, Window(s, len, mult)))
    ensures forall k :: start <= k < (if s == 0 then maxStart + 1 else s) ==> !Fits(c, Window(k, len, mult))
    decreases maxStart + 1 - start
  {
    if start > maxStart then 0
    else if Fits(c, Window(start, len, mult)) then start
    else LeastWindow(c, start + 1, maxStart, len, mult)
  }

  const STRAIGHT_MAX_START := 10
  const THREE_PAIRS_MAX_START := 12
  const TWO_TRIPLES_MAX_START := 13

  ghost function WindowPattern(kind: CardType, c: Counts, maxStart: nat, len: nat, mult: nat): CardPattern {
    var s := LeastWindow(c, 1, maxStart, len, mult);
    if s > 0 then Valid(kind, s + len - 1, len, 0) else INVALID_PATTERN
  }

  ghost function StraightPattern(t: Tally): CardPattern {
    if t.total == 5 then WindowPattern(Straight, t.counts, STRAIGHT_MAX_START, 5, 1) else INVALID_PATTERN
  }

  ghost function StraightFlushPattern(t: Tally): CardPattern {
    if t.total == 5 && t.flush && Total(t.counts) > 0 then
      WindowPattern(StraightFlush, t.counts, STRAIGHT_MAX_START, 5, 1)
    else INVALID_PATTERN
  }

  ghost function ThreePairsPattern(t: Tally): CardPattern {
    if t.total == 6 then WindowPattern(ThreePairs, t.counts, THREE_PAIRS_MAX_START, 3, 2) else INVALID_PATTERN
  }

  ghost function TwoTriplesPattern(t: Tally): CardPattern {
    if t.total == 6 then WindowPattern(TwoTriples, t.counts, TWO_TRIPLES_MAX_START, 2, 3) else INVALID_PATTERN
  }

  /** Comparison rank of a single card from its rank alone. */
  function SingleRankOf(r: int, ctx: RuleContext): int {
    if r == SMALL_JOKER then SMALL_JOKER_PATTERN_RANK
    else if r == BIG_JOKER then BIG_JOKER_PATTERN_RANK
    else ctx.PatternRank(r)
  }

  /** The patterns of lists that are neither joker bomb nor bomb. */
  ghost function OrdinaryPattern(t: Tally, ctx: RuleContext): CardPattern {
    if t.total == 1 && OneRank(t.counts) then Valid(Single, SingleRankOf(BaseRank(t, ctx), ctx), 1, 0)
    else if t.total == 2 then SamePattern(Pair, t, ctx)
    else if t.total == 3 then SamePattern(Triple, t, ctx)
    else if t.total == 5 then
      var house := FullHousePattern(t, ctx);
      var flush := StraightFlushPattern(t);
      if house.isValid then house else if flush.isValid then flush else StraightPattern(t)
    else if t.total == 6 then
      var pairs := ThreePairsPattern(t);
      if pairs.isValid then pairs else TwoTriplesPattern(t)
    else INVALID_PATTERN
  }

  ghost function Classify(t: Tally, ctx: RuleContext): CardPattern {
    if t.total == 0 then INVALID_PATTERN
    else if IsJokerBomb(t) then Valid(JokerBomb, BIG_JOKER, t.total, 0)
    else
      var bomb := BombPattern(t, ctx);
      if bomb.isValid then bomb else OrdinaryPattern(t, ctx)
  }

  /** The pattern of a list of cards under a rule context. */
  ghost function Analyze(cards: seq<Card>, ctx: RuleContext): CardPattern {
    Classify(TallyOf(cards, ctx), ctx)
  }

  /** The pattern does not depend on the order of the cards. */
  lemma AnalyzePermutation(a: seq<Card>, b: seq<Card>, ctx: RuleContext)
    requires multiset(a) == multiset(b)
    ensures Analyze(a, ctx) == Analyze(b, ctx)
  {
    TallyPermutation(a, b, ctx);
  }
}
