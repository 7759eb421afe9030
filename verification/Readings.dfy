/** What the analyser accepts, in terms of readings: a list is a valid pattern exactly when its
    wild cards can be given ranks so that the cards form one of the shapes. */
module Readings {
  import opened Cards
  import opened Shapes
  import opened Patterns

  /** Wild cards extend any group, a joker group included; windows use ranks 2..A only. */
  const GROUP_TOP := 16
  const WINDOW_TOP := 14

  ghost predicate ReadsAs(cards: seq<Card>, ctx: RuleContext, s: Shape) {
    var top := if s.Window? then WINDOW_TOP else GROUP_TOP;
    Proper(s, top) && Completes(cards, ctx, s, top)
  }

  lemma ReadsAsIffFits(cards: seq<Card>, ctx: RuleContext, s: Shape)
    ensures ReadsAs(cards, ctx, s) <==>
              Proper(s, if s.Window? then WINDOW_TOP else GROUP_TOP) && |cards| == Size(s)
                  && Fits(TallyOf(cards, ctx).counts, s)
  {
    var top := if s.Window? then WINDOW_TOP else GROUP_TOP;
    if Proper(s, top) {
      CompletesIffFits(cards, ctx, s, top);
    }
  }

  ghost predicate ReadsAsSame(cards: seq<Card>, ctx: RuleContext) {
    exists r :: ReadsAs(cards, ctx, Same(r, |cards|))
  }

  ghost predicate ReadsAsHouse(cards: seq<Card>, ctx: RuleContext) {
    exists a, b :: ReadsAs(cards, ctx, House(a, b))
  }

  ghost predicate ReadsAsWindow(cards: seq<Card>, ctx: RuleContext, len: nat, mult: nat) {
    exists start: nat :: ReadsAs(cards, ctx, Window(start, len, mult))
  }

  lemma SameIffOneRank(cards: seq<Card>, ctx: RuleContext)
    ensures ReadsAsSame(cards, ctx) <==> OneRank(TallyOf(cards, ctx).counts)
  {
    var t := TallyOf(cards, ctx);
    var n := |cards|;
    TallyWellFormed(cards, ctx);
    if r :| ReadsAs(cards, ctx, Same(r, n)) {
      ReadsAsIffFits(cards, ctx, Same(r, n));
      assert forall x :: 2 <= x <= 16 && t.counts[x] > 0 ==> t.counts[x] <= Cell(Same(r, n), x);
    }
    if OneRank(t.counts) {
      SameIsBase(cards, ctx);
    }
  }

  /** The triple-with-pair branch is complete: cards of more than one natural rank form a house
      under some choice for the wild cards exactly when the branch accepts them. */
  lemma HouseIffPattern(cards: seq<Card>, ctx: RuleContext)
    requires |cards| == 5 && !OneRank(TallyOf(cards, ctx).counts)
    ensures ReadsAsHouse(cards, ctx) <==> FullHousePattern(TallyOf(cards, ctx), ctx).isValid
  {
    hide ReadsAs, Count, WildCount;
    var c := TallyOf(cards, ctx).counts;
    if a, b :| ReadsAs(cards, ctx, House(a, b)) {
      ReadsAsIffFits(cards, ctx, House(a, b));
      var x, y :| 2 <= x <= 16 && 2 <= y <= 16 && c[x] > 0 && c[y] > 0 && x != y;
      assert c[x] <= Cell(House(a, b), x) && c[y] <= Cell(House(a, b), y);
      assert PicksTriple(c, a, b) || PicksTriple(c, b, a);
    }
    if a, b :| PicksTriple(c, a, b) {
      ReadsAsIffFits(cards, ctx, House(a, b));
    }
  }

  /** The window branches are complete and pick the least window. */
  lemma WindowIffPattern(cards: seq<Card>, ctx: RuleContext, kind: CardType, maxStart: nat, len: nat, mult: nat)
    requires |cards| == len * mult && 0 < len <= 13 && maxStart + len == 15
    ensures var p := WindowPattern(kind, TallyOf(cards, ctx).counts, maxStart, len, mult);
            && (p.isValid <==> ReadsAsWindow(cards, ctx, len, mult))
            && (p.isValid ==> p.primaryRank >= len && ReadsAs(cards, ctx, Window(p.primaryRank - len + 1, len, mult)))
            && (p.isValid ==> forall start: nat :: start < p.primaryRank - len + 1 ==>
                !ReadsAs(cards, ctx, Window(start, len, mult)))
  {
    var c := TallyOf(cards, ctx).counts;
    var s := LeastWindow(c, 1, maxStart, len, mult);
    forall start: nat
      ensures ReadsAs(cards, ctx, Window(start, len, mult)) <==>
                1 <= start && start + len <= 15 && Fits(c, Window(start, len, mult))
    {
      ReadsAsIffFits(cards, ctx, Window(start, len, mult));
    }
  }

  /** The list holds two cards of this rank. */
  ghost predicate TwoOf(cards: seq<Card>, k: nat, r: Rank) {
    exists i, j :: 0 <= i < j < k <= |cards| && cards[i].rank == cards[j].rank == r
  }

  /** Two small and two big jokers at least, and nothing else. */
  ghost predicate JokersOnly(cards: seq<Card>) {
    && (forall i :: 0 <= i < |cards| ==> IsJoker(cards[i].rank))
    && TwoOf(cards, |cards|, SMALL_JOKER) && TwoOf(cards, |cards|, BIG_JOKER)
  }

  /** How many of the first `k` cards have this rank, wild ones included. */
  lemma {:induction false} JokerCount(cards: seq<Card>, k: nat, ctx: RuleContext, r: Rank)
    requires k <= |cards| && IsJoker(r)
    ensures Count(cards, k, ctx, r) >= 1 <==> exists i :: 0 <= i < k && cards[i].rank == r
    ensures Count(cards, k, ctx, r) >= 2 <==> TwoOf(cards, k, r)
  {
    if k > 0 {
      JokerCount(cards, k - 1, ctx, r);
      assert !ctx.IsWild(cards[k - 1]) || cards[k - 1].rank != r;
      if i, j :| 0 <= i < j < k && cards[i].rank == cards[j].rank == r && j == k - 1 {
        assert Count(cards, k - 1, ctx, r) >= 1;
      }
    }
  }

  lemma {:induction false} AllJokers(cards: seq<Card>, k: nat, ctx: RuleContext)
    requires k <= |cards|
    ensures Count(cards, k, ctx, SMALL_JOKER) + Count(cards, k, ctx, BIG_JOKER) <= k
    ensures Count(cards, k, ctx, SMALL_JOKER) + Count(cards, k, ctx, BIG_JOKER) == k <==>
            forall i :: 0 <= i < k ==> IsJoker(cards[i].rank)
  {
    if k > 0 {
      AllJokers(cards, k - 1, ctx);
    }
  }

  /** The joker bomb is recognised exactly, at its length, and ranks as the big joker. */
  lemma JokerBombIff(cards: seq<Card>, ctx: RuleContext)
    ensures Analyze(cards, ctx).kind == JokerBomb <==> JokersOnly(cards)
    ensures IsJokerBomb(TallyOf(cards, ctx)) <==> JokersOnly(cards)
    ensures JokersOnly(cards) ==> Analyze(cards, ctx) == CardPattern(JokerBomb, 16, |cards|, 0, true)
  {
    hide LeastWindow, PicksTriple, OneRank, AllLevel, SameSuit, WildCount, Count, TwoOf;
    JokerCount(cards, |cards|, ctx, SMALL_JOKER);
    JokerCount(cards, |cards|, ctx, BIG_JOKER);
    AllJokers(cards, |cards|, ctx);
  }

  ghost predicate Readable(cards: seq<Card>, ctx: RuleContext) {
    || JokersOnly(cards)
    || (cards != [] && ReadsAsSame(cards, ctx))
    || (|cards| == 5 && (ReadsAsHouse(cards, ctx) || ReadsAsWindow(cards, ctx, 5, 1)))
    || (|cards| == 6 && (ReadsAsWindow(cards, ctx, 3, 2)
        || ReadsAsWindow(cards, ctx, 2, 3)))
  }

  /** The analyser accepts a list exactly when the list can be read as one of the shapes. */
  lemma AnalyzeIffReadable(cards: seq<Card>, ctx: RuleContext)
    ensures Analyze(cards, ctx).isValid <==> Readable(cards, ctx)
  {
    hide JokersOnly;
    var t := TallyOf(cards, ctx);
    JokerBombIff(cards, ctx);
    SameIffOneRank(cards, ctx);
    if |cards| == 5 {
      if !OneRank(t.counts) {
        HouseIffPattern(cards, ctx);
      }
      WindowIffPattern(cards, ctx, Straight, STRAIGHT_MAX_START, 5, 1);
      WindowIffPattern(cards, ctx, StraightFlush, STRAIGHT_MAX_START, 5, 1);
    }
    if |cards| == 6 {
      WindowIffPattern(cards, ctx, ThreePairs, THREE_PAIRS_MAX_START, 3, 2);
      WindowIffPattern(cards, ctx, TwoTriples, TWO_TRIPLES_MAX_START, 2, 3);
    }
    if t.total == 0 {
      assert !IsJokerBomb(t);
    }
  }

  /** The kind under which a list is reported, by what it can be read as: bombs come first, a house before a
      straight, three pairs before two triples. */
  ghost function ReadKind(cards: seq<Card>, ctx: RuleContext): CardType {
    if JokersOnly(cards) then JokerBomb
    else if |cards| >= 4 && ReadsAsSame(cards, ctx) then Bomb
    else if |cards| == 1 then Single
    else if |cards| == 2 && ReadsAsSame(cards, ctx) then Pair
    else if |cards| == 3 && ReadsAsSame(cards, ctx) then Triple
    else if |cards| == 5 && ReadsAsHouse(cards, ctx) then TripleWithPair
    else if |cards| == 5 && ReadsAsWindow(cards, ctx, 5, 1) then
      if SameSuit(multiset(cards), ctx) then StraightFlush else Straight
    else if |cards| == 6 && ReadsAsWindow(cards, ctx, 3, 2) then ThreePairs
    else if |cards| == 6 && ReadsAsWindow(cards, ctx, 2, 3) then TwoTriples
    else Invalid
  }

  lemma FiveCardKind(cards: seq<Card>, ctx: RuleContext)
    requires |cards| == 5 && !OneRank(TallyOf(cards, ctx).counts) && !JokersOnly(cards)
    ensures Analyze(cards, ctx).kind == ReadKind(cards, ctx)
  {
    hide ReadsAs, CountsTo, WildCount, PicksTriple, JokersOnly, LeastWindow, SameSuit, AllLevel;
    var t := TallyOf(cards, ctx);
    JokerBombIff(cards, ctx);
    SameIffOneRank(cards, ctx);
    HouseIffPattern(cards, ctx);
    WindowIffPattern(cards, ctx, Straight, STRAIGHT_MAX_START, 5, 1);
    WindowIffPattern(cards, ctx, StraightFlush, STRAIGHT_MAX_START, 5, 1);
    if Total(t.counts) == 0 {
      NothingOccurs(t.counts);
    }
    hide OneRank;
  }

  /** The analyser reports exactly that kind. */
  lemma KindMeaning(cards: seq<Card>, ctx: RuleContext)
    ensures Analyze(cards, ctx).kind == ReadKind(cards, ctx)
  {
    hide ReadsAs, CountsTo, WildCount, PicksTriple, JokersOnly, LeastWindow, SameSuit, AllLevel;
    var t := TallyOf(cards, ctx);
    JokerBombIff(cards, ctx);
    SameIffOneRank(cards, ctx);
    if |cards| == 1 {
      OneCardIsOneRank(cards, ctx);
    } else if |cards| == 5 && !OneRank(t.counts) && !JokersOnly(cards) {
      FiveCardKind(cards, ctx);
    } else if |cards| == 6 {
      WindowIffPattern(cards, ctx, ThreePairs, THREE_PAIRS_MAX_START, 3, 2);
      WindowIffPattern(cards, ctx, TwoTriples, TWO_TRIPLES_MAX_START, 2, 3);
    }
    NoJokersInNothing(cards);
    hide OneRank;
  }

  lemma OneCardIsOneRank(cards: seq<Card>, ctx: RuleContext)
    requires |cards| == 1
    ensures OneRank(TallyOf(cards, ctx).counts)
  {
    assert forall r :: 0 <= r < 17 ==> CountsTo(cards, 1, ctx)[r] == Count(cards, 0, ctx, r) + Shows(cards[0], ctx, r);
  }

  lemma NoJokersInNothing(cards: seq<Card>)
    ensures JokersOnly(cards) ==> |cards| >= 4
  {
    if JokersOnly(cards) {
      var i, j :| 0 <= i < j < |cards| && cards[i].rank == cards[j].rank == SMALL_JOKER;
      var k, l :| 0 <= k < l < |cards| && cards[k].rank == cards[l].rank == BIG_JOKER;
      DistinctPlaces(i, j, k, l, |cards|);
    }
  }

  lemma DistinctPlaces(i: int, j: int, k: int, l: int, n: int)
    requires 0 <= i < j < n && 0 <= k < l < n && i != k && i != l && j != k && j != l
    ensures n >= 4
  {
  }

  /** A returned straight reads as the five-card window that ends at its primary rank and as no
      lower one; it is reported as a flush exactly when the natural cards share a suit. */
  lemma StraightMeaning(cards: seq<Card>, ctx: RuleContext)
    requires Analyze(cards, ctx).kind in {Straight, StraightFlush}
    ensures LeastReading(cards, ctx, Analyze(cards, ctx).primaryRank, 5, 1)
    ensures Analyze(cards, ctx).kind == StraightFlush <==> SameSuit(multiset(cards), ctx)
  {
    hide ReadsAs, CountsTo, WildCount, PicksTriple;
    var t := TallyOf(cards, ctx);
    assert |cards| == 5 && !IsBomb(t);
    if Total(t.counts) == 0 {
      NothingOccurs(t.counts);
    }
    WindowIffPattern(cards, ctx, Analyze(cards, ctx).kind, STRAIGHT_MAX_START, 5, 1);
  }

  lemma SixCardPattern(t: Tally, ctx: RuleContext)
    requires Classify(t, ctx).kind in {ThreePairs, TwoTriples}
    ensures t.total == 6
    ensures Classify(t, ctx) == if ThreePairsPattern(t).isValid then ThreePairsPattern(t) else TwoTriplesPattern(t)
  {
    hide LeastWindow, PicksTriple, IsJokerBomb, OneRank;
  }

  /** Three pairs and two triples likewise; a list that reads as both is reported as three pairs. */
  lemma SixCardMeaning(cards: seq<Card>, ctx: RuleContext, p: CardPattern)
    requires p == Analyze(cards, ctx) && p.kind in {ThreePairs, TwoTriples}
    ensures |cards| == 6
    ensures p.kind == ThreePairs <==> ReadsAsWindow(cards, ctx, 3, 2)
    ensures LeastReading(cards, ctx, p.primaryRank, if p.kind == ThreePairs then 3
              else 2, if p.kind == ThreePairs then 2 else 3)
  {
    hide ReadsAs, CountsTo, WildCount, Classify, LeastWindow;
    SixCardPattern(TallyOf(cards, ctx), ctx);
    WindowIffPattern(cards, ctx, ThreePairs, THREE_PAIRS_MAX_START, 3, 2);
    if p.kind == TwoTriples {
      WindowIffPattern(cards, ctx, TwoTriples, TWO_TRIPLES_MAX_START, 2, 3);
    }
  }

  ghost predicate LeastReading(cards: seq<Card>, ctx: RuleContext, top: int, len: nat, mult: nat) {
    top >= len && ReadsAs(cards, ctx, Window(top - len + 1, len, mult)) &&
    forall start: nat :: start < top - len + 1 ==> !ReadsAs(cards, ctx, Window(start, len, mult))
  }

  // ----- groups and houses -----

  /** Every natural card of the list has rank `r`; if there is none, `r` is the level. */
  ghost predicate NaturallyOf(cards: seq<Card>, ctx: RuleContext, r: int) {
    && (forall i :: 0 <= i < |cards| && !ctx.IsWild(cards[i]) ==> cards[i].rank == r)
    && ((forall i :: 0 <= i < |cards| ==> ctx.IsWild(cards[i])) ==> r == ctx.currentLevel)
  }

  lemma {:induction false} CountedCard(cards: seq<Card>, k: nat, ctx: RuleContext, r: int)
    requires k <= |cards|
    ensures Count(cards, k, ctx, r) > 0 <==> exists i :: 0 <= i < k && !ctx.IsWild(cards[i]) && cards[i].rank == r
  {
    if k > 0 {
      CountedCard(cards, k - 1, ctx, r);
    }
  }

  ghost predicate HasNatural(cards: seq<Card>, ctx: RuleContext, r: int) {
    exists i :: 0 <= i < |cards| && !ctx.IsWild(cards[i]) && cards[i].rank == r
  }

  lemma OccursIff(cards: seq<Card>, ctx: RuleContext)
    ensures forall r: int :: Occurs(TallyOf(cards, ctx).counts, r) <==> HasNatural(cards, ctx, r)
  {
    forall r: int
      ensures Occurs(TallyOf(cards, ctx).counts, r) <==> HasNatural(cards, ctx, r)
    {
      CountedCard(cards, |cards|, ctx, r);
    }
  }

  lemma BaseIsNatural(cards: seq<Card>, ctx: RuleContext)
    requires OneRank(TallyOf(cards, ctx).counts)
    ensures NaturallyOf(cards, ctx, BaseRank(TallyOf(cards, ctx), ctx))
  {
    hide CountsTo, WildCount, AllLevel, SameSuit, OneRank, Occurs;
    OccursIff(cards, ctx);
    forall i | 0 <= i < |cards| && !ctx.IsWild(cards[i])
      ensures cards[i].rank == BaseRank(TallyOf(cards, ctx), ctx)
    {
      assert HasNatural(cards, ctx, cards[i].rank);
    }
  }

  /** A pair, triple or bomb reads as cards of the one rank its natural cards have, and is reported at that
      rank: a pair or triple at its comparison rank, a bomb at the natural one unless all are level cards. */
  lemma GroupMeaning(cards: seq<Card>, ctx: RuleContext) returns (r: int)
    requires Analyze(cards, ctx).kind in {Pair, Triple, Bomb}
    ensures var p := Analyze(cards, ctx);
            && p.length == |cards| && (p.kind == Pair <==> |cards| == 2) && (p.kind == Triple <==> |cards| == 3)
            && ReadsAs(cards, ctx, Same(r, |cards|)) && NaturallyOf(cards, ctx, r)
            && p.primaryRank == if p.kind != Bomb then ctx.PatternRank(r)
                                else if AllLevel(multiset(cards), ctx) then LEVEL_CARD_PATTERN_RANK else r
  {
    hide CountsTo, WildCount, PicksTriple, ReadsAs, LeastWindow, AllLevel, SameSuit;
    var t := TallyOf(cards, ctx);
    r := BaseRank(t, ctx);
    BaseIsNatural(cards, ctx);
    SameIsBase(cards, ctx);
  }

  lemma SameIsBase(cards: seq<Card>, ctx: RuleContext)
    requires OneRank(TallyOf(cards, ctx).counts)
    ensures ReadsAs(cards, ctx, Same(BaseRank(TallyOf(cards, ctx), ctx), |cards|))
  {
    var t, n := TallyOf(cards, ctx), |cards|;
    TallyWellFormed(cards, ctx);
    var r := BaseRank(t, ctx);
    forall x | 2 <= x <= 16
      ensures t.counts[x] <= Cell(Same(r, n), x)
    {
      SumAtLeast(t.counts, x, 17);
      assert Occurs(t.counts, x) ==> x == r;
    }
    assert 2 <= r <= 16 by {
      if exists x :: Occurs(t.counts, x) {}
    }
    ReadsAsIffFits(cards, ctx, Same(r, n));
  }

  /** A house reads as three of the rank it is reported at and two of its pair rank, both among the natural
      cards; the higher rank is tripled only if the lower one cannot be. */
  lemma HouseMeaning(cards: seq<Card>, ctx: RuleContext) returns (a: int)
    requires Analyze(cards, ctx).kind == TripleWithPair
    ensures var b := Analyze(cards, ctx).pairRank;
            && Analyze(cards, ctx).primaryRank == ctx.PatternRank(a) && a != b
            && HasNatural(cards, ctx, a) && HasNatural(cards, ctx, b)
            && ReadsAs(cards, ctx, House(a, b)) && (b < a ==> !ReadsAs(cards, ctx, House(b, a)))
  {
    hide CountsTo, WildCount, ReadsAs, LeastWindow, SameSuit, PicksTriple;
    var t := TallyOf(cards, ctx);
    OccursIff(cards, ctx);
    assert exists a, b :: PicksTriple(t.counts, a, b);
    var x, b := HousePicked(t, ctx);
    a := x;
    HousePicks(cards, ctx, a, b);
  }

  lemma HousePicked(t: Tally, ctx: RuleContext) returns (a: int, b: int)
    requires exists a, b :: PicksTriple(t.counts, a, b)
    ensures PicksTriple(t.counts, a, b) && FullHousePattern(t, ctx) == Valid(TripleWithPair, ctx.PatternRank(a), 5, b)
  {
    a, b :| PicksTriple(t.counts, a, b);
    forall x, y | PicksTriple(t.counts, x, y)
      ensures x == a && y == b
    {
      PicksTripleUnique(t.counts, x, y, a, b);
    }
  }

  lemma HousePicks(cards: seq<Card>, ctx: RuleContext, a: int, b: int)
    requires |cards| == 5 && PicksTriple(TallyOf(cards, ctx).counts, a, b)
    ensures a != b && HasNatural(cards, ctx, a) && HasNatural(cards, ctx, b)
    ensures ReadsAs(cards, ctx, House(a, b)) && (b < a ==> !ReadsAs(cards, ctx, House(b, a)))
  {
    hide CountsTo, WildCount, ReadsAs;
    OccursIff(cards, ctx);
    assert Occurs(TallyOf(cards, ctx).counts, a) && Occurs(TallyOf(cards, ctx).counts, b);
    ReadsAsIffFits(cards, ctx, House(a, b));
    ReadsAsIffFits(cards, ctx, House(b, a));
  }

  lemma NothingOccurs(c: Counts)
    requires Total(c) == 0
    ensures OneRank(c)
  {
    forall r | 2 <= r <= 16
      ensures c[r] == 0
    {
      SumAtLeast(c, r, 17);
    }
  }

  /** One card is always a valid single, at its own comparison rank. */
  lemma SingleAlwaysValid(c: Card, ctx: RuleContext)
    ensures Analyze([c], ctx) == Valid(Single, ctx.SingleRank(c), 1, 0)
  {
    var counts := CountsTo([c], 1, ctx);
    assert forall r :: 0 <= r < 17 ==> counts[r] == Count([c], 0, ctx, r) + Shows(c, ctx, r);
    assert !ctx.IsWild(c) ==> Occurs(counts, c.rank);
  }
}
