/** The card analyser (card_analyzer.cpp): its loops over rank groups and windows,
    proved against the patterns of module Patterns. */
module Analyzer {
  import opened Cards
  import opened Shapes
  import opened Patterns

  /** The wild group has rank -1. */
  datatype RankGroup = RankGroup(rank: int, count: nat)

  ghost predicate HasRank(groups: seq<RankGroup>, r: int) {
    exists i :: 0 <= i < |groups| && groups[i].rank == r
  }

  /** The groups without the wild one: each natural rank once, ascending, with its count. */
  ghost predicate IsGrouping(groups: seq<RankGroup>, c: Counts) {
    && (forall i :: 0 <= i < |groups| ==> Occurs(c, groups[i].rank) && groups[i].count == c[groups[i].rank])
    && (forall i, j :: 0 <= i < j < |groups| ==> groups[i].rank < groups[j].rank)
    && (forall r :: Occurs(c, r) ==> HasRank(groups, r))
  }

  function WithWild(normal: seq<RankGroup>, wild: nat): seq<RankGroup> {
    if wild > 0 then [RankGroup(-1, wild)] + normal else normal
  }

  /** What groupByRank returns for a tally. */
  ghost predicate Groups(groups: seq<RankGroup>, t: Tally) {
    exists normal :: IsGrouping(normal, t.counts) && groups == WithWild(normal, t.wild)
  }

  ghost predicate MapCounts(counts: map<int, nat>, c: Counts) {
    forall r :: (r in counts <==> Occurs(c, r)) && (r in counts ==> counts[r] == c[r])
  }

  /** First loop of groupByRank: the rank map and the number of wild cards. */
  method CountRanks(cards: seq<Card>, ctx: RuleContext) returns (counts: map<int, nat>, wildCount: nat)
    ensures MapCounts(counts, CountsTo(cards, |cards|, ctx))
    ensures wildCount == WildCount(cards, |cards|, ctx)
  {
    counts, wildCount := map[], 0;
    for i := 0 to |cards|
      invariant wildCount == WildCount(cards, i, ctx)
      invariant MapCounts(counts, CountsTo(cards, i, ctx))
    {
      if ctx.IsWild(cards[i]) {
        wildCount := wildCount + 1;
      } else {
        var r: int := cards[i].rank;
        counts := counts[r := (if r in counts then counts[r] else 0) + 1];
      }
    }
  }

  lemma HasRankSnoc(groups: seq<RankGroup>, g: RankGroup, r: int)
    requires HasRank(groups, r) || g.rank == r
    ensures HasRank(groups + [g], r)
  {
    if HasRank(groups, r) {
      var i :| 0 <= i < |groups| && groups[i].rank == r;
      assert (groups + [g])[i].rank == r;
    } else {
      assert (groups + [g])[|groups|].rank == r;
    }
  }

  /** The map's entries in ascending rank order. */
  method ListGroups(counts: map<int, nat>, ghost c: Counts) returns (groups: seq<RankGroup>)
    requires MapCounts(counts, c)
    ensures IsGrouping(groups, c)
  {
    groups := [];
    for r := 2 to 17
      invariant forall i :: 0 <= i < |groups| ==>
                  groups[i].rank < r && Occurs(c, groups[i].rank) && groups[i].count == c[groups[i].rank]
      invariant forall i, j :: 0 <= i < j < |groups| ==> groups[i].rank < groups[j].rank
      invariant forall k :: Occurs(c, k) && k < r ==> HasRank(groups, k)
    {
      if r in counts {
        var g := RankGroup(r, counts[r]);
        forall k | Occurs(c, k) && k <= r
          ensures HasRank(groups + [g], k)
        {
          HasRankSnoc(groups, g, k);
        }
        groups := groups + [g];
      }
    }
  }

  method GroupByRank(cards: seq<Card>, ctx: RuleContext) returns (groups: seq<RankGroup>)
    ensures Groups(groups, TallyOf(cards, ctx))
  {
    var counts, wildCount := CountRanks(cards, ctx);
    var normal := ListGroups(counts, CountsTo(cards, |cards|, ctx));
    groups := WithWild(normal, wildCount);
  }

  /** Separates the wild count from the natural groups. */
  method SplitGroups(groups: seq<RankGroup>, ghost t: Tally) returns (totalWild: nat, normal: seq<RankGroup>)
    requires Groups(groups, t)
    ensures totalWild == t.wild && IsGrouping(normal, t.counts)
  {
    ghost var expected: seq<RankGroup> :| IsGrouping(expected, t.counts) && groups == WithWild(expected, t.wild);
    ghost var lead := if t.wild > 0 then 1 else 0;
    totalWild, normal := 0, [];
    for i := 0 to |groups|
      invariant totalWild == if i >= lead then t.wild else 0
      invariant |normal| == if i >= lead then i - lead else 0
      invariant forall j :: 0 <= j < |normal| ==> normal[j] == expected[j]
    {
      if groups[i].rank == -1 {
        totalWild := groups[i].count;
      } else {
        normal := normal + [groups[i]];
      }
    }
    assert normal == expected;
  }

  lemma NotOccurring(c: Counts, a: int, b: int)
    requires c[0] == c[1] == 0 && forall r :: Occurs(c, r) ==> r == a || r == b
    ensures forall r :: 0 <= r < 17 && r != a && r != b ==> c[r] == 0
  {
    forall r | 0 <= r < 17 && r != a && r != b
      ensures c[r] == 0
    {
      assert !Occurs(c, r);
    }
  }

  lemma GroupingSize(normal: seq<RankGroup>, c: Counts)
    requires IsGrouping(normal, c) && c[0] == c[1] == 0
    ensures |normal| <= 1 <==> OneRank(c)
    ensures normal == [] <==> forall r :: !Occurs(c, r)
    ensures normal == [] ==> Total(c) == 0
    ensures |normal| == 1 ==> Total(c) == normal[0].count && forall r :: Occurs(c, r) ==> r == normal[0].rank
    ensures |normal| == 2 ==> Total(c) == normal[0].count + normal[1].count
    ensures |normal| == 2 ==> forall r :: Occurs(c, r) ==> r == normal[0].rank || r == normal[1].rank
  {
    if |normal| == 0 {
      NotOccurring(c, 0, 0);
      SumZero(c, 17);
    } else if |normal| == 1 {
      NotOccurring(c, normal[0].rank, 0);
      SumOfTwo(c, normal[0].rank, 0, 17);
    } else {
      assert Occurs(c, normal[0].rank) && Occurs(c, normal[1].rank);
      if |normal| == 2 {
        NotOccurring(c, normal[0].rank, normal[1].rank);
        SumOfTwo(c, normal[0].rank, normal[1].rank, 17);
      }
    }
  }

  method AnalyzeJokerBomb(cards: seq<Card>, ghost ctx: RuleContext) returns (p: CardPattern)
    ensures p == if IsJokerBomb(TallyOf(cards, ctx)) then Valid(JokerBomb, BIG_JOKER, |cards|, 0) else INVALID_PATTERN
  {
    var smallCount, bigCount := 0, 0;
    for i := 0 to |cards|
      invariant smallCount == Count(cards, i, ctx, SMALL_JOKER)
      invariant bigCount == Count(cards, i, ctx, BIG_JOKER)
      invariant smallCount + bigCount == i
    {
      if cards[i].rank == SMALL_JOKER {
        smallCount := smallCount + 1;
      } else if cards[i].rank == BIG_JOKER {
        bigCount := bigCount + 1;
      } else {
        NotAllJokers(cards, ctx, i, |cards|);
        return INVALID_PATTERN;
      }
    }
    if smallCount >= 2 && bigCount >= 2 {
      return Valid(JokerBomb, BIG_JOKER, |cards|, 0);
    }
    return INVALID_PATTERN;
  }

  lemma {:induction false} NotAllJokers(cards: seq<Card>, ctx: RuleContext, i: nat, k: nat)
    requires i < |cards| && !IsJoker(cards[i].rank) && k <= |cards|
    ensures Count(cards, k, ctx, SMALL_JOKER) + Count(cards, k, ctx, BIG_JOKER) <= if i < k then k - 1 else k
  {
    if k > 0 {
      NotAllJokers(cards, ctx, i, k - 1);
    }
  }

  method AnalyzeBomb(cards: seq<Card>, groups: seq<RankGroup>, ctx: RuleContext, ghost t: Tally)
      returns (p: CardPattern)
    requires t == TallyOf(cards, ctx) && Groups(groups, t)
    ensures p == BombPattern(t, ctx)
  {
    TallyWellFormed(cards, ctx);
    if |cards| < 4 {
      return INVALID_PATTERN;
    }
    var wildCount, normal := SplitGroups(groups, t);
    GroupingSize(normal, t.counts);
    if |normal| > 1 {
      return INVALID_PATTERN;
    }
    var rank := if normal == [] then ctx.currentLevel else normal[0].rank;
    var count := (if normal == [] then 0 else normal[0].count) + wildCount;
    if count >= 4 && count == |cards| {
      var pureLevel := AllLevelCards(cards, ctx);
      return Valid(Bomb, if pureLevel then LEVEL_CARD_PATTERN_RANK else rank, count, 0);
    }
    return INVALID_PATTERN;
  }

  method AllLevelCards(cards: seq<Card>, ctx: RuleContext) returns (pureLevel: bool)
    ensures pureLevel <==> AllLevel(multiset(cards), ctx)
  {
    for i := 0 to |cards|
      invariant forall k :: 0 <= k < i ==> ctx.IsLevel(cards[k])
    {
      if !ctx.IsLevel(cards[i]) {
        assert cards[i] in multiset(cards);
        return false;
      }
    }
    return true;
  }

  method AnalyzeSingle(cards: seq<Card>, ctx: RuleContext) returns (p: CardPattern)
    requires |cards| == 1
    ensures p == OrdinaryPattern(TallyOf(cards, ctx), ctx)
  {
    ghost var c := CountsTo(cards, 1, ctx);
    assert forall r :: 0 <= r < 17 ==> c[r] == Count(cards, 0, ctx, r) + Shows(cards[0], ctx, r);
    assert !ctx.IsWild(cards[0]) ==> Occurs(c, cards[0].rank);
    return Valid(Single, ctx.SingleRank(cards[0]), 1, 0);
  }

  /** Pair (`k` = 2) and triple (`k` = 3): the two bodies differ in the size only. */
  method AnalyzeSame(kind: CardType, k: nat, groups: seq<RankGroup>, ctx: RuleContext, ghost t: Tally)
      returns (p: CardPattern)
    requires WellFormed(t) && Groups(groups, t) && t.total == k && k > 0
    ensures p == SamePattern(kind, t, ctx)
  {
    var totalWild, normal := SplitGroups(groups, t);
    GroupingSize(normal, t.counts);
    if |normal| > 1 {
      return INVALID_PATTERN;
    }
    if normal == [] && totalWild >= k {
      return Valid(kind, ctx.PatternRank(ctx.currentLevel), k, 0);
    }
    if |normal| == 1 && normal[0].count + totalWild == k {
      return Valid(kind, ctx.PatternRank(normal[0].rank), k, 0);
    }
    return INVALID_PATTERN;
  }

  function Missing(want: nat, have: nat): nat {
    if have >= want then 0 else want - have
  }

  /** The guard of the triple-with-pair loop for one choice of groups. */
  predicate LoopFits(triple: nat, pair: nat, wild: nat) {
    Missing(3, triple) <= wild && Missing(2, pair) <= wild - Missing(3, triple) && pair + Missing(2, pair) == 2
  }

  /** Guard of the first fallback: one rank only. */
  predicate FallbackOneRank(normal: seq<RankGroup>, wild: nat) {
    |normal| == 1 && normal[0].count + wild == 5 && normal[0].count >= 3
  }

  /** Guard of the second fallback: the larger group tripled. */
  predicate FallbackByCount(normal: seq<RankGroup>, wild: nat) {
    |normal| == 2 &&
    var (small, big) := if normal[0].count > normal[1].count then (normal[1], normal[0]) else (normal[0], normal[1]);
    Missing(3, big.count) + Missing(2, small.count) <= wild
  }

  lemma HouseIffLoopFits(normal: seq<RankGroup>, t: Tally, i: nat, j: nat)
    requires IsGrouping(normal, t.counts) && WellFormed(t) && t.total == 5
    requires |normal| == 2 && i < 2 && j < 2 && i != j
    ensures LoopFits(normal[i].count, normal[j].count, t.wild) <==>
              Fits(t.counts, House(normal[i].rank, normal[j].rank))
  {
    GroupingSize(normal, t.counts);
    var a, b := normal[i].rank, normal[j].rank;
    forall r | 2 <= r <= 16 && r != a && r != b
      ensures t.counts[r] == 0
    {
      assert !Occurs(t.counts, r);
    }
    assert Occurs(t.counts, a) && Occurs(t.counts, b);
    assert Fits(t.counts, House(a, b)) ==> t.counts[a] <= 3 && t.counts[b] <= 2;
  }

  /** A house has exactly two natural ranks when both must be present. */
  lemma HouseRanks(normal: seq<RankGroup>, c: Counts, a: int, b: int)
    requires IsGrouping(normal, c) && PicksTriple(c, a, b)
    ensures |normal| == 2
    ensures (a == normal[0].rank && b == normal[1].rank) || (a == normal[1].rank && b == normal[0].rank)
  {
    assert |normal| > 2 ==> normal[0].rank < normal[1].rank && normal[1].rank < normal[2].rank;
    forall i | 0 <= i < |normal|
      ensures normal[i].rank == a || normal[i].rank == b
    {
      assert Occurs(c, normal[i].rank) && c[normal[i].rank] <= Cell(House(a, b), normal[i].rank);
    }
    assert HasRank(normal, a) && HasRank(normal, b);
  }

  lemma NoHouse(normal: seq<RankGroup>, t: Tally, ctx: RuleContext)
    requires IsGrouping(normal, t.counts) && WellFormed(t) && t.total == 5
    requires |normal| == 2 ==> !LoopFits(normal[0].count, normal[1].count, t.wild)
    requires |normal| == 2 ==> !LoopFits(normal[1].count, normal[0].count, t.wild)
    ensures FullHousePattern(t, ctx) == INVALID_PATTERN
  {
    if a, b :| PicksTriple(t.counts, a, b) {
      HouseRanks(normal, t.counts, a, b);
      HouseIffLoopFits(normal, t, 0, 1);
      HouseIffLoopFits(normal, t, 1, 0);
    }
  }

  /** Where the loop fails, the second fallback's guard fails too; and the first one's
      guard holds only of a list that is a bomb, which `Analyze` has returned before. */
  lemma FallbacksUnreachable(normal: seq<RankGroup>, t: Tally)
    requires IsGrouping(normal, t.counts) && WellFormed(t) && t.total == 5
    ensures FallbackOneRank(normal, t.wild) ==> IsBomb(t)
    ensures FallbackByCount(normal, t.wild) ==>
              LoopFits(normal[0].count, normal[1].count, t.wild) || LoopFits(normal[1].count, normal[0].count, t.wild)
  {
    GroupingSize(normal, t.counts);
  }

  ghost predicate NaturalTriple(c: Counts, r: int) {
    Occurs(c, r) && c[r] >= 3
  }

  /** Five cards of one rank: the first fallback takes them if at least three are natural. */
  lemma FallbackOfOneRank(normal: seq<RankGroup>, t: Tally)
    requires IsGrouping(normal, t.counts) && WellFormed(t) && t.total == 5
    ensures IsBomb(t) ==> |normal| <= 1
    ensures IsBomb(t) ==> forall r :: NaturalTriple(t.counts, r) <==>
              FallbackOneRank(normal, t.wild) && r == normal[0].rank
  {
    GroupingSize(normal, t.counts);
  }

  method AnalyzeTripleWithPair(groups: seq<RankGroup>, ctx: RuleContext, ghost t: Tally) returns (p: CardPattern)
    requires WellFormed(t) && Groups(groups, t) && t.total == 5
    ensures !IsBomb(t) ==> p == FullHousePattern(t, ctx)
    ensures IsBomb(t) ==>
              && (forall r :: NaturalTriple(t.counts, r) ==> p == Valid(TripleWithPair, ctx.PatternRank(r), 5, r))
              && ((forall r :: !NaturalTriple(t.counts, r)) ==> p == INVALID_PATTERN)
  {
    var totalWild, normal := SplitGroups(groups, t);
    GroupingSize(normal, t.counts);
    if |normal| > 2 {
      NoHouse(normal, t, ctx);
      FallbackOfOneRank(normal, t);
      return INVALID_PATTERN;
    }
    for i := 0 to |normal|
      invariant |normal| == 2 && i > 0 ==> !LoopFits(normal[0].count, normal[1].count, totalWild)
      invariant |normal| == 2 && i > 1 ==> !LoopFits(normal[1].count, normal[0].count, totalWild)
    {
      var tripleNeed := Missing(3, normal[i].count);
      if tripleNeed > totalWild {
        continue;
      }
      var wildLeft := totalWild - tripleNeed;
      for j := 0 to |normal|
        invariant |normal| == 2 && j > 1 - i ==> !LoopFits(normal[i].count, normal[1 - i].count, totalWild)
      {
        if i == j {
          continue;
        }
        var pairNeed := Missing(2, normal[j].count);
        if pairNeed > wildLeft {
          continue;
        }
        if normal[j].count + pairNeed == 2 {
          HouseIffLoopFits(normal, t, i, j);
          HouseIffLoopFits(normal, t, j, i);
          HouseFound(normal, t, ctx, i, j);
          FallbackOfOneRank(normal, t);
          return Valid(TripleWithPair, ctx.PatternRank(normal[i].rank), 5, normal[j].rank);
        }
      }
    }
    FallbacksUnreachable(normal, t);
    FallbackOfOneRank(normal, t);
    NoHouse(normal, t, ctx);
    hide NaturalTriple, IsBomb, IsGrouping, FullHousePattern;
    if FallbackOneRank(normal, totalWild) {
      assert NaturalTriple(t.counts, normal[0].rank);
      return Valid(TripleWithPair, ctx.PatternRank(normal[0].rank), 5, normal[0].rank);
    }
    if FallbackByCount(normal, totalWild) {
      assert false;
    }
    return INVALID_PATTERN;
  }

  lemma HouseFound(normal: seq<RankGroup>, t: Tally, ctx: RuleContext, i: nat, j: nat)
    requires IsGrouping(normal, t.counts) && |normal| == 2 && i < 2 && j == 1 - i
    requires Fits(t.counts, House(normal[i].rank, normal[j].rank))
    requires i == 1 ==> !Fits(t.counts, House(normal[0].rank, normal[1].rank))
    ensures FullHousePattern(t, ctx) == Valid(TripleWithPair, ctx.PatternRank(normal[i].rank), 5, normal[j].rank)
  {
    var a, b := normal[i].rank, normal[j].rank;
    assert PicksTriple(t.counts, a, b);
    forall a', b' | PicksTriple(t.counts, a', b')
      ensures a' == a && b' == b
    {
      PicksTripleUnique(t.counts, a, b, a', b');
    }
  }

  // ----- windows: straight, three pairs, two triples -----

  /** Natural cards inside a window, slot by slot. */
  ghost function WindowSum(c: Counts, start: nat, len: nat): nat
    requires 1 <= start && start + len <= 15
  {
    if len == 0 then 0 else WindowSum(c, start, len - 1) + c[SlotRank(start + len - 1)]
  }

  /** Natural cards of ranks below `k` that the shape has no cell for. */
  ghost function Outside(c: Counts, s: Shape, k: nat): nat
    requires k <= 17
  {
    if k == 0 then 0 else Outside(c, s, k - 1) + if Cell(s, k - 1) == 0 then c[k - 1] else 0
  }

  lemma {:induction false} OutsideAddSlot(c: Counts, s: Shape, s': Shape, x: nat, k: nat)
    requires k <= 17 && x < 17 && Cell(s, x) == 0 && Cell(s', x) > 0
    requires forall r :: r != x ==> Cell(s', r) == Cell(s, r)
    ensures Outside(c, s, k) == Outside(c, s', k) + if x < k then c[x] else 0
  {
    if k > 0 {
      OutsideAddSlot(c, s, s', x, k - 1);
    }
  }

  lemma {:induction false} OutsideAll(c: Counts, s: Shape, k: nat)
    requires k <= 17 && forall r :: Cell(s, r) == 0
    ensures Outside(c, s, k) == Sum(c, k)
  {
    if k > 0 {
      OutsideAll(c, s, k - 1);
    }
  }

  lemma {:induction false} OutsideZero(c: Counts, s: Shape, k: nat)
    requires k <= 17
    ensures Outside(c, s, k) == 0 <==> forall r :: 0 <= r < k && Cell(s, r) == 0 ==> c[r] == 0
  {
    if k > 0 {
      OutsideZero(c, s, k - 1);
    }
  }

  lemma {:induction false} InsideAndOutside(c: Counts, start: nat, len: nat, mult: nat)
    requires 1 <= start && start + len <= 15 && len <= 13 && mult > 0
    ensures WindowSum(c, start, len) + Outside(c, Window(start, len, mult), 17) == Total(c)
  {
    if len == 0 {
      OutsideAll(c, Window(start, 0, mult), 17);
    } else {
      InsideAndOutside(c, start, len - 1, mult);
      OutsideAddSlot(c, Window(start, len - 1, mult), Window(start, len, mult), SlotRank(start + len - 1), 17);
    }
  }

  ghost predicate SlotsAllow(c: Counts, start: nat, len: nat, mult: nat)
    requires 1 <= start && start + len <= 15
  {
    forall slot :: start <= slot < start + len ==> c[SlotRank(slot)] <= mult
  }

  /** The window loops look at the ranks of the window only; since the cards are as many as the
      cells, paying the missing cells with wild cards leaves no natural card outside. */
  lemma WindowByCounting(t: Tally, start: nat, len: nat, mult: nat)
    requires WellFormed(t) && t.total == len * mult && mult > 0
    requires 1 <= start && start + len <= 15 && len <= 13
    ensures Fits(t.counts, Window(start, len, mult)) <==>
              (SlotsAllow(t.counts, start, len, mult) && len * mult - WindowSum(t.counts, start, len) <= t.wild)
  {
    var c, w := t.counts, Window(start, len, mult);
    InsideAndOutside(c, start, len, mult);
    OutsideZero(c, w, 17);
    if SlotsAllow(c, start, len, mult) && len * mult - WindowSum(c, start, len) <= t.wild {
      forall r | 2 <= r <= 16
        ensures c[r] <= Cell(w, r)
      {
        if Cell(w, r) > 0 {
          var slot := if r == ACE && start + len < 15 then 1 else r;
          assert SlotRank(slot) == r;
        }
      }
    }
    if Fits(c, w) {
      forall slot | start <= slot < start + len
        ensures c[SlotRank(slot)] <= mult
      {
        assert Cell(w, SlotRank(slot)) == mult;
      }
    }
  }

  method BuildRankCount(groups: seq<RankGroup>, ghost t: Tally) returns (totalWild: nat, rankCount: map<int, nat>)
    requires Groups(groups, t)
    ensures totalWild == t.wild && MapCounts(rankCount, t.counts)
  {
    var normal;
    totalWild, normal := SplitGroups(groups, t);
    rankCount := map[];
    for i := 0 to |normal|
      invariant forall r :: r in rankCount ==> Occurs(t.counts, r) && rankCount[r] == t.counts[r]
      invariant forall k :: 0 <= k < i ==> normal[k].rank in rankCount
    {
      rankCount := rankCount[normal[i].rank := normal[i].count];
    }
    forall r | Occurs(t.counts, r)
      ensures r in rankCount
    {
      assert HasRank(normal, r);
    }
  }

  /** The inner loop over the slots of one window. */
  method ScanWindow(rankCount: map<int, nat>, start: nat, len: nat, mult: nat, ghost c: Counts)
      returns (ok: bool, wildUsed: int)
    requires MapCounts(rankCount, c) && 1 <= start && start + len <= 15
    ensures ok <==> SlotsAllow(c, start, len, mult)
    ensures ok ==> wildUsed == len * mult - WindowSum(c, start, len)
  {
    wildUsed := 0;
    for i := 0 to len
      invariant SlotsAllow(c, start, i, mult)
      invariant wildUsed == i * mult - WindowSum(c, start, i)
    {
      var rv := SlotRank(start + i);
      var have := if rv in rankCount then rankCount[rv] else 0;
      assert have == c[rv] by { assert rv in rankCount <==> Occurs(c, rv); }
      if have > mult {
        return false, 0;
      }
      wildUsed := wildUsed + Missing(mult, have);
      assert (i + 1) * mult == i * mult + mult;
    }
    ok := true;
  }

  lemma {:induction false} JokerFitsNoWindow(c: Counts, joker: int, start: nat, maxStart: nat, len: nat, mult: nat)
    requires IsJoker(joker) && Occurs(c, joker) && start >= 1
    ensures LeastWindow(c, start, maxStart, len, mult) == 0
    decreases maxStart + 1 - start
  {
    assert Cell(Window(start, len, mult), joker) == 0;
    if start <= maxStart {
      JokerFitsNoWindow(c, joker, start + 1, maxStart, len, mult);
    }
  }

  /** Straight (5 slots of 1), three pairs (3 of 2) and two triples (2 of 3): the three bodies
      differ in the window's width, the cells per slot and the last start. */
  method AnalyzeWindow(kind: CardType, groups: seq<RankGroup>, maxStart: nat, len: nat, mult: nat, ghost t: Tally)
      returns (p: CardPattern)
    requires WellFormed(t) && Groups(groups, t)
    requires t.total == len * mult && mult > 0 && len <= 13 && maxStart + len <= 15
    ensures p == WindowPattern(kind, t.counts, maxStart, len, mult)
  {
    var totalWild, rankCount := BuildRankCount(groups, t);
    if exists r | r in rankCount :: r >= SMALL_JOKER {
      ghost var j :| j in rankCount && j >= SMALL_JOKER;
      JokerFitsNoWindow(t.counts, j, 1, maxStart, len, mult);
      return INVALID_PATTERN;
    }
    for start := 1 to maxStart + 1
      invariant LeastWindow(t.counts, 1, maxStart, len, mult) == LeastWindow(t.counts, start, maxStart, len, mult)
    {
      var ok, wildUsed := ScanWindow(rankCount, start, len, mult, t.counts);
      WindowByCounting(t, start, len, mult);
      if ok && wildUsed <= totalWild {
        return Valid(kind, start + len - 1, len, 0);
      }
    }
    return INVALID_PATTERN;
  }

  method AnalyzeStraightFlush(cards: seq<Card>, ctx: RuleContext, ghost t: Tally) returns (p: CardPattern)
    requires t == TallyOf(cards, ctx)
    ensures p == StraightFlushPattern(t)
  {
    TallyWellFormed(cards, ctx);
    if |cards| != 5 {
      return INVALID_PATTERN;
    }
    var nonWild: seq<Card> := [];
    var wildCount := 0;
    for i := 0 to |cards|
      invariant wildCount == WildCount(cards, i, ctx) && |nonWild| == i - wildCount
      invariant forall c :: c in nonWild <==> exists k :: 0 <= k < i && cards[k] == c && !ctx.IsWild(c)
      invariant forall k :: 0 <= k < i && !ctx.IsWild(cards[k]) ==> !IsJoker(cards[k].rank)
    {
      if ctx.IsWild(cards[i]) {
        wildCount := wildCount + 1;
      } else if IsJoker(cards[i].rank) {
        NaturalCounted(cards, ctx, i, |cards|);
        JokerFitsNoWindow(t.counts, cards[i].rank, 1, STRAIGHT_MAX_START, 5, 1);
        return INVALID_PATTERN;
      } else {
        nonWild := nonWild + [cards[i]];
      }
    }
    if nonWild == [] {
      return INVALID_PATTERN;
    }
    var suit := nonWild[0].suit;
    for i := 0 to |nonWild|
      invariant forall k :: 0 <= k < i ==> nonWild[k].suit == suit
    {
      if nonWild[i].suit != suit {
        assert nonWild[0] in nonWild && nonWild[i] in nonWild;
        assert nonWild[0] in multiset(cards) && nonWild[i] in multiset(cards);
        return INVALID_PATTERN;
      }
    }
    assert OfSuit(multiset(cards), ctx, suit);
    var groups := GroupByRank(cards, ctx);
    var straight := AnalyzeWindow(Straight, groups, STRAIGHT_MAX_START, 5, 1, t);
    if straight.isValid {
      return straight.(kind := StraightFlush);
    }
    return INVALID_PATTERN;
  }

  lemma {:induction false} NaturalCounted(cards: seq<Card>, ctx: RuleContext, i: nat, k: nat)
    requires i < k <= |cards| && !ctx.IsWild(cards[i])
    ensures Count(cards, k, ctx, cards[i].rank) > 0
  {
    if i < k - 1 {
      NaturalCounted(cards, ctx, i, k - 1);
    }
  }

  method Analyze(cards: seq<Card>, ctx: RuleContext) returns (p: CardPattern)
    ensures p == Patterns.Analyze(cards, ctx)
  {
    if cards == [] {
      return INVALID_PATTERN;
    }
    ghost var t := TallyOf(cards, ctx);
    TallyWellFormed(cards, ctx);
    var jokerBomb := AnalyzeJokerBomb(cards, ctx);
    if jokerBomb.isValid {
      return jokerBomb;
    }
    var groups := GroupByRank(cards, ctx);
    var bomb := AnalyzeBomb(cards, groups, ctx, t);
    if bomb.isValid {
      return bomb;
    }
    if |cards| == 1 {
      p := AnalyzeSingle(cards, ctx);
      return p;
    }
    if |cards| == 2 {
      p := AnalyzeSame(Pair, 2, groups, ctx, t);
      return p;
    }
    if |cards| == 3 {
      p := AnalyzeSame(Triple, 3, groups, ctx, t);
      return p;
    }
    if |cards| == 5 {
      var house := AnalyzeTripleWithPair(groups, ctx, t);
      if house.isValid {
        return house;
      }
    }
    var flush := AnalyzeStraightFlush(cards, ctx, t);
    if flush.isValid {
      return flush;
    }
    if |cards| == 5 {
      var straight := AnalyzeWindow(Straight, groups, STRAIGHT_MAX_START, 5, 1, t);
      if straight.isValid {
        return straight;
      }
    }
    if |cards| == 6 {
      var pairs := AnalyzeWindow(ThreePairs, groups, THREE_PAIRS_MAX_START, 3, 2, t);
      if pairs.isValid {
        return pairs;
      }
      var triples := AnalyzeWindow(TwoTriples, groups, TWO_TRIPLES_MAX_START, 2, 3, t);
      if triples.isValid {
        return triples;
      }
    }
    return INVALID_PATTERN;
  }
}
