/** The bot's exhaustive search over the subsets of its hand (bot_player.cpp). */
module Bot {
  import opened Lists
  import opened Cards
  import opened Options
  import opened Shapes
  import opened Patterns
  import opened Rules
  import Analyzer

  /** Largest int: the score before any play has been found. */
  const INT_MAX := 0x7fff_ffff

  /** Enumerator value of a pattern kind. */
  function KindIndex(k: CardType): int {
    match k
    case Invalid => 0 case Single => 1 case Pair => 2 case Triple => 3 case TripleWithPair => 4
    case Straight => 5 case ThreePairs => 6 case TwoTriples => 7 case StraightFlush => 8
    case Bomb => 9 case JokerBomb => 10
  }

  /** leadScore and beatScore are the same formula. */
  function Score(cardCount: nat, p: CardPattern): int {
    cardCount * 10000 + p.primaryRank * 10 + KindIndex(p.kind)
  }

  /** A list the player may put down on `last`. */
  ghost predicate Legal(all: seq<Card>, ids: seq<CardId>, ctx: RuleContext, last: CardPattern) {
    var p := Patterns.Analyze(CardsFromIds(all, ids), ctx);
    p.isValid && (last.isValid ==> CanBeat(p, last))
  }

  ghost function ScoreOf(all: seq<Card>, ids: seq<CardId>, ctx: RuleContext): int {
    Score(|ids|, Patterns.Analyze(CardsFromIds(all, ids), ctx))
  }

  // ----- masks -----

  function Pow2(n: nat): nat {
    if n == 0 then 1 else 2 * Pow2(n - 1)
  }

  lemma {:induction false} Pow2Positive(n: nat)
    ensures Pow2(n) >= 1
  {
    if n > 0 {
      Pow2Positive(n - 1);
    }
  }

  /** Bit `i` of a mask. */
  predicate Bit(mask: nat, i: nat) {
    if i == 0 then mask % 2 == 1 else Bit(mask / 2, i - 1)
  }

  /** The hand's cards at the set bits among the first `i`, in hand order. */
  function Subset(hand: seq<CardId>, mask: nat, i: nat): (ids: seq<CardId>)
    requires i <= |hand|
    ensures |ids| <= i
  {
    if i == 0 then [] else Subset(hand, mask, i - 1) + if Bit(mask, i - 1) then [hand[i - 1]] else []
  }

  function MaskOf(bits: seq<bool>): nat {
    if bits == [] then 0 else (if bits[0] then 1 else 0) + 2 * MaskOf(bits[1..])
  }

  lemma {:induction false} MaskBits(bits: seq<bool>, i: nat)
    requires i < |bits|
    ensures Bit(MaskOf(bits), i) == bits[i]
  {
    if i > 0 {
      MaskBits(bits[1..], i - 1);
    }
  }

  lemma {:induction false} MaskRange(bits: seq<bool>)
    ensures MaskOf(bits) < Pow2(|bits|)
    ensures MaskOf(bits) > 0 <==> exists i :: 0 <= i < |bits| && bits[i]
  {
    if bits != [] {
      MaskRange(bits[1..]);
      if MaskOf(bits) > 0 && !bits[0] {
        var i :| 0 <= i < |bits| - 1 && bits[1..][i];
        assert bits[i + 1];
      }
      if i :| 0 <= i < |bits| && bits[i] {
        assert i > 0 ==> bits[1..][i - 1];
      }
    }
  }

  // ----- the search -----

  ghost predicate Best(all: seq<Card>, hand: seq<CardId>, ctx: RuleContext, last: CardPattern, bound: nat,
      best: Option<seq<CardId>>)
  {
    match best
    case None => forall m :: 1 <= m < bound ==> !Legal(all, Subset(hand, m, |hand|), ctx, last)
    case Some(ids) =>
      && (exists m :: 1 <= m < bound && ids == Subset(hand, m, |hand|))
      && Legal(all, ids, ctx, last)
      && forall m :: 1 <= m < bound && Legal(all, Subset(hand, m, |hand|), ctx, last) ==>
           ScoreOf(all, ids, ctx) <= ScoreOf(all, Subset(hand, m, |hand|), ctx)
  }

  lemma ScoreBound(all: seq<Card>, ids: seq<CardId>, ctx: RuleContext, last: CardPattern)
    requires Legal(all, ids, ctx, last) && |ids| <= 30
    ensures |ids| * 10000 < ScoreOf(all, ids, ctx) < (|ids| + 1) * 10000 && ScoreOf(all, ids, ctx) < INT_MAX
  {
    AnalyzePlayable(CardsFromIds(all, ids), ctx);
  }

  /** `a` is no dearer than `b`: it takes fewer cards, or as many at a lower rank, or as many at the same rank
      and of a kind listed no later. */
  ghost predicate NoDearer(all: seq<Card>, ctx: RuleContext, a: seq<CardId>, b: seq<CardId>) {
    var p, q := Patterns.Analyze(CardsFromIds(all, a), ctx), Patterns.Analyze(CardsFromIds(all, b), ctx);
    |a| < |b| || (|a| == |b| && (p.primaryRank < q.primaryRank ||
                                 (p.primaryRank == q.primaryRank && KindIndex(p.kind) <= KindIndex(q.kind))))
  }

  /** The score compares plays in that way. */
  lemma ScoreMeaning(all: seq<Card>, a: seq<CardId>, b: seq<CardId>, ctx: RuleContext, last: CardPattern)
    requires Legal(all, a, ctx, last) && Legal(all, b, ctx, last)
    ensures ScoreOf(all, a, ctx) <= ScoreOf(all, b, ctx) <==> NoDearer(all, ctx, a, b)
  {
    hide Patterns.Analyze, CanBeat;
    var p, q := Patterns.Analyze(CardsFromIds(all, a), ctx), Patterns.Analyze(CardsFromIds(all, b), ctx);
    AnalyzePlayable(CardsFromIds(all, a), ctx);
    AnalyzePlayable(CardsFromIds(all, b), ctx);
    assert 1 <= KindIndex(p.kind) <= 10 && 1 <= KindIndex(q.kind) <= 10;
    assert 2 <= p.primaryRank <= 17 && 2 <= q.primaryRank <= 17;
  }

  /** One candidate: the play of a mask replaces the best one if it is legal and scores less. */
  method Consider(all: seq<Card>, subset: seq<CardId>, ctx: RuleContext, last: CardPattern, best: Option<seq<CardId>>,
      bestScore: int)
    returns (best': Option<seq<CardId>>, bestScore': int)
    ensures if Legal(all, subset, ctx, last) && ScoreOf(all, subset, ctx) < bestScore
            then best' == Some(subset) && bestScore' == ScoreOf(all, subset, ctx)
            else best' == best && bestScore' == bestScore
  {
    best', bestScore' := best, bestScore;
    var pattern := Analyzer.Analyze(CardsFromIds(all, subset), ctx);
    if !pattern.isValid {
      return;
    }
    var isLead := !last.isValid;
    if isLead {
      var score := Score(|subset|, pattern);
      if score < bestScore {
        best', bestScore' := Some(subset), score;
      }
    } else if CanBeat(pattern, last) {
      var score := Score(|subset|, pattern);
      if score < bestScore {
        best', bestScore' := Some(subset), score;
      }
    }
  }

  /** The mask loop. The hand has at most 30 cards, the widest an int mask can number. */
  method Search(all: seq<Card>, hand: seq<CardId>, ctx: RuleContext, last: CardPattern)
      returns (best: Option<seq<CardId>>)
    requires |hand| <= 30
    ensures Best(all, hand, ctx, last, Pow2(|hand|), best)
  {
    best := None;
    var bestScore := INT_MAX;
    var n := |hand|;
    var mask := 1;
    Pow2Positive(n);
    while mask < Pow2(n)
      invariant 1 <= mask <= Pow2(n)
      invariant Best(all, hand, ctx, last, mask, best)
      invariant bestScore == if best.Some? then ScoreOf(all, best.value, ctx) else INT_MAX
    {
      var subset: seq<CardId> := [];
      for i := 0 to n
        invariant subset == Subset(hand, mask, i)
      {
        if Bit(mask, i) {
          subset := subset + [hand[i]];
        }
      }
      ghost var before := best;
      best, bestScore := Consider(all, subset, ctx, last, best, bestScore);
      BestStep(all, hand, ctx, last, mask, before, best);
      mask := mask + 1;
    }
  }

  lemma BestStep(all: seq<Card>, hand: seq<CardId>, ctx: RuleContext, last: CardPattern, mask: nat,
                 before: Option<seq<CardId>>, after: Option<seq<CardId>>)
    requires |hand| <= 30 && mask >= 1 && Best(all, hand, ctx, last, mask, before)
    requires var s := Subset(hand, mask, |hand|);
             after == if Legal(all, s, ctx, last)
                 && ScoreOf(all, s, ctx) < (if before.Some? then ScoreOf(all, before.value, ctx) else INT_MAX)
                      then Some(s) else before
    ensures Best(all, hand, ctx, last, mask + 1, after)
  {
    hide Legal, ScoreOf;
    var s := Subset(hand, mask, |hand|);
    if Legal(all, s, ctx, last) {
      ScoreBound(all, s, ctx, last);
    }
  }

  // ----- what the search achieves -----

  /** A duplicate-free, non-empty choice of cards from the hand, in any order. */
  ghost predicate PlayFrom(hand: seq<CardId>, ids: seq<CardId>) {
    ids != [] && NoDuplicates(ids) && forall i :: 0 <= i < |ids| ==> ids[i] in hand
  }

  ghost function BitsFor(hand: seq<CardId>, ids: seq<CardId>): (bits: seq<bool>)
    ensures |bits| == |hand| && forall i :: 0 <= i < |hand| ==> bits[i] == (hand[i] in ids)
  {
    seq(|hand|, i requires 0 <= i < |hand| => hand[i] in ids)
  }

  lemma {:induction false} SubsetMembers(hand: seq<CardId>, mask: nat, k: nat)
    requires k <= |hand| && NoDuplicates(hand)
    ensures NoDuplicates(Subset(hand, mask, k))
    ensures forall x :: x in Subset(hand, mask, k) <==> exists i :: 0 <= i < k && hand[i] == x && Bit(mask, i)
  {
    if k > 0 {
      SubsetMembers(hand, mask, k - 1);
      var s := Subset(hand, mask, k - 1);
      assert hand[k - 1] !in s;
      forall x
        ensures x in Subset(hand, mask, k) <==> exists i :: 0 <= i < k && hand[i] == x && Bit(mask, i)
      {
        assert x in Subset(hand, mask, k) <==> x in s || (Bit(mask, k - 1) && x == hand[k - 1]);
      }
    }
  }

  /** Looking the cards up keeps permutations permutations. */
  lemma {:induction false} CardsPermutation(all: seq<Card>, a: seq<CardId>, b: seq<CardId>)
    requires multiset(a) == multiset(b)
    ensures multiset(CardsFromIds(all, a)) == multiset(CardsFromIds(all, b))
    decreases |a|
  {
    assert |a| == |multiset(a)| == |b|;
    if a != [] {
      var k := |a| - 1;
      assert a == a[..k] + [a[k]];
      var i := TakeOne(b, a[k]);
      var rest := b[..i] + b[i + 1..];
      assert multiset(a[..k]) == multiset(a) - multiset{a[k]};
      CardsPermutation(all, a[..k], rest);
      LookupConcat(all, b[..i] + [a[k]], b[i + 1..]);
      LookupConcat(all, b[..i], b[i + 1..]);
      LookupConcat(all, b[..i], [a[k]]);
      LookupConcat(all, a[..k], [a[k]]);
    }
  }

  lemma LookupConcat(all: seq<Card>, a: seq<CardId>, b: seq<CardId>)
    ensures CardsFromIds(all, a + b) == CardsFromIds(all, a) + CardsFromIds(all, b)
  {
  }

  /** Every choice of cards is, up to order, the subset of one mask; and order does not matter. */
  lemma EveryPlayHasAMask(all: seq<Card>, hand: seq<CardId>, ids: seq<CardId>, ctx: RuleContext, last: CardPattern)
      returns (m: nat)
    requires NoDuplicates(hand) && PlayFrom(hand, ids)
    ensures 1 <= m < Pow2(|hand|)
    ensures multiset(Subset(hand, m, |hand|)) == multiset(ids)
    ensures Legal(all, ids, ctx, last) <==> Legal(all, Subset(hand, m, |hand|), ctx, last)
    ensures ScoreOf(all, ids, ctx) == ScoreOf(all, Subset(hand, m, |hand|), ctx)
  {
    var bits := BitsFor(hand, ids);
    m := MaskOf(bits);
    MaskRange(bits);
    assert ids[0] in hand;
    var s := Subset(hand, m, |hand|);
    SubsetMembers(hand, m, |hand|);
    forall x
      ensures x in s <==> x in ids
    {
      forall i | 0 <= i < |hand|
        ensures Bit(m, i) == (hand[i] in ids)
      {
        MaskBits(bits, i);
      }
      if x in ids {
        assert x in hand;
      }
    }
    SameMembersSameBag(s, ids);
    assert |s| == |multiset(s)| == |multiset(ids)| == |ids|;
    CardsPermutation(all, s, ids);
    AnalyzePermutation(CardsFromIds(all, s), CardsFromIds(all, ids), ctx);
  }

  /** The bot is complete and optimal over every duplicate-free choice from its hand: it finds a play
      iff there is a legal one, and then one of least score, hence of fewest cards. */
  lemma SearchOptimal(all: seq<Card>, hand: seq<CardId>, ctx: RuleContext, last: CardPattern, best: Option<seq<CardId>>)
    requires NoDuplicates(hand) && |hand| <= 30 && Best(all, hand, ctx, last, Pow2(|hand|), best)
    ensures best.Some? <==> exists ids :: PlayFrom(hand, ids) && Legal(all, ids, ctx, last)
    ensures best.Some? ==> PlayFrom(hand, best.value) && Legal(all, best.value, ctx, last)
    ensures best.Some? ==> forall ids :: PlayFrom(hand, ids) && Legal(all, ids, ctx, last) ==>
                             NoDearer(all, ctx, best.value, ids) && |best.value| <= |ids|
  {
    hide Legal, ScoreOf, NoDearer;
    if best.Some? {
      var m :| 1 <= m < Pow2(|hand|) && best.value == Subset(hand, m, |hand|);
      SubsetMembers(hand, m, |hand|);
      EmptyIsIllegal(all, ctx, last);
      assert best.value != [];
      assert forall i :: 0 <= i < |best.value| ==> best.value[i] in Subset(hand, m, |hand|);
      ScoreBound(all, best.value, ctx, last);
    }
    forall ids | PlayFrom(hand, ids) && Legal(all, ids, ctx, last)
      ensures best.Some? && NoDearer(all, ctx, best.value, ids) && |best.value| <= |ids|
    {
      var m := EveryPlayHasAMask(all, hand, ids, ctx, last);
      assert |ids| == |multiset(ids)| == |Subset(hand, m, |hand|)|;
      ScoreBound(all, ids, ctx, last);
      ScoreMeaning(all, best.value, ids, ctx, last);
    }
  }

  lemma EmptyIsIllegal(all: seq<Card>, ctx: RuleContext, last: CardPattern)
    ensures !Legal(all, [], ctx, last)
  {
    assert CardsFromIds(all, []) == [];
  }
}
