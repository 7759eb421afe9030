/** Which cards may be paid and returned (tribute.cpp, the card pickers and validators). */
module Pickers {
  import opened Cards
  import opened State
  import opened Hands

  /** Order of a tribute card: its natural rank, a wild card at the level. */
  function RankOrder(c: Card, ctx: RuleContext): int {
    if IsJoker(c.rank) then c.rank else if ctx.IsWild(c) then ctx.currentLevel else c.rank
  }

  predicate ValidTribute(c: Card, ctx: RuleContext) {
    !ctx.IsWild(c)
  }

  predicate ValidReturn(c: Card, ctx: RuleContext) {
    !ctx.IsLevel(c) && !IsJoker(c.rank) && c.rank <= R10
  }

  /** Larger than every order: a card that may not be chosen. */
  const NONE := 999

  /** Index of the first least key below NONE among the first `k`; -1 if there is none. */
  function FirstLeast(keys: seq<int>, k: nat): (j: int)
    requires k <= |keys|
    ensures -1 <= j < k
  {
    if k == 0 then -1
    else
      var j := FirstLeast(keys, k - 1);
      if keys[k - 1] < (if j < 0 then NONE else keys[j]) then k - 1 else j
  }

  /** `j` is the first index of the least key, and that key is below NONE. */
  ghost predicate IsFirstLeast(keys: seq<int>, k: nat, j: int) {
    && 0 <= j < k <= |keys| && keys[j] < NONE
    && (forall i :: 0 <= i < k ==> keys[j] <= keys[i])
    && (forall i :: 0 <= i < j ==> keys[j] < keys[i])
  }

  lemma {:induction false} FirstLeastMeaning(keys: seq<int>, k: nat)
    requires k <= |keys|
    ensures if FirstLeast(keys, k) < 0 then forall i :: 0 <= i < k ==>
              keys[i] >= NONE else IsFirstLeast(keys, k, FirstLeast(keys, k))
  {
    if k > 0 {
      FirstLeastMeaning(keys, k - 1);
    }
  }

  lemma FirstLeastUnique(keys: seq<int>, j: int)
    requires IsFirstLeast(keys, |keys|, j)
    ensures FirstLeast(keys, |keys|) == j
  {
    FirstLeastMeaning(keys, |keys|);
  }

  function TributeKeys(all: seq<Card>, ctx: RuleContext, hand: seq<CardId>): (keys: seq<int>)
    ensures |keys| == |hand|
  {
    seq(|hand|, i requires 0 <= i < |hand| =>
      var c := CardById(all, hand[i]); if ValidTribute(c, ctx) then -RankOrder(c, ctx) else NONE)
  }

  function ReturnKeys(all: seq<Card>, ctx: RuleContext, hand: seq<CardId>): (keys: seq<int>)
    ensures |keys| == |hand|
  {
    seq(|hand|, i requires 0 <= i < |hand| => var c := CardById(all, hand[i]); if ValidReturn(c, ctx) then c.rank
        else NONE)
  }

  function SingleKeys(all: seq<Card>, ctx: RuleContext, hand: seq<CardId>): (keys: seq<int>)
    ensures |keys| == |hand|
  {
    seq(|hand|, i requires 0 <= i < |hand| => ctx.SingleRank(CardById(all, hand[i])))
  }

  /** The card at the first least key; id 0 stands for "none". */
  function Pick(hand: seq<CardId>, keys: seq<int>, k: nat): CardId
    requires k <= |keys| == |hand|
  {
    if FirstLeast(keys, k) < 0 then 0 else hand[FirstLeast(keys, k)]
  }

  /** The card a tributer has to pay. */
  function RequiredTribute(all: seq<Card>, ctx: RuleContext, hand: seq<CardId>): CardId {
    Pick(hand, TributeKeys(all, ctx, hand), |hand|)
  }

  function MinSingle(all: seq<Card>, ctx: RuleContext, hand: seq<CardId>): int {
    var j := FirstLeast(SingleKeys(all, ctx, hand), |hand|);
    if j < 0 then 0 else ctx.SingleRank(CardById(all, hand[j]))
  }

  /** The card the bot returns. */
  function PickReturn(all: seq<Card>, ctx: RuleContext, hand: seq<CardId>): CardId {
    var valid := Pick(hand, ReturnKeys(all, ctx, hand), |hand|);
    if valid != 0 then valid else Pick(hand, SingleKeys(all, ctx, hand), |hand|)
  }

  /** The ids of the first `k` cards that may be returned. */
  function Returnable(all: seq<Card>, ctx: RuleContext, hand: seq<CardId>, k: nat): seq<CardId>
    requires k <= |hand|
  {
    if k == 0 then []
    else Returnable(all, ctx, hand, k - 1) + if ValidReturn(CardById(all, hand[k - 1]), ctx) then [hand[k - 1]] else []
  }

  function OfRank(all: seq<Card>, ctx: RuleContext, hand: seq<CardId>, rank: int, k: nat): seq<CardId>
    requires k <= |hand|
  {
    if k == 0 then []
    else OfRank(all, ctx, hand, rank, k - 1) + if ctx.SingleRank(CardById(all, hand[k - 1])) == rank then [hand[k - 1]]
        else []
  }

  function ValidReturnIds(all: seq<Card>, ctx: RuleContext, hand: seq<CardId>): seq<CardId> {
    var primary := Returnable(all, ctx, hand, |hand|);
    if primary != [] then primary
    else if MinSingle(all, ctx, hand) == 0 then []
    else OfRank(all, ctx, hand, MinSingle(all, ctx, hand), |hand|)
  }

  predicate ValidTributeSubmission(all: seq<Card>, ctx: RuleContext, hand: seq<CardId>, id: CardId) {
    id != 0 && id in hand && id == RequiredTribute(all, ctx, hand)
  }

  predicate ValidReturnSubmission(all: seq<Card>, ctx: RuleContext, hand: seq<CardId>, id: CardId) {
    id != 0 && id in hand && id in ValidReturnIds(all, ctx, hand)
  }

  // ----- the loops -----

  method PickBestTributeCard(all: seq<Card>, ctx: RuleContext, hand: seq<CardId>) returns (best: CardId)
    ensures best == RequiredTribute(all, ctx, hand)
  {
    best := 0;
    var bestOrder := -1;
    ghost var keys := TributeKeys(all, ctx, hand);
    for i := 0 to |hand|
      invariant best == Pick(hand, keys, i)
      invariant bestOrder == if FirstLeast(keys, i) < 0 then -1 else -keys[FirstLeast(keys, i)]
      invariant FirstLeast(keys, i) >= 0 ==> keys[FirstLeast(keys, i)] < 0
    {
      var card := CardById(all, hand[i]);
      if !ValidTribute(card, ctx) {
        continue;
      }
      var order := RankOrder(card, ctx);
      if order > bestOrder {
        bestOrder := order;
        best := hand[i];
      }
    }
  }

  method MinSingleEffectiveRank(all: seq<Card>, ctx: RuleContext, hand: seq<CardId>) returns (order: int)
    ensures order == MinSingle(all, ctx, hand)
  {
    var bestOrder := NONE;
    ghost var keys := SingleKeys(all, ctx, hand);
    for i := 0 to |hand|
      invariant bestOrder == if FirstLeast(keys, i) < 0 then NONE else keys[FirstLeast(keys, i)]
      invariant FirstLeast(keys, i) >= 0 ==> keys[FirstLeast(keys, i)] < NONE
    {
      var rank := ctx.SingleRank(CardById(all, hand[i]));
      bestOrder := if rank < bestOrder then rank else bestOrder;
    }
    order := if bestOrder == NONE then 0 else bestOrder;
  }

  method PickSmallestCard(all: seq<Card>, ctx: RuleContext, hand: seq<CardId>) returns (best: CardId)
    ensures best == Pick(hand, SingleKeys(all, ctx, hand), |hand|)
  {
    ghost var keys := SingleKeys(all, ctx, hand);
    FirstLeastMeaning(keys, |hand|);
    var minOrder := MinSingleEffectiveRank(all, ctx, hand);
    best := 0;
    if minOrder == 0 {
      return;
    }
    for i := 0 to |hand|
      invariant forall k :: 0 <= k < i ==> keys[k] != minOrder
      invariant best == 0
    {
      if ctx.SingleRank(CardById(all, hand[i])) != minOrder {
        continue;
      }
      best := hand[i];
      FirstLeastUnique(keys, i);
      return;
    }
  }

  method PickBestReturnCard(all: seq<Card>, ctx: RuleContext, hand: seq<CardId>) returns (best: CardId)
    ensures best == Pick(hand, ReturnKeys(all, ctx, hand), |hand|)
  {
    best := 0;
    var bestOrder := NONE;
    ghost var keys := ReturnKeys(all, ctx, hand);
    for i := 0 to |hand|
      invariant best == Pick(hand, keys, i)
      invariant bestOrder == if FirstLeast(keys, i) < 0 then NONE else keys[FirstLeast(keys, i)]
    {
      var card := CardById(all, hand[i]);
      if !ValidReturn(card, ctx) {
        continue;
      }
      var order := card.rank;
      if order < bestOrder {
        bestOrder := order;
        best := hand[i];
      }
    }
  }

  method PickReturnCard(all: seq<Card>, ctx: RuleContext, hand: seq<CardId>) returns (best: CardId)
    ensures best == PickReturn(all, ctx, hand)
  {
    best := PickBestReturnCard(all, ctx, hand);
    if best == 0 {
      best := PickSmallestCard(all, ctx, hand);
    }
  }

  method ValidReturnCardIds(all: seq<Card>, ctx: RuleContext, hand: seq<CardId>) returns (ids: seq<CardId>)
    ensures ids == ValidReturnIds(all, ctx, hand)
  {
    ids := [];
    for i := 0 to |hand|
      invariant ids == Returnable(all, ctx, hand, i)
    {
      if ValidReturn(CardById(all, hand[i]), ctx) {
        ids := ids + [hand[i]];
      }
    }
    if ids != [] {
      return;
    }
    var minOrder := MinSingleEffectiveRank(all, ctx, hand);
    if minOrder == 0 {
      return;
    }
    for i := 0 to |hand|
      invariant ids == OfRank(all, ctx, hand, minOrder, i)
    {
      if ctx.SingleRank(CardById(all, hand[i])) == minOrder {
        ids := ids + [hand[i]];
      }
    }
  }

  // ----- what the pickers choose -----

  /** The tribute is the first of the highest cards that are not wild; 0 exactly if all cards are wild
      or that first highest card has id 0. */
  lemma RequiredTributeMeaning(all: seq<Card>, ctx: RuleContext, hand: seq<CardId>)
    ensures if forall i :: 0 <= i < |hand| ==>
              ctx.IsWild(CardById(all, hand[i])) then RequiredTribute(all, ctx, hand) == 0
            else exists j :: FirstHighest(all, ctx, hand, j) && RequiredTribute(all, ctx, hand) == hand[j]
  {
    var keys := TributeKeys(all, ctx, hand);
    FirstLeastMeaning(keys, |hand|);
    var j := FirstLeast(keys, |hand|);
    if j >= 0 {
      assert FirstHighest(all, ctx, hand, j) by {
        forall i | 0 <= i < |hand| && !ctx.IsWild(CardById(all, hand[i]))
          ensures CardById(all, hand[i]).rank <= CardById(all, hand[j]).rank
          ensures i < j ==> CardById(all, hand[i]).rank < CardById(all, hand[j]).rank
        {
          assert keys[j] <= keys[i];
        }
      }
    } else {
      forall i | 0 <= i < |hand|
        ensures ctx.IsWild(CardById(all, hand[i]))
      {
        assert keys[i] >= NONE;
      }
    }
  }

  /** Position `j` holds the first of the highest non-wild cards, by natural rank: a level card counts
      as its own rank here. */
  ghost predicate FirstHighest(all: seq<Card>, ctx: RuleContext, hand: seq<CardId>, j: int) {
    && 0 <= j < |hand| && !ctx.IsWild(CardById(all, hand[j]))
    && forall i :: 0 <= i < |hand| && !ctx.IsWild(CardById(all, hand[i])) ==>
         && CardById(all, hand[i]).rank <= CardById(all, hand[j]).rank
         && (i < j ==> CardById(all, hand[i]).rank < CardById(all, hand[j]).rank)
  }

  /** A card that may be returned counts as a single at its natural rank, below every other card. */
  lemma ReturnableIsLow(c: Card, ctx: RuleContext)
    ensures ValidReturn(c, ctx) <==> ctx.SingleRank(c) <= R10
    ensures ValidReturn(c, ctx) ==> ctx.SingleRank(c) == c.rank
  {
  }

  lemma SmallestIsReturnable(c: Card, d: Card, ctx: RuleContext)
    requires ValidReturn(c, ctx)
    ensures !ValidReturn(d, ctx) ==> ctx.SingleRank(c) < ctx.SingleRank(d)
    ensures ValidReturn(d, ctx) ==> ctx.SingleRank(c) - ctx.SingleRank(d) == c.rank - d.rank
  {
    ReturnableIsLow(c, ctx);
    ReturnableIsLow(d, ctx);
  }

  /** The two-stage choice of the return card comes to one rule: the first of the cards that are
      smallest as singles. */
  lemma PickReturnIsSmallest(all: seq<Card>, ctx: RuleContext, hand: seq<CardId>)
    ensures PickReturn(all, ctx, hand) == Pick(hand, SingleKeys(all, ctx, hand), |hand|)
    ensures hand == [] ==> PickReturn(all, ctx, hand) == 0
    ensures hand != [] ==> PickReturn(all, ctx, hand) in hand
  {
    var ret, single := ReturnKeys(all, ctx, hand), SingleKeys(all, ctx, hand);
    FirstLeastMeaning(ret, |hand|);
    FirstLeastMeaning(single, |hand|);
    if hand != [] {
      assert single[0] < NONE;
      var j := FirstLeast(ret, |hand|);
      if j >= 0 {
        forall i | 0 <= i < |hand|
          ensures single[j] <= single[i] && (i < j ==> single[j] < single[i])
        {
          assert ret[j] <= ret[i] && (i < j ==> ret[j] < ret[i]);
          SmallestIsReturnable(CardById(all, hand[j]), CardById(all, hand[i]), ctx);
        }
        FirstLeastUnique(single, j);
      }
    }
  }

  lemma {:induction false} ReturnableMembers(all: seq<Card>, ctx: RuleContext, hand: seq<CardId>, k: nat, x: CardId)
    requires k <= |hand|
    ensures x in Returnable(all, ctx, hand, k) <==> x in hand[..k] && ValidReturn(CardById(all, x), ctx)
  {
    if k > 0 {
      ReturnableMembers(all, ctx, hand, k - 1, x);
      assert hand[..k] == hand[..k - 1] + [hand[k - 1]];
    }
  }

  lemma {:induction false} OfRankMembers(all: seq<Card>, ctx: RuleContext, hand: seq<CardId>, rank: int, k: nat,
      x: CardId)
    requires k <= |hand|
    ensures x in OfRank(all, ctx, hand, rank, k) <==> x in hand[..k] && ctx.SingleRank(CardById(all, x)) == rank
  {
    if k > 0 {
      OfRankMembers(all, ctx, hand, rank, k - 1, x);
      assert hand[..k] == hand[..k - 1] + [hand[k - 1]];
    }
  }

  lemma ReturnableAreLow(all: seq<Card>, ctx: RuleContext, hand: seq<CardId>, x: CardId)
    ensures x in Returnable(all, ctx, hand, |hand|) <==> x in hand && ctx.SingleRank(CardById(all, x)) <= R10
  {
    ReturnableMembers(all, ctx, hand, |hand|, x);
    assert hand[..|hand|] == hand;
    ReturnableIsLow(CardById(all, x), ctx);
  }

  ghost predicate Smallest(all: seq<Card>, ctx: RuleContext, hand: seq<CardId>, x: CardId) {
    x in hand && forall y: CardId :: y in hand ==> ctx.SingleRank(CardById(all, x)) <= ctx.SingleRank(CardById(all, y))
  }

  lemma MinSingleMeaning(all: seq<Card>, ctx: RuleContext, hand: seq<CardId>, x: CardId)
    requires x in hand
    ensures MinSingle(all, ctx, hand) > 0
    ensures Smallest(all, ctx, hand, x) <==> ctx.SingleRank(CardById(all, x)) == MinSingle(all, ctx, hand)
  {
    var keys := SingleKeys(all, ctx, hand);
    FirstLeastMeaning(keys, |hand|);
    assert keys[0] < NONE;
    var j := FirstLeast(keys, |hand|);
    forall y: CardId | y in hand
      ensures keys[j] <= ctx.SingleRank(CardById(all, y))
    {
      var i :| 0 <= i < |hand| && hand[i] == y;
      assert keys[j] <= keys[i];
    }
    assert hand[j] in hand;
  }

  /** A card of the hand may be returned if it is low, or if none is smaller as a single. */
  lemma ValidReturnMeaning(all: seq<Card>, ctx: RuleContext, hand: seq<CardId>, x: CardId)
    ensures x in ValidReturnIds(all, ctx, hand) <==>
            x in hand && (ctx.SingleRank(CardById(all, x)) <= R10 || Smallest(all, ctx, hand, x))
  {
    hide Returnable, OfRank, MinSingle;
    ReturnableAreLow(all, ctx, hand, x);
    var primary := Returnable(all, ctx, hand, |hand|);
    if primary != [] {
      var y := primary[0];
      assert y in primary;
      ReturnableAreLow(all, ctx, hand, y);
    } else {
      OfRankMembers(all, ctx, hand, MinSingle(all, ctx, hand), |hand|, x);
      assert hand[..|hand|] == hand;
      if x in hand {
        MinSingleMeaning(all, ctx, hand, x);
      }
    }
  }

  /** Position `j` holds the first of the cards that are smallest as singles. */
  ghost predicate FirstSmallest(all: seq<Card>, ctx: RuleContext, hand: seq<CardId>, j: int) {
    && 0 <= j < |hand|
    && forall i :: 0 <= i < |hand| ==>
         && ctx.SingleRank(CardById(all, hand[j])) <= ctx.SingleRank(CardById(all, hand[i]))
         && (i < j ==> ctx.SingleRank(CardById(all, hand[j])) < ctx.SingleRank(CardById(all, hand[i])))
  }

  /** The bot returns the first smallest card of a hand. */
  lemma PickReturnMeaning(all: seq<Card>, ctx: RuleContext, hand: seq<CardId>, j: int)
    requires FirstSmallest(all, ctx, hand, j)
    ensures PickReturn(all, ctx, hand) == hand[j] && hand[j] in ValidReturnIds(all, ctx, hand)
  {
    hide PickReturn, ValidReturnIds;
    PickReturnIsSmallest(all, ctx, hand);
    FirstLeastUnique(SingleKeys(all, ctx, hand), j);
    ValidReturnMeaning(all, ctx, hand, hand[j]);
  }

  /** What the bot returns is admitted exactly if the first of the smallest cards of the hand is not card 0. */
  lemma BotReturnAdmitted(all: seq<Card>, ctx: RuleContext, hand: seq<CardId>)
    ensures ValidReturnSubmission(all, ctx, hand, PickReturn(all, ctx, hand)) <==>
            exists j :: FirstSmallest(all, ctx, hand, j) && hand[j] != 0
  {
    hide PickReturn, ValidReturnIds;
    if hand != [] {
      FirstLeastMeaning(SingleKeys(all, ctx, hand), |hand|);
      assert SingleKeys(all, ctx, hand)[0] < NONE;
      var j := FirstLeast(SingleKeys(all, ctx, hand), |hand|);
      FirstSmallestIs(all, ctx, hand, j);
      PickReturnMeaning(all, ctx, hand, j);
      forall k | FirstSmallest(all, ctx, hand, k)
        ensures PickReturn(all, ctx, hand) == hand[k]
      {
        PickReturnMeaning(all, ctx, hand, k);
      }
    }
  }

  lemma FirstSmallestIs(all: seq<Card>, ctx: RuleContext, hand: seq<CardId>, j: int)
    requires IsFirstLeast(SingleKeys(all, ctx, hand), |hand|, j)
    ensures FirstSmallest(all, ctx, hand, j)
  {
    var keys := SingleKeys(all, ctx, hand);
    forall i | 0 <= i < |hand|
      ensures ctx.SingleRank(CardById(all, hand[j])) <= ctx.SingleRank(CardById(all, hand[i]))
      ensures i < j ==> ctx.SingleRank(CardById(all, hand[j])) < ctx.SingleRank(CardById(all, hand[i]))
    {
      assert keys[j] <= keys[i];
    }
  }

  // ----- hands that cannot pay or return -----

  /** The first of the highest cards that are not wild is not card 0: then there is a card to pay. */
  ghost predicate CanPay(all: seq<Card>, ctx: RuleContext, hand: seq<CardId>) {
    exists j :: FirstHighest(all, ctx, hand, j) && hand[j] != 0
  }

  /** The card to pay: the first of the highest that are not wild, unless that is card 0. */
  ghost predicate MustPay(all: seq<Card>, ctx: RuleContext, hand: seq<CardId>, c: CardId) {
    exists j :: FirstHighest(all, ctx, hand, j) && c == hand[j] != 0
  }

  /** A card other than card 0 that is low, or smallest as a single. */
  ghost predicate MayGiveBack(all: seq<Card>, ctx: RuleContext, hand: seq<CardId>, c: CardId) {
    c in hand && c != 0 && (ctx.SingleRank(CardById(all, c)) <= R10 || Smallest(all, ctx, hand, c))
  }

  ghost predicate CanGiveBack(all: seq<Card>, ctx: RuleContext, hand: seq<CardId>) {
    exists c: CardId :: MayGiveBack(all, ctx, hand, c)
  }

  lemma CanPayIff(all: seq<Card>, ctx: RuleContext, hand: seq<CardId>)
    ensures CanPay(all, ctx, hand) <==> RequiredTribute(all, ctx, hand) != 0
  {
    hide RequiredTribute;
    RequiredTributeMeaning(all, ctx, hand);
    forall i, j | FirstHighest(all, ctx, hand, i) && FirstHighest(all, ctx, hand, j)
      ensures i == j
    {
    }
  }

  lemma MustPayIff(all: seq<Card>, ctx: RuleContext, hand: seq<CardId>, c: CardId)
    ensures ValidTributeSubmission(all, ctx, hand, c) <==> MustPay(all, ctx, hand, c)
  {
    hide RequiredTribute;
    RequiredTributeMeaning(all, ctx, hand);
    forall i, j | FirstHighest(all, ctx, hand, i) && FirstHighest(all, ctx, hand, j)
      ensures i == j
    {
    }
  }

  lemma MayGiveBackIff(all: seq<Card>, ctx: RuleContext, hand: seq<CardId>, c: CardId)
    ensures ValidReturnSubmission(all, ctx, hand, c) <==> MayGiveBack(all, ctx, hand, c)
  {
    hide ValidReturnIds;
    ValidReturnMeaning(all, ctx, hand, c);
  }

  lemma CanGiveBackIff(all: seq<Card>, ctx: RuleContext, hand: seq<CardId>)
    ensures CanGiveBack(all, ctx, hand) <==> exists c: CardId :: ValidReturnSubmission(all, ctx, hand, c)
  {
    hide ValidReturnSubmission, MayGiveBack;
    forall c: CardId
      ensures ValidReturnSubmission(all, ctx, hand, c) <==> MayGiveBack(all, ctx, hand, c)
    {
      MayGiveBackIff(all, ctx, hand, c);
    }
  }

  /** A hand has nothing to return exactly if it is empty, or holds card 0 and next to it only cards that
      count for more than ten and for more than card 0. */
  lemma NothingToReturn(all: seq<Card>, ctx: RuleContext, hand: seq<CardId>)
    ensures !CanGiveBack(all, ctx, hand) <==>
            hand == [] || (0 in hand && forall c: CardId :: c in hand && c != 0 ==>
                             ctx.SingleRank(CardById(all, c)) > R10
                                 && ctx.SingleRank(CardById(all, c)) > ctx.SingleRank(CardById(all, 0)))
  {
    if hand != [] {
      FirstLeastMeaning(SingleKeys(all, ctx, hand), |hand|);
      assert SingleKeys(all, ctx, hand)[0] < NONE;
      var j := FirstLeast(SingleKeys(all, ctx, hand), |hand|);
      FirstSmallestIs(all, ctx, hand, j);
      assert Smallest(all, ctx, hand, hand[j]);
      forall c: CardId | c in hand && c != 0
        ensures MayGiveBack(all, ctx, hand, c) <==>
                  ctx.SingleRank(CardById(all, c)) <= R10 || Smallest(all, ctx, hand, c)
      {
      }
    }
  }

  /** With card 0, a spade two, in front of another two there is no card to pay, at any level. */
  lemma ZeroBeforeTwo(all: seq<Card>, ctx: RuleContext, x: CardId)
    requires CardById(all, 0) == Card(0, Spade, 2) && CardById(all, x).rank == 2
    ensures !CanPay(all, ctx, [0, x])
  {
    forall j | FirstHighest(all, ctx, [0, x], j)
      ensures j == 0
    {
      assert [0, x][0] == 0;
    }
  }

  /** The same two cards in the other order have one, unless the other two is wild. */
  lemma TwoBeforeZero(all: seq<Card>, ctx: RuleContext, x: CardId)
    requires CardById(all, 0) == Card(0, Spade, 2) && CardById(all, x).rank == 2 && x != 0
    requires !ctx.IsWild(CardById(all, x))
    ensures CanPay(all, ctx, [x, 0])
  {
    assert [x, 0][1] == 0;
    assert FirstHighest(all, ctx, [x, 0], 0);
  }

  /** Wild cards cannot be paid. */
  lemma WildCardsCannotPay(all: seq<Card>, ctx: RuleContext, hand: seq<CardId>)
    requires forall i :: 0 <= i < |hand| ==> ctx.IsWild(CardById(all, hand[i]))
    ensures !CanPay(all, ctx, hand)
  {
  }

  /** A recipient whose smallest card is id 0 gets no answer from the bot, although the rules let it
      return another card. */
  lemma ZeroHidesTheReturn(all: seq<Card>, ctx: RuleContext)
    requires all == [Card(0, Spade, 3), Card(7, Club, 4)] && ctx == RuleContext(2, true)
    ensures PickReturn(all, ctx, [0, 7]) == 0 && ValidReturnSubmission(all, ctx, [0, 7], 7)
  {
    assert CardById(all, 0) == all[0] && all[1..][0].id == 7 && CardById(all, 7) == all[1];
    FirstLeastUnique(SingleKeys(all, ctx, [0, 7]), 0);
    PickReturnIsSmallest(all, ctx, [0, 7]);
    ValidReturnMeaning(all, ctx, [0, 7], 7);
  }
}
