/** Tribute in any order comes to the same as tribute in one go. */
module Confluence {
  import opened Lists
  import opened Cards
  import opened State
  import opened Seats
  import opened Turns
  import opened FinishRanks
  import opened Settlements
  import opened Hands
  import opened Pickers
  import opened Round
  import opened Tributes
  import opened Exchange
  import opened TributePhase

  // ----- transfers between disjoint pairs of seats -----

  ghost predicate Apart(a: Transfer, b: Transfer) {
    a.fromSeat != b.fromSeat && a.fromSeat != b.toSeat && a.toSeat != b.fromSeat && a.toSeat != b.toSeat
  }

  lemma MoveFrame(p: seq<Player>, m: Transfer, s: int)
    requires 0 <= s < |p| && s != m.fromSeat && s != m.toSeat
    ensures MoveCard(p, m)[s] == p[s]
  {
  }

  /** A transfer looks at its two seats only. */
  lemma MoveLocal(p: seq<Player>, q: seq<Player>, m: Transfer, s: int)
    requires |p| == |q| && 0 <= m.fromSeat < |p| && 0 <= m.toSeat < |p| && (s == m.fromSeat || s == m.toSeat)
    requires p[m.fromSeat] == q[m.fromSeat] && p[m.toSeat] == q[m.toSeat]
    ensures MoveCard(p, m)[s] == MoveCard(q, m)[s]
  {
    hide HandAfter;
  }

  lemma MovesCommute(p: seq<Player>, a: Transfer, b: Transfer)
    requires Apart(a, b) && 0 <= a.fromSeat < |p| && 0 <= a.toSeat < |p| && 0 <= b.fromSeat < |p| && 0 <= b.toSeat < |p|
    ensures MoveCard(MoveCard(p, a), b) == MoveCard(MoveCard(p, b), a)
  {
    hide MoveCard;
    var ab, ba := MoveCard(MoveCard(p, a), b), MoveCard(MoveCard(p, b), a);
    forall s | 0 <= s < |p|
      ensures ab[s] == ba[s]
    {
      MoveFrame(p, a, b.fromSeat);
      MoveFrame(p, a, b.toSeat);
      MoveFrame(p, b, a.fromSeat);
      MoveFrame(p, b, a.toSeat);
      if s == a.fromSeat || s == a.toSeat {
        MoveFrame(MoveCard(p, a), b, s);
        MoveLocal(p, MoveCard(p, b), a, s);
      } else if s == b.fromSeat || s == b.toSeat {
        MoveFrame(MoveCard(p, b), a, s);
        MoveLocal(p, MoveCard(p, a), b, s);
      } else {
        MoveFrame(p, a, s);
        MoveFrame(p, b, s);
        MoveFrame(MoveCard(p, a), b, s);
        MoveFrame(MoveCard(p, b), a, s);
      }
    }
  }

  /** Tributes between distinct seats of the game, no seat in two of them. */
  ghost predicate Pairs(tributes: seq<Transfer>, n: int) {
    && (forall i :: 0 <= i < |tributes| ==>
          0 <= tributes[i].fromSeat < n && 0 <= tributes[i].toSeat < n && tributes[i].fromSeat != tributes[i].toSeat)
    && (forall i, j :: 0 <= i < j < |tributes| ==> Apart(tributes[i], tributes[j]))
  }

  lemma PairsApart(tributes: seq<Transfer>, n: int, i: nat, j: nat)
    requires Pairs(tributes, n) && i < |tributes| && j < |tributes|
    ensures 0 <= tributes[j].fromSeat < n && 0 <= tributes[j].toSeat < n
    ensures i != j ==> Apart(tributes[i], tributes[j])
    ensures i != j ==> tributes[i].toSeat != tributes[j].toSeat && tributes[j].toSeat != tributes[i].fromSeat
  {
    assert i < j ==> Apart(tributes[i], tributes[j]);
    assert j < i ==> Apart(tributes[j], tributes[i]);
  }

  function Back(m: Transfer, card: CardId): Transfer {
    Transfer(m.toSeat, m.fromSeat, card)
  }

  /** The players once the recipients in `done` have returned the cards it names, in the order of the tributes. */
  function Settle(p: seq<Player>, tributes: seq<Transfer>, done: map<int, CardId>, k: nat): (q: seq<Player>)
    requires k <= |tributes|
    ensures |q| == |p|
  {
    if k == 0 then p
    else
      var m := tributes[k - 1];
      if m.toSeat in done then MoveCard(Settle(p, tributes, done, k - 1), Back(m, done[m.toSeat]))
          else Settle(p, tributes, done, k - 1)
  }

  /** Returns of other recipients do not touch a seat. */
  lemma {:induction false} SettleFrame(p: seq<Player>, tributes: seq<Transfer>, done: map<int, CardId>, k: nat, s: int)
    requires k <= |tributes| && 0 <= s < |p|
    requires forall i :: 0 <= i < k && tributes[i].toSeat in done ==>
               s != tributes[i].fromSeat && s != tributes[i].toSeat
    ensures Settle(p, tributes, done, k)[s] == p[s]
  {
    if k > 0 {
      SettleFrame(p, tributes, done, k - 1, s);
      var m := tributes[k - 1];
      if m.toSeat in done {
        MoveFrame(Settle(p, tributes, done, k - 1), Back(m, done[m.toSeat]), s);
      }
    }
  }

  lemma {:induction false} SettleSame(p: seq<Player>, tributes: seq<Transfer>, done: map<int, CardId>,
      done': map<int, CardId>, k: nat)
    requires k <= |tributes|
    requires forall i :: 0 <= i < k ==>
               var s := tributes[i].toSeat; (s in done <==> s in done') && (s in done ==> done[s] == done'[s])
    ensures Settle(p, tributes, done, k) == Settle(p, tributes, done', k)
  {
    if k > 0 {
      SettleSame(p, tributes, done, done', k - 1);
    }
  }

  /** Whenever a recipient returns its card, the result is as if it had done so in its place. */
  lemma {:induction false} SettleAdd(p: seq<Player>, tributes: seq<Transfer>, done: map<int, CardId>, i: nat,
      c: CardId, k: nat)
    requires Pairs(tributes, |p|) && i < k <= |tributes| && tributes[i].toSeat !in done
    ensures Settle(p, tributes, done[tributes[i].toSeat := c], k) ==
              MoveCard(Settle(p, tributes, done, k), Back(tributes[i], c))
  {
    hide MoveCard;
    var done' := done[tributes[i].toSeat := c];
    var m := tributes[k - 1];
    if i == k - 1 {
      forall j | 0 <= j < k - 1
        ensures tributes[j].toSeat != tributes[i].toSeat
      {
        assert Apart(tributes[j], tributes[i]);
      }
      SettleSame(p, tributes, done, done', k - 1);
    } else {
      assert Apart(tributes[i], m);
      SettleAdd(p, tributes, done, i, c, k - 1);
      if m.toSeat in done {
        MovesCommute(Settle(p, tributes, done, k - 1), Back(tributes[i], c), Back(m, done[m.toSeat]));
      }
    }
  }

  // ----- the bot's returns -----

  /** What the bot would return to the first `k` payers, except where that is id 0. */
  function BotChoices(all: seq<Card>, ctx: RuleContext, p: seq<Player>, tributes: seq<Transfer>,
      k: nat): (m: map<int, CardId>)
    requires k <= |tributes| && forall i :: 0 <= i < |tributes| ==> 0 <= tributes[i].toSeat < |p|
  {
    if k == 0 then map[]
    else
      var s := tributes[k - 1].toSeat;
      var id := PickReturn(all, ctx, p[s].hand);
      if id != 0 then BotChoices(all, ctx, p, tributes, k - 1)[s := id] else BotChoices(all, ctx, p, tributes, k - 1)
  }

  lemma {:induction false} BotChoicesAre(all: seq<Card>, ctx: RuleContext, p: seq<Player>, tributes: seq<Transfer>,
      k: nat, i: nat)
    requires Pairs(tributes, |p|) && k <= |tributes| && i < |tributes|
    ensures var s := tributes[i].toSeat; var id := PickReturn(all, ctx, p[s].hand);
            && (s in BotChoices(all, ctx, p, tributes, k) <==> i < k && id != 0)
            && (s in BotChoices(all, ctx, p, tributes, k) ==> BotChoices(all, ctx, p, tributes, k)[s] == id)
  {
    hide PickReturn, Pairs;
    if k > 0 {
      BotChoicesAre(all, ctx, p, tributes, k - 1, i);
      PairsApart(tributes, |p|, i, k - 1);
    }
  }

  /** Until it returns a card itself, a recipient's hand is as it was after the tributes. */
  lemma PendingHand(p: seq<Player>, tributes: seq<Transfer>, done: map<int, CardId>, k: nat, i: nat)
    requires Pairs(tributes, |p|) && k <= |tributes| && i < |tributes| && (tributes[i].toSeat !in done || k <= i)
    ensures Settle(p, tributes, done, k)[tributes[i].toSeat] == p[tributes[i].toSeat]
  {
    hide Settle, Pairs;
    forall j | 0 <= j < k && tributes[j].toSeat in done
      ensures tributes[i].toSeat != tributes[j].fromSeat && tributes[i].toSeat != tributes[j].toSeat
    {
      PairsApart(tributes, |p|, j, i);
    }
    PairsApart(tributes, |p|, i, i);
    SettleFrame(p, tributes, done, k, tributes[i].toSeat);
  }

  /** The one-shot returns are the bot's choices, all made from the hands as they are after the tributes. */
  lemma {:induction false} ReturnsAreChoices(all: seq<Card>, ctx: RuleContext, p: seq<Player>, tributes: seq<Transfer>,
      k: nat)
    requires Pairs(tributes, |p|) && k <= |tributes|
    ensures ReturnsFrom(all, ctx, p, tributes, k).0 ==
              Settle(p, tributes, BotChoices(all, ctx, p, tributes, |tributes|), k)
  {
    hide MoveCard, PickReturn, BotChoices;
    if k > 0 {
      var done := BotChoices(all, ctx, p, tributes, |tributes|);
      ReturnsAreChoices(all, ctx, p, tributes, k - 1);
      PendingHand(p, tributes, done, k - 1, k - 1);
      BotChoicesAre(all, ctx, p, tributes, |tributes|, k - 1);
    }
  }

  // ----- the tributes of a plan -----

  /** Every tributer has submitted a card. */
  ghost predicate AllIn(seats: seq<int>, submissions: map<int, CardId>) {
    forall i :: 0 <= i < |seats| ==> seats[i] in submissions && submissions[seats[i]] != 0
  }

  lemma {:induction false} PendingAll(seats: seq<int>, submissions: map<int, CardId>, k: nat)
    requires k <= |seats| && AllIn(seats, submissions)
    ensures |PendingOf(seats, submissions, k)| == k
    ensures forall i :: 0 <= i < k ==> PendingOf(seats, submissions, k)[i] == Pending(seats[i], submissions[seats[i]])
  {
    if k > 0 {
      PendingAll(seats, submissions, k - 1);
    }
  }

  /** Each recipient of the plan gets a card of a distinct tributer, the first recipients the higher ones and,
      of equal ones, that of the tributer reached first clockwise from the head. */
  ghost predicate Deals(all: seq<Card>, ctx: RuleContext, plan: Plan, submissions: map<int, CardId>,
      tributes: seq<Transfer>, n: int)
  {
    && |tributes| == |plan.recipientSeats| && Pairs(tributes, n)
    && (forall i :: 0 <= i < |tributes| ==>
          && tributes[i].toSeat == plan.recipientSeats[i] && tributes[i].fromSeat in plan.tributerSeats
          && tributes[i].fromSeat in submissions && tributes[i].cardId == submissions[tributes[i].fromSeat])
    && (forall i, j :: 0 <= i < j < |tributes| ==> OrderOf(all, ctx, tributes[i]) >= OrderOf(all, ctx, tributes[j]))
    && forall i, j :: 0 <= i < j < |tributes| && OrderOf(all, ctx, tributes[i]) == OrderOf(all, ctx, tributes[j]) ==>
         Clockwise(plan.headSeat, tributes[i].fromSeat, n) < Clockwise(plan.headSeat, tributes[j].fromSeat, n)
  }

  /** What the plan of a round provides. */
  ghost predicate SoundPlan(plan: Plan, n: int) {
    && 0 < n && |plan.tributerSeats| == |plan.recipientSeats| > 0 && PlanInGame(plan, n) && 0 <= plan.headSeat < n
    && NoDuplicates(plan.tributerSeats) && NoDuplicates(plan.recipientSeats)
    && plan.headSeat == plan.recipientSeats[0]
    && forall i, j :: 0 <= i < |plan.tributerSeats| && 0 <= j < |plan.recipientSeats| ==>
        plan.tributerSeats[i] != plan.recipientSeats[j]
  }

  lemma ShapeIsSound(ranks: seq<int>, n: nat, k: int, plan: Plan)
    requires PermRanks(ranks, n) && PlanShape(ranks, n, k, plan) && 2 * k <= n
    ensures SoundPlan(plan, n)
  {
    PlanDisjoint(ranks, n, k, plan);
  }

  lemma SortedTributes(all: seq<Card>, ctx: RuleContext, plan: Plan, submissions: map<int, CardId>, n: int)
    requires SoundPlan(plan, n) && AllIn(plan.tributerSeats, submissions)
    ensures var seats := plan.tributerSeats; var pending := PendingOf(seats, submissions, |seats|);
            var sorted := Sorted(all, ctx, pending, plan.headSeat, n);
            && |pending| == |sorted| == |seats| && OnePerSeat(sorted, n) && InOrder(all, ctx, sorted, plan.headSeat, n)
            && forall i :: 0 <= i < |sorted| ==>
                sorted[i].fromSeat in seats && sorted[i].cardId == submissions[sorted[i].fromSeat]
  {
    hide Sorted, PendingOf, InOrder;
    var seats := plan.tributerSeats;
    var pending := PendingOf(seats, submissions, |seats|);
    var sorted := Sorted(all, ctx, pending, plan.headSeat, n);
    PendingAll(seats, submissions, |seats|);
    SortedInOrder(all, ctx, pending, plan.headSeat, n);
    SortedBag(all, ctx, pending, plan.headSeat, n);
    forall i | 0 <= i < |sorted|
      ensures sorted[i].fromSeat in seats && sorted[i].cardId == submissions[sorted[i].fromSeat]
    {
      assert sorted[i] in multiset(sorted);
      assert sorted[i] in pending;
    }
  }

  lemma OrderFalls(all: seq<Card>, ctx: RuleContext, sorted: seq<Pending>, recipients: seq<int>, k: nat, head: int,
      n: int)
    requires InOrder(all, ctx, sorted, head, n) && k <= |sorted| && k <= |recipients|
    requires OnePerSeat(sorted, n) && 0 <= head < n
    ensures var tributes := Assigned(sorted, recipients, k);
            forall i, j :: 0 <= i < j < k ==>
              && OrderOf(all, ctx, tributes[i]) >= OrderOf(all, ctx, tributes[j])
              && (OrderOf(all, ctx, tributes[i]) == OrderOf(all, ctx, tributes[j]) ==>
                  Clockwise(head, tributes[i].fromSeat, n) < Clockwise(head, tributes[j].fromSeat, n))
  {
    hide RankOrder, CompareTribute, Clockwise;
    var tributes := Assigned(sorted, recipients, k);
    forall i, j | 0 <= i < j < k
      ensures OrderOf(all, ctx, tributes[i]) >= OrderOf(all, ctx, tributes[j])
      ensures OrderOf(all, ctx, tributes[i]) == OrderOf(all, ctx, tributes[j]) ==>
                Clockwise(head, tributes[i].fromSeat, n) < Clockwise(head, tributes[j].fromSeat, n)
    {
      assert Before(all, ctx, sorted[i], sorted[j], head, n);
      TributeOrderMeaning(all, ctx, sorted[i], sorted[j], head, n);
    }
  }

  lemma TributesDeal(t: Table, ctx: RuleContext, plan: Plan, submissions: map<int, CardId>)
    requires SoundPlan(plan, t.playerCount) && AllIn(plan.tributerSeats, submissions)
    ensures Deals(t.allCards, ctx, plan, submissions, TributesOf(t, ctx, plan, submissions), t.playerCount)
    ensures TributesOf(t, ctx, plan, submissions) != []
  {
    var n, seats := t.playerCount, plan.tributerSeats;
    hide Sorted, PendingOf, InOrder, OrderOf, Clockwise;
    SortedTributes(t.allCards, ctx, plan, submissions, n);
    var sorted := Sorted(t.allCards, ctx, PendingOf(seats, submissions, |seats|), plan.headSeat, n);
    OrderFalls(t.allCards, ctx, sorted, plan.recipientSeats, |seats|, plan.headSeat, n);
    var tributes := Assigned(sorted, plan.recipientSeats, |seats|);
    assert tributes == TributesOf(t, ctx, plan, submissions);
    forall i, j | 0 <= i < |seats| && 0 <= j < |seats|
      ensures tributes[i].fromSeat != tributes[j].toSeat
    {
      assert sorted[i].fromSeat in seats;
    }
  }
}
