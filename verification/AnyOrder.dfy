/** The tribute phase, whatever the order of the submissions. */
module AnyOrder {
  import opened Lists
  import opened Cards
  import opened State
  import opened Seats
  import opened Turns
  import opened Hands
  import opened Pickers
  import opened Round
  import opened Tributes
  import opened Exchange
  import opened TributePhase
  import opened Confluence

  /** The phase as the deal leaves it: the plan is made and nothing has been submitted. */
  ghost predicate Due(d: Desk, cfg: Config, prev: Previous) {
    && Placed(d.table) && d.table.phase == Tribute && |prev.ranks| == MAX_PLAYERS
        && PermRanks(prev.ranks, d.table.playerCount)
    && var plan := d.tribute.plan;
       && plan == PlanRound(d.table, cfg, prev) && !plan.skipped && !plan.antiTribute
           && SoundPlan(plan, d.table.playerCount)
       && RankSeat(prev.ranks, d.table.playerCount, d.table.playerCount) in plan.tributerSeats
       && d.tribute == TributeState(true, plan, map[], plan.tributerSeats, [], map[]) && d.last == NO_OUTCOME
  }

  function RequiredAt(d: Desk, cfg: Config, s: int): CardId
    requires 0 <= s < |d.table.players|
  {
    RequiredTribute(d.table.allCards, Context(d.table, cfg), d.table.players[s].hand)
  }

  /** The tributes of the one-shot round. */
  function DueTributes(d: Desk, cfg: Config): seq<Transfer>
    requires SeatsExist(d.table, d.tribute.plan.tributerSeats)
  {
    var plan := d.tribute.plan;
    TributesOf(d.table, Context(d.table, cfg), plan,
        RequiredFrom(d.table, Context(d.table, cfg), plan.tributerSeats, |plan.tributerSeats|))
  }

  /** The players once those tributes are paid. */
  function Paid(d: Desk, cfg: Config): (p: seq<Player>)
    requires SeatsExist(d.table, d.tribute.plan.tributerSeats)
    ensures |p| == |d.table.players|
  {
    MoveCards(d.table.players, DueTributes(d, cfg), |DueTributes(d, cfg)|)
  }

  /** The returns so far, by recipient. */
  function Choices(returned: seq<Transfer>, k: nat): map<int, CardId>
    requires k <= |returned|
  {
    if k == 0 then map[] else Choices(returned, k - 1)[returned[k - 1].fromSeat := returned[k - 1].cardId]
  }

  ghost predicate SameButHands(t: Table, u: Table) {
    u == t.(players := u.players, phase := u.phase, stateVersion := u.stateVersion) && |u.players| == |t.players|
  }

  /** Submitted tributes are the required cards. */
  ghost predicate Submitted(d0: Desk, cfg: Config, submissions: map<int, CardId>) {
    forall s :: s in submissions ==> s in d0.tribute.plan.tributerSeats && 0 <= s < |d0.table.players|
                                     && submissions[s] == RequiredAt(d0, cfg, s) != 0
  }

  ghost predicate Paying(d0: Desk, cfg: Config, d: Desk) {
    && d.table.phase == Tribute && d.table.players == d0.table.players && d.last == NO_OUTCOME
    && Submitted(d0, cfg, d.tribute.submissions) && d.tribute.pendingTributers != []
    && forall s :: s in d.tribute.pendingTributers <==>
        s in d0.tribute.plan.tributerSeats && s !in d.tribute.submissions
  }

  /** A card was returned by a recipient that may return it. */
  ghost predicate FairReturn(all: seq<Card>, ctx: RuleContext, p: seq<Player>, m: Transfer, card: CardId) {
    0 <= m.toSeat < |p| && ValidReturnSubmission(all, ctx, p[m.toSeat].hand, card)
  }

  ghost predicate ReturnedBy(tributes: seq<Transfer>, r: Transfer) {
    exists i :: 0 <= i < |tributes| && r == Back(tributes[i], r.cardId)
  }

  /** The list of returns names each recipient at most once, with the payer it got its card from. */
  ghost predicate ReturnList(tributes: seq<Transfer>, returned: seq<Transfer>) {
    && (forall j :: 0 <= j < |returned| ==> ReturnedBy(tributes, returned[j]))
    && (forall i, j :: 0 <= i < j < |returned| ==> returned[i].fromSeat != returned[j].fromSeat)
  }

  ghost predicate Returning(all: seq<Card>, ctx: RuleContext, paid: seq<Player>, tributes: seq<Transfer>, d: Desk) {
    && Pairs(tributes, |paid|) && ReturnList(tributes, d.last.returned)
    && var done := Choices(d.last.returned, |d.last.returned|);
       && d.table.players == Settle(paid, tributes, done, |tributes|)
       && (forall s :: s in d.tribute.pendingReturnSeats ==> exists i :: 0 <= i < |tributes| && tributes[i].toSeat == s)
       && forall i :: 0 <= i < |tributes| ==> var s := tributes[i].toSeat;
            && (s in d.tribute.pendingReturnSeats <==> s !in done)
            && (s in done ==> FairReturn(all, ctx, paid, tributes[i], done[s]))
            && s in d.tribute.returnToTributer && d.tribute.returnToTributer[s] == tributes[i].fromSeat
  }

  ghost predicate PhaseInv(d0: Desk, cfg: Config, d: Desk)
    requires SeatsExist(d0.table, d0.tribute.plan.tributerSeats)
  {
    && SameButHands(d0.table, d.table) && d.tribute.active && d.tribute.plan == d0.tribute.plan
    && if d.table.phase == Tribute then Paying(d0, cfg, d)
       else
         && d.table.phase == ReturnTribute
         && (forall i :: 0 <= i < |d0.tribute.plan.tributerSeats| ==>
             RequiredAt(d0, cfg, d0.tribute.plan.tributerSeats[i]) != 0)
         && d.last == NO_OUTCOME.(tributes := DueTributes(d0, cfg), summary := d0.tribute.plan.summary,
             returned := d.last.returned)
         && Returning(d0.table.allCards, Context(d0.table, cfg), Paid(d0, cfg), DueTributes(d0, cfg), d)
  }

  // ----- the submitted cards are the required ones -----

  lemma {:induction false} RequiredFromAre(t: Table, ctx: RuleContext, seats: seq<int>, k: nat, s: int)
    requires SeatsExist(t, seats) && k <= |seats| && 0 <= s < |t.players|
    ensures var id := RequiredTribute(t.allCards, ctx, t.players[s].hand); var m := RequiredFrom(t, ctx, seats, k);
            && (s in m <==> id != 0 && s in seats[..k]) && (s in m ==> m[s] == id)
  {
    hide RequiredTribute;
    if k > 0 {
      RequiredFromAre(t, ctx, seats, k - 1, s);
      assert seats[..k] == seats[..k - 1] + [seats[k - 1]];
    }
  }

  lemma {:induction false} RequiredFromKeys(t: Table, ctx: RuleContext, seats: seq<int>, k: nat)
    requires SeatsExist(t, seats) && k <= |seats|
    ensures forall s :: s in RequiredFrom(t, ctx, seats, k) ==> s in seats && 0 <= s < |t.players|
  {
    hide RequiredTribute;
    if k > 0 {
      RequiredFromKeys(t, ctx, seats, k - 1);
    }
  }

  lemma AllSubmitted(d0: Desk, cfg: Config, submissions: map<int, CardId>)
    requires SeatsExist(d0.table, d0.tribute.plan.tributerSeats) && Submitted(d0, cfg, submissions)
    requires forall s :: s in d0.tribute.plan.tributerSeats ==> s in submissions
    ensures submissions == RequiredFrom(d0.table, Context(d0.table, cfg), d0.tribute.plan.tributerSeats,
              |d0.tribute.plan.tributerSeats|)
  {
    hide RequiredFrom, RequiredTribute;
    var t, ctx, seats := d0.table, Context(d0.table, cfg), d0.tribute.plan.tributerSeats;
    var m := RequiredFrom(t, ctx, seats, |seats|);
    RequiredFromKeys(t, ctx, seats, |seats|);
    assert seats[..|seats|] == seats;
    forall s
      ensures s in m <==> s in submissions
      ensures s in m ==> submissions[s] == m[s]
    {
      if 0 <= s < |t.players| {
        RequiredFromAre(t, ctx, seats, |seats|, s);
      }
    }
  }

  lemma PaySubmitted(d0: Desk, cfg: Config, d: Desk, s: int, card: CardId)
    requires SeatsExist(d0.table, d0.tribute.plan.tributerSeats) && PhaseInv(d0, cfg, d) && d.table.phase == Tribute
    requires s in d.tribute.pendingTributers && 0 <= s < |d.table.players|
    requires ValidTributeSubmission(d.table.allCards, Context(d.table, cfg), d.table.players[s].hand, card)
    ensures Submitted(d0, cfg, d.tribute.submissions[s := card])
    ensures forall x :: x in Erase(d.tribute.pendingTributers, s) <==>
                        x in d0.tribute.plan.tributerSeats && x !in d.tribute.submissions[s := card]
  {
    hide RequiredTribute, Returning, DueTributes, Paid;
  }

  lemma FirstReturns(d0: Desk, cfg: Config, d: Desk, tributes: seq<Transfer>, paid: seq<Player>)
    requires Pairs(tributes, |paid|) && d.last.returned == [] && d.table.players == paid
    requires d.tribute.pendingReturnSeats == Recipients(tributes, |tributes|)
    requires d.tribute.returnToTributer == Payers(tributes, |tributes|)
    ensures Returning(d0.table.allCards, Context(d0.table, cfg), paid, tributes, d)
  {
    hide Settle, FairReturn, Recipients, Payers;
    SettleNone(paid, tributes, |tributes|);
    forall i | 0 <= i < |tributes|
      ensures d.tribute.returnToTributer[tributes[i].toSeat] == tributes[i].fromSeat
      ensures tributes[i].toSeat in d.tribute.pendingReturnSeats
    {
      var s := tributes[i].toSeat;
      var j :| 0 <= j < |tributes| && tributes[j].toSeat == s && d.tribute.returnToTributer[s] == tributes[j].fromSeat;
      PairsApart(tributes, |paid|, i, j);
      assert Recipients(tributes, |tributes|)[i] == s;
    }
  }

  lemma {:induction false} SettleNone(p: seq<Player>, tributes: seq<Transfer>, k: nat)
    requires k <= |tributes|
    ensures Settle(p, tributes, map[], k) == p
  {
    if k > 0 {
      SettleNone(p, tributes, k - 1);
    }
  }

  /** The last submission makes the cards change hands exactly as in the one-shot round. */
  lemma CollectStarts(d0: Desk, cfg: Config, prev: Previous, d: Desk)
    requires Due(d0, cfg, prev) && SameButHands(d0.table, d.table) && d.table.players == d0.table.players
    requires d.last == NO_OUTCOME
    requires d.tribute.active && d.tribute.plan == d0.tribute.plan && Submitted(d0, cfg, d.tribute.submissions)
    requires forall s :: s in d0.tribute.plan.tributerSeats ==> s in d.tribute.submissions
    ensures PhaseInv(d0, cfg, Collect(d, cfg, prev)) && Collect(d, cfg, prev).table.phase == ReturnTribute
  {
    hide RequiredFrom, RequiredTribute, TributesOf, MoveCards, Returning, Sorted, PendingOf, Recipients, Payers;
    hide PlanRound, RankSeat, Deals;
    var t, ctx, plan := d0.table, Context(d0.table, cfg), d0.tribute.plan;
    AllSubmitted(d0, cfg, d.tribute.submissions);
    var tributes := DueTributes(d0, cfg);
    SameTributes(t, d.table, ctx, plan, d.tribute.submissions);
    TributesDeal(t, ctx, plan, d.tribute.submissions);
    DealsPairs(t.allCards, ctx, plan, d.tribute.submissions, tributes, t.playerCount, |t.players|);
    PendingAll(plan.tributerSeats, d.tribute.submissions, |plan.tributerSeats|);
    FirstReturns(d0, cfg, Collect(d, cfg, prev), tributes, Paid(d0, cfg));
  }

  lemma SameTributes(t: Table, u: Table, ctx: RuleContext, plan: Plan, submissions: map<int, CardId>)
    requires SameButHands(t, u)
    ensures TributesOf(u, ctx, plan, submissions) == TributesOf(t, ctx, plan, submissions)
  {
    hide Sorted, PendingOf, Assigned;
  }

  lemma DealsPairs(all: seq<Card>, ctx: RuleContext, plan: Plan, submissions: map<int, CardId>,
      tributes: seq<Transfer>, n: int, size: int)
    requires Deals(all, ctx, plan, submissions, tributes, n) && n <= size
    ensures Pairs(tributes, n) && Pairs(tributes, size)
  {
  }

  lemma PayStep(d0: Desk, cfg: Config, prev: Previous, d: Desk, o: Offer)
    requires Due(d0, cfg, prev) && PhaseInv(d0, cfg, d) && o.Pay? && OfferCode(d, cfg, o) == Ok
    ensures PhaseInv(d0, cfg, AfterOffer(d, cfg, prev, o))
  {
    hide Collect, Submitted, Returning, DueTributes, Paid, PlanRound, RankSeat, RequiredTribute, SoundPlan, RequiredAt;
    var s := SeatOf(d.table, o.player);
    PaySubmitted(d0, cfg, d, s, o.card);
    var tribute := d.tribute.(submissions := d.tribute.submissions[s := o.card],
        pendingTributers := Erase(d.tribute.pendingTributers, s));
    var d' := Desk(d.table.(stateVersion := d.table.stateVersion + 1), tribute, d.last);
    if tribute.pendingTributers == [] {
      CollectStarts(d0, cfg, prev, d');
    }
  }

  lemma {:induction false} ChoicesKeys(returned: seq<Transfer>, k: nat)
    requires k <= |returned|
    ensures forall j :: 0 <= j < k ==> returned[j].fromSeat in Choices(returned, k)
    ensures forall s :: s in Choices(returned, k) ==>
              exists j :: 0 <= j < k && returned[j].fromSeat == s && returned[j].cardId == Choices(returned, k)[s]
  {
    if k > 0 {
      ChoicesKeys(returned, k - 1);
    }
  }

  lemma {:induction false} ChoicesPrefix(a: seq<Transfer>, b: seq<Transfer>, k: nat)
    requires k <= |a| && a <= b
    ensures Choices(a, k) == Choices(b, k)
  {
    if k > 0 {
      ChoicesPrefix(a, b, k - 1);
    }
  }

  lemma ReturnListSnoc(tributes: seq<Transfer>, returned: seq<Transfer>, i: nat, card: CardId)
    requires ReturnList(tributes, returned) && i < |tributes| && tributes[i].toSeat !in Choices(returned, |returned|)
    ensures ReturnList(tributes, returned + [Back(tributes[i], card)])
    ensures Choices(returned + [Back(tributes[i], card)], |returned| + 1) ==
              Choices(returned, |returned|)[tributes[i].toSeat := card]
  {
    ChoicesKeys(returned, |returned|);
    ChoicesPrefix(returned, returned + [Back(tributes[i], card)], |returned|);
    assert ReturnedBy(tributes, Back(tributes[i], card));
  }

  /** A recipient that has not returned a card yet, by its place among the tributes. */
  lemma PendingPlace(all: seq<Card>, ctx: RuleContext, paid: seq<Player>, tributes: seq<Transfer>, d: Desk, s: int)
      returns (i: nat)
    requires Returning(all, ctx, paid, tributes, d) && s in d.tribute.pendingReturnSeats
    ensures i < |tributes| && tributes[i].toSeat == s && s !in Choices(d.last.returned, |d.last.returned|)
    ensures |d.table.players| == |paid| && 0 <= s < |paid| && d.table.players[s] == paid[s]
    ensures s in d.tribute.returnToTributer && d.tribute.returnToTributer[s] == tributes[i].fromSeat
  {
    hide Settle, FairReturn, Choices;
    i :| 0 <= i < |tributes| && tributes[i].toSeat == s;
    PendingHand(paid, tributes, Choices(d.last.returned, |d.last.returned|), |tributes|, i);
  }

  /** One more return keeps the invariant, whoever makes it. */
  lemma ReturnStep(all: seq<Card>, ctx: RuleContext, paid: seq<Player>, tributes: seq<Transfer>, d: Desk, s: int,
      card: CardId)
    requires Returning(all, ctx, paid, tributes, d) && s in d.tribute.pendingReturnSeats && 0 <= s < |d.table.players|
    requires ValidReturnSubmission(all, ctx, d.table.players[s].hand, card)
    ensures Returning(all, ctx, paid, tributes, AfterReturn(d, s, card))
  {
    hide Settle, Choices, MoveCard, ValidReturnSubmission, ReturnList;
    var i := PendingPlace(all, ctx, paid, tributes, d, s);
    var done := Choices(d.last.returned, |d.last.returned|);
    ReturnListSnoc(tributes, d.last.returned, i, card);
    SettleAdd(paid, tributes, done, i, card, |tributes|);
    forall j | 0 <= j < |tributes|
      ensures tributes[j].toSeat == s ==> j == i
    {
      PairsApart(tributes, |paid|, i, j);
    }
  }

  lemma GiveBackStep(d0: Desk, cfg: Config, prev: Previous, d: Desk, o: Offer)
    requires Due(d0, cfg, prev) && PhaseInv(d0, cfg, d) && o.GiveBack? && OfferCode(d, cfg, o) == Ok
    ensures PhaseInv(d0, cfg, AfterOffer(d, cfg, prev, o))
  {
    hide Returning, DueTributes, Paid, PlanRound, RankSeat, RequiredTribute, SoundPlan, RequiredAt;
    hide ValidReturnSubmission, MoveCard;
    var s := SeatOf(d.table, o.player);
    ReturnStep(d0.table.allCards, Context(d0.table, cfg), Paid(d0, cfg), DueTributes(d0, cfg), d, s, o.card);
  }

  /** Whatever is submitted, in whatever order, the phase stays on its course. */
  lemma {:induction false} EveryOrder(d0: Desk, cfg: Config, prev: Previous, offers: seq<Offer>)
    requires Due(d0, cfg, prev)
    ensures PhaseInv(d0, cfg, AfterOffers(d0, cfg, prev, offers))
  {
    hide PhaseInv, AfterOffer, OfferCode;
    if offers == [] {
      DueInv(d0, cfg, prev);
    } else {
      var k := |offers| - 1;
      var d, o := AfterOffers(d0, cfg, prev, offers[..k]), offers[k];
      EveryOrder(d0, cfg, prev, offers[..k]);
      if OfferCode(d, cfg, o) != Ok {
        OfferRefused(d, cfg, prev, o);
      } else if o.Pay? {
        PayStep(d0, cfg, prev, d, o);
      } else {
        GiveBackStep(d0, cfg, prev, d, o);
      }
    }
  }

  lemma DueInv(d0: Desk, cfg: Config, prev: Previous)
    requires Due(d0, cfg, prev)
    ensures PhaseInv(d0, cfg, d0)
  {
    hide PlanRound, RankSeat, DueTributes, Paid, Returning;
  }

  lemma OfferRefused(d: Desk, cfg: Config, prev: Previous, o: Offer)
    requires Placed(d.table) && d.table.playerCount <= |prev.ranks| && OfferCode(d, cfg, o) != Ok
    ensures AfterOffer(d, cfg, prev, o) == d
  {
    hide OfferCode, AfterTribute, AfterReturn;
  }
}
