/** The tribute phase against the one-shot round: same hands, same tributes, same first player. */
module OneShot {
  import opened Lists
  import opened Cards
  import opened State
  import opened Seats
  import opened Turns
  import opened Hands
  import opened Pickers
  import opened Round
  import opened Tributes
  import opened Exchange
  import opened TributePhase
  import opened Confluence
  import opened AnyOrder

  /** What a completed phase says: the returns, by recipient, settle the tributes. */
  ghost predicate Settled(d0: Desk, cfg: Config, d: Desk, done: map<int, CardId>)
    requires SeatsExist(d0.table, d0.tribute.plan.tributerSeats)
  {
    var tributes, paid := DueTributes(d0, cfg), Paid(d0, cfg);
    && Pairs(tributes, |paid|) && d.table.players == Settle(paid, tributes, done, |tributes|)
    && SameButHands(d0.table, d.table) && d.tribute.plan == d0.tribute.plan
    && d.last == NO_OUTCOME.(tributes := tributes, summary := d0.tribute.plan.summary, returned := d.last.returned)
    && ReturnList(tributes, d.last.returned)
    && forall i :: 0 <= i < |tributes| ==>
         tributes[i].toSeat in done && FairReturn(d0.table.allCards, Context(d0.table, cfg), paid, tributes[i],
             done[tributes[i].toSeat])
  }

  lemma CompletedPhase(d0: Desk, cfg: Config, prev: Previous, offers: seq<Offer>)
    requires Due(d0, cfg, prev) && Complete(AfterOffers(d0, cfg, prev, offers))
    ensures var d := AfterOffers(d0, cfg, prev, offers);
              Settled(d0, cfg, d, Choices(d.last.returned, |d.last.returned|))
    ensures forall i :: 0 <= i < |d0.tribute.plan.tributerSeats| ==>
              RequiredAt(d0, cfg, d0.tribute.plan.tributerSeats[i]) != 0
  {
    hide Paying, DueTributes, Paid, AfterOffers, Settle, Choices, ReturnList, Pairs, FairReturn, RequiredTribute;
    hide PlanRound, RankSeat, SoundPlan;
    EveryOrder(d0, cfg, prev, offers);
  }

  lemma StartPlaySettled(d0: Desk, cfg: Config, prev: Previous, d: Desk, done: map<int, CardId>)
    requires Due(d0, cfg, prev) && Settled(d0, cfg, d, done)
    ensures var e := StartPlay(d, cfg, prev);
            && e.table.players == d.table.players
            && e.table.currentPlayerIndex == FirstPlayer(NO_OUTCOME.(tributes := DueTributes(d0, cfg)),
                d0.tribute.plan.headSeat, d0.table, Context(d0.table, cfg), prev)
            && e.last == d.last.(firstPlayerSeat := e.table.currentPlayerIndex,
                headTributerSeat := PayerOf(DueTributes(d0, cfg), d0.tribute.plan.headSeat, 0))
  {
    hide DueTributes, Paid, Settle, ReturnList, Pairs, FairReturn, PlanRound, RankSeat, SoundPlan, Highest, PayerOf;
    hide OrderOf;
  }

  // ----- the list of returns, up to order -----

  /** The returns in the order of the tributes. */
  function BackList(tributes: seq<Transfer>, done: map<int, CardId>, k: nat): (r: seq<Transfer>)
    requires k <= |tributes| && forall i :: 0 <= i < |tributes| ==> tributes[i].toSeat in done
    ensures |r| == k && forall i :: 0 <= i < k ==> r[i] == Back(tributes[i], done[tributes[i].toSeat])
  {
    if k == 0 then [] else BackList(tributes, done, k - 1) + [Back(tributes[k - 1], done[tributes[k - 1].toSeat])]
  }

  lemma BackListDistinct(tributes: seq<Transfer>, done: map<int, CardId>, n: int)
    requires Pairs(tributes, n) && forall i :: 0 <= i < |tributes| ==> tributes[i].toSeat in done
    ensures NoDuplicates(BackList(tributes, done, |tributes|))
  {
    var r := BackList(tributes, done, |tributes|);
    forall i, j | 0 <= i < j < |tributes|
      ensures r[i] != r[j]
    {
      PairsApart(tributes, n, i, j);
    }
  }

  /** A list of returns that names nobody twice is what the map of choices says. */
  lemma ChoiceOf(returned: seq<Transfer>, j: nat)
    requires j < |returned| && forall i, l :: 0 <= i < l < |returned| ==> returned[i].fromSeat != returned[l].fromSeat
    ensures returned[j].fromSeat in Choices(returned, |returned|)
    ensures Choices(returned, |returned|)[returned[j].fromSeat] == returned[j].cardId
  {
    ChoicesKeys(returned, |returned|);
    var l :| 0 <= l < |returned| && returned[l].fromSeat == returned[j].fromSeat
        && returned[l].cardId == Choices(returned, |returned|)[returned[j].fromSeat];
    assert l == j;
  }

  lemma ReturnedInBack(tributes: seq<Transfer>, returned: seq<Transfer>, j: nat)
    requires ReturnList(tributes, returned) && j < |returned|
    requires forall i :: 0 <= i < |tributes| ==> tributes[i].toSeat in Choices(returned, |returned|)
    ensures returned[j] in BackList(tributes, Choices(returned, |returned|), |tributes|)
  {
    ChoiceOf(returned, j);
    hide Choices, BackList;
    assert ReturnedBy(tributes, returned[j]);
    var i :| 0 <= i < |tributes| && returned[j] == Back(tributes[i], returned[j].cardId);
    assert BackList(tributes, Choices(returned, |returned|), |tributes|)[i] == returned[j];
  }

  lemma BackInReturned(tributes: seq<Transfer>, returned: seq<Transfer>, n: int, i: nat)
    requires Pairs(tributes, n) && ReturnList(tributes, returned) && i < |tributes|
    requires tributes[i].toSeat in Choices(returned, |returned|)
    ensures Back(tributes[i], Choices(returned, |returned|)[tributes[i].toSeat]) in returned
  {
    ChoicesKeys(returned, |returned|);
    hide Choices, Pairs;
    var j :| 0 <= j < |returned| && returned[j].fromSeat == tributes[i].toSeat
        && returned[j].cardId == Choices(returned, |returned|)[tributes[i].toSeat];
    assert ReturnedBy(tributes, returned[j]);
    var l :| 0 <= l < |tributes| && returned[j] == Back(tributes[l], returned[j].cardId);
    PairsApart(tributes, n, i, l);
  }

  lemma ReturnListMembers(tributes: seq<Transfer>, returned: seq<Transfer>, n: int, m: Transfer)
    requires Pairs(tributes, n) && ReturnList(tributes, returned)
    requires forall i :: 0 <= i < |tributes| ==> tributes[i].toSeat in Choices(returned, |returned|)
    ensures m in returned <==> m in BackList(tributes, Choices(returned, |returned|), |tributes|)
  {
    hide Choices, BackList, Pairs, ReturnList;
    var back := BackList(tributes, Choices(returned, |returned|), |tributes|);
    if m in returned {
      var j :| 0 <= j < |returned| && returned[j] == m;
      ReturnedInBack(tributes, returned, j);
    }
    if m in back {
      var i :| 0 <= i < |tributes| && back[i] == m;
      BackInReturned(tributes, returned, n, i);
    }
  }

  lemma ReturnListBag(tributes: seq<Transfer>, returned: seq<Transfer>, n: int)
    requires Pairs(tributes, n) && ReturnList(tributes, returned)
    requires forall i :: 0 <= i < |tributes| ==> tributes[i].toSeat in Choices(returned, |returned|)
    ensures multiset(returned) == multiset(BackList(tributes, Choices(returned, |returned|), |tributes|))
  {
    hide Choices, BackList;
    BackListDistinct(tributes, Choices(returned, |returned|), n);
    forall m
      ensures m in returned <==> m in BackList(tributes, Choices(returned, |returned|), |tributes|)
    {
      ReturnListMembers(tributes, returned, n, m);
    }
    SameMembersSameBag(returned, BackList(tributes, Choices(returned, |returned|), |tributes|));
  }

  // ----- the theorems -----

  /** Two rounds in which the same recipients return the same cards end alike, in whatever order the
      tributes and returns came. */
  lemma OrderDoesNotMatter(d0: Desk, cfg: Config, prev: Previous, a: seq<Offer>, b: seq<Offer>)
    requires Due(d0, cfg, prev) && Complete(AfterOffers(d0, cfg, prev, a)) && Complete(AfterOffers(d0, cfg, prev, b))
    requires var x, y := AfterOffers(d0, cfg, prev, a).last.returned, AfterOffers(d0, cfg, prev, b).last.returned;
             Choices(x, |x|) == Choices(y, |y|)
    ensures var x, y := StartPlay(AfterOffers(d0, cfg, prev, a), cfg, prev),
              StartPlay(AfterOffers(d0, cfg, prev, b), cfg, prev);
            && x.table.players == y.table.players && x.table.currentPlayerIndex == y.table.currentPlayerIndex
            && x.last == y.last.(returned := x.last.returned) && multiset(x.last.returned) == multiset(y.last.returned)
  {
    hide AfterOffers, StartPlay, Complete, PlanRound, RankSeat, SoundPlan, PermRanks, Choices, Settle, DueTributes;
    hide Paid, Pairs, ReturnList, FairReturn, BackList;
    var x, y := AfterOffers(d0, cfg, prev, a), AfterOffers(d0, cfg, prev, b);
    var done := Choices(x.last.returned, |x.last.returned|);
    CompletedPhase(d0, cfg, prev, a);
    CompletedPhase(d0, cfg, prev, b);
    StartPlaySettled(d0, cfg, prev, x, done);
    StartPlaySettled(d0, cfg, prev, y, done);
    ReturnListBag(DueTributes(d0, cfg), x.last.returned, |Paid(d0, cfg)|);
    ReturnListBag(DueTributes(d0, cfg), y.last.returned, |Paid(d0, cfg)|);
  }

  /** Every recipient returned what the bot would have returned from the hand it had after the tributes. */
  ghost predicate BotReturns(d0: Desk, cfg: Config, done: map<int, CardId>)
    requires SeatsExist(d0.table, d0.tribute.plan.tributerSeats)
  {
    forall i :: 0 <= i < |DueTributes(d0, cfg)| ==>
      var s := DueTributes(d0, cfg)[i].toSeat;
      0 <= s < |d0.table.players| && s in done
          && done[s] == PickReturn(d0.table.allCards, Context(d0.table, cfg), Paid(d0, cfg)[s].hand)
  }

  lemma {:induction false} ReturnsAreBackList(all: seq<Card>, ctx: RuleContext, p: seq<Player>,
      tributes: seq<Transfer>, done: map<int, CardId>, k: nat)
    requires Pairs(tributes, |p|) && k <= |tributes|
    requires forall i :: 0 <= i < |tributes| ==>
               var s := tributes[i].toSeat; s in done && done[s] == PickReturn(all, ctx, p[s].hand) != 0
    ensures ReturnsFrom(all, ctx, p, tributes, k) == (Settle(p, tributes, done, k), BackList(tributes, done, k))
  {
    hide MoveCard, PickReturn;
    if k > 0 {
      ReturnsAreBackList(all, ctx, p, tributes, done, k - 1);
      PendingHand(p, tributes, done, k - 1, k - 1);
    }
  }

  /** If the recipients return the bot's choices, the phase ends like the one-shot round: the same hands,
      the same tributes, the same returns up to their order, the same first player. */
  lemma BotIsOneShot(d0: Desk, cfg: Config, prev: Previous, offers: seq<Offer>)
    requires Due(d0, cfg, prev) && Complete(AfterOffers(d0, cfg, prev, offers))
    requires var returned := AfterOffers(d0, cfg, prev, offers).last.returned;
               BotReturns(d0, cfg, Choices(returned, |returned|))
    ensures var e := StartPlay(AfterOffers(d0, cfg, prev, offers), cfg, prev);
            var r := Resolve(d0.table, cfg, prev, Context(d0.table, cfg));
            && e.table.players == r.0 && e.last == r.1.(returned := e.last.returned)
                && multiset(e.last.returned) == multiset(r.1.returned)
            && e.table.currentPlayerIndex == r.1.firstPlayerSeat
  {
    hide AfterOffers, StartPlay, Complete, PlanRound, RankSeat, SoundPlan, PermRanks, Choices, Settle, Pairs;
    hide ReturnList, FairReturn, BackList;
    hide DueTributes, Paid, RequiredFrom, ReturnsFrom, TributesOf, MoveCards, FirstPlayer, PayerOf, AssignSummary;
    hide Resolve;
    var d := AfterOffers(d0, cfg, prev, offers);
    var done := Choices(d.last.returned, |d.last.returned|);
    CompletedPhase(d0, cfg, prev, offers);
    StartPlaySettled(d0, cfg, prev, d, done);
    ReturnListBag(DueTributes(d0, cfg), d.last.returned, |Paid(d0, cfg)|);
    FairNonZero(d0, cfg, d, done);
    ReturnsAreBackList(d0.table.allCards, Context(d0.table, cfg), Paid(d0, cfg), DueTributes(d0, cfg), done,
        |DueTributes(d0, cfg)|);
    ResolveIs(d0, cfg, prev);
  }

  lemma FairNonZero(d0: Desk, cfg: Config, d: Desk, done: map<int, CardId>)
    requires SeatsExist(d0.table, d0.tribute.plan.tributerSeats) && Settled(d0, cfg, d, done)
    ensures forall i :: 0 <= i < |DueTributes(d0, cfg)| ==>
              DueTributes(d0, cfg)[i].toSeat in done && done[DueTributes(d0, cfg)[i].toSeat] != 0
  {
    hide DueTributes, Paid, Settle, ReturnList, Pairs;
  }

  /** The one-shot round, when every tributer has a card to pay. */
  lemma ResolveIs(d0: Desk, cfg: Config, prev: Previous)
    requires Due(d0, cfg, prev)
    requires forall i :: 0 <= i < |d0.tribute.plan.tributerSeats| ==>
               RequiredAt(d0, cfg, d0.tribute.plan.tributerSeats[i]) != 0
    ensures var tributes := DueTributes(d0, cfg); var ctx := Context(d0.table, cfg);
            && Pairs(tributes, |Paid(d0, cfg)|)
            && var back := ReturnsFrom(d0.table.allCards, ctx, Paid(d0, cfg), tributes, |tributes|);
               Resolve(d0.table, cfg, prev, ctx) ==
                 (back.0, NO_OUTCOME.(tributes := tributes, returned := back.1, summary := d0.tribute.plan.summary,
                                     headTributerSeat := PayerOf(tributes, d0.tribute.plan.headSeat, 0),
                                     firstPlayerSeat := FirstPlayer(NO_OUTCOME.(tributes := tributes),
                                         d0.tribute.plan.headSeat, d0.table, ctx, prev)))
  {
    hide RequiredFrom, RequiredTribute, TributesOf, MoveCards, ReturnsFrom, Sorted, PendingOf, PlanRound, RankSeat;
    hide Deals, Highest, PayerOf, Pairs;
    var t, ctx, plan := d0.table, Context(d0.table, cfg), d0.tribute.plan;
    var submissions := RequiredFrom(t, ctx, plan.tributerSeats, |plan.tributerSeats|);
    AllRequired(d0, cfg);
    TributesDeal(t, ctx, plan, submissions);
    DealsPairs(t.allCards, ctx, plan, submissions, DueTributes(d0, cfg), t.playerCount, |t.players|);
    PendingAll(plan.tributerSeats, submissions, |plan.tributerSeats|);
  }

  lemma AllRequired(d0: Desk, cfg: Config)
    requires SeatsExist(d0.table, d0.tribute.plan.tributerSeats)
    requires forall i :: 0 <= i < |d0.tribute.plan.tributerSeats| ==>
               RequiredAt(d0, cfg, d0.tribute.plan.tributerSeats[i]) != 0
    ensures var seats := d0.tribute.plan.tributerSeats;
              AllIn(seats, RequiredFrom(d0.table, Context(d0.table, cfg), seats, |seats|))
  {
    hide RequiredFrom, RequiredTribute;
    var seats := d0.tribute.plan.tributerSeats;
    assert seats[..|seats|] == seats;
    forall i | 0 <= i < |seats|
      ensures var m := RequiredFrom(d0.table, Context(d0.table, cfg), seats, |seats|); seats[i] in m && m[seats[i]] != 0
    {
      RequiredFromAre(d0.table, Context(d0.table, cfg), seats, |seats|, seats[i]);
      assert seats[i] in seats[..|seats|];
    }
  }

  /** Play begins, with the hands as the returns left them, at the payer of the one highest tribute, or, if
      the highest tie, at the last seat of the last round. */
  lemma FirstAfterTribute(d0: Desk, cfg: Config, prev: Previous, offers: seq<Offer>)
    requires Due(d0, cfg, prev) && Complete(AfterOffers(d0, cfg, prev, offers))
    ensures var d := AfterOffers(d0, cfg, prev, offers);
            var e := StartPlay(d, cfg, prev);
            var first := e.table.currentPlayerIndex;
            var tributes, all, ctx := e.last.tributes, d0.table.allCards, Context(d0.table, cfg);
            && e.table.phase == Playing && e.table.players == d.table.players && e.table.firstPlayerIndex == first
            && tributes == DueTributes(d0, cfg)
            && (forall i :: Outranks(all, ctx, tributes, |tributes|, i) ==> first == tributes[i].fromSeat)
            && ((forall i :: !Outranks(all, ctx, tributes, |tributes|, i)) ==>
                  first == RankSeat(prev.ranks, d0.table.playerCount, d0.table.playerCount))
  {
    hide AfterOffers, Complete, PlanRound, RankSeat, SoundPlan, Choices, Settled, TributesOf, FirstPlayer, OrderOf;
    hide RequiredTribute, RequiredFrom, Pairs, DueTributes, Outranks, PayerOf;
    var d := AfterOffers(d0, cfg, prev, offers);
    var done := Choices(d.last.returned, |d.last.returned|);
    CompletedPhase(d0, cfg, prev, offers);
    StartPlaySettled(d0, cfg, prev, d, done);
    SettledTributes(d0, cfg, d, done);
    SomeTribute(d0, cfg);
    FirstPlayerMeaning(NO_OUTCOME.(tributes := DueTributes(d0, cfg)), d0.tribute.plan.headSeat, d0.table,
                       Context(d0.table, cfg), prev);
  }

  lemma SomeTribute(d0: Desk, cfg: Config)
    requires SeatsExist(d0.table, d0.tribute.plan.tributerSeats) && SoundPlan(d0.tribute.plan, d0.table.playerCount)
    requires forall i :: 0 <= i < |d0.tribute.plan.tributerSeats| ==>
               RequiredAt(d0, cfg, d0.tribute.plan.tributerSeats[i]) != 0
    ensures DueTributes(d0, cfg) != []
  {
    hide RequiredFrom, RequiredTribute, TributesOf, RankSeat, PlanRound;
    var plan := d0.tribute.plan;
    AllRequired(d0, cfg);
    TributesDeal(d0.table, Context(d0.table, cfg), plan,
                 RequiredFrom(d0.table, Context(d0.table, cfg), plan.tributerSeats, |plan.tributerSeats|));
  }

  /** The first place of the last round receives the highest tribute, and its payer is recorded as such. */
  lemma HeadGetsHighest(d0: Desk, cfg: Config, prev: Previous, offers: seq<Offer>)
    requires Due(d0, cfg, prev) && Complete(AfterOffers(d0, cfg, prev, offers))
    ensures var last := StartPlay(AfterOffers(d0, cfg, prev, offers), cfg, prev).last;
            && last.tributes != [] && last.tributes[0].toSeat == RankSeat(prev.ranks, d0.table.playerCount, 1)
            && last.headTributerSeat == last.tributes[0].fromSeat
            && forall i :: 0 <= i < |last.tributes| ==>
                 OrderOf(d0.table.allCards, Context(d0.table, cfg), last.tributes[0]) >= OrderOf(d0.table.allCards,
                     Context(d0.table, cfg), last.tributes[i])
  {
    hide AfterOffers, StartPlay, Complete, RankSeat, Choices, Settled, TributesOf, FirstPlayer, OrderOf;
    hide RequiredTribute, RequiredFrom, Pairs;
    var d := AfterOffers(d0, cfg, prev, offers);
    var done := Choices(d.last.returned, |d.last.returned|);
    var t, ctx, plan := d0.table, Context(d0.table, cfg), d0.tribute.plan;
    CompletedPhase(d0, cfg, prev, offers);
    StartPlaySettled(d0, cfg, prev, d, done);
    var submissions := RequiredFrom(t, ctx, plan.tributerSeats, |plan.tributerSeats|);
    AllRequired(d0, cfg);
    TributesDeal(t, ctx, plan, submissions);
    SettledTributes(d0, cfg, d, done);
  }

  lemma SettledTributes(d0: Desk, cfg: Config, d: Desk, done: map<int, CardId>)
    requires SeatsExist(d0.table, d0.tribute.plan.tributerSeats) && Settled(d0, cfg, d, done)
    ensures d.last.tributes == DueTributes(d0, cfg)
  {
    hide DueTributes, Paid, Settle, ReturnList, Pairs, FairReturn;
  }

  /** The player who begins after the tribute phase is always one of those who paid. */
  lemma PayerBegins(d0: Desk, cfg: Config, prev: Previous, offers: seq<Offer>)
    requires Due(d0, cfg, prev) && Complete(AfterOffers(d0, cfg, prev, offers))
    ensures StartPlay(AfterOffers(d0, cfg, prev, offers), cfg, prev).table.currentPlayerIndex
              in d0.tribute.plan.tributerSeats
  {
    hide AfterOffers, StartPlay, Complete, PlanRound, RankSeat, SoundPlan, Choices, Settled, TributesOf, FirstPlayer;
    hide OrderOf, RequiredTribute, RequiredFrom, Pairs;
    var d := AfterOffers(d0, cfg, prev, offers);
    var done := Choices(d.last.returned, |d.last.returned|);
    var t, ctx, plan := d0.table, Context(d0.table, cfg), d0.tribute.plan;
    CompletedPhase(d0, cfg, prev, offers);
    StartPlaySettled(d0, cfg, prev, d, done);
    var submissions := RequiredFrom(t, ctx, plan.tributerSeats, |plan.tributerSeats|);
    AllRequired(d0, cfg);
    TributesDeal(t, ctx, plan, submissions);
    var tributes := DueTributes(d0, cfg);
    FirstPlayerMeaning(NO_OUTCOME.(tributes := tributes), plan.headSeat, t, ctx, prev);
    if i :| Outranks(t.allCards, ctx, tributes, |tributes|, i) {
      assert tributes[i].fromSeat in plan.tributerSeats;
    }
  }
}
