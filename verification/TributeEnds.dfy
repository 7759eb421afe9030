/** What the tribute phase keeps, and exactly when it can be completed. */
module TributeEnds {
  import opened Lists
  import opened Cards
  import opened State
  import opened Seats
  import opened Turns
  import opened Hands
  import opened Decks
  import opened Pickers
  import opened Round
  import opened Runs
  import opened Conservation
  import opened Liveness
  import opened Tributes
  import opened Exchange
  import opened TributePhase
  import opened Confluence
  import opened AnyOrder
  import opened OneShot

  // ----- cards and seats -----

  /** The same seats with other hands. */
  ghost predicate OnlyHands(p: seq<Player>, q: seq<Player>) {
    |p| == |q| && forall s :: 0 <= s < |p| ==> q[s] == p[s].(hand := q[s].hand)
  }

  lemma OnlyHandsSeats(p: seq<Player>, q: seq<Player>)
    requires OnlyHands(p, q)
    ensures SameSeats(p, q)
  {
  }

  lemma MoveSeats(p: seq<Player>, m: Transfer)
    ensures OnlyHands(p, MoveCard(p, m))
  {
    hide HandAfter;
  }

  lemma {:induction false} MovesSeats(p: seq<Player>, moves: seq<Transfer>, k: nat)
    requires k <= |moves|
    ensures OnlyHands(p, MoveCards(p, moves, k))
  {
    hide MoveCard;
    if k > 0 {
      MovesSeats(p, moves, k - 1);
      MoveSeats(MoveCards(p, moves, k - 1), moves[k - 1]);
    }
  }

  lemma TakeOneCard(hand: seq<CardId>, id: CardId)
    requires id in hand
    ensures multiset(HandAfter(hand, [id])) + multiset{id} == multiset(hand)
    ensures |HandAfter(hand, [id])| + 1 == |hand|
  {
    WithoutBag(hand, id);
    assert RemoveEach(hand, [id]) == RemoveEach(Without(hand, id), []);
  }

  /** A transfer between seats of the game moves a card and loses none. */
  lemma MovePoolKept(p: seq<Player>, m: Transfer, n: int)
    requires 0 <= n <= |p| && m.fromSeat < n && m.toSeat < n
    ensures Pool(HandsOf(MoveCard(p, m)), n) == Pool(HandsOf(p), n)
  {
    hide HandAfter, Pool;
    if CanMove(p, m) {
      var taken := Take(p, m.fromSeat, m.cardId);
      TakeOneCard(p[m.fromSeat].hand, m.cardId);
      PoolExchange(HandsOf(p), HandsOf(taken), m.fromSeat, n);
      PoolExchange(HandsOf(taken), HandsOf(Give(taken, m.toSeat, m.cardId)), m.toSeat, n);
      CancelBags(Pool(HandsOf(p), n), Pool(HandsOf(taken), n), multiset(p[m.fromSeat].hand),
          multiset(taken[m.fromSeat].hand), m.cardId);
      CancelBags(Pool(HandsOf(MoveCard(p, m)), n), Pool(HandsOf(taken), n),
                 multiset(MoveCard(p, m)[m.toSeat].hand), multiset(taken[m.toSeat].hand), m.cardId);
    }
  }

  lemma CancelBags(big: multiset<CardId>, small: multiset<CardId>, more: multiset<CardId>, less: multiset<CardId>,
      id: CardId)
    requires big + less == small + more && more == less + multiset{id}
    ensures big == small + multiset{id}
  {
    assert small + more == (small + multiset{id}) + less;
    assert big == big + less - less;
    assert small + multiset{id} == (small + multiset{id}) + less - less;
  }

  lemma {:induction false} MovesPoolKept(p: seq<Player>, moves: seq<Transfer>, k: nat, n: int)
    requires k <= |moves| && 0 <= n <= |p|
    requires forall i :: 0 <= i < |moves| ==> moves[i].fromSeat < n && moves[i].toSeat < n
    ensures Pool(HandsOf(MoveCards(p, moves, k)), n) == Pool(HandsOf(p), n)
  {
    hide MoveCard, Pool;
    if k > 0 {
      MovesPoolKept(p, moves, k - 1, n);
      MovePoolKept(MoveCards(p, moves, k - 1), moves[k - 1], n);
    }
  }

  // ----- sizes -----

  /** Change of a seat's hand by a transfer. */
  function Gain(m: Transfer, s: int): int {
    (if s == m.toSeat then 1 else 0) - if s == m.fromSeat then 1 else 0
  }

  function Gains(moves: seq<Transfer>, k: nat, s: int): int
    requires k <= |moves|
  {
    if k == 0 then 0 else Gains(moves, k - 1, s) + Gain(moves[k - 1], s)
  }

  lemma MoveSize(p: seq<Player>, m: Transfer, s: int)
    requires CanMove(p, m) && 0 <= s < |p|
    ensures |MoveCard(p, m)[s].hand| == |p[s].hand| + Gain(m, s)
  {
    hide HandAfter;
    TakeOneCard(p[m.fromSeat].hand, m.cardId);
  }

  /** The seat that pays the k-th tribute still has its hand. */
  lemma {:induction false} PaysFrom(p: seq<Player>, tributes: seq<Transfer>, k: nat, i: nat)
    requires Pairs(tributes, |p|) && k <= i < |tributes|
    ensures MoveCards(p, tributes, k)[tributes[i].fromSeat] == p[tributes[i].fromSeat]
  {
    hide MoveCard;
    if k > 0 {
      PaysFrom(p, tributes, k - 1, i);
      PairsApart(tributes, |p|, k - 1, i);
      MoveFrame(MoveCards(p, tributes, k - 1), tributes[k - 1], tributes[i].fromSeat);
    }
  }

  lemma {:induction false} PaidSizes(p: seq<Player>, tributes: seq<Transfer>, k: nat, s: int)
    requires Pairs(tributes, |p|) && k <= |tributes| && 0 <= s < |p|
    requires forall i :: 0 <= i < |tributes| ==> CanMove(p, tributes[i])
    ensures |MoveCards(p, tributes, k)[s].hand| == |p[s].hand| + Gains(tributes, k, s)
  {
    hide MoveCard;
    if k > 0 {
      PaidSizes(p, tributes, k - 1, s);
      PaysFrom(p, tributes, k - 1, k - 1);
      MoveSize(MoveCards(p, tributes, k - 1), tributes[k - 1], s);
    }
  }

  lemma {:induction false} SettledSizes(p: seq<Player>, tributes: seq<Transfer>, done: map<int, CardId>, k: nat, s: int)
    requires Pairs(tributes, |p|) && k <= |tributes| && 0 <= s < |p|
    requires forall i :: 0 <= i < |tributes| ==>
               tributes[i].toSeat in done && CanMove(p, Back(tributes[i], done[tributes[i].toSeat]))
    ensures |Settle(p, tributes, done, k)[s].hand| == |p[s].hand| - Gains(tributes, k, s)
  {
    hide MoveCard;
    if k > 0 {
      SettledSizes(p, tributes, done, k - 1, s);
      PendingHand(p, tributes, done, k - 1, k - 1);
      MoveSize(Settle(p, tributes, done, k - 1), Back(tributes[k - 1], done[tributes[k - 1].toSeat]), s);
    }
  }

  /** A card that has to be paid is in the hand. */
  lemma RequiredInHand(all: seq<Card>, ctx: RuleContext, hand: seq<CardId>)
    requires RequiredTribute(all, ctx, hand) != 0
    ensures RequiredTribute(all, ctx, hand) in hand
    ensures ValidTributeSubmission(all, ctx, hand, RequiredTribute(all, ctx, hand))
  {
  }

  lemma DueMoves(d0: Desk, cfg: Config, prev: Previous, i: nat)
    requires Due(d0, cfg, prev) && i < |DueTributes(d0, cfg)|
    requires forall i :: 0 <= i < |d0.tribute.plan.tributerSeats| ==>
               RequiredAt(d0, cfg, d0.tribute.plan.tributerSeats[i]) != 0
    ensures CanMove(d0.table.players, DueTributes(d0, cfg)[i]) && Pairs(DueTributes(d0, cfg), |d0.table.players|)
    ensures Pairs(DueTributes(d0, cfg), d0.table.playerCount)
  {
    hide RequiredTribute, RequiredFrom, TributesOf, RankSeat, PlanRound, Pairs;
    var t, ctx, plan := d0.table, Context(d0.table, cfg), d0.tribute.plan;
    var submissions := RequiredFrom(t, ctx, plan.tributerSeats, |plan.tributerSeats|);
    AllRequired(d0, cfg);
    TributesDeal(t, ctx, plan, submissions);
    DealsPairs(t.allCards, ctx, plan, submissions, DueTributes(d0, cfg), t.playerCount, |t.players|);
    var s := DueTributes(d0, cfg)[i].fromSeat;
    PairsApart(DueTributes(d0, cfg), |t.players|, i, i);
    RequiredFromAre(t, ctx, plan.tributerSeats, |plan.tributerSeats|, s);
    RequiredInHand(t.allCards, ctx, t.players[s].hand);
  }

  /** After tribute and return every seat holds as many cards as it was dealt. */
  lemma SizesRestored(d0: Desk, cfg: Config, prev: Previous, offers: seq<Offer>, s: int)
    requires Due(d0, cfg, prev) && Complete(AfterOffers(d0, cfg, prev, offers)) && 0 <= s < |d0.table.players|
    ensures var d := AfterOffers(d0, cfg, prev, offers);
            |d.table.players| == |d0.table.players| && |d.table.players[s].hand| == |d0.table.players[s].hand|
  {
    hide AfterOffers, Complete, PlanRound, RankSeat, SoundPlan, PermRanks, Choices, Settle, Pairs, ReturnList;
    hide DueTributes, MoveCards, RequiredTribute, ValidReturnIds;
    var d := AfterOffers(d0, cfg, prev, offers);
    var done := Choices(d.last.returned, |d.last.returned|);
    CompletedPhase(d0, cfg, prev, offers);
    var tributes, paid := DueTributes(d0, cfg), Paid(d0, cfg);
    forall i | 0 <= i < |tributes|
      ensures CanMove(d0.table.players, tributes[i])
      ensures CanMove(paid, Back(tributes[i], done[tributes[i].toSeat]))
    {
      DueMoves(d0, cfg, prev, i);
      PairsApart(tributes, |paid|, i, i);
    }
    PaidSizes(d0.table.players, tributes, |tributes|, s);
    SettledSizes(paid, tributes, done, |tributes|, s);
  }

  // ----- every step -----

  lemma {:induction false} SettlePoolKept(p: seq<Player>, tributes: seq<Transfer>, done: map<int, CardId>, k: nat,
      n: int)
    requires k <= |tributes| && 0 <= n <= |p| && Pairs(tributes, n)
    ensures Pool(HandsOf(Settle(p, tributes, done, k)), n) == Pool(HandsOf(p), n)
    ensures OnlyHands(p, Settle(p, tributes, done, k))
  {
    hide MoveCard, Pool;
    if k > 0 {
      SettlePoolKept(p, tributes, done, k - 1, n);
      var m := tributes[k - 1];
      if m.toSeat in done {
        MovePoolKept(Settle(p, tributes, done, k - 1), Back(m, done[m.toSeat]), n);
        MoveSeats(Settle(p, tributes, done, k - 1), Back(m, done[m.toSeat]));
      }
    }
  }

  /** At every point of the phase the hands together are what was dealt, on the same seats. */
  lemma PhaseKeeps(d0: Desk, cfg: Config, prev: Previous, offers: seq<Offer>)
    requires Due(d0, cfg, prev)
    ensures var d := AfterOffers(d0, cfg, prev, offers);
            PoolOf(d.table) == PoolOf(d0.table) && OnlyHands(d0.table.players, d.table.players)
  {
    hide AfterOffers, PlanRound, RankSeat, SoundPlan, PermRanks, Choices, Settle, Pairs, ReturnList, MoveCards;
    hide RequiredTribute, Pool, FairReturn, DueTributes;
    EveryOrder(d0, cfg, prev, offers);
    var d, n := AfterOffers(d0, cfg, prev, offers), d0.table.playerCount;
    if d.table.phase != Tribute {
      var tributes, paid := DueTributes(d0, cfg), Paid(d0, cfg);
      DuePairs(d0, cfg, prev);
      MovesPoolKept(d0.table.players, tributes, |tributes|, n) by { PairsInGame(tributes, n); }
      MovesSeats(d0.table.players, tributes, |tributes|);
      SettlePoolKept(paid, tributes, Choices(d.last.returned, |d.last.returned|), |tributes|, n);
    }
  }

  lemma PairsInGame(tributes: seq<Transfer>, n: int)
    requires Pairs(tributes, n)
    ensures forall i :: 0 <= i < |tributes| ==> 0 <= tributes[i].fromSeat < n && 0 <= tributes[i].toSeat < n
  {
  }

  lemma DuePairs(d0: Desk, cfg: Config, prev: Previous)
    requires Due(d0, cfg, prev)
    requires forall i :: 0 <= i < |d0.tribute.plan.tributerSeats| ==>
               RequiredAt(d0, cfg, d0.tribute.plan.tributerSeats[i]) != 0
    ensures Pairs(DueTributes(d0, cfg), d0.table.playerCount)
  {
    hide RequiredAt, DueTributes, PlanRound, RankSeat;
    if DueTributes(d0, cfg) != [] {
      DueMoves(d0, cfg, prev, 0);
    }
  }

  // ----- when the phase can be completed -----

  /** A recipient keeps its hand until it receives its card. */
  lemma {:induction false} ReceivedBy(p: seq<Player>, tributes: seq<Transfer>, k: nat, i: nat)
    requires Pairs(tributes, |p|) && k <= |tributes| && i < |tributes|
    requires forall j :: 0 <= j < |tributes| ==> CanMove(p, tributes[j])
    ensures var s := tributes[i].toSeat;
            MoveCards(p, tributes, k)[s].hand == p[s].hand + if i < k then [tributes[i].cardId] else []
  {
    hide MoveCard;
    if k > 0 {
      ReceivedBy(p, tributes, k - 1, i);
      var q, m := MoveCards(p, tributes, k - 1), tributes[k - 1];
      if i == k - 1 {
        PaysFrom(p, tributes, k - 1, k - 1);
        MoveGives(q, m);
      } else {
        PairsApart(tributes, |p|, k - 1, i);
        MoveFrame(q, m, tributes[i].toSeat);
      }
    }
  }

  lemma MoveGives(p: seq<Player>, m: Transfer)
    requires CanMove(p, m) && m.fromSeat != m.toSeat
    ensures MoveCard(p, m)[m.toSeat].hand == p[m.toSeat].hand + [m.cardId]
  {
    hide HandAfter;
  }

  /** Every tributer has a card to pay, and every recipient one to return from the hand it was dealt and the
      card it receives: both are conditions on cards, see CanPay and CanGiveBack. */
  ghost predicate CanSettle(d0: Desk, cfg: Config)
    requires SeatsExist(d0.table, d0.tribute.plan.tributerSeats)
  {
    && (forall i :: 0 <= i < |d0.tribute.plan.tributerSeats| ==>
          CanPay(d0.table.allCards, Context(d0.table, cfg), d0.table.players[d0.tribute.plan.tributerSeats[i]].hand))
    && (forall i :: 0 <= i < |DueTributes(d0, cfg)| ==> CanReturn(d0, cfg, DueTributes(d0, cfg)[i]))
  }

  ghost predicate CanReturn(d0: Desk, cfg: Config, m: Transfer) {
    && 0 <= m.toSeat < |d0.table.players|
    && CanGiveBack(d0.table.allCards, Context(d0.table, cfg), d0.table.players[m.toSeat].hand + [m.cardId])
  }

  lemma PayersCanPay(d0: Desk, cfg: Config)
    requires SeatsExist(d0.table, d0.tribute.plan.tributerSeats)
    ensures forall i :: 0 <= i < |d0.tribute.plan.tributerSeats| ==>
              var s := d0.tribute.plan.tributerSeats[i];
              RequiredAt(d0, cfg, s) != 0 <==>
                  CanPay(d0.table.allCards, Context(d0.table, cfg), d0.table.players[s].hand)
  {
    hide RequiredTribute, CanPay;
    forall i | 0 <= i < |d0.tribute.plan.tributerSeats|
      ensures var s := d0.tribute.plan.tributerSeats[i];
              RequiredAt(d0, cfg, s) != 0 <==>
                  CanPay(d0.table.allCards, Context(d0.table, cfg), d0.table.players[s].hand)
    {
      CanPayIff(d0.table.allCards, Context(d0.table, cfg), d0.table.players[d0.tribute.plan.tributerSeats[i]].hand);
    }
  }

  lemma PaidHand(d0: Desk, cfg: Config, prev: Previous, i: nat)
    requires Due(d0, cfg, prev) && i < |DueTributes(d0, cfg)|
    requires forall i :: 0 <= i < |d0.tribute.plan.tributerSeats| ==>
               RequiredAt(d0, cfg, d0.tribute.plan.tributerSeats[i]) != 0
    ensures var m := DueTributes(d0, cfg)[i];
            0 <= m.toSeat < |d0.table.players|
                && Paid(d0, cfg)[m.toSeat].hand == d0.table.players[m.toSeat].hand + [m.cardId]
  {
    hide RequiredAt, DueTributes, PlanRound, RankSeat, Pairs, MoveCards;
    var tributes := DueTributes(d0, cfg);
    forall j | 0 <= j < |tributes|
      ensures CanMove(d0.table.players, tributes[j]) && Pairs(tributes, |d0.table.players|)
    {
      DueMoves(d0, cfg, prev, j);
    }
    PairsApart(tributes, |d0.table.players|, i, i);
    ReceivedBy(d0.table.players, tributes, |tributes|, i);
  }

  /** What a recipient may return is decided by its own hand and the card it received. */
  lemma ReturnableFrom(d0: Desk, cfg: Config, prev: Previous, i: nat)
    requires Due(d0, cfg, prev) && i < |DueTributes(d0, cfg)|
    requires forall i :: 0 <= i < |d0.tribute.plan.tributerSeats| ==>
               RequiredAt(d0, cfg, d0.tribute.plan.tributerSeats[i]) != 0
    ensures var m := DueTributes(d0, cfg)[i];
            && 0 <= m.toSeat < |d0.table.players|
            && (CanReturn(d0, cfg, m) <==>
                exists c: CardId :: ValidReturnSubmission(d0.table.allCards, Context(d0.table, cfg),
                    Paid(d0, cfg)[m.toSeat].hand, c))
  {
    hide RequiredAt, DueTributes, Paid, PlanRound, RankSeat, CanGiveBack, ValidReturnSubmission;
    PaidHand(d0, cfg, prev, i);
    CanGiveBackIff(d0.table.allCards, Context(d0.table, cfg), Paid(d0, cfg)[DueTributes(d0, cfg)[i].toSeat].hand);
  }

  lemma CompletedCouldSettle(d0: Desk, cfg: Config, prev: Previous, offers: seq<Offer>)
    requires Due(d0, cfg, prev) && Complete(AfterOffers(d0, cfg, prev, offers))
    ensures CanSettle(d0, cfg)
  {
    hide AfterOffers, Complete, PlanRound, RankSeat, SoundPlan, PermRanks, Choices, Settle, Pairs, ReturnList;
    hide DueTributes, MoveCards, RequiredAt;
    hide ValidReturnSubmission, CanPay, CanReturn, Paid;
    CompletedPhase(d0, cfg, prev, offers);
    PayersCanPay(d0, cfg);
    forall i | 0 <= i < |DueTributes(d0, cfg)|
      ensures CanReturn(d0, cfg, DueTributes(d0, cfg)[i])
    {
      ReturnableFrom(d0, cfg, prev, i);
    }
  }

  lemma EraseShorter(s: seq<int>, x: int)
    ensures |Erase(s, x)| <= |s|
    ensures x in s ==> |Erase(s, x)| < |s|
  {
  }

  lemma OffersSnoc(d: Desk, cfg: Config, prev: Previous, offers: seq<Offer>, o: Offer)
    requires Placed(d.table) && d.table.playerCount <= |prev.ranks|
    ensures AfterOffers(d, cfg, prev, offers + [o]) == AfterOffer(AfterOffers(d, cfg, prev, offers), cfg, prev, o)
  {
    hide AfterOffer;
    assert (offers + [o])[..|offers|] == offers;
  }

  lemma SeatOfPlayer(t: Table, u: Table, s: int)
    requires Placed(t) && Placed(u) && DistinctIds(t.players, t.playerCount) && SameSeats(t.players, u.players)
    requires u.playerCount == t.playerCount && 0 <= s < t.playerCount
    ensures SeatOf(u, u.players[s].id) == s
  {
    SeatFromFinds(u.players, u.playerCount, s, 0);
  }

  /** A tributer still to pay can pay. */
  lemma NextPay(d0: Desk, cfg: Config, prev: Previous, d: Desk) returns (o: Offer)
    requires Due(d0, cfg, prev) && PhaseInv(d0, cfg, d) && d.table.phase == Tribute
    requires SameSeats(d0.table.players, d.table.players)
    requires CanSettle(d0, cfg) && DistinctIds(d0.table.players, d0.table.playerCount)
    ensures o.Pay? && OfferCode(d, cfg, o) == Ok && SeatOf(d.table, o.player) == d.tribute.pendingTributers[0]
    ensures d.tribute.pendingTributers != []
  {
    hide PlanRound, RankSeat, DueTributes, RequiredTribute, Paid, Returning, CanReturn, SeatOf, CanPay;
    PayersCanPay(d0, cfg);
    var s := d.tribute.pendingTributers[0];
    assert s in d.tribute.pendingTributers;
    assert s in d0.tribute.plan.tributerSeats;
    SeatOfPlayer(d0.table, d.table, s);
    o := Pay(d.table.players[s].id, RequiredAt(d0, cfg, s));
    RequiredInHand(d0.table.allCards, Context(d0.table, cfg), d0.table.players[s].hand);
  }

  /** A recipient still to return a card can return one. */
  lemma NextReturn(d0: Desk, cfg: Config, prev: Previous, d: Desk) returns (o: Offer)
    requires Due(d0, cfg, prev) && PhaseInv(d0, cfg, d) && d.table.phase == ReturnTribute
    requires SameSeats(d0.table.players, d.table.players)
    requires CanSettle(d0, cfg) && DistinctIds(d0.table.players, d0.table.playerCount)
    requires d.tribute.pendingReturnSeats != []
    requires Pairs(DueTributes(d0, cfg), d0.table.playerCount)
    ensures o.GiveBack? && OfferCode(d, cfg, o) == Ok && SeatOf(d.table, o.player) == d.tribute.pendingReturnSeats[0]
  {
    hide PlanRound, RankSeat, DueTributes, RequiredTribute, Paid, Returning, SeatOf, ValidReturnSubmission, Paying;
    hide SoundPlan, Pairs, CanReturn;
    var s := d.tribute.pendingReturnSeats[0];
    assert s in d.tribute.pendingReturnSeats;
    var tributes := DueTributes(d0, cfg);
    var i := PendingPlace(d0.table.allCards, Context(d0.table, cfg), Paid(d0, cfg), tributes, d, s);
    PairsInGame(tributes, d0.table.playerCount);
    SeatOfPlayer(d0.table, d.table, s);
    assert CanReturn(d0, cfg, tributes[i]);
    ReturnableFrom(d0, cfg, prev, i);
    var c: CardId :| ValidReturnSubmission(d0.table.allCards, Context(d0.table, cfg), Paid(d0, cfg)[s].hand, c);
    o := GiveBack(d.table.players[s].id, c);
  }

  lemma ReturnShortens(d: Desk, cfg: Config, prev: Previous, o: Offer)
    requires Placed(d.table) && d.table.playerCount <= |prev.ranks| && o.GiveBack? && OfferCode(d, cfg, o) == Ok
    ensures |AfterOffer(d, cfg, prev, o).tribute.pendingReturnSeats| < |d.tribute.pendingReturnSeats|
    ensures AfterOffer(d, cfg, prev, o).table.phase == d.table.phase
  {
    hide MoveCard, ValidReturnSubmission, SeatOf;
    EraseShorter(d.tribute.pendingReturnSeats, SeatOf(d.table, o.player));
  }

  lemma PayShortens(d: Desk, cfg: Config, prev: Previous, o: Offer)
    requires Placed(d.table) && d.table.playerCount <= |prev.ranks| && o.Pay? && OfferCode(d, cfg, o) == Ok
    requires AfterOffer(d, cfg, prev, o).table.phase == Tribute
    ensures |AfterOffer(d, cfg, prev, o).tribute.pendingTributers| < |d.tribute.pendingTributers|
  {
    hide MoveCards, TributesOf, FirstPlayer, ValidTributeSubmission, SeatOf, PayerOf, Payers, Recipients, AssignSummary;
    EraseShorter(d.tribute.pendingTributers, SeatOf(d.table, o.player));
  }

  /** From every point of the phase the missing tributes and returns can be made. */
  lemma {:induction false} CanBeCompleted(d0: Desk, cfg: Config, prev: Previous, offers: seq<Offer>)
      returns (more: seq<Offer>)
    requires Due(d0, cfg, prev) && CanSettle(d0, cfg) && DistinctIds(d0.table.players, d0.table.playerCount)
    ensures Complete(AfterOffers(d0, cfg, prev, offers + more))
    decreases AfterOffers(d0, cfg, prev, offers).table.phase == Tribute,
              if AfterOffers(d0, cfg, prev, offers).table.phase == Tribute
                  then |AfterOffers(d0, cfg, prev, offers).tribute.pendingTributers|
              else |AfterOffers(d0, cfg, prev, offers).tribute.pendingReturnSeats|
  {
    hide AfterOffers, AfterOffer, OfferCode, PlanRound, RankSeat, SoundPlan, PermRanks, RequiredAt, DueTributes;
    hide Returning, Paying, SameSeats, OnlyHands, DistinctIds, CanReturn;
    var d := AfterOffers(d0, cfg, prev, offers);
    EveryOrder(d0, cfg, prev, offers);
    PhaseKeeps(d0, cfg, prev, offers);
    OnlyHandsSeats(d0.table.players, d.table.players);
    if Complete(d) {
      more := [];
      assert offers + more == offers;
    } else {
      var o;
      if d.table.phase == Tribute {
        o := NextPay(d0, cfg, prev, d);
        if AfterOffer(d, cfg, prev, o).table.phase == Tribute {
          PayShortens(d, cfg, prev, o);
        }
      } else {
        DuePairs(d0, cfg, prev);
        o := NextReturn(d0, cfg, prev, d);
        ReturnShortens(d, cfg, prev, o);
      }
      OffersSnoc(d0, cfg, prev, offers, o);
      var rest := CanBeCompleted(d0, cfg, prev, offers + [o]);
      more := [o] + rest;
      assert offers + more == (offers + [o]) + rest;
    }
  }

  /** The phase can be completed exactly if the cards allow everybody to pay and to return; otherwise it
      stays open, whatever is submitted. */
  lemma CompletedIffCanSettle(d0: Desk, cfg: Config, prev: Previous)
    requires Due(d0, cfg, prev) && DistinctIds(d0.table.players, d0.table.playerCount)
    ensures CanSettle(d0, cfg) <==> exists offers :: Complete(AfterOffers(d0, cfg, prev, offers))
  {
    hide AfterOffers, Complete, PlanRound, RankSeat, SoundPlan, PermRanks, CanSettle, DistinctIds;
    if CanSettle(d0, cfg) {
      var more := CanBeCompleted(d0, cfg, prev, []);
    }
    if offers :| Complete(AfterOffers(d0, cfg, prev, offers)) {
      CompletedCouldSettle(d0, cfg, prev, offers);
    }
  }
}
