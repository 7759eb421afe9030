/** Which submissions of the tribute phase are accepted, and so in which orders it can go on. */
module TributeTurns {
  import opened Lists
  import opened Cards
  import opened State
  import opened Turns
  import opened Pickers
  import opened Round
  import opened Runs
  import opened Conservation
  import opened Tributes
  import opened Exchange
  import opened TributePhase
  import opened Confluence
  import opened AnyOrder
  import opened TributeEnds

  // ----- who has answered -----

  /** The seats whose tributes have been accepted. */
  ghost function PaidSeats(d0: Desk, cfg: Config, prev: Previous, offers: seq<Offer>): set<int>
    requires Placed(d0.table) && d0.table.playerCount <= |prev.ranks|
  {
    if offers == [] then {}
    else
      var k := |offers| - 1;
      var d, o := AfterOffers(d0, cfg, prev, offers[..k]), offers[k];
      PaidSeats(d0, cfg, prev, offers[..k]) +
      if o.Pay? && OfferCode(d, cfg, o) == Ok then {SeatOf(d.table, o.player)} else {}
  }

  /** The seats whose returns have been accepted. */
  ghost function ReturnedSeats(d0: Desk, cfg: Config, prev: Previous, offers: seq<Offer>): set<int>
    requires Placed(d0.table) && d0.table.playerCount <= |prev.ranks|
  {
    if offers == [] then {}
    else
      var k := |offers| - 1;
      var d, o := AfterOffers(d0, cfg, prev, offers[..k]), offers[k];
      ReturnedSeats(d0, cfg, prev, offers[..k]) +
      if o.GiveBack? && OfferCode(d, cfg, o) == Ok then {SeatOf(d.table, o.player)} else {}
  }

  /** The desk waits for exactly those who have not answered. */
  ghost predicate Waits(d0: Desk, d: Desk, paid: set<int>, returned: set<int>) {
    if d.table.phase == Tribute then
      && returned == {} && !(forall s :: s in d0.tribute.plan.tributerSeats ==> s in paid)
      && forall s :: s in d.tribute.pendingTributers <==> s in d0.tribute.plan.tributerSeats && s !in paid
    else
      && d.table.phase == ReturnTribute && (forall s :: s in d0.tribute.plan.tributerSeats ==> s in paid)
      && forall s :: s in d.tribute.pendingReturnSeats <==> s in Owed(d) && s !in returned
  }

  /** The seats that received a tribute. */
  ghost function Owed(d: Desk): set<int> {
    set i | 0 <= i < |d.last.tributes| :: d.last.tributes[i].toSeat
  }

  lemma CollectWaits(d0: Desk, cfg: Config, prev: Previous, d: Desk, paid: set<int>)
    requires d.table.playerCount <= |prev.ranks| && Collect(d, cfg, prev).table.phase == ReturnTribute
    requires forall s :: s in d0.tribute.plan.tributerSeats ==> s in paid
    ensures Waits(d0, Collect(d, cfg, prev), paid, {})
  {
    hide TributesOf, MoveCards, FirstPlayer, PayerOf, AssignSummary, Payers;
    var c := Collect(d, cfg, prev);
    forall s
      ensures s in c.tribute.pendingReturnSeats <==> s in Owed(c)
    {
      if s in Owed(c) {
        var i :| 0 <= i < |c.last.tributes| && c.last.tributes[i].toSeat == s;
        assert c.tribute.pendingReturnSeats[i] == s;
      }
    }
  }

  lemma PayWaits(d0: Desk, cfg: Config, prev: Previous, d: Desk, o: Offer, paid: set<int>)
    requires Placed(d.table) && d.table.playerCount <= |prev.ranks| && o.Pay? && OfferCode(d, cfg, o) == Ok
    requires Waits(d0, d, paid, {})
    requires Erase(d.tribute.pendingTributers, SeatOf(d.table, o.player)) == [] ==>
               AfterOffer(d, cfg, prev, o).table.phase == ReturnTribute
    ensures Waits(d0, AfterOffer(d, cfg, prev, o), paid + {SeatOf(d.table, o.player)}, {})
  {
    hide Collect, ValidTributeSubmission, SeatOf;
    var s := SeatOf(d.table, o.player);
    var tribute := d.tribute.(submissions := d.tribute.submissions[s := o.card],
        pendingTributers := Erase(d.tribute.pendingTributers, s));
    var d' := Desk(d.table.(stateVersion := d.table.stateVersion + 1), tribute, d.last);
    if tribute.pendingTributers == [] {
      forall x | x in d0.tribute.plan.tributerSeats
        ensures x in paid + {s}
      {
        assert x !in tribute.pendingTributers;
      }
      CollectWaits(d0, cfg, prev, d', paid + {s});
    } else {
      var x := tribute.pendingTributers[0];
      assert x in tribute.pendingTributers;
      assert x in d0.tribute.plan.tributerSeats && x !in paid + {s};
      forall y
        ensures y in tribute.pendingTributers <==> y in d0.tribute.plan.tributerSeats && y !in paid + {s}
      {
      }
      assert AfterOffer(d, cfg, prev, o) == d';
    }
  }

  lemma GiveBackWaits(d0: Desk, cfg: Config, prev: Previous, d: Desk, o: Offer, paid: set<int>, returned: set<int>)
    requires Placed(d.table) && d.table.playerCount <= |prev.ranks| && o.GiveBack? && OfferCode(d, cfg, o) == Ok
    requires Waits(d0, d, paid, returned)
    ensures Waits(d0, AfterOffer(d, cfg, prev, o), paid, returned + {SeatOf(d.table, o.player)})
  {
    hide MoveCard, ValidReturnSubmission, SeatOf;
    assert Owed(AfterOffer(d, cfg, prev, o)) == Owed(d);
  }

  /** At every point of the phase. */
  lemma {:induction false} WaitsForTheRest(d0: Desk, cfg: Config, prev: Previous, offers: seq<Offer>)
    requires Due(d0, cfg, prev)
    ensures Placed(d0.table) && d0.table.playerCount <= |prev.ranks|
    ensures Waits(d0, AfterOffers(d0, cfg, prev, offers), PaidSeats(d0, cfg, prev, offers),
                  ReturnedSeats(d0, cfg, prev, offers))
  {
    hide Waits, AfterOffer, OfferCode, PlanRound, RankSeat, PermRanks, Returning, DueTributes, Paid, RequiredAt;
    if offers == [] {
      AllWait(d0, cfg, prev);
    } else {
      var k := |offers| - 1;
      var d, o := AfterOffers(d0, cfg, prev, offers[..k]), offers[k];
      WaitsForTheRest(d0, cfg, prev, offers[..k]);
      EveryOrder(d0, cfg, prev, offers[..k]);
      EveryOrder(d0, cfg, prev, offers);
      if OfferCode(d, cfg, o) != Ok {
        OfferRefused(d, cfg, prev, o);
        assert PaidSeats(d0, cfg, prev, offers) == PaidSeats(d0, cfg, prev, offers[..k]);
        assert ReturnedSeats(d0, cfg, prev, offers) == ReturnedSeats(d0, cfg, prev, offers[..k]);
      } else if o.Pay? {
        LastPayOnly(d0, cfg, prev, d, o);
        NothingReturned(d0, d, PaidSeats(d0, cfg, prev, offers[..k]), ReturnedSeats(d0, cfg, prev, offers[..k]), cfg,
            o);
        PayWaits(d0, cfg, prev, d, o, PaidSeats(d0, cfg, prev, offers[..k]));
        assert ReturnedSeats(d0, cfg, prev, offers) == {};
      } else {
        GiveBackWaits(d0, cfg, prev, d, o, PaidSeats(d0, cfg, prev, offers[..k]),
            ReturnedSeats(d0, cfg, prev, offers[..k]));
        assert PaidSeats(d0, cfg, prev, offers) == PaidSeats(d0, cfg, prev, offers[..k]);
      }
    }
  }

  lemma AllWait(d0: Desk, cfg: Config, prev: Previous)
    requires Due(d0, cfg, prev)
    ensures Waits(d0, d0, {}, {})
  {
    hide PlanRound, RankSeat, PermRanks;
  }

  lemma NothingReturned(d0: Desk, d: Desk, paid: set<int>, returned: set<int>, cfg: Config, o: Offer)
    requires Waits(d0, d, paid, returned) && Placed(d.table) && o.Pay? && OfferCode(d, cfg, o) == Ok
    ensures returned == {} && Waits(d0, d, paid, {})
  {
    hide ValidTributeSubmission, SeatOf;
  }

  /** The last payment ends the paying. */
  lemma LastPayOnly(d0: Desk, cfg: Config, prev: Previous, d: Desk, o: Offer)
    requires Placed(d.table) && d.table.playerCount <= |prev.ranks| && o.Pay? && OfferCode(d, cfg, o) == Ok
    ensures Erase(d.tribute.pendingTributers, SeatOf(d.table, o.player)) == [] ==>
              AfterOffer(d, cfg, prev, o).table.phase in {Playing, ReturnTribute}
  {
    hide TributesOf, MoveCards, FirstPlayer, PayerOf, AssignSummary, Payers, Recipients, ValidTributeSubmission, SeatOf;
  }

  // ----- what is accepted -----

  /** A payer of the plan that has not paid yet, with the card it has to pay. */
  ghost predicate PaysNow(d0: Desk, cfg: Config, paid: set<int>, s: int, o: Offer) {
    && o.Pay? && s in d0.tribute.plan.tributerSeats && s !in paid && 0 <= s < d0.table.playerCount <= |d0.table.players|
    && o.player == d0.table.players[s].id
    && MustPay(d0.table.allCards, Context(d0.table, cfg), d0.table.players[s].hand, o.card)
  }

  /** In every state of the phase a tribute is accepted exactly if it comes from a payer that has not paid yet
      and is the card that seat has to pay, whoever else is still due. */
  lemma PayAcceptedIff(d0: Desk, cfg: Config, prev: Previous, offers: seq<Offer>, o: Offer)
    requires Due(d0, cfg, prev) && DistinctIds(d0.table.players, d0.table.playerCount) && o.Pay?
    ensures Placed(d0.table) && d0.table.playerCount <= |prev.ranks|
    ensures OfferCode(AfterOffers(d0, cfg, prev, offers), cfg, o) == Ok <==>
            exists s :: PaysNow(d0, cfg, PaidSeats(d0, cfg, prev, offers), s, o)
  {
    hide AfterOffers, PaidSeats, ReturnedSeats, PlanRound, RankSeat, PermRanks, Returning, Paying, DueTributes, Paid;
    hide MustPay, ValidTributeSubmission, OnlyHands, SameSeats, DistinctIds, SeatOf;
    var d, paid := AfterOffers(d0, cfg, prev, offers), PaidSeats(d0, cfg, prev, offers);
    WaitsForTheRest(d0, cfg, prev, offers);
    EveryOrder(d0, cfg, prev, offers);
    PhaseKeeps(d0, cfg, prev, offers);
    OnlyHandsSeats(d0.table.players, d.table.players);
    SamePlayers(d0, d);
    if OfferCode(d, cfg, o) == Ok {
      var s := SeatOf(d.table, o.player);
      HandsBeforeReturns(d0, cfg, d);
      MustPayIff(d0.table.allCards, Context(d0.table, cfg), d0.table.players[s].hand, o.card);
      assert PaysNow(d0, cfg, paid, s, o);
    }
    if s :| PaysNow(d0, cfg, paid, s, o) {
      SeatOfPlayer(d0.table, d.table, s);
      HandsBeforeReturns(d0, cfg, d);
      MustPayIff(d0.table.allCards, Context(d0.table, cfg), d0.table.players[s].hand, o.card);
    }
  }

  lemma SamePlayers(d0: Desk, d: Desk)
    requires SameSeats(d0.table.players, d.table.players)
    ensures |d.table.players| == |d0.table.players|
    ensures forall s :: 0 <= s < |d0.table.players| ==> d.table.players[s].id == d0.table.players[s].id
  {
  }

  lemma HandsBeforeReturns(d0: Desk, cfg: Config, d: Desk)
    requires SeatsExist(d0.table, d0.tribute.plan.tributerSeats) && PhaseInv(d0, cfg, d)
    ensures d.table.phase == Tribute ==> d.table.players == d0.table.players
    ensures d.table.allCards == d0.table.allCards && Context(d.table, cfg) == Context(d0.table, cfg) && d.tribute.active
  {
    hide Returning, DueTributes, Paid, RequiredAt;
  }

  /** A recipient that has not answered yet, with a card it may give back from its own hand and the card it
      received. */
  ghost predicate ReturnsNow(d0: Desk, cfg: Config, returned: set<int>, m: Transfer, o: Offer) {
    && o.GiveBack? && m.toSeat !in returned && 0 <= m.toSeat < d0.table.playerCount <= |d0.table.players|
    && o.player == d0.table.players[m.toSeat].id
    && MayGiveBack(d0.table.allCards, Context(d0.table, cfg), d0.table.players[m.toSeat].hand + [m.cardId], o.card)
  }

  /** In every state of the phase a return is accepted exactly if all tributes are paid and it comes from a
      recipient that has not answered yet, with a card it may give back. */
  lemma ReturnAcceptedIff(d0: Desk, cfg: Config, prev: Previous, offers: seq<Offer>, o: Offer)
    requires Due(d0, cfg, prev) && DistinctIds(d0.table.players, d0.table.playerCount) && o.GiveBack?
    ensures Placed(d0.table) && d0.table.playerCount <= |prev.ranks|
    ensures SeatsExist(d0.table, d0.tribute.plan.tributerSeats)
    ensures OfferCode(AfterOffers(d0, cfg, prev, offers), cfg, o) == Ok <==>
            && (forall s :: s in d0.tribute.plan.tributerSeats ==> s in PaidSeats(d0, cfg, prev, offers))
            && exists i :: 0 <= i < |DueTributes(d0, cfg)|
                 && ReturnsNow(d0, cfg, ReturnedSeats(d0, cfg, prev, offers), DueTributes(d0, cfg)[i], o)
  {
    hide AfterOffers, PaidSeats, ReturnedSeats, PlanRound, RankSeat, PermRanks, Paying, DueTributes, Paid, RequiredAt;
    hide Returning, MayGiveBack, ValidReturnSubmission, OnlyHands, SameSeats, DistinctIds, SeatOf;
    var d, returned := AfterOffers(d0, cfg, prev, offers), ReturnedSeats(d0, cfg, prev, offers);
    WaitsForTheRest(d0, cfg, prev, offers);
    EveryOrder(d0, cfg, prev, offers);
    PhaseKeeps(d0, cfg, prev, offers);
    OnlyHandsSeats(d0.table.players, d.table.players);
    SamePlayers(d0, d);
    HandsBeforeReturns(d0, cfg, d);
    if d.table.phase == ReturnTribute {
      DuePairs(d0, cfg, prev);
      if OfferCode(d, cfg, o) == Ok {
        var s := SeatOf(d.table, o.player);
        var i := WaitingHand(d0, cfg, prev, d, s);
        MayGiveBackIff(d0.table.allCards, Context(d0.table, cfg), d.table.players[s].hand, o.card);
        assert ReturnsNow(d0, cfg, returned, DueTributes(d0, cfg)[i], o);
      }
      if i :| 0 <= i < |DueTributes(d0, cfg)| && ReturnsNow(d0, cfg, returned, DueTributes(d0, cfg)[i], o) {
        var s := DueTributes(d0, cfg)[i].toSeat;
        SeatOfPlayer(d0.table, d.table, s);
        assert s in d.tribute.pendingReturnSeats by { assert d.last.tributes[i].toSeat == s; }
        var j := WaitingHand(d0, cfg, prev, d, s);
        PairsApart(DueTributes(d0, cfg), d0.table.playerCount, i, j);
        MayGiveBackIff(d0.table.allCards, Context(d0.table, cfg), d.table.players[s].hand, o.card);
      }
    }
  }

  /** A recipient that has not answered holds the hand it was dealt and the card it received. */
  lemma WaitingHand(d0: Desk, cfg: Config, prev: Previous, d: Desk, s: int) returns (i: nat)
    requires Due(d0, cfg, prev) && SeatsExist(d0.table, d0.tribute.plan.tributerSeats) && PhaseInv(d0, cfg, d)
    requires d.table.phase == ReturnTribute && s in d.tribute.pendingReturnSeats
    ensures i < |DueTributes(d0, cfg)| && DueTributes(d0, cfg)[i].toSeat == s
    ensures 0 <= s < |d0.table.players| == |d.table.players|
    ensures 0 <= s < d0.table.playerCount
    ensures d.table.players[s].hand == d0.table.players[s].hand + [DueTributes(d0, cfg)[i].cardId]
  {
    hide Returning, DueTributes, Paid, RequiredAt, PlanRound, RankSeat, PermRanks;
    i := PendingPlace(d0.table.allCards, Context(d0.table, cfg), Paid(d0, cfg), DueTributes(d0, cfg), d, s);
    PaidHand(d0, cfg, prev, i);
    DuePairs(d0, cfg, prev);
    PairsInGame(DueTributes(d0, cfg), d0.table.playerCount);
  }

  // ----- every order -----

  /** Offers that are all accepted, one after another. */
  ghost predicate AllAccepted(d0: Desk, cfg: Config, prev: Previous, offers: seq<Offer>)
    requires Placed(d0.table) && d0.table.playerCount <= |prev.ranks|
  {
    forall k :: 0 <= k < |offers| ==> OfferCode(AfterOffers(d0, cfg, prev, offers[..k]), cfg, offers[k]) == Ok
  }

  lemma AllAcceptedSnoc(d0: Desk, cfg: Config, prev: Previous, offers: seq<Offer>, o: Offer)
    requires Placed(d0.table) && d0.table.playerCount <= |prev.ranks| && AllAccepted(d0, cfg, prev, offers)
    requires OfferCode(AfterOffers(d0, cfg, prev, offers), cfg, o) == Ok
    ensures AllAccepted(d0, cfg, prev, offers + [o])
  {
    hide AfterOffers, OfferCode;
    var all := offers + [o];
    forall k | 0 <= k < |all|
      ensures OfferCode(AfterOffers(d0, cfg, prev, all[..k]), cfg, all[k]) == Ok
    {
      assert k < |offers| ==> all[..k] == offers[..k] && all[k] == offers[k];
      assert k == |offers| ==> all[..k] == offers;
    }
  }

  lemma PaidSnoc(d0: Desk, cfg: Config, prev: Previous, offers: seq<Offer>, o: Offer)
    requires Placed(d0.table) && d0.table.playerCount <= |prev.ranks|
    requires OfferCode(AfterOffers(d0, cfg, prev, offers), cfg, o) == Ok
    ensures var s := SeatOf(AfterOffers(d0, cfg, prev, offers).table, o.player);
            && PaidSeats(d0, cfg, prev, offers + [o]) == PaidSeats(d0, cfg, prev, offers) + (if o.Pay? then {s} else {})
            && ReturnedSeats(d0, cfg, prev, offers + [o]) ==
               ReturnedSeats(d0, cfg, prev, offers) + if o.GiveBack? then {s} else {}
  {
    hide AfterOffers, OfferCode;
    assert (offers + [o])[..|offers|] == offers;
  }

  /** The seats of the first `k` places of a list. */
  ghost function Seats(order: seq<int>): set<int> {
    set s | s in order
  }

  /** The offers of the payers of a list, in its order, each of the card it has to pay. */
  ghost predicate PaysInOrder(d0: Desk, cfg: Config, order: seq<int>, offers: seq<Offer>) {
    |offers| == |order| && forall k :: 0 <= k < |order| ==>
      && offers[k].Pay? && 0 <= order[k] < d0.table.playerCount <= |d0.table.players|
      && offers[k].player == d0.table.players[order[k]].id
      && MustPay(d0.table.allCards, Context(d0.table, cfg), d0.table.players[order[k]].hand, offers[k].card)
  }

  /** Any payers, in any order, may pay: every arrangement of payers that can pay is a run of accepted
      offers. */
  lemma {:induction false} AnyPayOrder(d0: Desk, cfg: Config, prev: Previous, order: seq<int>, offers: seq<Offer>)
    requires Due(d0, cfg, prev) && DistinctIds(d0.table.players, d0.table.playerCount)
    requires NoDuplicates(order) && (forall s :: s in order ==> s in d0.tribute.plan.tributerSeats)
    requires PaysInOrder(d0, cfg, order, offers)
    ensures Placed(d0.table) && d0.table.playerCount <= |prev.ranks|
    ensures AllAccepted(d0, cfg, prev, offers) && PaidSeats(d0, cfg, prev, offers) == Seats(order)
  {
    hide PlanRound, RankSeat, PermRanks, AfterOffers, OfferCode, MustPay, DistinctIds, SeatOf, AllAccepted, PaidSeats;
    hide NoDuplicates, Seats;
    PaidNone(d0, cfg, prev);
    if order == [] {
      assert offers == [];
    } else {
      var k := |order| - 1;
      FirstSeats(order, k);
      AnyPayOrder(d0, cfg, prev, order[..k], offers[..k]);
      assert offers == offers[..k] + [offers[k]];
      LastSeat(order, k);
      assert PaysNow(d0, cfg, PaidSeats(d0, cfg, prev, offers[..k]), order[k], offers[k]);
      PayAcceptedIff(d0, cfg, prev, offers[..k], offers[k]);
      AllAcceptedSnoc(d0, cfg, prev, offers[..k], offers[k]);
      PaidSnoc(d0, cfg, prev, offers[..k], offers[k]);
      SeatOfOffer(d0, cfg, prev, offers[..k], order[k]);
    }
  }

  lemma PaidNone(d0: Desk, cfg: Config, prev: Previous)
    requires Due(d0, cfg, prev)
    ensures Placed(d0.table) && d0.table.playerCount <= |prev.ranks|
    ensures AllAccepted(d0, cfg, prev, []) && PaidSeats(d0, cfg, prev, []) == {} == Seats([])
  {
    hide PlanRound, RankSeat, PermRanks;
  }

  lemma FirstSeats(order: seq<int>, k: nat)
    requires NoDuplicates(order) && k == |order| - 1
    ensures NoDuplicates(order[..k]) && forall s :: s in order[..k] ==> s in order
  {
  }

  lemma LastSeat(order: seq<int>, k: nat)
    requires NoDuplicates(order) && k == |order| - 1
    ensures order[k] in order && order[k] !in Seats(order[..k]) && Seats(order) == Seats(order[..k]) + {order[k]}
  {
    assert order == order[..k] + [order[k]];
  }

  lemma SeatOfOffer(d0: Desk, cfg: Config, prev: Previous, offers: seq<Offer>, s: int)
    requires Due(d0, cfg, prev) && DistinctIds(d0.table.players, d0.table.playerCount) && 0 <= s < d0.table.playerCount
    ensures Placed(d0.table) && d0.table.playerCount <= |prev.ranks|
    ensures SeatOf(AfterOffers(d0, cfg, prev, offers).table, d0.table.players[s].id) == s
  {
    hide PlanRound, RankSeat, PermRanks, AfterOffers, DistinctIds, SeatOf, OnlyHands, SameSeats;
    PhaseKeeps(d0, cfg, prev, offers);
    var d := AfterOffers(d0, cfg, prev, offers);
    OnlyHandsSeats(d0.table.players, d.table.players);
    SamePlayers(d0, d);
    SeatOfPlayer(d0.table, d.table, s);
  }

  /** The offers of the recipients of a list of tributes, by place, each of a card it may give back. */
  ghost predicate ReturnsInOrder(d0: Desk, cfg: Config, tributes: seq<Transfer>, order: seq<nat>, offers: seq<Offer>) {
    |offers| == |order| && forall k :: 0 <= k < |order| ==>
      && order[k] < |tributes| && ReturnsNow(d0, cfg, {}, tributes[order[k]], offers[k])
  }

  ghost function ReturnSeats(tributes: seq<Transfer>, order: seq<nat>): set<int>
    requires forall k :: 0 <= k < |order| ==> order[k] < |tributes|
  {
    set k | 0 <= k < |order| :: tributes[order[k]].toSeat
  }

  /** Once all tributes are paid, in whatever way, the recipients may answer in any order, each with any card
      it may give back. */
  lemma {:induction false} AnyReturnOrder(d0: Desk, cfg: Config, prev: Previous, pays: seq<Offer>, order: seq<nat>,
      offers: seq<Offer>)
    requires Due(d0, cfg, prev) && DistinctIds(d0.table.players, d0.table.playerCount)
    requires Placed(d0.table) && d0.table.playerCount <= |prev.ranks|
    requires SeatsExist(d0.table, d0.tribute.plan.tributerSeats)
    requires AllAccepted(d0, cfg, prev, pays) && ReturnedSeats(d0, cfg, prev, pays) == {}
    requires forall s :: s in d0.tribute.plan.tributerSeats ==> s in PaidSeats(d0, cfg, prev, pays)
    requires NoDuplicates(order) && ReturnsInOrder(d0, cfg, DueTributes(d0, cfg), order, offers)
    ensures AllAccepted(d0, cfg, prev, pays + offers)
    ensures PaidSeats(d0, cfg, prev, pays + offers) == PaidSeats(d0, cfg, prev, pays)
    ensures ReturnedSeats(d0, cfg, prev, pays + offers) == ReturnSeats(DueTributes(d0, cfg), order)
    decreases |order|
  {
    hide PlanRound, RankSeat, PermRanks, AfterOffers, OfferCode, MayGiveBack, DistinctIds, SeatOf, DueTributes;
    hide AllAccepted, PaidSeats, ReturnedSeats;
    var tributes := DueTributes(d0, cfg);
    if order == [] {
      assert pays + offers == pays;
    } else {
      var k := |order| - 1;
      var m, o := tributes[order[k]], offers[k];
      var before := pays + offers[..k];
      AnyReturnOrder(d0, cfg, prev, pays, order[..k], offers[..k]);
      assert order == order[..k] + [order[k]] && pays + offers == before + [o];
      NotYet(d0, cfg, prev, before, order, k);
      assert ReturnsNow(d0, cfg, ReturnedSeats(d0, cfg, prev, before), m, o);
      ReturnAcceptedIff(d0, cfg, prev, before, o);
      AllAcceptedSnoc(d0, cfg, prev, before, o);
      PaidSnoc(d0, cfg, prev, before, o);
      SeatOfOffer(d0, cfg, prev, before, m.toSeat);
      SeatsSnoc(tributes, order, k);
    }
  }

  lemma SeatsSnoc(tributes: seq<Transfer>, order: seq<nat>, k: nat)
    requires k == |order| - 1 && forall j :: 0 <= j < |order| ==> order[j] < |tributes|
    ensures ReturnSeats(tributes, order) == ReturnSeats(tributes, order[..k]) + {tributes[order[k]].toSeat}
  {
    var all, some := ReturnSeats(tributes, order), ReturnSeats(tributes, order[..k]);
    forall s
      ensures s in all <==> s in some + {tributes[order[k]].toSeat}
    {
      if s in some {
        var j :| 0 <= j < k && tributes[order[..k][j]].toSeat == s;
        assert tributes[order[j]].toSeat == s;
      }
      if s in all {
        var j :| 0 <= j < |order| && tributes[order[j]].toSeat == s;
        assert j < k ==> tributes[order[..k][j]].toSeat == s;
      }
    }
  }

  lemma NotYet(d0: Desk, cfg: Config, prev: Previous, before: seq<Offer>, order: seq<nat>, k: nat)
    requires Due(d0, cfg, prev) && SeatsExist(d0.table, d0.tribute.plan.tributerSeats) && Placed(d0.table)
    requires d0.table.playerCount <= |prev.ranks|
    requires forall s :: s in d0.tribute.plan.tributerSeats ==> s in PaidSeats(d0, cfg, prev, before)
    requires NoDuplicates(order) && k == |order| - 1
    requires forall j :: 0 <= j < |order| ==> order[j] < |DueTributes(d0, cfg)|
    requires ReturnedSeats(d0, cfg, prev, before) == ReturnSeats(DueTributes(d0, cfg), order[..k])
    ensures DueTributes(d0, cfg)[order[k]].toSeat !in ReturnedSeats(d0, cfg, prev, before)
  {
    hide PlanRound, RankSeat, PermRanks, AfterOffers, DueTributes, PaidSeats, ReturnedSeats, RequiredAt, Returning;
    hide Paid, Pairs;
    WaitsForTheRest(d0, cfg, prev, before);
    EveryOrder(d0, cfg, prev, before);
    DuePairs(d0, cfg, prev);
    var tributes := DueTributes(d0, cfg);
    forall j | 0 <= j < k
      ensures tributes[order[..k][j]].toSeat != tributes[order[k]].toSeat
    {
      PairsApart(tributes, d0.table.playerCount, order[j], order[k]);
    }
  }

  /** When all recipients have answered, the phase is complete. */
  lemma AnsweredIsComplete(d0: Desk, cfg: Config, prev: Previous, offers: seq<Offer>)
    requires Due(d0, cfg, prev)
    ensures Placed(d0.table) && d0.table.playerCount <= |prev.ranks|
    ensures SeatsExist(d0.table, d0.tribute.plan.tributerSeats)
    ensures Complete(AfterOffers(d0, cfg, prev, offers)) <==>
            && (forall s :: s in d0.tribute.plan.tributerSeats ==> s in PaidSeats(d0, cfg, prev, offers))
            && forall i :: 0 <= i < |DueTributes(d0, cfg)| ==>
                 DueTributes(d0, cfg)[i].toSeat in ReturnedSeats(d0, cfg, prev, offers)
  {
    hide PlanRound, RankSeat, PermRanks, AfterOffers, DueTributes, PaidSeats, ReturnedSeats, RequiredAt, Returning;
    hide Paid, Paying;
    WaitsForTheRest(d0, cfg, prev, offers);
    EveryOrder(d0, cfg, prev, offers);
    var d, tributes := AfterOffers(d0, cfg, prev, offers), DueTributes(d0, cfg);
    if d.table.phase == ReturnTribute {
      if d.tribute.pendingReturnSeats != [] {
        var s := d.tribute.pendingReturnSeats[0];
        assert s in d.tribute.pendingReturnSeats;
      }
      forall i | 0 <= i < |tributes|
        ensures tributes[i].toSeat in Owed(d)
      {
        assert d.last.tributes[i].toSeat == tributes[i].toSeat;
      }
    }
  }

  // ----- versions -----

  /** How many of the offers are accepted. */
  ghost function AcceptedCount(d0: Desk, cfg: Config, prev: Previous, offers: seq<Offer>): nat
    requires Placed(d0.table) && d0.table.playerCount <= |prev.ranks|
  {
    if offers == [] then 0
    else
      var k := |offers| - 1;
      AcceptedCount(d0, cfg, prev, offers[..k]) +
      if OfferCode(AfterOffers(d0, cfg, prev, offers[..k]), cfg, offers[k]) == Ok then 1 else 0
  }

  lemma OfferVersion(d: Desk, cfg: Config, prev: Previous, o: Offer)
    requires Placed(d.table) && d.table.playerCount <= |prev.ranks| && OfferCode(d, cfg, o) == Ok
    requires AfterOffer(d, cfg, prev, o).table.phase in {Tribute, ReturnTribute}
    ensures var d' := AfterOffer(d, cfg, prev, o);
            d'.table.stateVersion == d.table.stateVersion + 1 + if d'.table.phase != d.table.phase then 1 else 0
    ensures d.table.phase in {Tribute, ReturnTribute}
    ensures d.table.phase == ReturnTribute ==> AfterOffer(d, cfg, prev, o).table.phase == ReturnTribute
  {
    hide TributesOf, MoveCards, FirstPlayer, PayerOf, AssignSummary, Payers, Recipients, ValidTributeSubmission;
    hide ValidReturnSubmission, MoveCard, SeatOf;
  }

  /** Every accepted submission is a new version of the state, and the change of hands one more. */
  lemma {:induction false} VersionsGrow(d0: Desk, cfg: Config, prev: Previous, offers: seq<Offer>)
    requires Due(d0, cfg, prev)
    ensures Placed(d0.table) && d0.table.playerCount <= |prev.ranks|
    ensures var t := AfterOffers(d0, cfg, prev, offers).table;
            && t.phase in {Tribute, ReturnTribute}
            && t.stateVersion == d0.table.stateVersion + AcceptedCount(d0, cfg, prev, offers) +
                                 if t.phase == ReturnTribute then 1 else 0
  {
    hide Waits, AfterOffer, OfferCode, PlanRound, RankSeat, PermRanks;
    WaitsForTheRest(d0, cfg, prev, offers);
    PhaseOf(d0, AfterOffers(d0, cfg, prev, offers), PaidSeats(d0, cfg, prev, offers),
            ReturnedSeats(d0, cfg, prev, offers));
    if offers != [] {
      var k := |offers| - 1;
      var d, o := AfterOffers(d0, cfg, prev, offers[..k]), offers[k];
      VersionsGrow(d0, cfg, prev, offers[..k]);
      if OfferCode(d, cfg, o) == Ok {
        OfferVersion(d, cfg, prev, o);
      } else {
        OfferRefused(d, cfg, prev, o);
      }
    }
  }

  lemma PhaseOf(d0: Desk, d: Desk, paid: set<int>, returned: set<int>)
    requires Waits(d0, d, paid, returned)
    ensures d.table.phase in {Tribute, ReturnTribute}
  {
  }
}
