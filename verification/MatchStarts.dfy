/** How rounds begin: who has to be ready, what the table shows, and who leads. */
module MatchStarts {
  import opened Lists
  import opened Cards
  import opened State
  import opened Seats
  import opened Turns
  import opened FinishRanks
  import opened Settlements
  import opened Decks
  import opened Round
  import opened RoundProofs
  import opened Runs
  import opened Conservation
  import opened Liveness
  import opened Tributes
  import opened Exchange
  import opened TributePhase
  import opened AnyOrder
  import opened OneShot
  import opened TributeEnds
  import opened Match
  import opened MatchProofs
  import Progress

  // ----- ready marks -----

  /** What a player last asked for, if anything since the players were seated. */
  function LastMark(first: bool, actions: seq<Action>, id: nat): bool {
    if actions == [] then first
    else
      var k := |actions| - 1;
      match actions[k]
      case SetReady(player, ready) => if player == id then ready else LastMark(first, actions[..k], id)
      case _ => LastMark(first, actions[..k], id)
  }

  lemma MarkOne(p: seq<Player>, n: nat, id: nat, ready: bool, s: int)
    requires DistinctIds(p, n) && 0 <= s < n
    ensures |MarkReady(p, id, ready)| == |p|
    ensures MarkReady(p, id, ready)[s] == if p[s].id == id then p[s].(isReady := ready) else p[s]
  {
    hide SeatFrom;
    var m := SeatFrom(p, |p|, id, 0);
    if p[s].id == id {
      FirstFound(p, n, s, 0);
    }
  }

  lemma {:induction false} FirstFound(p: seq<Player>, n: nat, s: int, k: nat)
    requires DistinctIds(p, n) && k <= s < n
    ensures SeatFrom(p, |p|, p[s].id, k) == s
    decreases s - k
  {
    if k < s {
      FirstFound(p, n, s, k + 1);
    }
  }

  /** No action but a ready request touches the marks or the seats. */
  lemma SeatsAfter(g: Game, cfg: Config, w: Witness, a: Action)
    requires MatchInv(g, cfg, w) && Enabled(g, cfg, a)
    ensures Sound(g, cfg) && GoodConfig(cfg)
    ensures !a.SetReady? ==> SameSeats(g.desk.table.players, AfterAction(g, cfg, a).desk.table.players)
    ensures a.SetReady? ==>
              AfterAction(g, cfg, a).desk.table.players == MarkReady(g.desk.table.players, a.player, a.ready)
    ensures AfterAction(g, cfg, a).desk.table.playerCount == g.desk.table.playerCount
  {
    hide MatchInv, PlayCode, PassCode, TributeCode, ReturnCode, StartCode, NextCode, PassTable, PlayTable, Calculate;
    hide SameSeats, IdleSeats, DistinctIds, CanDeal, Shuffled, DealtTable, TributesOf, PlanRound, FirstPlayer, PayerOf;
    hide TeamsAlternate, Progress.StandingInv, MarkReady, AfterTribute, AfterReturn, Complete;
    MatchSound(g, cfg, w);
    AllSame(g.desk.table.players);
    if ActionCode(g, cfg, a) == Ok {
      match a
      case SetReady(_, _) =>
      case StartGame(shuffled) => DealIsFresh(g.(previous := NO_PREVIOUS), cfg, shuffled);
      case StartNextRound(shuffled) => DealIsFresh(g, cfg, shuffled);
      case PlayCards(id, cards) => PlaySeats(g.desk.table, cfg, cards);
      case PassTurn(_) => PassSeats(g.desk.table);
      case SubmitTribute(id, card) => SubmitSeats(g, cfg, w, Pay(id, card));
      case SubmitReturn(id, card) => SubmitSeats(g, cfg, w, GiveBack(id, card));
      case FinalizeTribute =>
    }
  }

  lemma AllSame(p: seq<Player>)
    ensures SameSeats(p, p)
  {
  }

  lemma SubmitSeats(g: Game, cfg: Config, w: Witness, o: Offer)
    requires MatchInv(g, cfg, w) && OfferCode(g.desk, cfg, o) == Ok
    ensures Placed(g.desk.table) && g.desk.table.playerCount <= |g.previous.ranks|
    ensures SameSeats(g.desk.table.players, AfterOffer(g.desk, cfg, g.previous, o).table.players)
    ensures AfterOffer(g.desk, cfg, g.previous, o).table.playerCount == g.desk.table.playerCount
  {
    hide AfterOffer, AfterOffers, Due, FreshDeal, TeamsAlternate, Progress.StandingInv, DistinctIds, IdleSeats, InRound;
    hide Ended, SameSeats, PhaseInv, Terms;
    OfferPhase(g.desk, cfg, o);
    var w' := SubmitInv(g, cfg, w, o);
    var g' := g.(desk := AfterOffer(g.desk, cfg, g.previous, o));
    DeskKept(g, cfg, w);
    InTributeAgain(g, g', cfg, w, w');
    DeskKept(g', cfg, w');
    TwoHands(w.due.table.players, g.desk.table.players, g'.desk.table.players);
  }

  lemma OfferPhase(d: Desk, cfg: Config, o: Offer)
    requires Placed(d.table) && OfferCode(d, cfg, o) == Ok
    ensures d.table.phase in {Tribute, ReturnTribute}
  {
    hide SeatOf;
  }

  lemma InTributeAgain(g: Game, g': Game, cfg: Config, w: Witness, w': Witness)
    requires MatchInv(g, cfg, w) && MatchInv(g', cfg, w') && w'.due == w.due && g'.previous == g.previous
    requires g.desk.table.phase in {Tribute, ReturnTribute} && w'.offers != []
    requires exists o :: Placed(g.desk.table) && g.desk.table.playerCount <= |g.previous.ranks|
                         && g'.desk == AfterOffer(g.desk, cfg, g.previous, o) && w'.offers == w.offers + [o]
    ensures InTribute(g', cfg, w')
  {
    hide AfterOffer, AfterOffers, Due, FreshDeal, DistinctIds, IdleSeats, TeamsAlternate, Progress.StandingInv, InRound;
    hide Ended, Terms;
    DuePlaced(w.due, cfg, g.previous);
    var o :| g'.desk == AfterOffer(g.desk, cfg, g.previous, o) && w'.offers == w.offers + [o];
    OffersSnoc(w.due, cfg, g.previous, w.offers, o);
  }

  lemma TwoHands(p: seq<Player>, a: seq<Player>, b: seq<Player>)
    requires OnlyHands(p, a) && OnlyHands(p, b)
    ensures SameSeats(a, b)
  {
  }

  /** In every reachable state each player is marked as it last asked to be, whatever else has happened. */
  lemma {:induction false} MarksFollowRequests(start: Game, cfg: Config, actions: seq<Action>, g: Game, s: int)
    requires Seating(start, cfg) && Reaches(start, cfg, actions, g) && 0 <= s < start.desk.table.playerCount
    ensures g.desk.table.playerCount == start.desk.table.playerCount
    ensures |g.desk.table.players| == |start.desk.table.players| && s < |start.desk.table.players|
    ensures var p, q := start.desk.table.players[s], g.desk.table.players[s];
            q.id == p.id && q.team == p.team && q.isReady == LastMark(p.isReady, actions, p.id)
  {
    hide Seating, Sound, GoodConfig, Enabled, AfterAction, MarkReady, MatchInv, DistinctIds;
    SeatingPlaced(start, cfg);
    if actions != [] {
      var k := |actions| - 1;
      var before: Game :| Reaches(start, cfg, actions[..k], before) && Sound(before, cfg) && GoodConfig(cfg)
                          && Enabled(before, cfg, actions[k]) && g == AfterAction(before, cfg, actions[k]);
      MarksFollowRequests(start, cfg, actions[..k], before, s);
      var w := EveryMatch(start, cfg, actions[..k], before);
      SeatsAfter(before, cfg, w, actions[k]);
      MatchSound(before, cfg, w);
      if actions[k].SetReady? {
        MarkOne(before.desk.table.players, before.desk.table.playerCount, actions[k].player, actions[k].ready, s);
      }
    }
  }

  lemma SeatingPlaced(start: Game, cfg: Config)
    requires Seating(start, cfg)
    ensures start.desk.table.playerCount <= |start.desk.table.players|
  {
    hide TeamsAlternate, Progress.StandingInv, DistinctIds, IdleSeats;
  }

  /** Before the first round a start is accepted exactly if every player's last request was to be ready; once a
      round has been dealt it is refused. */
  lemma StartAcceptedIff(start: Game, cfg: Config, actions: seq<Action>, g: Game, shuffled: seq<Card>)
    requires Seating(start, cfg) && Reaches(start, cfg, actions, g)
    ensures start.desk.table.playerCount <= |start.desk.table.players| && Seated(g.desk.table)
    ensures ActionCode(g, cfg, StartGame(shuffled)) == Ok <==>
            && g.desk.table.phase in {Waiting, Phase.Ready}
            && forall s :: 0 <= s < start.desk.table.playerCount ==>
                 LastMark(start.desk.table.players[s].isReady, actions, start.desk.table.players[s].id)
    ensures g.desk.table.phase !in {Waiting, Phase.Ready} ==> ActionCode(g, cfg, StartGame(shuffled)) == InvalidState
  {
    hide Seating, Reaches, MatchInv, LastMark, DistinctIds, IdleSeats, TeamsAlternate, Progress.StandingInv;
    SeatingPlaced(start, cfg);
    var w := EveryMatch(start, cfg, actions, g);
    MatchSound(g, cfg, w);
    forall s | 0 <= s < start.desk.table.playerCount
      ensures |g.desk.table.players| == |start.desk.table.players|
      ensures g.desk.table.players[s].isReady ==
              LastMark(start.desk.table.players[s].isReady, actions, start.desk.table.players[s].id)
    {
      MarksFollowRequests(start, cfg, actions, g, s);
    }
    SameCount(start, cfg, actions, g);
  }

  lemma SameCount(start: Game, cfg: Config, actions: seq<Action>, g: Game)
    requires Seating(start, cfg) && Reaches(start, cfg, actions, g)
    ensures g.desk.table.playerCount == start.desk.table.playerCount == cfg.playerCount > 0
  {
    hide Reaches, DistinctIds, IdleSeats, TeamsAlternate, Progress.StandingInv;
    MarksFollowRequests(start, cfg, actions, g, 0);
  }

  // ----- who leads -----

  /** A table on which play has just begun at seat `first`: the first turn of a new round, nothing on the table,
      at the attackers' level. */
  ghost predicate JustBegun(t: Table, before: Table, s: Progress.Standing, first: int) {
    && t.phase == Playing && t.currentPlayerIndex == first == t.firstPlayerIndex && t.turnId == 1
    && t.round == before.round + 1 && t.stateVersion == before.stateVersion + 1 && Terms(t, s)
        && !t.lastPattern.isValid && t.lastPlayedCards == []
    && t.lastPlayedPlayerIndex == -1 && t.passCount == 0
  }

  lemma DealtBegins(g: Game, cfg: Config, shuffled: seq<Card>, first: int)
    requires Sound(g, cfg) && GoodConfig(cfg) && Shuffled(cfg, shuffled)
    ensures CanDeal(g, cfg, shuffled)
    ensures JustBegun(BeginPlaying(DealtTable(g, cfg, shuffled), first), g.desk.table,
              Progress.PrepareNextRound(g.standing),
                      first)
  {
    hide Shuffled, DealSpec, TeamsAlternate, Progress.StandingInv;
    CanAlwaysDeal(g, cfg, shuffled);
  }

  /** The first round of a match is led by seat 0. */
  lemma FirstRoundBegins(g: Game, cfg: Config, w: Witness, shuffled: seq<Card>)
    requires MatchInv(g, cfg, w) && Shuffled(cfg, shuffled) && ActionCode(g, cfg, StartGame(shuffled)) == Ok
    ensures Sound(g, cfg) && GoodConfig(cfg)
    ensures var g' := AfterAction(g, cfg, StartGame(shuffled));
            JustBegun(g'.desk.table, g.desk.table, g'.standing, 0) && !g'.previous.valid
  {
    hide MatchInv, Shuffled, CanDeal, DealtTable, JustBegun, BeginPlaying, StartCode;
    MatchSound(g, cfg, w);
    var g0 := g.(previous := NO_PREVIOUS);
    DealtBegins(g0, cfg, shuffled, 0);
  }

  /** A later round is led by the first of the last one if there is no tribute or the payers counter it;
      otherwise it waits for their cards. */
  lemma NextRoundBegins(g: Game, cfg: Config, w: Witness, shuffled: seq<Card>)
    requires MatchInv(g, cfg, w) && Shuffled(cfg, shuffled) && g.desk.table.phase == Finished
    ensures Sound(g, cfg) && GoodConfig(cfg) && CanDeal(g, cfg, shuffled)
    ensures var n, g' := g.desk.table.playerCount, AfterAction(g, cfg, StartNextRound(shuffled));
            var plan := PlanRound(DealtTable(g, cfg, shuffled), cfg, g.previous);
            && g'.previous == g.previous
            && if !cfg.enableTribute || plan.antiTribute
               then JustBegun(g'.desk.table, g.desk.table, g'.standing, RankSeat(g.previous.ranks, n, 1))
               else g'.desk.table.phase == Tribute && g'.desk.tribute.pendingTributers == plan.tributerSeats
                    && g'.desk.table.stateVersion == DealtTable(g, cfg, shuffled).stateVersion + 1
                    && g'.desk.table.players == DealtTable(g, cfg, shuffled).players
  {
    hide MatchInv, Shuffled, CanDeal, DealtTable, JustBegun, BeginPlaying, PermRanks, RankSeat, PlanRound, Terms;
    EndedFacts(g, cfg, w);
    LastRoundCounts(g, cfg, w);
    DealtBegins(g, cfg, shuffled, RankSeat(g.previous.ranks, g.desk.table.playerCount, 1));
    HeadOfPlan(DealtTable(g, cfg, shuffled), cfg, g.previous);
  }

  lemma LastRoundCounts(g: Game, cfg: Config, w: Witness)
    requires MatchInv(g, cfg, w) && g.desk.table.phase == Finished
    ensures g.previous.valid
  {
    hide InRound, DistinctIds, IdleSeats, PermRanks, TeamsAlternate, Progress.StandingInv;
  }

  lemma HeadOfPlan(t: Table, cfg: Config, prev: Previous)
    requires t.playerCount <= |t.players| == |prev.ranks| && PermRanks(prev.ranks, t.playerCount) && prev.valid
    ensures var plan := PlanRound(t, cfg, prev);
            && plan.headSeat == RankSeat(prev.ranks, t.playerCount, 1) >= 0 && (plan.skipped <==> !cfg.enableTribute)
            && (plan.skipped ==> !plan.antiTribute)
  {
    hide RankSeat, SeatsOfRanks, AntiTribute, TeamFirst;
  }
}
