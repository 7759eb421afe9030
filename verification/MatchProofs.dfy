/** Every state a match can reach: each round is a fresh deal of the whole deck followed by a run. */
module MatchProofs {
  import opened Lists
  import opened Cards
  import opened State
  import opened Seats
  import opened Turns
  import opened FinishRanks
  import opened Settlements
  import opened Hands
  import opened Decks
  import opened Round
  import opened RoundProofs
  import opened Runs
  import opened Conservation
  import opened Liveness
  import opened Tributes
  import opened Exchange
  import opened TributePhase
  import opened AnyOrder
  import opened OneShot
  import opened TributeEnds
  import opened Match
  import Confluence
  import Progress

  /** The hands are dealt from a shuffled deck: equal in size, no card twice, and the whole deck unless
      the room is a solo test. */
  ghost predicate DealtFrom(t: Table, cfg: Config) {
    && t.playerCount <= |t.players| && Shuffled(cfg, t.allCards) && Unrepeated(PoolOf(t))
    && (forall x :: x in PoolOf(t) ==> x in IdsOf(t.allCards))
    && (!cfg.soloTest ==> PoolOf(t) == multiset(IdsOf(t.allCards)))
    && (forall s, s' :: 0 <= s < s' < t.playerCount ==> |t.players[s].hand| == |t.players[s'].hand|)
  }

  /** A table just dealt. */
  ghost predicate FreshDeal(t: Table, cfg: Config) {
    && Placed(t) && TeamsAlternate(t.players, t.playerCount, cfg.playersPerTeam) && DealtFrom(t, cfg)
    && (forall s :: 0 <= s < |t.players| ==> !t.players[s].hasFinished)
    && (forall s :: 0 <= s < t.playerCount ==> t.players[s].hand != [] && t.players[s].finishRank == 0)
    && !t.lastPattern.isValid && t.lastPlayedCards == [] && t.lastPlayedPlayerIndex == -1 && t.passCount == 0
  }

  /** The table plays at the attackers' level. */
  ghost predicate Terms(t: Table, s: Progress.Standing) {
    && Progress.Shaped(s) && t.attackingTeam == s.attackingTeam && t.currentLevel == s.levels[s.attackingTeam]
    && (t.isPassARound <==> Progress.IsPassARound(s))
  }

  // ----- the deal -----

  lemma {:induction false} OnceInPrefix(ids: seq<CardId>, m: nat, x: CardId)
    requires NoDuplicates(ids) && m <= |ids|
    ensures multiset(ids[..m])[x] <= 1 && (multiset(ids[..m])[x] > 0 ==> x in ids)
  {
    CountOnce(ids[..m], x);
  }

  lemma DealtPool(hands: seq<seq<CardId>>, ids: seq<CardId>, n: nat, each: nat, m: nat)
    requires EvenDeal(hands, ids, n, each, m) && NoDuplicates(ids)
    ensures Pool(hands, n) == multiset(ids[..m]) && Unrepeated(Pool(hands, n))
    ensures forall x :: x in Pool(hands, n) ==> x in ids
  {
    hide Pool;
    forall x
      ensures multiset(ids[..m])[x] <= 1 && (multiset(ids[..m])[x] > 0 ==> x in ids)
    {
      if 0 <= x < 0x1_0000 {
        OnceInPrefix(ids, m, x);
      }
    }
  }

  lemma EachGetsCards(cfg: Config, each: nat, n: nat)
    requires GoodConfig(cfg) && n == cfg.playerCount && each * n == CARDS_PER_DECK * cfg.deckCount
    ensures each > 0
  {
    assert each == 0 ==> each * n == 0;
  }

  /** The hands of a deal, seat by seat. */
  lemma DealtHandsFresh(g: Game, cfg: Config, shuffled: seq<Card>) returns (hands: seq<seq<CardId>>, each: nat, m: nat)
    requires Sound(g, cfg) && GoodConfig(cfg) && Shuffled(cfg, shuffled)
    ensures CanDeal(g, cfg, shuffled) && |hands| == g.desk.table.playerCount && each > 0
    ensures DealtTable(g, cfg, shuffled) == RoundTable(g.desk.table, Progress.PrepareNextRound(g.standing), shuffled,
              hands)
    ensures EvenDeal(hands, IdsOf(shuffled), g.desk.table.playerCount, each, m)
    ensures !cfg.soloTest ==> m == |shuffled|
  {
    hide Pool, Blocks, RoundRobin, RoundTable;
    CanAlwaysDeal(g, cfg, shuffled);
    ShuffledSize(cfg, shuffled);
    hands := DealSpec(shuffled, g.desk.table.playerCount, CardsPerPlayer(cfg)).hands;
    each, m := DealConserves(shuffled, g.desk.table.playerCount, CardsPerPlayer(cfg));
    if !cfg.soloTest {
      EachGetsCards(cfg, each, g.desk.table.playerCount);
    }
  }

  lemma DealIsFresh(g: Game, cfg: Config, shuffled: seq<Card>)
    requires Sound(g, cfg) && GoodConfig(cfg) && Shuffled(cfg, shuffled)
    requires IdleSeats(g.desk.table.players, g.desk.table.playerCount)
    ensures CanDeal(g, cfg, shuffled) && FreshDeal(DealtTable(g, cfg, shuffled), cfg)
    ensures Terms(DealtTable(g, cfg, shuffled), Progress.PrepareNextRound(g.standing))
    ensures SameSeats(g.desk.table.players, DealtTable(g, cfg, shuffled).players)
    ensures DealtTable(g, cfg, shuffled).currentPlayerIndex == g.desk.table.currentPlayerIndex
  {
    hide Pool, DealtTable, Shuffled, CanDeal, DealSpec, IdsOf;
    var hands, each, m := DealtHandsFresh(g, cfg, shuffled);
    var t, n := DealtTable(g, cfg, shuffled), g.desk.table.playerCount;
    ShuffledSize(cfg, shuffled);
    DealtPool(hands, IdsOf(shuffled), n, each, m);
    PoolPrefix(HandsOf(t.players), hands, n);
    assert IdsOf(shuffled)[..|shuffled|] == IdsOf(shuffled);
  }

  // ----- the invariant of a match -----

  /** How the current round came about: the deal and what was submitted in the tribute phase, the table
      when play began and the moves since. */
  datatype Witness = Witness(due: Desk, offers: seq<Offer>, opening: Table, moves: seq<Move>)

  /** The table is what a run from a fresh deal leaves. */
  ghost predicate InRound(t: Table, cfg: Config, w: Witness) {
    && Opening(w.opening, cfg.playersPerTeam) && DealtFrom(w.opening, cfg)
        && DistinctIds(w.opening.players, w.opening.playerCount)
    && t == Run(w.opening, cfg, w.moves).table
  }

  ghost predicate InTribute(g: Game, cfg: Config, w: Witness) {
    && Due(w.due, cfg, g.previous) && FreshDeal(w.due.table, cfg)
        && DistinctIds(w.due.table.players, w.due.table.playerCount)
    && g.desk == AfterOffers(w.due, cfg, g.previous, w.offers)
  }

  /** Equal up to the ready marks. */
  ghost predicate ReadyApart(t: Table, u: Table) {
    && t == u.(players := t.players) && |t.players| == |u.players|
    && forall s :: 0 <= s < |t.players| ==> t.players[s] == u.players[s].(isReady := t.players[s].isReady)
  }

  ghost predicate Ended(g: Game, cfg: Config, w: Witness) {
    && Round.Ready(w.opening) && InRound(Run(w.opening, cfg, w.moves).table, cfg, w)
    && ReadyApart(g.desk.table, Run(w.opening, cfg, w.moves).table)
    && g.previous == BuildPrevious(g.desk.table, g.standing.lastWinningTeam) && g.standing.lastWinningTeam >= 0
    && PermRanks(g.previous.ranks, g.desk.table.playerCount)
  }

  ghost predicate MatchInv(g: Game, cfg: Config, w: Witness) {
    && Sound(g, cfg) && GoodConfig(cfg)
    && DistinctIds(g.desk.table.players, g.desk.table.playerCount)
        && IdleSeats(g.desk.table.players, g.desk.table.playerCount)
    && match g.desk.table.phase
       case Waiting => true
       case Ready => true
       case Playing => InRound(g.desk.table, cfg, w) && Terms(w.opening, g.standing)
       case Tribute => InTribute(g, cfg, w) && Terms(w.due.table, g.standing)
       case ReturnTribute => InTribute(g, cfg, w) && Terms(w.due.table, g.standing)
       case Finished => Ended(g, cfg, w)
       case _ => false
  }

  // ----- each action keeps it -----

  lemma OpeningOf(t: Table, cfg: Config, first: int)
    requires FreshDeal(t, cfg) && 0 <= first < t.playerCount
    ensures Opening(BeginPlaying(t, first), cfg.playersPerTeam) && DealtFrom(BeginPlaying(t, first), cfg)
  {
    hide Unrepeated, PoolOf, Shuffled, IdsOf;
    assert PoolOf(BeginPlaying(t, first)) == PoolOf(t) by { SamePool(BeginPlaying(t, first), t); }
  }

  lemma SamePool(t: Table, u: Table)
    requires t.players == u.players && t.playerCount == u.playerCount <= |t.players|
    ensures PoolOf(t) == PoolOf(u)
  {
  }

  lemma StaysDistinct(p: seq<Player>, q: seq<Player>, n: int, ppt: int)
    requires SameSeats(p, q)
    ensures DistinctIds(p, n) ==> DistinctIds(q, n)
    ensures TeamsAlternate(p, n, ppt) ==> TeamsAlternate(q, n, ppt)
  {
  }

  lemma BeginRound(g: Game, g': Game, cfg: Config, shuffled: seq<Card>, first: int) returns (w: Witness)
    requires Sound(g, cfg) && GoodConfig(cfg) && Shuffled(cfg, shuffled)
    requires DistinctIds(g.desk.table.players, g.desk.table.playerCount)
    requires IdleSeats(g.desk.table.players, g.desk.table.playerCount)
    requires 0 <= first < g.desk.table.playerCount && CanDeal(g, cfg, shuffled)
    requires g'.desk.table == BeginPlaying(DealtTable(g, cfg, shuffled), first)
    requires g'.standing == Progress.PrepareNextRound(g.standing)
    requires g'.previous.ranks == g.previous.ranks
    ensures MatchInv(g', cfg, w)
  {
    hide DealtTable, DealtFrom, TeamsAlternate, DistinctIds, SameSeats, Progress.StandingInv;
    DealIsFresh(g, cfg, shuffled);
    var t := DealtTable(g, cfg, shuffled);
    OpeningOf(t, cfg, first);
    StaysDistinct(g.desk.table.players, t.players, t.playerCount, cfg.playersPerTeam);
    Progress.AfterRoundInv(g.standing, -1, 0);
    w := Witness(g.desk, [], BeginPlaying(t, first), []);
  }

  lemma StartsRound(g: Game, cfg: Config, shuffled: seq<Card>, w: Witness) returns (w': Witness)
    requires MatchInv(g, cfg, w) && Shuffled(cfg, shuffled) && StartCode(g, cfg) == Ok
    ensures MatchInv(AfterAction(g, cfg, StartGame(shuffled)), cfg, w')
  {
    hide MatchInv, DealtTable, Shuffled, DistinctIds, IdleSeats, TeamsAlternate, Progress.StandingInv;
    MatchSound(g, cfg, w);
    var g0 := g.(previous := NO_PREVIOUS);
    CanAlwaysDeal(g0, cfg, shuffled);
    w' := BeginRound(g0, DealFirst(g0, cfg, shuffled), cfg, shuffled, 0);
  }

  lemma MatchSound(g: Game, cfg: Config, w: Witness)
    requires MatchInv(g, cfg, w)
    ensures Sound(g, cfg) && GoodConfig(cfg)
    ensures DistinctIds(g.desk.table.players, g.desk.table.playerCount)
    ensures IdleSeats(g.desk.table.players, g.desk.table.playerCount)
  {
  }

  // ----- the next round -----

  lemma {:induction false} JokersSame(t: Table, u: Table, seats: seq<int>, k: nat)
    requires t.players == u.players && t.allCards == u.allCards && SeatsExist(t, seats) && k <= |seats|
    ensures TotalBigJokers(t, seats, k) == TotalBigJokers(u, seats, k)
  {
    if k > 0 {
      JokersSame(t, u, seats, k - 1);
    }
  }

  lemma PlanSame(t: Table, u: Table, cfg: Config, prev: Previous)
    requires t.players == u.players && t.allCards == u.allCards
    requires t.playerCount == u.playerCount <= |t.players| == |prev.ranks|
    ensures PlanRound(t, cfg, prev) == PlanRound(u, cfg, prev)
  {
    hide RankSeat, SeatsOfRanks, TotalBigJokers;
    forall seats | SeatsExist(t, seats)
      ensures AntiTribute(t, cfg.playersPerTeam, seats) == AntiTribute(u, cfg.playersPerTeam, seats)
    {
      JokersSame(t, u, seats, |seats|);
    }
  }

  lemma HeadSeat(t: Table, cfg: Config, prev: Previous)
    requires t.playerCount <= |t.players| == |prev.ranks| && PermRanks(prev.ranks, t.playerCount)
    ensures 0 <= PlanRound(t, cfg, prev).headSeat < t.playerCount
    ensures prev.valid && cfg.enableTribute ==> !PlanRound(t, cfg, prev).skipped
  {
    hide RankSeat, SeatsOfRanks, AntiTribute, TeamFirst;
  }

  /** The tribute phase opens with a sound plan. */
  lemma TributeOpens(t: Table, cfg: Config, prev: Previous) returns (d: Desk)
    requires FreshDeal(t, cfg) && |prev.ranks| == MAX_PLAYERS && PermRanks(prev.ranks, t.playerCount) && prev.valid
    requires cfg.enableTribute
    requires !PlanRound(t, cfg, prev).antiTribute
    ensures d == Desk(t.(phase := Tribute, stateVersion := t.stateVersion + 1),
                      TributeState(true, PlanRound(t, cfg, prev), map[], PlanRound(t, cfg, prev).tributerSeats, [],
                          map[]), NO_OUTCOME)
    ensures Due(d, cfg, prev) && FreshDeal(d.table, cfg)
  {
    hide PlanRound, RankSeat, PlanShape, DealtFrom;
    var t' := t.(phase := Tribute, stateVersion := t.stateVersion + 1);
    var plan := PlanRound(t, cfg, prev);
    d := Desk(t', TributeState(true, plan, map[], plan.tributerSeats, [], map[]), NO_OUTCOME);
    PlanSame(t, t', cfg, prev);
    var k := PlanMeaning(t, cfg, prev);
    HasLastPayer(prev.ranks, t.playerCount, k, plan);
    Confluence.ShapeIsSound(prev.ranks, t.playerCount, k, plan);
    DealtSame(t, t', cfg);
  }

  lemma HasLastPayer(ranks: seq<int>, n: nat, k: int, plan: Plan)
    requires PermRanks(ranks, n) && PlanShape(ranks, n, k, plan) && 2 * k <= n
    ensures RankSeat(ranks, n, n) in plan.tributerSeats
  {
    PlanDisjoint(ranks, n, k, plan);
  }

  lemma DealtSame(t: Table, u: Table, cfg: Config)
    requires t.players == u.players && t.playerCount == u.playerCount && t.allCards == u.allCards && DealtFrom(t, cfg)
    ensures DealtFrom(u, cfg)
  {
    SamePool(t, u);
  }

  /** What holds of a game whose next round may be dealt. */
  ghost predicate BetweenRounds(g: Game, cfg: Config) {
    && Sound(g, cfg) && GoodConfig(cfg) && PermRanks(g.previous.ranks, g.desk.table.playerCount)
    && DistinctIds(g.desk.table.players, g.desk.table.playerCount)
        && IdleSeats(g.desk.table.players, g.desk.table.playerCount)
  }

  lemma NextRoundPlays(g: Game, cfg: Config, shuffled: seq<Card>) returns (w: Witness)
    requires BetweenRounds(g, cfg) && Shuffled(cfg, shuffled) && CanDeal(g, cfg, shuffled)
    requires var plan := PlanRound(DealtTable(g, cfg, shuffled), cfg, g.previous); plan.skipped || plan.antiTribute
    ensures MatchInv(DealNext(g, cfg, shuffled), cfg, w)
  {
    hide MatchInv, DealtTable, Shuffled, DistinctIds, IdleSeats, TeamsAlternate, Progress.StandingInv, PermRanks;
    hide PlanRound;
    var t := DealtTable(g, cfg, shuffled);
    HeadSeat(t, cfg, g.previous);
    w := BeginRound(g, DealNext(g, cfg, shuffled), cfg, shuffled, PlanRound(t, cfg, g.previous).headSeat);
  }

  lemma NextRoundPays(g: Game, cfg: Config, shuffled: seq<Card>) returns (w: Witness)
    requires BetweenRounds(g, cfg) && Shuffled(cfg, shuffled) && CanDeal(g, cfg, shuffled)
    requires var plan := PlanRound(DealtTable(g, cfg, shuffled), cfg, g.previous); !plan.skipped && !plan.antiTribute
    ensures MatchInv(DealNext(g, cfg, shuffled), cfg, w)
  {
    hide MatchInv, DealtTable, Shuffled, DistinctIds, IdleSeats, TeamsAlternate, Progress.StandingInv, PermRanks;
    hide PlanRound, DealtFrom, CanDeal, Due;
    var t := DealtTable(g, cfg, shuffled);
    DealIsFresh(g, cfg, shuffled);
    PlanNeedsTribute(t, cfg, g.previous);
    var d := TributeOpens(t, cfg, g.previous);
    w := Witness(d, [], d.table, []);
    TributeBegins(g, DealNext(g, cfg, shuffled), cfg, shuffled, d, w);
  }

  lemma NextRoundInv(g: Game, cfg: Config, shuffled: seq<Card>, w: Witness) returns (w': Witness)
    requires MatchInv(g, cfg, w) && Shuffled(cfg, shuffled) && NextCode(g) == Ok
    ensures CanDeal(g, cfg, shuffled) && MatchInv(DealNext(g, cfg, shuffled), cfg, w')
  {
    hide MatchInv, DealtTable, DealNext, Shuffled, DistinctIds, IdleSeats, TeamsAlternate, Progress.StandingInv;
    hide PermRanks, PlanRound, CanDeal;
    EndedFacts(g, cfg, w);
    CanAlwaysDeal(g, cfg, shuffled);
    var plan := PlanRound(DealtTable(g, cfg, shuffled), cfg, g.previous);
    if plan.skipped || plan.antiTribute {
      w' := NextRoundPlays(g, cfg, shuffled);
    } else {
      w' := NextRoundPays(g, cfg, shuffled);
    }
  }

  lemma PlanNeedsTribute(t: Table, cfg: Config, prev: Previous)
    requires t.playerCount <= |t.players| == |prev.ranks| && !PlanRound(t, cfg, prev).skipped
    ensures prev.valid && cfg.enableTribute
  {
    hide RankSeat, SeatsOfRanks, AntiTribute, TeamFirst;
  }

  lemma EndedFacts(g: Game, cfg: Config, w: Witness)
    requires MatchInv(g, cfg, w) && g.desk.table.phase == Finished
    ensures Sound(g, cfg) && GoodConfig(cfg) && PermRanks(g.previous.ranks, g.desk.table.playerCount)
    ensures |g.previous.ranks| == MAX_PLAYERS
    ensures DistinctIds(g.desk.table.players, g.desk.table.playerCount)
    ensures IdleSeats(g.desk.table.players, g.desk.table.playerCount)
    ensures Placed(g.desk.table) && g.desk.table.playerCount <= |g.desk.table.players|
  {
    hide InRound, DistinctIds, IdleSeats, PermRanks, TeamsAlternate, Progress.StandingInv;
  }

  lemma TributeBegins(g: Game, g': Game, cfg: Config, shuffled: seq<Card>, d: Desk, w: Witness)
    requires Sound(g, cfg) && GoodConfig(cfg) && CanDeal(g, cfg, shuffled) && Shuffled(cfg, shuffled)
    requires DistinctIds(g.desk.table.players, g.desk.table.playerCount)
    requires IdleSeats(g.desk.table.players, g.desk.table.playerCount)
    requires g' == Game(d, Progress.PrepareNextRound(g.standing), g.previous) && Due(d, cfg, g.previous)
    requires FreshDeal(d.table, cfg)
    requires d.table == DealtTable(g, cfg, shuffled).(phase := Tribute, stateVersion := d.table.stateVersion)
    requires w.due == d && w.offers == []
    ensures MatchInv(g', cfg, w)
  {
    hide DealtTable, DealtFrom, DistinctIds, SameSeats, Progress.StandingInv, PlanRound, Confluence.SoundPlan, Shuffled;
    hide PermRanks, CanDeal, RankSeat;
    DealIsFresh(g, cfg, shuffled);
    StaysDistinct(g.desk.table.players, d.table.players, d.table.playerCount, cfg.playersPerTeam);
    Progress.AfterRoundInv(g.standing, -1, 0);
  }

  // ----- plays and passes -----

  lemma RoundOf(t: Table, cfg: Config, w: Witness)
    requires InRound(t, cfg, w)
    ensures Course(Run(w.opening, cfg, w.moves), cfg.playersPerTeam, w.opening.turnId)
  {
    hide Run, Course, DealtFrom, DistinctIds;
    EveryRun(w.opening, cfg, w.moves);
  }

  /** One more move of the round. */
  lemma MoveOn(t: Table, cfg: Config, w: Witness, m: Move) returns (w': Witness)
    requires InRound(t, cfg, w) && Seated(t) && MoveCode(t, cfg, m) == Ok
    ensures w'.opening == w.opening && w'.moves == w.moves + [m]
    ensures InRound(if m.Play? then PlayTable(t, cfg, m.cards) else PassTable(t), cfg, w')
  {
    hide PlayTable, PassTable, PatternOf, PlayCode, PassCode, OrderAfter, Opening, DealtFrom, DistinctIds;
    OpeningReady(w.opening, cfg.playersPerTeam);
    w' := w.(moves := w.moves + [m]);
    RunSnoc(w.opening, cfg, w.moves, m);
  }

  lemma OpeningReady(t: Table, ppt: nat)
    requires Opening(t, ppt)
    ensures Round.Ready(t)
  {
  }

  /** The ranks of a finished round feed the settlement and the next tribute. */
  lemma EndOfRound(t: Table, cfg: Config, order: seq<int>)
    requires RoundOver(t, cfg.playersPerTeam, order)
    ensures 0 <= Calculate(t, cfg.playersPerTeam).winningTeam < TEAM_COUNT
    ensures PermRanks(BuildPrevious(t, Calculate(t, cfg.playersPerTeam).winningTeam).ranks, t.playerCount)
    ensures IdleSeats(t.players, t.playerCount)
  {
    hide FinishOrder, ClockwiseRest, Calculate, RankPermutation;
    var head, mate := CalculateMeaning(t, cfg.playersPerTeam);
    PreviousRanks(t, Calculate(t, cfg.playersPerTeam).winningTeam);
  }

  lemma IdleWhilePlaying(t: Table, ppt: nat, order: seq<int>, passers: seq<int>)
    requires RoundInv(t, ppt, order, passers)
    ensures IdleSeats(t.players, t.playerCount)
  {
    hide Trick, TeamActive, FinishOrder, OutIffEmpty;
  }

  lemma PlayInv(g: Game, cfg: Config, w: Witness, id: nat, cards: seq<CardId>) returns (w': Witness)
    requires MatchInv(g, cfg, w) && PlayCode(g.desk.table, cfg, id, cards) == Ok
    ensures Sound(g, cfg) && MatchInv(AfterPlay(g, cfg, cards), cfg, w')
  {
    hide PlayTable, PatternOf, InRound, Run, RoundInv, RoundOver, DistinctIds, IdleSeats, TeamsAlternate;
    hide Progress.StandingInv, PermRanks, Calculate, SameHandsBut, Rising, OnTable;
    var t := g.desk.table;
    PlayAccepted(t, cfg, id, cards);
    w' := MoveOn(t, cfg, w, Play(id, cards));
    var t' := PlayTable(t, cfg, cards);
    RoundOf(t', cfg, w');
    RunTable(t', cfg, w');
    PlaySeats(t, cfg, cards);
    StaysDistinct(t.players, t'.players, t.playerCount, cfg.playersPerTeam);
    var h := Run(w'.opening, cfg, w'.moves);
    if t'.phase == Playing {
      IdleWhilePlaying(t', cfg.playersPerTeam, h.order, h.passers);
    } else {
      EndOfRound(t', cfg, h.order);
      var r := Calculate(t', cfg.playersPerTeam);
      Progress.AfterRoundInv(g.standing, r.winningTeam, r.levelUpgrade);
      OverPhase(t', cfg.playersPerTeam, h.order);
    }
  }

  /** The round that a play ends is scored: the team of the player who went out first climbs 9 levels (at
      six seats) or 5 (at four) less the rank of its best other player, and leads the next round. */
  lemma RoundIsScored(g: Game, cfg: Config, w: Witness, id: nat, cards: seq<CardId>) returns (head: int, mate: int)
    requires MatchInv(g, cfg, w) && PlayCode(g.desk.table, cfg, id, cards) == Ok && Sound(g, cfg)
    requires PlayTable(g.desk.table, cfg, cards).phase == Finished
    ensures var g' := AfterPlay(g, cfg, cards);
            var p, n := g'.desk.table.players, g'.desk.table.playerCount;
            && 0 <= head < n <= |p| && p[head].finishRank == 1 && BestTeammate(p, n, head, mate)
                && 0 <= p[head].team < TEAM_COUNT
            && g'.standing == Progress.AfterRound(g.standing, p[head].team,
                (if cfg.playersPerTeam == 3 then 9 else 5) - p[mate].finishRank)
            && g'.standing.lastWinningTeam == p[head].team
  {
    hide PlayTable, PatternOf, InRound, Run, RoundInv, PlayCode, DistinctIds, IdleSeats, Progress.StandingInv;
    hide PermRanks, Calculate, SameHandsBut, Rising, OnTable;
    hide FinishOrder, ClockwiseRest, RankPermutation, OutIffEmpty;
    var t := g.desk.table;
    PlayAccepted(t, cfg, id, cards);
    var w' := MoveOn(t, cfg, w, Play(id, cards));
    var t' := PlayTable(t, cfg, cards);
    RoundOf(t', cfg, w');
    RunTable(t', cfg, w');
    head, mate := CalculateMeaning(t', cfg.playersPerTeam);
  }

  lemma RunTable(t: Table, cfg: Config, w: Witness)
    requires InRound(t, cfg, w)
    ensures Round.Ready(w.opening) && Run(w.opening, cfg, w.moves).table == t
  {
    OpeningReady(w.opening, cfg.playersPerTeam);
  }

  lemma OverPhase(t: Table, ppt: nat, order: seq<int>)
    requires RoundOver(t, ppt, order)
    ensures t.phase == Finished
  {
  }

  lemma PassInv(g: Game, cfg: Config, w: Witness, id: nat) returns (w': Witness)
    requires MatchInv(g, cfg, w) && PassCode(g.desk.table, id) == Ok
    ensures MatchInv(g.(desk := g.desk.(table := PassTable(g.desk.table))), cfg, w')
  {
    hide PassTable, InRound, Run, RoundInv, RoundOver, DistinctIds, TeamsAlternate, Progress.StandingInv, PermRanks;
    hide Rising, OnTable;
    var t := g.desk.table;
    PassAccepted(t, id);
    w' := MoveOn(t, cfg, w, Pass(id));
    RoundOf(t, cfg, w);
    RunTable(t, cfg, w);
    PassSeats(t);
    PassPhase(t, cfg, Run(w.opening, cfg, w.moves));
  }

  lemma PassPhase(t: Table, cfg: Config, h: History)
    requires h.table == t && RoundInv(t, cfg.playersPerTeam, h.order, h.passers) && t.lastPattern.isValid
    ensures PassTable(t).phase == Playing
  {
    hide PassTable, Standing, Trick, TeamActive, Arc;
    PassRound(t, cfg.playersPerTeam, h.order, h.passers);
  }

  // ----- tribute -----

  lemma DeskKept(g: Game, cfg: Config, w: Witness)
    requires InTribute(g, cfg, w)
    ensures PhaseInv(w.due, cfg, g.desk) && OnlyHands(w.due.table.players, g.desk.table.players)
    ensures PoolOf(g.desk.table) == PoolOf(w.due.table)
  {
    hide PlanRound, RankSeat, Confluence.SoundPlan, DealtFrom, DistinctIds, AfterOffers, PhaseInv, PermRanks;
    EveryOrder(w.due, cfg, g.previous, w.offers);
    PhaseKeeps(w.due, cfg, g.previous, w.offers);
  }

  lemma OnlyHandsKeep(p: seq<Player>, q: seq<Player>, n: int, ppt: int)
    requires OnlyHands(p, q)
    ensures DistinctIds(p, n) ==> DistinctIds(q, n)
    ensures TeamsAlternate(p, n, ppt) ==> TeamsAlternate(q, n, ppt)
    ensures IdleSeats(p, n) ==> IdleSeats(q, n)
  {
  }

  /** One more submission of the tribute phase. */
  lemma SubmitInv(g: Game, cfg: Config, w: Witness, o: Offer) returns (w': Witness)
    requires MatchInv(g, cfg, w) && g.desk.table.phase in {Tribute, ReturnTribute}
    ensures Placed(g.desk.table) && g.desk.table.playerCount <= |g.previous.ranks|
    ensures MatchInv(g.(desk := AfterOffer(g.desk, cfg, g.previous, o)), cfg, w')
    ensures w'.due == w.due && w'.offers == w.offers + [o]
  {
    hide AfterOffer, AfterOffers, Due, FreshDeal, DistinctIds, IdleSeats, TeamsAlternate, Progress.StandingInv;
    hide PhaseInv, OnlyHands, InRound;
    w' := w.(offers := w.offers + [o]);
    DuePlaced(w.due, cfg, g.previous);
    OffersSnoc(w.due, cfg, g.previous, w.offers, o);
    var g' := g.(desk := AfterOffer(g.desk, cfg, g.previous, o));
    assert InTribute(g', cfg, w');
    DeskKept(g, cfg, w);
    DeskKept(g', cfg, w');
    DeskTables(w.due, cfg, g.desk);
    DeskTables(w.due, cfg, g'.desk);
    FreshKept(w.due.table, g'.desk.table, cfg);
  }

  lemma DuePlaced(d: Desk, cfg: Config, prev: Previous)
    requires Due(d, cfg, prev)
    ensures Placed(d.table) && d.table.playerCount <= |prev.ranks| && SeatsExist(d.table, d.tribute.plan.tributerSeats)
  {
    hide PlanRound, RankSeat, PermRanks;
  }

  lemma DeskTables(d0: Desk, cfg: Config, d: Desk)
    requires SeatsExist(d0.table, d0.tribute.plan.tributerSeats) && PhaseInv(d0, cfg, d)
    ensures SameButHands(d0.table, d.table) && d.table.phase in {Tribute, ReturnTribute}
  {
    hide Returning, DueTributes, Paid, Submitted, RequiredAt;
  }

  lemma FreshKept(t: Table, u: Table, cfg: Config)
    requires FreshDeal(t, cfg) && OnlyHands(t.players, u.players) && u.playerCount == t.playerCount
    ensures TeamsAlternate(u.players, u.playerCount, cfg.playersPerTeam) && IdleSeats(u.players, u.playerCount)
    ensures DistinctIds(t.players, t.playerCount) ==> DistinctIds(u.players, u.playerCount)
  {
    hide DealtFrom;
    OnlyHandsKeep(t.players, u.players, t.playerCount, cfg.playersPerTeam);
  }

  /** After tribute and return the hands are again as freshly dealt. */
  lemma SettledIsFresh(g: Game, cfg: Config, w: Witness)
    requires InTribute(g, cfg, w) && Complete(g.desk)
    ensures FreshDeal(g.desk.table, cfg)
  {
    hide AfterOffers, Due, Complete, PhaseInv, PoolOf, Unrepeated, Shuffled, IdsOf, DistinctIds;
    DuePlaced(w.due, cfg, g.previous);
    DeskKept(g, cfg, w);
    DeskTables(w.due, cfg, g.desk);
    forall s | 0 <= s < |w.due.table.players|
      ensures |g.desk.table.players[s].hand| == |w.due.table.players[s].hand|
    {
      SizesRestored(w.due, cfg, g.previous, w.offers, s);
    }
    SameSizes(w.due.table, g.desk.table, cfg);
  }

  lemma SameSizes(t: Table, u: Table, cfg: Config)
    requires FreshDeal(t, cfg) && SameButHands(t, u) && OnlyHands(t.players, u.players) && PoolOf(u) == PoolOf(t)
    requires forall s :: 0 <= s < |t.players| ==> |u.players[s].hand| == |t.players[s].hand|
    ensures FreshDeal(u, cfg)
  {
    hide PoolOf, Unrepeated, Shuffled, IdsOf;
  }

  lemma FinalizeInv(g: Game, cfg: Config, w: Witness) returns (w': Witness)
    requires MatchInv(g, cfg, w) && Complete(g.desk)
    ensures g.desk.table.playerCount <= |g.previous.ranks|
    ensures MatchInv(g.(desk := StartPlay(g.desk, cfg, g.previous)), cfg, w')
  {
    hide AfterOffers, FreshDeal, DealtFrom, DistinctIds, IdleSeats, TeamsAlternate, Progress.StandingInv, PhaseInv;
    hide OnlyHands, PlanRound, RankSeat, PermRanks, FirstPlayer, PayerOf;
    DuePlaced(w.due, cfg, g.previous);
    SettledIsFresh(g, cfg, w);
    PayerBegins(w.due, cfg, g.previous, w.offers);
    var e := StartPlay(g.desk, cfg, g.previous);
    DeskKept(g, cfg, w);
    DeskTables(w.due, cfg, g.desk);
    OpeningOf(g.desk.table, cfg, e.table.currentPlayerIndex);
    w' := Witness(w.due, [], e.table, []);
  }

  // ----- ready marks -----

  lemma MarkReadyApart(p: seq<Player>, id: nat, ready: bool)
    ensures |MarkReady(p, id, ready)| == |p|
    ensures forall s :: 0 <= s < |p| ==>
              MarkReady(p, id, ready)[s] == p[s].(isReady := MarkReady(p, id, ready)[s].isReady)
  {
  }

  lemma {:induction false} RanksApart(p: seq<Player>, q: seq<Player>, k: nat)
    requires |p| == |q| == MAX_PLAYERS && k <= |p| && forall s :: 0 <= s < |p| ==> q[s].finishRank == p[s].finishRank
    ensures RanksTo(p, k) == RanksTo(q, k)
  {
    if k > 0 {
      RanksApart(p, q, k - 1);
    }
  }

  lemma SetReadyInv(g: Game, cfg: Config, w: Witness, id: nat, ready: bool)
    requires MatchInv(g, cfg, w) && g.desk.table.phase in {Waiting, Phase.Ready, Finished}
    ensures MatchInv(g.(desk := g.desk.(table := g.desk.table.(players := MarkReady(g.desk.table.players, id,
              ready)))), cfg, w)
  {
    hide InRound, MarkReady, Progress.StandingInv, PermRanks, RanksTo, Run;
    var p := g.desk.table.players;
    MarkReadyApart(p, id, ready);
    RanksApart(p, MarkReady(p, id, ready), g.desk.table.playerCount);
  }

  // ----- every match -----

  lemma SubmitAction(g: Game, cfg: Config, w: Witness, a: Action) returns (w': Witness)
    requires MatchInv(g, cfg, w) && (a.SubmitTribute? || a.SubmitReturn?) && ActionCode(g, cfg, a) == Ok
    ensures Sound(g, cfg) && GoodConfig(cfg) && MatchInv(AfterAction(g, cfg, a), cfg, w')
  {
    hide MatchInv, Sound, AfterTribute, AfterReturn, SeatOf;
    MatchSound(g, cfg, w);
    w' := SubmitInv(g, cfg, w, if a.SubmitTribute? then Pay(a.player, a.card) else GiveBack(a.player, a.card));
  }

  /** Every action of a match keeps the invariant; one that is not accepted changes nothing. */
  lemma ActionInv(g: Game, cfg: Config, w: Witness, a: Action) returns (w': Witness)
    requires MatchInv(g, cfg, w) && Enabled(g, cfg, a)
    ensures Sound(g, cfg) && GoodConfig(cfg) && MatchInv(AfterAction(g, cfg, a), cfg, w')
  {
    hide MatchInv, PlayCode, PassCode, TributeCode, ReturnCode, StartCode, PassTable, StartPlay, AfterPlay, DealNext;
    hide DealFirst, CanDeal, Shuffled, Complete, MarkReady;
    MatchSound(g, cfg, w);
    w' := w;
    if ActionCode(g, cfg, a) == Ok {
      match a
      case SetReady(id, ready) => SetReadyInv(g, cfg, w, id, ready);
      case StartGame(shuffled) => w' := StartsRound(g, cfg, shuffled, w);
      case StartNextRound(shuffled) => w' := NextRoundInv(g, cfg, shuffled, w);
      case PlayCards(id, cards) => w' := PlayInv(g, cfg, w, id, cards);
      case PassTurn(id) => w' := PassInv(g, cfg, w, id);
      case SubmitTribute(_, _) => w' := SubmitAction(g, cfg, w, a);
      case SubmitReturn(_, _) => w' := SubmitAction(g, cfg, w, a);
      case FinalizeTribute => w' := FinalizeInv(g, cfg, w);
    }
  }

  /** States reachable from `g` by the actions, each enabled where it is taken. */
  ghost predicate Reaches(g: Game, cfg: Config, actions: seq<Action>, h: Game) {
    if actions == [] then h == g
    else exists before: Game ::
           && Reaches(g, cfg, actions[..|actions| - 1], before) && Sound(before, cfg) && GoodConfig(cfg)
           && Enabled(before, cfg, actions[|actions| - 1]) && h == AfterAction(before, cfg, actions[|actions| - 1])
  }

  /** The game once the room has seated its players. */
  ghost predicate Seating(g: Game, cfg: Config) {
    && Sound(g, cfg) && GoodConfig(cfg) && g.desk.table.phase == Waiting
    && DistinctIds(g.desk.table.players, g.desk.table.playerCount)
        && IdleSeats(g.desk.table.players, g.desk.table.playerCount)
  }

  /** Every state of every match satisfies the invariant. */
  lemma {:induction false} EveryMatch(g: Game, cfg: Config, actions: seq<Action>, h: Game) returns (w: Witness)
    requires Seating(g, cfg) && Reaches(g, cfg, actions, h)
    ensures MatchInv(h, cfg, w)
  {
    hide MatchInv, AfterAction, Enabled, Sound, GoodConfig;
    if actions == [] {
      w := Witness(g.desk, [], g.desk.table, []);
      SeatingInv(g, cfg, w);
    } else {
      var k := |actions| - 1;
      var before: Game :| Reaches(g, cfg, actions[..k], before) && Sound(before, cfg) && GoodConfig(cfg)
                          && Enabled(before, cfg, actions[k]) && h == AfterAction(before, cfg, actions[k]);
      var w0 := EveryMatch(g, cfg, actions[..k], before);
      w := ActionInv(before, cfg, w0, actions[k]);
    }
  }

  lemma SeatingInv(g: Game, cfg: Config, w: Witness)
    requires Seating(g, cfg)
    ensures MatchInv(g, cfg, w)
  {
    hide DistinctIds, IdleSeats, TeamsAlternate, Progress.StandingInv;
  }

  // ----- what this says of the states of a match -----

  /** No id in a hand is unknown to the deck: the lookup by id always finds its card. */
  lemma HandsAreKnown(t: Table, cfg: Config, w: Witness, s: int, id: CardId)
    requires InRound(t, cfg, w) && 0 <= s < t.playerCount <= |t.players| && id in t.players[s].hand
    ensures exists k :: 0 <= k < |t.allCards| && t.allCards[k].id == id
    ensures CardById(t.allCards, id) in t.allCards
  {
    hide Run, Unrepeated, Shuffled;
    RunTable(t, cfg, w);
    ConservedIffNoRepeats(w.opening, cfg, w.moves);
    RunSameGame(w.opening, cfg, w.moves);
    PoolHolds(HandsOf(t.players), s, t.playerCount);
    assert id in multiset(HandsOf(t.players)[s]);
    assert id in PoolOf(t) && id in PoolOf(w.opening);
    var k :| 0 <= k < |t.allCards| && IdsOf(t.allCards)[k] == id;
    assert t.allCards[k].id == id;
  }

  /** In play the seat to act is in the game, still in, and holds cards; both teams are still in. */
  ghost predicate LivePlay(t: Table) {
    && Seated(t) && Active(t.players, t.playerCount, t.currentPlayerIndex) && t.players[t.currentPlayerIndex].hand != []
    && TeamActive(t.players, t.playerCount, 0) && TeamActive(t.players, t.playerCount, 1)
    && (forall s :: 0 <= s < t.playerCount ==> (t.players[s].hasFinished <==> t.players[s].hand == []))
  }

  /** Players are shown the attackers' level, and the cards they have to beat with their pattern. */
  ghost predicate Announced(t: Table, cfg: Config, s: Progress.Standing) {
    && Terms(t, s)
    && if t.lastPattern.isValid then t.lastPattern == PatternOf(t, cfg, t.lastPlayedCards) else t.lastPlayedCards == []
  }

  lemma AnnouncedAfterRun(t: Table, cfg: Config, w: Witness, s: Progress.Standing)
    requires InRound(t, cfg, w) && Terms(w.opening, s)
    ensures Announced(t, cfg, s)
  {
    hide Run, DealtFrom, DistinctIds, TeamsAlternate, PatternOf;
    RunTable(t, cfg, w);
    TableAfterRun(w.opening, cfg, w.moves);
  }

  /** What every state of every match promises, phase by phase. */
  lemma MatchPromises(g: Game, cfg: Config, actions: seq<Action>, h: Game)
    requires Seating(g, cfg) && Reaches(g, cfg, actions, h)
    ensures Progress.StandingInv(h.standing)
    ensures h.desk.table.phase == Playing ==> LivePlay(h.desk.table) && Announced(h.desk.table, cfg, h.standing)
    ensures h.desk.table.phase == Finished ==>
              && RankPermutation(h.desk.table.players, h.desk.table.playerCount) && TeamEmpty(h.desk.table)
              && h.previous.valid && PermRanks(h.previous.ranks, h.desk.table.playerCount)
  {
    hide Reaches, Sound, Seating;
    var w := EveryMatch(g, cfg, actions, h);
    PromisesOf(h, cfg, w);
  }

  lemma PromisesOf(h: Game, cfg: Config, w: Witness)
    requires MatchInv(h, cfg, w)
    ensures Progress.StandingInv(h.standing)
    ensures h.desk.table.phase == Playing ==> LivePlay(h.desk.table) && Announced(h.desk.table, cfg, h.standing)
    ensures h.desk.table.phase == Finished ==>
              && RankPermutation(h.desk.table.players, h.desk.table.playerCount) && TeamEmpty(h.desk.table)
              && h.previous.valid && PermRanks(h.previous.ranks, h.desk.table.playerCount)
  {
    hide InRound, Run, RoundInv, RoundOver, DistinctIds, TeamsAlternate, Progress.StandingInv, Rising, OnTable;
    hide RankPermutation, PermRanks, LivePlay, Terms, Announced;
    var t := h.desk.table;
    if t.phase == Playing {
      AnnouncedAfterRun(t, cfg, w, h.standing);
      RoundOf(t, cfg, w);
      RunTable(t, cfg, w);
      var r := Run(w.opening, cfg, w.moves);
      LiveWhilePlaying(t, cfg.playersPerTeam, r.order, r.passers);
    } else if t.phase == Finished {
      var u := Run(w.opening, cfg, w.moves).table;
      RoundOf(u, cfg, w);
      RanksOfOver(u, t, cfg.playersPerTeam, Run(w.opening, cfg, w.moves).order);
      RoundEndsIff(w.opening, cfg, w.moves) by { OpeningOfRound(u, cfg, w); }
      EmptyApart(t, u);
    }
  }

  lemma LiveWhilePlaying(t: Table, ppt: nat, order: seq<int>, passers: seq<int>)
    requires RoundInv(t, ppt, order, passers)
    ensures LivePlay(t)
  {
    hide Trick, FinishOrder, TeamActive;
  }

  lemma OpeningOfRound(t: Table, cfg: Config, w: Witness)
    requires InRound(t, cfg, w)
    ensures Opening(w.opening, cfg.playersPerTeam)
  {
    hide Run, DealtFrom, DistinctIds;
  }

  lemma EmptyApart(t: Table, u: Table)
    requires ReadyApart(t, u) && TeamEmpty(u)
    ensures TeamEmpty(t)
  {
    var team :| (team == 0 || team == 1) && HandsEmpty(u.players, u.playerCount, team);
    assert HandsEmpty(t.players, t.playerCount, team);
  }

  lemma RanksOfOver(u: Table, t: Table, ppt: nat, order: seq<int>)
    requires RoundOver(u, ppt, order) && ReadyApart(t, u)
    ensures RankPermutation(t.players, t.playerCount)
  {
    hide FinishOrder, ClockwiseRest, TeamsAlternate;
    forall r | 1 <= r <= t.playerCount
      ensures HasRank(t.players, t.playerCount, r)
    {
      assert HasRank(u.players, u.playerCount, r);
      var s :| 0 <= s < u.playerCount <= |u.players| && u.players[s].finishRank == r;
      assert t.players[s].finishRank == r;
    }
  }
}
