/** The engine object (game_engine.cpp): each request is proved to be the action of the match. */
module Engine {
  import opened Options
  import opened Lists
  import opened Cards
  import opened Patterns
  import opened Rules
  import opened State
  import opened Seats
  import opened Turns
  import opened FinishRanks
  import opened Settlements
  import opened Hands
  import opened Decks
  import opened Round
  import opened Tributes
  import opened Exchange
  import opened TributePhase
  import opened Match
  import opened MatchProofs
  import Pickers
  import AnyOrder
  import Runs
  import RoundProofs
  import Progress
  import Analyzer
  import Bot

  datatype PlayResult = PlayResult(code: Code, gameOver: bool, tributeRoundComplete: bool, settlement: SettlementResult)

  const ACCEPTED := PlayResult(Ok, false, false, NO_RESULT)

  function Refused(code: Code): PlayResult {
    ACCEPTED.(code := code)
  }

  // ----- parts of a play -----

  method SeatOfPlayer(state: GameState, id: nat) returns (seat: int)
    requires Placed(state.View())
    ensures seat == SeatOf(state.View(), id)
  {
    for i := 0 to state.playerCount
      invariant SeatOf(state.View(), id) == SeatFrom(state.players, state.playerCount, id, i)
    {
      if state.players[i].id == id {
        return i;
      }
    }
    return -1;
  }

  method RuleContextOf(state: GameState, cfg: Config) returns (ctx: RuleContext)
    ensures ctx == Context(state.View(), cfg)
  {
    return RuleContext(state.currentLevel, cfg.enableWildCard);
  }

  method LookUp(state: GameState, ids: seq<CardId>) returns (cards: seq<Card>)
    ensures cards == CardsFromIds(state.allCards, ids)
  {
    cards := [];
    for i := 0 to |ids|
      invariant cards == CardsFromIds(state.allCards, ids)[..i]
    {
      cards := cards + [CardById(state.allCards, ids[i])];
    }
  }

  /** The cards leave the hand and lie on the table. */
  method PutDownCards(state: GameState, seat: int, cards: seq<CardId>, pattern: CardPattern)
    requires Seated(state.View()) && seat == state.currentPlayerIndex
    modifies state
    ensures state.View() == PutDown(old(state.View()), cards, pattern)
  {
    hide HandAfter, RemoveEach;
    var hand := new Hand(state.players[seat].hand);
    var removed := hand.Remove(cards);
    state.players := state.players[seat := state.players[seat].(hand := hand.cards)];
    state.ShowTrick(cards, pattern, seat);
    state.stateVersion := state.stateVersion + 1;
  }

  lemma FinishedStep(p: seq<Player>, k: nat)
    requires k < |p|
    ensures |FinishedSeats(p, k + 1)| == |FinishedSeats(p, k)| + if p[k].hasFinished then 1 else 0
  {
    var before, after := FinishedSeats(p, k), FinishedSeats(p, k + 1);
    assert k !in before;
    if p[k].hasFinished {
      assert after == before + {k};
    } else {
      assert after == before;
    }
  }

  lemma NoneFinished(p: seq<Player>)
    ensures |FinishedSeats(p, 0)| == 0 && forall team :: |TeamFinished(p, 0, team)| == 0
  {
    assert FinishedSeats(p, 0) == {};
    forall team
      ensures TeamFinished(p, 0, team) == {}
    {
    }
  }

  method AssignFinishRank(state: GameState, seat: int)
    requires 0 <= seat < |state.players|
    modifies state
    ensures state.View() == old(state.View()).(players := Finish(old(state.players), seat,
              NextRank(old(state.players))))
  {
    hide FinishedSeats;
    var players, rank := state.players, 1;
    NoneFinished(players);
    for i := 0 to |players|
      invariant rank == 1 + |FinishedSeats(players, i)| && unchanged(state)
    {
      FinishedStep(players, i);
      if players[i].hasFinished {
        rank := rank + 1;
      }
    }
    state.players := state.players[seat := state.players[seat].(hasFinished := true, finishRank := rank)];
  }

  lemma TeamFinishedStep(p: seq<Player>, k: nat, team: int)
    requires k < |p|
    ensures |TeamFinished(p, k + 1, team)| == |TeamFinished(p, k, team)| + if p[k].team == team
              && p[k].hasFinished then 1 else 0
  {
    var before, after := TeamFinished(p, k, team), TeamFinished(p, k + 1, team);
    assert k !in before;
    if p[k].team == team && p[k].hasFinished {
      assert after == before + {k};
    } else {
      assert after == before;
    }
  }

  method CountTeamFinished(players: seq<Player>, team: int) returns (finished: nat)
    ensures finished == |TeamFinished(players, |players|, team)|
  {
    hide TeamFinished;
    NoneFinished(players);
    finished := 0;
    for i := 0 to |players|
      invariant finished == |TeamFinished(players, i, team)|
    {
      TeamFinishedStep(players, i, team);
      if players[i].team == team && players[i].hasFinished {
        finished := finished + 1;
      }
    }
  }

  method CheckTeamWin(state: GameState, playersPerTeam: nat) returns (won: bool)
    ensures won <==> TeamWin(state.players, playersPerTeam)
  {
    hide TeamFinished;
    for team := 0 to TEAM_COUNT
      invariant forall k :: 0 <= k < team ==> |TeamFinished(state.players, |state.players|, k)| < playersPerTeam
    {
      var finished := CountTeamFinished(state.players, team);
      if finished >= playersPerTeam {
        return true;
      }
    }
    return false;
  }

  /** The first `k` players on their seats, teams alternating. */
  ghost predicate SeatedPlayers(p: seq<Player>, ids: seq<nat>, k: nat) {
    && |p| == MAX_PLAYERS && k <= |ids| <= MAX_PLAYERS
    && forall s :: 0 <= s < MAX_PLAYERS ==> p[s] == if s < k then EMPTY_SEAT.(id := ids[s], team := s % 2)
        else EMPTY_SEAT
  }

  method SeatPlayers(state: GameState, ids: seq<nat>)
    requires |ids| <= MAX_PLAYERS && SeatedPlayers(state.players, ids, 0)
    modifies state
    ensures SeatedPlayers(state.players, ids, |ids|) && state.View() == old(state.View()).(players := state.players)
  {
    for i := 0 to |ids|
      invariant SeatedPlayers(state.players, ids, i) && state.View() == old(state.View()).(players := state.players)
    {
      state.players := state.players[i := state.players[i].(id := ids[i], team := i % 2, isReady := false,
          hasFinished := false)];
    }
  }

  lemma GoodDeck(cfg: Config)
    requires GoodConfig(cfg)
    ensures CARDS_PER_DECK * cfg.deckCount <= 0x1_0000 && cfg.playerCount <= MAX_PLAYERS
  {
  }

  lemma SeatedGame(g: Game, cfg: Config, ids: seq<nat>)
    requires GoodConfig(cfg) && Progress.StandingInv(g.standing) && |g.previous.ranks| == MAX_PLAYERS
    requires |ids| == cfg.playerCount && NoDuplicates(ids) && SeatedPlayers(g.desk.table.players, ids, |ids|)
    requires var t := g.desk.table; t == INITIAL_TABLE.(players := t.players, playerCount := |ids|,
               allCards := t.allCards)
    ensures Seating(g, cfg)
  {
    hide Progress.StandingInv;
  }

  lemma SeatFromStep(p: seq<Player>, id: nat, k: nat)
    requires k < |p|
    ensures SeatFrom(p, |p|, id, k) == if p[k].id == id then k else SeatFrom(p, |p|, id, k + 1)
  {
  }

  lemma SeatFromNone(p: seq<Player>, id: nat)
    ensures SeatFrom(p, |p|, id, |p|) == -1
  {
  }

  lemma ActionsAreSound(g: Game, cfg: Config, w: Witness)
    requires MatchInv(g, cfg, w)
    ensures Sound(g, cfg) && GoodConfig(cfg) && Placed(g.desk.table) && Round.Ready(g.desk.table)
    ensures |g.previous.ranks| == MAX_PLAYERS
  {
    hide MatchInv;
    MatchSound(g, cfg, w);
  }

  lemma ShuffleOf(cfg: Config, full: seq<Card>, shuffled: seq<Card>)
    requires IsFullDeck(full, cfg.deckCount) && Shuffled(cfg, shuffled)
    ensures multiset(shuffled) == multiset(full)
  {
    var f :| IsFullDeck(f, cfg.deckCount) && multiset(shuffled) == multiset(f);
    assert f == full;
  }

  /** Each seat gets a new hand with the cards dealt to it. */
  method HandOut(state: GameState, hands: seq<seq<CardId>>)
    requires |hands| == state.playerCount <= |state.players|
    modifies state
    ensures state.View() == old(state.View()).(players := DealtPlayers(old(state.players), hands, |hands|))
  {
    ghost var before := state.View();
    for i := 0 to state.playerCount
      invariant state.View() == before.(players := DealtPlayers(before.players, hands, i))
    {
      var hand := new Hand([]);
      hand.AddAll(hands[i]);
      assert hand.cards == hands[i];
      state.players := state.players[i := state.players[i].(hand := hand.cards, hasFinished := false, finishRank := 0)];
    }
  }

  /** Clears the last trick and takes over what the standing says of the round. */
  method SetUpRound(state: GameState, attackingTeam: int, level: Level, passARound: bool)
    modifies state
    ensures state.View() == old(state.View()).(
              attackingTeam := attackingTeam, currentLevel := level, isPassARound := passARound,
                  round := old(state.round) + 1,
              lastPlayedCards := [], lastPattern := INVALID_PATTERN, lastPlayedPlayerIndex := -1, passCount := 0,
                  turnId := 1)
  {
    state.attackingTeam := attackingTeam;
    state.currentLevel := level;
    state.isPassARound := passARound;
    state.round := state.round + 1;
    state.ShowTrick([], INVALID_PATTERN, -1);
    state.turnId := 1;
  }

  lemma SetUpIs(g: Game, cfg: Config, shuffled: seq<Card>, u: Table)
    requires CanDeal(g, cfg, shuffled)
    requires var s, t := Progress.PrepareNextRound(g.standing), g.desk.table;
             var hands := DealSpec(shuffled, t.playerCount, CardsPerPlayer(cfg)).hands;
             && |hands| == t.playerCount
             && u == t.(players := DealtPlayers(t.players, hands, |hands|), allCards := shuffled,
                 attackingTeam := s.attackingTeam,
                        currentLevel := s.levels[s.attackingTeam], isPassARound := Progress.IsPassARound(s),
                            round := t.round + 1,
                        lastPlayedCards := [], lastPattern := INVALID_PATTERN, lastPlayedPlayerIndex := -1,
                            passCount := 0, turnId := 1)
    ensures u == DealtTable(g, cfg, shuffled)
  {
    hide DealSpec, DealtPlayers;
  }

  lemma StartIs(g: Game, cfg: Config, w: Witness, shuffled: seq<Card>) returns (w': Witness)
    requires MatchInv(g, cfg, w) && Shuffled(cfg, shuffled)
    ensures Sound(g, cfg) && GoodConfig(cfg) && MatchInv(AfterAction(g, cfg, StartGame(shuffled)), cfg, w')
    ensures StartCode(g, cfg) != Ok ==> AfterAction(g, cfg, StartGame(shuffled)) == g
    ensures StartCode(g, cfg) == Ok ==>
              CanDeal(g.(previous := NO_PREVIOUS), cfg, shuffled)
                  && AfterAction(g, cfg, StartGame(shuffled)) == DealFirst(g.(previous := NO_PREVIOUS), cfg, shuffled)
  {
    hide MatchInv, DealFirst, StartCode, CanDeal, Shuffled;
    MatchSound(g, cfg, w);
    CanAlwaysDeal(g.(previous := NO_PREVIOUS), cfg, shuffled);
    w' := ActionInv(g, cfg, w, StartGame(shuffled));
  }

  lemma NextIs(g: Game, cfg: Config, w: Witness, shuffled: seq<Card>) returns (w': Witness)
    requires MatchInv(g, cfg, w) && Shuffled(cfg, shuffled)
    ensures Sound(g, cfg) && GoodConfig(cfg) && MatchInv(AfterAction(g, cfg, StartNextRound(shuffled)), cfg, w')
    ensures NextCode(g) != Ok ==> AfterAction(g, cfg, StartNextRound(shuffled)) == g
    ensures NextCode(g) == Ok ==>
              && CanDeal(g, cfg, shuffled)
              && AfterAction(g, cfg, StartNextRound(shuffled)) ==
                   Game(OpenedDesk(DealtTable(g, cfg, shuffled), cfg, g.previous),
                       Progress.PrepareNextRound(g.standing), g.previous)
  {
    hide MatchInv, OpenedDesk, CanDeal, Shuffled, DealtTable;
    MatchSound(g, cfg, w);
    CanAlwaysDeal(g, cfg, shuffled);
    w' := ActionInv(g, cfg, w, StartNextRound(shuffled));
  }

  lemma PlayRefused(g: Game, cfg: Config, id: nat, cards: seq<CardId>)
    requires Sound(g, cfg) && GoodConfig(cfg)
    ensures PlayCode(g.desk.table, cfg, id, cards) != Ok ==> AfterAction(g, cfg, PlayCards(id, cards)) == g
    ensures PlayCode(g.desk.table, cfg, id, cards) == Ok ==>
              AfterAction(g, cfg, PlayCards(id, cards)) == AfterPlay(g, cfg, cards)
  {
    hide Sound, GoodConfig, PlayCode, AfterPlay;
  }

  /** The table of the play that ends the round. */
  ghost function EndedTable(t: Table, cfg: Config, cards: seq<CardId>): Table
    requires Seated(t)
  {
    hide Laid, AssignRemaining;
    var u := Laid(t, cfg, cards);
    u.(players := AssignRemaining(u.players, t.playerCount), phase := Finished)
  }

  /** What the match's round invariant says of the table. */
  lemma RoundFacts(g: Game, cfg: Config, w: Witness) returns (h: Runs.History)
    requires MatchInv(g, cfg, w) && g.desk.table.phase == Playing
    ensures RoundInv(g.desk.table, cfg.playersPerTeam, h.order, h.passers)
  {
    hide InRound, Runs.Run, RoundInv, RoundProofs.RoundOver, Runs.DistinctIds, TeamsAlternate, Progress.StandingInv;
    hide Runs.Rising, Runs.OnTable;
    RoundOf(g.desk.table, cfg, w);
    RunTable(g.desk.table, cfg, w);
    h := Runs.Run(w.opening, cfg, w.moves);
  }

  ghost predicate LastPlayEffect(g: Game, g': Game, cfg: Config, ended: Table) {
    && ended.playerCount <= |ended.players| == MAX_PLAYERS && Progress.Shaped(g.standing)
    && 0 <= Calculate(ended, cfg.playersPerTeam).winningTeam < TEAM_COUNT && g' == EndRound(g, ended, cfg)
  }

  ghost predicate OtherPlayEffect(g: Game, g': Game, u: Table) {
    && Seated(u) && (exists s :: Active(u.players, u.playerCount, s))
    && g' == g.(desk := g.desk.(table := NextTurn(u))) && NextTurn(u).phase == Playing
  }

  ghost predicate EndingPlay(t: Table, cfg: Config, id: nat, cards: seq<CardId>) {
    Seated(t) && PlayCode(t, cfg, id, cards) == Ok && PlayEnds(t, cfg, cards)
  }

  ghost predicate OngoingPlay(t: Table, cfg: Config, id: nat, cards: seq<CardId>) {
    Seated(t) && PlayCode(t, cfg, id, cards) == Ok && !PlayEnds(t, cfg, cards)
  }

  /** The game after a play, for a game of a match. */
  ghost function PlayedGame(g: Game, cfg: Config, w: Witness, id: nat, cards: seq<CardId>): Game
    requires MatchInv(g, cfg, w)
  {
    hide MatchInv, AfterAction, Sound, GoodConfig;
    ActionsAreSound(g, cfg, w);
    AfterAction(g, cfg, PlayCards(id, cards))
  }

  lemma LastPlayIs(g: Game, cfg: Config, w: Witness, id: nat, cards: seq<CardId>)
    requires EndingPlay(g.desk.table, cfg, id, cards) && MatchInv(g, cfg, w)
    ensures LastPlayEffect(g, PlayedGame(g, cfg, w, id, cards), cfg, EndedTable(g.desk.table, cfg, cards))
  {
    hide MatchInv, Sound, GoodConfig, PlayCode, PatternOf, Laid, PlayEnds, AssignRemaining, Calculate, RoundInv;
    hide RoundProofs.RoundOver, EndRound, AfterAction;
    ActionsAreSound(g, cfg, w);
    Runs.PlayAccepted(g.desk.table, cfg, id, cards);
    PlayRefused(g, cfg, id, cards);
    var h := RoundFacts(g, cfg, w);
    RoundProofs.PlayEndsRound(g.desk.table, cfg, h.order, h.passers, cards);
    var t' := PlayTable(g.desk.table, cfg, cards);
    EndOfRound(t', cfg, h.order + [g.desk.table.currentPlayerIndex]);
    EndedIs(g, cfg, cards, t');
  }

  lemma EndedIs(g: Game, cfg: Config, cards: seq<CardId>, t': Table)
    requires Sound(g, cfg) && t' == PlayTable(g.desk.table, cfg, cards) && PlayEnds(g.desk.table, cfg, cards)
    requires 0 <= Calculate(t', cfg.playersPerTeam).winningTeam < TEAM_COUNT
    ensures LastPlayEffect(g, AfterPlay(g, cfg, cards), cfg, EndedTable(g.desk.table, cfg, cards))
  {
    hide Laid, PlayEnds, AssignRemaining, Calculate, EndRound, PatternOf, TeamsAlternate;
  }

  lemma OtherPlayIs(g: Game, cfg: Config, w: Witness, id: nat, cards: seq<CardId>)
    requires OngoingPlay(g.desk.table, cfg, id, cards) && MatchInv(g, cfg, w)
    ensures OtherPlayEffect(g, PlayedGame(g, cfg, w, id, cards), Laid(g.desk.table, cfg, cards))
  {
    hide MatchInv, Sound, GoodConfig, PlayCode, PatternOf, Laid, PlayEnds, AfterAction, Standing, Trick, TeamActive;
    hide NextTurn, PlayTable;
    ActionsAreSound(g, cfg, w);
    Runs.PlayAccepted(g.desk.table, cfg, id, cards);
    PlayRefused(g, cfg, id, cards);
    var h := RoundFacts(g, cfg, w);
    RoundProofs.PlayKeepsRound(g.desk.table, cfg, h.order, h.passers, cards);
    GoesOnIs(g.desk.table, cfg, cards);
    var s := PlayTable(g.desk.table, cfg, cards).currentPlayerIndex;
    assert Active(Laid(g.desk.table, cfg, cards).players, Laid(g.desk.table, cfg, cards).playerCount, s);
  }

  lemma GoesOnIs(t: Table, cfg: Config, cards: seq<CardId>)
    requires Seated(t) && !PlayEnds(t, cfg, cards)
    ensures PlayTable(t, cfg, cards) == NextTurn(Laid(t, cfg, cards))
    ensures PlayTable(t, cfg, cards).players == Laid(t, cfg, cards).players
    ensures PlayTable(t, cfg, cards).playerCount == Laid(t, cfg, cards).playerCount
  {
    hide Laid, PlayEnds, PatternOf, NextActive;
  }

  /** The record handed out at the end of a round: the settlement of its table, completed from the
      standing before and after. */
  ghost predicate RoundReport(r: SettlementResult, t: Table, cfg: Config, before: Progress.Standing,
      after: Progress.Standing)
  {
    && t.playerCount <= |t.players| && Progress.Shaped(before) && Progress.Shaped(after)
    && 0 <= Calculate(t, cfg.playersPerTeam).winningTeam < TEAM_COUNT
    && r == Progress.Reported(Calculate(t, cfg.playersPerTeam), before, after).(teamLevels := after.levels,
              inPassAPhase := after.inPassAPhase, passAFailCounts := after.passAFailCounts,
                  attackingTeam := after.attackingTeam)
  }

  lemma PassTableIs(t: Table)
    requires Round.Ready(t)
    ensures var counted := t.(passCount := t.passCount + 1, stateVersion := t.stateVersion + 1);
            PassTable(t) == SkipFinished(if TrickOver(counted) then ResetRound(counted, t.lastPlayedPlayerIndex)
                else AdvanceTurn(counted))
  {
    hide TrickOver, NextActive, ResolveLead;
  }

  lemma PassIs(g: Game, cfg: Config, w: Witness, id: nat)
    requires Sound(g, cfg) && GoodConfig(cfg) && Seated(g.desk.table) && MatchInv(g, cfg, w)
    ensures PassCode(g.desk.table, id) != Ok ==> AfterAction(g, cfg, PassTurn(id)) == g
    ensures PassCode(g.desk.table, id) == Ok ==>
              && AfterAction(g, cfg, PassTurn(id)) == g.(desk := g.desk.(table := PassTable(g.desk.table)))
              && exists s :: Active(g.desk.table.players, g.desk.table.playerCount, s)
  {
    hide MatchInv, Sound, GoodConfig, PassTable, Standing, Trick, TeamActive;
    if PassCode(g.desk.table, id) == Ok {
      Runs.PassAccepted(g.desk.table, id);
      var h := RoundFacts(g, cfg, w);
    }
  }

  /** Who has to return a card, and to whom. */
  method ListReturns(tributes: seq<Transfer>) returns (seats: seq<int>, payers: map<int, int>)
    ensures seats == Recipients(tributes, |tributes|) && payers == Payers(tributes, |tributes|)
  {
    seats, payers := [], map[];
    for i := 0 to |tributes|
      invariant seats == Recipients(tributes, i) && payers == Payers(tributes, i)
    {
      seats := seats + [tributes[i].toSeat];
      payers := payers[tributes[i].toSeat := tributes[i].fromSeat];
    }
  }

  ghost predicate TributeEffect(g: Game, g': Game, cfg: Config, id: nat, card: CardId) {
    && Placed(g.desk.table) && g.desk.table.playerCount <= |g.previous.ranks|
    && if TributeCode(g.desk, cfg, id, card) != Ok then g' == g
       else
         && g' == g.(desk := AfterTribute(g.desk, cfg, g.previous, SeatOf(g.desk.table, id), card))
         && PlanInGame(g.desk.tribute.plan, g.desk.table.playerCount)
  }

  lemma TributeIs(g: Game, cfg: Config, w: Witness, id: nat, card: CardId)
    requires Sound(g, cfg) && GoodConfig(cfg) && MatchInv(g, cfg, w)
    ensures TributeEffect(g, AfterAction(g, cfg, SubmitTribute(id, card)), cfg, id, card)
  {
    hide MatchInv, AfterTribute, SeatOf, Sound, GoodConfig;
    ActionsAreSound(g, cfg, w);
    if TributeCode(g.desk, cfg, id, card) == Ok {
      PlanOfPhase(g, cfg, w);
    }
  }

  lemma PlanOfPhase(g: Game, cfg: Config, w: Witness)
    requires MatchInv(g, cfg, w) && g.desk.table.phase in {Tribute, ReturnTribute}
    ensures PlanInGame(g.desk.tribute.plan, g.desk.table.playerCount)
  {
    hide AfterOffers, FreshDeal, TeamsAlternate, Progress.StandingInv, PlanRound, RankSeat, PermRanks;
    DeskKept(g, cfg, w);
    DuePlaced(w.due, cfg, g.previous);
    DeskTables(w.due, cfg, g.desk);
  }

  ghost predicate ReturnEffect(g: Game, g': Game, cfg: Config, id: nat, card: CardId) {
    && Placed(g.desk.table)
    && if ReturnCode(g.desk, cfg, id, card) != Ok then g' == g
       else
         var s := SeatOf(g.desk.table, id);
         && g' == g.(desk := AfterReturn(g.desk, s, card)) && g.desk.table.phase == ReturnTribute
             && g.desk.tribute.active
         && s in g.desk.tribute.returnToTributer && g.desk.tribute.returnToTributer[s] < |g.desk.table.players|
  }

  lemma ReturnIs(g: Game, cfg: Config, w: Witness, id: nat, card: CardId)
    requires Sound(g, cfg) && GoodConfig(cfg) && MatchInv(g, cfg, w)
    ensures ReturnEffect(g, AfterAction(g, cfg, SubmitReturn(id, card)), cfg, id, card)
  {
    hide MatchInv, AfterReturn, SeatOf, Sound, GoodConfig;
    ActionsAreSound(g, cfg, w);
    if ReturnCode(g.desk, cfg, id, card) == Ok {
      PayerOfPhase(g, cfg, w, SeatOf(g.desk.table, id));
    }
  }

  lemma PayerOfPhase(g: Game, cfg: Config, w: Witness, s: int)
    requires MatchInv(g, cfg, w) && g.desk.table.phase == ReturnTribute && s in g.desk.tribute.pendingReturnSeats
    ensures s in g.desk.tribute.returnToTributer && g.desk.tribute.returnToTributer[s] < |g.desk.table.players|
  {
    hide AfterOffers, FreshDeal, TeamsAlternate, Progress.StandingInv, PlanRound, RankSeat, PermRanks;
    hide AnyOrder.Returning, AnyOrder.DueTributes, AnyOrder.Paid, AnyOrder.Paying;
    DeskKept(g, cfg, w);
    DuePlaced(w.due, cfg, g.previous);
    var tributes := AnyOrder.DueTributes(w.due, cfg);
    var i := AnyOrder.PendingPlace(w.due.table.allCards, Context(w.due.table, cfg), AnyOrder.Paid(w.due, cfg),
        tributes, g.desk, s);
    ReturningPairs(w.due.table.allCards, Context(w.due.table, cfg), AnyOrder.Paid(w.due, cfg), tributes, g.desk, i);
  }

  lemma ReturningPairs(all: seq<Card>, ctx: RuleContext, paid: seq<Player>, tributes: seq<Transfer>, d: Desk, i: nat)
    requires AnyOrder.Returning(all, ctx, paid, tributes, d) && i < |tributes|
    ensures tributes[i].fromSeat < |paid| == |d.table.players|
  {
    hide AnyOrder.FairReturn, AnyOrder.ReturnList;
  }

  class GameEngine {
    const state: GameState
    const turns: TurnManager
    const progress: Progress.TeamProgress
    var config: Config
    var tribute: TributeState
    var last: Outcome
    var previous: Previous
    /** How the current round came about. */
    ghost var course: Witness

    ghost function View(): Game
      reads this, state, progress
    {
      Game(Desk(state.View(), tribute, last), progress.View(), previous)
    }

    ghost predicate Valid()
      reads this, state, progress
    {
      turns.state == state && MatchInv(View(), config, course)
    }

    /** An engine without players. */
    constructor (config: Config)
      ensures fresh(state) && fresh(progress) && turns.state == state && this.config == config
      ensures progress.View() == Progress.START && previous == NO_PREVIOUS
      ensures |state.players| == MAX_PLAYERS
    {
      var table := new GameState();
      state := table;
      turns := new TurnManager(table);
      progress := new Progress.TeamProgress();
      this.config, tribute, last, previous := config, NO_TRIBUTE, NO_OUTCOME, NO_PREVIOUS;
    }

    // ----- before a match -----

    /** Seats the players of a room. */
    method Init(playerIds: seq<nat>)
      requires |playerIds| == config.playerCount && GoodConfig(config) && NoDuplicates(playerIds)
      requires turns.state == state && |previous.ranks| == MAX_PLAYERS && Progress.StandingInv(progress.View())
      modifies this`course, state
      ensures Valid() && state.phase == Waiting
      ensures state.playerCount == |playerIds|
      ensures forall s :: 0 <= s < |playerIds| ==> state.players[s].id == playerIds[s]
    {
      hide MatchInv, Progress.StandingInv, GoodConfig;
      state.Clear();
      state.playerCount := |playerIds|;
      GoodDeck(config);
      var deck := new Deck(config.deckCount);
      state.allCards := deck.cards;
      SeatPlayers(state, playerIds);
      course := Witness(Desk(state.View(), tribute, last), [], state.View(), []);
      SeatedGame(View(), config, playerIds);
      SeatingInv(View(), config, course);
    }

    /** Marks a player ready or not. */
    method SetPlayerReady(id: nat, ready: bool)
      requires Valid() && Enabled(View(), config, SetReady(id, ready))
      modifies this`course, state
      ensures Valid() && View() == AfterAction(old(View()), config, SetReady(id, ready))
    {
      hide MatchInv, SeatFrom;
      ghost var before := View();
      ActionsAreSound(before, config, course);
      var players := state.players;
      for i := 0 to |players|
        invariant SeatFrom(players, |players|, id, 0) == SeatFrom(players, |players|, id, i) && View() == before
        invariant unchanged(this)
      {
        SeatFromStep(players, id, i);
        if players[i].id == id {
          state.players := players[i := players[i].(isReady := ready)];
          break;
        }
      }
      SeatFromNone(players, id);
      course := ActionInv(before, config, course, SetReady(id, ready));
    }

    method AllPlayersReady() returns (ready: bool)
      requires state.playerCount <= |state.players|
      ensures ready <==> AllReady(state.View(), config)
    {
      for i := 0 to state.playerCount
        invariant forall k :: 0 <= k < i ==> state.players[k].isReady
      {
        if !state.players[i].isReady {
          return false;
        }
      }
      return state.playerCount == config.playerCount;
    }

    // ----- the deal -----

    /** Shuffles and deals a new deck and sets the round up at the attackers' level. */
    method DealRound(shuffled: seq<Card>)
      requires Placed(state.View()) && CanDeal(View(), config, shuffled) && GoodConfig(config)
      requires Shuffled(config, shuffled)
      modifies state, progress
      ensures CanDeal(old(View()), config, shuffled)
      ensures state.View() == DealtTable(old(View()), config, shuffled)
      ensures progress.View() == Progress.PrepareNextRound(old(progress.View()))
    {
      hide DealSpec, Shuffled, RoundTable, MatchInv;
      ghost var before := View();
      GoodDeck(config);
      var deck := new Deck(config.deckCount);
      ShuffleOf(config, deck.cards, shuffled);
      deck.Shuffle(shuffled);
      state.allCards := deck.cards;
      var dealt := deck.Deal(state.playerCount, if config.soloTest then SOLO_TEST_CARDS_PER_PLAYER else 0);
      DealtHands(shuffled, state.playerCount, CardsPerPlayer(config));
      HandOut(state, dealt.hands);
      progress.PrepareRound();
      SetUpRound(state, progress.attackingTeam, progress.levels[progress.attackingTeam],
                 progress.inPassAPhase[progress.attackingTeam]
                     && progress.levels[progress.attackingTeam] >= Progress.LEVEL_A);
      SetUpIs(before, config, shuffled, state.View());
    }

    method BeginPlayingFromDeal(firstPlayerSeat: int)
      modifies state
      ensures state.View() == BeginPlaying(old(state.View()), firstPlayerSeat)
    {
      state.phase := Playing;
      state.firstPlayerIndex := firstPlayerSeat;
      state.currentPlayerIndex := firstPlayerSeat;
      state.stateVersion := state.stateVersion + 1;
    }

    /** The first round of a match. */
    method Start(shuffled: seq<Card>) returns (r: PlayResult)
      requires Valid() && Shuffled(config, shuffled)
      modifies this`last, this`previous, this`course, state, progress
      ensures Valid() && View() == AfterAction(old(View()), config, StartGame(shuffled))
      ensures r == Refused(StartCode(old(View()), config))
    {
      hide MatchInv, DealtTable, Shuffled, AfterAction, AllReady, CanDeal;
      ghost var before := View();
      ActionsAreSound(before, config, course);
      course := StartIs(before, config, course, shuffled);
      if state.phase != Waiting && state.phase != Phase.Ready {
        return Refused(InvalidState);
      }
      var ready := AllPlayersReady();
      if !ready {
        return Refused(NotAllReady);
      }
      previous := NO_PREVIOUS;
      DealRound(shuffled);
      last := NO_OUTCOME.(skipped := true);
      BeginPlayingFromDeal(0);
      return ACCEPTED;
    }

    /** The tribute of a round just dealt: planned, and skipped or countered at once where the plan says so. */
    method OpenTribute()
      requires state.playerCount <= |state.players| == |previous.ranks|
      modifies this`tribute, this`last, state
      ensures Desk(state.View(), tribute, last) == OpenedDesk(old(state.View()), config, previous)
    {
      hide PlanRound;
      tribute := NO_TRIBUTE;
      var plan := PlanTribute(state, config, previous);
      if plan.skipped {
        last := NO_OUTCOME.(skipped := true, firstPlayerSeat := plan.headSeat);
        BeginPlayingFromDeal(plan.headSeat);
        return;
      }
      if plan.antiTribute {
        last := NO_OUTCOME.(antiTribute := true, firstPlayerSeat := plan.headSeat, summary := plan.summary);
        BeginPlayingFromDeal(plan.headSeat);
        return;
      }
      tribute := NO_TRIBUTE.(active := true, plan := plan, pendingTributers := plan.tributerSeats);
      last := NO_OUTCOME;
      state.phase := Tribute;
      state.stateVersion := state.stateVersion + 1;
    }

    /** A later round of a match. */
    method StartNext(shuffled: seq<Card>) returns (r: PlayResult)
      requires Valid() && Shuffled(config, shuffled)
      modifies this`tribute, this`last, this`course, state, progress
      ensures Valid() && View() == AfterAction(old(View()), config, StartNextRound(shuffled))
      ensures r == Refused(NextCode(old(View())))
    {
      hide MatchInv, DealtTable, Shuffled, AfterAction, CanDeal, OpenedDesk;
      ghost var before := View();
      ActionsAreSound(before, config, course);
      course := NextIs(before, config, course, shuffled);
      if state.phase != Finished {
        return Refused(InvalidState);
      }
      DealRound(shuffled);
      OpenTribute();
      return ACCEPTED;
    }

    // ----- playing -----

    /** The checks of a play, in the order of the code; the pattern of the cards if they all pass. */
    method CheckPlay(id: nat, cards: seq<CardId>) returns (code: Code, pattern: CardPattern)
      requires Seated(state.View())
      ensures code == PlayCode(state.View(), config, id, cards)
      ensures code == Ok ==> pattern == PatternOf(state.View(), config, cards)
    {
      hide SeatOf, ContainsAll, Patterns.Analyze, CanBeat;
      pattern := INVALID_PATTERN;
      if state.phase != Playing {
        return InvalidState, pattern;
      }
      var seat := SeatOfPlayer(state, id);
      if seat < 0 {
        return InvalidState, pattern;
      }
      if seat != state.currentPlayerIndex {
        return NotYourTurn, pattern;
      }
      if state.players[seat].hasFinished {
        return InvalidState, pattern;
      }
      var hand := new Hand(state.players[seat].hand);
      var holds := hand.Contains(cards);
      if !holds {
        return InvalidCards, pattern;
      }
      var objects := LookUp(state, cards);
      var ctx := RuleContextOf(state, config);
      pattern := Analyzer.Analyze(objects, ctx);
      if !pattern.isValid {
        return InvalidPatternCode, pattern;
      }
      if state.lastPattern.isValid && !CanBeat(pattern, state.lastPattern) {
        return CannotBeat, pattern;
      }
      return Ok, pattern;
    }

    /** The last play of a round: remaining ranks, settlement, standing, ranks kept for the tribute. */
    method FinishRound() returns (settlement: SettlementResult)
      requires state.playerCount <= |state.players| == MAX_PLAYERS && Progress.Shaped(progress.View())
      requires 0 <= Calculate(state.View().(players := AssignRemaining(state.players, state.playerCount),
                 phase := Finished), config.playersPerTeam).winningTeam < TEAM_COUNT
      modifies this`previous, state, progress
      ensures state.View() == old(state.View()).(players := AssignRemaining(old(state.players),
                old(state.playerCount)), phase := Finished)
      ensures var r := Calculate(state.View(), config.playersPerTeam);
              && progress.View() == Progress.AfterRound(old(progress.View()), r.winningTeam, r.levelUpgrade)
              && previous == BuildPrevious(state.View(), r.winningTeam)
      ensures RoundReport(settlement, state.View(), config, old(progress.View()), progress.View())
    {
      hide AssignRemaining, WinningRankSum, FindRank, Progress.AfterRound, Progress.Reported, RanksTo;
      AssignRemainingFinishRanks(state);
      var result := CalculateSettlement(state, config.playersPerTeam);
      assert result == Calculate(state.View().(phase := Finished), config.playersPerTeam);
      settlement := progress.ApplySettlement(result);
      var info := BuildPreviousRoundInfo(state, settlement.winningTeam);
      previous := info;
      state.phase := Finished;
    }

    /** The table after the cards of an accepted play, and whether they end the round. */
    method LayCards(seat: int, cards: seq<CardId>, pattern: CardPattern) returns (over: bool)
      requires Seated(state.View()) && seat == state.currentPlayerIndex
      requires pattern == PatternOf(state.View(), config, cards)
      modifies state
      ensures state.View() == Laid(old(state.View()), config, cards)
      ensures over <==> PlayEnds(old(state.View()), config, cards)
    {
      hide Patterns.Analyze, HandAfter, NextRank, TeamWin;
      over := false;
      PutDownCards(state, seat, cards, pattern);
      if state.players[seat].hand == [] {
        AssignFinishRank(state, seat);
        over := CheckTeamWin(state, config.playersPerTeam);
      }
    }

    /** The turn moves on past finished players. */
    method MoveOn()
      requires turns.state == state && Seated(state.View()) && exists s :: Active(state.players, state.playerCount, s)
      modifies state
      ensures state.View() == NextTurn(old(state.View()))
    {
      hide NextActive;
      turns.Advance();
      turns.SkipFinishedPlayers();
    }

    method Play(id: nat, cards: seq<CardId>) returns (r: PlayResult)
      requires Valid()
      modifies this`previous, this`course, state, progress
      ensures Valid() && View() == AfterAction(old(View()), config, PlayCards(id, cards))
      ensures r.code == PlayCode(old(View()).desk.table, config, id, cards)
      ensures r.gameOver <==> r.code == Ok && state.phase == Finished
      ensures r.gameOver ==> RoundReport(r.settlement, state.View(), config, old(progress.View()), progress.View())
    {
      hide RoundReport, MatchInv, AfterAction, PlayCode, PatternOf, Laid, PlayEnds, NextTurn, AssignRemaining;
      hide Calculate, Progress.AfterRound, BuildPrevious, Sound, GoodConfig;
      ghost var before, a := View(), PlayCards(id, cards);
      ActionsAreSound(before, config, course);
      ghost var course' := ActionInv(before, config, course, a);
      var code, pattern := CheckPlay(id, cards);
      PlayRefused(before, config, id, cards);
      if code != Ok {
        return Refused(code);
      }
      Runs.PlayAccepted(before.desk.table, config, id, cards);
      var seat := state.currentPlayerIndex;
      var over := LayCards(seat, cards, pattern);
      if over {
        LastPlayIs(before, config, course, id, cards);
        course := course';
        var settlement := FinishRound();
        return ACCEPTED.(gameOver := true, settlement := settlement);
      }
      OtherPlayIs(before, config, course, id, cards);
      course := course';
      MoveOn();
      return ACCEPTED;
    }

    /** Counts the pass; is the trick over? */
    method CountPass() returns (over: bool)
      requires turns.state == state && Seated(state.View())
      modifies state
      ensures state.View() == old(state.View()).(passCount := old(state.passCount) + 1,
                stateVersion := old(state.stateVersion) + 1)
      ensures over <==> TrickOver(state.View())
    {
      hide NextActive, AllOthersPassed, LeaderIsNext;
      state.passCount := state.passCount + 1;
      state.stateVersion := state.stateVersion + 1;
      var back := turns.ShouldResetRoundAfterPass(state.currentPlayerIndex);
      var everyone := turns.EveryOtherPassed();
      over := state.lastPlayedPlayerIndex >= 0 && (back || everyone);
    }

    /** The trick is cleared or the turn moves on, past finished players. */
    method AfterPass(over: bool)
      requires turns.state == state && Round.Ready(state.View())
      requires exists s :: Active(state.players, state.playerCount, s)
      modifies state
      ensures var t := old(state.View());
              state.View() == SkipFinished(if over then ResetRound(t, t.lastPlayedPlayerIndex) else AdvanceTurn(t))
    {
      hide NextActive, ResolveLead;
      if over {
        turns.Reset(state.lastPlayedPlayerIndex);
      } else {
        turns.Advance();
      }
      turns.SkipFinishedPlayers();
    }

    method Pass(id: nat) returns (r: PlayResult)
      requires Valid()
      modifies this`course, state
      ensures Valid() && View() == AfterAction(old(View()), config, PassTurn(id))
      ensures r == Refused(PassCode(old(View()).desk.table, id))
    {
      hide MatchInv, AfterAction, SeatOf, PassTable, Sound, GoodConfig, SkipFinished, TrickOver;
      ghost var before := View();
      ActionsAreSound(before, config, course);
      course := ActionInv(before, config, course, PassTurn(id));
      PassIs(before, config, old(course), id);
      if state.phase != Playing {
        return Refused(InvalidState);
      }
      var seat := SeatOfPlayer(state, id);
      if seat < 0 || seat != state.currentPlayerIndex {
        return Refused(NotYourTurn);
      }
      if !state.lastPattern.isValid {
        return Refused(InvalidState);
      }
      var over := CountPass();
      AfterPass(over);
      PassTableIs(before.desk.table);
      return ACCEPTED;
    }

    // ----- tribute -----

    /** Ends the tribute phase: the first player leads. */
    method FinishTributePhase()
      requires state.playerCount <= |previous.ranks|
      modifies this`tribute, this`last, state
      ensures Desk(state.View(), tribute, last) == StartPlay(old(Desk(state.View(), tribute, last)), config, previous)
    {
      hide FirstPlayer, PayerOf;
      var ctx := RuleContextOf(state, config);
      var first := ComputeFirstPlayerSeat(last, tribute.plan.headSeat, state, ctx, previous);
      var payer := FindPayer(last.tributes, tribute.plan.headSeat);
      last := last.(firstPlayerSeat := first, headTributerSeat := payer);
      tribute := NO_TRIBUTE;
      BeginPlayingFromDeal(first);
    }

    /** The checks of a tribute, in the order of the code. */
    method CheckTribute(id: nat, card: CardId) returns (code: Code, seat: int)
      requires Placed(state.View())
      ensures code == TributeCode(Desk(state.View(), tribute, last), config, id, card)
      ensures seat == SeatOf(state.View(), id)
    {
      hide SeatOf, Pickers.RequiredTribute;
      seat := SeatOfPlayer(state, id);
      if state.phase != Tribute || !tribute.active {
        return InvalidState, seat;
      }
      if seat < 0 {
        return InvalidState, seat;
      }
      if seat !in tribute.pendingTributers {
        return NotYourTurn, seat;
      }
      var ctx := RuleContextOf(state, config);
      var required := Pickers.PickBestTributeCard(state.allCards, ctx, state.players[seat].hand);
      if card == 0 || card !in state.players[seat].hand || card != required {
        return InvalidCards, seat;
      }
      return Ok, seat;
    }

    /** The cards change hands once all tributes are in. */
    method CollectTributes()
      requires 0 < state.playerCount <= |state.players| && state.playerCount <= |previous.ranks|
      requires PlanInGame(tribute.plan, state.playerCount)
      modifies this`tribute, this`last, state
      ensures Desk(state.View(), tribute, last) == Collect(old(Desk(state.View(), tribute, last)), config, previous)
    {
      hide StartPlay, TributesOf, MoveCards, AssignSummary, Recipients, Payers;
      last := last.(skipped := false, antiTribute := false);
      var ctx := RuleContextOf(state, config);
      last := AssignTributes(state, ctx, tribute.plan, tribute.submissions, last);
      if last.tributes == [] {
        last := last.(firstPlayerSeat := tribute.plan.headSeat);
        FinishTributePhase();
        return;
      }
      var seats, payers := ListReturns(last.tributes);
      tribute := tribute.(pendingReturnSeats := seats, returnToTributer := payers);
      state.phase := ReturnTribute;
      state.stateVersion := state.stateVersion + 1;
    }

    method SubmitTributeCard(id: nat, card: CardId) returns (r: PlayResult)
      requires Valid()
      modifies this`tribute, this`last, this`course, state
      ensures Valid() && View() == AfterAction(old(View()), config, SubmitTribute(id, card))
      ensures r == Refused(TributeCode(old(View()).desk, config, id, card))
    {
      hide MatchInv, AfterAction, SeatOf, TributeCode, Sound, GoodConfig, Collect, PlanInGame;
      ghost var before := View();
      ActionsAreSound(before, config, course);
      TributeIs(before, config, course, id, card);
      course := ActionInv(before, config, course, SubmitTribute(id, card));
      var code, seat := CheckTribute(id, card);
      if code != Ok {
        return Refused(code);
      }
      var pending := EraseAll(tribute.pendingTributers, seat);
      tribute := tribute.(submissions := tribute.submissions[seat := card], pendingTributers := pending);
      state.stateVersion := state.stateVersion + 1;
      if tribute.pendingTributers == [] {
        CollectTributes();
      }
      return ACCEPTED;
    }

    /** The checks of a return, in the order of the code. */
    method CheckReturn(id: nat, card: CardId) returns (code: Code, seat: int)
      requires Placed(state.View())
      ensures code == ReturnCode(Desk(state.View(), tribute, last), config, id, card)
      ensures seat == SeatOf(state.View(), id)
    {
      hide SeatOf, Pickers.ValidReturnIds;
      seat := SeatOfPlayer(state, id);
      if state.phase != ReturnTribute || !tribute.active {
        return InvalidState, seat;
      }
      if seat < 0 {
        return InvalidState, seat;
      }
      if seat !in tribute.pendingReturnSeats {
        return NotYourTurn, seat;
      }
      var ctx := RuleContextOf(state, config);
      var validIds := Pickers.ValidReturnCardIds(state.allCards, ctx, state.players[seat].hand);
      if card == 0 || card !in state.players[seat].hand || card !in validIds {
        return InvalidCards, seat;
      }
      return Ok, seat;
    }

    method SubmitReturnCard(id: nat, card: CardId) returns (r: PlayResult)
      requires Valid()
      modifies this`tribute, this`last, this`course, state
      ensures Valid() && View() == AfterAction(old(View()), config, SubmitReturn(id, card))
      ensures r.code == ReturnCode(old(View()).desk, config, id, card)
      ensures r.tributeRoundComplete <==> r.code == Ok && Complete(View().desk)
    {
      hide MatchInv, AfterAction, SeatOf, ReturnCode, Sound, GoodConfig, MoveCard;
      ghost var before := View();
      ActionsAreSound(before, config, course);
      ReturnIs(before, config, course, id, card);
      course := ActionInv(before, config, course, SubmitReturn(id, card));
      var code, seat := CheckReturn(id, card);
      if code != Ok {
        return Refused(code);
      }
      var toSeat := if seat in tribute.returnToTributer then tribute.returnToTributer[seat] else 0;
      var back := Transfer(seat, toSeat, card);
      TransferCard(state, back);
      last := last.(returned := last.returned + [back]);
      var pending := EraseAll(tribute.pendingReturnSeats, seat);
      tribute := tribute.(pendingReturnSeats := pending);
      state.stateVersion := state.stateVersion + 1;
      return ACCEPTED.(tributeRoundComplete := tribute.pendingReturnSeats == []);
    }

    /** Called once the last return is in. */
    method Finalize() returns (r: PlayResult)
      requires Valid() && Complete(View().desk)
      modifies this`tribute, this`last, this`course, state
      ensures Valid() && View() == AfterAction(old(View()), config, FinalizeTribute) && r == ACCEPTED
    {
      hide MatchInv, Sound, GoodConfig, StartPlay, AfterTribute, AfterReturn, PassTable;
      ghost var before := View();
      ActionsAreSound(before, config, course);
      course := ActionInv(before, config, course, FinalizeTribute);
      FinishTributePhase();
      r := ACCEPTED;
    }

    // ----- the bot -----

    /** The bot's play for a seat that is still in; no play for anyone else. */
    method ChooseBotPlay(id: nat) returns (best: Option<seq<CardId>>)
      requires Placed(state.View())
      requires (SeatOf(state.View(), id) >= 0 ==> |state.players[SeatOf(state.View(), id)].hand| <= 30)
      ensures var s := SeatOf(state.View(), id);
              if s < 0 || state.players[s].hasFinished || state.players[s].hand == [] then best == None
              else Bot.Best(state.allCards, state.players[s].hand, Context(state.View(), config), state.lastPattern,
                            Bot.Pow2(|state.players[s].hand|), best)
    {
      hide SeatOf, Bot.Best;
      var seat := SeatOfPlayer(state, id);
      if seat < 0 || state.players[seat].hasFinished || state.players[seat].hand == [] {
        return None;
      }
      var ctx := RuleContextOf(state, config);
      best := Bot.Search(state.allCards, state.players[seat].hand, ctx, state.lastPattern);
    }

    method ChooseBotTributeCard(id: nat) returns (card: Option<CardId>)
      requires Placed(state.View())
      ensures var s := SeatOf(state.View(), id);
              var required := if s < 0 then 0
                  else Pickers.RequiredTribute(state.allCards, Context(state.View(), config), state.players[s].hand);
              card == if required == 0 then None else Some(required)
    {
      hide SeatOf, Pickers.RequiredTribute;
      var seat := SeatOfPlayer(state, id);
      if seat < 0 {
        return None;
      }
      var ctx := RuleContextOf(state, config);
      var required := Pickers.PickBestTributeCard(state.allCards, ctx, state.players[seat].hand);
      card := if required == 0 then None else Some(required);
    }

    method ChooseBotReturnCard(id: nat) returns (card: Option<CardId>)
      requires Placed(state.View())
      ensures var s := SeatOf(state.View(), id);
              var pick := if s < 0 then 0 else Pickers.PickReturn(state.allCards, Context(state.View(), config),
                  state.players[s].hand);
              card == if pick == 0 then None else Some(pick)
    {
      hide SeatOf, Pickers.PickReturn;
      var seat := SeatOfPlayer(state, id);
      if seat < 0 {
        return None;
      }
      var ctx := RuleContextOf(state, config);
      var pick := Pickers.PickReturnCard(state.allCards, ctx, state.players[seat].hand);
      card := if pick == 0 then None else Some(pick);
    }
  }
}
