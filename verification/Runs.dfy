/** Whole rounds: any sequence of plays and passes, accepted or not, from a fresh deal. */
module Runs {
  import opened Cards
  import opened Shapes
  import opened Patterns
  import opened Rules
  import opened State
  import opened Seats
  import opened Turns
  import opened FinishRanks
  import opened Settlements
  import opened Hands
  import opened Decks
  import opened Round
  import opened RoundProofs
  import opened Readings

  datatype Move = Play(player: nat, cards: seq<CardId>) | Pass(player: nat)

  ghost function MoveCode(t: Table, cfg: Config, m: Move): Code
    requires Seated(t)
  {
    match m
    case Play(id, cards) => PlayCode(t, cfg, id, cards)
    case Pass(id) => PassCode(t, id)
  }

  /** A table with what has happened on it: the seats that have gone out, the seats that passed on the
      pattern on the table, the cards played, the patterns of the current trick, and the number of
      accepted moves. */
  datatype History = History(table: Table, order: seq<int>, passers: seq<int>, played: multiset<CardId>,
                             trick: seq<CardPattern>, accepted: nat)

  /** A move that is not accepted changes nothing. */
  ghost function After(h: History, cfg: Config, m: Move): (h': History)
    requires Round.Ready(h.table)
    ensures Round.Ready(h'.table)
  {
    hide PlayTable, PassTable;
    var t := h.table;
    if MoveCode(t, cfg, m) != Ok then h
    else match m
      case Play(_, cards) =>
        History(PlayTable(t, cfg, cards), OrderAfter(t, h.order, cards), [], h.played + multiset(cards),
                h.trick + [PatternOf(t, cfg, cards)], h.accepted + 1)
      case Pass(_) =>
        if PassTable(t).lastPattern.isValid
        then h.(table := PassTable(t), passers := h.passers + [t.currentPlayerIndex], accepted := h.accepted + 1)
        else h.(table := PassTable(t), passers := [], trick := [], accepted := h.accepted + 1)
  }

  ghost function Run(t: Table, cfg: Config, moves: seq<Move>): (h: History)
    requires Round.Ready(t)
    ensures Round.Ready(h.table)
  {
    if moves == [] then History(t, [], [], multiset{}, [], 0)
    else After(Run(t, cfg, moves[..|moves| - 1]), cfg, moves[|moves| - 1])
  }

  // ----- the course of a round -----

  ghost predicate DistinctIds(p: seq<Player>, n: int) {
    n <= |p| && forall i, j :: 0 <= i < j < n ==> p[i].id != p[j].id
  }

  /** The table of a round about to begin: everybody holds cards, nobody has gone out. */
  ghost predicate Opening(t: Table, ppt: nat) {
    && t.phase == Playing && Round.Ready(t) && TeamsAlternate(t.players, t.playerCount, ppt)
    && (forall s :: 0 <= s < |t.players| ==> !t.players[s].hasFinished)
    && (forall s :: 0 <= s < t.playerCount ==> t.players[s].hand != [] && t.players[s].finishRank == 0)
    && !t.lastPattern.isValid && t.lastPlayedCards == [] && t.lastPlayedPlayerIndex == -1 && t.passCount == 0
    && t.firstPlayerIndex == t.currentPlayerIndex
  }

  /** Each pattern of a trick beats every earlier one. */
  ghost predicate Rising(trick: seq<CardPattern>) {
    && (forall i :: 0 <= i < |trick| ==> Playable(trick[i]))
    && (forall i, j :: 0 <= i < j < |trick| ==> CanBeat(trick[j], trick[i]))
  }

  ghost predicate OnTable(t: Table, trick: seq<CardPattern>) {
    if t.lastPattern.isValid then trick != [] && trick[|trick| - 1] == t.lastPattern else trick == []
  }

  /** What holds after every run: the round goes on with its invariant, one turn per accepted move; or
      it is over, the last play having taken no turn. */
  ghost predicate Course(h: History, ppt: nat, startTurn: nat) {
    && Rising(h.trick)
    && if h.table.phase == Playing then
         RoundInv(h.table, ppt, h.order, h.passers) && OnTable(h.table, h.trick)
             && h.table.turnId == startTurn + h.accepted
       else RoundOver(h.table, ppt, h.order) && h.table.turnId + 1 == startTurn + h.accepted
  }

  lemma OpeningInv(t: Table, ppt: nat)
    requires Opening(t, ppt)
    ensures RoundInv(t, ppt, [], [])
  {
    assert Active(t.players, t.playerCount, 0) && Active(t.players, t.playerCount, 1);
  }

  lemma RisingNone()
    ensures Rising([])
  {
  }

  lemma RisingSnoc(trick: seq<CardPattern>, p: CardPattern)
    requires Rising(trick) && Playable(p) && (trick == [] || CanBeat(p, trick[|trick| - 1]))
    ensures Rising(trick + [p])
  {
    hide Playable, CanBeat;
    forall i | 0 <= i < |trick|
      ensures CanBeat(p, trick[i])
    {
      if i < |trick| - 1 {
        CanBeatStrictOrder(p, trick[|trick| - 1], trick[i]);
      }
    }
  }

  /** What the answer Ok to a play says. */
  lemma PlayAccepted(t: Table, cfg: Config, id: nat, cards: seq<CardId>)
    requires Seated(t) && PlayCode(t, cfg, id, cards) == Ok
    ensures t.phase == Playing && t.players[t.currentPlayerIndex].id == id
    ensures !t.players[t.currentPlayerIndex].hasFinished
    ensures ContainsAll(t.players[t.currentPlayerIndex].hand, cards)
    ensures PatternOf(t, cfg, cards).isValid && Playable(PatternOf(t, cfg, cards))
    ensures (t.lastPattern.isValid ==> CanBeat(PatternOf(t, cfg, cards), t.lastPattern))
  {
    hide Analyze, CanBeat, ContainsAll, Playable;
    AnalyzePlayable(CardsFromIds(t.allCards, cards), Context(t, cfg));
  }

  lemma PhaseAfterPlay(t: Table, cfg: Config, cards: seq<CardId>)
    requires Seated(t) && t.phase == Playing
    ensures PlayTable(t, cfg, cards).phase == if PlayEnds(t, cfg, cards) then Finished else Playing
  {
    hide HandAfter, Analyze, TeamWin, AssignRemaining, NextActive, PlayEnds, Finish, NextRank;
  }

  lemma PlayTrick(h: History, cfg: Config, cards: seq<CardId>)
    requires Seated(h.table) && Rising(h.trick) && OnTable(h.table, h.trick) && Playable(PatternOf(h.table, cfg, cards))
    requires h.table.lastPattern.isValid ==> CanBeat(PatternOf(h.table, cfg, cards), h.table.lastPattern)
    ensures Rising(h.trick + [PatternOf(h.table, cfg, cards)])
  {
    hide Analyze, CanBeat, Rising, Playable;
    RisingSnoc(h.trick, PatternOf(h.table, cfg, cards));
  }

  lemma PlayRound(t: Table, cfg: Config, order: seq<int>, passers: seq<int>, cards: seq<CardId>)
    requires RoundInv(t, cfg.playersPerTeam, order, passers) && Playable(PatternOf(t, cfg, cards))
    ensures var t' := PlayTable(t, cfg, cards);
            if t'.phase == Playing then
              && RoundInv(t', cfg.playersPerTeam, OrderAfter(t, order, cards), [])
              && t'.turnId == t.turnId + 1 && t'.lastPattern == PatternOf(t, cfg, cards)
            else RoundOver(t', cfg.playersPerTeam, OrderAfter(t, order, cards)) && t'.turnId == t.turnId
  {
    hide RoundOver, PlayTable, Analyze, CanBeat, HandAfter, TeamWin, Laid, Standing, Trick, TeamActive;
    PhaseAfterPlay(t, cfg, cards);
    if PlayEnds(t, cfg, cards) {
      PlayEndsRound(t, cfg, order, passers, cards);
    } else {
      PlayKeepsRound(t, cfg, order, passers, cards);
    }
  }

  lemma PlayCourse(h: History, cfg: Config, startTurn: nat, m: Move)
    requires Round.Ready(h.table) && Course(h, cfg.playersPerTeam, startTurn) && m.Play?
    requires MoveCode(h.table, cfg, m) == Ok
    ensures Course(After(h, cfg, m), cfg.playersPerTeam, startTurn)
  {
    hide RoundInv, RoundOver, PlayTable, OrderAfter, PatternOf, CanBeat, Rising, Playable, PlayCode;
    PlayAccepted(h.table, cfg, m.player, m.cards);
    PlayRound(h.table, cfg, h.order, h.passers, m.cards);
    PlayTrick(h, cfg, m.cards);
  }

  lemma PassAccepted(t: Table, id: nat)
    requires Seated(t) && PassCode(t, id) == Ok
    ensures t.phase == Playing && t.lastPattern.isValid && t.players[t.currentPlayerIndex].id == id
  {
  }

  lemma PassRound(t: Table, ppt: nat, order: seq<int>, passers: seq<int>)
    requires RoundInv(t, ppt, order, passers) && t.lastPattern.isValid
    ensures var t' := PassTable(t);
            && PassEffect(t, t', passers + [t.currentPlayerIndex]) && t'.turnId == t.turnId + 1
            && RoundInv(t', ppt, order, if t'.lastPattern.isValid then passers + [t.currentPlayerIndex] else [])
            && t'.phase == Playing && (t'.lastPattern.isValid ==> t'.lastPattern == t.lastPattern)
  {
    hide PassTable, Standing, Trick, TeamActive, Arc;
    PassKeepsRound(t, ppt, order, passers);
  }

  lemma PassCourse(h: History, cfg: Config, startTurn: nat, m: Move)
    requires Round.Ready(h.table) && Course(h, cfg.playersPerTeam, startTurn) && m.Pass?
    requires MoveCode(h.table, cfg, m) == Ok
    ensures Course(After(h, cfg, m), cfg.playersPerTeam, startTurn)
  {
    hide PassTable, RoundOver, RoundInv, PassEffect, Rising, PassCode, PlayCode, PatternOf, OrderAfter, PlayTable;
    RisingNone();
    PassAccepted(h.table, m.player);
    PassRound(h.table, cfg.playersPerTeam, h.order, h.passers);
  }

  /** Whatever moves are tried after the deal, the round keeps its course. */
  lemma {:induction false} EveryRun(t: Table, cfg: Config, moves: seq<Move>)
    requires Opening(t, cfg.playersPerTeam)
    ensures Course(Run(t, cfg, moves), cfg.playersPerTeam, t.turnId)
  {
    hide Course, PlayCode, PassCode;
    if moves == [] {
      OpeningInv(t, cfg.playersPerTeam);
      CourseStart(t, cfg);
    } else {
      var k := |moves| - 1;
      var h, m := Run(t, cfg, moves[..k]), moves[k];
      EveryRun(t, cfg, moves[..k]);
      if MoveCode(h.table, cfg, m) == Ok {
        if m.Play? {
          PlayCourse(h, cfg, t.turnId, m);
        } else {
          PassCourse(h, cfg, t.turnId, m);
        }
      }
    }
  }

  lemma CourseStart(t: Table, cfg: Config)
    requires Opening(t, cfg.playersPerTeam) && RoundInv(t, cfg.playersPerTeam, [], [])
    ensures Course(Run(t, cfg, []), cfg.playersPerTeam, t.turnId)
  {
    hide RoundInv, TeamsAlternate;
  }

  // ----- when a round ends -----

  /** Nobody of some team holds a card. */
  ghost predicate TeamEmpty(t: Table) {
    && 0 < t.playerCount <= |t.players|
    && exists team :: (team == 0 || team == 1) && HandsEmpty(t.players, t.playerCount, team)
  }

  ghost predicate HandsEmpty(p: seq<Player>, n: int, team: int) {
    n <= |p| && forall s :: 0 <= s < n && s % 2 == team ==> p[s].hand == []
  }

  lemma OutIsEmpty(t: Table, order: seq<int>)
    requires Seated(t) && forall s :: 0 <= s < t.playerCount ==> (s in order <==> t.players[s].hand == [])
    ensures TeamOut(t.playerCount, order) <==> TeamEmpty(t)
  {
    forall team
      ensures AllOut(t.playerCount, order, team) <==> HandsEmpty(t.players, t.playerCount, team)
    {
    }
  }

  lemma EmptyWhilePlaying(t: Table, ppt: nat, order: seq<int>, passers: seq<int>)
    requires RoundInv(t, ppt, order, passers)
    ensures !TeamOut(t.playerCount, order)
    ensures forall s :: 0 <= s < t.playerCount ==> (s in order <==> t.players[s].hand == [])
  {
    NobodyIsOut(t.players, t.playerCount, ppt, order);
  }

  /** The round is over exactly if all seats of one team have gone out, that is, hold no cards any more; and
      before the last of them went out no team was complete. */
  ghost predicate EndsInTime(t: Table, order: seq<int>) {
    && 0 < t.playerCount <= |t.players|
    && (forall s :: 0 <= s < t.playerCount ==> (s in order <==> t.players[s].hand == []))
    && (t.phase == Finished <==> TeamOut(t.playerCount, order))
    && (t.phase == Finished <==> TeamEmpty(t))
    && (t.phase == Finished ==> order != [] && !TeamOut(t.playerCount, order[..|order| - 1]))
  }

  /** That holds after every run, for the seats that went out by a play of their last cards. */
  lemma RoundEndsIff(t: Table, cfg: Config, moves: seq<Move>)
    requires Opening(t, cfg.playersPerTeam)
    ensures EndsInTime(Run(t, cfg, moves).table, Run(t, cfg, moves).order)
  {
    hide Run, RoundInv, TeamOut, TeamEmpty, Rising, OnTable, FinishOrder, RankPermutation, TeamsAlternate;
    EveryRun(t, cfg, moves);
    var h := Run(t, cfg, moves);
    if h.table.phase == Playing {
      EmptyWhilePlaying(h.table, cfg.playersPerTeam, h.order, h.passers);
      RoundPhase(h.table, cfg.playersPerTeam, h.order, h.passers);
    }
    OutIsEmpty(h.table, h.order);
  }

  lemma RoundPhase(t: Table, ppt: nat, order: seq<int>, passers: seq<int>)
    requires RoundInv(t, ppt, order, passers)
    ensures t.phase == Playing && Seated(t)
  {
  }

  // ----- what the table shows -----

  /** The cards on the table are those of the pattern to beat; there has been one new version of the state
      per accepted move; and the terms of the round stay as they were dealt. */
  ghost predicate Shown(u: Table, accepted: nat, t: Table, cfg: Config) {
    && u.stateVersion == t.stateVersion + accepted
    && (if u.lastPattern.isValid then u.lastPattern == PatternOf(u, cfg, u.lastPlayedCards)
        else u.lastPlayedCards == [])
    && u.playerCount == t.playerCount && u.allCards == t.allCards && u.round == t.round
        && u.firstPlayerIndex == t.firstPlayerIndex
    && u.currentLevel == t.currentLevel && u.attackingTeam == t.attackingTeam && u.isPassARound == t.isPassARound
  }

  lemma PlayShows(t: Table, cfg: Config, cards: seq<CardId>, accepted: nat, start: Table)
    requires Seated(t) && Shown(t, accepted, start, cfg) && PatternOf(t, cfg, cards).isValid
    ensures Shown(PlayTable(t, cfg, cards), accepted + 1, start, cfg)
  {
    hide HandAfter, Analyze, TeamWin, AssignRemaining, NextActive, PlayEnds, Finish, NextRank;
  }

  lemma PassShows(t: Table, cfg: Config, accepted: nat, start: Table)
    requires Round.Ready(t) && Shown(t, accepted, start, cfg)
    ensures Shown(PassTable(t), accepted + 1, start, cfg)
  {
    hide Analyze, TrickOver, NextActive, ResolveLead;
  }

  /** After every sequence of moves. */
  lemma {:induction false} TableAfterRun(t: Table, cfg: Config, moves: seq<Move>)
    requires Round.Ready(t) && !t.lastPattern.isValid && t.lastPlayedCards == []
    ensures Shown(Run(t, cfg, moves).table, Run(t, cfg, moves).accepted, t, cfg)
  {
    hide Shown, PlayTable, PassTable, PlayCode, PassCode, PatternOf;
    if moves == [] {
      ShownAtOnce(t, cfg);
    } else {
      var k := |moves| - 1;
      var h, m := Run(t, cfg, moves[..k]), moves[k];
      TableAfterRun(t, cfg, moves[..k]);
      if MoveCode(h.table, cfg, m) == Ok {
        if m.Play? {
          PlayAccepted(h.table, cfg, m.player, m.cards);
          PlayShows(h.table, cfg, m.cards, h.accepted, t);
        } else {
          PassShows(h.table, cfg, h.accepted, t);
        }
      }
    }
  }

  lemma ShownAtOnce(t: Table, cfg: Config)
    requires !t.lastPattern.isValid && t.lastPlayedCards == []
    ensures Shown(t, 0, t, cfg)
  {
  }
}
