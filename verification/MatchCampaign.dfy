/** The levels of a whole match are told by the rounds it has finished. */
module MatchCampaign {
  import opened State
  import opened Cards
  import opened Turns
  import opened Settlements
  import opened Round
  import opened Conservation
  import opened Tributes
  import opened Exchange
  import opened TributePhase
  import opened Match
  import opened MatchProofs
  import Campaigns
  import Decks
  import FinishRanks
  import Hands
  import Patterns
  import Pickers
  import Progress
  import Runs
  import Seats

  /** Rounds dealt and not yet finished: none or one. */
  function UnderWay(t: Table): nat {
    if t.phase in {Playing, Tribute, ReturnTribute} then 1 else 0
  }

  /** The standing is that of these rounds, and they are the finished ones of those dealt since `start`. */
  ghost predicate Told(start: Game, g: Game, rounds: seq<Progress.Round>) {
    && Campaigns.Won(rounds) && g.standing == Progress.Play(rounds)
    && g.desk.table.round == start.desk.table.round + |rounds| + UnderWay(g.desk.table)
  }

  lemma PreparedIsSame(rounds: seq<Progress.Round>)
    requires Campaigns.Won(rounds)
    ensures Progress.PrepareNextRound(Progress.Play(rounds)) == Progress.Play(rounds)
  {
    hide Progress.Play;
    Campaigns.AttackerPrepared(rounds);
    Progress.MatchInv(rounds);
  }

  /** What each action does to the standing and to the number of rounds. */
  ghost predicate Tells(g: Game, g': Game, ended: bool, round: Progress.Round) {
    if ended then
      && 0 <= round.winner < TEAM_COUNT && Progress.Shaped(g.standing)
      && g'.standing == Progress.AfterRound(g.standing, round.winner, round.upgrade)
      && g'.desk.table.round == g.desk.table.round && UnderWay(g.desk.table) == 1 && UnderWay(g'.desk.table) == 0
    else
      && (g'.standing == g.standing || g'.standing == Progress.PrepareNextRound(g.standing))
      && g'.desk.table.round - UnderWay(g'.desk.table) == g.desk.table.round - UnderWay(g.desk.table)
  }

  lemma PlayTells(g: Game, cfg: Config, w: Witness, id: nat, cards: seq<CardId>)
      returns (ended: bool, round: Progress.Round)
    requires MatchInv(g, cfg, w) && Sound(g, cfg) && PlayCode(g.desk.table, cfg, id, cards) == Ok
    ensures Tells(g, AfterPlay(g, cfg, cards), ended, round)
  {
    hide MatchInv, Sound, PlayTable, PlayCode, AfterPlay, Progress.AfterRound;
    hide UnderWay;
    PlayedTable(g, cfg, cards);
    Runs.PlayAccepted(g.desk.table, cfg, id, cards);
    Runs.PhaseAfterPlay(g.desk.table, cfg, cards);
    SameRound(g.desk.table, cfg, cards);
    WhichAreUnderWay(g.desk.table, AfterPlay(g, cfg, cards).desk.table);
    ended, round := PlayTable(g.desk.table, cfg, cards).phase == Finished, Progress.Round(0, 0);
    if ended {
      round := EndedPlay(g, cfg, w, id, cards);
    }
  }

  lemma EndedPlay(g: Game, cfg: Config, w: Witness, id: nat, cards: seq<CardId>) returns (round: Progress.Round)
    requires MatchInv(g, cfg, w) && PlayCode(g.desk.table, cfg, id, cards) == Ok && Sound(g, cfg)
    requires PlayTable(g.desk.table, cfg, cards).phase == Finished
    ensures 0 <= round.winner < TEAM_COUNT && Progress.Shaped(g.standing)
    ensures AfterPlay(g, cfg, cards).standing == Progress.AfterRound(g.standing, round.winner, round.upgrade)
  {
    hide MatchInv, Sound, PlayTable, PlayCode, AfterPlay, Progress.AfterRound;
    PlayedTable(g, cfg, cards);
    var head, mate := RoundIsScored(g, cfg, w, id, cards);
    var p := AfterPlay(g, cfg, cards).desk.table.players;
    var upgrade := (if cfg.playersPerTeam == 3 then 9 else 5) - p[mate].finishRank;
    round := Progress.Round(p[head].team, upgrade);
  }

  lemma WhichAreUnderWay(t: Table, u: Table)
    requires t.phase == Playing && u.phase in {Playing, Finished}
    ensures UnderWay(t) == 1 && UnderWay(u) == if u.phase == Finished then 0 else 1
  {
  }

  lemma PlayedTable(g: Game, cfg: Config, cards: seq<CardId>)
    requires Sound(g, cfg)
    ensures Seated(g.desk.table)
    ensures AfterPlay(g, cfg, cards).desk.table == PlayTable(g.desk.table, cfg, cards)
    ensures PlayTable(g.desk.table, cfg, cards).phase != Finished ==> AfterPlay(g, cfg, cards).standing == g.standing
    ensures Progress.Shaped(g.standing)
  {
    hide PlayTable, Calculate, Progress.AfterRound, TeamsAlternate, BuildPrevious;
  }

  lemma SameRound(t: Table, cfg: Config, cards: seq<CardId>)
    requires Seated(t)
    ensures PlayTable(t, cfg, cards).round == t.round
  {
    hide Patterns.Analyze, Hands.HandAfter, TeamWin, FinishRanks.AssignRemaining, Seats.NextActive, PlayEnds, NextRank;
  }

  lemma PassSameRound(t: Table)
    requires Round.Ready(t)
    ensures PassTable(t).round == t.round && PassTable(t).phase == t.phase
  {
    hide TrickOver, Seats.NextActive, ResolveLead;
  }

  lemma SubmitTells(g: Game, cfg: Config, w: Witness, o: Offer)
    requires MatchInv(g, cfg, w) && OfferCode(g.desk, cfg, o) == Ok
    ensures Placed(g.desk.table) && g.desk.table.playerCount <= |g.previous.ranks|
    ensures Tells(g, g.(desk := AfterOffer(g.desk, cfg, g.previous, o)), false, Progress.Round(0, 0))
  {
    hide TributesOf, MoveCards, FirstPlayer, PayerOf, Payers, MoveCard, Recipients, AssignSummary, SeatOf;
    hide InTribute, InRound, Ended, Runs.DistinctIds, IdleSeats, TeamsAlternate, Progress.StandingInv;
    hide Pickers.ValidTributeSubmission, Pickers.ValidReturnSubmission;
  }

  lemma DealTells(g: Game, cfg: Config, shuffled: seq<Card>)
    requires CanDeal(g, cfg, shuffled)
    ensures DealtTable(g, cfg, shuffled).round == g.desk.table.round + 1
  {
    hide Decks.DealSpec;
  }

  lemma ActionTells(g: Game, cfg: Config, w: Witness, a: Action) returns (ended: bool, round: Progress.Round)
    requires MatchInv(g, cfg, w) && Enabled(g, cfg, a)
    ensures Sound(g, cfg) && GoodConfig(cfg) && Tells(g, AfterAction(g, cfg, a), ended, round)
  {
    hide MatchInv, PlayCode, PassCode, TributeCode, ReturnCode, PassTable, PlayTable, AfterPlay, DealtTable, CanDeal;
    hide Shuffled, MarkReady, PlanRound, FirstPlayer, PayerOf, TeamsAlternate, Progress.StandingInv, AfterTribute;
    hide AfterReturn, Progress.PrepareNextRound, AllReady;
    MatchSound(g, cfg, w);
    ended, round := false, Progress.Round(0, 0);
    if ActionCode(g, cfg, a) == Ok {
      match a
      case SetReady(_, _) =>
      case StartGame(shuffled) =>
        CanAlwaysDeal(g.(previous := NO_PREVIOUS), cfg, shuffled);
        DealTells(g.(previous := NO_PREVIOUS), cfg, shuffled);
      case StartNextRound(shuffled) =>
        CanAlwaysDeal(g, cfg, shuffled);
        DealTells(g, cfg, shuffled);
      case PlayCards(id, cards) => ended, round := PlayTells(g, cfg, w, id, cards);
      case PassTurn(_) => PassSameRound(g.desk.table);
      case SubmitTribute(id, card) => SubmitTells(g, cfg, w, Pay(id, card));
      case SubmitReturn(id, card) => SubmitTells(g, cfg, w, GiveBack(id, card));
      case FinalizeTribute =>
    }
  }

  /** In every reachable state of a match the standing is the one its finished rounds amount to: of the rounds
      dealt so far, all but the one under way. */
  lemma {:induction false} MatchIsTold(start: Game, cfg: Config, actions: seq<Action>, g: Game)
      returns (rounds: seq<Progress.Round>)
    requires Seating(start, cfg) && start.standing == Progress.START && Reaches(start, cfg, actions, g)
    ensures Told(start, g, rounds) && g.standing == Campaigns.StandingOf(rounds)
  {
    hide Seating, Sound, GoodConfig, Enabled, AfterAction, MatchInv, Campaigns.StandingOf, Progress.Play;
    hide Progress.AfterRound;
    if actions == [] {
      rounds := [];
      Campaigns.NoRounds();
      NothingUnderWay(start, cfg);
    } else {
      var k := |actions| - 1;
      var before: Game :| Reaches(start, cfg, actions[..k], before) && Sound(before, cfg) && GoodConfig(cfg)
                          && Enabled(before, cfg, actions[k]) && g == AfterAction(before, cfg, actions[k]);
      rounds := MatchIsTold(start, cfg, actions[..k], before);
      var w := EveryMatch(start, cfg, actions[..k], before);
      var ended, round := ActionTells(before, cfg, w, actions[k]);
      PreparedIsSame(rounds);
      if ended {
        Progress.PlaySnoc(rounds, round);
        rounds := rounds + [round];
      }
    }
    Campaigns.StandingIsCampaigns(rounds);
  }

  lemma NothingUnderWay(start: Game, cfg: Config)
    requires Seating(start, cfg)
    ensures UnderWay(start.desk.table) == 0
  {
    hide TeamsAlternate, Progress.StandingInv, Runs.DistinctIds, IdleSeats;
  }
}
