/** Levels and the pass-A phase across the rounds of a match (team_progress.cpp). */
module Progress {
  import opened Cards
  import opened State
  import opened FinishRanks
  import opened Settlements

  const LEVEL_A := 14
  const PASS_A_FAIL_LIMIT := 3

  /** The value of a TeamProgress object. */
  datatype Standing = Standing(levels: seq<int>, inPassAPhase: seq<bool>, passAFailCounts: seq<int>,
      attackingTeam: int, lastWinningTeam: int)

  const START := Standing([2, 2], [false, false], [0, 0], 0, -1)

  predicate Shaped(s: Standing) {
    |s.levels| == |s.inPassAPhase| == |s.passAFailCounts| == TEAM_COUNT && 0 <= s.attackingTeam < TEAM_COUNT
  }

  predicate IsPassARound(s: Standing)
    requires Shaped(s)
  {
    s.inPassAPhase[s.attackingTeam] && s.levels[s.attackingTeam] >= LEVEL_A
  }

  function PrepareNextRound(s: Standing): Standing {
    if s.lastWinningTeam >= 0 then s.(attackingTeam := s.lastWinningTeam) else s
  }

  /** The attackers' pass-A round was lost: a third failure sends them back to level 2. */
  function PassAFailed(s: Standing): Standing
    requires Shaped(s)
  {
    var a := s.attackingTeam;
    if s.passAFailCounts[a] + 1 >= PASS_A_FAIL_LIMIT then
      s.(levels := s.levels[a := 2], inPassAPhase := s.inPassAPhase[a := false],
          passAFailCounts := s.passAFailCounts[a := 0])
    else s.(passAFailCounts := s.passAFailCounts[a := s.passAFailCounts[a] + 1])
  }

  function Climbed(s: Standing, winner: int, upgrade: int): Standing
    requires Shaped(s) && 0 <= winner < TEAM_COUNT
  {
    var upgraded := s.levels[winner] + upgrade;
    if !s.inPassAPhase[winner] && upgraded >= LEVEL_A then
      s.(inPassAPhase := s.inPassAPhase[winner := true], levels := s.levels[winner := LEVEL_A])
    else s.(levels := s.levels[winner := if upgraded < LEVEL_A then upgraded else LEVEL_A])
  }

  predicate WinsMatch(s: Standing, winner: int, upgrade: int)
    requires Shaped(s)
  {
    winner >= 0 && IsPassARound(s) && winner == s.attackingTeam && upgrade > 0
  }

  /** The levels after a round that `winner` won with a number of levels. */
  function Settled(s: Standing, winner: int, upgrade: int): Standing
    requires Shaped(s) && 0 <= winner < TEAM_COUNT
  {
    if IsPassARound(s) then (if WinsMatch(s, winner, upgrade) then s else PassAFailed(s))
    else if upgrade > 0 then Climbed(s, winner, upgrade)
    else s
  }

  /** Standing after the round: the winner attacks next. */
  function AfterRound(s: Standing, winner: int, upgrade: int): (s': Standing)
    requires Shaped(s) && winner < TEAM_COUNT
    ensures Shaped(s')
  {
    if winner < 0 then s else Settled(s, winner, upgrade).(lastWinningTeam := winner, attackingTeam := winner)
  }

  /** The record of a won round, completed from the standing before and after it: whose pass-A round it
      was, how it went, who entered or left the phase, and the level that was played for. */
  ghost function Reported(r: SettlementResult, before: Standing, after: Standing): (q: SettlementResult)
    requires Shaped(before) && Shaped(after) && 0 <= r.winningTeam < TEAM_COUNT
    ensures q.winningTeam == r.winningTeam && q.levelUpgrade == r.levelUpgrade && q.ranks == r.ranks
    ensures q.playerIds == r.playerIds
  {
    var a, w, passARound := before.attackingTeam, r.winningTeam, IsPassARound(before);
    var won := WinsMatch(before, w, r.levelUpgrade);
    r.(isPassARound := passARound,
       passATeam := if passARound then a else r.passATeam,
       passASuccess := if passARound then won else r.passASuccess,
       matchWon := r.matchWon || won,
       enteredPassAPhase := r.enteredPassAPhase || (!before.inPassAPhase[w] && after.inPassAPhase[w]),
       passAFailCount := if passARound && !won then before.passAFailCounts[a] + 1 else r.passAFailCount,
       passAFailReset := r.passAFailReset || (before.inPassAPhase[a] && !after.inPassAPhase[a]),
       newLevel := if passARound then after.levels[a] else if r.levelUpgrade > 0 then after.levels[w] else r.newLevel)
  }

  class TeamProgress {
    var levels: seq<int>
    var inPassAPhase: seq<bool>
    var passAFailCounts: seq<int>
    var attackingTeam: int
    var lastWinningTeam: int

    function View(): Standing
      reads this
    {
      Standing(levels, inPassAPhase, passAFailCounts, attackingTeam, lastWinningTeam)
    }

    constructor ()
      ensures View() == START
    {
      levels, inPassAPhase, passAFailCounts := [2, 2], [false, false], [0, 0];
      attackingTeam, lastWinningTeam := 0, -1;
    }

    method PrepareRound()
      modifies this
      ensures View() == PrepareNextRound(old(View()))
    {
      if lastWinningTeam >= 0 {
        attackingTeam := lastWinningTeam;
      }
    }

    /** The branch for a round in which the attackers try to pass level A. */
    method SettlePassARound(result: SettlementResult) returns (r: SettlementResult)
      requires Shaped(View()) && IsPassARound(View()) && result.isPassARound && 0 <= result.winningTeam < TEAM_COUNT
      modifies this
      ensures View() == if WinsMatch(old(View()), result.winningTeam, result.levelUpgrade) then old(View())
                else PassAFailed(old(View()))
      ensures r == Reported(result, old(View()), View())
    {
      var passTeam := attackingTeam;
      var success := result.winningTeam == passTeam && result.levelUpgrade > 0;
      r := result.(passATeam := passTeam, passASuccess := success);
      if success {
        r := r.(matchWon := true, newLevel := levels[passTeam]);
      } else {
        passAFailCounts := passAFailCounts[passTeam := passAFailCounts[passTeam] + 1];
        r := r.(passAFailCount := passAFailCounts[passTeam]);
        if passAFailCounts[passTeam] >= PASS_A_FAIL_LIMIT {
          levels := levels[passTeam := 2];
          inPassAPhase := inPassAPhase[passTeam := false];
          passAFailCounts := passAFailCounts[passTeam := 0];
          r := r.(passAFailReset := true);
        }
        r := r.(newLevel := levels[passTeam]);
      }
    }

    /** The branch for an ordinary round won with at least one level. */
    method ClimbLevels(result: SettlementResult) returns (r: SettlementResult)
      requires Shaped(View()) && !IsPassARound(View()) && !result.isPassARound && 0 <= result.winningTeam < TEAM_COUNT
      requires result.levelUpgrade > 0
      modifies this
      ensures View() == Climbed(old(View()), result.winningTeam, result.levelUpgrade)
      ensures r == Reported(result, old(View()), View())
    {
      r := result;
      var upgraded := levels[r.winningTeam] + r.levelUpgrade;
      if !inPassAPhase[r.winningTeam] && upgraded >= LEVEL_A {
        inPassAPhase := inPassAPhase[r.winningTeam := true];
        levels := levels[r.winningTeam := LEVEL_A];
        r := r.(enteredPassAPhase := true);
      } else {
        levels := levels[r.winningTeam := if upgraded < LEVEL_A then upgraded else LEVEL_A];
      }
      r := r.(newLevel := levels[r.winningTeam]);
    }

    /** The result record with the standing as it is. */
    function Snapshot(r: SettlementResult): SettlementResult
      reads this
    {
      r.(teamLevels := levels, inPassAPhase := inPassAPhase, passAFailCounts := passAFailCounts,
          attackingTeam := attackingTeam)
    }

    method RecordWinner(winner: int)
      modifies this
      ensures View() == old(View()).(lastWinningTeam := winner, attackingTeam := winner)
    {
      lastWinningTeam := winner;
      attackingTeam := lastWinningTeam;
    }

    /** The levels after a round that somebody won. */
    method SettleRound(result: SettlementResult) returns (r: SettlementResult)
      requires Shaped(View()) && 0 <= result.winningTeam < TEAM_COUNT
      modifies this
      ensures View() == Settled(old(View()), result.winningTeam, result.levelUpgrade)
      ensures r == Reported(result, old(View()), View())
    {
      hide PassAFailed, Climbed;
      var passARound := inPassAPhase[attackingTeam] && levels[attackingTeam] >= LEVEL_A;
      r := result.(isPassARound := passARound);
      if passARound {
        r := SettlePassARound(r);
      } else if r.levelUpgrade > 0 {
        r := ClimbLevels(r);
      }
    }

    /** Writes the outcome of a round into the standing and completes the result record. */
    method ApplySettlement(result: SettlementResult) returns (r: SettlementResult)
      requires Shaped(View()) && result.winningTeam < TEAM_COUNT
      modifies this
      ensures View() == AfterRound(old(View()), result.winningTeam, result.levelUpgrade)
      ensures r == Snapshot(if result.winningTeam < 0 then result else Reported(result, old(View()), View()))
    {
      hide Settled, IsPassARound;
      r := Snapshot(result);
      if result.winningTeam < 0 {
        return;
      }
      r := SettleRound(r);
      RecordWinner(r.winningTeam);
      r := Snapshot(r);
    }
  }

  // ----- what every match keeps -----

  /** Levels lie in 2..14; 14 is exactly the pass-A phase; only a team in that phase has failures,
      at most two; the last winners attack; and a phase is never entered without a win. */
  ghost predicate StandingInv(s: Standing) {
    && Shaped(s) && -1 <= s.lastWinningTeam < TEAM_COUNT
    && (s.lastWinningTeam >= 0 ==> s.attackingTeam == s.lastWinningTeam)
    && forall k :: 0 <= k < TEAM_COUNT ==>
         && 2 <= s.levels[k] <= LEVEL_A
         && (s.levels[k] == LEVEL_A <==> s.inPassAPhase[k])
         && 0 <= s.passAFailCounts[k] < PASS_A_FAIL_LIMIT
         && (s.passAFailCounts[k] > 0 ==> s.inPassAPhase[k])
         && (s.inPassAPhase[k] ==> s.lastWinningTeam >= 0)
  }

  datatype Round = Round(winner: int, upgrade: int)

  /** The standing after a sequence of rounds, each preceded by its preparation. */
  function Play(rounds: seq<Round>): (s: Standing)
    requires forall i :: 0 <= i < |rounds| ==> 0 <= rounds[i].winner < TEAM_COUNT
    ensures Shaped(s)
  {
    if rounds == [] then START
    else
      var last := rounds[|rounds| - 1];
      AfterRound(PrepareNextRound(Play(rounds[..|rounds| - 1])), last.winner, last.upgrade)
  }

  lemma AfterRoundInv(s: Standing, winner: int, upgrade: int)
    requires StandingInv(s) && winner < TEAM_COUNT
    ensures StandingInv(AfterRound(s, winner, upgrade)) && StandingInv(PrepareNextRound(s))
  {
  }

  /** The invariant holds after any sequence of rounds. */
  lemma {:induction false} MatchInv(rounds: seq<Round>)
    requires forall i :: 0 <= i < |rounds| ==> 0 <= rounds[i].winner < TEAM_COUNT
    ensures StandingInv(Play(rounds))
    ensures rounds != [] ==> Play(rounds).lastWinningTeam == rounds[|rounds| - 1].winner
    ensures rounds == [] ==> Play(rounds).lastWinningTeam == -1
  {
    if rounds != [] {
      var k := |rounds| - 1;
      MatchInv(rounds[..k]);
      AfterRoundInv(Play(rounds[..k]), rounds[k].winner, rounds[k].upgrade);
      AfterRoundInv(PrepareNextRound(Play(rounds[..k])), rounds[k].winner, rounds[k].upgrade);
    }
  }

  lemma PlaySnoc(rounds: seq<Round>, final: Round)
    requires forall i :: 0 <= i < |rounds| ==> 0 <= rounds[i].winner < TEAM_COUNT
    requires 0 <= final.winner < TEAM_COUNT
    ensures Play(rounds + [final]) == AfterRound(PrepareNextRound(Play(rounds)), final.winner, final.upgrade)
  {
    hide AfterRound;
    assert (rounds + [final])[..|rounds|] == rounds;
  }

  /** The round that wins the match is won from level A by the team that also won the round before. */
  lemma MatchWonAfterWinning(rounds: seq<Round>, final: Round)
    requires forall i :: 0 <= i < |rounds| ==> 0 <= rounds[i].winner < TEAM_COUNT
    requires 0 <= final.winner < TEAM_COUNT && WinsMatch(PrepareNextRound(Play(rounds)), final.winner, final.upgrade)
    ensures rounds != [] && rounds[|rounds| - 1].winner == final.winner
    ensures Play(rounds).levels[final.winner] == LEVEL_A && Play(rounds).inPassAPhase[final.winner]
    ensures Play(rounds + [final]).levels == Play(rounds).levels
  {
    hide Play, PassAFailed, Climbed;
    MatchInv(rounds);
    PlaySnoc(rounds, final);
  }

  /** The record of a round tells at most one of three things: the match is won, the phase is entered by
      climbing to level A, or it is left by a third failure; and each exactly when it happened. */
  lemma ReportMeaning(s: Standing, r: SettlementResult)
    requires StandingInv(s) && 0 <= r.winningTeam < TEAM_COUNT && r.levelUpgrade > 0
    requires !r.matchWon && !r.enteredPassAPhase && !r.passAFailReset
    ensures var s' := AfterRound(s, r.winningTeam, r.levelUpgrade);
            var q := Reported(r, s, s');
            && (q.matchWon <==> IsPassARound(s) && r.winningTeam == s.attackingTeam)
            && (q.isPassARound <==> IsPassARound(s))
            && (q.isPassARound ==> q.passATeam == s.attackingTeam && q.passASuccess == q.matchWon)
            && (q.isPassARound && !q.matchWon ==> q.passAFailCount == s.passAFailCounts[s.attackingTeam] + 1)
            && (q.passAFailReset <==>
                IsPassARound(s) && r.winningTeam != s.attackingTeam && q.passAFailCount == PASS_A_FAIL_LIMIT)
            && (q.enteredPassAPhase <==>
                !IsPassARound(s) && s.levels[r.winningTeam] < LEVEL_A <= s.levels[r.winningTeam] + r.levelUpgrade)
            && q.newLevel == (if q.passAFailReset then 2
                              else if IsPassARound(s)
                                  || s.levels[r.winningTeam] + r.levelUpgrade >= LEVEL_A then LEVEL_A
                              else s.levels[r.winningTeam] + r.levelUpgrade)
  {
  }

  /** A pass-A round that is not won costs one failure; exactly the third sends the attackers back
      to level 2 and out of the phase, and the other team's level never moves. */
  lemma ThirdFailureResets(s: Standing, winner: int, upgrade: int)
    requires StandingInv(s) && IsPassARound(s) && 0 <= winner < TEAM_COUNT && !WinsMatch(s, winner, upgrade)
    ensures var a, s' := s.attackingTeam, AfterRound(s, winner, upgrade);
            && (s'.levels[a] == 2 <==> s.passAFailCounts[a] == PASS_A_FAIL_LIMIT - 1)
            && (s'.inPassAPhase[a] <==> s.passAFailCounts[a] < PASS_A_FAIL_LIMIT - 1)
            && s'.levels[1 - a] == s.levels[1 - a]
  {
  }

  /** The attackers fail exactly in a pass-A round they do not win: that is one failure more, or none any
      more with the third, which sends them back to level 2. No other round changes anybody's failures. */
  lemma FailureCounts(s: Standing, winner: int, upgrade: int, team: int)
    requires StandingInv(s) && 0 <= winner < TEAM_COUNT && 0 <= team < TEAM_COUNT
    ensures var s' := AfterRound(s, winner, upgrade);
            if IsPassARound(s) && team == s.attackingTeam && !(winner == team && upgrade > 0) then
              if s.passAFailCounts[team] < 2
              then s'.passAFailCounts[team] == s.passAFailCounts[team] + 1 && s'.inPassAPhase[team]
              else s'.passAFailCounts[team] == 0 && !s'.inPassAPhase[team] && s'.levels[team] == 2
            else s'.passAFailCounts[team] == s.passAFailCounts[team] && (s.inPassAPhase[team] ==> s'.inPassAPhase[team])
  {
  }

  /** Outside a pass-A round the winners rise by exactly what they won, up to level A, and reaching it is
      what enters the phase; nothing else of either team moves. */
  lemma OrdinaryRound(s: Standing, winner: int, upgrade: int)
    requires StandingInv(s) && !IsPassARound(s) && 0 <= winner < TEAM_COUNT && upgrade >= 0
    ensures var s' := AfterRound(s, winner, upgrade);
            && s'.levels[winner] - s.levels[winner] ==
                (if s.levels[winner] + upgrade <= LEVEL_A then upgrade else LEVEL_A - s.levels[winner])
            && (s'.inPassAPhase[winner] <==> s.levels[winner] + upgrade >= LEVEL_A)
            && s'.levels[1 - winner] == s.levels[1 - winner]
                && s'.inPassAPhase[1 - winner] == s.inPassAPhase[1 - winner]
            && s'.passAFailCounts == s.passAFailCounts && s'.attackingTeam == winner
  {
  }
}
