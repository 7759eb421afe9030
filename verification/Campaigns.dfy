/** The standing of a match told from its rounds alone: who attacks, how far each team has climbed, and how
    often it has failed at level A. */
module Campaigns {
  import opened Progress

  ghost predicate Won(rounds: seq<Round>) {
    forall i :: 0 <= i < |rounds| ==> rounds[i].winner == 0 || rounds[i].winner == 1
  }

  /** The winners of the last round attack; in the first round team 0 does. */
  function Attacker(rounds: seq<Round>): int {
    if rounds == [] then 0 else rounds[|rounds| - 1].winner
  }

  /** A team climbs up to level A, and there fails a number of times. */
  datatype Campaign = Climbing(level: int) | AtA(failures: nat)

  /** A round attacked from level A is lost unless the attackers win it with a level to climb: that is a
      failure, and the third one throws them back to level 2. Any other round lets its winners climb. */
  function CampaignOf(rounds: seq<Round>, team: int): Campaign
    decreases |rounds|
  {
    if rounds == [] then Climbing(2)
    else
      var k := |rounds| - 1;
      var last, before, attacker := rounds[k], CampaignOf(rounds[..k], team), Attacker(rounds[..k]);
      if CampaignOf(rounds[..k], attacker).AtA? then
        if team != attacker || (last.winner == attacker && last.upgrade > 0) then before
        else if before.AtA? && before.failures < 2 then AtA(before.failures + 1)
        else Climbing(2)
      else if team == last.winner && last.upgrade > 0 && before.Climbing? then
        if before.level + last.upgrade >= 14 then AtA(0) else Climbing(before.level + last.upgrade)
      else before
  }

  function LevelOf(c: Campaign): int {
    if c.AtA? then 14 else c.level
  }

  function FailuresOf(c: Campaign): int {
    if c.AtA? then c.failures else 0
  }

  /** The standing that these campaigns amount to. */
  function StandingOf(rounds: seq<Round>): Standing {
    var a, b := CampaignOf(rounds, 0), CampaignOf(rounds, 1);
    Standing([LevelOf(a), LevelOf(b)], [a.AtA?, b.AtA?], [FailuresOf(a), FailuresOf(b)], Attacker(rounds),
             if rounds == [] then -1 else Attacker(rounds))
  }

  lemma {:induction false} ClimbingBelowA(rounds: seq<Round>, team: int)
    ensures var c := CampaignOf(rounds, team); c.Climbing? ==> c.level < 14
    decreases |rounds|
  {
    if rounds != [] {
      ClimbingBelowA(rounds[..|rounds| - 1], team);
    }
  }

  lemma RoundMoves(before: Standing, rounds: seq<Round>)
    requires Won(rounds) && rounds != [] && before == StandingOf(rounds[..|rounds| - 1])
    ensures var last := rounds[|rounds| - 1];
            AfterRound(PrepareNextRound(before), last.winner, last.upgrade) == StandingOf(rounds)
  {
    var k := |rounds| - 1;
    ClimbingBelowA(rounds[..k], 0);
    ClimbingBelowA(rounds[..k], 1);
  }

  /** Over every sequence of rounds the standing that is kept round by round is that one. */
  lemma {:induction false} StandingIsCampaigns(rounds: seq<Round>)
    requires Won(rounds)
    ensures Play(rounds) == StandingOf(rounds)
    decreases |rounds|
  {
    hide AfterRound, PrepareNextRound, StandingOf;
    if rounds == [] {
      NoRounds();
    } else {
      StandingIsCampaigns(rounds[..|rounds| - 1]);
      RoundMoves(Play(rounds[..|rounds| - 1]), rounds);
    }
  }

  lemma NoRounds()
    ensures Play([]) == START == StandingOf([])
  {
  }

  // ----- failures, counted -----

  /** Round `i` was attacked by the team from level A and not won with a level to climb. */
  ghost predicate LostAt(rounds: seq<Round>, i: nat, team: int)
    requires Won(rounds) && i < |rounds| && 0 <= team < 2
  {
    && Play(rounds[..i]).inPassAPhase[team] && Attacker(rounds[..i]) == team
    && !(rounds[i].winner == team && rounds[i].upgrade > 0)
  }

  /** How many of the rounds from `i` up to `k` were lost so. */
  ghost function Losses(rounds: seq<Round>, i: nat, k: nat, team: int): nat
    requires Won(rounds) && k <= |rounds| && 0 <= team < 2
    decreases k
  {
    if k <= i then 0 else Losses(rounds, i, k - 1, team) + if LostAt(rounds, k - 1, team) then 1 else 0
  }

  /** The team reached level A in round `i`, and has been there since. */
  ghost predicate EnteredAt(rounds: seq<Round>, i: nat, team: int)
    requires Won(rounds) && 0 <= team < 2
  {
    && i < |rounds| && !Play(rounds[..i]).inPassAPhase[team]
    && forall j :: i < j <= |rounds| ==> Play(rounds[..j]).inPassAPhase[team]
  }

  lemma {:induction false} LossesOfPrefix(rounds: seq<Round>, m: nat, i: nat, k: nat, team: int)
    requires Won(rounds) && k <= m <= |rounds| && 0 <= team < 2
    ensures Losses(rounds[..m], i, k, team) == Losses(rounds, i, k, team)
    decreases k
  {
    hide Play;
    if k > i {
      LossesOfPrefix(rounds, m, i, k - 1, team);
      assert rounds[..m][..k - 1] == rounds[..k - 1];
    }
  }

  lemma EnteredOfPrefix(rounds: seq<Round>, i: nat, team: int)
    requires Won(rounds) && rounds != [] && 0 <= team < 2 && EnteredAt(rounds[..|rounds| - 1], i, team)
    requires Play(rounds).inPassAPhase[team]
    ensures EnteredAt(rounds, i, team)
  {
    hide Play;
    var k := |rounds| - 1;
    assert rounds[..k][..i] == rounds[..i];
    forall j | i < j <= |rounds|
      ensures Play(rounds[..j]).inPassAPhase[team]
    {
      assert j <= k ==> rounds[..k][..j] == rounds[..j];
      assert j == |rounds| ==> rounds[..j] == rounds;
    }
  }

  /** A lost attack from level A adds one failure, or ends the phase with none if it is the third; no other
      round changes the failures of a team. */
  lemma FailuresAfter(rounds: seq<Round>, team: int)
    requires Won(rounds) && rounds != [] && 0 <= team < 2
    ensures var k := |rounds| - 1; var s, s' := Play(rounds[..k]), Play(rounds);
            if LostAt(rounds, k, team) then
              if s.passAFailCounts[team] < 2
              then s'.inPassAPhase[team] && s'.passAFailCounts[team] == s.passAFailCounts[team] + 1
              else !s'.inPassAPhase[team] && s'.passAFailCounts[team] == 0 && s'.levels[team] == 2
            else s'.passAFailCounts[team] == s.passAFailCounts[team] && (s.inPassAPhase[team] ==> s'.inPassAPhase[team])
  {
    hide AfterRound, StandingInv;
    var k := |rounds| - 1;
    AttackerPrepared(rounds[..k]);
    FailureCounts(PrepareNextRound(Play(rounds[..k])), rounds[k].winner, rounds[k].upgrade, team);
  }

  lemma AttackerPrepared(rounds: seq<Round>)
    requires Won(rounds)
    ensures var s := PrepareNextRound(Play(rounds));
            && StandingInv(s) && s == Play(rounds).(attackingTeam := Attacker(rounds))
            && (IsPassARound(s) <==> s.inPassAPhase[Attacker(rounds)])
  {
    hide Play;
    MatchInv(rounds);
    AfterRoundInv(Play(rounds), -1, 0);
    if rounds == [] {
      NoRounds();
    }
  }

  /** A team has failed as often as it has lost an attack from level A since it last got there: at most
      twice; outside level A it has no failures. */
  lemma {:induction false} FailuresAreLosses(rounds: seq<Round>, team: int) returns (entry: nat)
    requires Won(rounds) && 0 <= team < 2
    ensures var s := Play(rounds);
            if s.inPassAPhase[team] then
              EnteredAt(rounds, entry, team) && s.passAFailCounts[team] ==
                  Losses(rounds, entry + 1, |rounds|, team) <= 2
            else s.passAFailCounts[team] == 0
    decreases |rounds|
  {
    hide Play, LostAt;
    entry := 0;
    StandingIsCampaigns(rounds);
    if rounds != [] {
      var k := |rounds| - 1;
      var before := FailuresAreLosses(rounds[..k], team);
      StandingIsCampaigns(rounds[..k]);
      FailuresAfter(rounds, team);
      hide StandingOf;
      assert rounds[..|rounds|] == rounds;
      if Play(rounds).inPassAPhase[team] {
        if Play(rounds[..k]).inPassAPhase[team] {
          entry := before;
          EnteredOfPrefix(rounds, entry, team);
          LossesOfPrefix(rounds, k, entry + 1, k, team);
        } else {
          entry := k;
        }
      }
    }
  }
}
