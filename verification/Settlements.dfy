/** Settlement of one round: the winning team and how many levels it climbs (settlement.cpp). */
module Settlements {
  import opened Cards
  import opened State
  import opened FinishRanks

  datatype SettlementResult = SettlementResult(
    winningTeam: int, levelUpgrade: int, newLevel: int,
    teamLevels: seq<int>, inPassAPhase: seq<bool>, passAFailCounts: seq<int>, attackingTeam: int,
    isPassARound: bool, passATeam: int, passASuccess: bool, matchWon: bool,
    enteredPassAPhase: bool, passAFailCount: int, passAFailReset: bool,
    ranks: seq<int>, playerIds: seq<nat>)

  const NO_RESULT := SettlementResult(-1, 0, 0, [2, 2], [false, false], [0, 0], 0, false, -1, false, false, false, 0,
      false, [], [])

  /** First seat from `k` on that holds a finish rank; -1 if there is none. */
  function FindRank(p: seq<Player>, n: nat, rank: int, k: nat): (s: int)
    requires k <= n <= |p|
    ensures -1 <= s < n
    ensures s >= 0 ==> p[s].finishRank == rank
    decreases n - k
  {
    if k == n then -1 else if p[k].finishRank == rank then k else FindRank(p, n, rank, k + 1)
  }

  /** The positive ranks of a team's seats among the first `k`. */
  function TeamRanks(p: seq<Player>, k: nat, team: int): seq<int>
    requires k <= |p|
  {
    if k == 0 then []
    else TeamRanks(p, k - 1, team) + if p[k - 1].team == team && p[k - 1].finishRank > 0 then [p[k - 1].finishRank]
        else []
  }

  function Insert(x: int, s: seq<int>): seq<int> {
    if s == [] then [x] else if x <= s[0] then [x] + s else [s[0]] + Insert(x, s[1..])
  }

  /** Ascending order, as the library sort gives. */
  function Sort(s: seq<int>): (r: seq<int>)
    ensures |r| == |s|
    decreases |s|
  {
    if s == [] then [] else InsertSize(s[|s| - 1], Sort(s[..|s| - 1])); Insert(s[|s| - 1], Sort(s[..|s| - 1]))
  }

  lemma {:induction false} InsertSize(x: int, s: seq<int>)
    ensures |Insert(x, s)| == |s| + 1
  {
    if s != [] {
      InsertSize(x, s[1..]);
    }
  }

  function SumFirst(s: seq<int>, k: nat): int
    requires k <= |s|
  {
    if k == 0 then 0 else SumFirst(s, k - 1) + s[k - 1]
  }

  function WinningRankSum(p: seq<Player>, n: nat, team: int, count: nat): int
    requires n <= |p|
  {
    var ranks := Sort(TeamRanks(p, n, team));
    SumFirst(ranks, if count <= |ranks| then count else |ranks|)
  }

  function Calculate(t: Table, playersPerTeam: nat): SettlementResult
    requires t.playerCount <= |t.players|
  {
    var p, n := t.players, t.playerCount;
    var listed := NO_RESULT.(ranks := seq(n, i requires 0 <= i < n => p[i].finishRank),
                            playerIds := seq(n, i requires 0 <= i < n => p[i].id));
    var head := FindRank(p, n, 1, 0);
    if head < 0 then listed
    else listed.(winningTeam := p[head].team,
                 levelUpgrade := (if playersPerTeam >= 3 then 10 else 6) -
                                 WinningRankSum(p, n, p[head].team, if playersPerTeam >= 3 then 2 else playersPerTeam))
  }

  method FindRankSeat(state: GameState, rank: int) returns (seat: int)
    requires state.playerCount <= |state.players|
    ensures seat == FindRank(state.players, state.playerCount, rank, 0)
  {
    for i := 0 to state.playerCount
      invariant FindRank(state.players, state.playerCount, rank, 0) ==
                  FindRank(state.players, state.playerCount, rank, i)
    {
      if state.players[i].finishRank == rank {
        return i;
      }
    }
    return -1;
  }

  method SumWinningTeamRanks(state: GameState, team: int, count: nat) returns (sum: int)
    requires state.playerCount <= |state.players|
    ensures sum == WinningRankSum(state.players, state.playerCount, team, count)
  {
    var ranks: seq<int> := [];
    for i := 0 to state.playerCount
      invariant ranks == TeamRanks(state.players, i, team)
    {
      if state.players[i].team == team && state.players[i].finishRank > 0 {
        ranks := ranks + [state.players[i].finishRank];
      }
    }
    ranks := Sort(ranks);
    var take := if count <= |ranks| then count else |ranks|;
    sum := 0;
    for i := 0 to take
      invariant sum == SumFirst(ranks, i)
    {
      sum := sum + ranks[i];
    }
  }

  method CalculateSettlement(state: GameState, playersPerTeam: nat) returns (result: SettlementResult)
    requires state.playerCount <= |state.players|
    ensures result == Calculate(state.View(), playersPerTeam)
  {
    var n := state.playerCount;
    var ranks: seq<int>, ids: seq<nat> := [], [];
    for i := 0 to n
      invariant |ranks| == |ids| == i
      invariant forall k :: 0 <= k < i ==> ranks[k] == state.players[k].finishRank && ids[k] == state.players[k].id
    {
      ranks, ids := ranks + [state.players[i].finishRank], ids + [state.players[i].id];
    }
    ghost var expected := Calculate(state.View(), playersPerTeam);
    assert ranks == expected.ranks && ids == expected.playerIds;
    result := NO_RESULT.(ranks := ranks, playerIds := ids);
    var headIdx := FindRankSeat(state, 1);
    if headIdx < 0 {
      return;
    }
    var winningTeam := state.players[headIdx].team;
    var rankSum := SumWinningTeamRanks(state, winningTeam, if playersPerTeam >= 3 then 2 else playersPerTeam);
    result := result.(winningTeam := winningTeam, levelUpgrade := (if playersPerTeam >= 3 then 10 else 6) - rankSum);
  }

  // ----- what the formula means -----

  /** Four seats in teams of two or six in teams of three, teams alternating round the table. */
  ghost predicate TeamsAlternate(p: seq<Player>, n: int, playersPerTeam: int) {
    (playersPerTeam == 2 || playersPerTeam == 3) && n == 2 * playersPerTeam <= |p| &&
    forall s :: 0 <= s < n ==> p[s].team == s % 2
  }

  ghost predicate Teammates(p: seq<Player>, n: int, s: int, m: int) {
    0 <= s < n <= |p| && 0 <= m < n && s != m && p[s].team == p[m].team
  }

  /** `m` is the best-placed teammate of `s`. */
  ghost predicate BestTeammate(p: seq<Player>, n: int, s: int, m: int) {
    Teammates(p, n, s, m) && forall k :: Teammates(p, n, s, k) ==> p[m].finishRank <= p[k].finishRank
  }

  lemma {:induction false} FindRankFinds(p: seq<Player>, n: nat, rank: int, k: nat, s: int)
    requires k <= s < n <= |p| && p[s].finishRank == rank
    ensures FindRank(p, n, rank, k) >= 0
    decreases s - k
  {
    if p[k].finishRank != rank {
      FindRankFinds(p, n, rank, k + 1, s);
    }
  }

  lemma SortTwo(a: int, b: int)
    ensures Sort([a, b]) == if a <= b then [a, b] else [b, a]
  {
    assert [a, b][..1] == [a];
    assert Sort([a]) == Insert(a, Sort([])) == [a] by { assert [a][..0] == []; }
    InsertOne(b, a);
  }

  lemma InsertOne(x: int, y: int)
    ensures Insert(x, [y]) == if x <= y then [x, y] else [y, x]
  {
    assert [y][1..] == [];
    assert Insert(x, []) == [x];
  }

  lemma SortThree(a: int, b: int, c: int)
    requires c > a && c > b
    ensures Sort([a, b, c]) == Sort([a, b]) + [c]
    ensures Sort([a, c, b]) == Sort([a, b]) + [c]
    ensures Sort([c, a, b]) == Sort([a, b]) + [c]
  {
    SortTwo(a, b);
    SortTwo(a, c);
    SortTwo(c, a);
    assert [a, b, c][..2] == [a, b] && [a, c, b][..2] == [a, c] && [c, a, b][..2] == [c, a];
    InsertLow(b, a, c);
    InsertHigh(c, if a <= b then a else b, if a <= b then b else a);
  }

  lemma InsertLow(x: int, y: int, z: int)
    requires x < z && y < z
    ensures Insert(x, [y, z]) == if x <= y then [x, y, z] else [y, x, z]
  {
    assert [y, z][1..] == [z];
  }

  lemma InsertHigh(x: int, y: int, z: int)
    requires y < x && z < x
    ensures Insert(x, [y, z]) == [y, z, x]
  {
    assert [y, z][1..] == [z];
    InsertOne(x, z);
  }

  lemma SumOfTwoRanks(s: seq<int>)
    requires |s| >= 2
    ensures SumFirst(s, 2) == s[0] + s[1]
  {
    assert SumFirst(s, 1) == SumFirst(s, 0) + s[0];
  }

  lemma RanksOfTwo(p: seq<Player>, team: int)
    requires TeamsAlternate(p, 4, 2) && (team == 0 || team == 1) && forall s :: 0 <= s < 4 ==> p[s].finishRank > 0
    ensures TeamRanks(p, 4, team) == [p[team].finishRank, p[team + 2].finishRank]
  {
    assert TeamRanks(p, 1, team) == if team == 0 then [p[0].finishRank] else [];
    assert TeamRanks(p, 2, team) == [p[team].finishRank];
    assert TeamRanks(p, 3, team) == if team == 0 then [p[0].finishRank, p[2].finishRank] else [p[1].finishRank];
  }

  lemma RanksOfThree(p: seq<Player>, team: int)
    requires TeamsAlternate(p, 6, 3) && (team == 0 || team == 1) && forall s :: 0 <= s < 6 ==> p[s].finishRank > 0
    ensures TeamRanks(p, 6, team) == [p[team].finishRank, p[team + 2].finishRank, p[team + 4].finishRank]
  {
    assert TeamRanks(p, 1, team) == if team == 0 then [p[0].finishRank] else [];
    assert TeamRanks(p, 2, team) == [p[team].finishRank];
    assert TeamRanks(p, 3, team) == if team == 0 then [p[0].finishRank, p[2].finishRank] else [p[1].finishRank];
    assert TeamRanks(p, 4, team) == [p[team].finishRank, p[team + 2].finishRank];
    assert TeamRanks(p, 5, team) == if team == 0 then [p[0].finishRank, p[2].finishRank, p[4].finishRank]
        else [p[1].finishRank, p[3].finishRank];
  }

  /** The winners' two smallest ranks are 1 and the best teammate's. */
  lemma WinnersSum(p: seq<Player>, n: int, ppt: int, head: int) returns (mate: int)
    requires TeamsAlternate(p, n, ppt) && RankPermutation(p, n) && 0 <= head < n && p[head].finishRank == 1
    ensures BestTeammate(p, n, head, mate)
    ensures WinningRankSum(p, n, p[head].team, 2) == 1 + p[mate].finishRank
  {
    hide WinningRankSum, RankPermutation;
    if ppt == 2 {
      mate := if head < 2 then head + 2 else head - 2;
      SumOfFour(p, head, mate);
    } else {
      var far;
      mate, far := MatesOfSix(p, head);
      SumOfSix(p, head, mate, far);
    }
  }

  lemma MatesOfSix(p: seq<Player>, head: int) returns (mate: int, far: int)
    requires TeamsAlternate(p, 6, 3) && RankPermutation(p, 6) && 0 <= head < 6
    ensures BestTeammate(p, 6, head, mate) && Teammates(p, 6, head, far) && mate != far
    ensures p[mate].finishRank < p[far].finishRank
  {
    var team := head % 2;
    mate := if head == team then team + 2 else team;
    far := 3 * team + 6 - head - mate;
    if p[far].finishRank < p[mate].finishRank {
      mate, far := far, mate;
    }
    forall k | Teammates(p, 6, head, k)
      ensures k == mate || k == far
    {
    }
  }

  lemma SumOfFour(p: seq<Player>, head: int, mate: int)
    requires TeamsAlternate(p, 4, 2) && RankPermutation(p, 4) && Teammates(p, 4, head, mate) && p[head].finishRank == 1
    ensures WinningRankSum(p, 4, p[head].team, 2) == 1 + p[mate].finishRank
  {
    var team := p[head].team;
    RanksOfTwo(p, team);
    SortTwo(p[team].finishRank, p[team + 2].finishRank);
    SumOfTwoRanks(Sort(TeamRanks(p, 4, team)));
  }

  lemma SumOfSix(p: seq<Player>, head: int, mate: int, far: int)
    requires TeamsAlternate(p, 6, 3) && RankPermutation(p, 6)
    requires Teammates(p, 6, head, mate) && Teammates(p, 6, head, far) && mate != far
    requires p[head].finishRank == 1 && p[mate].finishRank < p[far].finishRank
    ensures WinningRankSum(p, 6, p[head].team, 2) == 1 + p[mate].finishRank
  {
    hide Sort, TeamRanks;
    var team := p[head].team;
    RanksOfThree(p, team);
    var a, b, c := p[head].finishRank, p[mate].finishRank, p[far].finishRank;
    SortThree(a, b, c);
    SortThree(b, a, c);
    SortTwo(a, b);
    SortTwo(b, a);
    SumOfTwoRanks(Sort(TeamRanks(p, 6, team)));
  }

  /** From a full ranking the head's team wins, and climbs 6 or 10 minus its two best ranks:
      1..3 levels at a table of four, 4..7 at a table of six. */
  lemma CalculateMeaning(t: Table, playersPerTeam: nat) returns (head: int, mate: int)
    requires TeamsAlternate(t.players, t.playerCount, playersPerTeam) && RankPermutation(t.players, t.playerCount)
    ensures 0 <= head < t.playerCount && t.players[head].finishRank == 1
    ensures BestTeammate(t.players, t.playerCount, head, mate)
    ensures var r := Calculate(t, playersPerTeam);
            && r.winningTeam == t.players[head].team
            && r.levelUpgrade == (if playersPerTeam == 3 then 9 else 5) - t.players[mate].finishRank
            && (if playersPerTeam == 3 then 4 <= r.levelUpgrade <= 7 else 1 <= r.levelUpgrade <= 3)
            && Lists(r, t)
  {
    var p, n := t.players, t.playerCount;
    assert HasRank(p, n, 1);
    var s :| 0 <= s < n && p[s].finishRank == 1;
    FindRankFinds(p, n, 1, 0, s);
    head := FindRank(p, n, 1, 0);
    mate := WinnersSum(p, n, playersPerTeam, head);
    if playersPerTeam == 3 {
      MateNotLast(p, head, mate);
    }
  }

  /** Without a first place nobody has won and nobody climbs. */
  lemma CalculateNone(t: Table, playersPerTeam: nat)
    requires t.playerCount <= |t.players| && forall s :: 0 <= s < t.playerCount ==> t.players[s].finishRank != 1
    ensures var r := Calculate(t, playersPerTeam); r.winningTeam == -1 && r.levelUpgrade == 0 && Lists(r, t)
  {
    hide WinningRankSum;
  }

  /** The record lists ranks and players seat by seat. */
  ghost predicate Lists(r: SettlementResult, t: Table) {
    && |r.ranks| == |r.playerIds| == t.playerCount <= |t.players|
    && forall s :: 0 <= s < t.playerCount ==> r.ranks[s] == t.players[s].finishRank && r.playerIds[s] == t.players[s].id
  }

  lemma MateNotLast(p: seq<Player>, head: int, mate: int)
    requires TeamsAlternate(p, 6, 3) && RankPermutation(p, 6) && BestTeammate(p, 6, head, mate)
    requires p[head].finishRank == 1
    ensures 2 <= p[mate].finishRank <= 5
  {
    var far := 3 * (head % 2) + 6 - head - mate;
    assert Teammates(p, 6, head, far) && far != mate;
  }
}
