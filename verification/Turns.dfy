/** Turn rotation, wind partner and the end of a trick (turn_manager.cpp). */
module Turns {
  import opened Cards
  import opened State
  import opened Seats

  predicate Placed(t: Table) {
    0 < t.playerCount <= |t.players| == MAX_PLAYERS
  }

  predicate Seated(t: Table) {
    Placed(t) && 0 <= t.currentPlayerIndex < t.playerCount
  }

  function AdvanceTurn(t: Table): Table
    requires Seated(t)
  {
    t.(currentPlayerIndex := NextActive(t.players, t.playerCount, t.currentPlayerIndex), turnId := t.turnId + 1)
  }

  /** First active seat of a team at distance `k` or more; any next active seat if there is none. */
  function WindFrom(p: seq<Player>, n: int, leader: int, k: int): (s: int)
    requires 0 <= leader < n <= |p| && 1 <= k <= n + 1
    ensures 0 <= s < n
    decreases n + 1 - k
  {
    if k > n then NextActive(p, n, leader)
    else if Active(p, n, Step(leader, k, n)) && p[Step(leader, k, n)].team == p[leader].team then Step(leader, k, n)
    else WindFrom(p, n, leader, k + 1)
  }

  function WindPartner(t: Table, leader: int): (s: int)
    requires Seated(t)
    ensures 0 <= s < t.playerCount
  {
    if leader < 0 || leader >= t.playerCount then NextActive(t.players, t.playerCount, t.currentPlayerIndex)
    else WindFrom(t.players, t.playerCount, leader, 1)
  }

  function ResolveLead(t: Table, winner: int): (s: int)
    requires Seated(t) && winner < t.playerCount
    ensures 0 <= s < t.playerCount
  {
    if winner < 0 then NextActive(t.players, t.playerCount, t.currentPlayerIndex)
    else if t.players[winner].hasFinished then WindPartner(t, winner)
    else winner
  }

  function ResetRound(t: Table, winner: int): Table
    requires Seated(t) && winner < t.playerCount
  {
    t.(lastPlayedCards := [], lastPattern := INVALID_PATTERN, lastPlayedPlayerIndex := -1, passCount := 0,
       currentPlayerIndex := ResolveLead(t, winner), turnId := t.turnId + 1)
  }

  /** The seats below `k` that have to answer the pattern on the table. */
  ghost function Responders(t: Table, k: nat): set<int>
    requires k <= |t.players|
  {
    set s | s in Range(k) && !t.players[s].hasFinished && s != t.lastPlayedPlayerIndex
  }

  lemma RespondersStep(t: Table, k: nat)
    requires k < |t.players|
    ensures |Responders(t, k + 1)| == |Responders(t, k)| + if !t.players[k].hasFinished
              && k != t.lastPlayedPlayerIndex then 1 else 0
  {
    var before, after := Responders(t, k), Responders(t, k + 1);
    assert k !in before;
    if !t.players[k].hasFinished && k != t.lastPlayedPlayerIndex {
      assert after == before + {k};
    } else {
      assert after == before;
    }
  }

  ghost predicate AllOthersPassed(t: Table)
    requires Seated(t)
  {
    0 < |Responders(t, t.playerCount)| <= t.passCount
  }

  predicate LeaderIsNext(t: Table, seat: int)
    requires Seated(t) && 0 <= seat < t.playerCount
  {
    0 <= t.lastPlayedPlayerIndex == NextActive(t.players, t.playerCount, seat)
  }

  /** Moves on while the current seat has finished: at most once, since the next seat is active. */
  function SkipFinished(t: Table): Table
    requires Seated(t)
  {
    if t.players[t.currentPlayerIndex].hasFinished then AdvanceTurn(t) else t
  }

  class TurnManager {
    const state: GameState

    constructor (state: GameState)
      ensures this.state == state
    {
      this.state := state;
    }

    method NextActivePlayer(fromIndex: int) returns (seat: int)
      requires 0 <= fromIndex < state.playerCount <= |state.players|
      ensures seat == NextActive(state.players, state.playerCount, fromIndex)
    {
      for i := 1 to state.playerCount + 1
        invariant NextActive(state.players, state.playerCount, fromIndex) ==
                    NextFrom(state.players, state.playerCount, fromIndex, i)
      {
        var idx := (fromIndex + i) % state.playerCount;
        StepIsMod(fromIndex, i, state.playerCount);
        if !state.players[idx].hasFinished {
          return idx;
        }
      }
      return fromIndex;
    }

    method Advance()
      requires Seated(state.View())
      modifies state
      ensures state.View() == AdvanceTurn(old(state.View()))
    {
      var next := NextActivePlayer(state.currentPlayerIndex);
      state.currentPlayerIndex := next;
      state.turnId := state.turnId + 1;
    }

    method WindPartnerSeat(finishedLeaderSeat: int) returns (seat: int)
      requires Seated(state.View())
      ensures seat == WindPartner(state.View(), finishedLeaderSeat)
    {
      if finishedLeaderSeat < 0 || finishedLeaderSeat >= state.playerCount {
        seat := NextActivePlayer(state.currentPlayerIndex);
        return;
      }
      var team := state.players[finishedLeaderSeat].team;
      for i := 1 to state.playerCount + 1
        invariant WindPartner(state.View(), finishedLeaderSeat) ==
                    WindFrom(state.players, state.playerCount, finishedLeaderSeat, i)
      {
        var idx := (finishedLeaderSeat + i) % state.playerCount;
        StepIsMod(finishedLeaderSeat, i, state.playerCount);
        if state.players[idx].hasFinished {
          continue;
        }
        if state.players[idx].team == team {
          return idx;
        }
      }
      seat := NextActivePlayer(finishedLeaderSeat);
    }

    method ResolveRoundLeadSeat(trickWinnerSeat: int) returns (seat: int)
      requires Seated(state.View()) && trickWinnerSeat < state.playerCount
      ensures seat == ResolveLead(state.View(), trickWinnerSeat)
    {
      if trickWinnerSeat < 0 {
        seat := NextActivePlayer(state.currentPlayerIndex);
      } else if state.players[trickWinnerSeat].hasFinished {
        seat := WindPartnerSeat(trickWinnerSeat);
      } else {
        seat := trickWinnerSeat;
      }
    }

    /** The lead is resolved after the table has been cleared; clearing does not affect it. */
    method Reset(winnerIndex: int)
      requires Seated(state.View()) && winnerIndex < state.playerCount
      modifies state
      ensures state.View() == ResetRound(old(state.View()), winnerIndex)
    {
      state.ShowTrick([], INVALID_PATTERN, -1);
      var lead := ResolveRoundLeadSeat(winnerIndex);
      state.currentPlayerIndex := lead;
      state.turnId := state.turnId + 1;
    }

    method EveryOtherPassed() returns (passed: bool)
      requires Seated(state.View())
      ensures passed <==> AllOthersPassed(state.View())
    {
      ghost var t := state.View();
      var responders := 0;
      for i := 0 to state.playerCount
        invariant responders == |Responders(t, i)|
      {
        RespondersStep(t, i);
        if state.players[i].hasFinished {
          continue;
        }
        if i == state.lastPlayedPlayerIndex {
          continue;
        }
        responders := responders + 1;
      }
      passed := responders > 0 && state.passCount >= responders;
    }

    method ShouldResetRoundAfterPass(seatIndex: int) returns (reset: bool)
      requires Seated(state.View()) && 0 <= seatIndex < state.playerCount
      ensures reset <==> LeaderIsNext(state.View(), seatIndex)
    {
      if state.lastPlayedPlayerIndex < 0 {
        return false;
      }
      var next := NextActivePlayer(seatIndex);
      reset := next == state.lastPlayedPlayerIndex;
    }

    /** The skip loop after a play or a pass. */
    method SkipFinishedPlayers()
      requires Seated(state.View())
      requires exists s :: Active(state.players, state.playerCount, s)
      modifies state
      ensures state.View() == SkipFinished(old(state.View()))
    {
      ghost var s :| Active(state.players, state.playerCount, s);
      while state.players[state.currentPlayerIndex].hasFinished
        invariant Seated(state.View()) && Active(state.players, state.playerCount, s)
        invariant SkipFinished(state.View()) == SkipFinished(old(state.View()))
        decreases state.players[state.currentPlayerIndex].hasFinished
      {
        NextActiveIsActive(state.players, state.playerCount, state.currentPlayerIndex, s);
        Advance();
      }
    }
  }
}
