/** Finish ranks: those earned by going out, and those filled in at the end (finish_rank.cpp). */
module FinishRanks {
  import opened Lists
  import opened Cards
  import opened State
  import opened Seats

  /** The finished seats are those of `order`, and each holds the rank of its place in it. */
  ghost predicate FinishOrder(p: seq<Player>, n: int, order: seq<int>) {
    && 0 < n <= |p| && NoDuplicates(order)
    && (forall i :: 0 <= i < |order| ==> 0 <= order[i] < n)
    && (forall s :: 0 <= s < n ==> (p[s].hasFinished <==> s in order))
    && (forall i :: 0 <= i < |order| ==> p[order[i]].finishRank == i + 1)
    && (forall s :: 0 <= s < n && s !in order ==> p[s].finishRank == 0)
  }

  /** The ranks of the seats are a permutation of 1..n. */
  ghost predicate RankPermutation(p: seq<Player>, n: int) {
    && 0 < n <= |p|
    && (forall s :: 0 <= s < n ==> 1 <= p[s].finishRank <= n)
    && (forall s, s' :: 0 <= s < s' < n ==> p[s].finishRank != p[s'].finishRank)
    && (forall r :: 1 <= r <= n ==> HasRank(p, n, r))
  }

  ghost predicate HasRank(p: seq<Player>, n: int, r: int) {
    exists s :: 0 <= s < n <= |p| && p[s].finishRank == r
  }

  lemma FullOrderIsPermutation(p: seq<Player>, n: int, order: seq<int>)
    requires FinishOrder(p, n, order) && |order| == n
    ensures RankPermutation(p, n)
    ensures forall s :: 0 <= s < n ==> p[s].hasFinished
  {
    AllSeats(order, n);
    forall s | 0 <= s < n
      ensures p[s].hasFinished && exists i :: 0 <= i < n && order[i] == s && p[s].finishRank == i + 1
    {
      assert s in order;
      var i :| 0 <= i < |order| && order[i] == s;
    }
    forall r | 1 <= r <= n
      ensures HasRank(p, n, r)
    {
      assert p[order[r - 1]].finishRank == r;
    }
  }

  /** n distinct seats below n are all the seats. */
  lemma AllSeats(order: seq<int>, n: nat)
    requires NoDuplicates(order) && |order| == n && forall i :: 0 <= i < |order| ==> 0 <= order[i] < n
    ensures forall s :: 0 <= s < n ==> s in order
  {
    NoDuplicatesSize(order);
    SubsetOfSameSize(ToSet(order), Range(n));
    forall s | 0 <= s < n
      ensures s in order
    {
      assert s in Range(n);
    }
  }

  lemma SubsetOfSameSize<T>(a: set<T>, b: set<T>)
    requires a <= b && |a| == |b|
    ensures a == b
  {
    assert |b - a| == |b| - |a|;
  }

  ghost function FinishedSeats(p: seq<Player>, k: nat): set<int>
    requires k <= |p|
  {
    set s | s in Range(k) && p[s].hasFinished
  }

  lemma FinishedCount(p: seq<Player>, n: int, order: seq<int>)
    requires FinishOrder(p, n, order)
    ensures |FinishedSeats(p, n)| == |order|
  {
    NoDuplicatesSize(order);
    assert ToSet(order) == FinishedSeats(p, n);
  }

  /** Finished and active seats together are all the seats. */
  lemma ArcSize(p: seq<Player>, n: int, order: seq<int>, a: int)
    requires FinishOrder(p, n, order) && 0 <= a < n
    ensures |order| + |Arc(p, n, a, n)| == n
  {
    var rest := Arc(p, n, a, n);
    ArcMembers(p, n, a, n);
    NoDuplicatesSize(rest);
    FinishedCount(p, n, order);
    forall s
      ensures s in Range(n) <==> s in FinishedSeats(p, n) || s in ToSet(rest)
    {
      assert s in ToSet(rest) <==> s in rest;
    }
    TwoParts(FinishedSeats(p, n), ToSet(rest), Range(n));
  }

  lemma TwoParts(a: set<int>, b: set<int>, c: set<int>)
    requires a !! b && forall x :: x in c <==> x in a || x in b
    ensures |a| + |b| == |c|
  {
    forall x
      ensures x in c <==> x in a + b
    {
    }
    assert c == a + b;
  }

  lemma Membership(p: seq<Player>, n: int, order: seq<int>, s: int)
    requires FinishOrder(p, n, order) && 0 <= s < n
    ensures n <= |p| && (p[s].hasFinished <==> s in order)
  {
  }

  function Finish(p: seq<Player>, s: int, rank: int): seq<Player>
    requires 0 <= s < |p|
  {
    p[s := p[s].(hasFinished := true, finishRank := rank)]
  }

  lemma FinishExtends(p: seq<Player>, n: int, order: seq<int>, s: int)
    requires FinishOrder(p, n, order) && 0 <= s < n && !p[s].hasFinished
    ensures FinishOrder(Finish(p, s, |order| + 1), n, order + [s])
  {
  }

  // ----- filling in the ranks of those still holding cards -----

  /** Seat and rank of the latest finisher among the first `k` seats; (-1, 0) if there is none. */
  function Latest(p: seq<Player>, k: nat): (int, int)
    requires k <= |p|
  {
    if k == 0 then (-1, 0)
    else if p[k - 1].hasFinished && p[k - 1].finishRank > Latest(p, k - 1).1 then (k - 1, p[k - 1].finishRank)
    else Latest(p, k - 1)
  }

  /** The second loop, from step `k` at `seat`. */
  function FillRanks(p: seq<Player>, n: int, seat: int, nextRank: int, k: int): (q: seq<Player>)
    requires 0 <= seat < n <= |p| && 0 <= k <= n
    ensures |q| == |p|
    decreases n - k
  {
    if k == n || nextRank > n then p
    else if p[seat].hasFinished then FillRanks(p, n, Step(seat, 1, n), nextRank, k + 1)
    else FillRanks(Finish(p, seat, nextRank), n, Step(seat, 1, n), nextRank + 1, k + 1)
  }

  function AssignRemaining(p: seq<Player>, n: int): (q: seq<Player>)
    requires n <= |p|
    ensures |q| == |p|
  {
    if n <= 0 then p
    else
      var (seat, rank) := Latest(p, n);
      if seat < 0 || rank <= 0 || seat >= n then p else FillRanks(p, n, Step(seat, 1, n), rank + 1, 0)
  }

  lemma {:induction false} LatestRange(p: seq<Player>, k: nat)
    requires k <= |p|
    ensures Latest(p, k).0 < k && Latest(p, k).1 >= 0
  {
    if k > 0 {
      LatestRange(p, k - 1);
    }
  }

  lemma {:induction false} FillRanksIdle(p: seq<Player>, n: int, seat: int, nextRank: int, k: int)
    requires 0 <= seat < n <= |p| && 0 <= k <= n
    ensures forall s :: n <= s < |p| ==> FillRanks(p, n, seat, nextRank, k)[s] == p[s]
    decreases n - k
  {
    if k < n && nextRank <= n {
      if p[seat].hasFinished {
        FillRanksIdle(p, n, Step(seat, 1, n), nextRank, k + 1);
      } else {
        FillRanksIdle(Finish(p, seat, nextRank), n, Step(seat, 1, n), nextRank + 1, k + 1);
      }
    }
  }

  /** Seats beyond the game are left alone. */
  lemma AssignRemainingIdle(p: seq<Player>, n: int)
    requires n <= |p|
    ensures forall s :: 0 <= n <= s < |p| ==> AssignRemaining(p, n)[s] == p[s]
  {
    if n > 0 {
      var (seat, rank) := Latest(p, n);
      if 0 <= seat < n && rank > 0 {
        FillRanksIdle(p, n, Step(seat, 1, n), rank + 1, 0);
      }
    }
  }

  method AssignRemainingFinishRanks(state: GameState)
    requires state.playerCount <= |state.players|
    modifies state
    ensures state.View() == old(state.View()).(players := AssignRemaining(old(state.players), old(state.playerCount)))
  {
    if state.playerCount <= 0 {
      return;
    }
    var lastFinishedSeat, maxRank := -1, 0;
    for i := 0 to state.playerCount
      invariant (lastFinishedSeat, maxRank) == Latest(state.players, i)
    {
      if !state.players[i].hasFinished {
        continue;
      }
      if state.players[i].finishRank > maxRank {
        maxRank := state.players[i].finishRank;
        lastFinishedSeat := i;
      }
    }
    LatestRange(state.players, state.playerCount);
    if lastFinishedSeat < 0 || maxRank <= 0 {
      return;
    }
    var n := state.playerCount;
    var nextRank := maxRank + 1;
    var seat := (lastFinishedSeat + 1) % n;
    StepIsMod(lastFinishedSeat, 1, n);
    var step := 0;
    while step < n && nextRank <= n
      invariant 0 <= step <= n && 0 <= seat < n && |state.players| == old(|state.players|)
      invariant state.View() == old(state.View()).(players := state.players)
      invariant FillRanks(state.players, n, seat, nextRank, step) == AssignRemaining(old(state.players), n)
    {
      if !state.players[seat].hasFinished {
        state.players := Finish(state.players, seat, nextRank);
        nextRank := nextRank + 1;
      }
      StepIsMod(seat, 1, n);
      seat := (seat + 1) % n;
      step := step + 1;
    }
  }

  lemma {:induction false} LatestIsLast(p: seq<Player>, n: int, order: seq<int>, k: nat)
    requires FinishOrder(p, n, order) && k <= n && order != []
    ensures var (s, r) := Latest(p, k); var last := order[|order| - 1];
            if last < k then (s, r) == (last, |order|) else r < |order|
  {
    if k > 0 {
      LatestIsLast(p, n, order, k - 1);
      var s := k - 1;
      if p[s].hasFinished {
        var i :| 0 <= i < |order| && order[i] == s;
        assert p[order[i]].finishRank == i + 1;
      }
    }
  }

  /** Only the finish marks change. */
  ghost predicate SameButRanks(p: seq<Player>, q: seq<Player>) {
    |p| == |q| && forall s :: 0 <= s < |p| ==>
        q[s].(hasFinished := p[s].hasFinished, finishRank := p[s].finishRank) == p[s]
  }

  lemma StepOnce(a: int, k: int, n: int)
    requires 0 <= a < n && 0 <= k <= n
    ensures k < n ==> Step(Step(a, k, n), 1, n) == Step(a, k + 1, n)
  {
  }

  lemma {:induction false} FillRanksOrder(p: seq<Player>, q: seq<Player>, n: int, order: seq<int>, a: int, k: int)
    requires FinishOrder(p, n, order) && 0 <= a < n && 0 <= k <= n
    requires FinishOrder(q, n, order + Arc(p, n, a, k)) && SameButRanks(p, q)
    ensures k < n ==> var r := FillRanks(q, n, Step(a, k + 1, n), |order| + |Arc(p, n, a, k)| + 1, k);
                      FinishOrder(r, n, order + Arc(p, n, a, n)) && SameButRanks(p, r)
    decreases n - k
  {
    hide FinishOrder, SameButRanks, Arc, Step, Finish;
    Membership(p, n, order, a);
    Membership(q, n, order + Arc(p, n, a, k), a);
    if k < n {
      var s := Step(a, k + 1, n);
      ArcSize(p, n, order, a);
      ArcGrows(p, n, a, k, n);
      if |order + Arc(p, n, a, k)| + 1 > n {
        assert Arc(p, n, a, n) == Arc(p, n, a, k);
      } else {
        FillRanksStep(p, q, n, order, a, k);
        StepOnce(a, k + 1, n);
        StepOnce(a, k + 1, n);
        var q' := if q[s].hasFinished then q else Finish(q, s, |order + Arc(p, n, a, k)| + 1);
        if k + 1 < n {
          FillRanksOrder(p, q', n, order, a, k + 1);
        }
      }
    }
  }

  /** One step of the loop: the seat is ranked next exactly when it was still active at the start. */
  lemma FillRanksStep(p: seq<Player>, q: seq<Player>, n: int, order: seq<int>, a: int, k: int)
    requires FinishOrder(p, n, order) && 0 <= a < n && 0 <= k < n
    requires FinishOrder(q, n, order + Arc(p, n, a, k)) && SameButRanks(p, q)
    ensures var s := Step(a, k + 1, n); var rank := |order| + |Arc(p, n, a, k)| + 1;
            var q' := if q[s].hasFinished then q else Finish(q, s, rank);
            && FinishOrder(q', n, order + Arc(p, n, a, k + 1)) && SameButRanks(p, q')
            && |Arc(p, n, a, k + 1)| == |Arc(p, n, a, k)| + if q[s].hasFinished then 0 else 1
  {
    hide FinishOrder;
    var s := Step(a, k + 1, n);
    Membership(p, n, order, s);
    var done := order + Arc(p, n, a, k);
    ArcMembers(p, n, a, k);
    Membership(q, n, done, s);
    if q[s].hasFinished {
      assert Arc(p, n, a, k + 1) == Arc(p, n, a, k);
    } else {
      FinishExtends(q, n, done, s);
      assert order + Arc(p, n, a, k + 1) == done + [s];
    }
  }

  lemma OrderInRange(p: seq<Player>, n: int, order: seq<int>)
    requires FinishOrder(p, n, order)
    ensures 0 < n <= |p| && forall i :: 0 <= i < |order| ==> 0 <= order[i] < n
  {
  }

  lemma SameAsItself(p: seq<Player>)
    ensures SameButRanks(p, p)
  {
  }

  /** At the end of a round the finishers keep 1..k in the order they went out, and the others take
      k+1..n clockwise after the last finisher: a permutation of 1..n. */
  lemma AssignRemainingOrder(p: seq<Player>, n: int, order: seq<int>)
    requires FinishOrder(p, n, order) && order != []
    ensures var q := AssignRemaining(p, n); var full := order + Arc(p, n, order[|order| - 1], n);
            FinishOrder(q, n, full) && |full| == n && RankPermutation(q, n) && SameButRanks(p, q)
  {
    hide FinishOrder, SameButRanks, RankPermutation, Step, FillRanks, NoDuplicates;
    OrderInRange(p, n, order);
    SameAsItself(p);
    var a := order[|order| - 1];
    LatestIsLast(p, n, order, n);
    ArcSize(p, n, order, a);
    assert order + Arc(p, n, a, 0) == order;
    FillRanksOrder(p, p, n, order, a, 0);
    FullOrderIsPermutation(AssignRemaining(p, n), n, order + Arc(p, n, a, n));
  }
}
