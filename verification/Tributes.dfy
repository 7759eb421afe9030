/** Tribute, return and anti-tribute (tribute.cpp). */
module Tributes {
  import opened Lists
  import opened Cards
  import opened State
  import opened Seats
  import opened Hands
  import opened Pickers
  import opened FinishRanks
  import opened Settlements
  import opened Round

  /** What the last round leaves for the next tribute. */
  datatype Previous = Previous(valid: bool, winningTeam: int, ranks: seq<int>)

  const NO_PREVIOUS := Previous(false, -1, [0, 0, 0, 0, 0, 0])

  datatype Transfer = Transfer(fromSeat: int, toSeat: int, cardId: CardId)

  datatype Outcome = Outcome(skipped: bool, antiTribute: bool, tributes: seq<Transfer>, returned: seq<Transfer>,
                             firstPlayerSeat: int, headTributerSeat: int, summary: string)

  const NO_OUTCOME := Outcome(false, false, [], [], 0, -1, "")

  datatype Plan = Plan(skipped: bool, antiTribute: bool, tributerSeats: seq<int>, recipientSeats: seq<int>,
      headSeat: int, summary: string)

  const NO_PLAN := Plan(true, false, [], [], 0, "")

  function RanksTo(p: seq<Player>, k: nat): (r: seq<int>)
    requires k <= |p| == MAX_PLAYERS
    ensures |r| == MAX_PLAYERS
    ensures forall s :: 0 <= s < MAX_PLAYERS ==> r[s] == if s < k then p[s].finishRank else 0
  {
    if k == 0 then [0, 0, 0, 0, 0, 0] else RanksTo(p, k - 1)[k - 1 := p[k - 1].finishRank]
  }

  function BuildPrevious(t: Table, winningTeam: int): Previous
    requires t.playerCount <= |t.players| == MAX_PLAYERS
  {
    Previous(true, winningTeam, RanksTo(t.players, t.playerCount))
  }

  method BuildPreviousRoundInfo(state: GameState, winningTeam: int) returns (info: Previous)
    requires state.playerCount <= |state.players| == MAX_PLAYERS
    ensures info == BuildPrevious(state.View(), winningTeam)
  {
    info := Previous(true, winningTeam, [0, 0, 0, 0, 0, 0]);
    for i := 0 to state.playerCount
      invariant info == Previous(true, winningTeam, RanksTo(state.players, i))
    {
      info := info.(ranks := info.ranks[i := state.players[i].finishRank]);
    }
  }

  /** First seat from `k` on with a rank; -1 if there is none. */
  function RankSeatFrom(ranks: seq<int>, n: nat, rank: int, k: nat): (s: int)
    requires k <= n <= |ranks|
    ensures -1 <= s < n
    ensures s >= 0 ==> ranks[s] == rank
    decreases n - k
  {
    if k == n then -1 else if ranks[k] == rank then k else RankSeatFrom(ranks, n, rank, k + 1)
  }

  function RankSeat(ranks: seq<int>, n: nat, rank: int): (s: int)
    requires n <= |ranks|
    ensures -1 <= s < n
    ensures s >= 0 ==> ranks[s] == rank
  {
    RankSeatFrom(ranks, n, rank, 0)
  }

  method SeatByFinishRank(ranks: seq<int>, rank: int, n: nat) returns (seat: int)
    requires n <= |ranks|
    ensures seat == RankSeat(ranks, n, rank)
  {
    for s := 0 to n
      invariant RankSeat(ranks, n, rank) == RankSeatFrom(ranks, n, rank, s)
    {
      if ranks[s] == rank {
        return s;
      }
    }
    return -1;
  }

  // ----- anti-tribute -----

  function BigJokers(all: seq<Card>, hand: seq<CardId>, k: nat): nat
    requires k <= |hand|
  {
    if k == 0 then 0 else BigJokers(all, hand, k - 1) + if CardById(all, hand[k - 1]).rank == BIG_JOKER then 1 else 0
  }

  function BigJokersAt(t: Table, seat: int): nat
    requires 0 <= seat < |t.players|
  {
    BigJokers(t.allCards, t.players[seat].hand, |t.players[seat].hand|)
  }

  predicate SeatsExist(t: Table, seats: seq<int>) {
    forall i :: 0 <= i < |seats| ==> 0 <= seats[i] < |t.players|
  }

  function TotalBigJokers(t: Table, seats: seq<int>, k: nat): nat
    requires SeatsExist(t, seats) && k <= |seats|
  {
    if k == 0 then 0 else TotalBigJokers(t, seats, k - 1) + BigJokersAt(t, seats[k - 1])
  }

  /** Enough big jokers among the tributers: two of four players' decks, three of six players'; a lone
      tributer of six has to hold all three. */
  predicate AntiTribute(t: Table, ppt: nat, seats: seq<int>)
    requires SeatsExist(t, seats)
  {
    TotalBigJokers(t, seats, |seats|) >= if ppt >= 3 then 3 else 2
  }

  method CountBigJokersInSeat(state: GameState, seat: int) returns (count: nat)
    requires 0 <= seat < |state.players|
    ensures count == BigJokersAt(state.View(), seat)
  {
    count := 0;
    var hand := state.players[seat].hand;
    for i := 0 to |hand|
      invariant count == BigJokers(state.allCards, hand, i)
    {
      if CardById(state.allCards, hand[i]).rank == BIG_JOKER {
        count := count + 1;
      }
    }
  }

  /** How many of the first `k` tributers hold exactly one big joker. */
  function LoneJokers(t: Table, seats: seq<int>, k: nat): nat
    requires SeatsExist(t, seats) && k <= |seats|
  {
    if k == 0 then 0 else LoneJokers(t, seats, k - 1) + if BigJokersAt(t, seats[k - 1]) == 1 then 1 else 0
  }

  /** As long as nobody holds two, the total is the number of lone jokers. */
  lemma {:induction false} LoneJokersTotal(t: Table, seats: seq<int>, k: nat)
    requires SeatsExist(t, seats) && k <= |seats|
    requires forall i :: 0 <= i < k ==> BigJokersAt(t, seats[i]) < 2
    ensures LoneJokers(t, seats, k) == TotalBigJokers(t, seats, k)
  {
    if k > 0 {
      LoneJokersTotal(t, seats, k - 1);
    }
  }

  lemma {:induction false} HolderInTotal(t: Table, seats: seq<int>, i: nat, k: nat)
    requires SeatsExist(t, seats) && i < k <= |seats|
    ensures TotalBigJokers(t, seats, k) >= BigJokersAt(t, seats[i])
  {
    if i < k - 1 {
      HolderInTotal(t, seats, i, k - 1);
    }
  }

  method SumBigJokers(state: GameState, seats: seq<int>) returns (total: nat)
    requires SeatsExist(state.View(), seats)
    ensures total == TotalBigJokers(state.View(), seats, |seats|)
  {
    total := 0;
    for i := 0 to |seats|
      invariant total == TotalBigJokers(state.View(), seats, i)
    {
      var count := CountBigJokersInSeat(state, seats[i]);
      total := total + count;
    }
  }

  method AnyHolds(state: GameState, seats: seq<int>, count: nat) returns (any: bool)
    requires SeatsExist(state.View(), seats)
    ensures any ==> exists i :: 0 <= i < |seats| && BigJokersAt(state.View(), seats[i]) >= count
    ensures !any ==> forall i :: 0 <= i < |seats| ==> BigJokersAt(state.View(), seats[i]) < count
  {
    for i := 0 to |seats|
      invariant forall k :: 0 <= k < i ==> BigJokersAt(state.View(), seats[k]) < count
    {
      var held := CountBigJokersInSeat(state, seats[i]);
      if held >= count {
        return true;
      }
    }
    return false;
  }

  /** The two shapes of the check for four players come to the total; the caller passes two tributers
      when the losing pair pays. */
  method CheckAntiTribute4(state: GameState, doubleDown: bool, seats: seq<int>) returns (anti: bool)
    requires SeatsExist(state.View(), seats)
    ensures anti == AntiTribute(state.View(), 2, seats)
  {
    ghost var t := state.View();
    if doubleDown {
      var pair := AnyHolds(state, seats, 2);
      if pair {
        ghost var i :| 0 <= i < |seats| && BigJokersAt(t, seats[i]) >= 2;
        HolderInTotal(t, seats, i, |seats|);
        return true;
      }
      var singleBig := 0;
      for i := 0 to |seats|
        invariant singleBig == LoneJokers(t, seats, i)
      {
        var held := CountBigJokersInSeat(state, seats[i]);
        if held == 1 {
          singleBig := singleBig + 1;
        }
      }
      LoneJokersTotal(t, seats, |seats|);
      return singleBig >= 2;
    }
    var total := SumBigJokers(state, seats);
    return total >= 2;
  }

  ghost predicate HolderOf(t: Table, seats: seq<int>, count: nat)
    requires SeatsExist(t, seats)
  {
    exists i :: 0 <= i < |seats| && BigJokersAt(t, seats[i]) >= count
  }

  /** For six players: one seat with all three, or three among the seats of a triple down. */
  method CheckAntiTribute6(state: GameState, tripleDown: bool, seats: seq<int>) returns (anti: bool)
    requires SeatsExist(state.View(), seats)
    ensures anti <==>
            HolderOf(state.View(), seats, 3) || (tripleDown && TotalBigJokers(state.View(), seats, |seats|) >= 3)
  {
    var triple := AnyHolds(state, seats, 3);
    if triple {
      return true;
    }
    if tripleDown {
      var total := SumBigJokers(state, seats);
      return total >= 3;
    }
    return false;
  }

  /** A team that pays, or a lone payer, counters exactly with three big jokers among its cards. */
  lemma AntiTributeOfSix(t: Table, tripleDown: bool, seats: seq<int>)
    requires SeatsExist(t, seats) && (tripleDown || |seats| <= 1)
    ensures HolderOf(t, seats, 3) || (tripleDown && TotalBigJokers(t, seats, |seats|) >= 3) <==>
              AntiTribute(t, 3, seats)
  {
    if i :| 0 <= i < |seats| && BigJokersAt(t, seats[i]) >= 3 {
      HolderInTotal(t, seats, i, |seats|);
    }
    assert |seats| == 1 ==> TotalBigJokers(t, seats, 1) == TotalBigJokers(t, seats, 0) + BigJokersAt(t, seats[0]);
  }

  // ----- the plan of a round -----

  /** Seats of the ranks low..high that exist, in that order. */
  function SeatsOfRanks(ranks: seq<int>, n: nat, low: int, high: int): (seats: seq<int>)
    requires n <= |ranks|
    ensures forall i :: 0 <= i < |seats| ==> 0 <= seats[i] < n
    decreases high - low
  {
    if low > high then []
    else
      (if RankSeat(ranks, n, low) >= 0 then [RankSeat(ranks, n, low)] else []) + SeatsOfRanks(ranks, n, low + 1, high)
  }

  /** The seats of ranks 1..k exist and are of one team. */
  predicate TeamFirst(t: Table, prev: Previous, k: int)
    requires t.playerCount <= |t.players| == |prev.ranks|
  {
    var n := t.playerCount;
    var head := RankSeat(prev.ranks, n, 1);
    head >= 0 && forall r :: 2 <= r <= k ==>
      var s := RankSeat(prev.ranks, n, r); s >= 0 && t.players[s].team == t.players[head].team
  }

  /** How many seats pay: a whole team if the other one took the first ranks, else one. */
  function DownCount(t: Table, ppt: nat, prev: Previous): int
    requires t.playerCount <= |t.players| == |prev.ranks|
  {
    var k := if ppt >= 3 then 3 else 2;
    if TeamFirst(t, prev, k) then k else 1
  }

  function DownName(k: int): string {
    if k == 3 then "triple_down" else if k == 2 then "double_down" else "single_down"
  }

  function PlanRound(t: Table, cfg: Config, prev: Previous): (plan: Plan)
    requires t.playerCount <= |t.players| == |prev.ranks|
    ensures SeatsExist(t, plan.tributerSeats)
  {
    var n := t.playerCount;
    var head := RankSeat(prev.ranks, n, 1);
    if !cfg.enableTribute || !prev.valid then Plan(true, false, [], [], if head < 0 then 0
        else head, "skip_no_previous_round")
    else if head < 0 then Plan(true, false, [], [], head, "skip_no_head")
    else
      var k := DownCount(t, cfg.playersPerTeam, prev);
      var last := if cfg.playersPerTeam >= 3 then 6 else 4;
      var payers := SeatsOfRanks(prev.ranks, n, last - k + 1, last);
      var anti := AntiTribute(t, cfg.playersPerTeam, payers);
      Plan(false, anti, payers, SeatsOfRanks(prev.ranks, n, 1, k), head, if anti then DownName(k) + "_anti"
          else DownName(k))
  }

  method CollectSeats(ranks: seq<int>, n: nat, low: int, high: int) returns (seats: seq<int>)
    requires n <= |ranks|
    ensures seats == SeatsOfRanks(ranks, n, low, high)
  {
    seats := [];
    var rank := low;
    while rank <= high
      invariant seats + SeatsOfRanks(ranks, n, rank, high) == SeatsOfRanks(ranks, n, low, high)
    {
      var seat := SeatByFinishRank(ranks, rank, n);
      ghost var rest := SeatsOfRanks(ranks, n, rank + 1, high);
      if seat >= 0 {
        assert seats + ([seat] + rest) == (seats + [seat]) + rest;
        seats := seats + [seat];
      } else {
        assert [] + rest == rest;
      }
      rank := rank + 1;
    }
  }

  /** At six seats the last three pay if the first three are one team, otherwise the last pays the first. */
  method PlanOfSix(state: GameState, cfg: Config, prev: Previous, head: int, second: int, third: int)
      returns (plan: Plan)
    requires state.playerCount <= |state.players| == |prev.ranks| && cfg.enableTribute && prev.valid
    requires cfg.playersPerTeam >= 3
    requires head == RankSeat(prev.ranks, state.playerCount, 1) >= 0
    requires second == RankSeat(prev.ranks, state.playerCount, 2) && third == RankSeat(prev.ranks, state.playerCount, 3)
    ensures plan == PlanRound(state.View(), cfg, prev)
  {
    hide RankSeat, SeatsOfRanks, AntiTribute, DownCount;
    ghost var t := state.View();
    FirstSeats(prev.ranks, state.playerCount);
    DownOfSix(t, cfg.playersPerTeam, prev);
    var tripleDown := second >= 0 && third >= 0 && state.players[head].team == state.players[second].team
                      && state.players[head].team == state.players[third].team;
    plan := NO_PLAN.(skipped := false, headSeat := head);
    if tripleDown {
      var payers := CollectSeats(prev.ranks, state.playerCount, 4, 6);
      plan := plan.(tributerSeats := payers, recipientSeats := [head, second, third], summary := "triple_down");
    } else {
      var payers := CollectSeats(prev.ranks, state.playerCount, 6, 6);
      plan := plan.(tributerSeats := payers, recipientSeats := [head], summary := "single_down");
    }
    AntiOfSix(t, cfg.playersPerTeam, plan.tributerSeats);
    AntiTributeOfSix(t, tripleDown, plan.tributerSeats);
    var anti := CheckAntiTribute6(state, tripleDown, plan.tributerSeats);
    if anti {
      plan := plan.(antiTribute := true, summary := plan.summary + "_anti");
    }
  }

  /** At four seats the last two pay if the first two are one team, otherwise the last pays the first. */
  method PlanOfFour(state: GameState, cfg: Config, prev: Previous, head: int, second: int) returns (plan: Plan)
    requires state.playerCount <= |state.players| == |prev.ranks| && cfg.enableTribute && prev.valid
    requires cfg.playersPerTeam < 3
    requires head == RankSeat(prev.ranks, state.playerCount, 1) >= 0
    requires second == RankSeat(prev.ranks, state.playerCount, 2)
    ensures plan == PlanRound(state.View(), cfg, prev)
  {
    hide RankSeat, SeatsOfRanks, AntiTribute, DownCount;
    ghost var t := state.View();
    FirstSeats(prev.ranks, state.playerCount);
    DownOfFour(t, cfg.playersPerTeam, prev);
    var doubleDown := second >= 0 && state.players[head].team == state.players[second].team;
    plan := NO_PLAN.(skipped := false, headSeat := head);
    if doubleDown {
      var payers := CollectSeats(prev.ranks, state.playerCount, 3, 4);
      plan := plan.(tributerSeats := payers, recipientSeats := [head, second], summary := "double_down");
    } else {
      var payers := CollectSeats(prev.ranks, state.playerCount, 4, 4);
      plan := plan.(tributerSeats := payers, recipientSeats := [head], summary := "single_down");
    }
    AntiOfFour(t, cfg.playersPerTeam, plan.tributerSeats);
    var anti := CheckAntiTribute4(state, doubleDown, plan.tributerSeats);
    if anti {
      plan := plan.(antiTribute := true, summary := plan.summary + "_anti");
    }
  }

  method PlanTribute(state: GameState, cfg: Config, prev: Previous) returns (plan: Plan)
    requires state.playerCount <= |state.players| == |prev.ranks|
    ensures plan == PlanRound(state.View(), cfg, prev)
  {
    hide RankSeat, SeatsOfRanks, AntiTribute, TeamFirst;
    var n := state.playerCount;
    var head := SeatByFinishRank(prev.ranks, 1, n);
    if !cfg.enableTribute || !prev.valid {
      return NO_PLAN.(headSeat := if head < 0 then 0 else head, summary := "skip_no_previous_round");
    }
    var second := SeatByFinishRank(prev.ranks, 2, n);
    var third := SeatByFinishRank(prev.ranks, 3, n);
    if head < 0 {
      return NO_PLAN.(headSeat := head, summary := "skip_no_head");
    }
    if cfg.playersPerTeam >= 3 {
      plan := PlanOfSix(state, cfg, prev, head, second, third);
    } else {
      plan := PlanOfFour(state, cfg, prev, head, second);
    }
  }

  lemma FirstSeats(ranks: seq<int>, n: nat)
    requires n <= |ranks|
    ensures var a, b, c := RankSeat(ranks, n, 1), RankSeat(ranks, n, 2), RankSeat(ranks, n, 3);
            && (a >= 0 ==> SeatsOfRanks(ranks, n, 1, 1) == [a])
            && (a >= 0 && b >= 0 ==> SeatsOfRanks(ranks, n, 1, 2) == [a, b])
            && (a >= 0 && b >= 0 && c >= 0 ==> SeatsOfRanks(ranks, n, 1, 3) == [a, b, c])
    ensures |SeatsOfRanks(ranks, n, 6, 6)| <= 1
  {
    hide RankSeat;
    assert SeatsOfRanks(ranks, n, 4, 3) == [] && SeatsOfRanks(ranks, n, 3, 2) == []
        && SeatsOfRanks(ranks, n, 2, 1) == [] && SeatsOfRanks(ranks, n, 7, 6) == [];
  }

  lemma FirstTeam(t: Table, prev: Previous)
    requires t.playerCount <= |t.players| == |prev.ranks|
    ensures var n := t.playerCount; var a, b, c := RankSeat(prev.ranks, n, 1), RankSeat(prev.ranks, n, 2),
              RankSeat(prev.ranks, n, 3);
            && (TeamFirst(t, prev, 2) <==> a >= 0 && b >= 0 && t.players[b].team == t.players[a].team)
            && (TeamFirst(t, prev, 3) <==> TeamFirst(t, prev, 2) && c >= 0 && t.players[c].team == t.players[a].team)
  {
    hide RankSeat;
  }

  lemma DownOfFour(t: Table, ppt: nat, prev: Previous)
    requires t.playerCount <= |t.players| == |prev.ranks| && ppt < 3 && RankSeat(prev.ranks, t.playerCount, 1) >= 0
    ensures var a, b := RankSeat(prev.ranks, t.playerCount, 1), RankSeat(prev.ranks, t.playerCount, 2);
            DownCount(t, ppt, prev) == if b >= 0 && t.players[a].team == t.players[b].team then 2 else 1
  {
    hide RankSeat, TeamFirst;
    FirstTeam(t, prev);
  }

  lemma DownOfSix(t: Table, ppt: nat, prev: Previous)
    requires t.playerCount <= |t.players| == |prev.ranks| && ppt >= 3 && RankSeat(prev.ranks, t.playerCount, 1) >= 0
    ensures var n := t.playerCount; var a, b, c := RankSeat(prev.ranks, n, 1), RankSeat(prev.ranks, n, 2),
              RankSeat(prev.ranks, n, 3);
            DownCount(t, ppt, prev) ==
              if b >= 0 && c >= 0 && t.players[a].team == t.players[b].team
                  && t.players[a].team == t.players[c].team then 3 else 1
  {
    hide RankSeat, TeamFirst;
    FirstTeam(t, prev);
  }

  lemma AntiOfFour(t: Table, ppt: nat, seats: seq<int>)
    requires SeatsExist(t, seats) && ppt < 3
    ensures AntiTribute(t, ppt, seats) == AntiTribute(t, 2, seats)
  {
    hide TotalBigJokers;
  }

  lemma AntiOfSix(t: Table, ppt: nat, seats: seq<int>)
    requires SeatsExist(t, seats) && ppt >= 3
    ensures AntiTribute(t, ppt, seats) == AntiTribute(t, 3, seats)
  {
    hide TotalBigJokers;
  }

  // ----- who pays whom -----

  /** Every rank 1..n is held by exactly one of the n seats. */
  ghost predicate PermRanks(ranks: seq<int>, n: nat) {
    && 0 < n <= |ranks|
    && (forall s :: 0 <= s < n ==> 1 <= ranks[s] <= n)
    && (forall s, s' :: 0 <= s < s' < n ==> ranks[s] != ranks[s'])
    && (forall r :: 1 <= r <= n ==> RankSeat(ranks, n, r) >= 0)
  }

  lemma {:induction false} RankSeatFinds(ranks: seq<int>, n: nat, s: nat, k: nat)
    requires k <= s < n <= |ranks|
    ensures RankSeatFrom(ranks, n, ranks[s], k) >= 0
    decreases s - k
  {
    if k < s {
      RankSeatFinds(ranks, n, s, k + 1);
    }
  }

  /** The ranks of a finished round are such ranks. */
  lemma PreviousRanks(t: Table, winningTeam: int)
    requires |t.players| == MAX_PLAYERS && RankPermutation(t.players, t.playerCount)
    ensures var prev := BuildPrevious(t, winningTeam);
            && PermRanks(prev.ranks, t.playerCount) && prev.valid && prev.winningTeam == winningTeam
            && forall s :: 0 <= s < t.playerCount ==> prev.ranks[s] == t.players[s].finishRank
  {
    var n, ranks := t.playerCount, BuildPrevious(t, winningTeam).ranks;
    forall r | 1 <= r <= n
      ensures RankSeat(ranks, n, r) >= 0
    {
      assert HasRank(t.players, n, r);
      var s :| 0 <= s < n && t.players[s].finishRank == r;
      RankSeatFinds(ranks, n, s, 0);
    }
  }

  lemma {:induction false} SeatsOfRanksAre(ranks: seq<int>, n: nat, low: int, high: int)
    requires PermRanks(ranks, n) && 1 <= low <= high + 1 && high <= n
    ensures |SeatsOfRanks(ranks, n, low, high)| == high - low + 1
    ensures forall i :: 0 <= i <= high - low ==> ranks[SeatsOfRanks(ranks, n, low, high)[i]] == low + i
    decreases high - low + 1
  {
    if low <= high {
      SeatsOfRanksAre(ranks, n, low + 1, high);
      var rest := SeatsOfRanks(ranks, n, low + 1, high);
      forall i | 0 <= i <= high - low
        ensures ranks[SeatsOfRanks(ranks, n, low, high)[i]] == low + i
      {
        if i > 0 {
          assert SeatsOfRanks(ranks, n, low, high)[i] == rest[i - 1];
        }
      }
    }
  }

  /** `k` seats pay: those of the last k ranks, from the best of them on; the first k receive. */
  ghost predicate PlanShape(ranks: seq<int>, n: nat, k: int, plan: Plan) {
    && n <= |ranks| && |plan.tributerSeats| == |plan.recipientSeats| == k >= 1
        && plan.headSeat == plan.recipientSeats[0]
    && forall i :: 0 <= i < k ==>
         && 0 <= plan.tributerSeats[i] < n && ranks[plan.tributerSeats[i]] == n - k + 1 + i
         && 0 <= plan.recipientSeats[i] < n && ranks[plan.recipientSeats[i]] == i + 1
  }

  /** One team took the first `k` ranks. */
  ghost predicate Swept(p: seq<Player>, n: nat, ranks: seq<int>, k: nat) {
    && n <= |p| && n <= |ranks|
    && forall s, s' :: 0 <= s < n && 0 <= s' < n && ranks[s] <= k && ranks[s'] <= k ==> p[s].team == p[s'].team
  }

  lemma SweptIff(t: Table, prev: Previous, k: nat)
    requires t.playerCount <= |t.players| == |prev.ranks| && PermRanks(prev.ranks, t.playerCount)
    requires 1 <= k <= t.playerCount
    ensures TeamFirst(t, prev, k) <==> Swept(t.players, t.playerCount, prev.ranks, k)
  {
    hide RankSeat;
    var n := t.playerCount;
    var head := RankSeat(prev.ranks, n, 1);
    RankSeatIs(prev.ranks, n, 1);
    if TeamFirst(t, prev, k) {
      forall s | 0 <= s < n && prev.ranks[s] <= k
        ensures t.players[s].team == t.players[head].team
      {
        RankSeatIs(prev.ranks, n, prev.ranks[s]);
      }
    }
    if Swept(t.players, n, prev.ranks, k) {
      forall r | 2 <= r <= k
        ensures var s := RankSeat(prev.ranks, n, r); s >= 0 && t.players[s].team == t.players[head].team
      {
        RankSeatIs(prev.ranks, n, r);
      }
    }
  }

  lemma RankSeatIs(ranks: seq<int>, n: nat, r: int)
    requires PermRanks(ranks, n) && 1 <= r <= n
    ensures 0 <= RankSeat(ranks, n, r) < n && ranks[RankSeat(ranks, n, r)] == r
    ensures forall s :: 0 <= s < n && ranks[s] == r ==> s == RankSeat(ranks, n, r)
  {
  }

  /** Without tribute or an earlier round nobody pays, and the first of that round begins, or seat 0. */
  lemma PlanSkips(t: Table, cfg: Config, prev: Previous)
    requires t.playerCount <= |t.players| == |prev.ranks|
    ensures !cfg.enableTribute || !prev.valid ==>
              var plan := PlanRound(t, cfg, prev);
              && plan.skipped && !plan.antiTribute && plan.tributerSeats == plan.recipientSeats == []
              && (plan.headSeat == 0 || (0 < plan.headSeat < t.playerCount && prev.ranks[plan.headSeat] == 1))
              && ((exists s :: 0 <= s < t.playerCount && prev.ranks[s] == 1) ==> prev.ranks[plan.headSeat] == 1)
  {
    hide SeatsOfRanks, AntiTribute, TeamFirst;
    if s :| 0 <= s < t.playerCount && prev.ranks[s] == 1 {
      RankSeatFinds(prev.ranks, t.playerCount, s, 0);
    }
  }

  // ----- big jokers among the payers -----

  /** Where big jokers lie in the hands of the first `k` of these seats: which of the seats, and which card. */
  ghost function JokerPlaces(t: Table, seats: seq<int>, k: nat): (places: set<(int, int)>)
    requires SeatsExist(t, seats) && k <= |seats|
    ensures forall i, j :: (i, j) in places <==>
              0 <= i < k && 0 <= j < |t.players[seats[i]].hand|
                && CardById(t.allCards, t.players[seats[i]].hand[j]).rank == BIG_JOKER
  {
    if k == 0 then {}
    else
      var m := |t.players[seats[k - 1]].hand|;
      JokerPlaces(t, seats, k - 1) + HandPlaces(t, seats[k - 1], k - 1, m)
  }

  ghost function HandPlaces(t: Table, seat: int, i: int, m: nat): (places: set<(int, int)>)
    requires 0 <= seat < |t.players| && m <= |t.players[seat].hand|
    ensures forall a, b :: (a, b) in places <==>
              a == i && 0 <= b < m && CardById(t.allCards, t.players[seat].hand[b]).rank == BIG_JOKER
  {
    if m == 0 then {}
    else HandPlaces(t, seat, i, m - 1) +
         if CardById(t.allCards, t.players[seat].hand[m - 1]).rank == BIG_JOKER then {(i, m - 1)} else {}
  }

  lemma {:induction false} HandPlacesCount(t: Table, seat: int, i: int, m: nat)
    requires 0 <= seat < |t.players| && m <= |t.players[seat].hand|
    ensures |HandPlaces(t, seat, i, m)| == BigJokers(t.allCards, t.players[seat].hand, m)
  {
    if m > 0 {
      HandPlacesCount(t, seat, i, m - 1);
    }
  }

  lemma {:induction false} JokerPlacesCount(t: Table, seats: seq<int>, k: nat)
    requires SeatsExist(t, seats) && k <= |seats|
    ensures |JokerPlaces(t, seats, k)| == TotalBigJokers(t, seats, k)
  {
    hide HandPlaces, BigJokers;
    if k > 0 {
      JokerPlacesCount(t, seats, k - 1);
      var m := |t.players[seats[k - 1]].hand|;
      HandPlacesCount(t, seats[k - 1], k - 1, m);
      PlacesApart(t, seats, k - 1, m);
      SizeOfUnion(JokerPlaces(t, seats, k - 1), HandPlaces(t, seats[k - 1], k - 1, m));
    }
  }

  lemma PlacesApart(t: Table, seats: seq<int>, k: nat, m: nat)
    requires SeatsExist(t, seats) && k < |seats| && m <= |t.players[seats[k]].hand|
    ensures JokerPlaces(t, seats, k) !! HandPlaces(t, seats[k], k, m)
  {
    forall x | x in JokerPlaces(t, seats, k)
      ensures x !in HandPlaces(t, seats[k], k, m)
    {
      assert (x.0, x.1) == x;
    }
  }

  lemma SizeOfUnion<T>(a: set<T>, b: set<T>)
    requires a !! b
    ensures |a + b| == |a| + |b|
  {
  }

  /** The tribute is countered exactly if the payers hold two big jokers between them at four seats, three
      at six. */
  lemma CounteredIff(t: Table, ppt: nat, seats: seq<int>)
    requires SeatsExist(t, seats) && (ppt == 2 || ppt == 3)
    ensures AntiTribute(t, ppt, seats) <==> |JokerPlaces(t, seats, |seats|)| >= ppt
  {
    JokerPlacesCount(t, seats, |seats|);
  }

  /** The plan after a round with a full ranking: the whole losing team pays the winning team if that
      took the first ranks, otherwise the last seat pays the first. */
  lemma PlanMeaning(t: Table, cfg: Config, prev: Previous) returns (k: int)
    requires |t.players| == MAX_PLAYERS == |prev.ranks| && TeamsAlternate(t.players, t.playerCount, cfg.playersPerTeam)
    requires cfg.enableTribute && prev.valid && PermRanks(prev.ranks, t.playerCount)
    ensures var plan := PlanRound(t, cfg, prev);
            && !plan.skipped && PlanShape(prev.ranks, t.playerCount, k, plan)
            && plan.antiTribute == AntiTribute(t, cfg.playersPerTeam, plan.tributerSeats)
            && plan.summary == (if k == 3 then "triple_down" else if k == 2 then "double_down" else "single_down") +
                               if plan.antiTribute then "_anti" else ""
    ensures k == if Swept(t.players, t.playerCount, prev.ranks, cfg.playersPerTeam) then cfg.playersPerTeam else 1
  {
    hide RankSeat, AntiTribute, TeamFirst, SeatsOfRanks, Swept;
    var n := t.playerCount;
    SweptIff(t, prev, cfg.playersPerTeam);
    k := DownCount(t, cfg.playersPerTeam, prev);
    SeatsOfRanksAre(prev.ranks, n, n - k + 1, n);
    SeatsOfRanksAre(prev.ranks, n, 1, k);
  }

  /** Payers and recipients are distinct and disjoint; the last seat is among the payers. */
  lemma PlanDisjoint(ranks: seq<int>, n: nat, k: int, plan: Plan)
    requires PermRanks(ranks, n) && PlanShape(ranks, n, k, plan) && 2 * k <= n
    ensures NoDuplicates(plan.tributerSeats) && NoDuplicates(plan.recipientSeats)
    ensures forall s :: !(s in plan.tributerSeats && s in plan.recipientSeats)
    ensures plan.tributerSeats[k - 1] == RankSeat(ranks, n, n)
  {
    hide RankSeat;
    assert RankSeat(ranks, n, n) >= 0;
  }

  // ----- the order of the tributes -----

  datatype Pending = Pending(fromSeat: int, cardId: CardId)

  /** Clockwise distance from the head seat. */
  function FromHead(seat: int, head: int, n: int): int
    requires n > 0
  {
    (seat - head + n) % n
  }

  lemma FromHeadInjective(a: int, b: int, head: int, n: int)
    requires 0 <= a < n && 0 <= b < n && 0 <= head < n
    ensures FromHead(a, head, n) == FromHead(b, head, n) ==> a == b
  {
    FromHeadIs(a, head, n);
    FromHeadIs(b, head, n);
  }

  lemma FromHeadIs(a: int, head: int, n: int)
    requires 0 <= a < n && 0 <= head < n
    ensures FromHead(a, head, n) == if a >= head then a - head else a - head + n
  {
    if a >= head {
      ModOnce(a - head + n, n);
    } else {
      ModNone(a - head + n, n);
    }
  }

  function CompareTribute(all: seq<Card>, ctx: RuleContext, a: Pending, b: Pending, head: int, n: int): int
    requires n > 0
  {
    var orderA, orderB := RankOrder(CardById(all, a.cardId), ctx), RankOrder(CardById(all, b.cardId), ctx);
    if orderA != orderB then (if orderA > orderB then -1 else 1)
    else if FromHead(a.fromSeat, head, n) != FromHead(b.fromSeat, head, n) then
      (if FromHead(a.fromSeat, head, n) < FromHead(b.fromSeat, head, n) then -1 else 1)
    else 0
  }

  predicate Before(all: seq<Card>, ctx: RuleContext, a: Pending, b: Pending, head: int, n: int)
    requires n > 0
  {
    CompareTribute(all, ctx, a, b, head, n) < 0
  }

  /** Seats passed on the way clockwise from the head to this seat. */
  function Clockwise(head: int, seat: int, n: int): int {
    if seat >= head then seat - head else seat - head + n
  }

  /** The higher card comes first; of equal cards, the one of the seat reached first clockwise from the head. */
  lemma TributeOrderMeaning(all: seq<Card>, ctx: RuleContext, a: Pending, b: Pending, head: int, n: int)
    requires 0 <= head < n && 0 <= a.fromSeat < n && 0 <= b.fromSeat < n
    ensures Before(all, ctx, a, b, head, n) <==>
            var x, y := RankOrder(CardById(all, a.cardId), ctx), RankOrder(CardById(all, b.cardId), ctx);
            x > y || (x == y && Clockwise(head, a.fromSeat, n) < Clockwise(head, b.fromSeat, n))
  {
    hide RankOrder;
    FromHeadIs(a.fromSeat, head, n);
    FromHeadIs(b.fromSeat, head, n);
    hide FromHead;
  }

  /** The comparison is a strict total order on payers of distinct seats. */
  lemma TributeOrder(all: seq<Card>, ctx: RuleContext, a: Pending, b: Pending, c: Pending, head: int, n: int)
    requires 0 <= head < n && 0 <= a.fromSeat < n && 0 <= b.fromSeat < n && a.fromSeat != b.fromSeat
    ensures Before(all, ctx, a, b, head, n) != Before(all, ctx, b, a, head, n)
    ensures !Before(all, ctx, a, a, head, n)
    ensures Before(all, ctx, a, b, head, n) && Before(all, ctx, b, c, head, n) ==> Before(all, ctx, a, c, head, n)
    ensures CompareTribute(all, ctx, b, a, head, n) == -CompareTribute(all, ctx, a, b, head, n)
  {
    hide RankOrder, FromHead;
    FromHeadInjective(a.fromSeat, b.fromSeat, head, n);
  }
}
