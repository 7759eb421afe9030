/** The exchange of cards in one go: transfers, assignment, first player (tribute.cpp). */
module Exchange {
  import opened Lists
  import opened Cards
  import opened State
  import opened Seats
  import opened Hands
  import opened Pickers
  import opened Round
  import opened Tributes

  // ----- moving one card -----

  predicate CanMove(p: seq<Player>, m: Transfer) {
    && 0 <= m.fromSeat < |p| && 0 <= m.toSeat < |p| && m.cardId != 0 && m.cardId in p[m.fromSeat].hand
  }

  function Give(p: seq<Player>, seat: int, id: CardId): (q: seq<Player>)
    requires 0 <= seat < |p|
    ensures |q| == |p|
  {
    p[seat := p[seat].(hand := p[seat].hand + [id])]
  }

  function Take(p: seq<Player>, seat: int, id: CardId): (q: seq<Player>)
    requires 0 <= seat < |p|
    ensures |q| == |p|
  {
    p[seat := p[seat].(hand := HandAfter(p[seat].hand, [id]))]
  }

  /** The players after a transfer; one that cannot be made changes nothing. */
  function MoveCard(p: seq<Player>, m: Transfer): (q: seq<Player>)
    ensures |q| == |p|
  {
    if CanMove(p, m) then Give(Take(p, m.fromSeat, m.cardId), m.toSeat, m.cardId) else p
  }

  /** The first `k` transfers, one after another. */
  function MoveCards(p: seq<Player>, moves: seq<Transfer>, k: nat): (q: seq<Player>)
    requires k <= |moves|
    ensures |q| == |p|
  {
    if k == 0 then p else MoveCard(MoveCards(p, moves, k - 1), moves[k - 1])
  }

  method TransferCard(state: GameState, m: Transfer)
    requires m.fromSeat < |state.players| && m.toSeat < |state.players|
    modifies state
    ensures state.View() == old(state.View()).(players := MoveCard(old(state.players), m))
  {
    if m.fromSeat < 0 || m.toSeat < 0 || m.cardId == 0 {
      return;
    }
    var giver := new Hand(state.players[m.fromSeat].hand);
    var one := [m.cardId];
    var holds := giver.Contains(one);
    if !holds {
      assert one[0] !in state.players[m.fromSeat].hand;
      return;
    }
    assert one[0] in state.players[m.fromSeat].hand;
    var removed := giver.Remove(one);
    state.players := state.players[m.fromSeat := state.players[m.fromSeat].(hand := giver.cards)];
    var taker := new Hand(state.players[m.toSeat].hand);
    taker.Add(m.cardId);
    state.players := state.players[m.toSeat := state.players[m.toSeat].(hand := taker.cards)];
  }

  // ----- assigning the tributes -----

  /** The submitted cards of the first `k` tributers, in the order of the plan. */
  function PendingOf(seats: seq<int>, submissions: map<int, CardId>, k: nat): seq<Pending>
    requires k <= |seats|
  {
    if k == 0 then []
    else
      var s := seats[k - 1];
      PendingOf(seats, submissions, k - 1) + if s in submissions
          && submissions[s] != 0 then [Pending(s, submissions[s])] else []
  }

  function Insert(all: seq<Card>, ctx: RuleContext, x: Pending, sorted: seq<Pending>, head: int,
      n: int): (r: seq<Pending>)
    requires n > 0
    ensures |r| == |sorted| + 1
  {
    if sorted == [] || Before(all, ctx, x, sorted[0], head, n) then [x] + sorted
    else [sorted[0]] + Insert(all, ctx, x, sorted[1..], head, n)
  }

  /** The pending tributes in the order of the comparison. */
  function Sorted(all: seq<Card>, ctx: RuleContext, pending: seq<Pending>, head: int, n: int): (r: seq<Pending>)
    requires n > 0
    ensures |r| == |pending|
  {
    if pending == [] then [] else Insert(all, ctx, pending[0], Sorted(all, ctx, pending[1..], head, n), head, n)
  }

  function Assigned(sorted: seq<Pending>, recipients: seq<int>, k: nat): (tributes: seq<Transfer>)
    requires k <= |sorted| && k <= |recipients|
    ensures |tributes| == k
    ensures forall i :: 0 <= i < k ==> tributes[i] == Transfer(sorted[i].fromSeat, recipients[i], sorted[i].cardId)
  {
    seq(k, i requires 0 <= i < k => Transfer(sorted[i].fromSeat, recipients[i], sorted[i].cardId))
  }

  function TributesOf(t: Table, ctx: RuleContext, plan: Plan, submissions: map<int, CardId>): seq<Transfer> {
    var pending := PendingOf(plan.tributerSeats, submissions, |plan.tributerSeats|);
    if pending == [] || t.playerCount == 0 then []
    else
      var k := if |pending| < |plan.recipientSeats| then |pending| else |plan.recipientSeats|;
      Assigned(Sorted(t.allCards, ctx, pending, plan.headSeat, t.playerCount), plan.recipientSeats, k)
  }

  function AssignSummary(plan: Plan, submissions: map<int, CardId>): string {
    if PendingOf(plan.tributerSeats, submissions, |plan.tributerSeats|) == [] then plan.summary + "_no_card"
        else plan.summary
  }

  predicate SeatsInGame(seats: seq<int>, n: int) {
    forall i :: 0 <= i < |seats| ==> 0 <= seats[i] < n
  }

  lemma {:induction false} PendingInGame(seats: seq<int>, submissions: map<int, CardId>, n: int, k: nat)
    requires k <= |seats| && SeatsInGame(seats, n)
    ensures forall i :: 0 <= i < |PendingOf(seats, submissions, k)| ==>
              0 <= PendingOf(seats, submissions, k)[i].fromSeat < n
  {
    if k > 0 {
      PendingInGame(seats, submissions, n, k - 1);
    }
  }

  predicate SendersInGame(pending: seq<Pending>, n: int) {
    forall i :: 0 <= i < |pending| ==> 0 <= pending[i].fromSeat < n
  }

  method CollectPending(seats: seq<int>, submissions: map<int, CardId>) returns (pending: seq<Pending>)
    ensures pending == PendingOf(seats, submissions, |seats|)
  {
    pending := [];
    for i := 0 to |seats|
      invariant pending == PendingOf(seats, submissions, i)
    {
      var seat := seats[i];
      if seat !in submissions || submissions[seat] == 0 {
        continue;
      }
      pending := pending + [Pending(seat, submissions[seat])];
    }
  }

  /** The first `count` sorted tributes go to the recipients in order. */
  method GiveInOrder(state: GameState, sorted: seq<Pending>, recipients: seq<int>, count: nat)
      returns (tributes: seq<Transfer>)
    requires count <= |sorted| && count <= |recipients|
    requires SendersInGame(sorted, |state.players|) && SeatsInGame(recipients, |state.players|)
    modifies state
    ensures tributes == Assigned(sorted, recipients, count)
    ensures state.View() == old(state.View()).(players := MoveCards(old(state.players), tributes, count))
  {
    hide MoveCard;
    ghost var before := state.View();
    ghost var all := Assigned(sorted, recipients, count);
    tributes := [];
    for i := 0 to count
      invariant tributes == all[..i]
      invariant state.View() == before.(players := MoveCards(before.players, all, i))
    {
      var m := Transfer(sorted[i].fromSeat, recipients[i], sorted[i].cardId);
      TransferCard(state, m);
      tributes := tributes + [m];
    }
  }

  /** The library's sort is represented by the sorted list; `SortUnique` shows there is only one. */
  method AssignTributes(state: GameState, ctx: RuleContext, plan: Plan, submissions: map<int, CardId>, result: Outcome)
      returns (r: Outcome)
    requires 0 < state.playerCount <= |state.players|
    requires SeatsInGame(plan.tributerSeats, state.playerCount) && SeatsInGame(plan.recipientSeats, state.playerCount)
    modifies state
    ensures var tributes := TributesOf(old(state.View()), ctx, plan, submissions);
            && state.View() == old(state.View()).(players := MoveCards(old(state.players), tributes, |tributes|))
            && r == result.(tributes := tributes, summary := AssignSummary(plan, submissions))
  {
    hide MoveCard, Sorted, PendingOf, Assigned;
    var pending := CollectPending(plan.tributerSeats, submissions);
    if pending == [] {
      return result.(tributes := [], summary := plan.summary + "_no_card");
    }
    var sorted := Sorted(state.allCards, ctx, pending, plan.headSeat, state.playerCount);
    SortedInGame(state.allCards, ctx, plan, submissions, state.playerCount);
    var assignCount := if |pending| < |plan.recipientSeats| then |pending| else |plan.recipientSeats|;
    var tributes := GiveInOrder(state, sorted, plan.recipientSeats, assignCount);
    r := result.(tributes := tributes, summary := plan.summary);
  }

  lemma SortedInGame(all: seq<Card>, ctx: RuleContext, plan: Plan, submissions: map<int, CardId>, n: int)
    requires n > 0 && SeatsInGame(plan.tributerSeats, n)
    ensures var sorted := Sorted(all, ctx, PendingOf(plan.tributerSeats, submissions, |plan.tributerSeats|),
              plan.headSeat, n);
            SendersInGame(sorted, n)
  {
    hide Sorted, PendingOf;
    var pending := PendingOf(plan.tributerSeats, submissions, |plan.tributerSeats|);
    SortedBag(all, ctx, pending, plan.headSeat, n);
    PendingInGame(plan.tributerSeats, submissions, n, |plan.tributerSeats|);
    var sorted := Sorted(all, ctx, pending, plan.headSeat, n);
    forall i | 0 <= i < |sorted|
      ensures sorted[i] in pending
    {
      assert sorted[i] in multiset(sorted);
    }
  }

  // ----- the sorted order -----

  lemma {:induction false} InsertBag(all: seq<Card>, ctx: RuleContext, x: Pending, sorted: seq<Pending>, head: int,
      n: int)
    requires n > 0
    ensures multiset(Insert(all, ctx, x, sorted, head, n)) == multiset(sorted) + multiset{x}
  {
    if sorted != [] && !Before(all, ctx, x, sorted[0], head, n) {
      InsertBag(all, ctx, x, sorted[1..], head, n);
      assert sorted == [sorted[0]] + sorted[1..];
    }
  }

  lemma {:induction false} SortedBag(all: seq<Card>, ctx: RuleContext, pending: seq<Pending>, head: int, n: int)
    requires n > 0
    ensures multiset(Sorted(all, ctx, pending, head, n)) == multiset(pending)
  {
    hide Insert, Before;
    if pending != [] {
      SortedBag(all, ctx, pending[1..], head, n);
      InsertBag(all, ctx, pending[0], Sorted(all, ctx, pending[1..], head, n), head, n);
      assert pending == [pending[0]] + pending[1..];
    }
  }

  ghost predicate InOrder(all: seq<Card>, ctx: RuleContext, s: seq<Pending>, head: int, n: int) {
    n > 0 && forall i, j :: 0 <= i < j < |s| ==> Before(all, ctx, s[i], s[j], head, n)
  }

  /** One submission per seat of the game. */
  ghost predicate OnePerSeat(s: seq<Pending>, n: int) {
    SendersInGame(s, n) && forall i, j :: 0 <= i < j < |s| ==> s[i].fromSeat != s[j].fromSeat
  }

  lemma {:induction false} InsertInOrder(all: seq<Card>, ctx: RuleContext, x: Pending, s: seq<Pending>, head: int,
      n: int)
    requires InOrder(all, ctx, s, head, n) && OnePerSeat([x] + s, n) && 0 <= head < n
    ensures InOrder(all, ctx, Insert(all, ctx, x, s, head, n), head, n)
  {
    hide CompareTribute;
    var r := Insert(all, ctx, x, s, head, n);
    if s != [] {
      TributeOrder(all, ctx, x, s[0], x, head, n) by { assert ([x] + s)[1] == s[0] && ([x] + s)[0] == x; }
      if Before(all, ctx, x, s[0], head, n) {
        forall j | 1 <= j < |r|
          ensures Before(all, ctx, x, r[j], head, n)
        {
          TributeOrder(all, ctx, x, s[0], r[j], head, n) by { assert ([x] + s)[1] == s[0] && ([x] + s)[0] == x; }
        }
      } else {
        var rest := Insert(all, ctx, x, s[1..], head, n);
        TailOnePerSeat(x, s, n);
        InsertInOrder(all, ctx, x, s[1..], head, n);
        InsertBag(all, ctx, x, s[1..], head, n);
        forall j | 0 <= j < |rest|
          ensures Before(all, ctx, s[0], rest[j], head, n)
        {
          assert rest[j] in multiset(s[1..]) + multiset{x};
          assert rest[j] == x || rest[j] in s[1..];
        }
      }
    }
  }

  lemma TailOnePerSeat(x: Pending, s: seq<Pending>, n: int)
    requires OnePerSeat([x] + s, n) && s != []
    ensures OnePerSeat([x] + s[1..], n) && OnePerSeat(s, n)
  {
    var a, b := [x] + s, [x] + s[1..];
    assert forall i :: 1 <= i < |b| ==> b[i] == a[i + 1];
    assert forall i :: 0 <= i < |s| ==> s[i] == a[i + 1];
    assert b[0] == a[0];
  }

  lemma {:induction false} SortedInOrder(all: seq<Card>, ctx: RuleContext, pending: seq<Pending>, head: int, n: int)
    requires OnePerSeat(pending, n) && 0 <= head < n
    ensures InOrder(all, ctx, Sorted(all, ctx, pending, head, n), head, n)
    ensures OnePerSeat(Sorted(all, ctx, pending, head, n), n)
  {
    hide Insert, Before, InOrder;
    if pending == [] {
      EmptyInOrder(all, ctx, head, n);
    } else {
      var x, rest := pending[0], Sorted(all, ctx, pending[1..], head, n);
      SortedInOrder(all, ctx, pending[1..], head, n);
      SortedBag(all, ctx, pending[1..], head, n);
      forall i | 0 <= i < |rest|
        ensures rest[i].fromSeat != x.fromSeat
      {
        assert rest[i] in multiset(pending[1..]);
        assert rest[i] in pending[1..];
      }
      InsertInOrder(all, ctx, x, rest, head, n);
      InsertBag(all, ctx, x, rest, head, n);
      assert [x] + rest == [x] + rest[..];
      BagOnePerSeat([x] + rest, Sorted(all, ctx, pending, head, n), n);
    }
  }

  lemma EmptyInOrder(all: seq<Card>, ctx: RuleContext, head: int, n: int)
    requires n > 0
    ensures InOrder(all, ctx, [], head, n)
  {
  }

  /** One submission per seat is a matter of the multiset. */
  lemma BagOnePerSeat(a: seq<Pending>, b: seq<Pending>, n: int)
    requires OnePerSeat(a, n) && multiset(a) == multiset(b)
    ensures OnePerSeat(b, n)
  {
    forall i | 0 <= i < |b|
      ensures b[i] in a
    {
      assert b[i] in multiset(b);
    }
    forall i, j | 0 <= i < j < |b|
      ensures b[i].fromSeat != b[j].fromSeat
    {
      if b[i] == b[j] {
        CountTwice(b, i, j);
        CountOnce(a, b[i]);
      }
    }
  }

  lemma SameFirst(all: seq<Card>, ctx: RuleContext, a: seq<Pending>, b: seq<Pending>, head: int, n: int)
    requires multiset(a) == multiset(b) && InOrder(all, ctx, a, head, n) && InOrder(all, ctx, b, head, n)
    requires OnePerSeat(a, n) && 0 <= head < n && a != [] && b != []
    ensures a[0] == b[0]
  {
    hide Before;
    assert a[0] in multiset(b) && b[0] in multiset(a);
    var i :| 0 <= i < |b| && b[i] == a[0];
    var j :| 0 <= j < |a| && a[j] == b[0];
    if i > 0 && j > 0 {
      TributeOrder(all, ctx, a[0], a[j], a[0], head, n);
    }
  }

  lemma TailInOrder(all: seq<Card>, ctx: RuleContext, a: seq<Pending>, head: int, n: int)
    requires InOrder(all, ctx, a, head, n) && OnePerSeat(a, n) && a != []
    ensures InOrder(all, ctx, a[1..], head, n) && OnePerSeat(a[1..], n)
    ensures multiset(a[1..]) == multiset(a) - multiset{a[0]}
  {
    hide Before;
    assert a == [a[0]] + a[1..];
  }

  /** Any two orderly arrangements of the same submissions are equal, so the sort has one outcome. */
  lemma {:induction false} SortUnique(all: seq<Card>, ctx: RuleContext, a: seq<Pending>, b: seq<Pending>, head: int,
      n: int)
    requires multiset(a) == multiset(b) && InOrder(all, ctx, a, head, n) && InOrder(all, ctx, b, head, n)
    requires OnePerSeat(a, n) && OnePerSeat(b, n) && 0 <= head < n
    ensures a == b
  {
    hide InOrder, OnePerSeat;
    assert |a| == |multiset(a)| == |b|;
    if a != [] {
      SameFirst(all, ctx, a, b, head, n);
      TailInOrder(all, ctx, a, head, n);
      TailInOrder(all, ctx, b, head, n);
      SortUnique(all, ctx, a[1..], b[1..], head, n);
      assert a == [a[0]] + a[1..] && b == [b[0]] + b[1..];
    }
  }

  // ----- who plays first -----

  function OrderOf(all: seq<Card>, ctx: RuleContext, m: Transfer): (r: int)
    ensures r >= 2
  {
    RankOrder(CardById(all, m.cardId), ctx)
  }

  /** The highest order among the first `k` tributes and, in order, the seats that paid it. */
  function Highest(all: seq<Card>, ctx: RuleContext, tributes: seq<Transfer>, k: nat): (int, seq<int>)
    requires k <= |tributes|
  {
    if k == 0 then (-1, [])
    else
      var (order, seats) := Highest(all, ctx, tributes, k - 1);
      var m := tributes[k - 1];
      if OrderOf(all, ctx, m) > order then (OrderOf(all, ctx, m), [m.fromSeat])
      else if OrderOf(all, ctx, m) == order then (order, seats + [m.fromSeat])
      else (order, seats)
  }

  function FirstPlayer(result: Outcome, head: int, t: Table, ctx: RuleContext, prev: Previous): int
    requires t.playerCount <= |prev.ranks|
  {
    if result.antiTribute || result.skipped || result.tributes == [] then head
    else
      var seats := Highest(t.allCards, ctx, result.tributes, |result.tributes|).1;
      var last := RankSeat(prev.ranks, t.playerCount, t.playerCount);
      if |seats| == 1 then seats[0] else if last >= 0 then last else head
  }

  method ComputeFirstPlayerSeat(result: Outcome, head: int, state: GameState, ctx: RuleContext, prev: Previous)
      returns (seat: int)
    requires state.playerCount <= |prev.ranks|
    ensures seat == FirstPlayer(result, head, state.View(), ctx, prev)
  {
    if result.antiTribute || result.skipped || result.tributes == [] {
      return head;
    }
    var maxOrder := -1;
    var maxSeats: seq<int> := [];
    for i := 0 to |result.tributes|
      invariant (maxOrder, maxSeats) == Highest(state.allCards, ctx, result.tributes, i)
    {
      var order := RankOrder(CardById(state.allCards, result.tributes[i].cardId), ctx);
      if order > maxOrder {
        maxOrder := order;
        maxSeats := [result.tributes[i].fromSeat];
      } else if order == maxOrder {
        maxSeats := maxSeats + [result.tributes[i].fromSeat];
      }
    }
    if |maxSeats| == 1 {
      return maxSeats[0];
    }
    var lastSeat := SeatByFinishRank(prev.ranks, state.playerCount, state.playerCount);
    return if lastSeat >= 0 then lastSeat else head;
  }

  /** The tribute of position `i` outranks all others. */
  ghost predicate Outranks(all: seq<Card>, ctx: RuleContext, tributes: seq<Transfer>, k: nat, i: int) {
    0 <= i < k <= |tributes| && forall j :: 0 <= j < k && j != i ==>
        OrderOf(all, ctx, tributes[j]) < OrderOf(all, ctx, tributes[i])
  }

  lemma {:induction false} HighestOrder(all: seq<Card>, ctx: RuleContext, tributes: seq<Transfer>, k: nat)
    requires k <= |tributes|
    ensures var r := Highest(all, ctx, tributes, k);
            if k == 0 then r == (-1, [])
            else r.1 != [] && (forall i :: 0 <= i < k ==> OrderOf(all, ctx, tributes[i]) <= r.0)
                 && exists i :: 0 <= i < k && OrderOf(all, ctx, tributes[i]) == r.0
  {
    if k > 0 {
      HighestOrder(all, ctx, tributes, k - 1);
    }
  }

  lemma {:induction false} HighestPayer(all: seq<Card>, ctx: RuleContext, tributes: seq<Transfer>, k: nat, i: int)
    requires Outranks(all, ctx, tributes, k, i)
    ensures Highest(all, ctx, tributes, k).1 == [tributes[i].fromSeat]
  {
    HighestOrder(all, ctx, tributes, k - 1);
    hide OrderOf;
    if i < k - 1 {
      assert Outranks(all, ctx, tributes, k - 1, i);
      HighestPayer(all, ctx, tributes, k - 1, i);
    }
  }

  lemma {:induction false} HighestAlone(all: seq<Card>, ctx: RuleContext, tributes: seq<Transfer>, k: nat)
      returns (i: int)
    requires k <= |tributes| && |Highest(all, ctx, tributes, k).1| == 1
    ensures Outranks(all, ctx, tributes, k, i)
  {
    HighestOrder(all, ctx, tributes, k - 1);
    HighestOrder(all, ctx, tributes, k);
    hide OrderOf;
    if OrderOf(all, ctx, tributes[k - 1]) > Highest(all, ctx, tributes, k - 1).0 {
      i := k - 1;
    } else {
      i := HighestAlone(all, ctx, tributes, k - 1);
    }
  }

  /** The payer of the one highest tribute plays first; if the highest tributes tie, the last seat of the
      previous round does. */
  lemma FirstPlayerMeaning(result: Outcome, head: int, t: Table, ctx: RuleContext, prev: Previous)
    requires t.playerCount <= |prev.ranks| && PermRanks(prev.ranks, t.playerCount)
    requires !result.antiTribute && !result.skipped && result.tributes != []
    ensures forall i :: Outranks(t.allCards, ctx, result.tributes, |result.tributes|, i) ==>
                          FirstPlayer(result, head, t, ctx, prev) == result.tributes[i].fromSeat
    ensures (forall i :: !Outranks(t.allCards, ctx, result.tributes, |result.tributes|, i)) ==>
              FirstPlayer(result, head, t, ctx, prev) == RankSeat(prev.ranks, t.playerCount, t.playerCount)
  {
    hide OrderOf, RankSeat, Highest;
    var all, k := t.allCards, |result.tributes|;
    forall i | Outranks(all, ctx, result.tributes, k, i)
      ensures Highest(all, ctx, result.tributes, k).1 == [result.tributes[i].fromSeat]
    {
      HighestPayer(all, ctx, result.tributes, k, i);
    }
    if |Highest(all, ctx, result.tributes, k).1| == 1 {
      var i := HighestAlone(all, ctx, result.tributes, k);
    }
  }

  // ----- the whole round -----

  /** What the first `k` tributers have to pay, except where that is id 0. */
  function RequiredFrom(t: Table, ctx: RuleContext, seats: seq<int>, k: nat): (m: map<int, CardId>)
    requires SeatsExist(t, seats) && k <= |seats|
  {
    if k == 0 then map[]
    else
      var id := RequiredTribute(t.allCards, ctx, t.players[seats[k - 1]].hand);
      if id != 0 then RequiredFrom(t, ctx, seats, k - 1)[seats[k - 1] := id] else RequiredFrom(t, ctx, seats, k - 1)
  }

  /** The recipients of the first `k` tributes return the bot's choice, one after another. */
  function ReturnsFrom(all: seq<Card>, ctx: RuleContext, p: seq<Player>, tributes: seq<Transfer>,
      k: nat): (r: (seq<Player>, seq<Transfer>))
    requires k <= |tributes| && forall i :: 0 <= i < |tributes| ==> 0 <= tributes[i].toSeat < |p|
    ensures |r.0| == |p|
  {
    if k == 0 then (p, [])
    else
      var (q, returned) := ReturnsFrom(all, ctx, p, tributes, k - 1);
      var m := tributes[k - 1];
      var id := PickReturn(all, ctx, q[m.toSeat].hand);
      if id == 0 then (q, returned)
      else
        var back := Transfer(m.toSeat, m.fromSeat, id);
        (MoveCard(q, back), returned + [back])
  }

  /** The first tribute to a seat. */
  function PayerOf(tributes: seq<Transfer>, seat: int, k: nat): int
    requires k <= |tributes|
    decreases |tributes| - k
  {
    if k == |tributes| then -1 else if tributes[k].toSeat == seat then tributes[k].fromSeat
        else PayerOf(tributes, seat, k + 1)
  }

  predicate PlanInGame(plan: Plan, n: int) {
    SeatsInGame(plan.tributerSeats, n) && SeatsInGame(plan.recipientSeats, n)
  }

  lemma {:induction false} SeatsOfRanksInGame(t: Table, cfg: Config, prev: Previous)
    requires t.playerCount <= |t.players| == |prev.ranks|
    ensures PlanInGame(PlanRound(t, cfg, prev), t.playerCount)
  {
    hide RankSeat, AntiTribute, TeamFirst;
  }

  lemma TributesInGame(t: Table, ctx: RuleContext, plan: Plan, submissions: map<int, CardId>)
    requires PlanInGame(plan, t.playerCount)
    ensures forall i :: 0 <= i < |TributesOf(t, ctx, plan, submissions)| ==>
                          && 0 <= TributesOf(t, ctx, plan, submissions)[i].fromSeat < t.playerCount
                          && 0 <= TributesOf(t, ctx, plan, submissions)[i].toSeat < t.playerCount
  {
    hide Sorted, PendingOf, Assigned;
    if t.playerCount > 0 {
      SortedInGame(t.allCards, ctx, plan, submissions, t.playerCount);
    }
  }

  /** resolveRound: the players and the outcome after tribute and return. */
  function Resolve(t: Table, cfg: Config, prev: Previous, ctx: RuleContext): (r: (seq<Player>, Outcome))
    requires 0 < t.playerCount <= |t.players| == |prev.ranks|
  {
    var plan := PlanRound(t, cfg, prev);
    if plan.skipped then (t.players, NO_OUTCOME.(skipped := true, firstPlayerSeat := plan.headSeat,
        summary := plan.summary))
    else if plan.antiTribute then (t.players,
        NO_OUTCOME.(antiTribute := true, firstPlayerSeat := plan.headSeat, summary := plan.summary))
    else
      SeatsOfRanksInGame(t, cfg, prev);
      var submissions := RequiredFrom(t, ctx, plan.tributerSeats, |plan.tributerSeats|);
      TributesInGame(t, ctx, plan, submissions);
      var tributes := TributesOf(t, ctx, plan, submissions);
      var paid := MoveCards(t.players, tributes, |tributes|);
      var o := NO_OUTCOME.(tributes := tributes, summary := AssignSummary(plan, submissions));
      if tributes == [] then (paid, o.(firstPlayerSeat := plan.headSeat))
      else
        var (settled, returned) := ReturnsFrom(t.allCards, ctx, paid, tributes, |tributes|);
        (settled, o.(returned := returned, headTributerSeat := PayerOf(tributes, plan.headSeat, 0),
                     firstPlayerSeat := FirstPlayer(o, plan.headSeat, t, ctx, prev)))
  }

  method CollectRequired(state: GameState, ctx: RuleContext, seats: seq<int>) returns (submissions: map<int, CardId>)
    requires SeatsExist(state.View(), seats)
    ensures submissions == RequiredFrom(state.View(), ctx, seats, |seats|)
  {
    hide RequiredTribute;
    submissions := map[];
    for i := 0 to |seats|
      invariant submissions == RequiredFrom(state.View(), ctx, seats, i)
    {
      var seat := seats[i];
      var cardId := PickBestTributeCard(state.allCards, ctx, state.players[seat].hand);
      if cardId != 0 {
        submissions := submissions[seat := cardId];
      }
    }
  }

  method ReturnCards(state: GameState, ctx: RuleContext, tributes: seq<Transfer>) returns (returned: seq<Transfer>)
    requires forall i :: 0 <= i < |tributes| ==>
               0 <= tributes[i].fromSeat < |state.players| && 0 <= tributes[i].toSeat < |state.players|
    modifies state
    ensures var r := ReturnsFrom(old(state.allCards), ctx, old(state.players), tributes, |tributes|);
            state.View() == old(state.View()).(players := r.0) && returned == r.1
  {
    hide MoveCard, PickReturn;
    ghost var before := state.View();
    returned := [];
    for i := 0 to |tributes|
      invariant state.View() == before.(players := ReturnsFrom(before.allCards, ctx, before.players, tributes, i).0)
      invariant returned == ReturnsFrom(before.allCards, ctx, before.players, tributes, i).1
    {
      var m := tributes[i];
      var returnId := PickReturnCard(state.allCards, ctx, state.players[m.toSeat].hand);
      if returnId == 0 {
        continue;
      }
      var back := Transfer(m.toSeat, m.fromSeat, returnId);
      TransferCard(state, back);
      returned := returned + [back];
    }
  }

  method FindPayer(tributes: seq<Transfer>, seat: int) returns (payer: int)
    ensures payer == PayerOf(tributes, seat, 0)
  {
    for i := 0 to |tributes|
      invariant PayerOf(tributes, seat, 0) == PayerOf(tributes, seat, i)
    {
      if tributes[i].toSeat == seat {
        return tributes[i].fromSeat;
      }
    }
    return -1;
  }

  method ResolveRound(state: GameState, cfg: Config, prev: Previous, ctx: RuleContext) returns (result: Outcome)
    requires 0 < state.playerCount <= |state.players| == |prev.ranks|
    modifies state
    ensures var r := Resolve(old(state.View()), cfg, prev, ctx);
            state.View() == old(state.View()).(players := r.0) && result == r.1
  {
    hide PlanRound, MoveCards, TributesOf, ReturnsFrom, RequiredFrom, AssignSummary, Highest, RankSeat;
    var plan := PlanTribute(state, cfg, prev);
    SeatsOfRanksInGame(state.View(), cfg, prev);
    if plan.skipped {
      return NO_OUTCOME.(skipped := true, firstPlayerSeat := plan.headSeat, summary := plan.summary);
    }
    if plan.antiTribute {
      return NO_OUTCOME.(antiTribute := true, firstPlayerSeat := plan.headSeat, summary := plan.summary);
    }
    var submissions := CollectRequired(state, ctx, plan.tributerSeats);
    TributesInGame(state.View(), ctx, plan, submissions);
    result := AssignTributes(state, ctx, plan, submissions, NO_OUTCOME);
    if result.tributes == [] {
      return result.(firstPlayerSeat := plan.headSeat);
    }
    var returned := ReturnCards(state, ctx, result.tributes);
    var payer := FindPayer(result.tributes, plan.headSeat);
    result := result.(returned := returned, headTributerSeat := payer);
    var first := ComputeFirstPlayerSeat(result, plan.headSeat, state, ctx, prev);
    result := result.(firstPlayerSeat := first);
  }
}
