/** Every accepted play or pass keeps the invariant of the round. */
module RoundProofs {
  import opened Cards
  import opened Shapes
  import opened Patterns
  import opened Rules
  import opened State
  import opened Seats
  import opened Turns
  import opened FinishRanks
  import opened Settlements
  import opened Hands
  import opened Round

  /** Moving on from `a` goes to the first active seat, with no active seat in between. */
  lemma NextActiveGap(p: seq<Player>, n: int, a: int, s: int)
    requires 0 <= a < n <= |p| && Active(p, n, s) && s != a
    ensures var b := NextActive(p, n, a);
            b != a && Active(p, n, b) && Arc(p, n, a, Dist(a, b, n) - 1) == []
  {
    NextActiveIsActive(p, n, a, s);
    GapFrom(p, n, a, 1);
    ArcGrows(p, n, a, 0, Dist(a, NextActive(p, n, a), n) - 1);
  }

  lemma {:induction false} GapFrom(p: seq<Player>, n: int, a: int, k: int)
    requires 0 <= a < n <= |p| && 1 <= k <= n + 1
    ensures var b := NextFrom(p, n, a, k); forall j :: k <= j < Dist(a, b, n) ==> !Active(p, n, Step(a, j, n))
    decreases n + 1 - k
  {
    if k <= n && p[Step(a, k, n)].hasFinished {
      GapFrom(p, n, a, k + 1);
    }
  }

  /** The other team's active seat. */
  lemma OtherActive(p: seq<Player>, n: int, a: int) returns (s: int)
    requires 0 <= a < n <= |p| && TeamActive(p, n, 0) && TeamActive(p, n, 1)
    ensures Active(p, n, s) && s != a
  {
    var x :| Active(p, n, x) && p[x].team == 0;
    var y :| Active(p, n, y) && p[y].team == 1;
    s := if x == a then y else x;
  }

  /** After a play the turn goes to the next active seat; the skip loop has nothing to skip. */
  lemma NextTurnTrick(t: Table)
    requires Seated(t) && TeamActive(t.players, t.playerCount, 0) && TeamActive(t.players, t.playerCount, 1)
    requires t.lastPattern.isValid && t.lastPlayedPlayerIndex == t.currentPlayerIndex && t.passCount == 0
    ensures NextTurn(t) == AdvanceTurn(t)
    ensures Trick(NextTurn(t), []) && Active(t.players, t.playerCount, NextTurn(t).currentPlayerIndex)
  {
    var s := OtherActive(t.players, t.playerCount, t.currentPlayerIndex);
    NextActiveGap(t.players, t.playerCount, t.currentPlayerIndex, s);
  }

  lemma TeamSet(n: int, ppt: nat, team: int) returns (m: set<int>)
    requires (ppt == 2 || ppt == 3) && n == 2 * ppt && (team == 0 || team == 1)
    ensures |m| == ppt && forall s :: s in m <==> 0 <= s < n && s % 2 == team
  {
    m := if ppt == 2 then {team, team + 2} else {team, team + 2, team + 4};
  }

  /** As long as no team has won, both teams keep an active member. */
  lemma NotWonActive(p: seq<Player>, n: int, ppt: nat, team: int)
    requires TeamsAlternate(p, n, ppt) && !TeamWin(p, ppt) && (team == 0 || team == 1)
    ensures TeamActive(p, n, team)
  {
    var m := TeamSet(n, ppt, team);
    if !TeamActive(p, n, team) {
      forall s | s in m
        ensures s in TeamFinished(p, |p|, team)
      {
        assert !Active(p, n, s);
        assert s in Range(|p|);
      }
      SubsetSize(m, TeamFinished(p, |p|, team));
    }
  }

  lemma SubsetSize<T>(a: set<T>, b: set<T>)
    requires a <= b
    ensures |a| <= |b|
  {
    assert |b - a| == |b| - |a|;
  }

  lemma NextRankIs(p: seq<Player>, n: int, order: seq<int>)
    requires FinishOrder(p, n, order) && IdleSeats(p, n)
    ensures NextRank(p) == |order| + 1
  {
    FinishedCount(p, n, order);
    assert FinishedSeats(p, |p|) == FinishedSeats(p, n);
  }

  lemma TeamActiveSame(p: seq<Player>, q: seq<Player>, n: int, team: int)
    requires TeamActive(p, n, team) && |p| == |q|
    requires forall s :: 0 <= s < n ==> q[s].hasFinished == p[s].hasFinished && q[s].team == p[s].team
    ensures TeamActive(q, n, team)
  {
    var s :| Active(p, n, s) && p[s].team == team;
    assert Active(q, n, s);
  }

  /** The seats after a play that leaves cards: the same seats have gone out. */
  lemma HoldsOn(p: seq<Player>, n: int, ppt: nat, order: seq<int>, s: int, hand: seq<CardId>)
    requires Standing(p, n, ppt, order) && Active(p, n, s) && hand != []
    ensures Standing(p[s := p[s].(hand := hand)], n, ppt, order)
  {
  }

  /** The seats after a play of the last cards: the player is the next to go out. */
  lemma GoesOut(p: seq<Player>, n: int, ppt: nat, order: seq<int>, s: int)
    requires Standing(p, n, ppt, order) && Active(p, n, s)
    ensures var q := p[s := p[s].(hand := [])]; Standing(Finish(q, s, NextRank(q)), n, ppt, order + [s])
  {
    hide FinishOrder, NextRank;
    var q := p[s := p[s].(hand := [])];
    OrderIgnoresHands(p, q, n, order);
    NextRankIs(q, n, order);
    FinishExtends(q, n, order, s);
  }

  lemma OrderIgnoresHands(p: seq<Player>, q: seq<Player>, n: int, order: seq<int>)
    requires FinishOrder(p, n, order) && |p| == |q|
    requires forall s :: 0 <= s < |p| ==> q[s].hasFinished == p[s].hasFinished && q[s].finishRank == p[s].finishRank
    ensures FinishOrder(q, n, order)
  {
  }

  /** The seats once the cards lie on the table. */
  lemma LaidStanding(t: Table, cfg: Config, order: seq<int>, passers: seq<int>, cards: seq<CardId>)
    requires RoundInv(t, cfg.playersPerTeam, order, passers)
    ensures Standing(Laid(t, cfg, cards).players, t.playerCount, cfg.playersPerTeam, OrderAfter(t, order, cards))
  {
    var p, n, ppt, s := t.players, t.playerCount, cfg.playersPerTeam, t.currentPlayerIndex;
    var hand := HandAfter(p[s].hand, cards);
    hide Standing, Trick, TeamActive, Analyze, HandAfter;
    if hand != [] {
      HoldsOn(p, n, ppt, order, s, hand);
    } else {
      GoesOut(p, n, ppt, order, s);
    }
    hide NextRank;
  }

  /** The seats that have gone out once the current player has played `cards`. */
  function OrderAfter(t: Table, order: seq<int>, cards: seq<CardId>): seq<int>
    requires Seated(t)
  {
    if HandAfter(t.players[t.currentPlayerIndex].hand, cards) == [] then order + [t.currentPlayerIndex] else order
  }

  /** What `Laid` does to the rest of the table. */
  lemma LaidTable(t: Table, cfg: Config, cards: seq<CardId>)
    requires Seated(t)
    ensures var u := Laid(t, cfg, cards);
            && u.phase == t.phase && u.turnId == t.turnId && u.playerCount == t.playerCount
                && u.currentPlayerIndex == t.currentPlayerIndex
            && u.lastPattern == PatternOf(t, cfg, cards) && u.lastPlayedPlayerIndex == t.currentPlayerIndex
                && u.passCount == 0
    ensures HandAfter(t.players[t.currentPlayerIndex].hand, cards) != [] ==>
              forall s :: 0 <= s < |t.players| ==>
                  Laid(t, cfg, cards).players[s] == t.players[s].(hand := Laid(t, cfg, cards).players[s].hand)
  {
    hide Analyze, HandAfter;
  }

  /** An accepted play that does not end the round: the trick has a new owner and no passers, the turn
      moves on by one, and both teams are still in. */
  lemma PlayKeepsRound(t: Table, cfg: Config, order: seq<int>, passers: seq<int>, cards: seq<CardId>)
    requires RoundInv(t, cfg.playersPerTeam, order, passers) && PatternOf(t, cfg, cards).isValid
    requires !PlayEnds(t, cfg, cards)
    ensures var t' := PlayTable(t, cfg, cards);
            && RoundInv(t', cfg.playersPerTeam, OrderAfter(t, order, cards), [])
            && t'.turnId == t.turnId + 1 && t'.lastPattern == PatternOf(t, cfg, cards)
                && t'.lastPlayedPlayerIndex == t.currentPlayerIndex
  {
    var n, ppt := t.playerCount, cfg.playersPerTeam;
    var u := Laid(t, cfg, cards);
    LaidStanding(t, cfg, order, passers, cards);
    LaidTable(t, cfg, cards);
    StandingTeams(u.players, n, ppt, OrderAfter(t, order, cards));
    hide Standing, Analyze, Arc, HandAfter, Laid, FinishOrder;
    if HandAfter(t.players[t.currentPlayerIndex].hand, cards) == [] {
      NotWonActive(u.players, n, ppt, 0);
      NotWonActive(u.players, n, ppt, 1);
    } else {
      TeamActiveSame(t.players, u.players, n, 0);
      TeamActiveSame(t.players, u.players, n, 1);
    }
    hide TeamWin, TeamsAlternate;
    NextTurnTrick(u);
    hide TeamActive, NextTurn;
  }

  lemma StandingTeams(p: seq<Player>, n: int, ppt: nat, order: seq<int>)
    requires Standing(p, n, ppt, order)
    ensures TeamsAlternate(p, n, ppt) && FinishOrder(p, n, order)
  {
  }

  /** The seats not in `order`, clockwise from `a`. */
  function ClockwiseRest(n: int, a: int, order: seq<int>, d: int): seq<int>
    requires 0 <= a < n && 0 <= d <= n
  {
    if d == 0 then []
    else ClockwiseRest(n, a, order, d - 1) + if Step(a, d, n) in order then [] else [Step(a, d, n)]
  }

  lemma {:induction false} ArcIsRest(p: seq<Player>, n: int, a: int, order: seq<int>, d: int)
    requires FinishOrder(p, n, order) && 0 <= a < n && 0 <= d <= n
    ensures Arc(p, n, a, d) == ClockwiseRest(n, a, order, d)
  {
    if d > 0 {
      ArcIsRest(p, n, a, order, d - 1);
      Membership(p, n, order, Step(a, d, n));
    }
  }

  /** All seats of one team are among those that have gone out. */
  ghost predicate TeamOut(n: int, order: seq<int>) {
    exists team :: (team == 0 || team == 1) && AllOut(n, order, team)
  }

  ghost predicate AllOut(n: int, order: seq<int>, team: int) {
    forall s :: 0 <= s < n && s % 2 == team ==> s in order
  }

  /** As long as both teams have an active member, no team is out. */
  lemma NobodyIsOut(p: seq<Player>, n: int, ppt: nat, order: seq<int>)
    requires Standing(p, n, ppt, order) && TeamActive(p, n, 0) && TeamActive(p, n, 1)
    ensures !TeamOut(n, order)
  {
    var x :| Active(p, n, x) && p[x].team == 0;
    var y :| Active(p, n, y) && p[y].team == 1;
    assert x % 2 == 0 && y % 2 == 1;
  }

  /** A team that has won is out. */
  lemma WonIsOut(p: seq<Player>, n: int, ppt: nat, order: seq<int>)
    requires Standing(p, n, ppt, order) && TeamWin(p, ppt)
    ensures TeamOut(n, order)
  {
    var team := if |TeamFinished(p, |p|, 0)| >= ppt then 0 else 1;
    var m := TeamSet(n, ppt, team);
    var finished := TeamFinished(p, |p|, team);
    forall s | s in finished
      ensures s in m
    {
      assert 0 <= s < n;
    }
    SubsetSize(finished, m);
    SubsetOfSameSize(finished, m);
    forall s | 0 <= s < n && s % 2 == team
      ensures s in order
    {
      assert s in m && s in finished;
    }
    assert AllOut(n, order, team);
  }

  /** How a round stands when it is over: it ended with the play that brought the last member of some
      team out; the seats that went out are those without cards, and hold the first ranks in the order
      they went out, the others the following ranks clockwise after the last of them. */
  ghost predicate RoundOver(t: Table, ppt: nat, order: seq<int>) {
    && t.phase == Finished && Seated(t) && TeamsAlternate(t.players, t.playerCount, ppt)
        && IdleSeats(t.players, t.playerCount)
    && order != [] && (forall i :: 0 <= i < |order| ==> 0 <= order[i] < t.playerCount)
    && (forall s :: 0 <= s < t.playerCount ==> (s in order <==> t.players[s].hand == []))
    && TeamOut(t.playerCount, order) && !TeamOut(t.playerCount, order[..|order| - 1])
    && FinishOrder(t.players, t.playerCount, order
        + ClockwiseRest(t.playerCount, order[|order| - 1], order, t.playerCount))
    && RankPermutation(t.players, t.playerCount)
  }

  lemma SeatsAtEnd(p: seq<Player>, n: int, ppt: nat, order: seq<int>, s: int)
    requires Standing(p, n, ppt, order) && order != [] && s == order[|order| - 1]
    ensures 0 <= s < n
    ensures var q := AssignRemaining(p, n);
            && TeamsAlternate(q, n, ppt) && IdleSeats(q, n)
            && FinishOrder(q, n, order + ClockwiseRest(n, s, order, n)) && RankPermutation(q, n)
            && forall s :: 0 <= s < n ==> (s in order <==> q[s].hand == [])
  {
    AssignRemainingIdle(p, n);
    AssignRemainingOrder(p, n, order);
    ArcIsRest(p, n, s, order, n);
    hide FinishOrder, RankPermutation;
  }

  /** The play that completes a team ends the round with every seat ranked. */
  lemma PlayEndsRound(t: Table, cfg: Config, order: seq<int>, passers: seq<int>, cards: seq<CardId>)
    requires RoundInv(t, cfg.playersPerTeam, order, passers) && PlayEnds(t, cfg, cards)
    ensures RoundOver(PlayTable(t, cfg, cards), cfg.playersPerTeam, order + [t.currentPlayerIndex])
    ensures PlayTable(t, cfg, cards).turnId == t.turnId
  {
    hide Standing, Trick, TeamActive, Analyze, FinishOrder, RankPermutation, TeamsAlternate, IdleSeats, TeamWin, Laid;
    hide HandAfter;
    hide AssignRemaining, ClockwiseRest, TeamOut;
    NobodyIsOut(t.players, t.playerCount, cfg.playersPerTeam, order);
    var n, s, order' := t.playerCount, t.currentPlayerIndex, order + [t.currentPlayerIndex];
    var u := Laid(t, cfg, cards);
    LaidStanding(t, cfg, order, passers, cards);
    LaidTable(t, cfg, cards);
    SeatsAtEnd(u.players, n, cfg.playersPerTeam, order', s);
    WonIsOut(u.players, n, cfg.playersPerTeam, order');
    assert order'[..|order'| - 1] == order;
    OrderSeats(u.players, n, cfg.playersPerTeam, order');
  }

  lemma OrderSeats(p: seq<Player>, n: int, ppt: nat, order: seq<int>)
    requires Standing(p, n, ppt, order)
    ensures forall i :: 0 <= i < |order| ==> 0 <= order[i] < n
  {
  }

  // ----- passing -----

  /** The seats that have to answer are the active seats of the full arc but its owner. */
  lemma RespondersAreArc(t: Table)
    requires Seated(t) && 0 <= t.lastPlayedPlayerIndex < t.playerCount
    ensures |Responders(t, t.playerCount)| ==
              |Arc(t.players, t.playerCount, t.lastPlayedPlayerIndex, t.playerCount - 1)|
  {
    var n, a := t.playerCount, t.lastPlayedPlayerIndex;
    var arc := Arc(t.players, n, a, n - 1);
    ArcMembers(t.players, n, a, n - 1);
    NoDuplicatesSize(arc);
    forall s
      ensures s in ToSet(arc) <==> s in Responders(t, n)
    {
      assert s in ToSet(arc) <==> s in arc;
      assert 0 <= s < n && s != a ==> Dist(a, s, n) <= n - 1;
    }
    assert ToSet(arc) == Responders(t, n);
  }

  /** The passers after one more pass are the arc up to the seat that passes. */
  lemma ArcSnoc(p: seq<Player>, n: int, a: int, s: int)
    requires 0 <= a < n <= |p| && Active(p, n, s)
    ensures Arc(p, n, a, Dist(a, s, n)) == Arc(p, n, a, Dist(a, s, n) - 1) + [s]
  {
  }

  lemma StepBeyond(a: int, d: int, j: int, n: int)
    requires 0 <= a < n && 0 <= d < n && 0 <= j && d + j <= n
    ensures Step(Step(a, d, n), j, n) == Step(a, d + j, n)
  {
  }

  /** Whether any active seat is left between the one that passes and the owner of the trick. */
  ghost predicate SomeoneLeft(p: seq<Player>, n: int, a: int, d: int)
    requires 0 <= a < n && 0 <= d
  {
    exists e :: d < e < n && Active(p, n, Step(a, e, n))
  }

  lemma TrickOverIff(t: Table)
    requires Seated(t) && t.passCount > 0
    requires 0 <= t.lastPlayedPlayerIndex < t.playerCount && t.lastPlayedPlayerIndex != t.currentPlayerIndex
    requires t.passCount == |Arc(t.players, t.playerCount, t.lastPlayedPlayerIndex,
               Dist(t.lastPlayedPlayerIndex, t.currentPlayerIndex, t.playerCount))|
    ensures TrickOver(t) <==> !SomeoneLeft(t.players, t.playerCount, t.lastPlayedPlayerIndex,
              Dist(t.lastPlayedPlayerIndex, t.currentPlayerIndex, t.playerCount))
  {
    hide Arc, Responders, NextActive, Active;
    var p, n, a, s := t.players, t.playerCount, t.lastPlayedPlayerIndex, t.currentPlayerIndex;
    var d := Dist(a, s, n);
    assert 0 < d < n && Step(a, d, n) == s;
    hide Dist, Step;
    RespondersAreArc(t);
    ArcGrows(p, n, a, d, n - 1);
    if SomeoneLeft(p, n, a, d) {
      var e := FirstLeft(p, n, a, d);
    }
  }

  /** The turn goes to the first active seat that is left. */
  lemma FirstLeft(p: seq<Player>, n: int, a: int, d: int) returns (e: int)
    requires 0 <= a < n <= |p| && 0 < d < n && SomeoneLeft(p, n, a, d)
    ensures d < e < n && NextActive(p, n, Step(a, d, n)) == Step(a, e, n) && Active(p, n, Step(a, e, n))
    ensures Arc(p, n, a, e - 1) == Arc(p, n, a, d)
    ensures Step(a, e, n) != a
  {
    e := d + 1;
    while !Active(p, n, Step(a, e, n))
      invariant d < e < n
      invariant forall j :: d < j < e ==> !Active(p, n, Step(a, j, n))
      invariant exists k :: e <= k < n && Active(p, n, Step(a, k, n))
      decreases n - e
    {
      e := e + 1;
    }
    StepBeyond(a, d, e - d, n);
    forall j | 1 <= j < e - d
      ensures !Active(p, n, Step(Step(a, d, n), j, n))
    {
      StepBeyond(a, d, j, n);
    }
    NextFromIs(p, n, Step(a, d, n), 1, e - d);
    ArcGrows(p, n, a, d, e - 1);
  }

  /** A finished leader's first active teammate takes the lead. */
  lemma {:induction false} WindFinds(p: seq<Player>, n: int, leader: int, k: int, s: int)
    requires 0 <= leader < n <= |p| && Active(p, n, s) && 1 <= k <= Dist(leader, s, n)
    requires p[s].team == p[leader].team
    ensures var w := WindFrom(p, n, leader, k); Active(p, n, w) && p[w].team == p[leader].team
    decreases n - k
  {
    if !(Active(p, n, Step(leader, k, n)) && p[Step(leader, k, n)].team == p[leader].team) {
      WindFinds(p, n, leader, k + 1, s);
    }
  }

  /** The scan passes over no active teammate. */
  lemma {:induction false} WindIsFirst(p: seq<Player>, n: int, leader: int, k: int)
    requires 0 <= leader < n <= |p| && 1 <= k <= n + 1
    ensures forall j :: k <= j < Dist(leader, WindFrom(p, n, leader, k), n) ==>
              p[Step(leader, j, n)].team == p[leader].team ==> !Active(p, n, Step(leader, j, n))
    decreases n + 1 - k
  {
    if k <= n {
      DistOfStep(leader, k, n);
      if !(Active(p, n, Step(leader, k, n)) && p[Step(leader, k, n)].team == p[leader].team) {
        WindIsFirst(p, n, leader, k + 1);
      }
    }
  }

  /** No active seat of `a`'s team lies between `a` and `b`. */
  ghost predicate NearestTeammate(p: seq<Player>, n: int, a: int, b: int) {
    && 0 <= a < n <= |p| && 0 <= b < n
    && forall j :: 1 <= j < Dist(a, b, n) && p[Step(a, j, n)].team == p[a].team ==> !Active(p, n, Step(a, j, n))
  }

  /** The lead after a trick: its owner if still in, else the next active teammate of the owner clockwise. */
  lemma LeadAfterTrick(t: Table, winner: int)
    requires Seated(t) && 0 <= winner < t.playerCount
    requires TeamActive(t.players, t.playerCount, t.players[winner].team)
    ensures Leads(t.players, t.playerCount, winner, ResolveLead(t, winner))
  {
    var s :| Active(t.players, t.playerCount, s) && t.players[s].team == t.players[winner].team;
    if t.players[winner].hasFinished {
      WindFinds(t.players, t.playerCount, winner, 1, s);
      WindIsFirst(t.players, t.playerCount, winner, 1);
    }
  }

  /** What an accepted pass does: `all` are the passers so far with the one who passes now. While active
      seats are left to answer the trick goes on; it is over exactly when `all` are the active seats
      other than its owner, in clockwise order, and then the lead goes as below. */
  ghost predicate PassEffect(t: Table, t': Table, all: seq<int>) {
    && Seated(t) && Seated(t') && 0 <= t.lastPlayedPlayerIndex < t.playerCount
    && t'.players == t.players && t'.turnId == t.turnId + 1
    && var others := Arc(t.players, t.playerCount, t.lastPlayedPlayerIndex, t.playerCount - 1);
       (if |all| < |others| then t'.lastPattern == t.lastPattern && t'.lastPlayedPlayerIndex == t.lastPlayedPlayerIndex
        else all == others && !t'.lastPattern.isValid &&
             Leads(t.players, t.playerCount, t.lastPlayedPlayerIndex, t'.currentPlayerIndex))
  }

  /** Who leads after a trick: its owner if still in, else the next active teammate of the owner clockwise. */
  ghost predicate Leads(p: seq<Player>, n: int, owner: int, lead: int) {
    && Active(p, n, lead) && 0 <= owner < n && p[lead].team == p[owner].team
    && (if !p[owner].hasFinished then lead == owner else NearestTeammate(p, n, owner, lead))
  }

  ghost predicate PassOpen(t: Table, passers: seq<int>) {
    Trick(t, passers) && t.lastPattern.isValid && Active(t.players, t.playerCount, t.currentPlayerIndex)
  }

  function Counted(t: Table): Table {
    t.(passCount := t.passCount + 1, stateVersion := t.stateVersion + 1)
  }

  lemma PassAdvances(t: Table, passers: seq<int>) returns (e: int)
    requires PassOpen(t, passers)
    requires SomeoneLeft(t.players, t.playerCount, t.lastPlayedPlayerIndex,
               Dist(t.lastPlayedPlayerIndex, t.currentPlayerIndex, t.playerCount))
    ensures PassTable(t) == AdvanceTurn(Counted(t))
    ensures Dist(t.lastPlayedPlayerIndex, t.currentPlayerIndex, t.playerCount) < e < t.playerCount
    ensures NextActive(t.players, t.playerCount, t.currentPlayerIndex) ==
              Step(t.lastPlayedPlayerIndex, e, t.playerCount)
    ensures Active(t.players, t.playerCount, Step(t.lastPlayedPlayerIndex, e, t.playerCount))
    ensures Arc(t.players, t.playerCount, t.lastPlayedPlayerIndex, e - 1) == passers + [t.currentPlayerIndex]
  {
    var p, n, a, s := t.players, t.playerCount, t.lastPlayedPlayerIndex, t.currentPlayerIndex;
    var d := Dist(a, s, n);
    ArcSnoc(p, n, a, s);
    TrickOverIff(Counted(t));
    e := FirstLeft(p, n, a, d);
    hide Arc, TrickOver, NextActive;
  }

  lemma PassContinues(t: Table, passers: seq<int>)
    requires PassOpen(t, passers)
    requires SomeoneLeft(t.players, t.playerCount, t.lastPlayedPlayerIndex,
               Dist(t.lastPlayedPlayerIndex, t.currentPlayerIndex, t.playerCount))
    ensures PassTable(t) == AdvanceTurn(Counted(t))
    ensures PassOpen(PassTable(t), passers + [t.currentPlayerIndex])
  {
    hide PassTable, SomeoneLeft, NextActive, Arc, Step, Dist;
    var e := PassAdvances(t, passers);
    DistOfStep(t.lastPlayedPlayerIndex, e, t.playerCount);
  }

  lemma PassContinuesEffect(t: Table, passers: seq<int>)
    requires PassOpen(t, passers)
    requires SomeoneLeft(t.players, t.playerCount, t.lastPlayedPlayerIndex,
               Dist(t.lastPlayedPlayerIndex, t.currentPlayerIndex, t.playerCount))
    ensures PassEffect(t, PassTable(t), passers + [t.currentPlayerIndex])
  {
    hide PassTable, SomeoneLeft, NextActive, Arc, Step, Dist;
    var e := PassAdvances(t, passers);
    ArcGrows(t.players, t.playerCount, t.lastPlayedPlayerIndex, e - 1, t.playerCount - 1);
  }

  lemma PassResets(t: Table, passers: seq<int>)
    requires PassOpen(t, passers)
    requires TeamActive(t.players, t.playerCount, t.players[t.lastPlayedPlayerIndex].team)
    requires !SomeoneLeft(t.players, t.playerCount, t.lastPlayedPlayerIndex,
               Dist(t.lastPlayedPlayerIndex, t.currentPlayerIndex, t.playerCount))
    ensures PassTable(t) == ResetRound(Counted(t), t.lastPlayedPlayerIndex)
    ensures Active(t.players, t.playerCount, PassTable(t).currentPlayerIndex)
    ensures PassEffect(t, PassTable(t), passers + [t.currentPlayerIndex])
  {
    hide Arc, TrickOver, SomeoneLeft, ResolveLead, NextActive, NearestTeammate, TeamActive;
    LastPass(t, passers);
    LeadAfterTrick(Counted(t), t.lastPlayedPlayerIndex);
  }

  /** With nobody left to answer, the trick is over and all other active seats have passed. */
  lemma LastPass(t: Table, passers: seq<int>)
    requires PassOpen(t, passers)
    requires !SomeoneLeft(t.players, t.playerCount, t.lastPlayedPlayerIndex,
               Dist(t.lastPlayedPlayerIndex, t.currentPlayerIndex, t.playerCount))
    ensures TrickOver(Counted(t))
    ensures passers + [t.currentPlayerIndex] ==
              Arc(t.players, t.playerCount, t.lastPlayedPlayerIndex, t.playerCount - 1)
  {
    hide TrickOver, Step;
    var p, n, a, s := t.players, t.playerCount, t.lastPlayedPlayerIndex, t.currentPlayerIndex;
    ArcSnoc(p, n, a, s);
    TrickOverIff(Counted(t));
    ArcGrows(p, n, a, Dist(a, s, n), n - 1);
  }

  /** An accepted pass keeps the invariant and has the effect above. */
  lemma PassKeepsRound(t: Table, ppt: nat, order: seq<int>, passers: seq<int>)
    requires RoundInv(t, ppt, order, passers) && t.lastPattern.isValid
    ensures PassEffect(t, PassTable(t), passers + [t.currentPlayerIndex])
    ensures RoundInv(PassTable(t), ppt, order, if PassTable(t).lastPattern.isValid
              then passers + [t.currentPlayerIndex] else [])
  {
    hide Standing, Arc;
    var p, n, a := t.players, t.playerCount, t.lastPlayedPlayerIndex;
    if SomeoneLeft(p, n, a, Dist(a, t.currentPlayerIndex, n)) {
      PassContinues(t, passers);
      PassContinuesEffect(t, passers);
    } else {
      TeamOf(p, n, ppt, order, a);
      PassResets(t, passers);
    }
    hide PassTable;
  }

  lemma TeamOf(p: seq<Player>, n: int, ppt: nat, order: seq<int>, s: int)
    requires Standing(p, n, ppt, order) && 0 <= s < n
    ensures n <= |p| && (p[s].team == 0 || p[s].team == 1)
  {
  }
}
