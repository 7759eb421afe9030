/** Rounds end and never get stuck. */
module Termination {
  import opened Arithmetic
  import opened Lists
  import opened Cards
  import opened Shapes
  import opened Patterns
  import opened Rules
  import opened State
  import opened Seats
  import opened Turns
  import opened FinishRanks
  import opened Settlements
  import opened Hands
  import opened Decks
  import opened Round
  import opened RoundProofs
  import opened Readings
  import opened Runs
  import opened Conservation

  // ----- the measure -----

  /** The seats other than the owner of the trick that are still in. */
  ghost function Others(t: Table): seq<int> {
    if Seated(t) && 0 <= t.lastPlayedPlayerIndex < t.playerCount
    then Arc(t.players, t.playerCount, t.lastPlayedPlayerIndex, t.playerCount - 1) else []
  }

  /** How many of them have not passed yet. */
  ghost function Waiting(t: Table): int {
    if t.phase == Playing && t.lastPattern.isValid then |Others(t)| - t.passCount else 0
  }

  ghost function Measure(t: Table): int
    requires t.playerCount <= |t.players|
  {
    t.playerCount * |PoolOf(t)| + Waiting(t)
  }

  lemma {:induction false} ArcLength(p: seq<Player>, n: int, a: int, d: int)
    requires 0 <= a < n <= |p| && 0 <= d <= n
    ensures |Arc(p, n, a, d)| <= d
  {
    if d > 0 {
      ArcLength(p, n, a, d - 1);
    }
  }

  /** Somebody has still to answer: the current seat. */
  lemma WaitingRange(t: Table, ppt: nat, order: seq<int>, passers: seq<int>)
    requires RoundInv(t, ppt, order, passers)
    ensures t.lastPattern.isValid ==> t.passCount == |passers| && 1 <= Waiting(t) <= t.playerCount - 1
    ensures !t.lastPattern.isValid ==> Waiting(t) == 0
  {
    hide Standing, TeamActive, Arc;
    if t.lastPattern.isValid {
      var p, n, a, s := t.players, t.playerCount, t.lastPlayedPlayerIndex, t.currentPlayerIndex;
      ArcLength(p, n, a, n - 1);
      ArcSnoc(p, n, a, s);
      ArcGrows(p, n, a, Dist(a, s, n), n - 1);
    }
  }

  lemma PassWaiting(t: Table, ppt: nat, order: seq<int>, passers: seq<int>)
    requires RoundInv(t, ppt, order, passers) && t.lastPattern.isValid
    ensures Waiting(PassTable(t)) < Waiting(t)
  {
    hide Standing, TeamActive, Arc, PassTable, Trick;
    PassRound(t, ppt, order, passers);
    WaitingRange(t, ppt, order, passers);
    WaitingRange(PassTable(t), ppt, order, if PassTable(t).lastPattern.isValid then passers + [t.currentPlayerIndex]
        else []);
  }

  lemma SmallerPool(a: multiset<CardId>, b: multiset<CardId>, cards: seq<CardId>)
    requires a + multiset(cards) == b && cards != []
    ensures |a| + 1 <= |b|
  {
    assert |b| == |a| + |multiset(cards)| == |a| + |cards|;
  }

  lemma TimesLess(n: nat, a: nat, b: nat)
    requires a + 1 <= b
    ensures n * a + n <= n * b
  {
    assert n * (a + 1) == n * a + n;
    MulMonotone(a + 1, b, n);
  }

  /** Every accepted move without repeated cards lowers the pair (cards in hands, seats still to answer)
      lexicographically. */
  lemma MoveDescends(h: History, cfg: Config, startTurn: nat, m: Move)
    requires Round.Ready(h.table) && Course(h, cfg.playersPerTeam, startTurn) && MoveCode(h.table, cfg, m) == Ok
    requires Unrepeated(PoolOf(h.table)) && (m.Play? ==> NoDuplicates(m.cards))
    ensures var t, t' := h.table, After(h, cfg, m).table;
            && t'.playerCount == t.playerCount && 0 <= Waiting(t') <= t.playerCount - 1
            && (if m.Play? then |PoolOf(t')| + 1 <= |PoolOf(t)|
                else PoolOf(t') == PoolOf(t) && Waiting(t') + 1 <= Waiting(t))
            && Waiting(t) >= 0
  {
    hide RoundInv, RoundOver, PlayTable, PassTable, PatternOf, PlayCode, PassCode, OrderAfter, Unrepeated, PoolOf;
    hide NoDuplicates, Waiting, Rising;
    var t := h.table;
    var h' := After(h, cfg, m);
    match m {
      case Play(id, cards) =>
        PlayAccepted(t, cfg, id, cards);
        PlayPool(t, cfg, id, cards);
        SmallerPool(PoolOf(h'.table), PoolOf(t), cards);
        PlayCourse(h, cfg, startTurn, m);
      case Pass(id) =>
        PassAccepted(t, id);
        PassPool(t);
        PassWaiting(t, cfg.playersPerTeam, h.order, h.passers);
        PassCourse(h, cfg, startTurn, m);
    }
    WaitingRange(t, cfg.playersPerTeam, h.order, h.passers);
    CourseWaiting(h', cfg.playersPerTeam, startTurn);
  }

  lemma PassPool(t: Table)
    requires Round.Ready(t)
    ensures PoolOf(PassTable(t)) == PoolOf(t)
  {
    hide PassTable, Pool;
    PassSeats(t);
  }

  lemma CourseWaiting(h: History, ppt: nat, startTurn: nat)
    requires Round.Ready(h.table) && Course(h, ppt, startTurn)
    ensures 0 <= Waiting(h.table) <= h.table.playerCount - 1
  {
    hide RoundOver, Rising, Standing, Trick, TeamActive, Others;
    if h.table.phase == Playing {
      WaitingRange(h.table, ppt, h.order, h.passers);
    }
  }

  /** 1 for an accepted play that names a card twice. */
  ghost function RepeatAt(t: Table, cfg: Config, m: Move): nat
    requires Seated(t)
  {
    if m.Play? && MoveCode(t, cfg, m) == Ok && !NoDuplicates(m.cards) then 1 else 0
  }

  /** How many accepted plays of a run name a card twice. */
  ghost function Repeats(t: Table, cfg: Config, moves: seq<Move>): nat
    requires Round.Ready(t)
  {
    if moves == [] then 0
    else
      var k := |moves| - 1;
      Repeats(t, cfg, moves[..k]) + RepeatAt(Run(t, cfg, moves[..k]).table, cfg, moves[k])
  }

  /** A play that names a card twice takes no cards and opens a new trick. */
  lemma RepeatKeeps(h: History, cfg: Config, startTurn: nat, m: Move)
    requires Round.Ready(h.table) && Course(h, cfg.playersPerTeam, startTurn) && Unrepeated(PoolOf(h.table))
    requires RepeatAt(h.table, cfg, m) == 1
    ensures var t, t' := h.table, After(h, cfg, m).table;
            && t'.playerCount == t.playerCount && PoolOf(t') == PoolOf(t)
            && 0 <= Waiting(t) && Waiting(t') <= t.playerCount - 1
  {
    hide RoundInv, RoundOver, PlayTable, PassTable, PatternOf, PlayCode, PassCode, OrderAfter, Unrepeated, PoolOf;
    hide NoDuplicates, Waiting, Rising;
    PlayAccepted(h.table, cfg, m.player, m.cards);
    PlayPool(h.table, cfg, m.player, m.cards);
    PlayCourse(h, cfg, startTurn, m);
    CourseWaiting(h, cfg.playersPerTeam, startTurn);
    CourseWaiting(After(h, cfg, m), cfg.playersPerTeam, startTurn);
  }

  /** The measure pays for every accepted move; a play that names a card twice may refill it by one round
      of answers. */
  lemma MeasureStep(h: History, cfg: Config, startTurn: nat, m: Move)
    requires Round.Ready(h.table) && Course(h, cfg.playersPerTeam, startTurn) && MoveCode(h.table, cfg, m) == Ok
    requires Unrepeated(PoolOf(h.table))
    ensures Measure(After(h, cfg, m).table) + 1 <= Measure(h.table) + if RepeatAt(h.table, cfg, m) == 1
              then h.table.playerCount else 0
  {
    hide Course, After, PoolOf, NoDuplicates, Waiting, MoveCode, Unrepeated;
    if RepeatAt(h.table, cfg, m) == 1 {
      RepeatKeeps(h, cfg, startTurn, m);
    } else {
      MoveDescends(h, cfg, startTurn, m);
      if m.Play? {
        TimesLess(h.table.playerCount, |PoolOf(After(h, cfg, m).table)|, |PoolOf(h.table)|);
      }
    }
  }

  lemma TimesOneMore(n: nat, r: nat, extra: nat)
    requires extra <= 1
    ensures n * (r + extra) == n * r + if extra == 1 then n else 0
  {
  }

  lemma AcceptedStart(t: Table, cfg: Config)
    requires Opening(t, cfg.playersPerTeam)
    ensures var h := Run(t, cfg, []); h.accepted == 0 && h.table == t && Measure(t) == t.playerCount * |PoolOf(t)|
    ensures Repeats(t, cfg, []) == 0
  {
    hide PoolOf, Waiting;
    OpeningMeasure(t, cfg.playersPerTeam);
  }

  /** One move more, accepted or not. */
  lemma AcceptedGrows(h: History, cfg: Config, startTurn: nat, m: Move)
    requires Round.Ready(h.table) && Course(h, cfg.playersPerTeam, startTurn) && Unrepeated(PoolOf(h.table))
    ensures var h' := After(h, cfg, m);
            && h'.table.playerCount == h.table.playerCount
            && h'.accepted + Measure(h'.table) <= h.accepted + Measure(h.table) + if RepeatAt(h.table, cfg, m) == 1
                then h.table.playerCount else 0
  {
    hide Course, After, PoolOf, Measure, MoveCode, Unrepeated, RepeatAt;
    MovePool(h, cfg, m);
    AcceptedStep(h, cfg, m);
    if MoveCode(h.table, cfg, m) == Ok {
      MeasureStep(h, cfg, startTurn, m);
    }
  }

  lemma MeasureNonNegative(h: History, ppt: nat, startTurn: nat)
    requires Round.Ready(h.table) && Course(h, ppt, startTurn)
    ensures Measure(h.table) >= 0
  {
    hide Course, PoolOf, Waiting;
    CourseWaiting(h, ppt, startTurn);
    NonNegative(h.table.playerCount, |PoolOf(h.table)|);
  }

  /** Of every run: the accepted moves are at most the players times the cards dealt, and once more the
      players for every play that names a card twice. */
  lemma {:induction false} AcceptedMoves(t: Table, cfg: Config, moves: seq<Move>)
    requires Opening(t, cfg.playersPerTeam) && Unrepeated(PoolOf(t))
    ensures var h := Run(t, cfg, moves);
            && h.accepted + Measure(h.table) <= t.playerCount * |PoolOf(t)| + t.playerCount * Repeats(t, cfg, moves)
            && Measure(h.table) >= 0
  {
    hide PoolOf, Course, Measure, RepeatAt, After;
    EveryRun(t, cfg, moves);
    MeasureNonNegative(Run(t, cfg, moves), cfg.playersPerTeam, t.turnId);
    if moves == [] {
      AcceptedStart(t, cfg);
    } else {
      var k := |moves| - 1;
      var h, m := Run(t, cfg, moves[..k]), moves[k];
      AcceptedMoves(t, cfg, moves[..k]);
      EveryRun(t, cfg, moves[..k]);
      ConservedIffNoRepeats(t, cfg, moves[..k]);
      AcceptedGrows(h, cfg, t.turnId, m);
      TimesOneMore(t.playerCount, Repeats(t, cfg, moves[..k]),
          RepeatAt(h.table, cfg, m)) by { RepeatAtMostOne(h.table, cfg, m); }
    }
  }

  lemma RepeatAtMostOne(t: Table, cfg: Config, m: Move)
    requires Seated(t)
    ensures RepeatAt(t, cfg, m) <= 1
  {
  }

  lemma {:induction false} NoneRepeated(t: Table, cfg: Config, moves: seq<Move>)
    requires Round.Ready(t)
    ensures NoRepeats(t, cfg, moves) <==> Repeats(t, cfg, moves) == 0
  {
    hide NoDuplicates, MoveCode;
    if moves != [] {
      NoneRepeated(t, cfg, moves[..|moves| - 1]);
    }
  }

  /** In particular, at most players times the cards dealt if no play names a card twice. */
  lemma RoundsEnd(t: Table, cfg: Config, moves: seq<Move>)
    requires Opening(t, cfg.playersPerTeam) && Unrepeated(PoolOf(t)) && NoRepeats(t, cfg, moves)
    ensures Run(t, cfg, moves).accepted + Measure(Run(t, cfg, moves).table) <= t.playerCount * |PoolOf(t)|
  {
    hide PoolOf, Measure, Repeats;
    AcceptedMoves(t, cfg, moves);
    NoneRepeated(t, cfg, moves);
    assert t.playerCount * 0 == 0;
  }

  lemma NonNegative(a: nat, b: nat)
    ensures a * b >= 0
  {
  }

  lemma AcceptedStep(h: History, cfg: Config, m: Move)
    requires Round.Ready(h.table)
    ensures After(h, cfg, m).accepted == h.accepted + if MoveCode(h.table, cfg, m) == Ok then 1 else 0
    ensures MoveCode(h.table, cfg, m) != Ok ==> After(h, cfg, m) == h
  {
    hide PlayTable, PassTable, PatternOf, PlayCode, PassCode, OrderAfter;
  }

  lemma OpeningMeasure(t: Table, ppt: nat)
    requires Opening(t, ppt)
    ensures Waiting(t) == 0
  {
  }
}
