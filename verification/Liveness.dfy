/** Until a round is over somebody can always act; the bot always knows how. */
module Liveness {
  import opened Options
  import opened Lists
  import opened Cards
  import opened Shapes
  import opened Patterns
  import opened Rules
  import opened State
  import opened Seats
  import opened Turns
  import opened FinishRanks
  import opened Settlements
  import opened Hands
  import opened Decks
  import opened Round
  import opened RoundProofs
  import opened Readings
  import opened Runs
  import opened Conservation
  import opened Termination
  import Bot

  lemma {:induction false} SeatFromFinds(p: seq<Player>, n: nat, s: int, k: nat)
    requires DistinctIds(p, n) && k <= s < n
    ensures SeatFrom(p, n, p[s].id, k) == s
    decreases s - k
  {
    if k < s {
      SeatFromFinds(p, n, s, k + 1);
    }
  }

  lemma CurrentSeat(t: Table)
    requires Seated(t) && DistinctIds(t.players, t.playerCount)
    ensures SeatOf(t, t.players[t.currentPlayerIndex].id) == t.currentPlayerIndex
  {
    SeatFromFinds(t.players, t.playerCount, t.currentPlayerIndex, 0);
  }

  /** Everything but hands, marks and the course of the round stays. */
  ghost predicate SameGame(t: Table, u: Table) {
    && SameSeats(t.players, u.players) && u.playerCount == t.playerCount && u.allCards == t.allCards
    && u.currentLevel == t.currentLevel
  }

  lemma {:induction false} RunSameGame(t: Table, cfg: Config, moves: seq<Move>)
    requires Round.Ready(t)
    ensures SameGame(t, Run(t, cfg, moves).table)
  {
    hide PlayTable, PassTable, PatternOf, PlayCode, PassCode, OrderAfter;
    if moves != [] {
      var k := |moves| - 1;
      var u, m := Run(t, cfg, moves[..k]).table, moves[k];
      RunSameGame(t, cfg, moves[..k]);
      PassSeats(u);
      if m.Play? {
        PlaySeats(u, cfg, m.cards);
      }
    }
  }

  lemma SameDistinctIds(t: Table, u: Table)
    requires SameGame(t, u) && DistinctIds(t.players, t.playerCount)
    ensures DistinctIds(u.players, u.playerCount)
  {
  }

  lemma OneCard(t: Table, cfg: Config, id: CardId)
    ensures PatternOf(t, cfg, [id]).isValid
  {
    hide Analyze;
    assert CardsFromIds(t.allCards, [id]) == [CardById(t.allCards, id)];
    SingleAlwaysValid(CardById(t.allCards, id), Context(t, cfg));
  }

  lemma HoldsCards(t: Table, ppt: nat, order: seq<int>, passers: seq<int>)
    requires RoundInv(t, ppt, order, passers)
    ensures t.phase == Playing && Seated(t) && t.players[t.currentPlayerIndex].hand != []
    ensures !t.players[t.currentPlayerIndex].hasFinished
  {
  }

  /** The leader may always put down a single card; a follower may always pass. */
  lemma SomeMoveAccepted(t: Table, cfg: Config, order: seq<int>, passers: seq<int>) returns (m: Move)
    requires RoundInv(t, cfg.playersPerTeam, order, passers) && DistinctIds(t.players, t.playerCount)
    ensures MoveCode(t, cfg, m) == Ok
    ensures t.lastPattern.isValid ==> m.Pass?
    ensures !t.lastPattern.isValid ==> m.Play? && |m.cards| == 1
  {
    hide RoundInv, PatternOf, SeatOf, CanBeat;
    HoldsCards(t, cfg.playersPerTeam, order, passers);
    CurrentSeat(t);
    var p := t.players[t.currentPlayerIndex];
    if t.lastPattern.isValid {
      m := Pass(p.id);
    } else {
      m := Play(p.id, [p.hand[0]]);
      OneCard(t, cfg, p.hand[0]);
    }
  }

  lemma RunSnoc(t: Table, cfg: Config, moves: seq<Move>, m: Move)
    requires Round.Ready(t)
    ensures Run(t, cfg, moves + [m]) == After(Run(t, cfg, moves), cfg, m)
    ensures NoRepeats(t, cfg, moves) && (m.Play? ==> NoDuplicates(m.cards)) ==> NoRepeats(t, cfg, moves + [m])
  {
    assert (moves + [m])[..|moves|] == moves;
  }

  lemma RepeatsSnoc(t: Table, cfg: Config, moves: seq<Move>, m: Move)
    requires Round.Ready(t) && (m.Play? ==> NoDuplicates(m.cards))
    ensures Repeats(t, cfg, moves + [m]) == Repeats(t, cfg, moves)
  {
    assert (moves + [m])[..|moves|] == moves;
  }

  /** However a round has gone so far, it can be played to its end, without naming a card twice. */
  lemma {:induction false} CanComplete(t: Table, cfg: Config, moves: seq<Move>) returns (more: seq<Move>)
    requires Opening(t, cfg.playersPerTeam) && DistinctIds(t.players, t.playerCount) && Unrepeated(PoolOf(t))
    ensures RoundOver(Run(t, cfg, moves + more).table, cfg.playersPerTeam, Run(t, cfg, moves + more).order)
    ensures forall k :: 0 <= k < |more| && more[k].Play? ==> NoDuplicates(more[k].cards)
    ensures Repeats(t, cfg, moves + more) == Repeats(t, cfg, moves)
    decreases Measure(Run(t, cfg, moves).table)
  {
    hide RoundInv, RoundOver, Rising, MoveCode, PoolOf, Repeats, After, Measure, OnTable, Unrepeated, DistinctIds;
    var h := Run(t, cfg, moves);
    AcceptedMoves(t, cfg, moves);
    EveryRun(t, cfg, moves);
    if h.table.phase != Playing {
      more := [];
      assert moves + more == moves;
    } else {
      RunSameGame(t, cfg, moves);
      SameDistinctIds(t, h.table);
      ConservedIffNoRepeats(t, cfg, moves);
      var m := SomeMoveAccepted(h.table, cfg, h.order, h.passers);
      RunSnoc(t, cfg, moves, m);
      RepeatsSnoc(t, cfg, moves, m);
      MeasureStep(h, cfg, t.turnId, m);
      AcceptedMoves(t, cfg, moves + [m]);
      var rest := CanComplete(t, cfg, moves + [m]);
      more := [m] + rest;
      assert moves + more == (moves + [m]) + rest;
    }
  }

  // ----- a card named twice -----

  /** A card paired with itself shows at most one rank. */
  lemma TwinCounts(c: Card, ctx: RuleContext)
    ensures var counts := CountsTo([c, c], 2, ctx);
            forall r :: 0 <= r < 17 ==> counts[r] == if !ctx.IsWild(c) && c.rank == r then 2 else 0
  {
    forall r | 0 <= r < 17
      ensures Count([c, c], 2, ctx, r) == 2 * Shows(c, ctx, r)
    {
      assert Count([c, c], 2, ctx, r) == Count([c, c], 1, ctx, r) + Shows(c, ctx, r);
      assert Count([c, c], 1, ctx, r) == Count([c, c], 0, ctx, r) + Shows(c, ctx, r);
    }
  }

  lemma TwinsArePair(c: Card, ctx: RuleContext)
    ensures Analyze([c, c], ctx).isValid
  {
    TwinCounts(c, ctx);
    var t := TallyOf([c, c], ctx);
    assert t.total == 2;
    TwinRank(t.counts, c.rank);
  }

  lemma TwinRank(counts: Counts, r: int)
    requires 2 <= r <= 16 && forall x :: 0 <= x < 17 && x != r ==> counts[x] == 0
    ensures OneRank(counts)
  {
  }

  /** Naming the same card twice makes a valid pair that the hand admits and keeps. */
  lemma TwinPlay(t: Table, cfg: Config, order: seq<int>, passers: seq<int>) returns (m: Move)
    requires RoundInv(t, cfg.playersPerTeam, order, passers) && DistinctIds(t.players, t.playerCount)
    requires !t.lastPattern.isValid
    requires Unrepeated(PoolOf(t))
    ensures m.Play? && MoveCode(t, cfg, m) == Ok && !NoDuplicates(m.cards)
    ensures PlayTable(t, cfg, m.cards).phase == Playing
  {
    hide RoundInv, SeatOf, CanBeat, Analyze, Pool, Unrepeated, PlayTable;
    HoldsCards(t, cfg.playersPerTeam, order, passers);
    CurrentSeat(t);
    var s := t.currentPlayerIndex;
    var p := t.players[s];
    var x := p.hand[0];
    m := Play(p.id, [x, x]);
    var c := CardById(t.allCards, x);
    assert CardsFromIds(t.allCards, [x, x]) == [c, c];
    TwinsArePair(c, Context(t, cfg));
    SingleHand(HandsOf(t.players), s, t.playerCount);
    assert m.cards[0] == m.cards[1];
    hide NoDuplicates, HandAfter;
    FailedRemoval(p.hand, m.cards);
    PhaseAfterPlay(t, cfg, m.cards);
  }

  /** If plays may name a card twice, rounds need not end: from every deal there are runs of any length
      whose every move is accepted. */
  lemma {:induction false} RepeatsNeverEnd(t: Table, cfg: Config, length: nat) returns (moves: seq<Move>)
    requires Opening(t, cfg.playersPerTeam) && DistinctIds(t.players, t.playerCount) && Unrepeated(PoolOf(t))
    ensures |moves| == length == Run(t, cfg, moves).accepted && Run(t, cfg, moves).table.phase == Playing
  {
    hide RoundInv, RoundOver, Rising, MoveCode, PoolOf, NoRepeats, After, OnTable, Unrepeated, DistinctIds;
    if length == 0 {
      moves := [];
    } else {
      var before := RepeatsNeverEnd(t, cfg, length - 1);
      var h := Run(t, cfg, before);
      EveryRun(t, cfg, before);
      RunSameGame(t, cfg, before);
      SameDistinctIds(t, h.table);
      ConservedIffNoRepeats(t, cfg, before);
      var m := EndlessMove(h, cfg, t.turnId);
      moves := before + [m];
      RunSnoc(t, cfg, before, m);
    }
  }

  lemma EndlessMove(h: History, cfg: Config, startTurn: nat) returns (m: Move)
    requires Round.Ready(h.table) && Course(h, cfg.playersPerTeam, startTurn) && h.table.phase == Playing
    requires DistinctIds(h.table.players, h.table.playerCount) && Unrepeated(PoolOf(h.table))
    ensures After(h, cfg, m).accepted == h.accepted + 1 && After(h, cfg, m).table.phase == Playing
  {
    hide RoundInv, PlayTable, PassTable, PatternOf, PlayCode, PassCode, OrderAfter, Unrepeated, PoolOf, DistinctIds;
    hide PassEffect;
    var t := h.table;
    if t.lastPattern.isValid {
      m := SomeMoveAccepted(t, cfg, h.order, h.passers);
      PassRound(t, cfg.playersPerTeam, h.order, h.passers);
    } else {
      m := TwinPlay(t, cfg, h.order, h.passers);
    }
  }

  // ----- the answers -----

  predicate Known(t: Table, id: nat) {
    t.playerCount <= |t.players| && exists s :: 0 <= s < t.playerCount && t.players[s].id == id
  }

  lemma SeatOfKnown(t: Table, id: nat)
    requires Seated(t) && DistinctIds(t.players, t.playerCount)
    ensures SeatOf(t, id) >= 0 <==> Known(t, id)
    ensures SeatOf(t, id) == t.currentPlayerIndex <==> id == t.players[t.currentPlayerIndex].id
  {
    CurrentSeat(t);
    if s :| 0 <= s < t.playerCount && t.players[s].id == id {
      SeatFromFinds(t.players, t.playerCount, s, 0);
    }
  }

  /** Which answer a play gets, said of the player, the cards named and what they can be read as. */
  ghost predicate AnswersPlay(t: Table, cfg: Config, id: nat, cards: seq<CardId>, code: Code)
    requires Seated(t)
  {
    var p := t.players[t.currentPlayerIndex];
    var pattern := PatternOf(t, cfg, cards);
    var held := forall i :: 0 <= i < |cards| ==> cards[i] in p.hand;
    var readable := Readable(CardsFromIds(t.allCards, cards), Context(t, cfg));
    var beaten := t.lastPattern.isValid && !Stronger(pattern, t.lastPattern);
    && (code == InvalidState <==> !Known(t, id))
    && (code == NotYourTurn <==> Known(t, id) && id != p.id)
    && (code == InvalidCards <==> id == p.id && !held)
    && (code == InvalidPatternCode <==> id == p.id && held && !readable)
    && (code == CannotBeat <==> id == p.id && held && readable && beaten)
    && (code == Ok <==> id == p.id && held && readable && !beaten)
  }

  /** While a round is played, whatever has been played before, every play gets its answer so: exactly the
      plays of the current player from its hand that can be read as a pattern and, if something lies on the
      table, are stronger, are accepted. */
  lemma PlayAnswers(h: History, cfg: Config, startTurn: nat, id: nat, cards: seq<CardId>)
    requires Round.Ready(h.table) && Course(h, cfg.playersPerTeam, startTurn) && h.table.phase == Playing
    requires DistinctIds(h.table.players, h.table.playerCount)
    ensures AnswersPlay(h.table, cfg, id, cards, PlayCode(h.table, cfg, id, cards))
  {
    hide RoundInv, SeatOf, CanBeat, Analyze, Readable, Stronger, Known, DistinctIds, Playable;
    var t := h.table;
    HoldsCards(t, cfg.playersPerTeam, h.order, h.passers);
    SeatOfKnown(t, id);
    AnalyzeIffReadable(CardsFromIds(t.allCards, cards), Context(t, cfg));
    if PatternOf(t, cfg, cards).isValid && t.lastPattern.isValid {
      AnalyzePlayable(CardsFromIds(t.allCards, cards), Context(t, cfg));
      CanBeatIffStronger(PatternOf(t, cfg, cards), t.lastPattern);
    }
    CurrentIsKnown(t);
  }

  lemma CurrentIsKnown(t: Table)
    requires Seated(t)
    ensures Known(t, t.players[t.currentPlayerIndex].id)
  {
  }

  /** A pass is accepted exactly from the current player and with a pattern on the table. */
  lemma PassAnswers(t: Table, id: nat)
    requires Seated(t) && DistinctIds(t.players, t.playerCount) && t.phase == Playing
    ensures var turn := id == t.players[t.currentPlayerIndex].id;
            && (PassCode(t, id) == NotYourTurn <==> !turn)
            && (PassCode(t, id) == InvalidState <==> turn && !t.lastPattern.isValid)
            && (PassCode(t, id) == Ok <==> turn && t.lastPattern.isValid)
  {
    hide SeatOf, Known, DistinctIds;
    SeatOfKnown(t, id);
    CurrentIsKnown(t);
  }

  // ----- the bot -----

  /** The play is accepted, names no card twice and is no dearer than any other such play: it takes the fewest
      cards, and is of the lowest rank among those. */
  ghost predicate CheapestPlay(t: Table, cfg: Config, id: nat, play: seq<CardId>) {
    && Seated(t) && PlayCode(t, cfg, id, play) == Ok && NoDuplicates(play)
    && forall ids: seq<CardId> :: NoDuplicates(ids) && PlayCode(t, cfg, id, ids) == Ok ==>
         Bot.NoDearer(t.allCards, Context(t, cfg), play, ids)
  }

  /** No play is accepted but a pass is. */
  ghost predicate OnlyPass(t: Table, cfg: Config, id: nat) {
    Seated(t) && PassCode(t, id) == Ok && forall ids: seq<CardId> :: NoDuplicates(ids) ==>
        PlayCode(t, cfg, id, ids) != Ok
  }

  lemma OneCardLegal(t: Table, cfg: Config, hand: seq<CardId>)
    requires hand != [] && !t.lastPattern.isValid
    ensures exists ids :: Bot.PlayFrom(hand, ids) && Bot.Legal(t.allCards, ids, Context(t, cfg), t.lastPattern)
  {
    hide Analyze;
    OneCard(t, cfg, hand[0]);
    assert Bot.PlayFrom(hand, [hand[0]]) && Bot.Legal(t.allCards, [hand[0]], Context(t, cfg), t.lastPattern);
  }

  /** What the bot's search says for the current player, whatever its answer. */
  lemma BotAnswers(t: Table, cfg: Config, order: seq<int>, passers: seq<int>, best: Option<seq<CardId>>)
    requires RoundInv(t, cfg.playersPerTeam, order, passers) && DistinctIds(t.players, t.playerCount)
    requires var hand := t.players[t.currentPlayerIndex].hand;
             && NoDuplicates(hand) && |hand| <= 30
             && Bot.Best(t.allCards, hand, Context(t, cfg), t.lastPattern, Bot.Pow2(|hand|), best)
    ensures var id := t.players[t.currentPlayerIndex].id;
            if best.Some? then CheapestPlay(t, cfg, id, best.value) else OnlyPass(t, cfg, id)
  {
    hide RoundInv, SeatOf, CanBeat, Analyze, Bot.Best, Bot.NoDearer, Bot.Pow2;
    HoldsCards(t, cfg.playersPerTeam, order, passers);
    CurrentSeat(t);
    var p := t.players[t.currentPlayerIndex];
    Bot.SearchOptimal(t.allCards, p.hand, Context(t, cfg), t.lastPattern, best);
    forall ids: seq<CardId> | NoDuplicates(ids) && PlayCode(t, cfg, p.id, ids) == Ok
      ensures Bot.PlayFrom(p.hand, ids) && Bot.Legal(t.allCards, ids, Context(t, cfg), t.lastPattern)
    {
      PatternNeedsCards(t, cfg, ids);
    }
    if !t.lastPattern.isValid {
      OneCardLegal(t, cfg, p.hand);
    }
  }
}
