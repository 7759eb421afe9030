/** No card is lost or made in a round: hands and played cards together stay what was dealt, as long as
    no accepted play names a card twice. */
module Conservation {
  import opened Lists
  import opened Cards
  import opened Patterns
  import opened State
  import opened Seats
  import opened Turns
  import opened FinishRanks
  import opened Hands
  import opened Decks
  import opened Round
  import opened RoundProofs
  import opened Runs
  import Bot

  function HandsOf(p: seq<Player>): (h: seq<seq<CardId>>)
    ensures |h| == |p| && forall s :: 0 <= s < |p| ==> h[s] == p[s].hand
  {
    seq(|p|, s requires 0 <= s < |p| => p[s].hand)
  }

  /** All cards in the hands of the game's seats. */
  ghost function PoolOf(t: Table): multiset<CardId>
    requires t.playerCount <= |t.players|
  {
    Pool(HandsOf(t.players), t.playerCount)
  }

  /** No card occurs twice. */
  ghost predicate Unrepeated(b: multiset<CardId>) {
    forall x :: b[x] <= 1
  }

  /** The same seats, up to what they hold and whether they have gone out. */
  ghost predicate SameSeats(p: seq<Player>, q: seq<Player>) {
    |p| == |q| && forall s :: 0 <= s < |p| ==>
      q[s].id == p[s].id && q[s].team == p[s].team && q[s].isReady == p[s].isReady
  }

  ghost predicate SameHandsBut(p: seq<Player>, q: seq<Player>, s: int) {
    |p| == |q| && forall k :: 0 <= k < |p| && k != s ==> q[k].hand == p[k].hand
  }

  lemma {:induction false} FillRanksMarks(p: seq<Player>, n: int, seat: int, nextRank: int, k: int)
    requires 0 <= seat < n <= |p| && 0 <= k <= n
    ensures SameButRanks(p, FillRanks(p, n, seat, nextRank, k))
    decreases n - k
  {
    if k < n && nextRank <= n {
      var next := Step(seat, 1, n);
      if p[seat].hasFinished {
        FillRanksMarks(p, n, next, nextRank, k + 1);
      } else {
        FillRanksMarks(Finish(p, seat, nextRank), n, next, nextRank + 1, k + 1);
      }
    }
  }

  lemma AssignRemainingMarks(p: seq<Player>, n: int)
    requires n <= |p|
    ensures SameButRanks(p, AssignRemaining(p, n))
  {
    if n > 0 {
      var (seat, rank) := Latest(p, n);
      if 0 <= seat < n && rank > 0 {
        FillRanksMarks(p, n, Step(seat, 1, n), rank + 1, 0);
      }
    }
  }

  /** A play touches only the current player's hand. */
  lemma LaidSeats(t: Table, cfg: Config, cards: seq<CardId>)
    requires Seated(t)
    ensures var s, u := t.currentPlayerIndex, Laid(t, cfg, cards);
            && SameSeats(t.players, u.players) && SameHandsBut(t.players, u.players, s)
            && u.players[s].hand == HandAfter(t.players[s].hand, cards)
  {
    hide Analyze, HandAfter, NextRank;
  }

  lemma PlaySeats(t: Table, cfg: Config, cards: seq<CardId>)
    requires Seated(t)
    ensures var s, u := t.currentPlayerIndex, PlayTable(t, cfg, cards);
            && SameSeats(t.players, u.players) && SameHandsBut(t.players, u.players, s)
            && u.players[s].hand == HandAfter(t.players[s].hand, cards)
  {
    hide Analyze, HandAfter, Laid, PlayEnds, AssignRemaining, NextActive;
    LaidSeats(t, cfg, cards);
    AssignRemainingMarks(Laid(t, cfg, cards).players, t.playerCount);
  }

  lemma PassSeats(t: Table)
    requires Round.Ready(t)
    ensures PassTable(t).players == t.players
  {
    hide NextActive, ResolveLead, AllOthersPassed;
  }

  // ----- pools -----

  lemma {:induction false} PoolExchange(a: seq<seq<CardId>>, b: seq<seq<CardId>>, s: nat, k: nat)
    requires |a| == |b| && s < |a| && k <= |a|
    requires forall i :: 0 <= i < |a| && i != s ==> a[i] == b[i]
    ensures if s < k then Pool(a, k) + multiset(b[s]) == Pool(b, k) + multiset(a[s]) else Pool(a, k) == Pool(b, k)
  {
    if k > 0 {
      PoolExchange(a, b, s, k - 1);
      var pa, pb, last := Pool(a, k - 1), Pool(b, k - 1), multiset(a[k - 1]);
      if s < k - 1 {
        assert (pa + last) + multiset(b[s]) == (pa + multiset(b[s])) + last;
        assert (pb + last) + multiset(a[s]) == (pb + multiset(a[s])) + last;
      } else if s == k - 1 {
        assert (pa + multiset(a[s])) + multiset(b[s]) == (pa + multiset(b[s])) + multiset(a[s]);
      }
    }
  }

  lemma {:induction false} PoolHolds(h: seq<seq<CardId>>, s: nat, k: nat)
    requires s < k <= |h|
    ensures multiset(h[s]) <= Pool(h, k)
  {
    if s < k - 1 {
      PoolHolds(h, s, k - 1);
    }
  }

  lemma SingleHand(h: seq<seq<CardId>>, s: nat, n: nat)
    requires s < n <= |h| && Unrepeated(Pool(h, n))
    ensures NoDuplicates(h[s])
  {
    PoolHolds(h, s, n);
    forall i, j | 0 <= i < j < |h[s]|
      ensures h[s][i] != h[s][j]
    {
      assert multiset(h[s])[h[s][i]] <= Pool(h, n)[h[s][i]] <= 1;
      if h[s][i] == h[s][j] {
        CountTwice(h[s], i, j);
      }
    }
  }

  lemma PatternNeedsCards(t: Table, cfg: Config, cards: seq<CardId>)
    requires PatternOf(t, cfg, cards).isValid
    ensures cards != []
  {
    hide Analyze;
    Bot.EmptyIsIllegal(t.allCards, Context(t, cfg), INVALID_PATTERN);
  }

  lemma FailedRemoval(hand: seq<CardId>, cards: seq<CardId>)
    requires NoDuplicates(hand) && ContainsAll(hand, cards) && cards != []
    ensures if NoDuplicates(cards) then multiset(HandAfter(hand, cards)) + multiset(cards) == multiset(hand)
              else HandAfter(hand, cards) == hand
  {
    AdmittedIsRemovedIffDistinct(hand, cards);
  }

  lemma PoolAfterPlay(h: seq<seq<CardId>>, h': seq<seq<CardId>>, s: nat, n: nat, cards: seq<CardId>)
    requires |h| == |h'| && s < n <= |h| && Unrepeated(Pool(h, n)) && ContainsAll(h[s], cards) && cards != []
    requires h'[s] == HandAfter(h[s], cards) && forall i :: 0 <= i < |h| && i != s ==> h[i] == h'[i]
    ensures if NoDuplicates(cards) then Pool(h', n) + multiset(cards) == Pool(h, n) else Pool(h', n) == Pool(h, n)
  {
    hide HandAfter, ContainsAll, Unrepeated, Pool, NoDuplicates;
    SingleHand(h, s, n);
    FailedRemoval(h[s], cards);
    PoolExchange(h, h', s, n);
    if NoDuplicates(cards) {
      var bag := multiset(h'[s]);
      assert Pool(h, n) + bag == (Pool(h', n) + multiset(cards)) + bag;
      assert Pool(h, n) == Pool(h, n) + bag - bag;
      assert Pool(h', n) + multiset(cards) == (Pool(h', n) + multiset(cards)) + bag - bag;
    } else {
      var bag := multiset(h[s]);
      assert Pool(h, n) == Pool(h, n) + bag - bag;
      assert Pool(h', n) == Pool(h', n) + bag - bag;
    }
  }

  /** An accepted play moves its cards from the hands to the table if it names no card twice, and
      otherwise takes none. */
  lemma PlayPool(t: Table, cfg: Config, id: nat, cards: seq<CardId>)
    requires Round.Ready(t) && PlayCode(t, cfg, id, cards) == Ok && Unrepeated(PoolOf(t))
    ensures cards != []
    ensures if NoDuplicates(cards) then PoolOf(PlayTable(t, cfg, cards)) + multiset(cards) == PoolOf(t)
            else PoolOf(PlayTable(t, cfg, cards)) == PoolOf(t)
  {
    hide PlayTable, PatternOf, PlayCode, ContainsAll, Unrepeated, Pool, NoDuplicates, HandAfter;
    PlayAccepted(t, cfg, id, cards);
    PatternNeedsCards(t, cfg, cards);
    PlaySeats(t, cfg, cards);
    PoolAfterPlay(HandsOf(t.players), HandsOf(PlayTable(t, cfg, cards).players), t.currentPlayerIndex, t.playerCount,
        cards);
  }

  // ----- runs -----

  /** No accepted play names a card twice. */
  ghost predicate NoRepeats(t: Table, cfg: Config, moves: seq<Move>)
    requires Round.Ready(t)
  {
    moves == [] ||
    var k := |moves| - 1;
    && NoRepeats(t, cfg, moves[..k])
    && (moves[k].Play? && MoveCode(Run(t, cfg, moves[..k]).table, cfg, moves[k]) == Ok ==> NoDuplicates(moves[k].cards))
  }

  ghost function Total(h: History): multiset<CardId>
    requires h.table.playerCount <= |h.table.players|
  {
    h.played + PoolOf(h.table)
  }

  lemma SubBag(a: multiset<CardId>, b: multiset<CardId>)
    requires Unrepeated(b) && a <= b
    ensures Unrepeated(a)
  {
    forall x
      ensures a[x] <= 1
    {
      assert b[x] <= 1;
    }
  }

  lemma MovePool(h: History, cfg: Config, m: Move)
    requires Round.Ready(h.table) && Unrepeated(PoolOf(h.table))
    ensures var h' := After(h, cfg, m);
            && h'.table.playerCount == h.table.playerCount && Unrepeated(PoolOf(h'.table))
                && PoolOf(h'.table) <= PoolOf(h.table)
            && if m.Play? && MoveCode(h.table, cfg, m) == Ok && !NoDuplicates(m.cards)
               then Total(h') == Total(h) + multiset(m.cards) && m.cards != []
               else Total(h') == Total(h)
  {
    hide PlayTable, PassTable, PatternOf, PlayCode, PassCode, OrderAfter, Unrepeated, Pool, NoDuplicates;
    if MoveCode(h.table, cfg, m) == Ok {
      match m
      case Play(id, cards) =>
        PlayPool(h.table, cfg, id, cards);
        SubBag(PoolOf(PlayTable(h.table, cfg, cards)), PoolOf(h.table));
      case Pass(_) => PassSeats(h.table);
    }
  }

  /** Over every run: the cards in the hands never repeat, and hands and played cards together are the
      cards dealt exactly if no accepted play named a card twice. */
  lemma {:induction false} ConservedIffNoRepeats(t: Table, cfg: Config, moves: seq<Move>)
    requires Round.Ready(t) && Unrepeated(PoolOf(t))
    ensures var h := Run(t, cfg, moves);
            && h.table.playerCount == t.playerCount && Unrepeated(PoolOf(h.table))
            && PoolOf(h.table) <= PoolOf(t) <= Total(h)
            && (Total(h) == PoolOf(t) <==> NoRepeats(t, cfg, moves))
  {
    hide After, PoolOf, Unrepeated, MoveCode, NoDuplicates;
    if moves != [] {
      var k := |moves| - 1;
      var h, m := Run(t, cfg, moves[..k]), moves[k];
      ConservedIffNoRepeats(t, cfg, moves[..k]);
      MovePool(h, cfg, m);
      if Total(After(h, cfg, m)) != Total(h) {
        assert m.cards[0] in multiset(m.cards);
        assert Total(After(h, cfg, m))[m.cards[0]] > PoolOf(t)[m.cards[0]];
      }
    }
  }
}
