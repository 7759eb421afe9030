/** Where the tribute gets stuck: rooms with two cards each can be dealt a hand with nothing to pay; with the
    whole deck dealt every payer has a card, and only returns are left to get stuck. */
module TributeStuck {
  import opened Arithmetic
  import opened Lists
  import opened Cards
  import opened State
  import opened Turns
  import opened FinishRanks
  import opened Settlements
  import opened Decks
  import opened Pickers
  import opened Round
  import opened RoundProofs
  import opened Runs
  import opened Conservation
  import opened Liveness
  import opened Tributes
  import opened Exchange
  import opened TributePhase
  import opened Confluence
  import opened AnyOrder
  import opened TributeEnds
  import opened Match
  import opened MatchProofs
  import MatchStarts
  import Progress

  // ----- a stacked deck -----

  /** The deck in order. */
  function OrderedDeck(deckCount: nat): (full: seq<Card>)
    requires CARDS_PER_DECK * deckCount <= 0x1_0000
    ensures IsFullDeck(full, deckCount)
  {
    seq(CARDS_PER_DECK * deckCount, k requires 0 <= k < CARDS_PER_DECK * deckCount => CardAt(k))
  }

  function Swapped<T>(s: seq<T>, i: nat, j: nat): (r: seq<T>)
    requires i < |s| && j < |s|
    ensures |r| == |s| && multiset(r) == multiset(s)
    ensures forall k :: 0 <= k < |s| ==> r[k] == if k == i then s[j] else if k == j then s[i] else s[k]
  {
    s[i := s[j]][j := s[i]]
  }

  /** The deck in order, but for cards 0 and 13, the twos of spades and hearts, which lie where a seat gets
      its two cards from. */
  function StackedDeck(deckCount: nat, seat: nat): (cards: seq<Card>)
    requires 0 < deckCount && CARDS_PER_DECK * deckCount <= 0x1_0000 && seat < MAX_PLAYERS
    ensures |cards| == CARDS_PER_DECK * deckCount && multiset(cards) == multiset(OrderedDeck(deckCount))
    ensures cards[2 * seat].id == 0 && cards[2 * seat + 1].id == 13
    ensures forall k :: 0 <= k < 2 * MAX_PLAYERS ==> cards[k].id < 52
  {
    Swapped(Swapped(OrderedDeck(deckCount), 0, 2 * seat), 13, 2 * seat + 1)
  }

  lemma StackedIsShuffled(cfg: Config, seat: nat)
    requires GoodConfig(cfg) && seat < MAX_PLAYERS
    ensures Shuffled(cfg, StackedDeck(cfg.deckCount, seat))
  {
    assert IsFullDeck(OrderedDeck(cfg.deckCount), cfg.deckCount);
  }

  /** The lookup finds each card of a shuffled deck as it was made. */
  lemma LookUpShuffled(cfg: Config, all: seq<Card>, x: CardId)
    requires Shuffled(cfg, all) && x < CARDS_PER_DECK * cfg.deckCount
    ensures CardById(all, x) == CardAt(x)
  {
    var full :| IsFullDeck(full, cfg.deckCount) && multiset(all) == multiset(full);
    assert full[x] in multiset(full);
    var k :| 0 <= k < |all| && all[k] == full[x];
    assert all[k].id == x;
    assert CardById(all, x) in multiset(full);
  }

  lemma {:induction false} NoBigJoker(all: seq<Card>, hand: seq<CardId>, k: nat)
    requires k <= |hand| && forall i :: 0 <= i < |hand| ==> CardById(all, hand[i]).rank != BIG_JOKER
    ensures BigJokers(all, hand, k) == 0
  {
    if k > 0 {
      NoBigJoker(all, hand, k - 1);
    }
  }

  lemma {:induction false} NoBigJokers(t: Table, seats: seq<int>, k: nat)
    requires SeatsExist(t, seats) && k <= |seats|
    requires forall i :: 0 <= i < |seats| ==> BigJokersAt(t, seats[i]) == 0
    ensures TotalBigJokers(t, seats, k) == 0
  {
    if k > 0 {
      NoBigJokers(t, seats, k - 1);
    }
  }

  // ----- the stuck round -----

  /** The hands of a room with two cards each, dealt from the stacked deck. */
  lemma StackedHands(g: Game, cfg: Config, seat: nat)
    requires Sound(g, cfg) && GoodConfig(cfg) && cfg.soloTest && seat < g.desk.table.playerCount
    ensures var shuffled := StackedDeck(cfg.deckCount, seat);
            && Shuffled(cfg, shuffled) && CanDeal(g, cfg, shuffled)
            && var p := DealtTable(g, cfg, shuffled).players;
               && p[seat].hand == [0, 13]
               && forall s :: 0 <= s < g.desk.table.playerCount ==>
                   |p[s].hand| == 2 && p[s].hand[0] < 52 && p[s].hand[1] < 52
  {
    hide StackedDeck, Blocks, Progress.StandingInv, TeamsAlternate, Shuffled;
    var shuffled, n := StackedDeck(cfg.deckCount, seat), g.desk.table.playerCount;
    StackedIsShuffled(cfg, seat);
    CanAlwaysDeal(g, cfg, shuffled);
    var ids := IdsOf(shuffled);
    var hands := Blocks(ids, n, 2);
    forall s | 0 <= s < n
      ensures hands[s] == [shuffled[2 * s].id, shuffled[2 * s + 1].id]
    {
      BlockHands(ids, n, 2, s);
      assert ids[s * 2..s * 2 + 2] == [ids[2 * s], ids[2 * s + 1]];
    }
  }

  /** Nobody holds a big joker there, so the tribute is not countered. */
  lemma StackedPlan(t: Table, cfg: Config, prev: Previous)
    requires FreshDeal(t, cfg) && GoodConfig(cfg) && |prev.ranks| == MAX_PLAYERS && PermRanks(prev.ranks, t.playerCount)
    requires prev.valid && cfg.enableTribute
    requires forall s :: 0 <= s < t.playerCount ==>
               |t.players[s].hand| == 2 && t.players[s].hand[0] < 52 && t.players[s].hand[1] < 52
    ensures var plan := PlanRound(t, cfg, prev);
            !plan.skipped && !plan.antiTribute
                && RankSeat(prev.ranks, t.playerCount, t.playerCount) in plan.tributerSeats
  {
    hide PlanRound, RankSeat, TotalBigJokers, BigJokersAt, Unrepeated, PoolOf, Shuffled, DealtFrom;
    var plan := PlanRound(t, cfg, prev);
    var k := PlanMeaning(t, cfg, prev);
    HasLastPayer(prev.ranks, t.playerCount, k, plan);
    forall i | 0 <= i < |plan.tributerSeats|
      ensures BigJokersAt(t, plan.tributerSeats[i]) == 0
    {
      LowHand(t, cfg, plan.tributerSeats[i]);
    }
    NoBigJokers(t, plan.tributerSeats, |plan.tributerSeats|);
  }

  lemma LowCardsOf(t: Table, cfg: Config)
    requires DealtFrom(t, cfg) && GoodConfig(cfg)
    ensures t.playerCount <= |t.players| && Shuffled(cfg, t.allCards) && CARDS_PER_DECK * cfg.deckCount >= 52
    ensures forall x: nat :: x < 52 ==> CardAt(x).rank != BIG_JOKER
  {
    hide Unrepeated, PoolOf, Shuffled;
  }

  lemma LowHand(t: Table, cfg: Config, s: int)
    requires DealtFrom(t, cfg) && GoodConfig(cfg) && 0 <= s < t.playerCount && |t.players[s].hand| == 2
    requires t.players[s].hand[0] < 52 && t.players[s].hand[1] < 52
    ensures BigJokersAt(t, s) == 0
  {
    hide DealtFrom, GoodConfig, CardAt, CardById, BigJokers;
    LowCardsOf(t, cfg);
    LookUpShuffled(cfg, t.allCards, t.players[s].hand[0]);
    LookUpShuffled(cfg, t.allCards, t.players[s].hand[1]);
    NoBigJoker(t.allCards, t.players[s].hand, 2);
  }

  /** After every finished round of a two-card room with tribute, the deck can lie so that the last player
      of that round holds the twos of spades and hearts, cards 0 and 13, and has nothing to pay: whatever is
      submitted, the tribute never completes. */
  lemma TributeCanGetStuck(g: Game, cfg: Config, w: Witness) returns (shuffled: seq<Card>, payer: int)
    requires MatchInv(g, cfg, w) && g.desk.table.phase == Finished && cfg.soloTest && cfg.enableTribute
    ensures Sound(g, cfg) && GoodConfig(cfg) && Shuffled(cfg, shuffled)
    ensures ActionCode(g, cfg, StartNextRound(shuffled)) == Ok
    ensures var g' := AfterAction(g, cfg, StartNextRound(shuffled));
            && g'.desk.table.phase == Tribute && 0 <= payer < |g'.desk.table.players|
            && g'.desk.table.players[payer].hand == [0, 13] && payer in g'.desk.tribute.plan.tributerSeats
            && Due(g'.desk, cfg, g'.previous) && !CanSettle(g'.desk, cfg)
            && forall offers :: !Complete(AfterOffers(g'.desk, cfg, g'.previous, offers))
  {
    hide MatchInv, StackedDeck, DealtTable, Shuffled, DistinctIds, IdleSeats, TeamsAlternate, Progress.StandingInv;
    hide PermRanks, PlanRound, CanDeal, Due, Complete, CanSettle, AfterOffers, DealtFrom;
    EndedFacts(g, cfg, w);
    MatchStarts.LastRoundCounts(g, cfg, w);
    var n := g.desk.table.playerCount;
    payer := RankSeat(g.previous.ranks, n, n);
    LastSeatExists(g.previous.ranks, n);
    shuffled := StackedDeck(cfg.deckCount, payer);
    StackedHands(g, cfg, payer);
    DealIsFresh(g, cfg, shuffled);
    var t := DealtTable(g, cfg, shuffled);
    StackedPlan(t, cfg, g.previous);
    var d := TributeOpens(t, cfg, g.previous);
    StaysDistinct(g.desk.table.players, t.players, n, cfg.playersPerTeam);
    NothingToPay(d, cfg, g.previous, payer);
    CompletedIffCanSettle(d, cfg, g.previous);
  }

  lemma LastSeatExists(ranks: seq<int>, n: nat)
    requires PermRanks(ranks, n)
    ensures 0 <= RankSeat(ranks, n, n) < n
  {
  }

  lemma NothingToPay(d: Desk, cfg: Config, prev: Previous, payer: int)
    requires Due(d, cfg, prev) && FreshDeal(d.table, cfg) && GoodConfig(cfg)
    requires 0 <= payer < d.table.playerCount && payer in d.tribute.plan.tributerSeats
    requires d.table.players[payer].hand == [0, 13]
    ensures SeatsExist(d.table, d.tribute.plan.tributerSeats) && !CanSettle(d, cfg)
  {
    hide PlanRound, RankSeat, PermRanks, Unrepeated, PoolOf, Shuffled, CanPay, CanReturn, DueTributes;
    DuePlaced(d, cfg, prev);
    LookUpShuffled(cfg, d.table.allCards, 0);
    LookUpShuffled(cfg, d.table.allCards, 13);
    ZeroBeforeTwo(d.table.allCards, Context(d.table, cfg), 13);
    var i :| 0 <= i < |d.tribute.plan.tributerSeats| && d.tribute.plan.tributerSeats[i] == payer;
  }
  // ----- with the whole deck dealt -----

  /** Twos and wild cards: all that a player with nothing to pay can hold. */
  predicate Unpayable(ctx: RuleContext, x: nat)
    requires x < 0x1_0000
  {
    CardAt(x).rank == 2 || ctx.IsWild(CardAt(x))
  }

  function UnpayableIds(ctx: RuleContext, m: nat): set<int>
    requires m <= 0x1_0000
  {
    set x: int | 0 <= x < m && Unpayable(ctx, x)
  }

  /** Four twos and one wild card in each deck. */
  lemma UnpayableInDeck(ctx: RuleContext, base: nat, x: nat)
    requires base % CARDS_PER_DECK == 0 && base <= x < base + CARDS_PER_DECK && x < 0x1_0000 && Unpayable(ctx, x)
    ensures x in {base, base + 13, base + 26, base + 39, base + 11 + ctx.currentLevel}
  {
    assert x % CARDS_PER_DECK == x - base;
  }

  function FiveOfDeck(ctx: RuleContext, base: int): set<int> {
    {base, base + 13, base + 26, base + 39, base + 11 + ctx.currentLevel}
  }

  lemma UnpayableStep(ctx: RuleContext, d: nat)
    requires d > 0 && CARDS_PER_DECK * d <= 0x1_0000
    ensures UnpayableIds(ctx, CARDS_PER_DECK * d) <=
            UnpayableIds(ctx, CARDS_PER_DECK * (d - 1)) + FiveOfDeck(ctx, CARDS_PER_DECK * (d - 1))
  {
    hide Unpayable;
    var base := CARDS_PER_DECK * (d - 1);
    forall x: int | 0 <= x < base + CARDS_PER_DECK && Unpayable(ctx, x)
      ensures x < base || x in FiveOfDeck(ctx, base)
    {
      if x >= base {
        UnpayableInDeck(ctx, base, x);
      }
    }
  }

  lemma {:induction false} UnpayableCount(ctx: RuleContext, d: nat)
    requires CARDS_PER_DECK * d <= 0x1_0000
    ensures |UnpayableIds(ctx, CARDS_PER_DECK * d)| <= 5 * d
  {
    hide Unpayable;
    if d > 0 {
      UnpayableCount(ctx, d - 1);
      UnpayableStep(ctx, d);
      hide UnpayableIds, FiveOfDeck;
      var base := CARDS_PER_DECK * (d - 1);
      var before, last := UnpayableIds(ctx, base), FiveOfDeck(ctx, base);
      FiveAtMost(ctx, base);
      SubsetSize(UnpayableIds(ctx, CARDS_PER_DECK * d), before + last);
      assert |before + last| == |before| + |last| - |before * last|;
    }
  }

  lemma FiveAtMost(ctx: RuleContext, base: int)
    ensures |FiveOfDeck(ctx, base)| <= 5
  {
    assert FiveOfDeck(ctx, base) ==
           {base} + {base + 13} + {base + 26} + {base + 39} + {base + 11 + ctx.currentLevel};
  }

  lemma {:induction false} HandInSet(hand: seq<CardId>, s: set<int>)
    requires NoDuplicates(hand) && forall i :: 0 <= i < |hand| ==> hand[i] in s
    ensures |hand| <= |s|
  {
    if hand != [] {
      var k := |hand| - 1;
      var x: int := hand[k];
      HandInSet(hand[..k], s - {x});
    }
  }

  /** More than five cards of each deck fall to every player. */
  lemma FullHandSize(t: Table, cfg: Config, s: int)
    requires DealtFrom(t, cfg) && GoodConfig(cfg) && !cfg.soloTest && t.playerCount == cfg.playerCount
    requires 0 <= s < t.playerCount
    ensures |t.players[s].hand| > 5 * cfg.deckCount && NoDuplicates(t.players[s].hand)
  {
    hide Pool, Shuffled;
    var n, each := t.playerCount, |t.players[s].hand|;
    ShuffledSize(cfg, t.allCards);
    PoolSize(HandsOf(t.players), n, each);
    SingleHand(HandsOf(t.players), s, n);
    assert n * each == |multiset(IdsOf(t.allCards))| == CARDS_PER_DECK * cfg.deckCount;
    if each <= 5 * cfg.deckCount {
      MulMonotone(n, 6, each);
    }
  }

  /** Where the whole deck is dealt, every player has a card to pay. */
  lemma FullHandCanPay(t: Table, cfg: Config, ctx: RuleContext, s: int)
    requires DealtFrom(t, cfg) && GoodConfig(cfg) && !cfg.soloTest && t.playerCount == cfg.playerCount
    requires 0 <= s < t.playerCount
    ensures CanPay(t.allCards, ctx, t.players[s].hand)
  {
    hide Pool, Shuffled, Unrepeated, NoDuplicates, CardAt, UnpayableIds;
    var hand, d := t.players[s].hand, cfg.deckCount;
    FullHandSize(t, cfg, s);
    UnpayableCount(ctx, d);
    if !CanPay(t.allCards, ctx, hand) {
      forall i | 0 <= i < |hand|
        ensures hand[i] in UnpayableIds(ctx, CARDS_PER_DECK * d)
      {
        InHandIsLow(t, cfg, ctx, s, i);
      }
      HandInSet(hand, UnpayableIds(ctx, CARDS_PER_DECK * d));
    }
  }

  lemma InHandIsLow(t: Table, cfg: Config, ctx: RuleContext, s: int, i: int)
    requires DealtFrom(t, cfg) && GoodConfig(cfg) && 0 <= s < t.playerCount && 0 <= i < |t.players[s].hand|
    requires !CanPay(t.allCards, ctx, t.players[s].hand)
    ensures t.players[s].hand[i] in UnpayableIds(ctx, CARDS_PER_DECK * cfg.deckCount)
  {
    hide Pool, Shuffled, Unrepeated, RequiredTribute;
    var hand, all := t.players[s].hand, t.allCards;
    DealtCard(t, cfg, s, hand[i]);
    LookUpShuffled(cfg, all, hand[i]);
    LookUpShuffled(cfg, all, 0);
    CanPayIff(all, ctx, hand);
    RequiredTributeMeaning(all, ctx, hand);
    assert CardAt(0).rank == 2;
  }

  lemma DealtCard(t: Table, cfg: Config, s: int, x: CardId)
    requires DealtFrom(t, cfg) && 0 <= s < t.playerCount && x in t.players[s].hand
    ensures x < CARDS_PER_DECK * cfg.deckCount
  {
    hide Pool, Unrepeated;
    PoolHolds(HandsOf(t.players), s, t.playerCount);
    assert x in multiset(HandsOf(t.players)[s]);
    var k :| 0 <= k < |t.allCards| && IdsOf(t.allCards)[k] == x;
    var full :| IsFullDeck(full, cfg.deckCount) && multiset(t.allCards) == multiset(full);
    assert t.allCards[k] in multiset(full);
  }

  /** Only returns can then get stuck. */
  lemma OnlyReturnsGetStuck(d: Desk, cfg: Config, prev: Previous)
    requires Due(d, cfg, prev) && FreshDeal(d.table, cfg) && GoodConfig(cfg) && !cfg.soloTest
    requires d.table.playerCount == cfg.playerCount && SeatsExist(d.table, d.tribute.plan.tributerSeats)
    ensures CanSettle(d, cfg) <==> forall i :: 0 <= i < |DueTributes(d, cfg)| ==>
              CanReturn(d, cfg, DueTributes(d, cfg)[i])
  {
    hide DealtFrom, PlanRound, RankSeat, PermRanks, CanPay, CanReturn, DueTributes;
    forall i | 0 <= i < |d.tribute.plan.tributerSeats|
      ensures CanPay(d.table.allCards, Context(d.table, cfg), d.table.players[d.tribute.plan.tributerSeats[i]].hand)
    {
      FullHandCanPay(d.table, cfg, Context(d.table, cfg), d.tribute.plan.tributerSeats[i]);
    }
  }
}
