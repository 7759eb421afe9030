/** The deck and the deal (card.cpp, deck.cpp). */
module Decks {
  import opened Lists
  import opened Arithmetic
  import opened Cards

  const CARDS_PER_DECK := 54
  const SUITS := [Spade, Heart, Club, Diamond]

  /** The k-th card of a full deck of decks: thirteen ranks in each of four suits, then the jokers. */
  function CardAt(k: nat): (c: Card)
    requires k < 0x1_0000
    ensures c.id == k
  {
    var j := k % CARDS_PER_DECK;
    if j == 52 then Card(k, JokerSuit, SMALL_JOKER)
    else if j == 53 then Card(k, JokerSuit, BIG_JOKER)
    else Card(k, SUITS[j / 13], 2 + j % 13)
  }

  ghost predicate IsFullDeck(cards: seq<Card>, deckCount: nat) {
    |cards| == CARDS_PER_DECK * deckCount <= 0x1_0000 && forall k :: 0 <= k < |cards| ==> cards[k] == CardAt(k)
  }

  /** The card with number `id` in its place in the loops. */
  lemma SuitCard(id: nat, d: nat, s: nat, r: Rank)
    requires id < 0x1_0000 && id == d * CARDS_PER_DECK + s * 13 + (r - 2) && s < 4 && r <= ACE
    ensures CardAt(id) == Card(id, SUITS[s], r)
  {
    DivMod(id, d, CARDS_PER_DECK, s * 13 + (r - 2));
    DivMod(s * 13 + (r - 2), s, 13, r - 2);
  }

  lemma JokerCards(id: nat, d: nat)
    requires id + 1 < 0x1_0000 && id == d * CARDS_PER_DECK + 52
    ensures CardAt(id) == Card(id, JokerSuit, SMALL_JOKER) && CardAt(id + 1) == Card(id + 1, JokerSuit, BIG_JOKER)
  {
    DivMod(id, d, CARDS_PER_DECK, 52);
    DivMod(id + 1, d, CARDS_PER_DECK, 53);
  }

  /** The ids are 16 bits wide, so at most 1213 decks can be numbered. */
  method CreateFullDeck(deckCount: nat) returns (cards: seq<Card>)
    requires CARDS_PER_DECK * deckCount <= 0x1_0000
    ensures IsFullDeck(cards, deckCount)
  {
    hide CardAt;
    cards := [];
    var id := 0;
    for d := 0 to deckCount
      invariant id == |cards| == d * CARDS_PER_DECK
      invariant forall k :: 0 <= k < |cards| ==> cards[k] == CardAt(k)
    {
      for s := 0 to 4
        invariant id == |cards| == d * CARDS_PER_DECK + s * 13
        invariant forall k :: 0 <= k < |cards| ==> cards[k] == CardAt(k)
      {
        for r := 2 to 15
          invariant id == |cards| == d * CARDS_PER_DECK + s * 13 + (r - 2)
          invariant forall k :: 0 <= k < |cards| ==> cards[k] == CardAt(k)
        {
          SuitCard(id, d, s, r);
          cards := cards + [Card(id, SUITS[s], r)];
          id := id + 1;
        }
      }
      JokerCards(id, d);
      cards := cards + [Card(id, JokerSuit, SMALL_JOKER)];
      id := id + 1;
      cards := cards + [Card(id, JokerSuit, BIG_JOKER)];
      id := id + 1;
    }
  }

  function IdsOf(cards: seq<Card>): (ids: seq<CardId>)
    ensures |ids| == |cards|
  {
    seq(|cards|, i requires 0 <= i < |cards| => cards[i].id)
  }

  datatype DealResult = Dealt(hands: seq<seq<CardId>>) | InvalidPlayerCount | NotEnoughCards | CannotDealEvenly

  class Deck {
    var cards: seq<Card>

    constructor (deckCount: nat)
      requires CARDS_PER_DECK * deckCount <= 0x1_0000
      ensures IsFullDeck(cards, deckCount)
    {
      var full := CreateFullDeck(deckCount);
      cards := full;
    }

    /** The library's shuffle leaves some permutation of the cards. */
    method Shuffle(shuffled: seq<Card>)
      requires multiset(shuffled) == multiset(cards)
      modifies this
      ensures cards == shuffled
    {
      cards := shuffled;
    }

    method Deal(playerCount: int, cardsPerPlayer: int) returns (r: DealResult)
      ensures r == DealSpec(cards, playerCount, cardsPerPlayer)
    {
      if playerCount <= 0 {
        return InvalidPlayerCount;
      }
      ghost var ids := IdsOf(cards);
      var hands: seq<seq<CardId>> := seq(playerCount, _ => []);
      if cardsPerPlayer > 0 {
        if |cards| < playerCount * cardsPerPlayer {
          return NotEnoughCards;
        }
        var cursor := 0;
        for p := 0 to playerCount
          invariant |hands| == playerCount && cursor == p * cardsPerPlayer
          invariant forall q :: p <= q < playerCount ==> hands[q] == []
          invariant cursor <= |ids| && hands[..p] == Blocks(ids, p, cardsPerPlayer)
        {
          MulMonotone(p + 1, playerCount, cardsPerPlayer);
          assert cursor + cardsPerPlayer == (p + 1) * cardsPerPlayer;
          ghost var dealt := hands[..p];
          ghost var start := cursor;
          for c := 0 to cardsPerPlayer
            invariant |hands| == playerCount && cursor == start + c
            invariant hands[..p] == dealt && forall q :: p < q < playerCount ==> hands[q] == []
            invariant hands[p] == ids[start..cursor]
          {
            hands := hands[p := hands[p] + [cards[cursor].id]];
            cursor := cursor + 1;
          }
          assert hands[..p + 1] == dealt + [hands[p]];
        }
        assert hands[..playerCount] == hands;
        return Dealt(hands);
      }
      if |cards| % playerCount != 0 {
        return CannotDealEvenly;
      }
      for i := 0 to |cards|
        invariant |hands| == playerCount
        invariant hands == RoundRobin(ids, playerCount, i)
      {
        hands := hands[i % playerCount := hands[i % playerCount] + [cards[i].id]];
      }
      return Dealt(hands);
    }
  }

  // ----- the two ways of dealing -----

  /** One more card for seat `p`. */
  function Push(h: seq<seq<CardId>>, p: nat, x: CardId): (h': seq<seq<CardId>>)
    requires p < |h|
    ensures |h'| == |h|
  {
    h[p := h[p] + [x]]
  }

  /** The hands of the first `p` seats, dealt in blocks of `k`. */
  function Blocks(ids: seq<CardId>, p: nat, k: nat): (h: seq<seq<CardId>>)
    requires p * k <= |ids|
    ensures |h| == p
  {
    if p == 0 then []
    else
      assert (p - 1) * k + k == p * k;
      Blocks(ids, p - 1, k) + [ids[(p - 1) * k..p * k]]
  }

  /** Hands after the first `i` cards, dealt one by one round the table. */
  function RoundRobin(ids: seq<CardId>, n: nat, i: nat): (h: seq<seq<CardId>>)
    requires n > 0 && i <= |ids|
    ensures |h| == n
  {
    if i == 0 then seq(n, _ => [])
    else
      Push(RoundRobin(ids, n, i - 1), (i - 1) % n, ids[i - 1])
  }

  function DealSpec(cards: seq<Card>, playerCount: int, cardsPerPlayer: int): DealResult {
    if playerCount <= 0 then InvalidPlayerCount
    else if cardsPerPlayer > 0 then
      if |cards| < playerCount * cardsPerPlayer then NotEnoughCards
      else
        assert playerCount * cardsPerPlayer >= 0;
        Dealt(Blocks(IdsOf(cards), playerCount, cardsPerPlayer))
    else if |cards| % playerCount != 0 then CannotDealEvenly
    else Dealt(RoundRobin(IdsOf(cards), playerCount, |cards|))
  }

  /** All cards of the first `k` hands. */
  ghost function Pool(hands: seq<seq<CardId>>, k: nat): multiset<CardId>
    requires k <= |hands|
  {
    if k == 0 then multiset{} else Pool(hands, k - 1) + multiset(hands[k - 1])
  }

  lemma {:induction false} PoolPush(hands: seq<seq<CardId>>, p: nat, x: CardId, k: nat)
    requires p < |hands| && k <= |hands|
    ensures Pool(Push(hands, p, x), k) == Pool(hands, k) + if p < k then multiset{x} else multiset{}
  {
    if k > 0 {
      hide Pool;
      PoolPush(hands, p, x, k - 1);
      PoolLast(hands, k);
      PoolLast(Push(hands, p, x), k);
      BagSwap(Pool(hands, k - 1), multiset(hands[k - 1]), x);
    }
  }

  lemma PoolLast(hands: seq<seq<CardId>>, k: nat)
    requires 0 < k <= |hands|
    ensures Pool(hands, k) == Pool(hands, k - 1) + multiset(hands[k - 1])
  {
  }

  lemma BagSwap(a: multiset<CardId>, b: multiset<CardId>, x: CardId)
    ensures a + (b + multiset{x}) == (a + b) + multiset{x}
    ensures (a + multiset{x}) + b == (a + b) + multiset{x}
  {
  }

  lemma {:induction false} PoolEmpty(n: nat, hands: seq<seq<CardId>>)
    requires n <= |hands| && forall p :: 0 <= p < n ==> hands[p] == []
    ensures Pool(hands, n) == multiset{}
  {
    if n > 0 {
      PoolEmpty(n - 1, hands);
    }
  }

  /** Dealing loses and adds nothing: the hands hold exactly the cards dealt so far. */
  lemma {:induction false} RoundRobinConserves(ids: seq<CardId>, n: nat, i: nat)
    requires n > 0 && i <= |ids|
    ensures Pool(RoundRobin(ids, n, i), n) == multiset(ids[..i])
  {
    hide Pool, Push;
    if i == 0 {
      PoolEmpty(n, RoundRobin(ids, n, 0));
    } else {
      RoundRobinConserves(ids, n, i - 1);
      PoolPush(RoundRobin(ids, n, i - 1), (i - 1) % n, ids[i - 1], n);
      assert ids[..i] == ids[..i - 1] + [ids[i - 1]];
    }
  }

  lemma {:induction false} BlocksConserve(ids: seq<CardId>, p: nat, k: nat)
    requires p * k <= |ids|
    ensures Pool(Blocks(ids, p, k), p) == multiset(ids[..p * k])
    ensures forall q :: 0 <= q < p ==> |Blocks(ids, p, k)[q]| == k
  {
    if p > 0 {
      var m := (p - 1) * k;
      assert m + k == p * k;
      BlocksConserve(ids, p - 1, k);
      PoolSnoc(Blocks(ids, p - 1, k), ids, m, k);
    }
  }

  lemma PoolSnoc(h: seq<seq<CardId>>, ids: seq<CardId>, m: nat, k: nat)
    requires m + k <= |ids| && Pool(h, |h|) == multiset(ids[..m])
    ensures Pool(h + [ids[m..m + k]], |h| + 1) == multiset(ids[..m + k])
  {
    PoolPrefix(h, h + [ids[m..m + k]], |h|);
    assert ids[..m + k] == ids[..m] + ids[m..m + k];
  }

  lemma {:induction false} PoolPrefix(a: seq<seq<CardId>>, b: seq<seq<CardId>>, k: nat)
    requires k <= |a| && k <= |b| && forall i :: 0 <= i < k ==> a[i] == b[i]
    ensures Pool(a, k) == Pool(b, k)
  {
    if k > 0 {
      PoolPrefix(a, b, k - 1);
    }
  }

  lemma {:induction false} PoolSize(hands: seq<seq<CardId>>, n: nat, each: nat)
    requires n <= |hands| && forall s :: 0 <= s < n ==> |hands[s]| == each
    ensures |Pool(hands, n)| == n * each
  {
    if n > 0 {
      PoolSize(hands, n - 1, each);
      assert (n - 1) * each + each == n * each;
    }
  }

  /** Which cards a seat gets, dealt one by one: every n-th of the deck, from its own place on. */
  lemma {:induction false} RoundRobinCards(ids: seq<CardId>, n: nat, i: nat, p: nat, j: nat)
    requires n > 0 && i <= |ids| && p < n && j < |RoundRobin(ids, n, i)[p]|
    ensures j * n + p < i && RoundRobin(ids, n, i)[p][j] == ids[j * n + p]
  {
    if i > 0 {
      var before := RoundRobin(ids, n, i - 1);
      RoundRobinNext(ids, n, i, p);
      hide RoundRobin;
      if j < |before[p]| {
        RoundRobinCards(ids, n, i - 1, p, j);
      }
    }
  }

  /** The card dealt last goes on top of one hand, where it belongs. */
  lemma RoundRobinNext(ids: seq<CardId>, n: nat, i: nat, p: nat)
    requires n > 0 && 0 < i <= |ids| && p < n
    ensures var before, after := RoundRobin(ids, n, i - 1)[p], RoundRobin(ids, n, i)[p];
            after == before || (after == before + [ids[i - 1]] && |before| * n + p == i - 1)
  {
    hide Push, Ahead;
    var before := RoundRobin(ids, n, i - 1);
    var q, r := (i - 1) / n, (i - 1) % n;
    PushAt(before, r, ids[i - 1], p);
    RoundRobinSizes(ids, n, i - 1, q, r);
    AheadAt(before, q, r, r);
  }

  lemma PushAt(h: seq<seq<CardId>>, r: nat, x: CardId, p: nat)
    requires r < |h| && p < |h|
    ensures Push(h, r, x)[p] == h[p] + if p == r then [x] else []
  {
  }

  lemma AheadAt(h: seq<seq<CardId>>, q: nat, r: nat, p: nat)
    requires Ahead(h, q, r) && p < |h|
    ensures |h[p]| == q + if p < r then 1 else 0
  {
  }

  /** And dealt in blocks: the next `k` of the deck. */
  lemma {:induction false} BlockHands(ids: seq<CardId>, n: nat, k: nat, p: nat)
    requires n * k <= |ids| && p < n
    ensures p * k + k <= |ids| && Blocks(ids, n, k)[p] == ids[p * k..p * k + k]
  {
    assert (n - 1) * k + k == n * k;
    if p < n - 1 {
      BlockHands(ids, n - 1, k, p);
    }
  }

  /** Every seat has `q` cards, the first `r` one more. */
  ghost predicate Ahead(h: seq<seq<CardId>>, q: nat, r: nat) {
    forall p :: 0 <= p < |h| ==> |h[p]| == q + if p < r then 1 else 0
  }

  /** After q full turns and r cards more, the first r seats are one card ahead. */
  lemma {:induction false} RoundRobinSizes(ids: seq<CardId>, n: nat, i: nat, q: nat, r: nat)
    requires n > 0 && i <= |ids| && i == q * n + r && r < n
    ensures Ahead(RoundRobin(ids, n, i), q, r)
  {
    hide Ahead;
    if i == 0 {
      assert q > 0 ==> q * n >= n;
      AheadAtStart(n);
    } else if r > 0 {
      RoundRobinSizes(ids, n, i - 1, q, r - 1);
      DivMod(i - 1, q, n, r - 1);
      AheadStep(RoundRobin(ids, n, i - 1), n, q, r - 1, ids[i - 1]);
    } else {
      OneTurnLess(q, n);
      RoundRobinSizes(ids, n, i - 1, q - 1, n - 1);
      DivMod(i - 1, q - 1, n, n - 1);
      AheadStep(RoundRobin(ids, n, i - 1), n, q - 1, n - 1, ids[i - 1]);
    }
  }

  lemma AheadAtStart(n: nat)
    ensures Ahead(seq(n, _ => []), 0, 0)
  {
  }

  lemma AheadStep(h: seq<seq<CardId>>, n: nat, q: nat, r: nat, x: CardId)
    requires Ahead(h, q, r) && r < |h| == n
    ensures if r + 1 < n then Ahead(Push(h, r, x), q, r + 1) else Ahead(Push(h, r, x), q + 1, 0)
  {
  }

  lemma OneTurnLess(q: nat, n: nat)
    requires q * n > 0
    ensures q > 0 && (q - 1) * n == q * n - n
  {
    assert q == 0 ==> q * n == 0;
  }

  /** Hands of `each` cards that together are the first `m` ids. */
  ghost predicate EvenDeal(h: seq<seq<CardId>>, ids: seq<CardId>, n: int, each: nat, m: nat) {
    && |h| == n && m <= |ids|
    && (forall p :: 0 <= p < n ==> |h[p]| == each)
    && Pool(h, |h|) == multiset(ids[..m])
  }

  lemma RoundRobinDeal(ids: seq<CardId>, n: nat, q: nat)
    requires n > 0 && |ids| == q * n
    ensures EvenDeal(RoundRobin(ids, n, |ids|), ids, n, q, |ids|)
  {
    RoundRobinConserves(ids, n, |ids|);
    RoundRobinSizes(ids, n, |ids|, q, 0);
  }

  /** Every deal that succeeds gives equal hands that together are the cards taken from the top: the
      whole deck when dealt evenly. */
  lemma DealConserves(cards: seq<Card>, n: int, k: int) returns (each: nat, m: nat)
    requires DealSpec(cards, n, k).Dealt?
    ensures EvenDeal(DealSpec(cards, n, k).hands, IdsOf(cards), n, each, m)
    ensures k > 0 ==> each == k && m == n * k
    ensures k <= 0 ==> m == |cards| == each * n
  {
    if k > 0 {
      each, m := k, n * k;
      BlocksConserve(IdsOf(cards), n, k);
    } else {
      each, m := |cards| / n, |cards|;
      RoundRobinDeal(IdsOf(cards), n, each);
    }
  }

  /** No id occurs twice in a shuffled full deck. */
  lemma ShuffledIdsDistinct(full: seq<Card>, shuffled: seq<Card>, deckCount: nat)
    requires IsFullDeck(full, deckCount) && multiset(shuffled) == multiset(full)
    ensures NoDuplicates(IdsOf(shuffled))
    ensures |shuffled| == CARDS_PER_DECK * deckCount
  {
    assert |shuffled| == |multiset(shuffled)| == |multiset(full)| == |full|;
    assert full[..|full|] == full;
    forall i, j | 0 <= i < j < |shuffled|
      ensures shuffled[i].id != shuffled[j].id
    {
      if shuffled[i].id == shuffled[j].id {
        assert shuffled[i] in multiset(full) && shuffled[j] in multiset(full);
        assert shuffled[i] == CardAt(shuffled[i].id) == shuffled[j];
        CountTwice(shuffled, i, j);
        DeckOnce(full, deckCount, shuffled[i], |full|);
      }
    }
  }

  lemma {:induction false} DeckOnce(full: seq<Card>, deckCount: nat, c: Card, k: nat)
    requires IsFullDeck(full, deckCount) && k <= |full|
    ensures multiset(full[..k])[c] <= if c.id < k then 1 else 0
  {
    if k > 0 {
      DeckOnce(full, deckCount, c, k - 1);
      assert full[..k] == full[..k - 1] + [full[k - 1]];
    }
  }
}
