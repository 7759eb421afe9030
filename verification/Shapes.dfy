/** What a list of cards can be read as: wild cards take ranks, the others keep theirs.
    The reference meaning against which the analyser is proved. */
module Shapes {
  import opened Cards

  // ----- counting natural ranks -----

  /** 1 if the card shows rank `r` by itself, else 0; a wild card shows nothing by itself. */
  function Shows(c: Card, ctx: RuleContext, r: int): nat {
    if !ctx.IsWild(c) && c.rank == r then 1 else 0
  }

  /** How many of the first `k` cards show rank `r` by themselves. */
  function Count(cards: seq<Card>, k: nat, ctx: RuleContext, r: int): nat
    requires k <= |cards|
  {
    if k == 0 then 0 else Count(cards, k - 1, ctx, r) + Shows(cards[k - 1], ctx, r)
  }

  /** How many of the first `k` cards are wild. */
  function WildCount(cards: seq<Card>, k: nat, ctx: RuleContext): nat
    requires k <= |cards|
  {
    if k == 0 then 0 else WildCount(cards, k - 1, ctx) + if ctx.IsWild(cards[k - 1]) then 1 else 0
  }

  /** Counts by rank: entry r is the number of cards of rank r (entries 0 and 1 stay 0). */
  type Counts = c: seq<nat> | |c| == 17 witness seq(17, _ => 0)

  function CountsTo(cards: seq<Card>, k: nat, ctx: RuleContext): Counts
    requires k <= |cards|
  {
    seq(17, r => Count(cards, k, ctx, r))
  }

  function Sum(c: Counts, k: nat): nat
    requires k <= 17
  {
    if k == 0 then 0 else Sum(c, k - 1) + c[k - 1]
  }

  function Total(c: Counts): nat {
    Sum(c, 17)
  }

  lemma {:induction false} SumBump(c: Counts, d: Counts, r: nat, k: nat)
    requires k <= 17 && r < 17 && forall i :: 0 <= i < 17 ==> d[i] == c[i] + if i == r then 1 else 0
    ensures Sum(d, k) == Sum(c, k) + if r < k then 1 else 0
  {
    if k > 0 {
      SumBump(c, d, r, k - 1);
    }
  }

  lemma {:induction false} SumZero(c: Counts, k: nat)
    requires k <= 17 && forall i :: 0 <= i < k ==> c[i] == 0
    ensures Sum(c, k) == 0
  {
    if k > 0 {
      SumZero(c, k - 1);
    }
  }

  lemma {:induction false} SumAtLeast(c: Counts, r: nat, k: nat)
    requires k <= 17 && r < k
    ensures c[r] <= Sum(c, k)
  {
    if r < k - 1 {
      SumAtLeast(c, r, k - 1);
    }
  }

  /** If at most the ranks a and b occur, their counts make the sum. */
  lemma {:induction false} SumOfTwo(c: Counts, a: nat, b: nat, k: nat)
    requires k <= 17 && a < 17 && b < 17 && a != b && forall i :: 0 <= i < 17 && i != a && i != b ==> c[i] == 0
    ensures Sum(c, k) == (if a < k then c[a] else 0) + (if b < k then c[b] else 0)
  {
    if k > 0 {
      SumOfTwo(c, a, b, k - 1);
    }
  }

  /** Every card is either wild or counted under its rank. */
  lemma {:induction false} CountsTotal(cards: seq<Card>, k: nat, ctx: RuleContext)
    requires k <= |cards|
    ensures Total(CountsTo(cards, k, ctx)) + WildCount(cards, k, ctx) == k
  {
    if k == 0 {
      SumZero(CountsTo(cards, 0, ctx), 17);
    } else {
      CountsTotal(cards, k - 1, ctx);
      if ctx.IsWild(cards[k - 1]) {
        assert CountsTo(cards, k, ctx) == CountsTo(cards, k - 1, ctx);
      } else {
        SumBump(CountsTo(cards, k - 1, ctx), CountsTo(cards, k, ctx), cards[k - 1].rank, 17);
      }
    }
  }

  lemma {:induction false} CountRange(cards: seq<Card>, k: nat, ctx: RuleContext, r: int)
    requires k <= |cards| && !(2 <= r <= 16)
    ensures Count(cards, k, ctx, r) == 0
  {
    if k > 0 {
      CountRange(cards, k - 1, ctx, r);
    }
  }

  // ----- order of the cards does not matter -----

  lemma {:induction false} CountPrefix(a: seq<Card>, b: seq<Card>, k: nat, ctx: RuleContext, r: int)
    requires k <= |a| && k <= |b| && forall i :: 0 <= i < k ==> a[i] == b[i]
    ensures Count(a, k, ctx, r) == Count(b, k, ctx, r)
  {
    if k > 0 {
      CountPrefix(a, b, k - 1, ctx, r);
    }
  }

  lemma {:induction false} CountConcat(a: seq<Card>, b: seq<Card>, k: nat, ctx: RuleContext, r: int)
    requires k <= |b|
    ensures Count(a + b, |a| + k, ctx, r) == Count(a, |a|, ctx, r) + Count(b, k, ctx, r)
  {
    if k == 0 {
      CountPrefix(a + b, a, |a|, ctx, r);
    } else {
      CountConcat(a, b, k - 1, ctx, r);
      assert (a + b)[|a| + k - 1] == b[k - 1];
    }
  }

  lemma CountMove(a: seq<Card>, x: Card, b: seq<Card>, ctx: RuleContext, r: int)
    ensures Count(a + [x] + b, |a + [x] + b|, ctx, r) == Count(a + b, |a + b|, ctx, r) + Shows(x, ctx, r)
  {
    CountConcat(a + [x], b, |b|, ctx, r);
    CountConcat(a, b, |b|, ctx, r);
    CountSnoc(a, x, ctx, r);
  }

  lemma CountSnoc(a: seq<Card>, x: Card, ctx: RuleContext, r: int)
    ensures Count(a + [x], |a + [x]|, ctx, r) == Count(a, |a|, ctx, r) + Shows(x, ctx, r)
  {
    CountPrefix(a + [x], a, |a|, ctx, r);
  }

  lemma TakeOne<T>(s: seq<T>, x: T) returns (i: nat)
    requires x in multiset(s)
    ensures i < |s| && s[i] == x
    ensures s == s[..i] + [x] + s[i + 1..]
    ensures multiset(s[..i] + s[i + 1..]) == multiset(s) - multiset{x}
  {
    i :| 0 <= i < |s| && s[i] == x;
    assert s == s[..i] + [x] + s[i + 1..];
  }

  lemma {:induction false} CountPermutation(a: seq<Card>, b: seq<Card>, ctx: RuleContext, r: int)
    requires multiset(a) == multiset(b)
    ensures |a| == |b| && Count(a, |a|, ctx, r) == Count(b, |b|, ctx, r)
    decreases |a|
  {
    assert |a| == |multiset(a)| == |b|;
    if a != [] {
      var k := |a| - 1;
      var x := a[k];
      assert a == a[..k] + [x];
      var i := TakeOne(b, x);
      var rest := b[..i] + b[i + 1..];
      assert multiset(a[..k]) == multiset(a) - multiset{x};
      CountPermutation(a[..k], rest, ctx, r);
      CountPrefix(a, a[..k], k, ctx, r);
      CountMove(b[..i], x, b[i + 1..], ctx, r);
    }
  }

  // ----- shapes and readings -----

  datatype Shape =
    | Same(r: int, k: nat)                        // k cells of one rank
    | House(triple: int, pair: int)               // three and two
    | Window(start: nat, len: nat, mult: nat)     // len consecutive slots, mult cells each

  /** Rank of a window slot: slot 1 is the low ace, slot 14 the high one. */
  function SlotRank(slot: int): int {
    if slot == 1 then ACE else if 2 <= slot <= 14 then slot else -1
  }

  /** How many cells of rank `r` a shape has. */
  function Cell(s: Shape, r: int): nat {
    match s
    case Same(x, k) => if r == x then k else 0
    case House(a, b) => if r == a then 3 else if r == b then 2 else 0
    case Window(start, len, mult) =>
      if (start <= r < start + len && 2 <= r <= 14) || (r == ACE && start <= 1 < start + len) then mult else 0
  }

  function Size(s: Shape): nat {
    match s
    case Same(_, k) => k
    case House(_, _) => 5
    case Window(_, len, mult) => len * mult
  }

  /** The shape's cells are ranks 2..`top`, and a window does not wrap onto itself. */
  predicate Proper(s: Shape, top: int) {
    match s
    case Same(r, _) => 2 <= r <= top
    case House(a, b) => 2 <= a <= top && 2 <= b <= top && a != b
    case Window(start, len, _) => 1 <= start && start + len <= 15 && len <= 13 && 14 <= top
  }

  /** One rank for each card: its own for a natural card, any rank up to `top` for a wild one. */
  ghost predicate IsReading(cards: seq<Card>, ctx: RuleContext, f: seq<int>, top: int) {
    |f| == |cards| &&
    forall i :: 0 <= i < |cards| ==> if ctx.IsWild(cards[i]) then 2 <= f[i] <= top else f[i] == cards[i].rank
  }

  /** How often `r` occurs among the first `k` entries. */
  function Occurrences(f: seq<int>, k: nat, r: int): nat
    requires k <= |f|
  {
    if k == 0 then 0 else Occurrences(f, k - 1, r) + if f[k - 1] == r then 1 else 0
  }

  /** The wild cards can be given ranks so that the cards show exactly the cells of the shape. */
  ghost predicate Completes(cards: seq<Card>, ctx: RuleContext, s: Shape, top: int) {
    exists f :: IsReading(cards, ctx, f, top) && |f| == Size(s) && forall r :: Occurrences(f, |f|, r) == Cell(s, r)
  }

  /** The natural cards find room in the shape. */
  ghost predicate Fits(c: Counts, s: Shape) {
    forall r :: 2 <= r <= 16 ==> c[r] <= Cell(s, r)
  }

  lemma {:induction false} ReadingCovers(cards: seq<Card>, ctx: RuleContext, f: seq<int>, top: int, k: nat, r: int)
    requires IsReading(cards, ctx, f, top) && k <= |cards|
    ensures Count(cards, k, ctx, r) <= Occurrences(f, k, r)
  {
    if k > 0 {
      ReadingCovers(cards, ctx, f, top, k - 1, r);
    }
  }

  /** The ranks shown by the first `k` cards when their wild ones take the ranks `w`, in order. */
  ghost function Fill(cards: seq<Card>, k: nat, ctx: RuleContext, w: seq<int>): (f: seq<int>)
    requires k <= |cards| && |w| == WildCount(cards, k, ctx)
    ensures |f| == k
  {
    if k == 0 then []
    else if ctx.IsWild(cards[k - 1]) then Fill(cards, k - 1, ctx, w[..|w| - 1]) + [w[|w| - 1]]
    else Fill(cards, k - 1, ctx, w) + [cards[k - 1].rank as int]
  }

  lemma {:induction false} FillReads(cards: seq<Card>, k: nat, ctx: RuleContext, w: seq<int>, top: int, i: nat)
    requires k <= |cards| && |w| == WildCount(cards, k, ctx)
    requires forall j :: 0 <= j < |w| ==> 2 <= w[j] <= top
    requires i < k
    ensures var r := Fill(cards, k, ctx, w)[i]; if ctx.IsWild(cards[i]) then 2 <= r <= top else r == cards[i].rank
  {
    if i < k - 1 {
      FillReads(cards, k - 1, ctx, if ctx.IsWild(cards[k - 1]) then w[..|w| - 1] else w, top, i);
    }
  }

  lemma {:induction false} OccurrencesPrefix(a: seq<int>, b: seq<int>, k: nat, r: int)
    requires k <= |a| && k <= |b| && forall i :: 0 <= i < k ==> a[i] == b[i]
    ensures Occurrences(a, k, r) == Occurrences(b, k, r)
  {
    if k > 0 {
      OccurrencesPrefix(a, b, k - 1, r);
    }
  }

  lemma {:induction false} FillOccurrences(cards: seq<Card>, k: nat, ctx: RuleContext, w: seq<int>, r: int)
    requires k <= |cards| && |w| == WildCount(cards, k, ctx)
    ensures Occurrences(Fill(cards, k, ctx, w), k, r) == Count(cards, k, ctx, r) + Occurrences(w, |w|, r)
  {
    if k > 0 {
      var f := Fill(cards, k, ctx, w);
      if ctx.IsWild(cards[k - 1]) {
        var v := w[..|w| - 1];
        FillOccurrences(cards, k - 1, ctx, v, r);
        OccurrencesPrefix(f, Fill(cards, k - 1, ctx, v), k - 1, r);
        OccurrencesPrefix(w, v, |v|, r);
      } else {
        FillOccurrences(cards, k - 1, ctx, w, r);
        OccurrencesPrefix(f, Fill(cards, k - 1, ctx, w), k - 1, r);
      }
    }
  }

  function Repeat(n: nat, x: int): (s: seq<int>)
    ensures |s| == n && forall i :: 0 <= i < n ==> s[i] == x
  {
    seq(n, _ => x)
  }

  /** The cells of rank below `k` that the natural cards leave free. */
  ghost function Free(c: Counts, s: Shape, k: nat): (w: seq<int>)
    requires Fits(c, s) && k <= 17
    ensures forall i :: 0 <= i < |w| ==> 2 <= w[i] < k && Cell(s, w[i]) > 0
  {
    if k <= 2 then [] else Free(c, s, k - 1) + Repeat(Cell(s, k - 1) - c[k - 1], k - 1)
  }

  lemma {:induction false} OccurrencesAppend(a: seq<int>, n: nat, x: int, r: int)
    ensures Occurrences(a + Repeat(n, x), |a| + n, r) == Occurrences(a, |a|, r) + if r == x then n else 0
  {
    if n == 0 {
      OccurrencesPrefix(a + Repeat(n, x), a, |a|, r);
    } else {
      OccurrencesAppend(a, n - 1, x, r);
      OccurrencesPrefix(a + Repeat(n, x), a + Repeat(n - 1, x), |a| + n - 1, r);
    }
  }

  /** Number of cells of rank below `k`. */
  ghost function Cells(s: Shape, k: nat): nat {
    if k <= 2 then 0 else Cells(s, k - 1) + Cell(s, k - 1)
  }

  lemma {:induction false} FreeOccurrences(c: Counts, s: Shape, k: nat, r: int)
    requires Fits(c, s) && k <= 17
    ensures Occurrences(Free(c, s, k), |Free(c, s, k)|, r) == if 2 <= r < k then Cell(s, r) - c[r] else 0
  {
    hide Cell, Repeat;
    if k > 2 {
      FreeOccurrences(c, s, k - 1, r);
      var before, n := Free(c, s, k - 1), Cell(s, k - 1) - c[k - 1];
      assert Free(c, s, k) == before + Repeat(n, k - 1);
      OccurrencesAppend(before, n, k - 1, r);
    }
  }

  lemma {:induction false} FreeSize(c: Counts, s: Shape, k: nat)
    requires Fits(c, s) && k <= 17 && c[0] == c[1] == 0
    ensures |Free(c, s, k)| + Sum(c, k) == Cells(s, k)
  {
    if k > 2 {
      FreeSize(c, s, k - 1);
    } else {
      SumZero(c, k);
    }
  }

  lemma CellsTotal(s: Shape, top: int)
    requires Proper(s, top) && top <= 16
    ensures Cells(s, 17) == Size(s)
  {
    match s
    case Same(r, n) => CellsOfTwo(s, r, if r == 2 then 3 else 2, 17);
    case House(a, b) => CellsOfTwo(s, a, b, 17);
    case Window(start, len, mult) => CellsOfWindow(start, len, mult);
  }

  lemma {:induction false} CellsOfTwo(s: Shape, a: int, b: int, k: nat)
    requires 2 <= a && 2 <= b && a != b && forall r :: r != a && r != b ==> Cell(s, r) == 0
    ensures Cells(s, k) == (if a < k then Cell(s, a) else 0) + (if b < k then Cell(s, b) else 0)
  {
    if k > 2 {
      CellsOfTwo(s, a, b, k - 1);
    }
  }

  lemma {:induction false} CellsAddSlot(s: Shape, s': Shape, x: int, mult: nat, k: nat)
    requires 2 <= x && forall r :: Cell(s', r) == Cell(s, r) + if r == x then mult else 0
    ensures Cells(s', k) == Cells(s, k) + if x < k then mult else 0
  {
    if k > 2 {
      CellsAddSlot(s, s', x, mult, k - 1);
    }
  }

  lemma {:induction false} CellsNone(s: Shape, k: nat)
    requires forall r :: Cell(s, r) == 0
    ensures Cells(s, k) == 0
  {
    if k > 2 {
      CellsNone(s, k - 1);
    }
  }

  lemma {:induction false} CellsOfWindow(start: nat, len: nat, mult: nat)
    requires 1 <= start && start + len <= 15 && len <= 13
    ensures Cells(Window(start, len, mult), 17) == len * mult
  {
    if len == 0 {
      CellsNone(Window(start, 0, mult), 17);
    } else {
      CellsOfWindow(start, len - 1, mult);
      CellsAddSlot(Window(start, len - 1, mult), Window(start, len, mult), SlotRank(start + len - 1), mult, 17);
      assert len * mult == (len - 1) * mult + mult;
    }
  }

  /** Counting is enough: the cards complete a shape of their number exactly when
      the natural ones fit inside it. */
  lemma CompletesIffFits(cards: seq<Card>, ctx: RuleContext, s: Shape, top: int)
    requires Proper(s, top) && 14 <= top <= 16
    ensures Completes(cards, ctx, s, top) <==> Fits(CountsTo(cards, |cards|, ctx), s) && |cards| == Size(s)
  {
    var n := |cards|;
    var c := CountsTo(cards, n, ctx);
    if Completes(cards, ctx, s, top) {
      var f :| IsReading(cards, ctx, f, top) && |f| == Size(s) && forall r :: Occurrences(f, |f|, r) == Cell(s, r);
      forall r | 2 <= r <= 16
        ensures c[r] <= Cell(s, r)
      {
        ReadingCovers(cards, ctx, f, top, n, r);
      }
    }
    if Fits(c, s) && n == Size(s) {
      FitsGivesReading(cards, ctx, s, top);
    }
  }

  lemma FitsGivesReading(cards: seq<Card>, ctx: RuleContext, s: Shape, top: int)
    requires Proper(s, top) && 14 <= top <= 16
    requires Fits(CountsTo(cards, |cards|, ctx), s) && |cards| == Size(s)
    ensures Completes(cards, ctx, s, top)
  {
    hide Free, Fill, Count, WildCount, Occurrences, Sum, Cells;
    var n := |cards|;
    var c := CountsTo(cards, n, ctx);
    CountRange(cards, n, ctx, 0);
    CountRange(cards, n, ctx, 1);
    CountsTotal(cards, n, ctx);
    CellsTotal(s, top);
    var w := Free(c, s, 17);
    FreeSize(c, s, 17);
    var f := Fill(cards, n, ctx, w);
    forall i | 0 <= i < n
      ensures if ctx.IsWild(cards[i]) then 2 <= f[i] <= top else f[i] == cards[i].rank
    {
      FillReads(cards, n, ctx, w, top, i);
    }
    assert IsReading(cards, ctx, f, top);
    forall r
      ensures Occurrences(f, n, r) == Cell(s, r)
    {
      FillOccurrences(cards, n, ctx, w, r);
      FreeOccurrences(c, s, 17, r);
      if !(2 <= r <= 16) {
        CountRange(cards, n, ctx, r);
      }
    }
  }

  /** At most one rank occurs. */
  ghost predicate OneRank(c: Counts) {
    forall x, y :: 2 <= x <= 16 && 2 <= y <= 16 && c[x] > 0 && c[y] > 0 ==> x == y
  }
}
