/** Clockwise geometry of the seats: steps, distances, the seats still playing. */
module Seats {
  import opened Lists
  import opened Cards
  import opened State

  /** The seat `k` places clockwise of `a`. */
  function Step(a: int, k: int, n: int): (s: int)
    requires 0 <= a < n && 0 <= k <= n
    ensures 0 <= s < n
  {
    if a + k >= n then a + k - n else a + k
  }

  lemma StepIsMod(a: int, k: int, n: int)
    requires 0 <= a < n && 0 <= k <= n
    ensures (a + k) % n == Step(a, k, n)
  {
    if a + k >= n {
      ModOnce(a + k, n);
    } else {
      ModNone(a + k, n);
    }
  }

  lemma ModNone(x: int, n: int)
    requires 0 <= x < n
    ensures x % n == x
  {
  }

  lemma ModOnce(x: int, n: int)
    requires 0 < n <= x < 2 * n
    ensures x % n == x - n
  {
    var q, r := x / n, x % n;
    assert x == q * n + r;
    assert q <= 0 ==> q * n <= 0;
    assert q >= 2 ==> q * n >= 2 * n;
  }

  /** Clockwise distance from `a` to `b`, in 1..n. */
  function Dist(a: int, b: int, n: int): (d: int)
    requires 0 <= a < n && 0 <= b < n
    ensures 1 <= d <= n && Step(a, d, n) == b
  {
    if b > a then b - a else b - a + n
  }

  lemma DistOfStep(a: int, e: int, n: int)
    requires 0 <= a < n && 1 <= e <= n
    ensures Dist(a, Step(a, e, n), n) == e
    ensures Step(a, e, n) == a <==> e == n
  {
  }

  /** A seat of the game, still holding cards. */
  predicate Active(p: seq<Player>, n: int, s: int) {
    0 <= s < n <= |p| && !p[s].hasFinished
  }

  /** First active seat at distance `k` or more from `from`; `from` itself if there is none. */
  function NextFrom(p: seq<Player>, n: int, from: int, k: int): (s: int)
    requires 0 <= from < n <= |p| && 1 <= k <= n + 1
    ensures 0 <= s < n
    decreases n + 1 - k
  {
    if k > n then from
    else if !p[Step(from, k, n)].hasFinished then Step(from, k, n)
    else NextFrom(p, n, from, k + 1)
  }

  lemma {:induction false} NextFromIs(p: seq<Player>, n: int, from: int, k: int, d: int)
    requires 0 <= from < n <= |p| && 1 <= k <= d <= n
    requires Active(p, n, Step(from, d, n)) && forall j :: k <= j < d ==> !Active(p, n, Step(from, j, n))
    ensures NextFrom(p, n, from, k) == Step(from, d, n)
    decreases d - k
  {
    if k < d {
      assert !Active(p, n, Step(from, k, n));
      NextFromIs(p, n, from, k + 1, d);
    }
  }

  function NextActive(p: seq<Player>, n: int, from: int): (s: int)
    requires 0 <= from < n <= |p|
    ensures 0 <= s < n
  {
    NextFrom(p, n, from, 1)
  }

  lemma {:induction false} NextFromActive(p: seq<Player>, n: int, from: int, k: int, s: int)
    requires 0 <= from < n <= |p| && 1 <= k <= n && Active(p, n, s) && Dist(from, s, n) >= k
    ensures Active(p, n, NextFrom(p, n, from, k))
    ensures s != from ==> NextFrom(p, n, from, k) != from
    decreases n - k
  {
    if p[Step(from, k, n)].hasFinished {
      NextFromActive(p, n, from, k + 1, s);
    }
  }

  /** The next active seat is active, and another one, if another one is active. */
  lemma NextActiveIsActive(p: seq<Player>, n: int, from: int, s: int)
    requires 0 <= from < n <= |p| && Active(p, n, s)
    ensures Active(p, n, NextActive(p, n, from))
    ensures s != from ==> NextActive(p, n, from) != from
  {
    NextFromActive(p, n, from, 1, s);
  }

  // ----- the active seats of an arc -----

  /** The active seats at distances 1..d from `a`, in clockwise order. */
  function Arc(p: seq<Player>, n: int, a: int, d: int): seq<int>
    requires 0 <= a < n <= |p| && 0 <= d <= n
  {
    if d == 0 then [] else Arc(p, n, a, d - 1) + if Active(p, n, Step(a, d, n)) then [Step(a, d, n)] else []
  }

  lemma {:induction false} ArcMembers(p: seq<Player>, n: int, a: int, d: int)
    requires 0 <= a < n <= |p| && 0 <= d <= n
    ensures forall s :: s in Arc(p, n, a, d) <==> Active(p, n, s) && Dist(a, s, n) <= d
    ensures NoDuplicates(Arc(p, n, a, d))
  {
    if d > 0 {
      ArcMembers(p, n, a, d - 1);
      var s := Step(a, d, n);
      assert Dist(a, s, n) == d;
      forall x
        ensures x in Arc(p, n, a, d) <==> Active(p, n, x) && Dist(a, x, n) <= d
      {
        assert Active(p, n, x) && Dist(a, x, n) == d ==> x == s;
      }
    }
  }

  lemma {:induction false} ArcGrows(p: seq<Player>, n: int, a: int, d: int, e: int)
    requires 0 <= a < n <= |p| && 0 <= d <= e <= n
    ensures Arc(p, n, a, d) <= Arc(p, n, a, e)
    ensures (forall j :: d < j <= e ==> !Active(p, n, Step(a, j, n))) ==> Arc(p, n, a, e) == Arc(p, n, a, d)
    ensures (exists j :: d < j <= e && Active(p, n, Step(a, j, n))) ==> |Arc(p, n, a, e)| > |Arc(p, n, a, d)|
    decreases e - d
  {
    if d < e {
      ArcGrows(p, n, a, d, e - 1);
      if j :| d < j <= e && Active(p, n, Step(a, j, n)) {
        assert j == e || j <= e - 1;
      }
    }
  }

  /** Arcs depend only on who has finished. */
  lemma {:induction false} ArcSame(p: seq<Player>, q: seq<Player>, n: int, a: int, d: int)
    requires 0 <= a < n <= |p| == |q| && 0 <= d <= n
    requires forall s :: 0 <= s < n ==> p[s].hasFinished == q[s].hasFinished
    ensures Arc(p, n, a, d) == Arc(q, n, a, d)
  {
    if d > 0 {
      ArcSame(p, q, n, a, d - 1);
    }
  }

  // ----- sizes of seat lists -----

  ghost function ToSet<T>(s: seq<T>): set<T> {
    set x | x in s
  }

  lemma {:induction false} NoDuplicatesSize<T>(s: seq<T>)
    requires NoDuplicates(s)
    ensures |ToSet(s)| == |s|
  {
    if s != [] {
      var k := |s| - 1;
      NoDuplicatesSize(s[..k]);
      assert ToSet(s) == ToSet(s[..k]) + {s[k]};
    }
  }

  ghost function Range(n: nat): (s: set<int>)
    ensures forall i :: i in s <==> 0 <= i < n
    ensures |s| == n
  {
    if n == 0 then {} else Range(n - 1) + {n - 1}
  }
}
