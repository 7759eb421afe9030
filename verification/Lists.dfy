/** Lists without repetitions and the multisets of their elements. */
module Lists {

  predicate NoDuplicates<T(==)>(s: seq<T>) {
    forall i, j :: 0 <= i < j < |s| ==> s[i] != s[j]
  }

  lemma {:induction false} CountOnce<T>(s: seq<T>, x: T)
    requires NoDuplicates(s)
    ensures multiset(s)[x] == if x in s then 1 else 0
  {
    if s != [] {
      var k := |s| - 1;
      assert s == s[..k] + [s[k]];
      CountOnce(s[..k], x);
    }
  }

  lemma {:induction false} CountTwice<T>(s: seq<T>, i: nat, j: nat)
    requires i < j < |s| && s[i] == s[j]
    ensures multiset(s)[s[i]] >= 2
  {
    assert s == [s[0]] + s[1..];
    if i > 0 {
      CountTwice(s[1..], i - 1, j - 1);
    } else {
      assert s[1..][j - 1] == s[0];
    }
  }

  lemma SameMembersSameBag<T>(a: seq<T>, b: seq<T>)
    requires NoDuplicates(a) && NoDuplicates(b) && forall x :: x in a <==> x in b
    ensures multiset(a) == multiset(b)
  {
    forall x
      ensures multiset(a)[x] == multiset(b)[x]
    {
      CountOnce(a, x);
      CountOnce(b, x);
    }
  }

  // ----- erasing a value -----

  /** The list without the occurrences of `x`. */
  function Erase<T(==)>(s: seq<T>, x: T): (r: seq<T>)
    ensures (forall y :: y in r ==> y in s && y != x) && (forall y :: y in s && y != x ==> y in r)
  {
    if s == [] then [] else (if s[0] == x then [] else [s[0]]) + Erase(s[1..], x)
  }

  /** The effect of the i-th element on the rest still to be looked at. */
  lemma EraseStep<T>(s: seq<T>, x: T, i: nat)
    requires i < |s|
    ensures Erase(s[i..], x) == (if s[i] == x then [] else [s[i]]) + Erase(s[i + 1..], x)
  {
    assert s[i..][0] == s[i] && s[i..][1..] == s[i + 1..];
  }

  lemma MoveAcross<T>(a: seq<T>, b: seq<T>, c: seq<T>)
    ensures (a + b) + c == a + (b + c)
  {
  }

  /** The usual erase-remove. */
  method EraseAll<T(==)>(s: seq<T>, x: T) returns (r: seq<T>)
    ensures r == Erase(s, x)
  {
    hide Erase;
    r := [];
    for i := 0 to |s|
      invariant r + Erase(s[i..], x) == Erase(s[0..], x)
    {
      EraseStep(s, x, i);
      MoveAcross(r, if s[i] == x then [] else [s[i]], Erase(s[i + 1..], x));
      r := r + if s[i] == x then [] else [s[i]];
    }
    EraseNothing(x);
    assert s[|s|..] == [] && s[0..] == s && r + [] == r;
  }

  lemma EraseNothing<T>(x: T)
    ensures Erase([], x) == []
  {
  }
}
