/** Sums of a quantity over a finite set, independent of the order of summation. */
module Sums {

  ghost function Sum<K(!new)>(s: set<K>, f: K -> int): int {
    if s == {} then 0
    else
      var k :| k in s;
      f(k) + Sum(s - {k}, f)
  }

  lemma {:induction false} SumRemove<K(!new)>(s: set<K>, k: K, f: K -> int)
    requires k in s
    ensures Sum(s, f) == f(k) + Sum(s - {k}, f)
    decreases s
  {
    var j :| j in s && Sum(s, f) == f(j) + Sum(s - {j}, f);
    if j != k {
      SumRemove(s - {j}, k, f);
      SumRemove(s - {k}, j, f);
      assert s - {j} - {k} == s - {k} - {j};
    }
  }

  lemma {:induction false} SumUnion<K(!new)>(s: set<K>, t: set<K>, f: K -> int)
    requires s !! t
    ensures Sum(s + t, f) == Sum(s, f) + Sum(t, f)
    decreases s
  {
    if s == {} {
      assert s + t == t;
    } else {
      var k :| k in s;
      SumRemove(s, k, f);
      SumRemove(s + t, k, f);
      assert s + t - {k} == (s - {k}) + t;
      SumUnion(s - {k}, t, f);
    }
  }

  /** A sum over a subset plus the rest is the whole. */
  lemma SumSplit<K(!new)>(s: set<K>, part: set<K>, f: K -> int)
    requires part <= s
    ensures Sum(s, f) == Sum(part, f) + Sum(s - part, f)
  {
    SumUnion(part, s - part, f);
    assert part + (s - part) == s;
  }

  lemma {:induction false} SumAtMost<K(!new)>(s: set<K>, f: K -> int, g: K -> int)
    requires forall k <- s :: f(k) <= g(k)
    ensures Sum(s, f) <= Sum(s, g)
    decreases s
  {
    if s != {} {
      var k :| k in s;
      SumRemove(s, k, f);
      SumRemove(s, k, g);
      SumAtMost(s - {k}, f, g);
    }
  }

  lemma SumSame<K(!new)>(s: set<K>, f: K -> int, g: K -> int)
    requires forall k <- s :: f(k) == g(k)
    ensures Sum(s, f) == Sum(s, g)
  {
    SumAtMost(s, f, g);
    SumAtMost(s, g, f);
  }

  lemma {:induction false} SumNonnegative<K(!new)>(s: set<K>, f: K -> int)
    requires forall k <- s :: 0 <= f(k)
    ensures 0 <= Sum(s, f)
    decreases s
  {
    if s != {} {
      var k :| k in s;
      SumRemove(s, k, f);
      SumNonnegative(s - {k}, f);
    }
  }

  lemma {:induction false} SumPlus<K(!new)>(s: set<K>, f: K -> int, g: K -> int, h: K -> int)
    requires forall k <- s :: h(k) == f(k) + g(k)
    ensures Sum(s, h) == Sum(s, f) + Sum(s, g)
    decreases s
  {
    if s != {} {
      var k :| k in s;
      SumRemove(s, k, f);
      SumRemove(s, k, g);
      SumRemove(s, k, h);
      SumPlus(s - {k}, f, g, h);
    }
  }

  lemma SumZero<K(!new)>(s: set<K>, f: K -> int)
    requires forall k <- s :: f(k) == 0
    ensures Sum(s, f) == 0
  {
    SumPlus(s, f, f, f);
  }

  /** Sets that differ only where the quantity vanishes have the same sum. */
  lemma SumSupport<K(!new)>(s: set<K>, t: set<K>, f: K -> int)
    requires forall k <- s :: k !in t ==> f(k) == 0
    requires forall k <- t :: k !in s ==> f(k) == 0
    ensures Sum(s, f) == Sum(t, f)
  {
    SumSplit(s, s * t, f);
    SumSplit(t, s * t, f);
    SumZero(s - s * t, f);
    SumZero(t - s * t, f);
  }
}
