/** Counting elements of a history, and summing counters kept in a map. */
module Counting {

  function CountIf<T(!new)>(s: seq<T>, p: T -> bool): (n: nat)
    ensures n <= |s|
  {
    if s == [] then 0 else CountIf(s[..|s|-1], p) + if p(s[|s|-1]) then 1 else 0
  }

  function Filter<T>(s: seq<T>, p: T -> bool): seq<T> {
    if s == [] then []
    else if p(s[|s|-1]) then Filter(s[..|s|-1], p) + [s[|s|-1]]
    else Filter(s[..|s|-1], p)
  }

  lemma CountAppend<T(!new)>(s: seq<T>, x: T, p: T -> bool)
    ensures CountIf(s + [x], p) == CountIf(s, p) + if p(x) then 1 else 0
  {
    assert (s + [x])[..|s|] == s;
  }

  lemma FilterAppend<T(!new)>(s: seq<T>, x: T, p: T -> bool)
    ensures Filter(s + [x], p) == if p(x) then Filter(s, p) + [x] else Filter(s, p)
  {
    assert (s + [x])[..|s|] == s;
  }

  lemma {:induction false} FilterMember<T(!new)>(s: seq<T>, p: T -> bool)
    ensures forall x :: x in Filter(s, p) <==> x in s && p(x)
  {
    if s == [] {
    } else {
      FilterMember(s[..|s|-1], p);
      assert s == s[..|s|-1] + [s[|s|-1]];
    }
  }

  lemma {:induction false} CountSame<T(!new)>(s: seq<T>, p: T -> bool, q: T -> bool)
    requires forall x :: x in s ==> p(x) == q(x)
    ensures CountIf(s, p) == CountIf(s, q)
  {
    if s == [] {
    } else {
      CountSame(s[..|s|-1], p, q);
    }
  }

  lemma {:induction false} CountLess<T(!new)>(s: seq<T>, p: T -> bool, q: T -> bool)
    requires forall x :: x in s && p(x) ==> q(x)
    ensures CountIf(s, p) <= CountIf(s, q)
  {
    if s == [] {
    } else {
      CountLess(s[..|s|-1], p, q);
    }
  }

  /** A disjoint split of what is counted splits the count. */
  lemma {:induction false} CountSplit<T(!new)>(s: seq<T>, p: T -> bool, q: T -> bool, r: T -> bool)
    requires forall x :: x in s ==> (p(x) <==> q(x) || r(x)) && !(q(x) && r(x))
    ensures CountIf(s, p) == CountIf(s, q) + CountIf(s, r)
  {
    if s == [] {
    } else {
      CountSplit(s[..|s|-1], p, q, r);
    }
  }

  lemma {:induction false} CountPositive<T(!new)>(s: seq<T>, p: T -> bool)
    ensures CountIf(s, p) > 0 <==> exists x :: x in s && p(x)
  {
    if s == [] {
    } else {
      CountPositive(s[..|s|-1], p);
      assert s == s[..|s|-1] + [s[|s|-1]];
    }
  }

  lemma {:induction false} FilterAnd<T(!new)>(s: seq<T>, p: T -> bool, q: T -> bool, r: T -> bool)
    requires forall x :: x in s ==> (r(x) <==> p(x) && q(x))
    ensures Filter(Filter(s, p), q) == Filter(s, r)
  {
    if s == [] {
    } else {
      FilterAnd(s[..|s|-1], p, q, r);
      if p(s[|s|-1]) { FilterAppend(Filter(s[..|s|-1], p), s[|s|-1], q); }
    }
  }

  // ---------------------------------------------------------------------

  /** A counter that may not exist yet. */
  function At<K>(m: map<K, nat>, k: K): nat { if k in m then m[k] else 0 }

  /** Sum of a function over a finite set. */
  ghost function Sum<K(!new)>(ks: set<K>, f: K -> int): int {
    if ks == {} then 0 else var k :| k in ks; f(k) + Sum(ks - {k}, f)
  }

  lemma {:induction false} SumTakeOut<K(!new)>(ks: set<K>, f: K -> int, k: K)
    requires k in ks
    ensures Sum(ks, f) == f(k) + Sum(ks - {k}, f)
    decreases |ks|
  {
    var j :| j in ks && Sum(ks, f) == f(j) + Sum(ks - {j}, f);
    if j != k {
      SumTakeOut(ks - {j}, f, k);
      SumTakeOut(ks - {k}, f, j);
      assert ks - {j} - {k} == ks - {k} - {j};
    }
  }

  lemma {:induction false} SumSame<K(!new)>(ks: set<K>, f: K -> int, g: K -> int)
    requires forall k :: k in ks ==> f(k) == g(k)
    ensures Sum(ks, f) == Sum(ks, g)
    decreases |ks|
  {
    if ks == {} {
    } else {
      var k :| k in ks;
      SumTakeOut(ks, f, k);
      SumTakeOut(ks, g, k);
      SumSame(ks - {k}, f, g);
    }
  }

  lemma {:induction false} SumZero<K(!new)>(ks: set<K>, f: K -> int)
    requires forall k :: k in ks ==> f(k) == 0
    ensures Sum(ks, f) == 0
    decreases |ks|
  {
    if ks == {} {
    } else {
      var k :| k in ks;
      SumTakeOut(ks, f, k);
      SumZero(ks - {k}, f);
    }
  }

  function Keyed<T, K(==)>(key: T -> K, q: T -> bool, k: K): T -> bool { x => key(x) == k && q(x) }

  /** Counters partitioned by key add up to one count over the whole history. */
  lemma {:induction false} SumOfCounts<T(!new), K(!new)>(s: seq<T>, ks: set<K>, key: T -> K, q: T -> bool,
                                                         f: K -> int, p: T -> bool)
    requires forall k :: k in ks ==> f(k) == CountIf(s, Keyed(key, q, k))
    requires forall x :: x in s ==> (p(x) <==> key(x) in ks && q(x))
    ensures Sum(ks, f) == CountIf(s, p)
  {
    if s == [] {
      SumZero(ks, f);
    } else {
      var front, last := s[..|s|-1], s[|s|-1];
      var g := k => CountIf(front, Keyed(key, q, k));
      SumOfCounts(front, ks, key, q, g, p);
      if key(last) in ks && q(last) {
        var k0 := key(last);
        SumTakeOut(ks, f, k0);
        SumTakeOut(ks, g, k0);
        SumSame(ks - {k0}, f, g);
        assert f(k0) == g(k0) + 1;
      } else {
        SumSame(ks, f, g);
      }
    }
  }
}
