/** Lexicographic order on strings and on lists of strings, and sorting by it. */
module Ordering {

  predicate StrLess(a: string, b: string) {
    b != "" && (a == "" || a[0] < b[0] || (a[0] == b[0] && StrLess(a[1..], b[1..])))
  }

  /** Go's comparison chains: the first differing component decides. */
  predicate RankLess(a: seq<string>, b: seq<string>) {
    b != [] && (a == [] || StrLess(a[0], b[0]) || (a[0] == b[0] && RankLess(a[1..], b[1..])))
  }

  lemma {:induction false} StrTotal(a: string, b: string)
    ensures !(StrLess(a, b) && StrLess(b, a))
    ensures a == b || StrLess(a, b) || StrLess(b, a)
    ensures a == b ==> !StrLess(a, b)
  {
    if a == "" || b == "" {
    } else {
      StrTotal(a[1..], b[1..]);
      if a[0] == b[0] && a[1..] == b[1..] { assert a == [a[0]] + a[1..] && b == [b[0]] + b[1..]; }
    }
  }

  lemma {:induction false} StrTransitive(a: string, b: string, c: string)
    requires StrLess(a, b) && StrLess(b, c)
    ensures StrLess(a, c)
  {
    if a != "" && a[0] == b[0] && b[0] == c[0] { StrTransitive(a[1..], b[1..], c[1..]); }
  }

  lemma {:induction false} RankTotal(a: seq<string>, b: seq<string>)
    ensures !(RankLess(a, b) && RankLess(b, a))
    ensures a == b || RankLess(a, b) || RankLess(b, a)
    ensures a == b ==> !RankLess(a, b)
  {
    if a == [] || b == [] {
    } else {
      StrTotal(a[0], b[0]);
      RankTotal(a[1..], b[1..]);
      if a[0] == b[0] && a[1..] == b[1..] { assert a == [a[0]] + a[1..] && b == [b[0]] + b[1..]; }
    }
  }

  lemma {:induction false} RankTransitive(a: seq<string>, b: seq<string>, c: seq<string>)
    requires RankLess(a, b) && RankLess(b, c)
    ensures RankLess(a, c)
  {
    if a != [] {
      StrTotal(a[0], b[0]);
      StrTotal(b[0], c[0]);
      if StrLess(a[0], b[0]) && StrLess(b[0], c[0]) {
        StrTransitive(a[0], b[0], c[0]);
      } else if a[0] == b[0] && b[0] == c[0] {
        RankTransitive(a[1..], b[1..], c[1..]);
      }
    }
  }

  /** Byte-wise order: after a common part, the one ends and the other goes on, or has the larger character. */
  ghost predicate Earlier(a: string, b: string) {
    exists n :: 0 <= n <= |a| && n < |b| && a[..n] == b[..n] && (n == |a| || a[n] < b[n])
  }

  lemma {:induction false} StrLessMeans(a: string, b: string)
    ensures StrLess(a, b) <==> Earlier(a, b)
  {
    if b == "" || a == "" || a[0] != b[0] {
      if b != "" && (a == "" || a[0] < b[0]) { assert a[..0] == b[..0]; }
    } else {
      StrLessMeans(a[1..], b[1..]);
      if Earlier(a[1..], b[1..]) {
        var n :| 0 <= n <= |a[1..]| && n < |b[1..]| && a[1..][..n] == b[1..][..n]
                 && (n == |a[1..]| || a[1..][n] < b[1..][n]);
        assert a[..n + 1] == [a[0]] + a[1..][..n] && b[..n + 1] == [b[0]] + b[1..][..n];
      }
      if Earlier(a, b) {
        var n :| 0 <= n <= |a| && n < |b| && a[..n] == b[..n] && (n == |a| || a[n] < b[n]);
        assert n > 0;
        assert a[1..][..n - 1] == a[..n][1..] && b[1..][..n - 1] == b[..n][1..];
      }
    }
  }

  /** A comparison chain: the first component that differs decides, each byte by byte. */
  ghost predicate Chain(a: seq<string>, b: seq<string>)
    requires |a| == |b|
  {
    exists n :: 0 <= n < |a| && a[..n] == b[..n] && Earlier(a[n], b[n])
  }

  lemma {:induction false} ChainIsRankLess(a: seq<string>, b: seq<string>)
    requires |a| == |b|
    ensures RankLess(a, b) <==> Chain(a, b)
  {
    if a == [] {
    } else {
      StrLessMeans(a[0], b[0]);
      StrTotal(a[0], b[0]);
      ChainIsRankLess(a[1..], b[1..]);
      if Earlier(a[0], b[0]) { assert a[..0] == b[..0]; }
      if a[0] == b[0] && Chain(a[1..], b[1..]) {
        var n :| 0 <= n < |a[1..]| && a[1..][..n] == b[1..][..n] && Earlier(a[1..][n], b[1..][n]);
        assert a[..n + 1] == [a[0]] + a[1..][..n] && b[..n + 1] == [b[0]] + b[1..][..n];
      }
      if Chain(a, b) {
        var n :| 0 <= n < |a| && a[..n] == b[..n] && Earlier(a[n], b[n]);
        if n > 0 {
          assert a[..n][0] == b[..n][0];
          assert a[1..][..n - 1] == a[..n][1..] && b[1..][..n - 1] == b[..n][1..];
        }
      }
    }
  }

  // ---------------------------------------------------------------------

  /** A sort key: a number first, then names. */
  datatype Rank = Rank(n: int, names: seq<string>)

  predicate Before(a: Rank, b: Rank) { a.n < b.n || (a.n == b.n && RankLess(a.names, b.names)) }

  lemma BeforeTotal(a: Rank, b: Rank)
    ensures !(Before(a, b) && Before(b, a))
    ensures a == b || Before(a, b) || Before(b, a)
    ensures a == b ==> !Before(a, b)
  {
    RankTotal(a.names, b.names);
  }

  lemma BeforeTransitive(a: Rank, b: Rank, c: Rank)
    requires Before(a, b) && Before(b, c)
    ensures Before(a, c)
  {
    if a.n == b.n == c.n { RankTransitive(a.names, b.names, c.names); }
  }

  /** No element is less than an earlier one: all that an unstable sort promises. */
  ghost predicate Sorted<T>(s: seq<T>, rank: T -> Rank) {
    forall i, j :: 0 <= i < j < |s| ==> !Before(rank(s[j]), rank(s[i]))
  }

  function Insert<T>(x: T, s: seq<T>, rank: T -> Rank): (r: seq<T>)
    ensures multiset(r) == multiset{x} + multiset(s)
  {
    if s == [] then [x]
    else if Before(rank(s[0]), rank(x)) then
      assert s == [s[0]] + s[1..];
      [s[0]] + Insert(x, s[1..], rank)
    else
      [x] + s
  }

  /** `sort.Slice`, by insertion; only `Sorted` and the multiset are relied on. */
  function Sort<T>(s: seq<T>, rank: T -> Rank): (r: seq<T>)
    ensures multiset(r) == multiset(s)
  {
    if s == [] then []
    else
      assert s == [s[0]] + s[1..];
      Insert(s[0], Sort(s[1..], rank), rank)
  }

  lemma {:induction false} InsertSorted<T>(x: T, s: seq<T>, rank: T -> Rank)
    requires Sorted(s, rank)
    ensures Sorted(Insert(x, s, rank), rank)
  {
    var r := Insert(x, s, rank);
    if s == [] {
    } else if Before(rank(s[0]), rank(x)) {
      var t := Insert(x, s[1..], rank);
      InsertSorted(x, s[1..], rank);
      forall j | 0 < j < |r| ensures !Before(rank(r[j]), rank(r[0])) {
        assert r[j] == t[j - 1] && t[j - 1] in multiset(t);
        assert t[j - 1] == x || t[j - 1] in s[1..];
        BeforeTotal(rank(s[0]), rank(x));
        if t[j - 1] in s[1..] { var k :| 1 <= k < |s| && s[k] == t[j - 1]; }
      }
    } else {
      forall j | 0 < j < |r| ensures !Before(rank(r[j]), rank(x)) {
        assert r[j] == s[j - 1];
        if Before(rank(r[j]), rank(x)) {
          BeforeTotal(rank(s[0]), rank(x));
          BeforeTotal(rank(s[0]), rank(s[j - 1]));
          if rank(s[0]) != rank(x) && rank(s[j - 1]) != rank(s[0]) {
            BeforeTransitive(rank(x), rank(s[0]), rank(s[j - 1]));
            BeforeTotal(rank(x), rank(s[j - 1]));
          }
        }
      }
    }
  }

  lemma {:induction false} SortSorts<T>(s: seq<T>, rank: T -> Rank)
    ensures Sorted(Sort(s, rank), rank)
  {
    if s == [] {
    } else {
      SortSorts(s[1..], rank);
      InsertSorted(s[0], Sort(s[1..], rank), rank);
    }
  }

  /** When no two elements share a rank, the sorted sequence is determined by its elements. */
  lemma {:induction false} SortedUnique<T>(a: seq<T>, b: seq<T>, rank: T -> Rank)
    requires multiset(a) == multiset(b) && Sorted(a, rank) && Sorted(b, rank)
    requires forall x, y :: x in a && y in a && rank(x) == rank(y) ==> x == y
    ensures a == b
    decreases |a|
  {
    assert |multiset(a)| == |a| && |multiset(b)| == |b|;
    if a != [] {
      SameFirst(a, b, rank);
      SameRest(a, b);
      forall x, y | x in a[1..] && y in a[1..] && rank(x) == rank(y) ensures x == y { assert x in a && y in a; }
      SortedUnique(a[1..], b[1..], rank);
      assert a == [a[0]] + a[1..] && b == [b[0]] + b[1..];
    }
  }

  lemma SameFirst<T>(a: seq<T>, b: seq<T>, rank: T -> Rank)
    requires multiset(a) == multiset(b) && a != [] && b != [] && Sorted(a, rank) && Sorted(b, rank)
    requires forall x, y :: x in a && y in a && rank(x) == rank(y) ==> x == y
    ensures a[0] == b[0]
  {
    assert a[0] in multiset(b) && b[0] in multiset(a);
    var i :| 0 <= i < |b| && b[i] == a[0];
    var j :| 0 <= j < |a| && a[j] == b[0];
    BeforeTotal(rank(a[0]), rank(b[0]));
  }

  lemma SameRest<T>(a: seq<T>, b: seq<T>)
    requires multiset(a) == multiset(b) && a != [] && b != [] && a[0] == b[0]
    ensures multiset(a[1..]) == multiset(b[1..])
  {
    assert a == [a[0]] + a[1..] && b == [b[0]] + b[1..];
    assert multiset(a[1..]) == multiset(a) - multiset{a[0]} && multiset(b[1..]) == multiset(b) - multiset{b[0]};
  }
}
