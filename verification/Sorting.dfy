/** Sorting of finite sets under an order that is total on the set: the meaning of `sorted` and `ORDER BY`
    wherever the sort key ends in a unique identifier. */
module Sorting {
  ghost predicate TotalOn<T(!new)>(s: set<T>, le: (T, T) -> bool) {
    && (forall x, y | x in s && y in s :: le(x, y) || le(y, x))
    && (forall x, y | x in s && y in s && le(x, y) && le(y, x) :: x == y)
    && (forall x, y, z | x in s && y in s && z in s && le(x, y) && le(y, z) :: le(x, z))
  }

  ghost predicate Ordered<T(!new)>(xs: seq<T>, le: (T, T) -> bool) {
    forall i, j | 0 <= i < j < |xs| :: le(xs[i], xs[j])
  }

  ghost predicate Distinct<T>(xs: seq<T>) {
    forall i, j | 0 <= i < j < |xs| :: xs[i] != xs[j]
  }

  ghost function Pick<T(!new)>(s: set<T>): (x: T)
    requires s != {}
    ensures x in s
  {
    var x :| x in s;
    x
  }

  /** Some element of a set. */
  method Take<T>(s: set<T>) returns (x: T)
    requires s != {}
    ensures x in s
  {
    x :| x in s;
  }

  lemma {:induction false} LeastExists<T(!new)>(s: set<T>, le: (T, T) -> bool) returns (m: T)
    requires s != {} && TotalOn(s, le)
    ensures m in s && forall x | x in s :: le(m, x)
  {
    var x :| x in s;
    var rest := s - {x};
    if rest == {} {
      assert forall y | y in s :: y == x by {
        assert forall y | y in s && y != x :: y in rest;
      }
      m := x;
    } else {
      var n := LeastExists(rest, le);
      m := if le(x, n) then x else n;
    }
  }

  /** The elements of `s` in increasing order. */
  function Sort<T(!new)>(s: set<T>, le: (T, T) -> bool): (r: seq<T>)
    requires TotalOn(s, le)
    ensures |r| == |s| && Distinct(r) && Ordered(r, le)
    ensures forall x :: x in r <==> x in s
    decreases |s|
  {
    if s == {} then
      []
    else
      LeastOf(s, le);
      var m :| m in s && forall x | x in s :: le(m, x);
      var rest := Sort(s - {m}, le);
      LeastComesFirst(s, m, rest, le);
      [m] + rest
  }

  lemma LeastComesFirst<T(!new)>(s: set<T>, m: T, rest: seq<T>, le: (T, T) -> bool)
    requires m in s && (forall x | x in s :: le(m, x))
    requires |rest| == |s - {m}| && Distinct(rest) && Ordered(rest, le) && forall x :: x in rest <==> x in s - {m}
    ensures |[m] + rest| == |s| && Distinct([m] + rest) && Ordered([m] + rest, le)
    ensures forall x :: x in [m] + rest <==> x in s
  {
    var r := [m] + rest;
    forall i, j | 0 <= i < j < |r| ensures r[i] != r[j] && le(r[i], r[j]) {
      assert r[j] == rest[j - 1] && rest[j - 1] in rest && r[j] in s - {m};
      if i > 0 {
        assert r[i] == rest[i - 1];
      }
    }
    forall x ensures x in r <==> x in s {
      assert x in r <==> x == m || x in rest;
    }
  }

  lemma LeastOf<T(!new)>(s: set<T>, le: (T, T) -> bool)
    requires s != {} && TotalOn(s, le)
    ensures exists m :: m in s && forall x | x in s :: le(m, x)
  {
    var m := LeastExists(s, le);
  }

  lemma LastIsOnce<T>(xs: seq<T>)
    requires xs != [] && Distinct(xs)
    ensures var rest, last := xs[..|xs| - 1], xs[|xs| - 1];
            last !in rest && forall x :: x in xs <==> x in rest || x == last
  {
    assert xs == xs[..|xs| - 1] + [xs[|xs| - 1]];
  }

  lemma TakeOut<T>(s: seq<T>, k: nat)
    requires k < |s|
    ensures multiset(s) == multiset(s[..k] + s[k + 1..]) + multiset{s[k]}
  {
    assert s == s[..k] + [s[k]] + s[k + 1..];
  }

  lemma {:induction false} DistinctCountOnce<T>(xs: seq<T>)
    requires Distinct(xs)
    ensures forall x | x in xs :: multiset(xs)[x] == 1
  {
    if xs != [] {
      DistinctCountOnce(xs[1..]);
      assert xs == [xs[0]] + xs[1..];
      assert xs[0] !in xs[1..];
    }
  }

  lemma RepeatedCountsTwice<T>(xs: seq<T>, i: nat, j: nat)
    requires i < j < |xs| && xs[i] == xs[j]
    ensures multiset(xs)[xs[i]] >= 2
  {
    assert xs == xs[..j] + [xs[j]] + xs[j + 1..];
    assert xs[i] in xs[..j];
  }

  /** Whatever occurs no more often than in a sequence without repetitions has none either. */
  lemma FewerStayDistinct<T>(a: seq<T>, b: seq<T>)
    requires Distinct(a) && multiset(b) <= multiset(a)
    ensures Distinct(b) && forall x | x in b :: x in a
  {
    DistinctCountOnce(a);
    forall x | x in b ensures x in a {
      assert x in multiset(b) && x in multiset(a);
    }
    forall i, j | 0 <= i < j < |b| ensures b[i] != b[j] {
      if b[i] == b[j] {
        assert b[i] in a;
        RepeatedCountsTwice(b, i, j);
      }
    }
  }

  /** Taking the last element of one sequence out of another with the same elements. */
  lemma RemoveLast<T>(a: seq<T>, b: seq<T>) returns (k: nat)
    requires a != [] && multiset(a) == multiset(b)
    ensures k < |b| && b[k] == a[|a| - 1] && multiset(b[..k] + b[k + 1..]) == multiset(a[..|a| - 1])
  {
    var n := |a| - 1;
    assert a[n] in multiset(a);
    assert a[n] in multiset(b);
    k :| 0 <= k < |b| && b[k] == a[n];
    TakeOut(a, n);
    TakeOut(b, k);
    assert a[..n] + a[n + 1..] == a[..n];
    assert multiset(a[..n]) == multiset(a) - multiset{a[n]};
    assert multiset(b[..k] + b[k + 1..]) == multiset(b) - multiset{b[k]};
  }

  ghost predicate Preorder<T(!new)>(le: (T, T) -> bool) {
    && (forall x, y :: le(x, y) || le(y, x))
    && (forall x, y, z :: le(x, y) && le(y, z) ==> le(x, z))
  }

  function Insert<T>(x: T, xs: seq<T>, le: (T, T) -> bool): seq<T> {
    if xs == [] || le(x, xs[0]) then [x] + xs else [xs[0]] + Insert(x, xs[1..], le)
  }

  /** `list.sort`: the elements in order, whatever their number. */
  function Sorted<T>(xs: seq<T>, le: (T, T) -> bool): seq<T>
    decreases |xs|
  {
    if xs == [] then [] else Insert(xs[|xs| - 1], Sorted(xs[..|xs| - 1], le), le)
  }

  lemma {:induction false} InsertKeeps<T>(x: T, xs: seq<T>, le: (T, T) -> bool)
    ensures multiset(Insert(x, xs, le)) == multiset(xs) + multiset{x}
  {
    if xs != [] && !le(x, xs[0]) {
      InsertKeeps(x, xs[1..], le);
      assert xs == [xs[0]] + xs[1..];
    }
  }

  lemma {:induction false} InsertOrders<T(!new)>(x: T, xs: seq<T>, le: (T, T) -> bool)
    requires Preorder(le) && Ordered(xs, le)
    ensures Ordered(Insert(x, xs, le), le)
  {
    if xs != [] && !le(x, xs[0]) {
      var rest := Insert(x, xs[1..], le);
      InsertOrders(x, xs[1..], le);
      InsertKeeps(x, xs[1..], le);
      forall y | y in rest ensures le(xs[0], y) {
        assert y in multiset(rest);
        assert y == x || y in xs[1..];
      }
      assert Insert(x, xs, le) == [xs[0]] + rest;
    }
  }

  lemma {:induction false} SortedIsOrdered<T(!new)>(xs: seq<T>, le: (T, T) -> bool)
    requires Preorder(le)
    ensures Ordered(Sorted(xs, le), le) && multiset(Sorted(xs, le)) == multiset(xs)
    decreases |xs|
  {
    if xs != [] {
      var init, last := xs[..|xs| - 1], xs[|xs| - 1];
      SortedIsOrdered(init, le);
      InsertOrders(last, Sorted(init, le), le);
      InsertKeeps(last, Sorted(init, le), le);
      assert xs == init + [last];
    }
  }

  /** `some` are the first `limit` of `all`: in order, and nothing left out comes before anything returned. */
  ghost predicate AreFirst<T(!new)>(some: seq<T>, all: seq<T>, limit: int, le: (T, T) -> bool) {
    && |some| == (if limit <= |all| then limit else |all|) && Ordered(some, le)
    && (exists rest: seq<T> :: multiset(some) + multiset(rest) == multiset(all) && NoneBefore(some, rest, le))
  }

  ghost predicate NoneBefore<T(!new)>(some: seq<T>, rest: seq<T>, le: (T, T) -> bool) {
    forall i, j | 0 <= i < |some| && 0 <= j < |rest| :: le(some[i], rest[j])
  }

  function FirstSorted<T>(xs: seq<T>, limit: int, le: (T, T) -> bool): seq<T> {
    var sorted := Sorted(xs, le);
    if 0 <= limit <= |sorted| then sorted[..limit] else sorted
  }

  lemma PrefixComesFirst<T(!new)>(sorted: seq<T>, n: nat, le: (T, T) -> bool)
    requires n <= |sorted| && Ordered(sorted, le)
    ensures multiset(sorted[..n]) + multiset(sorted[n..]) == multiset(sorted)
    ensures Ordered(sorted[..n], le) && NoneBefore(sorted[..n], sorted[n..], le)
  {
    assert sorted == sorted[..n] + sorted[n..];
  }

  lemma FirstSortedAreFirst<T(!new)>(xs: seq<T>, limit: int, le: (T, T) -> bool)
    requires Preorder(le) && limit >= 0
    ensures AreFirst(FirstSorted(xs, limit, le), xs, limit, le)
  {
    SortedIsOrdered(xs, le);
    var sorted := Sorted(xs, le);
    assert |multiset(sorted)| == |sorted| && |multiset(xs)| == |xs|;
    var n := if limit <= |xs| then limit else |xs|;
    PrefixComesFirst(sorted, n, le);
    assert n == |xs| ==> sorted[..n] == sorted;
    assert FirstSorted(xs, limit, le) == sorted[..n];
  }

  lemma FirstStayDistinct<T(!new)>(some: seq<T>, all: seq<T>, limit: int, le: (T, T) -> bool)
    requires AreFirst(some, all, limit, le) && Distinct(all)
    ensures Distinct(some) && forall x | x in some :: x in all
  {
    FewerStayDistinct(all, some);
  }

  lemma FirstAreAmongAll<T(!new)>(some: seq<T>, all: seq<T>, limit: int, le: (T, T) -> bool, i: int)
    requires AreFirst(some, all, limit, le) && 0 <= i < |some|
    ensures some[i] in all
  {
    assert some[i] in multiset(some);
    assert some[i] in multiset(all);
  }

  /** What is not among the first comes after all of them, and there are `limit` of them. */
  lemma FirstOrAfter<T(!new)>(some: seq<T>, all: seq<T>, limit: int, le: (T, T) -> bool, x: T)
    requires AreFirst(some, all, limit, le) && x in all
    ensures x in some || (|some| == limit && forall i | 0 <= i < |some| :: le(some[i], x))
  {
    var rest :| multiset(some) + multiset(rest) == multiset(all) && NoneBefore(some, rest, le);
    assert x in multiset(all);
    if x !in some {
      assert x in multiset(rest) && x in rest;
      var j :| 0 <= j < |rest| && rest[j] == x;
      assert |multiset(all)| == |some| + |rest| && |multiset(all)| == |all|;
    }
  }

  /** A set has one increasing sequence. */
  lemma {:induction false} OrderedIsUnique<T(!new)>(a: seq<T>, b: seq<T>, s: set<T>, le: (T, T) -> bool)
    requires TotalOn(s, le) && Distinct(a) && Distinct(b) && Ordered(a, le) && Ordered(b, le)
    requires (forall x :: x in a <==> x in s) && (forall x :: x in b <==> x in s)
    ensures a == b
    decreases |a|
  {
    assert b != [] ==> b[0] in b;
    if a != [] {
      assert a[0] in a;
      assert a[0] in b;
      assert forall k | 0 < k < |a| :: le(a[0], a[k]);
      assert forall k | 0 < k < |b| :: le(b[0], b[k]);
      assert a[0] == b[0];
      var rest := s - {a[0]};
      TailHolds(a, s);
      TailHolds(b, s);
      OrderedIsUnique(a[1..], b[1..], rest, le);
      assert a == [a[0]] + a[1..] && b == [b[0]] + b[1..];
    }
  }

  lemma TailHolds<T(!new)>(a: seq<T>, s: set<T>)
    requires a != [] && Distinct(a) && forall x :: x in a <==> x in s
    ensures forall x :: x in a[1..] <==> x in s - {a[0]}
  {
    forall x | x in a[1..] ensures x in s - {a[0]} {
      var i :| 0 <= i < |a[1..]| && a[1..][i] == x;
      assert a[i + 1] == x;
    }
    forall x | x in s - {a[0]} ensures x in a[1..] {
      assert x in a;
      var i :| 0 <= i < |a| && a[i] == x;
      assert a[1..][i - 1] == x;
    }
  }

  /** Orders that agree on a set sort it alike. */
  lemma SortAgrees<T(!new)>(s: set<T>, le: (T, T) -> bool, other: (T, T) -> bool)
    requires TotalOn(s, le) && TotalOn(s, other) && forall x, y | x in s && y in s :: le(x, y) == other(x, y)
    ensures Sort(s, le) == Sort(s, other)
  {
    var a, b := Sort(s, le), Sort(s, other);
    forall i, j | 0 <= i < j < |b| ensures le(b[i], b[j]) {
      assert b[i] in b && b[j] in b;
      assert other(b[i], b[j]);
    }
    OrderedIsUnique(a, b, s, le);
  }
}
