/** Sums over finite sets. */
module Sums {
  import Sorting

  ghost function Sum<T(!new)>(s: set<T>, f: T -> int): int
    decreases |s|
  {
    if s == {} then 0
    else
      var x := Sorting.Pick(s);
      f(x) + Sum(s - {x}, f)
  }

  /** Any element may be taken first. */
  lemma {:induction false} SumWithout<T(!new)>(s: set<T>, f: T -> int, x: T)
    requires x in s
    ensures Sum(s, f) == f(x) + Sum(s - {x}, f)
    decreases |s|
  {
    var first := Sorting.Pick(s);
    if first != x {
      SumWithout(s - {first}, f, x);
      SumWithout(s - {x}, f, first);
      assert s - {first} - {x} == s - {x} - {first};
    }
  }

  lemma {:induction false} SumSplits<T(!new)>(a: set<T>, b: set<T>, f: T -> int)
    requires a !! b
    ensures Sum(a + b, f) == Sum(a, f) + Sum(b, f)
    decreases |a|
  {
    if a == {} {
      assert a + b == b;
    } else {
      var x := Sorting.Pick(a);
      SumSplits(a - {x}, b, f);
      SumWithout(a + b, f, x);
      assert a + b - {x} == (a - {x}) + b;
    }
  }

  lemma {:induction false} SumAgrees<T(!new)>(s: set<T>, f: T -> int, g: T -> int)
    requires forall x | x in s :: f(x) == g(x)
    ensures Sum(s, f) == Sum(s, g)
    decreases |s|
  {
    if s != {} {
      SumAgrees(s - {Sorting.Pick(s)}, f, g);
    }
  }

  /** A bigger set, or bigger non-negative terms, can only raise the sum. */
  lemma {:induction false} SumIsMonotone<T(!new)>(a: set<T>, b: set<T>, f: T -> int, g: T -> int)
    requires a <= b && (forall x | x in a :: f(x) <= g(x)) && (forall x | x in b :: 0 <= g(x))
    ensures Sum(a, f) <= Sum(b, g)
    decreases |b|
  {
    if b != {} {
      var x := Sorting.Pick(b);
      SumWithout(b, g, x);
      if x in a {
        SumWithout(a, f, x);
        SumIsMonotone(a - {x}, b - {x}, f, g);
      } else {
        SumIsMonotone(a, b - {x}, f, g);
      }
    } else {
      assert a == {};
    }
  }

  lemma {:induction false} SumIsBounded<T(!new)>(s: set<T>, f: T -> int, bound: int)
    requires forall x | x in s :: f(x) <= bound
    ensures Sum(s, f) <= |s| * bound
    decreases |s|
  {
    if s != {} {
      var rest := s - {Sorting.Pick(s)};
      SumIsBounded(rest, f, bound);
      assert |s| * bound == |rest| * bound + bound;
    }
  }
}
