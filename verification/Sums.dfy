/** Sums of an integer function over finite sets and sequences. */
module Sums {
  /** The sum over a set does not depend on the order of choice: see SumRemove. */
  ghost function SumSet<T>(f: T -> int, s: set<T>): int {
    if s == {} then 0
    else
      var x :| x in s;
      f(x) + SumSet(f, s - {x})
  }

  function SumSeq<T>(f: T -> int, s: seq<T>): int {
    if s == [] then 0 else SumSeq(f, s[..|s| - 1]) + f(s[|s| - 1])
  }

  lemma {:induction false} SumRemove<T>(f: T -> int, s: set<T>, x: T)
    requires x in s
    ensures SumSet(f, s) == f(x) + SumSet(f, s - {x})
    decreases s
  {
    var y :| y in s && SumSet(f, s) == f(y) + SumSet(f, s - {y});
    if y != x {
      SumRemove(f, s - {y}, x);
      SumRemove(f, s - {x}, y);
      assert s - {y} - {x} == s - {x} - {y};
    }
  }

  /** Elements that count nothing may be left out. */
  lemma {:induction false} SumRestrict<T>(f: T -> int, s: set<T>, t: set<T>)
    requires t <= s && forall x :: x in s && x !in t ==> f(x) == 0
    ensures SumSet(f, s) == SumSet(f, t)
    decreases s - t
  {
    if s == t {
    } else {
      var x :| x in s && x !in t;
      SumRemove(f, s, x);
      assert s - {x} - t == (s - t) - {x};
      SumRestrict(f, s - {x}, t);
    }
  }

  lemma {:induction false} SumDifference<T>(f: T -> int, g: T -> int, h: T -> int, s: set<T>)
    requires forall x :: x in s ==> h(x) == f(x) - g(x)
    ensures SumSet(h, s) == SumSet(f, s) - SumSet(g, s)
    decreases s
  {
    if s != {} {
      var x :| x in s;
      SumRemove(f, s, x);
      SumRemove(g, s, x);
      SumRemove(h, s, x);
      SumDifference(f, g, h, s - {x});
    }
  }

  /** f and g agree except at x, where g counts d more. */
  lemma {:induction false} SumBump<T>(f: T -> int, g: T -> int, s: set<T>, x: T, d: int)
    requires x in s && g(x) == f(x) + d
    requires forall y :: y in s && y != x ==> g(y) == f(y)
    ensures SumSet(g, s) == SumSet(f, s) + d
  {
    SumRemove(f, s, x);
    SumRemove(g, s, x);
    SumSame(f, g, s - {x});
  }

  lemma {:induction false} SumSame<T>(f: T -> int, g: T -> int, s: set<T>)
    requires forall y :: y in s ==> g(y) == f(y)
    ensures SumSet(g, s) == SumSet(f, s)
    decreases s
  {
    if s != {} {
      var x :| x in s;
      SumRemove(f, s, x);
      SumRemove(g, s, x);
      SumSame(f, g, s - {x});
    }
  }

  /** A sequence that lists two sets, in any order, sums to the sums of the two. */
  lemma {:induction false} SumOfTwoSets<T>(f: T -> int, s: seq<T>, a: set<T>, b: set<T>)
    requires multiset(s) == multiset(a) + multiset(b)
    ensures SumSeq(f, s) == SumSet(f, a) + SumSet(f, b)
    decreases s
  {
    if s == [] {
      assert forall x :: x in a ==> x in multiset(s);
      assert forall x :: x in b ==> x in multiset(s);
      assert a == {} && b == {};
    } else {
      var init, x := s[..|s| - 1], s[|s| - 1];
      assert s == init + [x];
      assert multiset(init) == multiset(s) - multiset{x};
      assert x in multiset(s);
      if x in a {
        assert multiset(a - {x}) == multiset(a) - multiset{x};
        SumRemove(f, a, x);
        SumOfTwoSets(f, init, a - {x}, b);
      } else {
        assert x in b;
        assert multiset(b - {x}) == multiset(b) - multiset{x};
        SumRemove(f, b, x);
        SumOfTwoSets(f, init, a, b - {x});
      }
    }
  }
}
