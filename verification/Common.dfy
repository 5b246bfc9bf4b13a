/** Result types shared by every module. */
module Wrappers {
  datatype Option<+T> = None | Some(value: T)

  datatype Result<+T, +E> = Ok(value: T) | Err(error: E)
}

/** Sequences without repeats. */
module Lists {
  predicate Distinct<T(==)>(s: seq<T>) {
    forall i, j :: 0 <= i < j < |s| ==> s[i] != s[j]
  }
}

/** Go's int64: amounts are cents in a signed 64-bit integer, and sums wrap around silently. */
module Int64 {
  const MAX := 0x7fff_ffff_ffff_ffff
  const MIN := -0x8000_0000_0000_0000
  const MODULUS := 0x1_0000_0000_0000_0000

  type int64 = x: int | MIN <= x <= MAX

  predicate Fits(x: int) {
    MIN <= x <= MAX
  }

  /** The int64 that Go computes when the exact result is x. */
  function Wrap(x: int): (r: int64)
    ensures Fits(x) ==> r == x
  {
    (x - MIN) % MODULUS + MIN
  }

  /** A value fits exactly if wrapping leaves it alone; the two ends meet. */
  lemma FitsIsExact(x: int)
    ensures Fits(x) <==> Wrap(x) == x
    ensures Wrap(0x7fff_ffff_ffff_ffff + 1) == -0x8000_0000_0000_0000
  {
  }

  /** Wrapping moves a value by whole turns. */
  lemma WrapTurns(x: int) returns (k: int)
    ensures Wrap(x) == x + k * MODULUS
  {
    k := -((x - MIN) / MODULUS);
  }

  function Abs(x: int64): int64 {
    if x < 0 then Wrap(0 - x) else x
  }

  /** Two exact results that differ by whole turns wrap to the same int64. */
  lemma WrapCongruent(x: int, y: int, k: int)
    requires x == y + k * MODULUS
    ensures Wrap(x) == Wrap(y)
  {
    var p := WrapTurns(x);
    var q := WrapTurns(y);
    assert Wrap(x) - Wrap(y) == (k + p - q) * MODULUS;
    if k + p - q >= 1 {
    } else if k + p - q <= -1 {
    }
  }

  /** Wrapping an operand early does not change the wrapped sum. */
  lemma WrapAdd(x: int, y: int)
    ensures Wrap(Wrap(x) + y) == Wrap(x + y)
  {
    var k := WrapTurns(x);
    WrapCongruent(Wrap(x) + y, x + y, k);
  }

  /** Equal wrapped values come from exact values a whole number of turns apart. */
  lemma WrapEqual(x: int, y: int) returns (k: int)
    requires Wrap(x) == Wrap(y)
    ensures x == y + k * MODULUS
  {
    var p := WrapTurns(x);
    var q := WrapTurns(y);
    k := q - p;
  }
}

/** Sequences ordered by a total order: the result of sorting does not depend on the input order. */
module Sorting {
  ghost predicate TotalOrder<T(!new)>(le: (T, T) -> bool) {
    && (forall x :: le(x, x))
    && (forall x, y :: le(x, y) || le(y, x))
    && (forall x, y :: le(x, y) && le(y, x) ==> x == y)
    && (forall x, y, z :: le(x, y) && le(y, z) ==> le(x, z))
  }

  ghost predicate SortedBy<T>(le: (T, T) -> bool, s: seq<T>) {
    forall i, j :: 0 <= i < j < |s| ==> le(s[i], s[j])
  }

  /** Sorted sequences with the same elements start with the same one. */
  lemma SameHead<T(!new)>(le: (T, T) -> bool, s: seq<T>, t: seq<T>)
    requires TotalOrder(le)
    requires SortedBy(le, s) && SortedBy(le, t)
    requires s != [] && multiset(s) == multiset(t)
    ensures t != [] && s[0] == t[0]
  {
    assert s[0] in multiset(t);
    assert t[0] in multiset(s);
    assert le(s[0], t[0]) && le(t[0], s[0]);
  }

  lemma TailElements<T>(s: seq<T>)
    requires s != []
    ensures multiset(s[1..]) == multiset(s) - multiset{s[0]}
  {
    assert s == [s[0]] + s[1..];
  }

  lemma {:induction false} SortedUnique<T(!new)>(le: (T, T) -> bool, s: seq<T>, t: seq<T>)
    requires TotalOrder(le)
    requires SortedBy(le, s) && SortedBy(le, t)
    requires multiset(s) == multiset(t)
    ensures s == t
  {
    if s == [] {
      assert |multiset(t)| == 0;
    } else {
      SameHead(le, s, t);
      TailElements(s);
      TailElements(t);
      SortedUnique(le, s[1..], t[1..]);
    }
  }
}
