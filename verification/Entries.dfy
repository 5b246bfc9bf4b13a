/** Journal lines and the balance check that every write path of the ledger goes through. */
module Entries {
  import opened Wrappers
  import opened Int64

  /** One leg of a journal entry. */
  datatype EntryLine = EntryLine(account: string, debit: int64, credit: int64)

  /** Exact (unbounded) column sums. */
  function Debits(lines: seq<EntryLine>): int {
    if lines == [] then 0 else Debits(lines[..|lines| - 1]) + lines[|lines| - 1].debit
  }

  function Credits(lines: seq<EntryLine>): int {
    if lines == [] then 0 else Credits(lines[..|lines| - 1]) + lines[|lines| - 1].credit
  }

  /** What a set of lines moves onto one account, debit minus credit. */
  function Net(lines: seq<EntryLine>, account: string): int {
    if lines == [] then 0
    else
      var last := lines[|lines| - 1];
      Net(lines[..|lines| - 1], account) + if last.account == account then last.debit - last.credit else 0
  }

  /** The two CHECK constraints on the entries tables. */
  predicate LineConstraint(l: EntryLine) {
    l.debit >= 0 && l.credit >= 0 && (l.debit == 0) != (l.credit == 0)
  }

  predicate LineConstraints(lines: seq<EntryLine>) {
    forall i :: 0 <= i < |lines| ==> LineConstraint(lines[i])
  }

  datatype BalanceError = NotBalanced | Empty

  /** Whether the wrapped column sums pass. */
  function BalanceProblem(lines: seq<EntryLine>): Option<BalanceError> {
    if Wrap(Debits(lines)) != Wrap(Credits(lines)) then Some(NotBalanced)
    else if Wrap(Debits(lines)) == 0 then Some(Empty)
    else None
  }

  predicate Accepted(lines: seq<EntryLine>) {
    BalanceProblem(lines) == None
  }

  /** validateBalanced: accumulate both columns in int64 and compare. */
  method ValidateBalanced(lines: seq<EntryLine>) returns (problem: Option<BalanceError>)
    ensures problem == BalanceProblem(lines)
  {
    var debit: int64, credit: int64 := 0, 0;
    for i := 0 to |lines|
      invariant debit == Wrap(Debits(lines[..i]))
      invariant credit == Wrap(Credits(lines[..i]))
    {
      assert lines[..i + 1][..i] == lines[..i];
      WrapAdd(Debits(lines[..i]), lines[i].debit);
      WrapAdd(Credits(lines[..i]), lines[i].credit);
      debit := Wrap(debit + lines[i].debit);
      credit := Wrap(credit + lines[i].credit);
    }
    assert lines[..|lines|] == lines;
    if debit != credit {
      return Some(NotBalanced);
    }
    if debit == 0 && credit == 0 {
      return Some(Empty);
    }
    return None;
  }

  /** Accepted lines really balance exactly when the two exact totals are less than one full turn of
      int64 apart: an accepted imbalance is always a whole number of turns. */
  lemma AcceptedBalances(lines: seq<EntryLine>)
    requires Accepted(lines)
    ensures Debits(lines) == Credits(lines) <==> -MODULUS < Debits(lines) - Credits(lines) < MODULUS
    ensures Debits(lines) == Credits(lines) ==> Debits(lines) != 0
  {
    var k := WrapEqual(Debits(lines), Credits(lines));
    if k >= 1 {
    } else if k <= -1 {
    }
  }

  /** Three lines that satisfy every constraint, are accepted, and do not balance. */
  lemma AcceptedWithoutBalance() returns (lines: seq<EntryLine>)
    ensures LineConstraints(lines) && Accepted(lines) && Debits(lines) != Credits(lines)
  {
    var a, b := EntryLine("a", MAX, 0), EntryLine("a", MAX, 0);
    var c, d := EntryLine("a", 7, 0), EntryLine("b", 0, 5);
    lines := [a, b, c, d];
    SumsOfPair(a, b);
    assert lines[..3] == [a, b] + [c] && lines == [a, b, c] + [d];
    SumsSnoc([a, b], c);
    SumsSnoc([a, b, c], d);
    WrapCongruent(Debits(lines), Credits(lines), 1);
  }

  lemma {:induction false} SumsSnoc(lines: seq<EntryLine>, l: EntryLine)
    ensures Debits(lines + [l]) == Debits(lines) + l.debit
    ensures Credits(lines + [l]) == Credits(lines) + l.credit
    ensures forall a :: Net(lines + [l], a) == Net(lines, a) + if l.account == a then l.debit - l.credit else 0
  {
    assert (lines + [l])[..|lines|] == lines;
  }

  lemma {:induction false} SumsOfPair(x: EntryLine, y: EntryLine)
    ensures Debits([x, y]) == x.debit + y.debit && Credits([x, y]) == x.credit + y.credit
    ensures forall a :: Net([x, y], a) == (if x.account == a then x.debit - x.credit else 0)
                                        + (if y.account == a then y.debit - y.credit else 0)
  {
    SumsSnoc([], x);
    SumsSnoc([x], y);
    assert [] + [x] == [x] && [x] + [y] == [x, y];
  }

  lemma {:induction false} SumsNonNegative(lines: seq<EntryLine>)
    requires LineConstraints(lines)
    ensures Debits(lines) >= 0 && Credits(lines) >= 0
  {
    if lines != [] {
      SumsNonNegative(lines[..|lines| - 1]);
    }
  }

  lemma {:induction false} SumsConcat(a: seq<EntryLine>, b: seq<EntryLine>)
    ensures Debits(a + b) == Debits(a) + Debits(b) && Credits(a + b) == Credits(a) + Credits(b)
  {
    if b == [] {
      assert a + b == a;
    } else {
      assert (a + b)[..|a + b| - 1] == a + b[..|b| - 1];
      SumsConcat(a, b[..|b| - 1]);
    }
  }
}
