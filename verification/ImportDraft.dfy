/** The draft of an imported statement: rows are totalled per account and direction, and the payment account
    takes the other side. */
module ImportDraft {
  import opened Int64
  import opened Entries
  import opened Sorting
  import opened Sums
  import opened Text

  /** A decoded element of import_rows; absent values decode to "" and 0. */
  datatype SuggestionRow = SuggestionRow(account: string, amount: int64, direction: string)

  function AccountOf(row: SuggestionRow, fallback: string): string {
    if row.account == "" then fallback else row.account
  }

  predicate Usable(row: SuggestionRow, fallback: string) {
    row.amount > 0 && AccountOf(row, fallback) != ""
  }

  predicate IsInflow(row: SuggestionRow) {
    row.direction == "inflow"
  }

  function Get(m: map<string, int64>, a: string): int64 {
    if a in m then m[a] else 0
  }

  /** The loop's accumulators: amounts per account, the two cash legs, and everything together. */
  datatype Totals = Totals(
    debits: map<string, int64>, credits: map<string, int64>, cashDebits: int64, cashCredits: int64, total: int64)

  function AddTo(m: map<string, int64>, a: string, amount: int64): map<string, int64> {
    m[a := Wrap(Get(m, a) + amount)]
  }

  function AddRow(t: Totals, row: SuggestionRow, fallback: string): Totals {
    if !Usable(row, fallback) then t
    else
      var a := AccountOf(row, fallback);
      if IsInflow(row) then
        t.(credits := AddTo(t.credits, a, row.amount), cashDebits := Wrap(t.cashDebits + row.amount),
            total := Wrap(t.total + row.amount))
      else
        t.(debits := AddTo(t.debits, a, row.amount), cashCredits := Wrap(t.cashCredits + row.amount),
            total := Wrap(t.total + row.amount))
  }

  function Accumulated(rows: seq<SuggestionRow>, fallback: string): Totals {
    if rows == [] then Totals(map[], map[], 0, 0, 0)
    else AddRow(Accumulated(rows[..|rows| - 1], fallback), rows[|rows| - 1], fallback)
  }

  /** The amounts of one direction per account. */
  function PerAccount(rows: seq<SuggestionRow>, fallback: string, inflow: bool): map<string, int64> {
    if inflow then Accumulated(rows, fallback).credits else Accumulated(rows, fallback).debits
  }

  /** The total of one direction. */
  function Total(rows: seq<SuggestionRow>, fallback: string, inflow: bool): int64 {
    if inflow then Accumulated(rows, fallback).cashDebits else Accumulated(rows, fallback).cashCredits
  }

  function FirstSet(a: string, b: string, c: string): string {
    if a != "" then a else if b != "" then b else c
  }

  function AccountLines(debits: map<string, int64>, credits: map<string, int64>, a: string): seq<EntryLine> {
    (if Get(debits, a) > 0 then [EntryLine(a, debits[a], 0)] else [])
    + (if Get(credits, a) > 0 then [EntryLine(a, 0, credits[a])] else [])
  }

  function AllLines(debits: map<string, int64>, credits: map<string, int64>, ids: seq<string>): seq<EntryLine> {
    if ids == [] then []
    else AllLines(debits, credits, ids[..|ids| - 1]) + AccountLines(debits, credits, ids[|ids| - 1])
  }

  function CashLine(cash: string, debit: int64, credit: int64): seq<EntryLine> {
    if debit > 0 || credit > 0 then [EntryLine(cash, debit, credit)] else []
  }

  /** The entries for a given order of the account ids. */
  function EntriesFor(rows: seq<SuggestionRow>, fallback: string, cash: string, ids: seq<string>): seq<EntryLine> {
    var debits, credits := PerAccount(rows, fallback, false), PerAccount(rows, fallback, true);
    if Accumulated(rows, fallback).total <= 0 || (debits == map[] && credits == map[]) || cash == "" then []
    else
      CashLine(cash, Total(rows, fallback, true), 0) + AllLines(debits, credits, ids)
      + CashLine(cash, 0, Total(rows, fallback, false))
  }

  /** The ids list both maps' keys, sorted: an account in both maps is listed twice. */
  ghost predicate ListsAccounts(rows: seq<SuggestionRow>, fallback: string, ids: seq<string>) {
    && SortedBy(StringLe, ids)
    && multiset(ids) == multiset(PerAccount(rows, fallback, false).Keys)
         + multiset(PerAccount(rows, fallback, true).Keys)
  }

  function InsertString(s: seq<string>, x: string): seq<string> {
    if s == [] || StringLe(s[|s| - 1], x) then s + [x] else InsertString(s[..|s| - 1], x) + [s[|s| - 1]]
  }

  /** sort.Strings. */
  function SortStrings(s: seq<string>): seq<string> {
    if s == [] then [] else InsertString(SortStrings(s[..|s| - 1]), s[|s| - 1])
  }

  lemma {:induction false} InsertStringPermutes(s: seq<string>, x: string)
    ensures multiset(InsertString(s, x)) == multiset(s) + multiset{x}
  {
    if s != [] {
      assert s == s[..|s| - 1] + [s[|s| - 1]];
      InsertStringPermutes(s[..|s| - 1], x);
    }
  }

  lemma {:induction false} InsertStringSorts(s: seq<string>, x: string)
    requires SortedBy(StringLe, s) && TotalOrder(StringLe)
    ensures SortedBy(StringLe, InsertString(s, x))
    ensures forall y :: y in InsertString(s, x) ==> y in s || y == x
  {
    if s != [] {
      var init, last := s[..|s| - 1], s[|s| - 1];
      if !StringLe(last, x) {
        InsertStringSorts(init, x);
        var inner := InsertString(init, x);
        forall i | 0 <= i < |inner| ensures StringLe(inner[i], last) {
          assert inner[i] in inner;
        }
      }
    }
  }

  lemma {:induction false} SortStringsSorts(s: seq<string>)
    ensures SortedBy(StringLe, SortStrings(s)) && multiset(SortStrings(s)) == multiset(s)
  {
    StringOrder();
    if s != [] {
      SortStringsSorts(s[..|s| - 1]);
      assert s == s[..|s| - 1] + [s[|s| - 1]];
      InsertStringSorts(SortStrings(s[..|s| - 1]), s[|s| - 1]);
      InsertStringPermutes(SortStrings(s[..|s| - 1]), s[|s| - 1]);
    }
  }

  /** The keys of a map in some iteration order. */
  method Keys(m: map<string, int64>) returns (ids: seq<string>)
    ensures multiset(ids) == multiset(m.Keys)
  {
    ids := [];
    var rest := m.Keys;
    while rest != {}
      invariant rest <= m.Keys
      invariant multiset(ids) + multiset(rest) == multiset(m.Keys)
    {
      var a :| a in rest;
      ids, rest := ids + [a], rest - {a};
    }
  }

  /** The first loop's body. */
  method Count(before: Totals, row: SuggestionRow, fallback: string) returns (t: Totals)
    ensures t == AddRow(before, row, fallback)
  {
    t := before;
    if row.amount <= 0 {
      return;
    }
    var account := row.account;
    if account == "" {
      account := fallback;
    }
    if account == "" {
      return;
    }
    if IsInflow(row) {
      t := t.(credits := AddTo(t.credits, account, row.amount), cashDebits := Wrap(t.cashDebits + row.amount));
    } else {
      t := t.(debits := AddTo(t.debits, account, row.amount), cashCredits := Wrap(t.cashCredits + row.amount));
    }
    t := t.(total := Wrap(t.total + row.amount));
  }

  /** The first loop: totals per account and direction. */
  method Accumulate(rows: seq<SuggestionRow>, fallback: string) returns (t: Totals)
    ensures t == Accumulated(rows, fallback)
  {
    t := Totals(map[], map[], 0, 0, 0);
    for i := 0 to |rows|
      invariant t == Accumulated(rows[..i], fallback)
    {
      assert rows[..i + 1][..i] == rows[..i];
      t := Count(t, rows[i], fallback);
    }
    assert rows[..|rows|] == rows;
  }

  /** The second loop: a debit and a credit line per listed account, where there is an amount. */
  method EmitLines(debits: map<string, int64>, credits: map<string, int64>, ids: seq<string>)
    returns (lines: seq<EntryLine>)
    ensures lines == AllLines(debits, credits, ids)
  {
    lines := [];
    for i := 0 to |ids|
      invariant lines == AllLines(debits, credits, ids[..i])
    {
      var a := ids[i];
      assert ids[..i + 1][..i] == ids[..i];
      if Get(debits, a) > 0 {
        lines := lines + [EntryLine(a, debits[a], 0)];
      }
      if Get(credits, a) > 0 {
        lines := lines + [EntryLine(a, 0, credits[a])];
      }
    }
    assert ids[..|ids|] == ids;
  }

  /** The cash account's legs go around the account lines. */
  method EmitEntries(cash: string, t: Totals, ids: seq<string>) returns (entries: seq<EntryLine>)
    ensures entries == CashLine(cash, t.cashDebits, 0) + AllLines(t.debits, t.credits, ids)
                       + CashLine(cash, 0, t.cashCredits)
  {
    entries := [];
    if t.cashDebits > 0 {
      entries := entries + [EntryLine(cash, t.cashDebits, 0)];
    }
    var lines := EmitLines(t.debits, t.credits, ids);
    entries := entries + lines;
    if t.cashCredits > 0 {
      entries := entries + [EntryLine(cash, 0, t.cashCredits)];
    }
  }

  method BuildImportEntries(rows: seq<SuggestionRow>, fallback: string, payment: string, credit: string,
      defaultCash: string)
    returns (entries: seq<EntryLine>)
    ensures exists ids: seq<string> ::
              ListsAccounts(rows, fallback, ids)
              && entries == EntriesFor(rows, fallback, FirstSet(payment, credit, defaultCash), ids)
  {
    var t := Accumulate(rows, fallback);
    var cash := payment;
    if cash == "" {
      cash := credit;
    }
    if cash == "" {
      cash := defaultCash;
    }
    var debitIds := Keys(t.debits);
    var creditIds := Keys(t.credits);
    var accountIds := SortStrings(debitIds + creditIds);
    SortStringsSorts(debitIds + creditIds);
    assert ListsAccounts(rows, fallback, accountIds);
    if t.total <= 0 || (t.debits == map[] && t.credits == map[]) {
      return [];
    }
    if cash == "" {
      return [];
    }
    entries := EmitEntries(cash, t, accountIds);
  }

  /** Map iteration order never shows: the order of the ids is determined. */
  lemma OrderIndependent(rows: seq<SuggestionRow>, fallback: string, ids: seq<string>, ids': seq<string>)
    requires ListsAccounts(rows, fallback, ids) && ListsAccounts(rows, fallback, ids')
    ensures ids == ids'
  {
    StringOrder();
    SortedUnique(StringLe, ids, ids');
  }

  // ---- Conservation ----

  /** The exact amount that the usable rows of one direction carry for an account. */
  function Amount(rows: seq<SuggestionRow>, fallback: string, inflow: bool, a: string): int {
    if rows == [] then 0
    else
      var row := rows[|rows| - 1];
      Amount(rows[..|rows| - 1], fallback, inflow, a)
      + if Usable(row, fallback) && IsInflow(row) == inflow && AccountOf(row, fallback) == a then row.amount else 0
  }

  /** The exact amount of all usable rows of one direction. */
  function Sum(rows: seq<SuggestionRow>, fallback: string, inflow: bool): int {
    if rows == [] then 0
    else
      var row := rows[|rows| - 1];
      Sum(rows[..|rows| - 1], fallback, inflow)
      + if Usable(row, fallback) && IsInflow(row) == inflow then row.amount else 0
  }

  function AmountOf(rows: seq<SuggestionRow>, fallback: string, inflow: bool): string -> int {
    a => Amount(rows, fallback, inflow, a)
  }

  /** No total of the statement leaves int64. */
  predicate InRange(rows: seq<SuggestionRow>, fallback: string) {
    Sum(rows, fallback, true) + Sum(rows, fallback, false) <= MAX
  }

  lemma {:induction false} SumBounds(rows: seq<SuggestionRow>, fallback: string, inflow: bool, a: string)
    ensures 0 <= Amount(rows, fallback, inflow, a) <= Sum(rows, fallback, inflow)
  {
    if rows != [] {
      SumBounds(rows[..|rows| - 1], fallback, inflow, a);
    }
  }

  /** In range, the accumulators hold the exact sums, and a key stands for a positive amount. */
  lemma {:induction false} AccumulatorsExact(rows: seq<SuggestionRow>, fallback: string)
    requires InRange(rows, fallback)
    ensures forall inflow, a :: Get(PerAccount(rows, fallback, inflow), a) == Amount(rows, fallback, inflow, a)
    ensures forall inflow, a :: a in PerAccount(rows, fallback, inflow) <==> Amount(rows, fallback, inflow, a) > 0
    ensures forall inflow :: Total(rows, fallback, inflow) == Sum(rows, fallback, inflow)
    ensures Accumulated(rows, fallback).total == Sum(rows, fallback, true) + Sum(rows, fallback, false)
  {
    if rows != [] {
      var init := rows[..|rows| - 1];
      SumBounds(init, fallback, true, "");
      SumBounds(init, fallback, false, "");
      AccumulatorsExact(init, fallback);
      forall inflow, a ensures 0 <= Amount(rows, fallback, inflow, a) <= Sum(rows, fallback, inflow) {
        SumBounds(rows, fallback, inflow, a);
      }
      forall inflow, a ensures 0 <= Amount(init, fallback, inflow, a) {
        SumBounds(init, fallback, inflow, a);
      }
    }
  }

  /** Grouping by account conserves the total of a direction. */
  lemma {:induction false} AmountsAddUp(rows: seq<SuggestionRow>, fallback: string, inflow: bool, accounts: set<string>)
    requires forall a :: Amount(rows, fallback, inflow, a) > 0 ==> a in accounts
    ensures SumSet(AmountOf(rows, fallback, inflow), accounts) == Sum(rows, fallback, inflow)
  {
    var f := AmountOf(rows, fallback, inflow);
    if rows == [] {
      SumRestrict(f, accounts, {});
    } else {
      var init, row := rows[..|rows| - 1], rows[|rows| - 1];
      var g := AmountOf(init, fallback, inflow);
      forall a ensures 0 <= Amount(init, fallback, inflow, a) <= Amount(rows, fallback, inflow, a) {
        SumBounds(init, fallback, inflow, a);
      }
      AmountsAddUp(init, fallback, inflow, accounts);
      if Usable(row, fallback) && IsInflow(row) == inflow {
        assert Amount(rows, fallback, inflow, AccountOf(row, fallback)) > 0;
        SumBump(g, f, accounts, AccountOf(row, fallback), row.amount);
      } else {
        SumSame(g, f, accounts);
      }
    }
  }

  lemma {:induction false} LinesSum(debits: map<string, int64>, credits: map<string, int64>, ids: seq<string>,
      f: string -> int, g: string -> int)
    requires forall a :: f(a) == Get(debits, a) >= 0 && g(a) == Get(credits, a) >= 0
    ensures Debits(AllLines(debits, credits, ids)) == SumSeq(f, ids)
    ensures Credits(AllLines(debits, credits, ids)) == SumSeq(g, ids)
  {
    if ids != [] {
      var init, a := ids[..|ids| - 1], ids[|ids| - 1];
      LinesSum(debits, credits, init, f, g);
      var d := if Get(debits, a) > 0 then [EntryLine(a, debits[a], 0)] else [];
      var c := if Get(credits, a) > 0 then [EntryLine(a, 0, credits[a])] else [];
      SumsConcat(AllLines(debits, credits, init), AccountLines(debits, credits, a));
      SumsConcat(d, c);
      OneLine(EntryLine(a, Get(debits, a), 0));
      OneLine(EntryLine(a, 0, Get(credits, a)));
    }
  }

  lemma OneLine(l: EntryLine)
    ensures Debits([l]) == l.debit && Credits([l]) == l.credit
  {
    assert [l][..0] == [];
  }

  /** Accounts that carry rows of both directions. */
  function BothWays(rows: seq<SuggestionRow>, fallback: string): set<string> {
    PerAccount(rows, fallback, false).Keys * PerAccount(rows, fallback, true).Keys
  }

  function Excess(rows: seq<SuggestionRow>, fallback: string): string -> int {
    a => Amount(rows, fallback, false, a) - Amount(rows, fallback, true, a)
  }

  /** What listing an account twice adds to one column. */
  lemma ColumnOverIds(rows: seq<SuggestionRow>, fallback: string, ids: seq<string>, inflow: bool)
    requires InRange(rows, fallback) && ListsAccounts(rows, fallback, ids)
    ensures SumSeq(AmountOf(rows, fallback, inflow), ids) ==
            Sum(rows, fallback, inflow) + SumSet(AmountOf(rows, fallback, inflow), BothWays(rows, fallback))
  {
    var f := AmountOf(rows, fallback, inflow);
    var mine, other := PerAccount(rows, fallback, inflow).Keys, PerAccount(rows, fallback, !inflow).Keys;
    AccumulatorsExact(rows, fallback);
    assert multiset(ids) == multiset(mine) + multiset(other);
    SumOfTwoSets(f, ids, mine, other);
    AmountsAddUp(rows, fallback, inflow, mine);
    assert BothWays(rows, fallback) == mine * other;
    forall a | a in other && a !in mine * other ensures f(a) == 0 {
      SumBounds(rows, fallback, inflow, a);
    }
    SumRestrict(f, other, mine * other);
  }

  lemma CashSums(cash: string, debit: int64, credit: int64)
    requires debit >= 0 && credit >= 0
    ensures Debits(CashLine(cash, debit, credit)) == debit && Credits(CashLine(cash, debit, credit)) == credit
  {
    OneLine(EntryLine(cash, debit, credit));
  }

  /** Conservation, exactly: the built debits exceed the credits by what the accounts that carry both
      directions have going out minus coming in. The cash legs are the row totals. */
  lemma DraftConservation(rows: seq<SuggestionRow>, fallback: string, cash: string, ids: seq<string>)
    requires InRange(rows, fallback) && ListsAccounts(rows, fallback, ids)
    ensures var entries := EntriesFor(rows, fallback, cash, ids);
      entries != [] ==>
        && Debits(entries) - Credits(entries) == SumSet(Excess(rows, fallback), BothWays(rows, fallback))
        && entries == CashLine(cash, Total(rows, fallback, true), 0)
                      + AllLines(PerAccount(rows, fallback, false), PerAccount(rows, fallback, true), ids)
                      + CashLine(cash, 0, Total(rows, fallback, false))
        && Total(rows, fallback, true) == Sum(rows, fallback, true)
        && Total(rows, fallback, false) == Sum(rows, fallback, false)
  {
    var entries := EntriesFor(rows, fallback, cash, ids);
    if entries != [] {
      AccumulatorsExact(rows, fallback);
      SumBounds(rows, fallback, true, "");
      SumBounds(rows, fallback, false, "");
      var debits, credits := PerAccount(rows, fallback, false), PerAccount(rows, fallback, true);
      var out, into := AmountOf(rows, fallback, false), AmountOf(rows, fallback, true);
      forall a ensures out(a) >= 0 && into(a) >= 0 {
        SumBounds(rows, fallback, false, a);
        SumBounds(rows, fallback, true, a);
      }
      var first, last := CashLine(cash, Total(rows, fallback, true), 0),
          CashLine(cash, 0, Total(rows, fallback, false));
      var middle := AllLines(debits, credits, ids);
      SumsConcat(first + middle, last);
      SumsConcat(first, middle);
      CashSums(cash, Total(rows, fallback, true), 0);
      CashSums(cash, 0, Total(rows, fallback, false));
      LinesSum(debits, credits, ids, out, into);
      ColumnOverIds(rows, fallback, ids, false);
      ColumnOverIds(rows, fallback, ids, true);
      SumDifference(out, into, Excess(rows, fallback), BothWays(rows, fallback));
    }
  }

  /** A draft balances exactly when the accounts with both directions cancel out. */
  lemma DraftBalancesIff(rows: seq<SuggestionRow>, fallback: string, cash: string, ids: seq<string>)
    requires InRange(rows, fallback) && ListsAccounts(rows, fallback, ids)
    requires EntriesFor(rows, fallback, cash, ids) != []
    ensures Debits(EntriesFor(rows, fallback, cash, ids)) == Credits(EntriesFor(rows, fallback, cash, ids)) <==>
            SumSet(Excess(rows, fallback), BothWays(rows, fallback)) == 0
  {
    DraftConservation(rows, fallback, cash, ids);
  }

  /** So a draft balances whenever no account carries both directions. */
  lemma OneWayAccountsBalance(rows: seq<SuggestionRow>, fallback: string, cash: string, ids: seq<string>)
    requires InRange(rows, fallback) && ListsAccounts(rows, fallback, ids) && BothWays(rows, fallback) == {}
    ensures Debits(EntriesFor(rows, fallback, cash, ids)) == Credits(EntriesFor(rows, fallback, cash, ids))
  {
    DraftConservation(rows, fallback, cash, ids);
  }

  const PURCHASE := SuggestionRow("food", 500, "outflow")
  const REFUND := SuggestionRow("food", 200, "inflow")

  lemma SampleTotals()
    ensures Accumulated([PURCHASE, REFUND], "") == Totals(map["food" := 500], map["food" := 200], 200, 500, 700)
  {
    assert [PURCHASE, REFUND][..1] == [PURCHASE] && [PURCHASE][..0] == [];
    assert |PURCHASE.direction| == 7 && !IsInflow(PURCHASE) && IsInflow(REFUND);
    assert Accumulated([], "") == Totals(map[], map[], 0, 0, 0);
    assert Accumulated([PURCHASE], "") == AddRow(Accumulated([], ""), PURCHASE, "");
    assert Accumulated([PURCHASE], "") == Totals(map["food" := 500], map[], 0, 500, 500);
  }

  lemma OneMoreRow(rows: seq<SuggestionRow>, row: SuggestionRow, inflow: bool, a: string)
    ensures var counts := Usable(row, "") && IsInflow(row) == inflow;
      && Sum(rows + [row], "", inflow) == Sum(rows, "", inflow) + (if counts then row.amount else 0)
      && Amount(rows + [row], "", inflow, a)
         == Amount(rows, "", inflow, a) + if counts && AccountOf(row, "") == a then row.amount else 0
  {
    assert (rows + [row])[..|rows|] == rows;
  }

  lemma SampleSums(inflow: bool)
    ensures var rows := [PURCHASE, REFUND];
      && Sum(rows, "", inflow) == (if inflow then 200 else 500)
      && Amount(rows, "", inflow, "food") == if inflow then 200 else 500
  {
    assert |PURCHASE.direction| == 7 && !IsInflow(PURCHASE) && IsInflow(REFUND);
    OneMoreRow([], PURCHASE, inflow, "food");
    OneMoreRow([PURCHASE], REFUND, inflow, "food");
    assert [] + [PURCHASE] == [PURCHASE] && [PURCHASE] + [REFUND] == [PURCHASE, REFUND];
  }

  /** A refund next to a purchase on one account already unbalances the draft. */
  lemma RefundUnbalances(ids: seq<string>)
    requires ListsAccounts([PURCHASE, REFUND], "", ids)
    ensures var entries := EntriesFor([PURCHASE, REFUND], "", "cash", ids);
      Debits(entries) - Credits(entries) == 300
  {
    var rows := [PURCHASE, REFUND];
    SampleTotals();
    SampleSums(true);
    SampleSums(false);
    DraftConservation(rows, "", "cash", ids);
    assert BothWays(rows, "") == {"food"};
    SumRemove(Excess(rows, ""), {"food"}, "food");
    assert {"food"} - {"food"} == {};
  }

  // ---- The draft of any suggestion ----

  /** A decoded suggestion; absent values decode to [], "" and 0. */
  datatype Payload = Payload(
    entries: seq<EntryLine>, rows: seq<SuggestionRow>, total: int64, account: string, payment: string, credit: string)

  function PlainEntries(p: Payload, receiptTotal: int64, defaultCash: string): seq<EntryLine> {
    var total := if p.total > 0 then p.total else receiptTotal;
    var cash := FirstSet(p.payment, p.credit, defaultCash);
    if total <= 0 || p.account == "" then []
    else [EntryLine(p.account, total, 0)] + if cash == "" then [] else [EntryLine(cash, 0, total)]
  }

  /** What the draft is for a given order of the account ids: the suggestion's own entries come first, then
      an import's rows, then a single expense. */
  function SuggestedEntries(p: Payload, isImport: bool, receiptTotal: int64, defaultCash: string,
      ids: seq<string>): seq<EntryLine> {
    var imported := EntriesFor(p.rows, p.account, FirstSet(p.payment, p.credit, defaultCash), ids);
    if p.entries != [] then p.entries
    else if isImport && imported != [] then imported
    else PlainEntries(p, receiptTotal, defaultCash)
  }

  /** The single expense of a suggestion without usable entries or rows. */
  method BuildPlainEntries(p: Payload, receiptTotal: int64, defaultCash: string) returns (entries: seq<EntryLine>)
    ensures entries == PlainEntries(p, receiptTotal, defaultCash)
  {
    var total := p.total;
    if total <= 0 {
      total := receiptTotal;
    }
    if total <= 0 || p.account == "" {
      return [];
    }
    entries := [EntryLine(p.account, total, 0)];
    var cash := p.payment;
    if cash == "" {
      cash := p.credit;
    }
    if cash == "" {
      cash := defaultCash;
    }
    if cash != "" {
      entries := entries + [EntryLine(cash, 0, total)];
    }
  }

  method BuildEntries(p: Payload, isImport: bool, receiptTotal: int64, defaultCash: string)
    returns (entries: seq<EntryLine>)
    ensures exists ids: seq<string> ::
              ListsAccounts(p.rows, p.account, ids)
              && entries == SuggestedEntries(p, isImport, receiptTotal, defaultCash, ids)
  {
    var imported := BuildImportEntries(p.rows, p.account, p.payment, p.credit, defaultCash);
    ghost var ids :| ListsAccounts(p.rows, p.account, ids)
                     && imported == EntriesFor(p.rows, p.account, FirstSet(p.payment, p.credit, defaultCash), ids);
    if |p.entries| > 0 {
      entries := p.entries;
    } else if isImport && |imported| > 0 {
      entries := imported;
    } else {
      entries := BuildPlainEntries(p, receiptTotal, defaultCash);
    }
    SuggestionIs(p, isImport, receiptTotal, defaultCash, ids, imported, entries);
  }

  lemma SuggestionIs(p: Payload, isImport: bool, receiptTotal: int64, defaultCash: string, ids: seq<string>,
                     imported: seq<EntryLine>, entries: seq<EntryLine>)
    requires imported == EntriesFor(p.rows, p.account, FirstSet(p.payment, p.credit, defaultCash), ids)
    requires entries == if p.entries != [] then p.entries
                        else if isImport && imported != [] then imported
                        else PlainEntries(p, receiptTotal, defaultCash)
    ensures entries == SuggestedEntries(p, isImport, receiptTotal, defaultCash, ids)
  {
  }

  /** A single expense balances exactly when some account is there to take the credit side. */
  lemma PlainEntriesBalance(p: Payload, receiptTotal: int64, defaultCash: string)
    requires PlainEntries(p, receiptTotal, defaultCash) != []
    ensures var entries := PlainEntries(p, receiptTotal, defaultCash);
      Debits(entries) == Credits(entries) <==> p.payment != "" || p.credit != "" || defaultCash != ""
  {
    var entries := PlainEntries(p, receiptTotal, defaultCash);
    if |entries| == 2 {
      SumsOfPair(entries[0], entries[1]);
      assert entries == [entries[0], entries[1]];
    } else {
      assert entries[..0] == [];
    }
  }

  // ---- The account an import is classified to ----

  /** The map's best key: the highest count, and among equals the smallest id. */
  predicate Dominates(counts: map<string, nat>, best: string, other: string)
    requires best in counts && other in counts
  {
    counts[best] > counts[other] || (counts[best] == counts[other] && StringLe(best, other))
  }

  /** Whatever the iteration order, the result is the one dominant account, or "" when nothing was counted. */
  method DominantAccount(counts: map<string, nat>) returns (best: string)
    ensures (forall a :: a in counts ==> counts[a] == 0) ==> best == ""
    ensures (exists a :: a in counts && counts[a] > 0) ==>
      best in counts && counts[best] > 0 && forall a :: a in counts ==> Dominates(counts, best, a)
    ensures forall a :: a in counts && best in counts && counts[best] > 0 && a != best ==>
      counts[a] < counts[best] || (counts[a] == counts[best] && !StringLe(a, best))
  {
    StringOrder();
    best := "";
    var bestCount: nat := 0;
    var rest := counts.Keys;
    while rest != {}
      invariant rest <= counts.Keys
      invariant bestCount == 0 ==> best == "" && forall a :: a in counts && a !in rest ==> counts[a] == 0
      invariant bestCount > 0 ==> best in counts && best !in rest && bestCount == counts[best]
      invariant bestCount > 0 ==> forall a :: a in counts && a !in rest ==> Dominates(counts, best, a)
    {
      var a :| a in rest;
      rest := rest - {a};
      if counts[a] > bestCount || (counts[a] == bestCount && best != "" && StringLe(a, best) && a != best) {
        best, bestCount := a, counts[a];
      }
    }
  }
}
