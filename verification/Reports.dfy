/** Financial statements: aggregates over the posted lines of one entity in a date window. */
module Reports {
  import opened Int64
  import opened Entries
  import opened Ledger
  import opened Sums
  import opened Text

  datatype AccountClass = Asset | Liability | Equity | Income | Expense | Other

  /** NormalizeType: the spelling of an account type, folded. */
  function NormalizeType(t: string): AccountClass {
    var s := ToLower(TrimSpace(t));
    if s in {"asset", "assets"} then Asset
    else if s in {"liability", "liabilities"} then Liability
    else if s == "equity" then Equity
    else if s in {"income", "revenue"} then Income
    else if s in {"expense", "expenses"} then Expense
    else Other
  }

  predicate DebitNormal(c: AccountClass) {
    c in {Asset, Expense}
  }

  /** One row per account with lines in the window. Both columns are sums of non-negative cents. */
  datatype TrialBalanceRow = TrialBalanceRow(accountId: string, accountType: string, debit: int64, credit: int64)

  function NormalBalance(row: TrialBalanceRow): int64 {
    if DebitNormal(NormalizeType(row.accountType)) then Wrap(row.debit - row.credit) else Wrap(row.credit - row.debit)
  }

  /** A net balance goes to the debit or the credit column. */
  function SplitDebitCredit(net: int64): (int64, int64) {
    if net > 0 then (net, 0) else (0, Wrap(0 - net))
  }

  // ---- The aggregate query ----

  /** The lines of the entity's transactions dated start to end, in posting order. */
  function WindowLines(transactions: seq<Transaction>, entity: string, start: int, end: int): seq<EntryLine> {
    if transactions == [] then []
    else
      var t := transactions[|transactions| - 1];
      WindowLines(transactions[..|transactions| - 1], entity, start, end)
      + if t.entity == entity && start <= t.date <= end then t.entries else []
  }

  function AccountDebits(lines: seq<EntryLine>, account: string): int {
    if lines == [] then 0
    else
      var l := lines[|lines| - 1];
      AccountDebits(lines[..|lines| - 1], account) + if l.account == account then l.debit else 0
  }

  function AccountCredits(lines: seq<EntryLine>, account: string): int {
    if lines == [] then 0
    else
      var l := lines[|lines| - 1];
      AccountCredits(lines[..|lines| - 1], account) + if l.account == account then l.credit else 0
  }

  /** rows is a result of the trial-balance query over these lines: every account that occurs has one row,
      with its exact column sums. The order of the rows is left open. */
  ghost predicate IsTrialBalance(rows: seq<TrialBalanceRow>, lines: seq<EntryLine>) {
    && (forall i, j :: 0 <= i < j < |rows| ==> rows[i].accountId != rows[j].accountId)
    && (forall k :: 0 <= k < |lines| ==> exists i :: 0 <= i < |rows| && rows[i].accountId == lines[k].account)
    && (forall i :: 0 <= i < |rows| ==>
          && rows[i].debit == AccountDebits(lines, rows[i].accountId) >= 0
          && rows[i].credit == AccountCredits(lines, rows[i].accountId) >= 0)
  }

  // ---- The report loops ----

  /** t is one of these words, whatever its case and the spaces around it. */
  predicate Spelled(t: string, words: set<string>) {
    ToLower(TrimSpace(t)) in words
  }

  /** One line of a statement. */
  datatype ReportLine = ReportLine(row: TrialBalanceRow, amount: int64)

  /** The accounts whose type is one of these words, in order, each with its net on the debit or the credit
      side. */
  function LinesOf(rows: seq<TrialBalanceRow>, words: set<string>, debitSide: bool): seq<ReportLine> {
    if rows == [] then []
    else
      var row := rows[|rows| - 1];
      LinesOf(rows[..|rows| - 1], words, debitSide)
      + if !Spelled(row.accountType, words) then []
        else [ReportLine(row, if debitSide then Wrap(row.debit - row.credit) else Wrap(row.credit - row.debit))]
  }

  /** What these accounts net to together, credit minus debit. */
  function NetCredit(rows: seq<TrialBalanceRow>, words: set<string>): int {
    if rows == [] then 0
    else
      var row := rows[|rows| - 1];
      NetCredit(rows[..|rows| - 1], words) + if Spelled(row.accountType, words) then row.credit - row.debit else 0
  }

  /** Only case and surrounding spaces are ignored. */
  lemma SpellingFolds(before: string, t: string, after: string, u: string)
    requires AllSpaces(before) && AllSpaces(after) && ToLower(t) == ToLower(u)
    ensures NormalizeType(before + t + after) == NormalizeType(u)
  {
    TrimIgnoresSpaces(before, t, after);
    LowerTrims(t);
    LowerTrims(u);
  }

  /** The words for a class. */
  function Words(c: AccountClass): set<string> {
    match c
    case Asset => {"asset", "assets"}
    case Liability => {"liability", "liabilities"}
    case Equity => {"equity"}
    case Income => {"income", "revenue"}
    case Expense => {"expense", "expenses"}
    case Other => {}
  }

  lemma ClassMeans(row: TrialBalanceRow, c: AccountClass)
    requires c != Other
    ensures NormalizeType(row.accountType) == c <==> Spelled(row.accountType, Words(c))
    ensures NormalizeType(row.accountType) == c ==>
      NormalBalance(row) == if c == Asset || c == Expense then Wrap(row.debit - row.credit)
      else Wrap(row.credit - row.debit)
  {
  }

  /** What these accounts net to together, on the debit or the credit side. */
  function SideNet(rows: seq<TrialBalanceRow>, c: AccountClass): int {
    if c == Asset || c == Expense then -NetCredit(rows, Words(c)) else NetCredit(rows, Words(c))
  }

  /** The lines listed and the total reached for a class after n rows. */
  ghost predicate Reached(rows: seq<TrialBalanceRow>, n: nat, c: AccountClass, lines: seq<ReportLine>, total: int64)
    requires n <= |rows|
  {
    && lines == LinesOf(rows[..n], Words(c), c == Asset || c == Expense)
    && total == Wrap(SideNet(rows[..n], c))
  }

  lemma SideNetStep(rows: seq<TrialBalanceRow>, n: nat, c: AccountClass)
    requires n < |rows| && c != Other
    ensures Wrap(SideNet(rows[..n + 1], c)) ==
        if NormalizeType(rows[n].accountType) == c then Wrap(Wrap(SideNet(rows[..n], c)) + NormalBalance(rows[n]))
        else Wrap(SideNet(rows[..n], c))
  {
    assert rows[..n + 1][..n] == rows[..n];
    ClassMeans(rows[n], c);
    if NormalizeType(rows[n].accountType) == c {
      var before, more := SideNet(rows[..n], c), SideNet(rows[..n + 1], c) - SideNet(rows[..n], c);
      assert NormalBalance(rows[n]) == Wrap(more);
      WrapAdd(before, Wrap(more));
      WrapAdd(more, before);
    }
  }

  lemma ReachedByRow(rows: seq<TrialBalanceRow>, n: nat, c: AccountClass, lines: seq<ReportLine>, total: int64)
    requires n < |rows| && c != Other && Reached(rows, n, c, lines, total)
    ensures if NormalizeType(rows[n].accountType) == c
            then Reached(rows, n + 1, c, lines + [ReportLine(rows[n], NormalBalance(rows[n]))],
                         Wrap(total + NormalBalance(rows[n])))
            else Reached(rows, n + 1, c, lines, total)
  {
    assert rows[..n + 1][..n] == rows[..n];
    ClassMeans(rows[n], c);
    SideNetStep(rows, n, c);
  }

  lemma ReachedAll(rows: seq<TrialBalanceRow>, c: AccountClass, lines: seq<ReportLine>, total: int64)
    requires Reached(rows, |rows|, c, lines, total)
    ensures lines == LinesOf(rows, Words(c), c == Asset || c == Expense) && total == Wrap(SideNet(rows, c))
  {
    assert rows[..|rows|] == rows;
  }

  lemma {:induction false} NetCreditOfBoth(rows: seq<TrialBalanceRow>, a: set<string>, b: set<string>)
    requires a !! b
    ensures NetCredit(rows, a + b) == NetCredit(rows, a) + NetCredit(rows, b)
  {
    if rows != [] {
      NetCreditOfBoth(rows[..|rows| - 1], a, b);
    }
  }

  lemma WrapSubtract(x: int, y: int)
    ensures Wrap(Wrap(x) - Wrap(y)) == Wrap(x - y)
  {
    var p := WrapTurns(x);
    var q := WrapTurns(y);
    WrapCongruent(Wrap(x) - Wrap(y), x - y, p - q);
  }

  lemma EarnedAndSpent(rows: seq<TrialBalanceRow>)
    ensures SideNet(rows, Income) - SideNet(rows, Expense)
        == NetCredit(rows, {"income", "revenue", "expense", "expenses"})
  {
    NetCreditOfBoth(rows, Words(Income), Words(Expense));
    assert Words(Income) + Words(Expense) == {"income", "revenue", "expense", "expenses"};
  }

  /** handleReportProfitLoss: net is the reported net income, the credits minus the debits of all accounts
      listed. */
  method ProfitLoss(rows: seq<TrialBalanceRow>)
    returns (income: seq<ReportLine>, expenses: seq<ReportLine>, net: int64)
    ensures income == LinesOf(rows, {"income", "revenue"}, false)
    ensures expenses == LinesOf(rows, {"expense", "expenses"}, true)
    ensures net == Wrap(NetCredit(rows, {"income", "revenue", "expense", "expenses"}))
  {
    income, expenses := [], [];
    var incomeTotal: int64, expenseTotal: int64 := 0, 0;
    for i := 0 to |rows|
      invariant Reached(rows, i, Income, income, incomeTotal) && Reached(rows, i, Expense, expenses, expenseTotal)
    {
      var row := rows[i];
      ReachedByRow(rows, i, Income, income, incomeTotal);
      ReachedByRow(rows, i, Expense, expenses, expenseTotal);
      match NormalizeType(row.accountType) {
        case Income =>
          var amount := NormalBalance(row);
          incomeTotal := Wrap(incomeTotal + amount);
          income := income + [ReportLine(row, amount)];
        case Expense =>
          var amount := NormalBalance(row);
          expenseTotal := Wrap(expenseTotal + amount);
          expenses := expenses + [ReportLine(row, amount)];
        case _ =>
      }
    }
    ReachedAll(rows, Income, income, incomeTotal);
    ReachedAll(rows, Expense, expenses, expenseTotal);
    EarnedAndSpent(rows);
    WrapSubtract(SideNet(rows, Income), SideNet(rows, Expense));
    net := Wrap(incomeTotal - expenseTotal);
  }

  /** handleReportBalanceSheet. */
  method BalanceSheet(rows: seq<TrialBalanceRow>)
    returns (assets: seq<ReportLine>, liabilities: seq<ReportLine>, equity: seq<ReportLine>,
             assetTotal: int64, liabilityTotal: int64, equityTotal: int64)
    ensures assets == LinesOf(rows, {"asset", "assets"}, true)
    ensures liabilities == LinesOf(rows, {"liability", "liabilities"}, false)
    ensures equity == LinesOf(rows, {"equity"}, false)
    ensures assetTotal == Wrap(-NetCredit(rows, {"asset", "assets"}))
    ensures liabilityTotal == Wrap(NetCredit(rows, {"liability", "liabilities"}))
    ensures equityTotal == Wrap(NetCredit(rows, {"equity"}))
  {
    assets, liabilities, equity := [], [], [];
    assetTotal, liabilityTotal, equityTotal := 0, 0, 0;
    for i := 0 to |rows|
      invariant Reached(rows, i, Asset, assets, assetTotal)
      invariant Reached(rows, i, Liability, liabilities, liabilityTotal)
      invariant Reached(rows, i, Equity, equity, equityTotal)
    {
      var row := rows[i];
      ReachedByRow(rows, i, Asset, assets, assetTotal);
      ReachedByRow(rows, i, Liability, liabilities, liabilityTotal);
      ReachedByRow(rows, i, Equity, equity, equityTotal);
      match NormalizeType(row.accountType) {
        case Asset =>
          var amount := NormalBalance(row);
          assetTotal := Wrap(assetTotal + amount);
          assets := assets + [ReportLine(row, amount)];
        case Liability =>
          var amount := NormalBalance(row);
          liabilityTotal := Wrap(liabilityTotal + amount);
          liabilities := liabilities + [ReportLine(row, amount)];
        case Equity =>
          var amount := NormalBalance(row);
          equityTotal := Wrap(equityTotal + amount);
          equity := equity + [ReportLine(row, amount)];
        case _ =>
      }
    }
    ReachedAll(rows, Asset, assets, assetTotal);
    ReachedAll(rows, Liability, liabilities, liabilityTotal);
    ReachedAll(rows, Equity, equity, equityTotal);
  }

  function NetOf(row: TrialBalanceRow): int64 {
    Wrap(row.debit - row.credit)
  }

  /** One line of the trial balance. */
  datatype TrialLine = TrialLine(row: TrialBalanceRow, debit: int64, credit: int64)

  /** Exact column totals of the trial balance after netting per account. */
  function NetDebits(rows: seq<TrialBalanceRow>): int {
    if rows == [] then 0
    else
      var net := NetOf(rows[|rows| - 1]);
      NetDebits(rows[..|rows| - 1]) + if net > 0 then net else 0
  }

  function NetCredits(rows: seq<TrialBalanceRow>): int {
    if rows == [] then 0
    else
      var net := NetOf(rows[|rows| - 1]);
      NetCredits(rows[..|rows| - 1]) + if net < 0 then Wrap(0 - net) else 0
  }

  /** The accounts that do not net to zero, each with its net in the column of its sign. */
  function Unsettled(rows: seq<TrialBalanceRow>): seq<TrialLine> {
    if rows == [] then []
    else
      var row, net := rows[|rows| - 1], NetOf(rows[|rows| - 1]);
      Unsettled(rows[..|rows| - 1])
      + if net > 0 then [TrialLine(row, net, 0)] else if net < 0 then [TrialLine(row, 0, Wrap(0 - net))] else []
  }

  lemma ColumnStep(rows: seq<TrialBalanceRow>, i: nat)
    requires i < |rows|
    ensures var (debit, credit) := SplitDebitCredit(NetOf(rows[i]));
      && Wrap(NetDebits(rows[..i + 1])) == Wrap(Wrap(NetDebits(rows[..i])) + debit)
      && Wrap(NetCredits(rows[..i + 1])) == Wrap(Wrap(NetCredits(rows[..i])) + credit)
      && Unsettled(rows[..i + 1]) == if NetOf(rows[i]) == 0 then Unsettled(rows[..i])
           else Unsettled(rows[..i]) + [TrialLine(rows[i], debit, credit)]
  {
    assert rows[..i + 1][..i] == rows[..i];
    var (debit, credit) := SplitDebitCredit(NetOf(rows[i]));
    WrapAdd(NetDebits(rows[..i]), debit);
    WrapAdd(NetCredits(rows[..i]), credit);
  }

  /** handleReportTrialBalance: accounts that net to zero are left out. */
  method TrialBalance(rows: seq<TrialBalanceRow>)
    returns (listed: seq<TrialLine>, totalDebit: int64, totalCredit: int64, balanced: bool)
    ensures listed == Unsettled(rows)
    ensures totalDebit == Wrap(NetDebits(rows)) && totalCredit == Wrap(NetCredits(rows))
    ensures balanced <==> totalDebit == totalCredit
  {
    listed := [];
    totalDebit, totalCredit := 0, 0;
    for i := 0 to |rows|
      invariant listed == Unsettled(rows[..i])
      invariant totalDebit == Wrap(NetDebits(rows[..i])) && totalCredit == Wrap(NetCredits(rows[..i]))
    {
      var net := NetOf(rows[i]);
      ColumnStep(rows, i);
      if net != 0 {
        var (debit, credit) := SplitDebitCredit(net);
        totalDebit := Wrap(totalDebit + debit);
        totalCredit := Wrap(totalCredit + credit);
        listed := listed + [TrialLine(rows[i], debit, credit)];
      }
    }
    assert rows[..|rows|] == rows;
    balanced := totalDebit == totalCredit;
  }

  // ---- The accounting equation ----

  /** What the rows net to, debit minus credit. */
  function RowsNet(rows: seq<TrialBalanceRow>): int {
    if rows == [] then 0 else RowsNet(rows[..|rows| - 1]) + rows[|rows| - 1].debit - rows[|rows| - 1].credit
  }

  /** The same net, read off the lines for a list of accounts. */
  function NetOver(rows: seq<TrialBalanceRow>, lines: seq<EntryLine>): int {
    if rows == [] then 0
    else
      var a := rows[|rows| - 1].accountId;
      NetOver(rows[..|rows| - 1], lines) + AccountDebits(lines, a) - AccountCredits(lines, a)
  }

  predicate DistinctRows(rows: seq<TrialBalanceRow>) {
    forall i, j :: 0 <= i < j < |rows| ==> rows[i].accountId != rows[j].accountId
  }

  predicate HasRow(rows: seq<TrialBalanceRow>, account: string) {
    exists i :: 0 <= i < |rows| && rows[i].accountId == account
  }

  lemma {:induction false} NetOverNoLines(rows: seq<TrialBalanceRow>)
    ensures NetOver(rows, []) == 0
  {
    if rows != [] {
      NetOverNoLines(rows[..|rows| - 1]);
    }
  }

  /** One more line changes the net of the one row that has its account. */
  lemma {:induction false} NetOverOneMore(rows: seq<TrialBalanceRow>, lines: seq<EntryLine>)
    requires DistinctRows(rows) && lines != []
    ensures var l := lines[|lines| - 1];
      NetOver(rows, lines) ==
      NetOver(rows, lines[..|lines| - 1]) + if HasRow(rows, l.account) then l.debit - l.credit else 0
  {
    if rows != [] {
      var init, last := rows[..|rows| - 1], rows[|rows| - 1];
      NetOverOneMore(init, lines);
      var l := lines[|lines| - 1];
      if HasRow(init, l.account) {
        var i :| 0 <= i < |init| && init[i].accountId == l.account;
        assert rows[i].accountId == l.account;
      }
      if HasRow(rows, l.account) && last.accountId != l.account {
        var i :| 0 <= i < |rows| && rows[i].accountId == l.account;
        assert init[i].accountId == l.account;
      }
    }
  }

  /** Grouping by account loses and invents nothing. */
  lemma {:induction false} GroupingConserves(rows: seq<TrialBalanceRow>, lines: seq<EntryLine>)
    requires DistinctRows(rows) && forall k :: 0 <= k < |lines| ==> HasRow(rows, lines[k].account)
    ensures NetOver(rows, lines) == Debits(lines) - Credits(lines)
  {
    if lines == [] {
      NetOverNoLines(rows);
    } else {
      var init := lines[..|lines| - 1];
      assert forall k :: 0 <= k < |init| ==> init[k] == lines[k];
      GroupingConserves(rows, init);
      NetOverOneMore(rows, lines);
    }
  }

  lemma {:induction false} RowsNetIsNetOver(rows: seq<TrialBalanceRow>, lines: seq<EntryLine>)
    requires forall i :: 0 <= i < |rows| ==>
      rows[i].debit == AccountDebits(lines, rows[i].accountId)
          && rows[i].credit == AccountCredits(lines, rows[i].accountId)
    ensures RowsNet(rows) == NetOver(rows, lines)
  {
    if rows != [] {
      var init := rows[..|rows| - 1];
      assert forall i :: 0 <= i < |init| ==> init[i] == rows[i];
      RowsNetIsNetOver(init, lines);
    }
  }

  predicate NonNegativeRows(rows: seq<TrialBalanceRow>) {
    forall i :: 0 <= i < |rows| ==> rows[i].debit >= 0 && rows[i].credit >= 0
  }

  /** What the accounts of no class net to, credit minus debit: neither statement shows them. */
  function OtherCredit(rows: seq<TrialBalanceRow>): int {
    if rows == [] then 0
    else
      var row := rows[|rows| - 1];
      OtherCredit(rows[..|rows| - 1])
      + if Spelled(row.accountType, {"asset", "assets", "liability", "liabilities", "equity", "income", "revenue",
                                     "expense", "expenses"})
        then 0 else row.credit - row.debit
  }

  /** The statements' totals and what they do not show make up all rows. */
  lemma {:induction false} ClassesPartitionNet(rows: seq<TrialBalanceRow>)
    ensures -RowsNet(rows) ==
            NetCredit(rows, {"asset", "assets"}) + NetCredit(rows, {"liability", "liabilities"})
            + NetCredit(rows, {"equity"}) + NetCredit(rows, {"income", "revenue", "expense", "expenses"})
            + OtherCredit(rows)
  {
    if rows != [] {
      ClassesPartitionNet(rows[..|rows| - 1]);
    }
  }

  lemma RowBalance(row: TrialBalanceRow)
    requires row.debit >= 0 && row.credit >= 0
    ensures NetOf(row) == row.debit - row.credit && (NetOf(row) < 0 ==> Wrap(0 - NetOf(row)) == row.credit - row.debit)
  {
  }

  lemma {:induction false} ColumnsSplitNet(rows: seq<TrialBalanceRow>)
    requires NonNegativeRows(rows)
    ensures RowsNet(rows) == NetDebits(rows) - NetCredits(rows)
  {
    if rows != [] {
      var init, last := rows[..|rows| - 1], rows[|rows| - 1];
      assert forall i :: 0 <= i < |init| ==> init[i] == rows[i];
      ColumnsSplitNet(init);
      RowBalance(last);
    }
  }

  /** The accounting equation, for the rows of any balanced set of lines: the trial-balance columns are
      equal, and assets equal liabilities, equity and net income plus the credit balance of the accounts
      that neither statement shows. */
  lemma AccountingEquation(rows: seq<TrialBalanceRow>, lines: seq<EntryLine>)
    requires IsTrialBalance(rows, lines) && Debits(lines) == Credits(lines)
    ensures NetDebits(rows) == NetCredits(rows)
    ensures -NetCredit(rows, {"asset", "assets"}) ==
            NetCredit(rows, {"liability", "liabilities"}) + NetCredit(rows, {"equity"})
            + NetCredit(rows, {"income", "revenue", "expense", "expenses"}) + OtherCredit(rows)
  {
    forall k | 0 <= k < |lines| ensures HasRow(rows, lines[k].account) {
      var i :| 0 <= i < |rows| && rows[i].accountId == lines[k].account;
    }
    RowsNetIsNetOver(rows, lines);
    GroupingConserves(rows, lines);
    ClassesPartitionNet(rows);
    ColumnsSplitNet(rows);
  }

  /** The transactions of the entity that are dated start to end, by position. */
  function InWindow(transactions: seq<Transaction>, entity: string, start: int, end: int): set<int> {
    set i | 0 <= i < |transactions| && transactions[i].entity == entity && start <= transactions[i].date <= end
  }

  lemma AccountSumsConcat(a: seq<EntryLine>, b: seq<EntryLine>, account: string)
    ensures AccountDebits(a + b, account) == AccountDebits(a, account) + AccountDebits(b, account)
    ensures AccountCredits(a + b, account) == AccountCredits(a, account) + AccountCredits(b, account)
  {
    if b == [] {
      assert a + b == a;
    } else {
      assert (a + b)[..|a + b| - 1] == a + b[..|b| - 1];
      AccountSumsConcat(a, b[..|b| - 1], account);
    }
  }

  lemma InWindowSnoc(transactions: seq<Transaction>, n: nat, entity: string, start: int, end: int)
    requires n < |transactions|
    ensures var t, before := transactions[n], InWindow(transactions[..n], entity, start, end);
      && n !in before
      && InWindow(transactions[..n + 1], entity, start, end)
           == if t.entity == entity && start <= t.date <= end then before + {n} else before
  {
  }

  lemma SumWithOneMore(f: int -> int, s: set<int>, x: int)
    requires x !in s
    ensures SumSet(f, s + {x}) == SumSet(f, s) + f(x)
  {
    assert s + {x} - {x} == s;
    SumRemove(f, s + {x}, x);
  }

  /** The columns of a report row: what the entity's transactions in the window, and no others, put on the
      account. */
  lemma {:induction false} WindowSums(transactions: seq<Transaction>, n: nat, entity: string, start: int, end: int,
      account: string, debits: int -> int, credits: int -> int)
    requires n <= |transactions|
    requires forall i :: 0 <= i < |transactions| ==>
      && debits(i) == AccountDebits(transactions[i].entries, account)
      && credits(i) == AccountCredits(transactions[i].entries, account)
    ensures var lines := WindowLines(transactions[..n], entity, start, end);
      && AccountDebits(lines, account) == SumSet(debits, InWindow(transactions[..n], entity, start, end))
      && AccountCredits(lines, account) == SumSet(credits, InWindow(transactions[..n], entity, start, end))
  {
    if n > 0 {
      WindowSums(transactions, n - 1, entity, start, end, account, debits, credits);
      assert transactions[..n][..n - 1] == transactions[..n - 1];
      InWindowSnoc(transactions, n - 1, entity, start, end);
      var t, before := transactions[n - 1], InWindow(transactions[..n - 1], entity, start, end);
      var lines := WindowLines(transactions[..n - 1], entity, start, end);
      AccountSumsConcat(lines, t.entries, account);
      SumWithOneMore(debits, before, n - 1);
      SumWithOneMore(credits, before, n - 1);
      assert lines + [] == lines;
    }
  }

  /** A window of balanced transactions is balanced, whatever its dates. */
  lemma {:induction false} WindowBalances(transactions: seq<Transaction>, entity: string, start: int, end: int)
    requires forall i :: 0 <= i < |transactions| ==> Debits(transactions[i].entries) == Credits(transactions[i].entries)
    ensures Debits(WindowLines(transactions, entity, start, end))
        == Credits(WindowLines(transactions, entity, start, end))
  {
    if transactions != [] {
      var init, last := transactions[..|transactions| - 1], transactions[|transactions| - 1];
      WindowBalances(init, entity, start, end);
      var before := WindowLines(init, entity, start, end);
      SumsConcat(before, last.entries);
      assert before + [] == before;
    }
  }

  /** End to end: after any run of postings whose column totals fit into int64, the reports of any entity
      and any window satisfy the accounting equation, and the trial balance reports that it balances. */
  lemma ReportsOfEveryRun(events: seq<Event>, entity: string, start: int, end: int, rows: seq<TrialBalanceRow>)
    requires var b := Exec(EMPTY_BOOK, events);
      && (forall i :: 0 <= i < |b.transactions| ==>
           Fits(Debits(b.transactions[i].entries)) && Fits(Credits(b.transactions[i].entries)))
      && IsTrialBalance(rows, WindowLines(b.transactions, entity, start, end))
    ensures Wrap(NetDebits(rows)) == Wrap(NetCredits(rows))
    ensures -NetCredit(rows, {"asset", "assets"}) ==
            NetCredit(rows, {"liability", "liabilities"}) + NetCredit(rows, {"equity"})
            + NetCredit(rows, {"income", "revenue", "expense", "expenses"}) + OtherCredit(rows)
  {
    var b := Exec(EMPTY_BOOK, events);
    forall i | 0 <= i < |b.transactions|
        ensures Debits(b.transactions[i].entries) == Credits(b.transactions[i].entries) {
      EveryPostingBalances(events, i);
    }
    WindowBalances(b.transactions, entity, start, end);
    AccountingEquation(rows, WindowLines(b.transactions, entity, start, end));
  }
}
