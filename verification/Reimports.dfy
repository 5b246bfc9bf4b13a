/** Reprocessing an import whose rows are posted: what a statement that reconciles afterwards is worth. */
module Reimports {
  import opened Wrappers
  import opened Int64
  import opened Entries
  import opened Ledger
  import opened Imports
  import opened Statements

  function Signed(amount: int64, direction: string): int {
    if direction == "inflow" then amount else 0 - amount
  }

  /** What re-importing the proposals adds to the movements of the listed rows. */
  function Shift(rows: map<Key, ImportRow>, ps: seq<Proposal>, keys: seq<Key>): int {
    if keys == [] then 0
    else
      var k := keys[|keys| - 1];
      Shift(rows, ps, keys[..|keys| - 1])
      + if k in rows && LastFor(ps, k.index).Some?
        then Signed(LastFor(ps, k.index).value.amount, LastFor(ps, k.index).value.direction)
            - Signed(rows[k].amount, rows[k].direction)
        else 0
  }

  /** One posted row: its transaction still holds the old movement, the row the new one. */
  lemma RowShift(d: Desk, receipt: string, entity: string, ps: seq<Proposal>, offset: string, k: Key)
    requires Through(d, receipt, offset) && k.receipt == receipt && k in d.table.rows
        && d.table.rows[k].transaction.Some?
    ensures var row', t := Replace(d.table, receipt, entity, ps).rows, d.table.rows[k].transaction.value;
      && k in row' && row'[k].transaction == Some(t) && t < |d.book.transactions|
      && Net(d.book.transactions[t].entries, offset) == Signed(d.table.rows[k].amount, d.table.rows[k].direction)
      && Signed(row'[k].amount, row'[k].direction)
           == Net(d.book.transactions[t].entries, offset) + Shift(d.table.rows, ps, [k])
  {
    var t, row := d.table.rows[k].transaction.value, d.table.rows[k];
    ReplaceOverwrites(d.table, receipt, entity, ps, k);
    assert Holds(d, k, t) && PostedThrough(d, k, t, offset);
    var a :| a != offset && d.book.transactions[t].entries == Legs(row.amount, row.direction, a, offset);
    LegsNet(row.amount, row.direction, a, offset);
    assert [k][..0] == [];
  }

  lemma ShiftSnoc(rows: map<Key, ImportRow>, ps: seq<Proposal>, keys: seq<Key>)
    requires keys != []
    ensures Shift(rows, ps, keys) == Shift(rows, ps, keys[..|keys| - 1]) + Shift(rows, ps, [keys[|keys| - 1]])
  {
    assert [keys[|keys| - 1]][..0] == [];
  }

  /** The rows move what the ledger holds, plus the shift. */
  lemma {:induction false} MovementsShift(
      d: Desk, receipt: string, entity: string, ps: seq<Proposal>, offset: string, keys: seq<Key>)
    requires Through(d, receipt, offset)
    requires forall k :: k in keys ==> k.receipt == receipt && k in d.table.rows && d.table.rows[k].transaction.Some?
    ensures var d' := d.(table := Replace(d.table, receipt, entity, ps));
      Inflow(d'.table.rows, keys) - Outflow(d'.table.rows, keys)
          == LedgerNet(d', keys, offset) + Shift(d.table.rows, ps, keys)
  {
    if keys != [] {
      var init, k := keys[..|keys| - 1], keys[|keys| - 1];
      assert k in keys && forall j :: j in init ==> j in keys;
      MovementsShift(d, receipt, entity, ps, offset, init);
      RowShift(d, receipt, entity, ps, offset, k);
      ShiftSnoc(d.table.rows, ps, keys);
    }
  }

  /** A reconciled balance that moved by net plus shift, in int64. */
  lemma ShiftedMovement(starting: int64, ending: int64, inflow: int64, outflow: int64, net: int, shift: int)
    requires Difference(ending, ExpectedEnding(starting, inflow, outflow)) == 0
    requires inflow as int - outflow == net + shift
    ensures ending as int - starting == net <==> Fits(starting + net) && shift % MODULUS == 0
  {
    NoDifference(ending, ExpectedEnding(starting, inflow, outflow));
    ExpectedIs(starting, inflow, outflow);
    WholeTurns(starting + net, shift);
  }

  lemma WholeTurns(x: int, shift: int)
    ensures Wrap(x + shift) == x <==> Fits(x) && shift % MODULUS == 0
  {
    var k := WrapTurns(x + shift);
    if shift % MODULUS == 0 {
      WrapCongruent(x + shift, x, shift / MODULUS);
    }
    if Wrap(x + shift) == x {
      assert shift == -k * MODULUS;
    }
  }

  lemma CoveredRowsWerePosted(d: Desk, st: Statement, entity: string, ps: seq<Proposal>, keys: seq<Key>)
    requires DeskOk(d) && st.source.Some? && forall i :: 0 <= i < |ps| ==> ps[i].status != Posted
    requires var rows := Replace(d.table, st.source.value, entity, ps).rows;
      Joined(st, rows, keys) && UnpostedRows(rows, keys) == 0
    ensures forall k :: k in keys ==>
      k.receipt == st.source.value && k in d.table.rows && d.table.rows[k].transaction.Some?
  {
    var rows := Replace(d.table, st.source.value, entity, ps).rows;
    NoneUnposted(rows, keys);
    ReplaceKeeps(d, st.source.value, entity, ps);
    forall k | k in keys ensures k.receipt == st.source.value && k in d.table.rows
        && d.table.rows[k].transaction.Some? {
      assert Covered(st, rows, k);
      ReplaceOverwrites(d.table, st.source.value, entity, ps, k);
    }
  }

  /** For every desk and every re-import: a statement that reconciles afterwards agrees with the ledger exactly
      if its balance stays in int64 and the re-import shifts the covered rows by nothing, up to whole turns. */
  lemma ReimportedStatementAgreesIff(d: Desk, st: Statement, entity: string, ps: seq<Proposal>, keys: seq<Key>)
    requires DeskOk(d) && st.source.Some? && Through(d, st.source.value, st.account)
    requires forall i :: 0 <= i < |ps| ==> ps[i].status != Posted
    requires var d' := Imports.Next(d, ReplaceEvent(st.source.value, entity, ps));
      Joined(st, d'.table.rows, keys) && ReconcileStatus(st, d'.table.rows, keys) == Some(Reconciled)
    ensures var net := LedgerNet(Imports.Next(d, ReplaceEvent(st.source.value, entity, ps)), keys, st.account);
      st.ending - st.starting == net <==> Fits(st.starting + net) && Shift(d.table.rows, ps, keys) % MODULUS == 0
  {
    var d' := Imports.Next(d, ReplaceEvent(st.source.value, entity, ps));
    CoveredRowsWerePosted(d, st, entity, ps, keys);
    MovementsShift(d, st.source.value, entity, ps, st.account, keys);
    ShiftedMovement(st.starting, st.ending, Inflow(d'.table.rows, keys), Outflow(d'.table.rows, keys),
                    LedgerNet(d', keys, st.account), Shift(d.table.rows, ps, keys));
  }

  // ---- A run that ends in a disagreement ----

  const BANK := Account("e", "Bank", "asset")
  const SALES := Account("e", "Sales", "income")
  const ROW := Key("r", 1)

  function Offer(amount: int64): Proposal {
    Proposal(1, 10, "shop", "", amount, "inflow", None, "f", NeedsReview)
  }

  function SampleRow(amount: int64, account: Option<string>, status: RowStatus, transaction: Option<nat>): ImportRow {
    ImportRow(0, "e", 10, "shop", "", amount, "inflow", account, "f", status, transaction)
  }

  function Holding(amount: int64, account: Option<string>, status: RowStatus, transaction: Option<nat>): Table {
    Table(map[ROW := SampleRow(amount, account, status, transaction)], 1)
  }

  const OPEN_BOOK := Book(map["bank" := BANK, "sales" := SALES], map[], [])
  const SALE := Transaction("e", 10, "shop", None, [EntryLine("bank", 500, 0), EntryLine("sales", 0, 500)])

  const SAMPLE_EVENTS := [
    LedgerEvent(AddAccount("bank", BANK)), LedgerEvent(AddAccount("sales", SALES)),
    ReplaceEvent("r", "e", [Offer(500)]), UpdateEvent(ROW, "sales"), Imports.PostEvent(ROW, Some("bank")),
    ReplaceEvent("r", "e", [Offer(700)])]

  const SAMPLE_TRACE := [
    Desk(EMPTY_BOOK, Table(map[], 0)),
    Desk(Book(map["bank" := BANK], map[], []), Table(map[], 0)),
    Desk(OPEN_BOOK, Table(map[], 0)),
    Desk(OPEN_BOOK, Holding(500, None, NeedsReview, None)),
    Desk(OPEN_BOOK, Holding(500, Some("sales"), Mapped, None)),
    Desk(OPEN_BOOK.(transactions := [SALE]), Holding(500, Some("sales"), Posted, Some(0))),
    Desk(OPEN_BOOK.(transactions := [SALE]), Holding(700, Some("sales"), Posted, Some(0)))]

  /** The bank statement over those rows claims the movement that the re-import left. */
  const SAMPLE_STATEMENT := Statement("e", "bank", Some("r"), 0, 20, 0, 700, InReview)

  lemma ReplaceByOne(t: Table, p: Proposal)
    ensures Replace(t, "r", "e", [p]) == Upsert(t.(rows := WithoutUnposted(t.rows, "r")), "r", "e", p)
  {
    var pruned := t.(rows := WithoutUnposted(t.rows, "r"));
    assert [p][..0] == [];
    assert UpsertAll(pruned, "r", "e", []) == pruned;
  }

  lemma SampleImports()
    ensures Imports.Next(SAMPLE_TRACE[2], SAMPLE_EVENTS[2]) == SAMPLE_TRACE[3]
    ensures Imports.Next(SAMPLE_TRACE[5], SAMPLE_EVENTS[5]) == SAMPLE_TRACE[6]
  {
    ReplaceByOne(Table(map[], 0), Offer(500));
    assert WithoutUnposted(map[], "r") == map[];
    var posted := Holding(500, Some("sales"), Posted, Some(0));
    ReplaceByOne(posted, Offer(700));
    assert WithoutUnposted(posted.rows, "r") == posted.rows;
  }

  lemma SamplePosting()
    ensures Imports.Next(SAMPLE_TRACE[4], SAMPLE_EVENTS[4]) == SAMPLE_TRACE[5]
  {
    var row := SampleRow(500, Some("sales"), Mapped, None);
    var legs := RowEntries(row, "bank");
    assert legs == SALE.entries;
    SumsOfPair(legs[0], legs[1]);
    assert Accepted(legs) && LineConstraints(legs);
    assert PostProblem(OPEN_BOOK, "e", None, legs).None?;
    assert RowTransaction(row, "bank") == SALE;
    assert OPEN_BOOK.transactions + [SALE] == [SALE];
  }

  lemma SampleRun()
    ensures Imports.Run(SAMPLE_TRACE, SAMPLE_EVENTS)
  {
    assert Imports.Next(SAMPLE_TRACE[0], SAMPLE_EVENTS[0]) == SAMPLE_TRACE[1];
    assert Imports.Next(SAMPLE_TRACE[1], SAMPLE_EVENTS[1]) == SAMPLE_TRACE[2];
    SampleImports();
    assert Imports.Next(SAMPLE_TRACE[3], SAMPLE_EVENTS[3]) == SAMPLE_TRACE[4];
    SamplePosting();
  }

  lemma SampleReconciles()
    ensures Joined(SAMPLE_STATEMENT, SAMPLE_TRACE[6].table.rows, [ROW])
    ensures ReconcileStatus(SAMPLE_STATEMENT, SAMPLE_TRACE[6].table.rows, [ROW]) == Some(Reconciled)
  {
    var rows := SAMPLE_TRACE[6].table.rows;
    assert [ROW][..0] == [];
    assert Inflow(rows, []) == 0 && Outflow(rows, []) == 0 && UnpostedRows(rows, []) == 0;
    assert Inflow(rows, [ROW]) == 700 && Outflow(rows, [ROW]) == 0 && UnpostedRows(rows, [ROW]) == 0;
  }

  /** Import, map, post, re-import, reconcile: the statement agrees with the rows, and the ledger still holds
      the old amount. */
  lemma ReimportCanDisagree()
    ensures Imports.Run(SAMPLE_TRACE, SAMPLE_EVENTS)
    ensures Joined(SAMPLE_STATEMENT, SAMPLE_TRACE[6].table.rows, [ROW])
    ensures ReconcileStatus(SAMPLE_STATEMENT, SAMPLE_TRACE[6].table.rows, [ROW]) == Some(Reconciled)
    ensures SAMPLE_STATEMENT.ending - SAMPLE_STATEMENT.starting != LedgerNet(SAMPLE_TRACE[6], [ROW], "bank") == 500
  {
    SampleRun();
    SampleReconciles();
    assert [ROW][..0] == [];
    assert LedgerNet(SAMPLE_TRACE[6], [], "bank") == 0;
    SumsOfPair(SALE.entries[0], SALE.entries[1]);
    assert SALE.entries == [SALE.entries[0], SALE.entries[1]];
  }
}
