/** Account statements over imported rows: reconciling, and what a reconciled statement says about the
    ledger. */
module Statements {
  import opened Wrappers
  import opened Int64
  import opened Entries
  import opened Ledger
  import opened Imports

  datatype StatementStatus = Draft | InReview | Reconciled | Locked

  /** source is the import receipt whose rows the statement covers. */
  datatype Statement = Statement(
    entity: string, account: string, source: Option<string>, periodStart: int, periodEnd: int,
    starting: int64, ending: int64, status: StatementStatus)

  /** The offset account of a receipt's postings: its statement's account, else the default cash account. */
  function OffsetAccount(statement: Option<Statement>, entity: string, cash: Option<string>): Option<string> {
    if statement.Some? && statement.value.entity == entity && statement.value.account != ""
    then Some(statement.value.account)
    else cash
  }

  /** The two legs of a row: the offset account moves by the row's amount in its sense and the row's own account
      the other way, and both stay as they are when they are the same. */
  predicate CarriesRow(entries: seq<EntryLine>, row: ImportRow, offset: string) {
    && row.account.Some?
    && var amount := if row.account.value == offset then 0 else row.amount as int;
       && Net(entries, offset) == (if row.direction == "inflow" then amount else -amount)
       && Net(entries, row.account.value) == (if row.direction == "inflow" then -amount else amount)
  }

  lemma RowEntriesCarry(row: ImportRow, offset: string)
    requires RowEntries(row, offset) != []
    ensures CarriesRow(RowEntries(row, offset), row, offset)
  {
    var legs := RowEntries(row, offset);
    SumsOfPair(legs[0], legs[1]);
    assert legs == [legs[0], legs[1]];
  }

  /** Exactly when a row can be posted: a positive amount between two accounts of its entity. */
  lemma CanPostExactlyWhen(d: Desk, row: ImportRow, offset: string)
    ensures CanPost(d, row, offset) <==>
            && row.amount > 0 && row.account.Some? && row.account.value != "" && offset != ""
            && row.account.value in d.book.accounts && d.book.accounts[row.account.value].entity == row.entity
            && offset in d.book.accounts && d.book.accounts[offset].entity == row.entity
  {
    var legs := RowEntries(row, offset);
    PostsExactlyWhen(d.book, row.entity, None, legs);
    if legs != [] {
      SumsOfPair(legs[0], legs[1]);
      assert legs == [legs[0], legs[1]];
      assert LinesPostable(d.book.accounts, row.entity, legs) ==>
          OwnedBy(d.book.accounts, row.entity, legs[0]) && OwnedBy(d.book.accounts, row.entity, legs[1]);
    }
  }

  /** The transaction of a row: its entity, date and text, and its two legs. */
  predicate IsPostingOf(t: Transaction, row: ImportRow, offset: string) {
    && t.entity == row.entity && t.date == row.date && t.receipt.None?
    && t.memo == (if row.memo == "" || row.memo == row.vendor then row.vendor else row.vendor + " - " + row.memo)
    && CarriesRow(t.entries, row, offset)
  }

  /** A statement of the entity with an account decides the other account; without one it is the entity's
      default cash account. */
  predicate Decides(statement: Option<Statement>, entity: string, cash: Option<string>, offset: string) {
    if statement.Some? && statement.value.entity == entity && statement.value.account != ""
    then statement.value.account == offset
    else cash == Some(offset)
  }

  predicate Covered(st: Statement, rows: map<Key, ImportRow>, k: Key) {
    k in rows && st.source == Some(k.receipt) && st.periodStart <= rows[k].date <= st.periodEnd
  }

  /** keys lists the rows the statement's query joins, each once, in any order. */
  ghost predicate Joined(st: Statement, rows: map<Key, ImportRow>, keys: seq<Key>) {
    && (forall i, j :: 0 <= i < j < |keys| ==> keys[i] != keys[j])
    && (forall k :: k in keys <==> Covered(st, rows, k))
  }

  /** SUM of the inflow amounts. */
  function Inflow(rows: map<Key, ImportRow>, keys: seq<Key>): int {
    if keys == [] then 0
    else
      var k := keys[|keys| - 1];
      Inflow(rows, keys[..|keys| - 1]) + if k in rows && rows[k].direction == "inflow" then rows[k].amount else 0
  }

  /** SUM of all other amounts. */
  function Outflow(rows: map<Key, ImportRow>, keys: seq<Key>): int {
    if keys == [] then 0
    else
      var k := keys[|keys| - 1];
      Outflow(rows, keys[..|keys| - 1]) + if k in rows && rows[k].direction != "inflow" then rows[k].amount else 0
  }

  function UnpostedRows(rows: map<Key, ImportRow>, keys: seq<Key>): nat {
    if keys == [] then 0
    else
      var k := keys[|keys| - 1];
      UnpostedRows(rows, keys[..|keys| - 1]) + if k in rows && rows[k].status != Posted then 1 else 0
  }

  function ExpectedEnding(starting: int64, inflow: int64, outflow: int64): int64 {
    Wrap(Wrap(starting + inflow) - outflow)
  }

  function Difference(ending: int64, expected: int64): int64 {
    Wrap(ending - expected)
  }

  /** The status that Reconcile sets; the query fails when a sum does not fit into int64. */
  function ReconcileStatus(st: Statement, rows: map<Key, ImportRow>, keys: seq<Key>): Option<StatementStatus> {
    var inflow, outflow := Inflow(rows, keys), Outflow(rows, keys);
    if !Fits(inflow) || !Fits(outflow) then None
    else if Difference(st.ending, ExpectedEnding(st.starting, inflow, outflow)) != 0 || UnpostedRows(rows, keys) > 0
    then Some(InReview)
    else Some(Reconciled)
  }

  class StatementStore {
    var statements: map<string, Statement>

    constructor ()
      ensures statements == map[]
    {
      statements := map[];
    }

    /** The rows that the aggregate query joins. */
    method Join(st: Statement, rows: map<Key, ImportRow>) returns (keys: seq<Key>)
      ensures Joined(st, rows, keys)
      ensures forall k ::
        k in keys <==> k in rows && st.source == Some(k.receipt) && st.periodStart <= rows[k].date <= st.periodEnd
    {
      keys := [];
      var rest := set k | k in rows && Covered(st, rows, k);
      while rest != {}
        invariant forall i, j :: 0 <= i < j < |keys| ==> keys[i] != keys[j]
        invariant forall k :: k in keys || k in rest <==> Covered(st, rows, k)
        invariant forall k :: k in keys ==> k !in rest
        decreases rest
      {
        var k :| k in rest;
        keys, rest := keys + [k], rest - {k};
      }
    }

    /** The sums it computes over them. */
    method Aggregate(rows: map<Key, ImportRow>, keys: seq<Key>) returns (inflow: int, outflow: int, unposted: nat)
      requires forall k :: k in keys ==> k in rows
      ensures inflow == Inflow(rows, keys) && outflow == Outflow(rows, keys) && unposted == UnpostedRows(rows, keys)
    {
      inflow, outflow, unposted := 0, 0, 0;
      for i := 0 to |keys|
        invariant inflow == Inflow(rows, keys[..i]) && outflow == Outflow(rows, keys[..i])
        invariant unposted == UnpostedRows(rows, keys[..i])
      {
        var k := keys[i];
        assert k in rows && keys[..i + 1][..i] == keys[..i];
        if rows[k].direction == "inflow" {
          inflow := inflow + rows[k].amount;
        } else {
          outflow := outflow + rows[k].amount;
        }
        if rows[k].status != Posted {
          unposted := unposted + 1;
        }
      }
      assert keys[..|keys|] == keys;
    }

    method Reconcile(id: string, rows: map<Key, ImportRow>) returns (ok: bool, ghost keys: seq<Key>)
      modifies this
      ensures id !in old(statements) ==> !ok && statements == old(statements)
      ensures id in old(statements) ==>
        && Joined(old(statements)[id], rows, keys)
        && match ReconcileStatus(old(statements)[id], rows, keys)
           case None => !ok && statements == old(statements)
           case Some(status) => ok && statements == old(statements)[id := old(statements)[id].(status := status)]
    {
      if id !in statements {
        return false, [];
      }
      var st := statements[id];
      var joined := Join(st, rows);
      keys := joined;
      var inflow, outflow, unposted := Aggregate(rows, joined);
      if !Fits(inflow) || !Fits(outflow) {
        return false, keys;
      }
      var status := Reconciled;
      if Difference(st.ending, ExpectedEnding(st.starting, inflow, outflow)) != 0 || unposted > 0 {
        status := InReview;
      }
      statements := statements[id := st.(status := status)];
      ok := true;
    }
  }

  // ---- A reconciled statement against the ledger ----

  /** The row's transaction moves its amount between the offset account and some other account. */
  ghost predicate PostedThrough(d: Desk, k: Key, t: nat, offset: string) {
    && Holds(d, k, t) && t < |d.book.transactions|
    && exists a :: a != offset
         && d.book.transactions[t].entries == Legs(d.table.rows[k].amount, d.table.rows[k].direction, a, offset)
  }

  /** All posted rows of this receipt went through this account. */
  ghost predicate Through(d: Desk, receipt: string, offset: string) {
    forall k, t: nat :: Holds(d, k, t) && k.receipt == receipt ==> PostedThrough(d, k, t, offset)
  }

  /** What the transactions of the listed rows put on the account, debit minus credit. */
  function LedgerNet(d: Desk, keys: seq<Key>, account: string): int {
    if keys == [] then 0
    else
      var k := keys[|keys| - 1];
      LedgerNet(d, keys[..|keys| - 1], account)
      + if k in d.table.rows && d.table.rows[k].transaction.Some?
          && d.table.rows[k].transaction.value < |d.book.transactions|
        then Net(d.book.transactions[d.table.rows[k].transaction.value].entries, account)
        else 0
  }

  lemma LegsNet(amount: int64, direction: string, account: string, offset: string)
    requires account != offset
    ensures Net(Legs(amount, direction, account, offset), offset) == if direction == "inflow" then amount
        else 0 - amount
  {
    var legs := Legs(amount, direction, account, offset);
    SumsOfPair(legs[0], legs[1]);
    assert legs == [legs[0], legs[1]];
  }

  /** Posted rows contribute to the ledger exactly what they contribute to the statement. */
  lemma {:induction false} NetIsInMinusOut(d: Desk, receipt: string, offset: string, keys: seq<Key>)
    requires Through(d, receipt, offset)
    requires forall k :: k in keys ==> k in d.table.rows && k.receipt == receipt && d.table.rows[k].transaction.Some?
    ensures LedgerNet(d, keys, offset) == Inflow(d.table.rows, keys) - Outflow(d.table.rows, keys)
  {
    if keys != [] {
      var init, k := keys[..|keys| - 1], keys[|keys| - 1];
      assert forall j :: j in init ==> j in keys;
      assert k in keys;
      NetIsInMinusOut(d, receipt, offset, init);
      var t := d.table.rows[k].transaction.value;
      assert PostedThrough(d, k, t, offset);
      var a :| a != offset
          && d.book.transactions[t].entries == Legs(d.table.rows[k].amount, d.table.rows[k].direction, a, offset);
      LegsNet(d.table.rows[k].amount, d.table.rows[k].direction, a, offset);
    }
  }

  lemma {:induction false} NoneUnposted(rows: map<Key, ImportRow>, keys: seq<Key>)
    requires UnpostedRows(rows, keys) == 0
    ensures forall k :: k in keys && k in rows ==> rows[k].status == Posted
  {
    if keys != [] {
      NoneUnposted(rows, keys[..|keys| - 1]);
      assert keys == keys[..|keys| - 1] + [keys[|keys| - 1]];
    }
  }

  lemma NoDifference(ending: int64, expected: int64)
    requires Difference(ending, expected) == 0
    ensures ending == expected
  {
    var k := WrapTurns(ending - expected);
  }

  lemma ExpectedIs(starting: int64, inflow: int64, outflow: int64)
    ensures ExpectedEnding(starting, inflow, outflow) == Wrap(starting + (inflow - outflow))
  {
    WrapAdd(starting + inflow, 0 - outflow as int);
    assert Wrap(starting + inflow) + (0 - outflow as int) == Wrap(starting + inflow) - outflow;
    assert starting + inflow + (0 - outflow as int) == starting + (inflow - outflow);
  }

  /** int64 arithmetic of a balance that moves from starting to ending. */
  lemma MovementFits(starting: int64, ending: int64, inflow: int64, outflow: int64)
    requires Difference(ending, ExpectedEnding(starting, inflow, outflow)) == 0
    ensures ending as int - starting == inflow as int - outflow <==> Fits(starting as int + (inflow - outflow))
  {
    NoDifference(ending, ExpectedEnding(starting, inflow, outflow));
    ExpectedIs(starting, inflow, outflow);
  }

  /** If the rows went through the statement's account and Reconcile sets "reconciled", then the statement's
      balance moved by exactly what the rows' transactions put on the account - unless that movement takes
      the balance out of int64. */
  lemma ReconciledMatchesLedger(d: Desk, st: Statement, keys: seq<Key>)
    requires DeskOk(d) && st.source.Some? && Through(d, st.source.value, st.account)
    requires Joined(st, d.table.rows, keys) && ReconcileStatus(st, d.table.rows, keys) == Some(Reconciled)
    ensures st.ending - st.starting == LedgerNet(d, keys, st.account) <==>
        Fits(st.starting + LedgerNet(d, keys, st.account))
  {
    var rows := d.table.rows;
    NoneUnposted(rows, keys);
    NetIsInMinusOut(d, st.source.value, st.account, keys);
    MovementFits(st.starting, st.ending, Inflow(rows, keys), Outflow(rows, keys));
  }

  // ---- What keeps the rows posted through one account ----

  /** The last proposal for an index is the one that an upsert of all of them leaves. */
  function LastFor(ps: seq<Proposal>, index: int): Option<Proposal> {
    if ps == [] then None
    else if ps[|ps| - 1].index == index then Some(ps[|ps| - 1])
    else LastFor(ps[..|ps| - 1], index)
  }

  predicate SameMovement(row: ImportRow, p: Proposal) {
    p.amount == row.amount && (p.direction == "inflow" <==> row.direction == "inflow")
  }

  /** The proposals repeat what the receipt's posted rows moved. */
  ghost predicate Repeats(t: Table, receipt: string, ps: seq<Proposal>) {
    forall k :: k in t.rows && k.receipt == receipt && t.rows[k].transaction.Some? && LastFor(ps, k.index).Some? ==>
      SameMovement(t.rows[k], LastFor(ps, k.index).value)
  }

  /** The steps that keep a receipt's rows posted through one account: its rows are posted with that account
      as the offset and never against it, and a re-import repeats what a posted row moved. */
  ghost predicate Careful(d: Desk, e: Imports.Event, receipt: string, offset: string) {
    match e
    case PostEvent(key, through) =>
      key.receipt == receipt && Imports.Next(d, e) != d ==>
          through == Some(offset) && d.table.rows[key].account != Some(offset)
    case ReplaceEvent(from, _, ps) =>
      from == receipt ==> Repeats(d.table, receipt, ps)
    case _ => true
  }

  /** An upsert never ties or unties a row, and a tied row moves what the last proposal for it says. */
  ghost predicate Overwrites(before: map<Key, ImportRow>, after: map<Key, ImportRow>, ps: seq<Proposal>, k: Key) {
    && (k in after && after[k].transaction.Some? <==> k in before && before[k].transaction.Some?)
    && (k in before && before[k].transaction.Some? && k in after ==>
          && after[k].transaction == before[k].transaction
          && if LastFor(ps, k.index).None? then after[k] == before[k]
             else after[k].amount == LastFor(ps, k.index).value.amount
                  && after[k].direction == LastFor(ps, k.index).value.direction)
  }

  lemma {:induction false} UpsertAllOverwrites(t: Table, receipt: string, entity: string, ps: seq<Proposal>, k: Key)
    requires k.receipt == receipt
    ensures Overwrites(t.rows, UpsertAll(t, receipt, entity, ps).rows, ps, k)
  {
    if ps != [] {
      UpsertAllOverwrites(t, receipt, entity, ps[..|ps| - 1], k);
    }
  }

  lemma ReplaceOverwrites(t: Table, receipt: string, entity: string, ps: seq<Proposal>, k: Key)
    requires k.receipt == receipt
    ensures Overwrites(t.rows, Replace(t, receipt, entity, ps).rows, ps, k)
  {
    UpsertAllOverwrites(t.(rows := WithoutUnposted(t.rows, receipt)), receipt, entity, ps, k);
  }

  lemma {:induction false} OtherReceiptUntouched(t: Table, receipt: string, entity: string, ps: seq<Proposal>, k: Key)
    requires k.receipt != receipt
    ensures k in UpsertAll(t, receipt, entity, ps).rows <==> k in t.rows
    ensures k in t.rows ==> UpsertAll(t, receipt, entity, ps).rows[k] == t.rows[k]
  {
    if ps != [] {
      OtherReceiptUntouched(t, receipt, entity, ps[..|ps| - 1], k);
    }
  }

  /** The first account proposed for an index. */
  function FirstAccountFor(ps: seq<Proposal>, index: int): Option<string> {
    if ps == [] then None
    else if FirstAccountFor(ps[..|ps| - 1], index).Some? then FirstAccountFor(ps[..|ps| - 1], index)
    else if ps[|ps| - 1].index == index then ps[|ps| - 1].account
    else None
  }

  /** The row says what the proposal says. */
  predicate Repeated(row: ImportRow, p: Proposal) {
    && row.date == p.date && row.vendor == p.vendor && row.memo == p.memo && row.amount == p.amount
    && row.direction == p.direction && row.fingerprint == p.fingerprint
  }

  /** A row tied to a transaction keeps its identity, its status, the transaction and an account once chosen. */
  predicate KeptTied(before: ImportRow, row: ImportRow, ps: seq<Proposal>, index: int) {
    && row.id == before.id && row.entity == before.entity && row.status == before.status
    && row.transaction == before.transaction
    && row.account == (if before.account.Some? then before.account else FirstAccountFor(ps, index))
    && (LastFor(ps, index).None? ==> row == before)
  }

  /** Any other row is a new one, with the first account proposed for it and its last status. */
  predicate Fresh(row: ImportRow, entity: string, nextId: nat, ps: seq<Proposal>, index: int) {
    && LastFor(ps, index).Some? && row.id >= nextId && row.entity == entity && row.transaction.None?
    && row.status == LastFor(ps, index).value.status && row.account == FirstAccountFor(ps, index)
  }

  /** What offering the rows of a receipt leaves at one key, when only tied rows of it were left. */
  ghost predicate Offered(t: Table, t': Table, entity: string, ps: seq<Proposal>, k: Key) {
    && (k in t'.rows <==> k in t.rows || LastFor(ps, k.index).Some?)
    && (k in t.rows ==> k in t'.rows && KeptTied(t.rows[k], t'.rows[k], ps, k.index))
    && (k !in t.rows && k in t'.rows ==> Fresh(t'.rows[k], entity, t.nextId, ps, k.index))
    && (LastFor(ps, k.index).Some? && k in t'.rows ==> Repeated(t'.rows[k], LastFor(ps, k.index).value))
    && t.nextId <= t'.nextId
  }

  lemma {:induction false} UpsertAllOffers(t: Table, receipt: string, entity: string, ps: seq<Proposal>, k: Key)
    requires k.receipt == receipt && (k in t.rows ==> t.rows[k].transaction.Some?)
    ensures Offered(t, UpsertAll(t, receipt, entity, ps), entity, ps, k)
    ensures LastFor(ps, k.index).None? ==> FirstAccountFor(ps, k.index).None?
  {
    if ps != [] {
      UpsertAllOffers(t, receipt, entity, ps[..|ps| - 1], k);
    }
  }

  /** Reprocessing a receipt: rows of other receipts are as they were; of its own, the unposted ones that no
      proposal names are gone, the posted ones keep what ties them, and every proposed one says what its last
      proposal says. */
  lemma {:induction false} ReplaceExactly(t: Table, receipt: string, entity: string, ps: seq<Proposal>, k: Key)
    ensures var t', tied := Replace(t, receipt, entity, ps), k in t.rows && t.rows[k].transaction.Some?;
      if k.receipt != receipt then (k in t'.rows <==> k in t.rows) && (k in t.rows ==> t'.rows[k] == t.rows[k])
      else
        && (k in t'.rows <==> tied || LastFor(ps, k.index).Some?)
        && (tied ==> KeptTied(t.rows[k], t'.rows[k], ps, k.index))
        && (k in t'.rows && !tied ==> Fresh(t'.rows[k], entity, t.nextId, ps, k.index))
        && (k in t'.rows && LastFor(ps, k.index).Some? ==> Repeated(t'.rows[k], LastFor(ps, k.index).value))
  {
    var pruned := t.(rows := WithoutUnposted(t.rows, receipt));
    if k.receipt == receipt {
      UpsertAllOffers(pruned, receipt, entity, ps, k);
    } else {
      OtherReceiptUntouched(pruned, receipt, entity, ps, k);
    }
  }

  /** Two legs tell the amount, the sense and the other account. */
  lemma LegsDetermine(amount: int64, direction: string, a: string, amount': int64, direction': string, b: string,
      offset: string)
    requires a != offset && b != offset
    ensures Legs(amount, direction, a, offset) == Legs(amount', direction', b, offset) <==>
            amount == amount' && (direction == "inflow" <==> direction' == "inflow") && a == b
  {
    var legs, legs' := Legs(amount, direction, a, offset), Legs(amount', direction', b, offset);
    assert legs == legs' ==> legs[0] == legs'[0] && legs[1] == legs'[1];
  }

  /** A row tied to the same transaction is still posted through the account exactly if it still moves the
      same. */
  lemma StillThroughIff(d: Desk, d': Desk, k: Key, t: nat, offset: string)
    requires Holds(d, k, t) && PostedThrough(d, k, t, offset) && Holds(d', k, t) && d'.book == d.book
    ensures PostedThrough(d', k, t, offset) <==>
            d'.table.rows[k].amount == d.table.rows[k].amount
            && (d'.table.rows[k].direction == "inflow" <==> d.table.rows[k].direction == "inflow")
  {
    var row, row' := d.table.rows[k], d'.table.rows[k];
    var a :| a != offset && d.book.transactions[t].entries == Legs(row.amount, row.direction, a, offset);
    LegsDetermine(row.amount, row.direction, a, row'.amount, row'.direction, a, offset);
    if PostedThrough(d', k, t, offset) {
      var b :| b != offset && d.book.transactions[t].entries == Legs(row'.amount, row'.direction, b, offset);
      LegsDetermine(row.amount, row.direction, a, row'.amount, row'.direction, b, offset);
    }
  }

  lemma ReplacedRowThroughIff(d: Desk, receipt: string, entity: string, ps: seq<Proposal>, offset: string, k: Key,
      t: nat)
    requires Through(d, receipt, offset) && k.receipt == receipt && Holds(d, k, t)
    ensures var d' := d.(table := Replace(d.table, receipt, entity, ps));
      && Holds(d', k, t)
      && (PostedThrough(d', k, t, offset) <==>
            (LastFor(ps, k.index).Some? ==> SameMovement(d.table.rows[k], LastFor(ps, k.index).value)))
  {
    ReplaceOverwrites(d.table, receipt, entity, ps, k);
    StillThroughIff(d, d.(table := Replace(d.table, receipt, entity, ps)), k, t, offset);
  }

  /** After a re-import the receipt's rows are still posted through the account exactly if the last proposal
      for each posted row repeats its amount and its sense. */
  lemma ReimportThroughIff(d: Desk, receipt: string, entity: string, ps: seq<Proposal>, offset: string)
    requires Through(d, receipt, offset)
    ensures Through(d.(table := Replace(d.table, receipt, entity, ps)), receipt, offset) <==>
        Repeats(d.table, receipt, ps)
  {
    var d' := d.(table := Replace(d.table, receipt, entity, ps));
    if Through(d', receipt, offset) {
      forall k | k in d.table.rows && k.receipt == receipt && d.table.rows[k].transaction.Some?
          && LastFor(ps, k.index).Some?
        ensures SameMovement(d.table.rows[k], LastFor(ps, k.index).value)
      {
        var t := d.table.rows[k].transaction.value;
        ReplacedRowThroughIff(d, receipt, entity, ps, offset, k, t);
      }
    }
    if Repeats(d.table, receipt, ps) {
      forall k, t: nat | Holds(d', k, t) && k.receipt == receipt ensures PostedThrough(d', k, t, offset) {
        ReplaceOverwrites(d.table, receipt, entity, ps, k);
        assert Holds(d, k, t);
        ReplacedRowThroughIff(d, receipt, entity, ps, offset, k, t);
      }
    }
  }

  lemma OtherReimportKeepsThrough(d: Desk, from: string, entity: string, ps: seq<Proposal>, receipt: string,
      offset: string)
    requires Through(d, receipt, offset) && from != receipt
    ensures Through(d.(table := Replace(d.table, from, entity, ps)), receipt, offset)
  {
    var pruned := d.table.(rows := WithoutUnposted(d.table.rows, from));
    var d' := d.(table := Replace(d.table, from, entity, ps));
    forall k, t: nat | Holds(d', k, t) && k.receipt == receipt ensures PostedThrough(d', k, t, offset) {
      OtherReceiptUntouched(pruned, from, entity, ps, k);
      assert Holds(d, k, t);
      StillThroughIff(d, d', k, t, offset);
    }
  }

  lemma LegsThrough(amount: int64, direction: string, account: string, through: string, offset: string)
    ensures (exists a :: a != offset && Legs(amount, direction, account, through) == Legs(amount, direction, a, offset))
            <==> through == offset && account != offset
  {
    if a :| a != offset && Legs(amount, direction, account, through) == Legs(amount, direction, a, offset) {
      var legs, legs' := Legs(amount, direction, account, through), Legs(amount, direction, a, offset);
      assert legs[0] == legs'[0] && legs[1] == legs'[1];
    }
    if through == offset {
      assert Legs(amount, direction, account, through) == Legs(amount, direction, account, offset);
    }
  }

  /** The ledger only grew, and the row is as it was. */
  lemma GrownLedgerKeepsThrough(d: Desk, d': Desk, k: Key, t: nat, offset: string)
    requires Holds(d, k, t) && PostedThrough(d, k, t, offset)
    requires d.book.transactions <= d'.book.transactions && k in d'.table.rows
    requires d'.table.rows[k].(account := d.table.rows[k].account) == d.table.rows[k]
    ensures PostedThrough(d', k, t, offset)
  {
    var a :| a != offset
        && d.book.transactions[t].entries == Legs(d.table.rows[k].amount, d.table.rows[k].direction, a, offset);
    assert d'.book.transactions[t] == d.book.transactions[t];
    assert d'.book.transactions[t].entries == Legs(d'.table.rows[k].amount, d'.table.rows[k].direction, a, offset);
  }

  lemma PostThroughIff(d: Desk, key: Key, through: Option<string>, receipt: string, offset: string)
    requires DeskOk(d) && Through(d, receipt, offset)
    ensures Through(PostOne(d, key, through), receipt, offset) <==>
        Careful(d, Imports.PostEvent(key, through), receipt, offset)
  {
    var d' := PostOne(d, key, through);
    if d' != d {
      var row, last := d.table.rows[key], |d.book.transactions|;
      LegsThrough(row.amount, row.direction, row.account.value, through.value, offset);
      assert Holds(d', key, last) && d'.book.transactions[last].entries == RowEntries(row, through.value);
      forall k, t: nat | Holds(d, k, t) && k.receipt == receipt ensures PostedThrough(d', k, t, offset) {
        GrownLedgerKeepsThrough(d, d', k, t, offset);
      }
      assert forall k, t: nat :: Holds(d', k, t) <==> Holds(d, k, t) || (k == key && t == last);
    }
  }

  /** Exactly the careful steps keep the receipt's rows posted through the account. */
  lemma StepThroughIff(d: Desk, e: Imports.Event, receipt: string, offset: string)
    requires DeskOk(d) && Through(d, receipt, offset)
    ensures Through(Imports.Next(d, e), receipt, offset) <==> Careful(d, e, receipt, offset)
  {
    match e
    case ReplaceEvent(from, entity, ps) =>
      if from == receipt {
        ReimportThroughIff(d, from, entity, ps, offset);
      } else {
        OtherReimportKeepsThrough(d, from, entity, ps, receipt, offset);
      }
    case PostEvent(key, through) => PostThroughIff(d, key, through, receipt, offset);
    case _ =>
      var d' := Imports.Next(d, e);
      forall k, t: nat | Holds(d', k, t) && k.receipt == receipt ensures PostedThrough(d', k, t, offset) {
        assert Holds(d, k, t);
        GrownLedgerKeepsThrough(d, d', k, t, offset);
      }
  }

  /** What posting one row of a list leaves of the rows. */
  ghost predicate SameMoves(before: map<Key, ImportRow>, after: map<Key, ImportRow>) {
    forall k :: k in before ==>
      && k in after
      && (before[k].transaction.Some? ==> after[k] == before[k])
      && after[k].(status := before[k].status, transaction := before[k].transaction) == before[k]
  }

  /** This transaction is the posting of a listed row. */
  ghost predicate PostingOfListed(before: map<Key, ImportRow>, d: Desk, t: nat, keys: seq<Key>, offset: string)
    requires t < |d.book.transactions|
  {
    exists k :: k in keys && k in before && Holds(d, k, t) && IsPostingOf(d.book.transactions[t], before[k], offset)
  }

  /** So are all transactions from n on. */
  ghost predicate OnlyPostingsOf(before: map<Key, ImportRow>, d: Desk, n: nat, keys: seq<Key>, offset: string) {
    forall t :: n <= t < |d.book.transactions| ==> PostingOfListed(before, d, t, keys, offset)
  }

  lemma OnePosting(d: Desk, key: Key, offset: string)
    requires key in d.table.rows && PostOne(d, key, Some(offset)) != d
    ensures var d', n := PostOne(d, key, Some(offset)), |d.book.transactions|;
      && |d'.book.transactions| == n + 1 && d.book.transactions <= d'.book.transactions
      && Holds(d', key, n) && IsPostingOf(d'.book.transactions[n], d.table.rows[key], offset)
      && d.table.rows[key].transaction.None? && SameMoves(d.table.rows, d'.table.rows)
  {
    RowEntriesCarry(d.table.rows[key], offset);
  }

  /** Posting a list of rows adds one transaction for each row posted, and nothing else. */
  lemma {:induction false} ManyPostings(d: Desk, keys: seq<Key>, offset: string)
    requires forall k :: k in keys ==> k in d.table.rows
    ensures var d' := PostMany(d, keys, offset);
      && d.book.transactions <= d'.book.transactions && SameMoves(d.table.rows, d'.table.rows)
      && OnlyPostingsOf(d.table.rows, d', |d.book.transactions|, keys, offset)
  {
    if keys != [] {
      var init, key := keys[..|keys| - 1], keys[|keys| - 1];
      assert keys == init + [key];
      assert forall k :: k in init ==> k in keys;
      ManyPostings(d, init, offset);
      var mid, d' := PostMany(d, init, offset), PostMany(d, keys, offset);
      if d' != mid {
        OnePosting(mid, key, offset);
        OneMorePosting(d.table.rows, mid, d', |d.book.transactions|, init, key, offset);
      } else {
        ListedInMore(d.table.rows, mid, |d.book.transactions|, init, key, offset);
      }
    }
  }

  lemma ListedInMore(before: map<Key, ImportRow>, d: Desk, n: nat, init: seq<Key>, key: Key, offset: string)
    requires OnlyPostingsOf(before, d, n, init, offset)
    ensures OnlyPostingsOf(before, d, n, init + [key], offset)
  {
    forall t | n <= t < |d.book.transactions| ensures PostingOfListed(before, d, t, init + [key], offset) {
      assert PostingOfListed(before, d, t, init, offset);
      var k :| k in init && k in before && Holds(d, k, t) && IsPostingOf(d.book.transactions[t], before[k], offset);
      assert k in init + [key];
    }
  }

  lemma OneMorePosting(before: map<Key, ImportRow>, mid: Desk, d': Desk, n: nat, init: seq<Key>, key: Key,
      offset: string)
    requires SameMoves(before, mid.table.rows) && OnlyPostingsOf(before, mid, n, init, offset)
    requires n <= |mid.book.transactions| && |d'.book.transactions| == |mid.book.transactions| + 1
    requires mid.book.transactions <= d'.book.transactions && SameMoves(mid.table.rows, d'.table.rows)
    requires key in before && Holds(d', key, |mid.book.transactions|)
    requires IsPostingOf(d'.book.transactions[|mid.book.transactions|], mid.table.rows[key], offset)
    ensures OnlyPostingsOf(before, d', n, init + [key], offset)
  {
    forall t | n <= t < |d'.book.transactions|
      ensures PostingOfListed(before, d', t, init + [key], offset)
    {
      if t < |mid.book.transactions| {
        assert PostingOfListed(before, mid, t, init, offset);
        var k :| k in init && k in before && Holds(mid, k, t)
            && IsPostingOf(mid.book.transactions[t], before[k], offset);
        assert k in init + [key] && Holds(d', k, t);
      } else {
        assert key in init + [key];
      }
    }
  }

  /** None of the listed rows that can still be posted is mapped to the offset account itself. */
  ghost predicate NoneAgainst(rows: map<Key, ImportRow>, keys: seq<Key>, offset: string) {
    forall k :: k in keys && k in rows && rows[k].transaction.None? ==> rows[k].account != Some(offset)
  }

  /** Posting a list of rows through an account keeps the receipt's rows posted through it. */
  lemma {:induction false} ManyThrough(d: Desk, keys: seq<Key>, receipt: string, offset: string)
    requires DeskOk(d) && Through(d, receipt, offset) && NoneAgainst(d.table.rows, keys, offset)
    requires forall k :: k in keys ==> k in d.table.rows
    ensures DeskOk(PostMany(d, keys, offset)) && Through(PostMany(d, keys, offset), receipt, offset)
  {
    if keys != [] {
      var init, key := keys[..|keys| - 1], keys[|keys| - 1];
      assert forall k :: k in init ==> k in keys;
      ManyThrough(d, init, receipt, offset);
      ManyPostings(d, init, offset);
      var mid := PostMany(d, init, offset);
      assert key in keys;
      var e := Imports.PostEvent(key, Some(offset));
      NextKeeps(mid, e);
      if Imports.Next(mid, e) != mid {
        assert mid.table.rows[key].transaction.None?;
      }
      StepThroughIff(mid, e, receipt, offset);
    }
  }

  lemma {:induction false} CarefulRunGoesThrough(trace: seq<Desk>, events: seq<Imports.Event>, n: nat,
      receipt: string, offset: string)
    requires Imports.Run(trace, events) && n < |trace|
    requires forall i :: 0 <= i < |events| ==> Careful(trace[i], events[i], receipt, offset)
    ensures Through(trace[n], receipt, offset)
  {
    if n > 0 {
      CarefulRunGoesThrough(trace, events, n - 1, receipt, offset);
      EveryDeskIsOk(trace, events, n - 1);
      StepThroughIff(trace[n - 1], events[n - 1], receipt, offset);
    }
  }

  /** End to end: after any careful run, a statement that reconciles agrees with the ledger. */
  lemma ReconciledStatementAgrees(trace: seq<Desk>, events: seq<Imports.Event>, n: nat, st: Statement, keys: seq<Key>)
    requires Imports.Run(trace, events) && n < |trace| && st.source.Some?
    requires forall i :: 0 <= i < |events| ==> Careful(trace[i], events[i], st.source.value, st.account)
    requires Joined(st, trace[n].table.rows, keys) && ReconcileStatus(st, trace[n].table.rows, keys) == Some(Reconciled)
    ensures st.ending - st.starting == LedgerNet(trace[n], keys, st.account) <==>
        Fits(st.starting + LedgerNet(trace[n], keys, st.account))
  {
    EveryDeskIsOk(trace, events, n);
    CarefulRunGoesThrough(trace, events, n, st.source.value, st.account);
    ReconciledMatchesLedger(trace[n], st, keys);
  }
}
