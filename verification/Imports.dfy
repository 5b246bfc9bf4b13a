/** Imported statement rows and their posting to the ledger. */
module Imports {
  import opened Wrappers
  import opened Int64
  import opened Entries
  import opened Ledger

  datatype RowStatus = NeedsReview | Mapped | Posted

  /** A row of import_rows. The key (receipt, row_index) is unique; id is its own identity. */
  datatype ImportRow = ImportRow(
    id: nat, entity: string, date: int, vendor: string, memo: string, amount: int64, direction: string,
    account: Option<string>, fingerprint: string, status: RowStatus, transaction: Option<nat>)

  datatype Key = Key(receipt: string, index: int)

  /** A parsed row offered for storage. */
  datatype Proposal = Proposal(
    index: int, date: int, vendor: string, memo: string, amount: int64, direction: string,
    account: Option<string>, fingerprint: string, status: RowStatus)

  datatype Table = Table(rows: map<Key, ImportRow>, nextId: nat)

  // ---- Table operations ----

  /** The rows that reprocessing keeps: those of other receipts, and those already tied to a transaction. */
  function WithoutUnposted(rows: map<Key, ImportRow>, receipt: string): map<Key, ImportRow> {
    map k | k in rows && !(k.receipt == receipt && rows[k].transaction.None?) :: rows[k]
  }

  function Overwritten(row: ImportRow, p: Proposal): ImportRow {
    row.(date := p.date, vendor := p.vendor, memo := p.memo, amount := p.amount, direction := p.direction,
         account := if row.account.Some? then row.account else p.account,
         fingerprint := p.fingerprint,
         status := if row.transaction.Some? then row.status else p.status)
  }

  function Inserted(id: nat, entity: string, p: Proposal): ImportRow {
    ImportRow(id, entity, p.date, p.vendor, p.memo, p.amount, p.direction, p.account, p.fingerprint, p.status, None)
  }

  function Upsert(t: Table, receipt: string, entity: string, p: Proposal): Table {
    var key := Key(receipt, p.index);
    if key in t.rows then t.(rows := t.rows[key := Overwritten(t.rows[key], p)])
    else Table(t.rows[key := Inserted(t.nextId, entity, p)], t.nextId + 1)
  }

  function UpsertAll(t: Table, receipt: string, entity: string, ps: seq<Proposal>): Table {
    if ps == [] then t
    else Upsert(UpsertAll(t, receipt, entity, ps[..|ps| - 1]), receipt, entity, ps[|ps| - 1])
  }

  function Replace(t: Table, receipt: string, entity: string, ps: seq<Proposal>): Table {
    UpsertAll(t.(rows := WithoutUnposted(t.rows, receipt)), receipt, entity, ps)
  }

  function UpdateAccount(t: Table, key: Key, account: string): Table {
    if key !in t.rows then t
    else
      var row := t.rows[key];
      var status := if row.status == Posted then Posted else Mapped;
      t.(rows := t.rows[key := row.(account := Some(account), status := status)])
  }

  function MarkedPosted(row: ImportRow, transaction: nat): ImportRow {
    row.(status := Posted, transaction := Some(transaction))
  }

  // ---- Posting ----

  /** The two legs of a row's transaction. */
  function Legs(amount: int64, direction: string, account: string, offset: string): seq<EntryLine> {
    if direction == "inflow" then [EntryLine(offset, amount, 0), EntryLine(account, 0, amount)]
    else [EntryLine(account, amount, 0), EntryLine(offset, 0, amount)]
  }

  function RowEntries(row: ImportRow, offset: string): seq<EntryLine> {
    if row.amount <= 0 || row.account.None? || row.account.value == "" || offset == "" then []
    else Legs(row.amount, row.direction, row.account.value, offset)
  }

  function RowMemo(row: ImportRow): string {
    if row.memo != "" && row.memo != row.vendor then row.vendor + " - " + row.memo else row.vendor
  }

  function RowTransaction(row: ImportRow, offset: string): Transaction {
    NewTransaction(row.entity, row.date, RowMemo(row), "", RowEntries(row, offset))
  }

  predicate AlreadyPosted(row: ImportRow) {
    row.transaction.Some? || row.status == Posted
  }

  predicate MissingAccount(row: ImportRow) {
    row.account.None? || row.account.value == ""
  }

  /** The ledger and the imported rows. */
  datatype Desk = Desk(book: Book, table: Table)

  predicate CanPost(d: Desk, row: ImportRow, offset: string) {
    && RowEntries(row, offset) != []
    && PostProblem(d.book, row.entity, None, RowEntries(row, offset)).None?
  }

  /** postImportRow: create the transaction, then mark the row. */
  function PostRow(d: Desk, key: Key, offset: string): Desk
    requires key in d.table.rows
  {
    var row := d.table.rows[key];
    if !CanPost(d, row, offset) then d
    else
      Desk(Post(d.book, RowTransaction(row, offset)),
           d.table.(rows := d.table.rows[key := MarkedPosted(row, |d.book.transactions|)]))
  }

  /** The single-row endpoint: refuses posted rows and rows without an account. */
  function PostOne(d: Desk, key: Key, offset: Option<string>): Desk {
    if key !in d.table.rows || AlreadyPosted(d.table.rows[key]) || MissingAccount(d.table.rows[key])
       || offset.None?
    then d
    else PostRow(d, key, offset.value)
  }

  datatype Tally = Tally(posted: nat, skipped: nat, failed: nat)

  /** What the bulk endpoint counts a row as. */
  function Outcome(d: Desk, row: ImportRow, offset: string): Tally {
    if AlreadyPosted(row) || MissingAccount(row) then Tally(0, 1, 0)
    else if CanPost(d, row, offset) then Tally(1, 0, 0)
    else Tally(0, 0, 1)
  }

  /** The bulk endpoint over the listed rows of one receipt. */
  function PostMany(d: Desk, keys: seq<Key>, offset: string): Desk
    requires forall k :: k in keys ==> k in d.table.rows
    ensures PostMany(d, keys, offset).table.rows.Keys == d.table.rows.Keys
  {
    if keys == [] then d
    else
      assert forall k :: k in keys[..|keys| - 1] ==> k in keys;
      PostOne(PostMany(d, keys[..|keys| - 1], offset), keys[|keys| - 1], Some(offset))
  }

  lemma PostManyStep(d: Desk, keys: seq<Key>, offset: string, i: nat)
    requires i < |keys| && forall k :: k in keys ==> k in d.table.rows
    ensures keys[i] in keys
    ensures (forall k :: k in keys[..i + 1] ==> k in keys) && forall k :: k in keys[..i] ==> k in keys
    ensures PostMany(d, keys[..i + 1], offset) == PostOne(PostMany(d, keys[..i], offset), keys[i], Some(offset))
  {
    assert keys[..i + 1][..i] == keys[..i];
  }

  // ---- What posting keeps ----

  ghost predicate Holds(d: Desk, key: Key, transaction: nat) {
    key in d.table.rows && d.table.rows[key].transaction == Some(transaction)
  }

  /** A row is posted exactly when a transaction is set; the transaction exists and is no other row's; ids
      are unique. */
  ghost predicate DeskOk(d: Desk) {
    && (forall k :: k in d.table.rows ==>
          && (d.table.rows[k].status == Posted <==> d.table.rows[k].transaction.Some?)
          && d.table.rows[k].id < d.table.nextId)
    && (forall k, t: nat :: Holds(d, k, t) ==> t < |d.book.transactions|)
    && (forall a, b, t :: Holds(d, a, t) && Holds(d, b, t) ==> a == b)
    && (forall a, b :: a in d.table.rows && b in d.table.rows && d.table.rows[a].id == d.table.rows[b].id ==> a == b)
  }

  /** A posted row keeps its place, id, transaction and status. */
  ghost predicate Kept(a: Desk, b: Desk) {
    forall k, t :: Holds(a, k, t) ==>
      Holds(b, k, t) && b.table.rows[k].id == a.table.rows[k].id && b.table.rows[k].status == a.table.rows[k].status
  }

  datatype Event =
    | ReplaceEvent(receipt: string, entity: string, proposals: seq<Proposal>)
    | UpdateEvent(key: Key, account: string)
    | PostEvent(key: Key, offset: Option<string>)
    | LedgerEvent(event: Ledger.Event)

  function Next(d: Desk, e: Event): Desk {
    match e
    case ReplaceEvent(receipt, entity, ps) => d.(table := Replace(d.table, receipt, entity, ps))
    case UpdateEvent(key, account) => d.(table := UpdateAccount(d.table, key, account))
    case PostEvent(key, offset) => PostOne(d, key, offset)
    case LedgerEvent(event) => d.(book := Ledger.Next(d.book, event))
  }

  /** The importer only ever proposes unposted rows. */
  predicate Plain(e: Event) {
    e.ReplaceEvent? ==> forall i :: 0 <= i < |e.proposals| ==> e.proposals[i].status != Posted
  }

  lemma {:induction false} UpsertKeeps(d: Desk, receipt: string, entity: string, p: Proposal)
    requires DeskOk(d) && p.status != Posted
    ensures DeskOk(d.(table := Upsert(d.table, receipt, entity, p)))
    ensures Kept(d, d.(table := Upsert(d.table, receipt, entity, p)))
  {
    var d' := d.(table := Upsert(d.table, receipt, entity, p));
    assert forall k, t :: Holds(d', k, t) <==> Holds(d, k, t);
  }

  lemma {:induction false} UpsertAllKeeps(d: Desk, receipt: string, entity: string, ps: seq<Proposal>)
    requires DeskOk(d) && forall i :: 0 <= i < |ps| ==> ps[i].status != Posted
    ensures DeskOk(d.(table := UpsertAll(d.table, receipt, entity, ps)))
    ensures Kept(d, d.(table := UpsertAll(d.table, receipt, entity, ps)))
  {
    if ps != [] {
      var before := UpsertAll(d.table, receipt, entity, ps[..|ps| - 1]);
      UpsertAllKeeps(d, receipt, entity, ps[..|ps| - 1]);
      UpsertKeeps(d.(table := before), receipt, entity, ps[|ps| - 1]);
      assert d.(table := before).(table := UpsertAll(d.table, receipt, entity, ps))
          == d.(table := UpsertAll(d.table, receipt, entity, ps));
    }
  }

  lemma {:induction false} ReplaceKeeps(d: Desk, receipt: string, entity: string, ps: seq<Proposal>)
    requires DeskOk(d) && forall i :: 0 <= i < |ps| ==> ps[i].status != Posted
    ensures DeskOk(d.(table := Replace(d.table, receipt, entity, ps)))
    ensures Kept(d, d.(table := Replace(d.table, receipt, entity, ps)))
  {
    var pruned := d.(table := d.table.(rows := WithoutUnposted(d.table.rows, receipt)));
    assert forall k, t :: Holds(pruned, k, t) <==> Holds(d, k, t);
    UpsertAllKeeps(pruned, receipt, entity, ps);
  }

  lemma PostRowKeeps(d: Desk, key: Key, offset: string)
    requires DeskOk(d) && key in d.table.rows && d.table.rows[key].transaction.None?
    ensures DeskOk(PostRow(d, key, offset)) && Kept(d, PostRow(d, key, offset))
  {
    var d' := PostRow(d, key, offset);
    if d' != d {
      var t := |d.book.transactions|;
      assert forall k, u :: Holds(d', k, u) <==> Holds(d, k, u) || (k == key && u == t);
    }
  }

  /** Every step keeps the desk in order, and every posted row. */
  lemma {:induction false} NextKeeps(d: Desk, e: Event)
    requires DeskOk(d) && Plain(e)
    ensures DeskOk(Next(d, e)) && Kept(d, Next(d, e))
  {
    match e
    case ReplaceEvent(receipt, entity, ps) => ReplaceKeeps(d, receipt, entity, ps);
    case PostEvent(key, offset) =>
      if Next(d, e) != d {
        PostRowKeeps(d, key, offset.value);
      }
    case _ =>
      var d' := Next(d, e);
      assert forall k, t :: Holds(d', k, t) <==> Holds(d, k, t);
      assert |d.book.transactions| <= |d'.book.transactions|;
  }

  ghost predicate Run(trace: seq<Desk>, events: seq<Event>) {
    && |trace| == |events| + 1
    && trace[0] == Desk(EMPTY_BOOK, Table(map[], 0))
    && forall i :: 0 <= i < |events| ==> Plain(events[i]) && trace[i + 1] == Next(trace[i], events[i])
  }

  /** In every run a row is posted exactly when a transaction is set, and no two rows share one. */
  lemma {:induction false} EveryDeskIsOk(trace: seq<Desk>, events: seq<Event>, n: nat)
    requires Run(trace, events) && n < |trace|
    ensures DeskOk(trace[n])
  {
    if n > 0 {
      EveryDeskIsOk(trace, events, n - 1);
      NextKeeps(trace[n - 1], events[n - 1]);
    }
  }

  /** A set transaction id never changes, and a posted row survives every later reprocessing. */
  lemma {:induction false} PostedForGood(trace: seq<Desk>, events: seq<Event>, m: nat, n: nat)
    requires Run(trace, events) && m <= n < |trace|
    ensures Kept(trace[m], trace[n])
    decreases n
  {
    if m < n {
      PostedForGood(trace, events, m, n - 1);
      EveryDeskIsOk(trace, events, n - 1);
      NextKeeps(trace[n - 1], events[n - 1]);
    }
  }

  // ---- Accounts of posted rows ----

  /** A row tied to a transaction has an account. */
  predicate TiedHaveAccounts(rows: map<Key, ImportRow>) {
    forall k :: k in rows && rows[k].transaction.Some? ==> rows[k].account.Some?
  }

  /** What an upsert leaves of a row tied to a transaction, and that it ties none. */
  ghost predicate KeepsAccounts(a: map<Key, ImportRow>, b: map<Key, ImportRow>) {
    && (forall k :: k in a && a[k].transaction.Some? && a[k].account.Some? ==> k in b && b[k].account == a[k].account)
    && (forall k :: k in b && b[k].transaction.Some? ==> k in a && a[k].transaction.Some?)
  }

  lemma {:induction false} UpsertAllKeepsAccounts(t: Table, receipt: string, entity: string, ps: seq<Proposal>)
    ensures KeepsAccounts(t.rows, UpsertAll(t, receipt, entity, ps).rows)
    ensures forall k :: k in t.rows ==>
      k in UpsertAll(t, receipt, entity, ps).rows
      && UpsertAll(t, receipt, entity, ps).rows[k].transaction == t.rows[k].transaction
  {
    if ps != [] {
      UpsertAllKeepsAccounts(t, receipt, entity, ps[..|ps| - 1]);
    }
  }

  lemma ReplaceKeepsAccounts(t: Table, receipt: string, entity: string, ps: seq<Proposal>)
    ensures KeepsAccounts(t.rows, Replace(t, receipt, entity, ps).rows)
  {
    UpsertAllKeepsAccounts(t.(rows := WithoutUnposted(t.rows, receipt)), receipt, entity, ps);
  }

  /** In every run a row tied to a transaction has an account: posting asks for one, and nothing takes it
      away. */
  lemma {:induction false} TiedRowsHaveAccounts(trace: seq<Desk>, events: seq<Event>, n: nat)
    requires Run(trace, events) && n < |trace|
    ensures TiedHaveAccounts(trace[n].table.rows)
  {
    if n > 0 {
      TiedRowsHaveAccounts(trace, events, n - 1);
      var d, e := trace[n - 1], events[n - 1];
      if e.ReplaceEvent? {
        ReplaceKeepsAccounts(d.table, e.receipt, e.entity, e.proposals);
      }
    }
  }

  /** Every step but a user's own choice keeps the account of a posted row. */
  lemma StepKeepsAccount(d: Desk, e: Event, k: Key)
    requires k in d.table.rows && d.table.rows[k].transaction.Some? && d.table.rows[k].account.Some?
    requires !(e.UpdateEvent? && e.key == k)
    ensures k in Next(d, e).table.rows && Next(d, e).table.rows[k].account == d.table.rows[k].account
  {
    if e.ReplaceEvent? {
      ReplaceKeepsAccounts(d.table, e.receipt, e.entity, e.proposals);
    }
  }

  /** In every run a posted row keeps its account through any reprocessing and posting: only mapping that row
      again changes it. */
  lemma {:induction false} PostedKeepsAccount(trace: seq<Desk>, events: seq<Event>, m: nat, n: nat, k: Key)
    requires Run(trace, events) && m <= n < |trace|
    requires k in trace[m].table.rows && trace[m].table.rows[k].transaction.Some?
    requires forall i :: m <= i < n ==> !(events[i].UpdateEvent? && events[i].key == k)
    ensures k in trace[n].table.rows && trace[n].table.rows[k].transaction == trace[m].table.rows[k].transaction
    ensures trace[n].table.rows[k].account == trace[m].table.rows[k].account
    decreases n
  {
    assert Holds(trace[m], k, trace[m].table.rows[k].transaction.value);
    PostedForGood(trace, events, m, n);
    if m < n {
      PostedKeepsAccount(trace, events, m, n - 1, k);
      TiedRowsHaveAccounts(trace, events, n - 1);
      StepKeepsAccount(trace[n - 1], events[n - 1], k);
    }
  }

  // ---- One transaction per row ----

  /** This step posts a row. */
  ghost predicate Posts(trace: seq<Desk>, events: seq<Event>, i: nat, key: Key)
    requires i < |events| && i + 1 < |trace|
  {
    events[i].PostEvent? && events[i].key == key && trace[i + 1] != trace[i]
  }

  /** A posting ties an unposted row to the one transaction that it adds. */
  lemma PostingIs(d: Desk, key: Key, offset: Option<string>)
    requires PostOne(d, key, offset) != d
    ensures var d', last := PostOne(d, key, offset), |d.book.transactions|;
      && key in d.table.rows && d.table.rows[key].transaction.None?
      && d'.table.rows == d.table.rows[key := MarkedPosted(d.table.rows[key], last)]
      && d'.book.transactions == d.book.transactions + [RowTransaction(d.table.rows[key], offset.value)]
  {
  }

  /** A posted row is never posted again. */
  lemma PostedOnce(trace: seq<Desk>, events: seq<Event>, m: nat, n: nat, key: Key)
    requires Run(trace, events) && m < n < |events| && Posts(trace, events, m, key)
    ensures events[n].PostEvent? && events[n].key == key ==> trace[n + 1] == trace[n]
  {
    PostingIs(trace[m], key, events[m].offset);
    assert Holds(trace[m + 1], key, |trace[m].book.transactions|);
    PostedForGood(trace, events, m + 1, n);
  }

  /** The rows tied to a transaction. */
  function TiedRows(rows: map<Key, ImportRow>): set<Key> {
    set k | k in rows && rows[k].transaction.Some?
  }

  /** How many of the first n steps posted a row. */
  ghost function Postings(trace: seq<Desk>, events: seq<Event>, n: nat): nat
    requires n <= |events| && n < |trace|
  {
    if n == 0 then 0
    else Postings(trace, events, n - 1) + if events[n - 1].PostEvent? && trace[n] != trace[n - 1] then 1 else 0
  }

  /** How many transactions the first n steps added in other ways. */
  function OtherTransactions(trace: seq<Desk>, events: seq<Event>, n: nat): int
    requires n <= |events| && n < |trace|
  {
    if n == 0 then 0
    else
      OtherTransactions(trace, events, n - 1)
      + if events[n - 1].LedgerEvent? then |trace[n].book.transactions| - |trace[n - 1].book.transactions| else 0
  }

  lemma ReplaceTiesNothing(t: Table, receipt: string, entity: string, ps: seq<Proposal>)
    ensures TiedRows(Replace(t, receipt, entity, ps).rows) == TiedRows(t.rows)
  {
    ReplaceKeepsAccounts(t, receipt, entity, ps);
    UpsertAllKeepsAccounts(t.(rows := WithoutUnposted(t.rows, receipt)), receipt, entity, ps);
  }

  lemma PostingTiesOne(d: Desk, key: Key, offset: Option<string>)
    requires PostOne(d, key, offset) != d
    ensures |TiedRows(PostOne(d, key, offset).table.rows)| == |TiedRows(d.table.rows)| + 1
    ensures |PostOne(d, key, offset).book.transactions| == |d.book.transactions| + 1
  {
    PostingIs(d, key, offset);
    assert TiedRows(PostOne(d, key, offset).table.rows) == TiedRows(d.table.rows) + {key};
  }

  /** A successful posting ties one row to one new transaction, and no other step ties or unties a row. */
  lemma {:induction false} StepTies(d: Desk, e: Event)
    ensures var posted, d' := if e.PostEvent? && Next(d, e) != d then 1 else 0, Next(d, e);
      && |TiedRows(d'.table.rows)| == |TiedRows(d.table.rows)| + posted
      && (!e.LedgerEvent? ==> |d'.book.transactions| == |d.book.transactions| + posted)
  {
    match e
    case ReplaceEvent(receipt, entity, ps) => ReplaceTiesNothing(d.table, receipt, entity, ps);
    case PostEvent(key, offset) =>
      if Next(d, e) != d {
        PostingTiesOne(d, key, offset);
      }
    case _ => assert TiedRows(Next(d, e).table.rows) == TiedRows(d.table.rows);
  }

  /** In every run as many postings succeeded as rows are tied to a transaction, and each added exactly one:
      what the ledger holds beyond them was posted otherwise. */
  lemma {:induction false} EachRowPostedOnce(trace: seq<Desk>, events: seq<Event>, n: nat)
    requires Run(trace, events) && n < |trace|
    ensures Postings(trace, events, n) == |TiedRows(trace[n].table.rows)|
    ensures |trace[n].book.transactions| == Postings(trace, events, n) + OtherTransactions(trace, events, n)
  {
    if n > 0 {
      EachRowPostedOnce(trace, events, n - 1);
      StepTies(trace[n - 1], events[n - 1]);
    }
  }
}
