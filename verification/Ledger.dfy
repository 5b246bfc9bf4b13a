/** Posting: transactions, receipts and accounts, and what holds of them over whole runs. */
module Ledger {
  import opened Wrappers
  import opened Int64
  import opened Entries

  datatype Account = Account(entity: string, name: string, accountType: string)

  /** attached stands for a set attached_at. */
  datatype Receipt = Receipt(entity: string, status: string, attached: bool)

  datatype Transaction = Transaction(
    entity: string, date: int, memo: string, receipt: Option<string>, entries: seq<EntryLine>)

  /** A transaction's id is its position. */
  datatype Book = Book(accounts: map<string, Account>, receipts: map<string, Receipt>, transactions: seq<Transaction>)

  datatype PostError =
    | EntriesRejected(reason: BalanceError)
    | AccountEntityMismatch
    | ReceiptNotFound
    | ReceiptEntityMismatch
    | ReceiptAlreadyAttached
    | ConstraintViolated

  predicate OwnedBy(accounts: map<string, Account>, entity: string, line: EntryLine) {
    line.account in accounts && accounts[line.account].entity == entity
  }

  predicate AllOwnedBy(accounts: map<string, Account>, entity: string, entries: seq<EntryLine>) {
    forall i :: 0 <= i < |entries| ==> OwnedBy(accounts, entity, entries[i])
  }

  function ReceiptProblem(receipts: map<string, Receipt>, entity: string, receipt: Option<string>): Option<PostError> {
    if receipt.None? then None
    else if receipt.value !in receipts then Some(ReceiptNotFound)
    else if receipts[receipt.value].entity != entity then Some(ReceiptEntityMismatch)
    else if receipts[receipt.value].attached then Some(ReceiptAlreadyAttached)
    else None
  }

  /** The first check that fails, in the order they are made. */
  function PostProblem(b: Book, entity: string, receipt: Option<string>, entries: seq<EntryLine>): Option<PostError> {
    if BalanceProblem(entries).Some? then Some(EntriesRejected(BalanceProblem(entries).value))
    else if !AllOwnedBy(b.accounts, entity, entries) then Some(AccountEntityMismatch)
    else if ReceiptProblem(b.receipts, entity, receipt).Some? then ReceiptProblem(b.receipts, entity, receipt)
    else if !LineConstraints(entries) then Some(ConstraintViolated)
    else None
  }

  /** Every line moves a positive amount on one side, on an account of the entity. */
  ghost predicate LinesPostable(accounts: map<string, Account>, entity: string, entries: seq<EntryLine>) {
    forall i :: 0 <= i < |entries| ==>
      && entries[i].account in accounts && accounts[entries[i].account].entity == entity
      && (if entries[i].debit == 0 then entries[i].credit > 0 else entries[i].debit > 0 && entries[i].credit == 0)
  }

  /** A receipt can be posted once, for its own entity. */
  predicate ReceiptPostable(receipts: map<string, Receipt>, entity: string, receipt: Option<string>) {
    receipt.Some? ==>
      && receipt.value in receipts && receipts[receipt.value].entity == entity && !receipts[receipt.value].attached
  }

  /** Exactly when nothing stands against a posting. */
  lemma PostsExactlyWhen(b: Book, entity: string, receipt: Option<string>, entries: seq<EntryLine>)
    ensures PostProblem(b, entity, receipt, entries).None? <==>
            && Wrap(Debits(entries)) == Wrap(Credits(entries)) != 0
            && LinesPostable(b.accounts, entity, entries) && ReceiptPostable(b.receipts, entity, receipt)
  {
    assert AllOwnedBy(b.accounts, entity, entries) && LineConstraints(entries) <==>
           LinesPostable(b.accounts, entity, entries) by {
      forall i | 0 <= i < |entries| && LinesPostable(b.accounts, entity, entries)
          ensures OwnedBy(b.accounts, entity, entries[i]) && LineConstraint(entries[i]) {}
      if AllOwnedBy(b.accounts, entity, entries) && LineConstraints(entries) {
        forall i | 0 <= i < |entries|
            ensures OwnedBy(b.accounts, entity, entries[i]) && LineConstraint(entries[i]) {}
      }
    }
  }

  function Attach(receipts: map<string, Receipt>, receipt: Option<string>): map<string, Receipt> {
    if receipt.Some? && receipt.value in receipts
    then receipts[receipt.value := receipts[receipt.value].(status := "posted", attached := true)]
    else receipts
  }

  /** The book after a post: one more transaction if every check passes, and nothing changed otherwise. */
  function Post(b: Book, t: Transaction): Book {
    if PostProblem(b, t.entity, t.receipt, t.entries).Some? then b
    else b.(receipts := Attach(b.receipts, t.receipt), transactions := b.transactions + [t])
  }

  /** An account is used by a posted line. */
  predicate InUse(b: Book, account: string) {
    exists i, j :: 0 <= i < |b.transactions| && 0 <= j < |b.transactions[i].entries|
                   && b.transactions[i].entries[j].account == account
  }

  /** referenced says whether another table still references the account. */
  function DeleteAccount(b: Book, account: string, referenced: bool): Book {
    if InUse(b, account) || referenced then b else b.(accounts := b.accounts - {account})
  }

  class LedgerStore {
    var accounts: map<string, Account>
    var receipts: map<string, Receipt>
    var transactions: seq<Transaction>

    ghost function View(): Book
      reads this
    {
      Book(accounts, receipts, transactions)
    }

    constructor ()
      ensures View() == Book(map[], map[], [])
    {
      accounts, receipts, transactions := map[], map[], [];
    }

    method ValidateEntriesForEntity(entity: string, entries: seq<EntryLine>) returns (ok: bool)
      ensures ok == AllOwnedBy(accounts, entity, entries)
    {
      var seen: set<string> := {};
      for i := 0 to |entries|
        invariant forall j :: 0 <= j < i ==> OwnedBy(accounts, entity, entries[j])
        invariant forall a :: a in seen ==> a in accounts && accounts[a].entity == entity
      {
        if entries[i].account !in seen {
          seen := seen + {entries[i].account};
          if entries[i].account !in accounts {
            return false;
          }
          if accounts[entries[i].account].entity != entity {
            return false;
          }
        }
      }
      return true;
    }

    /** One database transaction: nothing of it remains unless every step succeeds. */
    method CreatePosting(t: Transaction) returns (r: Result<nat, PostError>)
      modifies this
      ensures View() == Post(old(View()), t)
      ensures match PostProblem(old(View()), t.entity, t.receipt, t.entries)
              case Some(e) => r == Err(e)
              case None => r == Ok(|old(transactions)|) && transactions[|old(transactions)|] == t
    {
      var problem := ValidateBalanced(t.entries);
      if problem.Some? {
        return Err(EntriesRejected(problem.value));
      }
      var owned := ValidateEntriesForEntity(t.entity, t.entries);
      if !owned {
        return Err(AccountEntityMismatch);
      }
      if t.receipt.Some? {
        if t.receipt.value !in receipts {
          return Err(ReceiptNotFound);
        }
        if receipts[t.receipt.value].entity != t.entity {
          return Err(ReceiptEntityMismatch);
        }
        if receipts[t.receipt.value].attached {
          return Err(ReceiptAlreadyAttached);
        }
      }
      var inserted: seq<EntryLine> := [];
      for i := 0 to |t.entries|
        invariant inserted == t.entries[..i] && LineConstraints(inserted)
      {
        if !LineConstraint(t.entries[i]) {
          return Err(ConstraintViolated);
        }
        inserted := inserted + [t.entries[i]];
      }
      assert inserted == t.entries;
      var id := |transactions|;
      transactions := transactions + [t.(entries := inserted)];
      if t.receipt.Some? {
        receipts := receipts[t.receipt.value := receipts[t.receipt.value].(status := "posted", attached := true)];
      }
      return Ok(id);
    }

    /** A blank receipt id means that there is no receipt. */
    method Create(entity: string, date: int, memo: string, receiptId: string, entries: seq<EntryLine>)
      returns (r: Result<nat, PostError>)
      modifies this
      ensures View() == Post(old(View()), NewTransaction(entity, date, memo, receiptId, entries))
      ensures r.Ok? <==> PostProblem(old(View()), entity, ReceiptArgument(receiptId), entries).None?
      ensures r.Ok? ==> r.value == |old(transactions)| < |transactions|
      ensures r.Ok? ==>
        var receipt := if receiptId == "" then None else Some(receiptId);
        transactions[|old(transactions)|] == Transaction(entity, date, memo, receipt, entries)
    {
      r := CreatePosting(NewTransaction(entity, date, memo, receiptId, entries));
    }

    /** Posting a receipt's draft always names the receipt. */
    method CreateFromDraft(entity: string, date: int, memo: string, receiptId: string, entries: seq<EntryLine>)
      returns (r: Result<nat, PostError>)
      modifies this
      ensures View() == Post(old(View()), Transaction(entity, date, memo, Some(receiptId), entries))
      ensures r.Ok? <==> PostProblem(old(View()), entity, Some(receiptId), entries).None?
    {
      r := CreatePosting(Transaction(entity, date, memo, Some(receiptId), entries));
    }

    method Delete(account: string, referenced: bool) returns (ok: bool)
      modifies this
      ensures View() == DeleteAccount(old(View()), account, referenced)
      ensures ok <==> !InUse(old(View()), account) && !referenced && account in old(accounts)
    {
      var i := 0;
      while i < |transactions|
        invariant 0 <= i <= |transactions|
        invariant View() == old(View())
        invariant forall k, j :: 0 <= k < i && 0 <= j < |transactions[k].entries| ==>
            transactions[k].entries[j].account != account
      {
        var j := 0;
        while j < |transactions[i].entries|
          invariant 0 <= j <= |transactions[i].entries|
          invariant View() == old(View())
          invariant forall k :: 0 <= k < j ==> transactions[i].entries[k].account != account
        {
          if transactions[i].entries[j].account == account {
            return false;
          }
          j := j + 1;
        }
        i := i + 1;
      }
      if referenced {
        return false;
      }
      ok := account in accounts;
      accounts := accounts - {account};
    }
  }

  function ReceiptArgument(receiptId: string): Option<string> {
    if receiptId == "" then None else Some(receiptId)
  }

  function NewTransaction(entity: string, date: int, memo: string, receiptId: string,
      entries: seq<EntryLine>): Transaction {
    Transaction(entity, date, memo, ReceiptArgument(receiptId), entries)
  }

  // ---- Whole runs ----

  datatype Event =
    | AddAccount(id: string, account: Account)
    | AddReceipt(id: string, entity: string)
    | PostEvent(transaction: Transaction)
    | DeleteEvent(id: string, referenced: bool)

  function Next(b: Book, e: Event): Book {
    match e
    case AddAccount(id, account) => if id in b.accounts then b else b.(accounts := b.accounts[id := account])
    case AddReceipt(id, entity) =>
      if id in b.receipts then b else b.(receipts := b.receipts[id := Receipt(entity, "uploaded", false)])
    case PostEvent(t) => Post(b, t)
    case DeleteEvent(account, referenced) => DeleteAccount(b, account, referenced)
  }

  function Exec(b: Book, events: seq<Event>): Book
    decreases events
  {
    if events == [] then b else Next(Exec(b, events[..|events| - 1]), events[|events| - 1])
  }

  const EMPTY_BOOK := Book(map[], map[], [])

  ghost predicate Names(b: Book, i: int, receipt: string) {
    0 <= i < |b.transactions| && b.transactions[i].receipt == Some(receipt)
  }

  /** A posted transaction: accepted lines on existing accounts of its own entity. */
  ghost predicate PostedOk(b: Book, t: Transaction) {
    && LineConstraints(t.entries) && Accepted(t.entries) && AllOwnedBy(b.accounts, t.entity, t.entries)
    && (t.receipt.Some? ==> t.receipt.value in b.receipts && b.receipts[t.receipt.value].entity == t.entity)
  }

  ghost predicate BookOk(b: Book) {
    && (forall i :: 0 <= i < |b.transactions| ==> PostedOk(b, b.transactions[i]))
    && (forall r :: r in b.receipts ==> (b.receipts[r].attached <==> exists i :: Names(b, i, r)))
    && (forall i, j, r :: Names(b, i, r) && Names(b, j, r) ==> i == j)
  }

  lemma {:induction false} PostKeepsBook(b: Book, t: Transaction)
    requires BookOk(b)
    ensures BookOk(Post(b, t))
  {
    var b' := Post(b, t);
    if b' != b {
      var last := |b.transactions|;
      forall i | 0 <= i < |b'.transactions| ensures PostedOk(b', b'.transactions[i]) {
        if i < last {
          assert PostedOk(b, b.transactions[i]);
        }
      }
      forall i, r ensures Names(b', i, r) <==> Names(b, i, r) || (i == last && t.receipt == Some(r)) {}
      forall i, r | Names(b, i, r) ensures r in b.receipts && b.receipts[r].attached {
        assert PostedOk(b, b.transactions[i]);
      }
      forall r | r in b'.receipts ensures b'.receipts[r].attached <==> exists i :: Names(b', i, r) {
        if t.receipt == Some(r) {
          assert Names(b', last, r);
        } else if b.receipts[r].attached {
          var i :| Names(b, i, r);
          assert Names(b', i, r);
        }
      }
    }
  }

  lemma {:induction false} DeleteKeepsBook(b: Book, account: string, referenced: bool)
    requires BookOk(b)
    ensures BookOk(DeleteAccount(b, account, referenced))
  {
    var b' := DeleteAccount(b, account, referenced);
    forall i | 0 <= i < |b'.transactions| ensures PostedOk(b', b'.transactions[i]) {
      assert PostedOk(b, b.transactions[i]);
    }
    assert forall i, r :: Names(b', i, r) <==> Names(b, i, r);
  }

  lemma {:induction false} NextKeepsBook(b: Book, e: Event)
    requires BookOk(b)
    ensures BookOk(Next(b, e))
  {
    match e
    case PostEvent(t) => PostKeepsBook(b, t);
    case DeleteEvent(account, referenced) => DeleteKeepsBook(b, account, referenced);
    case _ =>
      var b' := Next(b, e);
      assert forall i, r :: Names(b', i, r) <==> Names(b, i, r);
      forall i | 0 <= i < |b'.transactions| ensures PostedOk(b', b'.transactions[i]) {
        assert PostedOk(b, b.transactions[i]);
      }
  }

  /** In every reachable book each transaction's lines were accepted, their accounts exist and belong to its
      entity, and a receipt is attached exactly when one transaction, and only one, names it. */
  lemma {:induction false} EveryBookIsOk(events: seq<Event>)
    ensures BookOk(Exec(EMPTY_BOOK, events))
  {
    if events != [] {
      EveryBookIsOk(events[..|events| - 1]);
      NextKeepsBook(Exec(EMPTY_BOOK, events[..|events| - 1]), events[|events| - 1]);
    }
  }

  /** So a posted transaction's exact totals are equal and positive whenever both fit into int64. */
  lemma EveryPostingBalances(events: seq<Event>, i: nat)
    requires i < |Exec(EMPTY_BOOK, events).transactions|
    ensures var lines := Exec(EMPTY_BOOK, events).transactions[i].entries;
      Fits(Debits(lines)) && Fits(Credits(lines)) ==> Debits(lines) == Credits(lines) > 0
  {
    EveryBookIsOk(events);
    var b := Exec(EMPTY_BOOK, events);
    assert PostedOk(b, b.transactions[i]);
    SumsNonNegative(b.transactions[i].entries);
    AcceptedBalances(b.transactions[i].entries);
  }

  /** Posted transactions are never lost or altered. */
  lemma {:induction false} HistoryOnlyGrows(b: Book, events: seq<Event>)
    ensures b.transactions <= Exec(b, events).transactions
    decreases events
  {
    if events != [] {
      HistoryOnlyGrows(b, events[..|events| - 1]);
    }
  }
}
