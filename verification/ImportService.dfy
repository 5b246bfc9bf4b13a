/** The import endpoints over their tables. */
module ImportService {
  import opened Wrappers
  import opened Entries
  import opened Ledger
  import opened Imports
  import opened Statements

  function RowsOf(rows: map<Key, ImportRow>, receipt: string): set<Key> {
    set k | k in rows && k.receipt == receipt
  }

  predicate InIndexOrder(keys: seq<Key>) {
    forall i, j :: 0 <= i < j < |keys| ==> keys[i].index < keys[j].index
  }

  /** The ledger grew by postings of these rows through this account; and a receipt whose rows were posted
      through it still is, unless one of them is mapped to the account itself. */
  ghost predicate PostedListed(d: Desk, d': Desk, keys: seq<Key>, offset: string) {
    && d.book.transactions <= d'.book.transactions && SameMoves(d.table.rows, d'.table.rows)
    && OnlyPostingsOf(d.table.rows, d', |d.book.transactions|, keys, offset)
    && forall receipt :: Through(d, receipt, offset) && NoneAgainst(d.table.rows, keys, offset) ==>
         Through(d', receipt, offset)
  }

  lemma ManyPostedListed(d: Desk, keys: seq<Key>, offset: string)
    requires DeskOk(d) && forall k :: k in keys ==> k in d.table.rows
    ensures PostedListed(d, PostMany(d, keys, offset), keys, offset)
  {
    ManyPostings(d, keys, offset);
    forall receipt | Through(d, receipt, offset) && NoneAgainst(d.table.rows, keys, offset)
        ensures Through(PostMany(d, keys, offset), receipt, offset) {
      ManyThrough(d, keys, receipt, offset);
    }
  }

  lemma OnePostedListed(d: Desk, key: Key, offset: string)
    requires DeskOk(d) && key in d.table.rows && PostOne(d, key, Some(offset)) != d
    ensures PostedListed(d, PostOne(d, key, Some(offset)), [key], offset)
  {
    assert [key][..0] == [];
    assert PostMany(d, [], offset) == d;
    ManyPostedListed(d, [key], offset);
  }

  class ImportDesk {
    const ledger: LedgerStore
    var rows: map<Key, ImportRow>
    var nextId: nat

    ghost function View(): Desk
      reads this, ledger
    {
      Desk(ledger.View(), Table(rows, nextId))
    }

    constructor (ledger: LedgerStore)
      ensures this.ledger == ledger && rows == map[] && nextId == 0
    {
      this.ledger := ledger;
      rows, nextId := map[], 0;
    }

    method ReplaceForReceipt(receipt: string, entity: string, proposals: seq<Proposal>)
      modifies this
      ensures View() == old(View()).(table := Replace(old(View().table), receipt, entity, proposals))
    {
      rows := WithoutUnposted(rows, receipt);
      ghost var pruned := Table(rows, nextId);
      for i := 0 to |proposals|
        invariant Table(rows, nextId) == UpsertAll(pruned, receipt, entity, proposals[..i])
      {
        var p, key := proposals[i], Key(receipt, proposals[i].index);
        assert proposals[..i + 1][..i] == proposals[..i];
        if key in rows {
          rows := rows[key := Overwritten(rows[key], p)];
        } else {
          rows := rows[key := Inserted(nextId, entity, p)];
          nextId := nextId + 1;
        }
      }
      assert proposals[..|proposals|] == proposals;
    }

    method MapRow(key: Key, account: string) returns (found: bool)
      modifies this
      ensures View() == old(View()).(table := UpdateAccount(old(View().table), key, account))
      ensures found <==> key in old(rows)
    {
      found := key in rows;
      if found {
        var row := rows[key];
        rows := rows[key := row.(account := Some(account), status := if row.status == Posted then Posted else Mapped)];
      }
    }

    /** Marks the row with this id unless it is tied to a transaction already. */
    method MarkPosted(id: nat, transaction: nat) returns (ok: bool)
      modifies this`rows
      ensures ok <==> exists k :: k in old(rows) && old(rows)[k].id == id && old(rows)[k].transaction.None?
      ensures rows == map k | k in old(rows) ::
        if old(rows)[k].id == id && old(rows)[k].transaction.None? then MarkedPosted(old(rows)[k], transaction)
        else old(rows)[k]
    {
      var hits := set k | k in rows && rows[k].id == id && rows[k].transaction.None?;
      ok := hits != {};
      if ok {
        ghost var k :| k in hits;
      } else {
        assert forall k :: k in rows && rows[k].id == id && rows[k].transaction.None? ==> k in hits;
      }
      rows := map k | k in rows :: if k in hits then MarkedPosted(rows[k], transaction) else rows[k];
    }

    /** postImportRow for a row that was just read: since ids are unique, marking always finds it. */
    method PostImportRow(key: Key, offset: string) returns (ok: bool)
      requires DeskOk(View()) && key in rows && rows[key].transaction.None?
      modifies this`rows, ledger
      ensures View() == PostRow(old(View()), key, offset)
      ensures ok <==> CanPost(old(View()), old(rows)[key], offset)
    {
      var row := rows[key];
      var entries := RowEntries(row, offset);
      if |entries| == 0 {
        return false;
      }
      ghost var before := View();
      var created := ledger.Create(row.entity, row.date, RowMemo(row), "", entries);
      if created.Err? {
        return false;
      }
      assert forall k :: k in rows && rows[k].id == row.id ==> k == key;
      ok := MarkPosted(row.id, created.value);
      assert rows == before.table.rows[key := MarkedPosted(row, created.value)];
    }

    method HandleImportRowPost(key: Key, statement: Option<Statement>, cash: Option<string>) returns (ok: bool)
      requires DeskOk(View())
      modifies this`rows, ledger
      ensures key !in old(rows) ==> !ok && View() == old(View())
      ensures key in old(rows) ==>
        View() == PostOne(old(View()), key, OffsetAccount(statement, old(rows)[key].entity, cash))
      ensures key in old(rows) ==>
        var row, offset := old(rows)[key], OffsetAccount(statement, old(rows)[key].entity, cash);
        ok <==> !AlreadyPosted(row) && !MissingAccount(row) && offset.Some? && CanPost(old(View()), row, offset.value)
      ensures ok <==>
          && key in old(rows) && old(rows)[key].transaction.None? && !MissingAccount(old(rows)[key])
          && exists offset :: Decides(statement, old(rows)[key].entity, cash, offset)
                              && CanPost(old(View()), old(rows)[key], offset)
      ensures ok ==> forall offset :: Decides(statement, old(rows)[key].entity, cash, offset) ==>
        PostedListed(old(View()), View(), [key], offset) && |ledger.transactions| == |old(ledger.transactions)| + 1
    {
      if key !in rows {
        return false;
      }
      var row := rows[key];
      if row.transaction.Some? || row.status == Posted {
        return false;
      }
      if row.account.None? || row.account.value == "" {
        return false;
      }
      var offset := OffsetAccount(statement, row.entity, cash);
      if offset.None? {
        return false;
      }
      ghost var d := View();
      ok := PostImportRow(key, offset.value);
      assert Decides(statement, row.entity, cash, offset.value);
      if ok {
        OnePostedListed(d, key, offset.value);
      }
    }

    /** The bulk loop's body. */
    method PostListed(key: Key, offset: string) returns (tally: Tally)
      requires DeskOk(View()) && key in rows
      modifies this`rows, ledger
      ensures View() == PostOne(old(View()), key, Some(offset)) && DeskOk(View())
      ensures tally == Outcome(old(View()), old(rows)[key], offset)
      ensures |ledger.transactions| == |old(ledger.transactions)| + tally.posted
    {
      var row := rows[key];
      NextKeeps(View(), Imports.PostEvent(key, Some(offset)));
      if row.transaction.Some? || row.status == Posted {
        return Tally(0, 1, 0);
      }
      if row.account.None? || row.account.value == "" {
        return Tally(0, 1, 0);
      }
      var ok := PostImportRow(key, offset);
      if !ok {
        return Tally(0, 0, 1);
      }
      return Tally(1, 0, 0);
    }

    /** The receipt's row with the smallest index. */
    method FirstRow(ids: set<Key>) returns (first: Key)
      requires ids != {}
      ensures first in ids && forall k :: k in ids ==> first.index <= k.index
    {
      first :| first in ids;
      var rest := ids - {first};
      while rest != {}
        invariant first in ids && rest <= ids
        invariant forall k :: k in ids && k !in rest ==> first.index <= k.index
      {
        var k :| k in rest;
        if k.index < first.index {
          first := k;
        }
        rest := rest - {k};
      }
    }

    /** The rows of a receipt by index, each once. */
    method ListByReceipt(receipt: string) returns (keys: seq<Key>)
      ensures InIndexOrder(keys) && |keys| == |RowsOf(rows, receipt)|
      ensures forall k :: k in keys <==> k in RowsOf(rows, receipt)
    {
      keys := [];
      var rest := RowsOf(rows, receipt);
      while rest != {}
        invariant InIndexOrder(keys) && |keys| + |rest| == |RowsOf(rows, receipt)|
        invariant forall k :: k in keys || k in rest <==> k in RowsOf(rows, receipt)
        invariant forall k, later :: k in keys && later in rest ==> k.index < later.index
      {
        var first := FirstRow(rest);
        forall k | k in rest && k != first ensures first.index < k.index {
          assert k in RowsOf(rows, receipt) && first in RowsOf(rows, receipt);
        }
        keys, rest := keys + [first], rest - {first};
      }
    }

    /** The bulk loop: every listed row is counted exactly once, and every row counted as posted added one
        transaction. */
    method PostAll(keys: seq<Key>, offset: string) returns (tally: Tally)
      requires DeskOk(View()) && forall k :: k in keys ==> k in rows
      modifies this`rows, ledger
      ensures View() == PostMany(old(View()), keys, offset) && DeskOk(View())
      ensures tally.posted + tally.skipped + tally.failed == |keys|
      ensures |ledger.transactions| == |old(ledger.transactions)| + tally.posted
    {
      tally := Tally(0, 0, 0);
      for i := 0 to |keys|
        invariant forall k :: k in keys[..i] ==> k in keys
        invariant rows.Keys == old(rows).Keys
        invariant DeskOk(View()) && View() == PostMany(old(View()), keys[..i], offset)
        invariant tally.posted + tally.skipped + tally.failed == i
        invariant |ledger.transactions| == |old(ledger.transactions)| + tally.posted
      {
        PostManyStep(old(View()), keys, offset, i);
        var one := PostListed(keys[i], offset);
        tally := Tally(tally.posted + one.posted, tally.skipped + one.skipped, tally.failed + one.failed);
      }
      assert keys[..|keys|] == keys;
    }

    /** Posting all of a receipt's rows: refused for an unknown receipt, one that is no import, or without an
        offset account. Otherwise the receipt's rows are gone through by index through one offset account, and
        the three counts add up to the number of its rows. */
    method HandleImportRowsPostMapped(receipt: string, isImport: bool, statement: Option<Statement>,
        cash: Option<string>)
        returns (tally: Option<Tally>, ghost keys: seq<Key>)
      requires DeskOk(View())
      modifies this`rows, ledger
      ensures InIndexOrder(keys) && forall k :: k in keys <==> k in RowsOf(old(rows), receipt)
      ensures tally.Some? <==> receipt in old(ledger.receipts) && isImport
                               && OffsetAccount(statement, old(ledger.receipts)[receipt].entity, cash).Some?
      ensures tally.None? ==> View() == old(View())
      ensures tally.Some? ==>
        && View() == PostMany(old(View()), keys,
             OffsetAccount(statement, old(ledger.receipts)[receipt].entity, cash).value)
        && DeskOk(View())
        && tally.value.posted + tally.value.skipped + tally.value.failed == |RowsOf(old(rows), receipt)|
        && |ledger.transactions| == |old(ledger.transactions)| + tally.value.posted
      ensures tally.Some? <==>
          && receipt in old(ledger.receipts) && isImport
          && exists offset :: Decides(statement, old(ledger.receipts)[receipt].entity, cash, offset)
      ensures tally.Some? ==> forall offset ::
        Decides(statement, old(ledger.receipts)[receipt].entity, cash, offset) ==>
          PostedListed(old(View()), View(), keys, offset)
    {
      var listed := ListByReceipt(receipt);
      keys := listed;
      if receipt !in ledger.receipts || !isImport {
        return None, keys;
      }
      var offset := OffsetAccount(statement, ledger.receipts[receipt].entity, cash);
      if offset.None? {
        return None, keys;
      }
      assert Decides(statement, ledger.receipts[receipt].entity, cash, offset.value);
      ManyPostedListed(View(), listed, offset.value);
      var counted := PostAll(listed, offset.value);
      tally := Some(counted);
    }
  }
}
