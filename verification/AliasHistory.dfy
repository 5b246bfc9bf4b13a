/** The vendor tables agree with the history of the writes that were accepted. */
module AliasHistory {
  import opened AliasLedger
  import opened Sums
  import opened Text
  import opened VendorMatch
  import opened Wrappers

  /** A write that the database accepted. */
  datatype Write =
    | Proposed(vendor: string, account: string)
    | AccountLearned(vendor: string, account: string)
    | AliasWritten(vendor: string, key: Key, confirmed: bool, found: bool)

  function AliasWrites(refs: Refs, t: Tables, vendor: string, entity: string, raw: string,
      confirmed: bool): seq<Write> {
    var key := (entity, Normalized(raw));
    if Accepts(refs, t, vendor, key, confirmed) then [AliasWritten(vendor, key, confirmed, vendor in t.vendors)] else []
  }

  function WritesOf(refs: Refs, t: Tables, e: Event): seq<Write> {
    match e
    case Memoized(entity, proposal, account, freshId) =>
      if proposal.None? || Blank(proposal.value.name) then []
      else
        var id := Created(refs, t, VendorOf(entity, proposal.value, account), freshId).1;
        if id.Some? then [Proposed(id.value, account)] else []
    case Resolved(entity, vendor, raw) =>
      if Blank(vendor) then [] else AliasWrites(refs, t, vendor, entity, raw, false)
    case Learned(entity, vendor, raw, account) =>
      if !Learns(refs, t, vendor, account) then []
      else if Blank(raw) then [AccountLearned(vendor, account)]
      else
        var t' := WithAccount(t, vendor, account);
        [AccountLearned(vendor, account)] + AliasWrites(refs, t', vendor, entity, raw, true)
  }

  /** The history of a run. */
  function History(refs: Refs, events: seq<Event>): seq<Write> {
    if events == [] then []
    else
      var init := events[..|events| - 1];
      History(refs, init) + WritesOf(refs, Run(refs, init), events[|events| - 1])
  }

  // ---- What a history says ----

  function LastConfirmed(h: seq<Write>, key: Key): Option<string> {
    if h == [] then None
    else
      var w := h[|h| - 1];
      if w.AliasWritten? && w.key == key && w.confirmed then Some(w.vendor) else LastConfirmed(h[..|h| - 1], key)
  }

  function FirstWriter(h: seq<Write>, key: Key): Option<string> {
    if h == [] then None
    else
      var before, w := FirstWriter(h[..|h| - 1], key), h[|h| - 1];
      if before.Some? then before else if w.AliasWritten? && w.key == key then Some(w.vendor) else None
  }

  /** The last confirmed vendor, else the first one. */
  function Owner(h: seq<Write>, key: Key): Option<string> {
    if LastConfirmed(h, key).Some? then LastConfirmed(h, key) else FirstWriter(h, key)
  }

  function Occurrences(h: seq<Write>, key: Key): nat {
    if h == [] then 0
    else Occurrences(h[..|h| - 1], key) + if h[|h| - 1].AliasWritten? && h[|h| - 1].key == key then 1 else 0
  }

  function Receipts(h: seq<Write>, vendor: string): nat {
    if h == [] then 0
    else
      var w := h[|h| - 1];
      Receipts(h[..|h| - 1], vendor) + if w.AliasWritten? && w.vendor == vendor && w.found then 1 else 0
  }

  function LastLearned(h: seq<Write>, vendor: string): string {
    if h == [] then ""
    else
      var w := h[|h| - 1];
      if w.AccountLearned? && w.vendor == vendor then w.account else LastLearned(h[..|h| - 1], vendor)
  }

  function FirstProposed(h: seq<Write>, vendor: string): string {
    if h == [] then ""
    else
      var before, w := FirstProposed(h[..|h| - 1], vendor), h[|h| - 1];
      if before != "" then before else if w.Proposed? && w.vendor == vendor then w.account else ""
  }

  /** Alias writes, and those among them whose vendor was not in the table. */
  function AllAliasWrites(h: seq<Write>): nat {
    if h == [] then 0 else AllAliasWrites(h[..|h| - 1]) + if h[|h| - 1].AliasWritten? then 1 else 0
  }

  function WritesToNobody(h: seq<Write>): nat {
    if h == [] then 0
    else WritesToNobody(h[..|h| - 1]) + if h[|h| - 1].AliasWritten? && !h[|h| - 1].found then 1 else 0
  }

  predicate Writes(w: Write, key: Key) {
    w.AliasWritten? && w.key == key
  }

  /** Write i settles whom an alias belongs to: the last confirmed one, or the first if none is confirmed. */
  ghost predicate Decides(h: seq<Write>, i: int, key: Key) {
    && 0 <= i < |h| && Writes(h[i], key)
    && if h[i].confirmed then forall j :: i < j < |h| && Writes(h[j], key) ==> !h[j].confirmed
       else (forall j :: 0 <= j < |h| && Writes(h[j], key) ==> !h[j].confirmed && i <= j)
  }

  lemma {:induction false} LastConfirmedMeans(h: seq<Write>, key: Key) returns (i: int)
    ensures LastConfirmed(h, key).None? ==> forall j :: 0 <= j < |h| && Writes(h[j], key) ==> !h[j].confirmed
    ensures LastConfirmed(h, key).Some? ==> Decides(h, i, key) && h[i].vendor == LastConfirmed(h, key).value
  {
    i := |h| - 1;
    if h != [] && !(Writes(h[i], key) && h[i].confirmed) {
      i := LastConfirmedMeans(h[..|h| - 1], key);
    }
  }

  lemma {:induction false} FirstWriterMeans(h: seq<Write>, key: Key) returns (i: int)
    ensures FirstWriter(h, key).None? ==> forall j :: 0 <= j < |h| ==> !Writes(h[j], key)
    ensures FirstWriter(h, key).Some? ==>
              && 0 <= i < |h| && Writes(h[i], key) && h[i].vendor == FirstWriter(h, key).value
              && forall j :: 0 <= j < i ==> !Writes(h[j], key)
  {
    i := |h| - 1;
    if h != [] {
      var before := FirstWriterMeans(h[..|h| - 1], key);
      i := if FirstWriter(h[..|h| - 1], key).Some? then before else i;
    }
  }

  /** The owner is the vendor of the deciding write; there is none exactly when nobody wrote the alias. */
  lemma OwnerMeans(h: seq<Write>, key: Key)
    ensures Owner(h, key).None? <==> forall j :: 0 <= j < |h| ==> !Writes(h[j], key)
    ensures Owner(h, key).Some? ==> exists i :: Decides(h, i, key) && h[i].vendor == Owner(h, key).value
  {
    var last := LastConfirmedMeans(h, key);
    var first := FirstWriterMeans(h, key);
    if LastConfirmed(h, key).None? && FirstWriter(h, key).Some? {
      assert Decides(h, first, key);
    }
  }

  // ---- One more write ----

  lemma OwnerSnoc(h: seq<Write>, w: Write, key: Key)
    ensures Owner(h + [w], key) ==
            if w.AliasWritten? && w.key == key && (w.confirmed || Owner(h, key).None?) then Some(w.vendor)
            else Owner(h, key)
    ensures Occurrences(h + [w], key) == Occurrences(h, key) + if w.AliasWritten? && w.key == key then 1 else 0
  {
    assert (h + [w])[..|h|] == h;
  }

  lemma VendorSnoc(h: seq<Write>, w: Write, vendor: string)
    ensures Receipts(h + [w], vendor) ==
            Receipts(h, vendor) + if w.AliasWritten? && w.vendor == vendor && w.found then 1 else 0
    ensures LastLearned(h + [w], vendor) ==
            if w.AccountLearned? && w.vendor == vendor then w.account else LastLearned(h, vendor)
    ensures FirstProposed(h + [w], vendor) ==
            if FirstProposed(h, vendor) == "" && w.Proposed? && w.vendor == vendor then w.account
            else FirstProposed(h, vendor)
  {
    assert (h + [w])[..|h|] == h;
  }

  lemma TotalsSnoc(h: seq<Write>, w: Write)
    ensures AllAliasWrites(h + [w]) == AllAliasWrites(h) + if w.AliasWritten? then 1 else 0
    ensures WritesToNobody(h + [w]) == WritesToNobody(h) + if w.AliasWritten? && !w.found then 1 else 0
  {
    assert (h + [w])[..|h|] == h;
  }

  // ---- Agreement ----

  /** An alias belongs to the last confirmed vendor, else to the first writer, and counts its writes. */
  ghost predicate AliasesAgree(aliases: map<Key, Alias>, h: seq<Write>) {
    && (forall key :: key in aliases <==> Owner(h, key).Some?)
    && (forall key :: key in aliases ==>
          aliases[key].vendor == Owner(h, key).value && aliases[key].occurrences == Occurrences(h, key))
  }

  /** A vendor's default account is the last learned one, else the first one proposed. */
  predicate RowAgrees(v: Vendor, h: seq<Write>, id: string) {
    v.receipts == Receipts(h, id) && v.account == Coalesce(LastLearned(h, id), FirstProposed(h, id))
  }

  /** The write names a vendor that was in the table. */
  predicate Names(w: Write, id: string) {
    w.vendor == id && (w.AliasWritten? ==> w.found)
  }

  ghost predicate VendorsAgree(vendors: map<string, Vendor>, h: seq<Write>) {
    && (forall id :: id in vendors ==> RowAgrees(vendors[id], h, id))
    && (forall w, id :: w in h && Names(w, id) ==> id in vendors)
  }

  /** The unique index: one vendor per entity and normalized name. */
  ghost predicate IndexOk(t: Tables) {
    && (forall key :: key in t.index ==>
          t.index[key] in t.vendors && (t.vendors[t.index[key]].entity, t.vendors[t.index[key]].normalized) == key)
    && (forall id :: id in t.vendors ==>
          (t.vendors[id].entity, t.vendors[id].normalized) in t.index
          && t.index[(t.vendors[id].entity, t.vendors[id].normalized)] == id)
  }

  function OccurrencesBy(aliases: map<Key, Alias>): Key -> int {
    key => if key in aliases then aliases[key].occurrences else 0
  }

  function ReceiptsBy(vendors: map<string, Vendor>): string -> int {
    id => if id in vendors then vendors[id].receipts else 0
  }

  ghost function TotalOccurrences(aliases: map<Key, Alias>): int {
    SumSet(OccurrencesBy(aliases), aliases.Keys)
  }

  ghost function TotalReceipts(vendors: map<string, Vendor>): int {
    SumSet(ReceiptsBy(vendors), vendors.Keys)
  }

  ghost predicate TotalsAgree(t: Tables, h: seq<Write>) {
    && TotalOccurrences(t.aliases) == AllAliasWrites(h)
    && TotalReceipts(t.vendors) == AllAliasWrites(h) - WritesToNobody(h)
  }

  ghost predicate Agrees(t: Tables, h: seq<Write>) {
    AliasesAgree(t.aliases, h) && VendorsAgree(t.vendors, h) && IndexOk(t) && TotalsAgree(t, h)
  }

  // ---- The aliases ----

  lemma AliasesUntouched(aliases: map<Key, Alias>, h: seq<Write>, w: Write)
    requires AliasesAgree(aliases, h) && !w.AliasWritten?
    ensures AliasesAgree(aliases, h + [w])
  {
    forall key ensures Owner(h + [w], key) == Owner(h, key) && Occurrences(h + [w], key) == Occurrences(h, key) {
      OwnerSnoc(h, w, key);
    }
  }

  lemma {:induction false} NoOwnerNoWrites(h: seq<Write>, key: Key)
    requires Owner(h, key).None?
    ensures Occurrences(h, key) == 0
  {
    if h != [] {
      assert h == h[..|h| - 1] + [h[|h| - 1]];
      OwnerSnoc(h[..|h| - 1], h[|h| - 1], key);
      NoOwnerNoWrites(h[..|h| - 1], key);
    }
  }

  lemma AliasWriteAgrees(t: Tables, h: seq<Write>, vendor: string, key: Key, raw: string, confirmed: bool)
    requires AliasesAgree(t.aliases, h)
    ensures AliasesAgree(t.aliases[key := WrittenAlias(t, vendor, key, raw, confirmed)],
                         h + [AliasWritten(vendor, key, confirmed, vendor in t.vendors)])
  {
    var w := AliasWritten(vendor, key, confirmed, vendor in t.vendors);
    var after := t.aliases[key := WrittenAlias(t, vendor, key, raw, confirmed)];
    forall k ensures k in after <==> Owner(h + [w], k).Some? {
      OwnerSnoc(h, w, k);
    }
    forall k | k in after
      ensures after[k].vendor == Owner(h + [w], k).value && after[k].occurrences == Occurrences(h + [w], k)
    {
      OwnerSnoc(h, w, k);
      if k !in t.aliases {
        NoOwnerNoWrites(h, k);
      }
    }
  }

  lemma AliasTotal(aliases: map<Key, Alias>, key: Key, a: Alias)
    requires a.occurrences == 1 + if key in aliases then aliases[key].occurrences else 0
    ensures TotalOccurrences(aliases[key := a]) == TotalOccurrences(aliases) + 1
  {
    var after := aliases[key := a];
    SumRemove(OccurrencesBy(after), after.Keys, key);
    if key in aliases {
      SumRemove(OccurrencesBy(aliases), aliases.Keys, key);
      assert after.Keys == aliases.Keys;
    } else {
      assert after.Keys - {key} == aliases.Keys - {key} == aliases.Keys;
    }
    SumSame(OccurrencesBy(aliases), OccurrencesBy(after), aliases.Keys - {key});
  }

  // ---- The vendors ----

  lemma {:induction false} UnnamedIsBlank(h: seq<Write>, id: string)
    requires forall w :: w in h ==> !Names(w, id)
    ensures Receipts(h, id) == 0 && LastLearned(h, id) == "" && FirstProposed(h, id) == ""
  {
    if h != [] {
      assert h == h[..|h| - 1] + [h[|h| - 1]];
      assert !Names(h[|h| - 1], id);
      UnnamedIsBlank(h[..|h| - 1], id);
    }
  }

  /** Replacing or adding one row, and appending the write that names it. */
  lemma VendorRowAgrees(vendors: map<string, Vendor>, h: seq<Write>, w: Write, v: Vendor)
    requires VendorsAgree(vendors, h) && Names(w, w.vendor) && RowAgrees(v, h + [w], w.vendor)
    ensures VendorsAgree(vendors[w.vendor := v], h + [w])
  {
    forall id | id in vendors && id != w.vendor ensures RowAgrees(vendors[id], h + [w], id) {
      VendorSnoc(h, w, id);
    }
  }

  lemma VendorsUntouched(vendors: map<string, Vendor>, h: seq<Write>, w: Write)
    requires VendorsAgree(vendors, h) && w.AliasWritten? && !w.found
    ensures VendorsAgree(vendors, h + [w])
  {
    forall id | id in vendors ensures RowAgrees(vendors[id], h + [w], id) {
      VendorSnoc(h, w, id);
    }
  }

  lemma VendorTotal(vendors: map<string, Vendor>, id: string, v: Vendor)
    ensures TotalReceipts(vendors[id := v])
            == TotalReceipts(vendors) + v.receipts - if id in vendors then vendors[id].receipts else 0
  {
    var after := vendors[id := v];
    SumRemove(ReceiptsBy(after), after.Keys, id);
    if id in vendors {
      SumRemove(ReceiptsBy(vendors), vendors.Keys, id);
      assert after.Keys == vendors.Keys;
    } else {
      assert after.Keys - {id} == vendors.Keys - {id} == vendors.Keys;
    }
    SumSame(ReceiptsBy(vendors), ReceiptsBy(after), vendors.Keys - {id});
  }

  // ---- The three kinds of write ----

  lemma IndexKept(t: Tables, id: string, v: Vendor)
    requires IndexOk(t) && id in t.vendors
    requires v.entity == t.vendors[id].entity && v.normalized == t.vendors[id].normalized
    ensures IndexOk(t.(vendors := t.vendors[id := v]))
  {
  }

  lemma IndexGrows(t: Tables, id: string, v: Vendor)
    requires IndexOk(t) && id !in t.vendors && (v.entity, v.normalized) !in t.index
    ensures IndexOk(t.(vendors := t.vendors[id := v], index := t.index[(v.entity, v.normalized) := id]))
  {
  }

  /** A write that changes one vendor row and no receipt count. */
  lemma RowWriteTotals(t: Tables, h: seq<Write>, w: Write, v: Vendor)
    requires TotalsAgree(t, h) && !w.AliasWritten?
    requires v.receipts == if w.vendor in t.vendors then t.vendors[w.vendor].receipts else 0
    ensures TotalsAgree(t.(vendors := t.vendors[w.vendor := v]), h + [w])
  {
    VendorTotal(t.vendors, w.vendor, v);
    TotalsSnoc(h, w);
  }

  lemma ReplacedRowAgrees(t: Tables, h: seq<Write>, w: Write, v: Vendor)
    requires Agrees(t, h) && w.vendor in t.vendors && !w.AliasWritten? && RowAgrees(v, h + [w], w.vendor)
    requires var row := t.vendors[w.vendor];
      v.entity == row.entity && v.normalized == row.normalized && v.receipts == row.receipts
    ensures Agrees(t.(vendors := t.vendors[w.vendor := v]), h + [w])
  {
    IndexKept(t, w.vendor, v);
    VendorRowAgrees(t.vendors, h, w, v);
    RowWriteTotals(t, h, w, v);
    AliasesUntouched(t.aliases, h, w);
  }

  lemma AccountAgrees(t: Tables, h: seq<Write>, vendor: string, account: string)
    requires Agrees(t, h) && vendor in t.vendors && account != ""
    ensures Agrees(WithAccount(t, vendor, account), h + [AccountLearned(vendor, account)])
  {
    VendorSnoc(h, AccountLearned(vendor, account), vendor);
    ReplacedRowAgrees(t, h, AccountLearned(vendor, account), t.vendors[vendor].(account := account));
  }

  lemma MergeAgrees(t: Tables, h: seq<Write>, v: Vendor, id: string)
    requires Agrees(t, h) && id in t.vendors
    ensures Agrees(t.(vendors := t.vendors[id := Merged(t.vendors[id], v)]), h + [Proposed(id, v.account)])
  {
    VendorSnoc(h, Proposed(id, v.account), id);
    assert RowAgrees(t.vendors[id], h, id);
    ReplacedRowAgrees(t, h, Proposed(id, v.account), Merged(t.vendors[id], v));
  }

  lemma NewVendorAgrees(t: Tables, h: seq<Write>, v: Vendor, id: string)
    requires Agrees(t, h) && id !in t.vendors && (v.entity, v.normalized) !in t.index && v.receipts == 0
    ensures Agrees(t.(vendors := t.vendors[id := v], index := t.index[(v.entity, v.normalized) := id]),
                   h + [Proposed(id, v.account)])
  {
    var w := Proposed(id, v.account);
    UnnamedIsBlank(h, id);
    VendorSnoc(h, w, id);
    VendorRowAgrees(t.vendors, h, w, v);
    RowWriteTotals(t, h, w, v);
    AliasesUntouched(t.aliases, h, w);
    IndexGrows(t, id, v);
  }

  lemma CreateAgrees(refs: Refs, t: Tables, h: seq<Write>, v: Vendor, freshId: string)
    requires Agrees(t, h)
    ensures var (after, id) := Created(refs, t, v, freshId);
      Agrees(after, h + if id.Some? then [Proposed(id.value, v.account)] else [])
  {
    var key := (v.entity, v.normalized);
    assert h + [] == h;
    if Known(t, key) {
      MergeAgrees(t, h, v, t.index[key]);
    } else if freshId !in t.vendors {
      NewVendorAgrees(t, h, v.(receipts := 0), freshId);
    }
  }

  lemma CountedVendorsAgree(t: Tables, h: seq<Write>, w: Write)
    requires VendorsAgree(t.vendors, h) && w.AliasWritten? && w.found == (w.vendor in t.vendors)
    ensures VendorsAgree(CountReceipt(t, w.vendor).vendors, h + [w])
  {
    if w.found {
      VendorSnoc(h, w, w.vendor);
      assert RowAgrees(t.vendors[w.vendor], h, w.vendor);
      VendorRowAgrees(t.vendors, h, w, t.vendors[w.vendor].(receipts := t.vendors[w.vendor].receipts + 1));
    } else {
      VendorsUntouched(t.vendors, h, w);
    }
  }

  lemma CountedReceipt(t: Tables, id: string)
    ensures TotalReceipts(CountReceipt(t, id).vendors) == TotalReceipts(t.vendors) + if id in t.vendors then 1 else 0
  {
    if id in t.vendors {
      VendorTotal(t.vendors, id, t.vendors[id].(receipts := t.vendors[id].receipts + 1));
    }
  }

  lemma CountedTotals(t: Tables, h: seq<Write>, w: Write, a: Alias)
    requires TotalsAgree(t, h) && w.AliasWritten? && w.found == (w.vendor in t.vendors)
    requires a.occurrences == 1 + if w.key in t.aliases then t.aliases[w.key].occurrences else 0
    ensures TotalsAgree(CountReceipt(t.(aliases := t.aliases[w.key := a]), w.vendor), h + [w])
  {
    CountLeavesAliases(t, t.aliases[w.key := a], w.vendor);
    AliasTotal(t.aliases, w.key, a);
    CountedReceipt(t, w.vendor);
    TotalsSnoc(h, w);
  }

  lemma CountKeepsIndex(t: Tables, aliases: map<Key, Alias>, id: string)
    requires IndexOk(t)
    ensures IndexOk(CountReceipt(t.(aliases := aliases), id))
  {
    if id in t.vendors {
      IndexKept(t, id, t.vendors[id].(receipts := t.vendors[id].receipts + 1));
    }
  }

  lemma CountLeavesAliases(t: Tables, aliases: map<Key, Alias>, id: string)
    ensures CountReceipt(t.(aliases := aliases), id) == CountReceipt(t, id).(aliases := aliases)
  {
  }

  lemma AcceptedAliasAgrees(t: Tables, h: seq<Write>, vendor: string, key: Key, raw: string, confirmed: bool)
    requires Agrees(t, h)
    ensures Agrees(CountReceipt(t.(aliases := t.aliases[key := WrittenAlias(t, vendor, key, raw, confirmed)]), vendor),
                   h + [AliasWritten(vendor, key, confirmed, vendor in t.vendors)])
  {
    var w := AliasWritten(vendor, key, confirmed, vendor in t.vendors);
    var a := WrittenAlias(t, vendor, key, raw, confirmed);
    var after := CountReceipt(t.(aliases := t.aliases[key := a]), vendor);
    assert AliasesAgree(after.aliases, h + [w]) by {
      AliasWriteAgrees(t, h, vendor, key, raw, confirmed);
    }
    assert VendorsAgree(after.vendors, h + [w]) by {
      CountLeavesAliases(t, t.aliases[key := a], vendor);
      CountedVendorsAgree(t, h, w);
    }
    assert TotalsAgree(after, h + [w]) by {
      CountedTotals(t, h, w, a);
    }
    assert IndexOk(after) by {
      CountKeepsIndex(t, t.aliases[key := a], vendor);
    }
  }

  lemma RecordAgrees(refs: Refs, t: Tables, h: seq<Write>, vendor: string, entity: string, raw: string, confirmed: bool)
    requires Agrees(t, h)
    ensures Agrees(Recorded(refs, t, vendor, entity, raw, confirmed),
                   h + AliasWrites(refs, t, vendor, entity, raw, confirmed))
  {
    assert h + [] == h;
    if Accepts(refs, t, vendor, (entity, Normalized(raw)), confirmed) {
      AcceptedAliasAgrees(t, h, vendor, (entity, Normalized(raw)), raw, confirmed);
    }
  }

  /** Learning an account is a write to the vendor, then one to the alias. */
  lemma LearnedTwice(refs: Refs, t: Tables, h: seq<Write>, e: Event)
    requires e.Learned? && Learns(refs, t, e.vendor, e.account)
    ensures var after, learned := WithAccount(t, e.vendor, e.account), [AccountLearned(e.vendor, e.account)];
      if Blank(e.raw) then Next(refs, t, e) == after && WritesOf(refs, t, e) == learned
      else
        && Next(refs, t, e) == Recorded(refs, after, e.vendor, e.entity, e.raw, true)
        && h + WritesOf(refs, t, e) == h + learned + AliasWrites(refs, after, e.vendor, e.entity, e.raw, true)
  {
  }

  lemma LearnedAgrees(refs: Refs, t: Tables, h: seq<Write>, e: Event)
    requires Agrees(t, h) && e.Learned? && Learns(refs, t, e.vendor, e.account)
    ensures Agrees(Next(refs, t, e), h + WritesOf(refs, t, e))
  {
    LearnedTwice(refs, t, h, e);
    AccountAgrees(t, h, e.vendor, e.account);
    if !Blank(e.raw) {
      RecordAgrees(refs, WithAccount(t, e.vendor, e.account), h + [AccountLearned(e.vendor, e.account)],
                   e.vendor, e.entity, e.raw, true);
    }
  }

  lemma MemoizedAgrees(refs: Refs, t: Tables, h: seq<Write>, e: Event)
    requires Agrees(t, h) && e.Memoized?
    ensures Agrees(Next(refs, t, e), h + WritesOf(refs, t, e))
  {
    if e.proposal.Some? && !Blank(e.proposal.value.name) {
      CreateAgrees(refs, t, h, VendorOf(e.entity, e.proposal.value, e.account), e.freshId);
    } else {
      assert h + [] == h;
    }
  }

  lemma NextAgrees(refs: Refs, t: Tables, h: seq<Write>, e: Event)
    requires Agrees(t, h)
    ensures Agrees(Next(refs, t, e), h + WritesOf(refs, t, e))
  {
    assert h + [] == h;
    if e.Memoized? {
      MemoizedAgrees(refs, t, h, e);
    } else if e.Resolved? {
      if !Blank(e.vendor) {
        RecordAgrees(refs, t, h, e.vendor, e.entity, e.raw, false);
      }
    } else if Learns(refs, t, e.vendor, e.account) {
      LearnedAgrees(refs, t, h, e);
    }
  }

  /** After any run of memoizations, resolutions and learned accounts, the tables say what the history says:
      owners, occurrences, default accounts, receipt counts, and their totals. */
  lemma {:induction false} LedgerAgrees(refs: Refs, events: seq<Event>)
    ensures Agrees(Run(refs, events), History(refs, events))
  {
    if events == [] {
      assert TotalOccurrences(map[]) == 0 && TotalReceipts(map[]) == 0;
    } else {
      var init := events[..|events| - 1];
      LedgerAgrees(refs, init);
      NextAgrees(refs, Run(refs, init), History(refs, init), events[|events| - 1]);
    }
  }

  /** Summed occurrences equal summed receipt counts exactly when every alias write named a stored vendor. */
  lemma TotalsMatchIffNobodyMissing(refs: Refs, events: seq<Event>)
    ensures TotalOccurrences(Run(refs, events).aliases) == TotalReceipts(Run(refs, events).vendors)
            <==> forall w :: w in History(refs, events) && w.AliasWritten? ==> w.found
  {
    LedgerAgrees(refs, events);
    NobodyMissing(History(refs, events));
  }

  lemma {:induction false} NobodyMissing(h: seq<Write>)
    ensures WritesToNobody(h) == 0 <==> forall w :: w in h && w.AliasWritten? ==> w.found
  {
    if h != [] {
      NobodyMissing(h[..|h| - 1]);
      assert h == h[..|h| - 1] + [h[|h| - 1]];
    }
  }

  // ---- A write that names nobody ----

  const SHOP := Refs({"e"}, {"food"})
  const SHOPPER := ProposedVendor("X", "x", None, None)

  /** A vendor is created and its raw name recorded; then the name is recorded for a vendor id that does not
      exist. */
  const SAMPLE_EVENTS := [
    Memoized("e", Some(SHOPPER), "food", "v1"), Resolved("e", "v1", "x"), Resolved("e", "gone", "x")]

  const ROW := Vendor("e", "X", "x", "x", "", "", "food", 0)
  const KEY: Key := ("e", "x")

  lemma NamesAreUsable()
    ensures !Blank("X") && !Blank("v1") && !Blank("gone")
  {
    Unspaced("X");
    Unspaced("v1");
    Unspaced("gone");
  }

  lemma FoldsToX(s: string)
    requires s in {"X", "x"}
    ensures Normalized(s) == "x"
  {
    assert ToLower(s) == "x" && "x"[..0] == "";
    assert KeepAlnum("") == "" && KeepAlnum("x") == "x";
    NoSuffixOfX(|SUFFIXES|);
    assert SUFFIXES[..|SUFFIXES|] == SUFFIXES;
    assert TrimSuffixes("x", SUFFIXES) == "x";
  }

  lemma {:induction false} NoSuffixOfX(n: nat)
    requires n <= |SUFFIXES|
    ensures TrimSuffixes("x", SUFFIXES[..n]) == "x"
  {
    if n > 0 {
      NoSuffixOfX(n - 1);
      assert SUFFIXES[..n][..n - 1] == SUFFIXES[..n - 1];
      assert |SUFFIXES[n - 1]| > 1;
    }
  }

  const CREATED := Tables(map["v1" := ROW], map[KEY := "v1"], map[])

  function Counted(occurrences: nat): Tables {
    Tables(map["v1" := ROW.(receipts := 1)], map[KEY := "v1"], map[KEY := Alias("v1", "x", occurrences)])
  }

  lemma FirstStep()
    ensures Next(SHOP, Tables(map[], map[], map[]), SAMPLE_EVENTS[0]) == CREATED
  {
    NamesAreUsable();
    FoldsToX("X");
    assert VendorOf("e", SHOPPER, "food") == ROW;
    assert Created(SHOP, Tables(map[], map[], map[]), ROW, "v1").0 == CREATED;
  }

  lemma SecondStep()
    ensures Next(SHOP, CREATED, SAMPLE_EVENTS[1]) == Counted(1)
  {
    NamesAreUsable();
    FoldsToX("x");
    assert Recorded(SHOP, CREATED, "v1", "e", "x", false) == Counted(1);
  }

  lemma ThirdStep()
    ensures Next(SHOP, Counted(1), SAMPLE_EVENTS[2]) == Counted(2)
    ensures WritesOf(SHOP, Counted(1), SAMPLE_EVENTS[2]) == [AliasWritten("gone", KEY, false, false)]
  {
    NamesAreUsable();
    FoldsToX("x");
    assert Recorded(SHOP, Counted(1), "gone", "e", "x", false) == Counted(2);
  }

  lemma SampleTables()
    ensures Run(SHOP, SAMPLE_EVENTS[..2]) == Counted(1) && Run(SHOP, SAMPLE_EVENTS) == Counted(2)
  {
    FirstStep();
    SecondStep();
    ThirdStep();
    assert SAMPLE_EVENTS[..1][..0] == [] && SAMPLE_EVENTS[..2][..1] == SAMPLE_EVENTS[..1];
    assert SAMPLE_EVENTS[..|SAMPLE_EVENTS| - 1] == SAMPLE_EVENTS[..2];
    assert Run(SHOP, SAMPLE_EVENTS[..1]) == Next(SHOP, Run(SHOP, []), SAMPLE_EVENTS[0]);
  }

  /** The last write is accepted, counts an occurrence, and counts a receipt for nobody. */
  lemma TotalsCanDiffer()
    ensures var t := Run(SHOP, SAMPLE_EVENTS);
      TotalOccurrences(t.aliases) == 2 && TotalReceipts(t.vendors) == 1
    ensures AliasWritten("gone", KEY, false, false) in History(SHOP, SAMPLE_EVENTS)
  {
    SampleTables();
    ThirdStep();
    var t := Run(SHOP, SAMPLE_EVENTS);
    assert SAMPLE_EVENTS[..|SAMPLE_EVENTS| - 1] == SAMPLE_EVENTS[..2];
    SumRemove(OccurrencesBy(t.aliases), t.aliases.Keys, KEY);
    SumRemove(ReceiptsBy(t.vendors), t.vendors.Keys, "v1");
    assert t.aliases.Keys - {KEY} == {} && t.vendors.Keys - {"v1"} == {};
  }
}
