/** Vendor memory: the vendors table, the alias ledger and their three write paths. */
module AliasLedger {
  import opened Text
  import opened VendorMatch
  import opened Wrappers

  /** A row of vendors; an optional column is "" when it is NULL. */
  datatype Vendor = Vendor(
    entity: string, name: string, normalized: string, pattern: string, taxId: string, website: string,
    account: string, receipts: nat)

  datatype Alias = Alias(vendor: string, raw: string, occurrences: nat)

  /** (entity, normalized name). */
  type Key = (string, string)

  /** The two tables; index is the unique index on (entity_id, normalized_name). */
  datatype Tables = Tables(vendors: map<string, Vendor>, index: map<Key, string>, aliases: map<Key, Alias>)

  /** The rows that foreign keys point to and that no write path here changes. */
  datatype Refs = Refs(entities: set<string>, accounts: set<string>)

  function Coalesce(a: string, b: string): string {
    if a != "" then a else b
  }

  /** The upsert fills in what is missing and overwrites nothing. */
  function Merged(existing: Vendor, v: Vendor): Vendor {
    existing.(pattern := Coalesce(existing.pattern, v.pattern), account := Coalesce(existing.account, v.account),
              taxId := Coalesce(existing.taxId, v.taxId), website := Coalesce(existing.website, v.website))
  }

  /** An account column may hold an existing account or NULL. */
  predicate Storable(refs: Refs, account: string) {
    account == "" || account in refs.accounts
  }

  predicate Known(t: Tables, key: Key) {
    key in t.index && t.index[key] in t.vendors
  }

  /** The tables after the upsert, and the vendor's id unless a constraint failed. */
  function Created(refs: Refs, t: Tables, v: Vendor, freshId: string): (Tables, Option<string>) {
    var key := (v.entity, v.normalized);
    if Known(t, key) then
      var id := t.index[key];
      var merged := Merged(t.vendors[id], v);
      if merged.account != t.vendors[id].account && !Storable(refs, merged.account) then (t, None)
      else (t.(vendors := t.vendors[id := merged]), Some(id))
    else if freshId in t.vendors || v.entity !in refs.entities || !Storable(refs, v.account) then (t, None)
    else (t.(vendors := t.vendors[freshId := v.(receipts := 0)], index := t.index[key := freshId]), Some(freshId))
  }

  function CountReceipt(t: Tables, id: string): Tables {
    if id in t.vendors then t.(vendors := t.vendors[id := t.vendors[id].(receipts := t.vendors[id].receipts + 1)])
    else t
  }

  /** The alias write passes its foreign keys: a new row needs its vendor and its entity, a reassigned one its
      new vendor, and a repeated one nothing. */
  predicate Accepts(refs: Refs, t: Tables, vendor: string, key: Key, confirmed: bool) {
    && key.1 != ""
    && if key in t.aliases then !confirmed || t.aliases[key].vendor == vendor || vendor in t.vendors
       else vendor in t.vendors && key.0 in refs.entities
  }

  function WrittenAlias(t: Tables, vendor: string, key: Key, raw: string, confirmed: bool): Alias {
    if key !in t.aliases then Alias(vendor, raw, 1)
    else
      var a := t.aliases[key];
      a.(vendor := if confirmed then vendor else a.vendor, occurrences := a.occurrences + 1)
  }

  function Recorded(refs: Refs, t: Tables, vendor: string, entity: string, raw: string, confirmed: bool): Tables {
    var key := (entity, Normalized(raw));
    if Accepts(refs, t, vendor, key, confirmed) then
      CountReceipt(t.(aliases := t.aliases[key := WrittenAlias(t, vendor, key, raw, confirmed)]), vendor)
    else t
  }

  predicate Learns(refs: Refs, t: Tables, vendor: string, account: string) {
    && !Blank(vendor) && !Blank(account) && vendor in t.vendors
    && (t.vendors[vendor].account == account || Storable(refs, account))
  }

  function WithAccount(t: Tables, vendor: string, account: string): Tables
    requires vendor in t.vendors
  {
    t.(vendors := t.vendors[vendor := t.vendors[vendor].(account := account)])
  }

  // ---- The stores and the memory on top of them ----

  function VendorOf(entity: string, p: ProposedVendor, account: string): Vendor {
    Vendor(entity, p.name, Normalized(p.name), p.matchPattern,
           if p.taxId.Some? then p.taxId.value else "", if p.website.Some? then p.website.value else "", account, 0)
  }

  class VendorMemory {
    const refs: Refs
    var tables: Tables

    constructor (refs: Refs)
      ensures this.refs == refs && tables == Tables(map[], map[], map[])
    {
      this.refs := refs;
      tables := Tables(map[], map[], map[]);
    }

    method Create(v: Vendor, freshId: string) returns (id: Option<string>)
      modifies this
      ensures (tables, id) == Created(refs, old(tables), v, freshId)
    {
      var key := (v.entity, v.normalized);
      if Known(tables, key) {
        var existing := tables.index[key];
        var merged := Merged(tables.vendors[existing], v);
        if merged.account != tables.vendors[existing].account && !Storable(refs, merged.account) {
          return None;
        }
        tables := tables.(vendors := tables.vendors[existing := merged]);
        return Some(existing);
      }
      if freshId in tables.vendors || v.entity !in refs.entities || !Storable(refs, v.account) {
        return None;
      }
      tables := tables.(vendors := tables.vendors[freshId := v.(receipts := 0)], index := tables.index[key := freshId]);
      return Some(freshId);
    }

    method SetDefaultAccount(id: string, account: string) returns (ok: bool)
      modifies this
      ensures ok <==> id in old(tables).vendors && (account == "" || account in refs.accounts)
      ensures tables == if ok then WithAccount(old(tables), id, account) else old(tables)
    {
      if id !in tables.vendors || !Storable(refs, account) {
        return false;
      }
      tables := tables.(vendors := tables.vendors[id := tables.vendors[id].(account := account)]);
      return true;
    }

    method BumpVendor(id: string)
      modifies this
      ensures tables == CountReceipt(old(tables), id)
    {
      if id in tables.vendors {
        var row := tables.vendors[id];
        tables := tables.(vendors := tables.vendors[id := row.(receipts := row.receipts + 1)]);
      }
    }

    /** First writer wins. */
    method Record(vendor: string, entity: string, raw: string)
      modifies this
      ensures tables == Recorded(refs, old(tables), vendor, entity, raw, false)
    {
      var normalized := NormalizeVendorName(raw);
      if normalized == "" {
        return;
      }
      var key := (entity, normalized);
      if key in tables.aliases {
        var a := tables.aliases[key];
        tables := tables.(aliases := tables.aliases[key := a.(occurrences := a.occurrences + 1)]);
      } else if vendor in tables.vendors && entity in refs.entities {
        tables := tables.(aliases := tables.aliases[key := Alias(vendor, raw, 1)]);
      } else {
        return;
      }
      BumpVendor(vendor);
    }

    /** The account chosen at posting confirms the vendor, which takes the alias over. */
    method RecordConfirmed(vendor: string, entity: string, raw: string)
      modifies this
      ensures tables == Recorded(refs, old(tables), vendor, entity, raw, true)
    {
      var normalized := NormalizeVendorName(raw);
      if normalized == "" {
        return;
      }
      var key := (entity, normalized);
      if key in tables.aliases {
        var a := tables.aliases[key];
        if a.vendor != vendor && vendor !in tables.vendors {
          return;
        }
        tables := tables.(aliases := tables.aliases[key := a.(vendor := vendor, occurrences := a.occurrences + 1)]);
      } else if vendor in tables.vendors && entity in refs.entities {
        tables := tables.(aliases := tables.aliases[key := Alias(vendor, raw, 1)]);
      } else {
        return;
      }
      BumpVendor(vendor);
    }

    method Memoize(entity: string, proposal: Option<ProposedVendor>, account: string, freshId: string)
        returns (id: Option<string>)
      modifies this
      ensures tables == Next(refs, old(tables), Memoized(entity, proposal, account, freshId))
      ensures id == if proposal.None? || Blank(proposal.value.name) then None
                    else Created(refs, old(tables), VendorOf(entity, proposal.value, account), freshId).1
    {
      if proposal.None? || Blank(proposal.value.name) {
        return None;
      }
      id := Create(VendorOf(entity, proposal.value, account), freshId);
    }

    method RecordResolution(entity: string, vendor: string, raw: string)
      modifies this
      ensures tables == Next(refs, old(tables), Resolved(entity, vendor, raw))
    {
      if Blank(vendor) {
        return;
      }
      Record(vendor, entity, raw);
    }

    method LearnAccount(entity: string, vendor: string, raw: string, account: string) returns (ok: bool)
      modifies this
      ensures tables == Next(refs, old(tables), Learned(entity, vendor, raw, account))
      ensures ok <==> Blank(vendor) || Blank(account) || Learns(refs, old(tables), vendor, account)
    {
      if Blank(vendor) || Blank(account) {
        return true;
      }
      if vendor !in tables.vendors {
        return false;
      }
      if tables.vendors[vendor].account != account {
        ok := SetDefaultAccount(vendor, account);
        if !ok {
          return;
        }
      }
      assert tables == WithAccount(old(tables), vendor, account);
      if !Blank(raw) {
        RecordConfirmed(vendor, entity, raw);
      }
      return true;
    }
  }

  // ---- Runs ----

  datatype Event =
    | Memoized(entity: string, proposal: Option<ProposedVendor>, account: string, freshId: string)
    | Resolved(entity: string, vendor: string, raw: string)
    | Learned(entity: string, vendor: string, raw: string, account: string)

  function Next(refs: Refs, t: Tables, e: Event): Tables {
    match e
    case Memoized(entity, proposal, account, freshId) =>
      if proposal.None? || Blank(proposal.value.name) then t
      else Created(refs, t, VendorOf(entity, proposal.value, account), freshId).0
    case Resolved(entity, vendor, raw) =>
      if Blank(vendor) then t else Recorded(refs, t, vendor, entity, raw, false)
    case Learned(entity, vendor, raw, account) =>
      if !Learns(refs, t, vendor, account) then t
      else if Blank(raw) then WithAccount(t, vendor, account)
      else Recorded(refs, WithAccount(t, vendor, account), vendor, entity, raw, true)
  }

  function Run(refs: Refs, events: seq<Event>): Tables {
    if events == [] then Tables(map[], map[], map[])
    else Next(refs, Run(refs, events[..|events| - 1]), events[|events| - 1])
  }

  /** Every vendor belongs to a stored entity and has a stored account or none, and every alias belongs to a
      stored vendor and entity. */
  predicate ReferencesHold(refs: Refs, t: Tables) {
    && (forall id :: id in t.vendors ==>
          && t.vendors[id].entity in refs.entities
          && (t.vendors[id].account != "" ==> t.vendors[id].account in refs.accounts))
    && (forall key :: key in t.aliases ==> t.aliases[key].vendor in t.vendors && key.0 in refs.entities && key.1 != "")
  }

  lemma CreatedKeepsReferences(refs: Refs, t: Tables, v: Vendor, freshId: string)
    requires ReferencesHold(refs, t)
    ensures ReferencesHold(refs, Created(refs, t, v, freshId).0)
  {
  }

  lemma RecordedKeepsReferences(refs: Refs, t: Tables, vendor: string, entity: string, raw: string, confirmed: bool)
    requires ReferencesHold(refs, t)
    ensures ReferencesHold(refs, Recorded(refs, t, vendor, entity, raw, confirmed))
  {
  }

  /** After any run of writes every reference leads somewhere. */
  lemma {:induction false} EveryReferenceHolds(refs: Refs, events: seq<Event>)
    ensures ReferencesHold(refs, Run(refs, events))
  {
    if events != [] {
      var t, e := Run(refs, events[..|events| - 1]), events[|events| - 1];
      EveryReferenceHolds(refs, events[..|events| - 1]);
      match e
      case Memoized(entity, proposal, account, freshId) =>
        if proposal.Some? && !Blank(proposal.value.name) {
          CreatedKeepsReferences(refs, t, VendorOf(entity, proposal.value, account), freshId);
        }
      case Resolved(entity, vendor, raw) => RecordedKeepsReferences(refs, t, vendor, entity, raw, false);
      case Learned(entity, vendor, raw, account) =>
        if Learns(refs, t, vendor, account) {
          assert ReferencesHold(refs, WithAccount(t, vendor, account));
          RecordedKeepsReferences(refs, WithAccount(t, vendor, account), vendor, entity, raw, true);
        }
    }
  }
}
