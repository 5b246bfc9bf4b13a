/** The vendor ranking of an import summary: an in-place exchange sort of the per-vendor totals. */
module TopVendors {
  import opened Importer
  import opened Int64
  import opened Sorting
  import opened Sums
  import opened Text

  datatype Stat = Stat(name: string, count: nat, total: int64)

  /** The test that makes the sort exchange two entries. */
  predicate Ahead(a: Stat, b: Stat) {
    || a.total > b.total
    || (a.total == b.total && a.count > b.count)
    || (a.total == b.total && a.count == b.count && a.name != b.name && StringLe(a.name, b.name))
  }

  /** a may stand before b: larger total, then larger count, then smaller name. */
  predicate Ranks(a: Stat, b: Stat) {
    !Ahead(b, a)
  }

  lemma RanksIsTotal()
    ensures TotalOrder(Ranks)
  {
    StringOrder();
  }

  /** The first i entries are in order, and none of the others belongs before one of them. */
  ghost predicate Placed(s: seq<Stat>, i: int) {
    forall p, q :: 0 <= p < i && p < q < |s| ==> Ranks(s[p], s[q])
  }

  /** Entry i belongs before every entry between i and j. */
  ghost predicate Leads(s: seq<Stat>, i: int, j: int)
    requires 0 <= i < j <= |s|
  {
    forall k :: i < k < j ==> Ranks(s[i], s[k])
  }

  lemma OneMorePlaced(s: seq<Stat>, i: int)
    requires 0 <= i < |s| && Placed(s, i) && Leads(s, i, |s|)
    ensures Placed(s, i + 1)
  {
    forall p, q | 0 <= p < i + 1 && p < q < |s| ensures Ranks(s[p], s[q]) {
      if p == i {
        assert Ranks(s[i], s[q]);
      }
    }
  }

  function Exchanged(s: seq<Stat>, i: int, j: int): seq<Stat>
    requires 0 <= i < j < |s|
  {
    s[i := s[j]][j := s[i]]
  }

  lemma ExchangeKeepsPlaced(s: seq<Stat>, i: int, j: int)
    requires 0 <= i < j < |s| && Placed(s, i)
    ensures Placed(Exchanged(s, i, j), i)
  {
    var t := Exchanged(s, i, j);
    forall p, q | 0 <= p < i && p < q < |t| ensures Ranks(t[p], t[q]) {
      assert t[p] == s[p];
      assert Ranks(s[p], s[if q == i then j else if q == j then i else q]);
    }
  }

  lemma ExchangeLeads(s: seq<Stat>, i: int, j: int)
    requires 0 <= i < j < |s| && Leads(s, i, j) && Ahead(s[j], s[i])
    ensures Leads(Exchanged(s, i, j), i, j + 1)
  {
    RanksIsTotal();
    var t := Exchanged(s, i, j);
    assert Ranks(s[j], s[i]);
    forall k | i < k < j + 1 ensures Ranks(t[i], t[k]) {
      if k < j {
        assert Ranks(s[i], s[k]) && t[k] == s[k];
      }
    }
  }

  /** The body of the inner loop. */
  method CompareExchange(stats: array<Stat>, i: int, j: int)
    requires 0 <= i < j < stats.Length && Placed(stats[..], i) && Leads(stats[..], i, j)
    modifies stats
    ensures Placed(stats[..], i) && Leads(stats[..], i, j + 1)
    ensures multiset(stats[..]) == multiset(old(stats[..]))
  {
    if Ahead(stats[j], stats[i]) {
      ghost var exchanged := Exchanged(stats[..], i, j);
      ExchangeKeepsPlaced(stats[..], i, j);
      ExchangeLeads(stats[..], i, j);
      stats[i], stats[j] := stats[j], stats[i];
      assert stats[..] == exchanged;
    }
  }

  /** The inner loop brings the best of the remaining entries to position i. */
  method BringForward(stats: array<Stat>, i: int)
    requires 0 <= i < stats.Length && Placed(stats[..], i)
    modifies stats
    ensures Placed(stats[..], i + 1) && multiset(stats[..]) == multiset(old(stats[..]))
  {
    for j := i + 1 to stats.Length
      invariant Placed(stats[..], i) && Leads(stats[..], i, j)
      invariant multiset(stats[..]) == multiset(old(stats[..]))
    {
      CompareExchange(stats, i, j);
    }
    OneMorePlaced(stats[..], i);
  }

  method ExchangeSort(stats: array<Stat>)
    modifies stats
    ensures SortedBy(Ranks, stats[..]) && multiset(stats[..]) == multiset(old(stats[..]))
  {
    for i := 0 to stats.Length
      invariant Placed(stats[..], i) && multiset(stats[..]) == multiset(old(stats[..]))
    {
      BringForward(stats, i);
    }
  }

  function StatOf(vendors: map<string, Aggregate>, name: string): Stat
    requires name in vendors
  {
    Stat(name, vendors[name].count, vendors[name].total)
  }

  function StatsOf(vendors: map<string, Aggregate>, names: set<string>): set<Stat> {
    set name | name in names && name in vendors :: StatOf(vendors, name)
  }

  /** The sequence lists every vendor's statistics once. */
  ghost predicate ListsVendors(vendors: map<string, Aggregate>, stats: seq<Stat>) {
    multiset(stats) == multiset(StatsOf(vendors, vendors.Keys))
  }

  /** A ranking lists them best first. */
  ghost predicate IsRanking(vendors: map<string, Aggregate>, stats: seq<Stat>) {
    SortedBy(Ranks, stats) && ListsVendors(vendors, stats)
  }

  function Top<T>(s: seq<T>): seq<T> {
    if |s| < 3 then s else s[..3]
  }

  lemma StatsOfOneMore(vendors: map<string, Aggregate>, names: set<string>, name: string)
    requires name in vendors && name !in names
    ensures StatOf(vendors, name) !in StatsOf(vendors, names)
    ensures StatsOf(vendors, names + {name}) == StatsOf(vendors, names) + {StatOf(vendors, name)}
  {
    forall x ensures x in StatsOf(vendors, names + {name}) <==> x in StatsOf(vendors, names) + {StatOf(vendors, name)} {
      if x in StatsOf(vendors, names) {
        var n :| n in names && n in vendors && x == StatOf(vendors, n);
        assert n in names + {name};
      } else if x == StatOf(vendors, name) {
        assert name in names + {name};
      }
    }
  }

  /** The statistics in the arbitrary order in which a map is walked. */
  method Gather(vendors: map<string, Aggregate>) returns (stats: seq<Stat>)
    ensures ListsVendors(vendors, stats)
  {
    stats := [];
    var left := vendors.Keys;
    while left != {}
      invariant left <= vendors.Keys
      invariant multiset(stats) == multiset(StatsOf(vendors, vendors.Keys - left))
    {
      var name :| name in left;
      StatsOfOneMore(vendors, vendors.Keys - left, name);
      assert vendors.Keys - (left - {name}) == (vendors.Keys - left) + {name};
      stats := stats + [StatOf(vendors, name)];
      left := left - {name};
    }
    assert vendors.Keys - left == vendors.Keys;
  }

  method RankVendors(vendors: map<string, Aggregate>) returns (topVendor: string, top: seq<Stat>)
    ensures exists stats: seq<Stat> :: IsRanking(vendors, stats) && top == Top(stats)
                            && topVendor == if stats == [] then "" else stats[0].name
  {
    var gathered := Gather(vendors);
    var stats := new Stat[|gathered|](i requires 0 <= i < |gathered| => gathered[i]);
    assert stats[..] == gathered;
    ExchangeSort(stats);
    top := [];
    for i := 0 to stats.Length
      invariant top == Top(stats[..i])
    {
      if i < 3 {
        top := top + [stats[i]];
      }
    }
    assert stats[..stats.Length] == stats[..];
    assert IsRanking(vendors, stats[..]);
    topVendor := if stats.Length == 0 then "" else stats[0].name;
  }

  /** There is only one ranking: the walk order of the map and the exchanges made do not matter. */
  lemma RankingIsUnique(vendors: map<string, Aggregate>, s: seq<Stat>, t: seq<Stat>)
    requires IsRanking(vendors, s) && IsRanking(vendors, t)
    ensures s == t
  {
    RanksIsTotal();
    SortedUnique(Ranks, s, t);
  }

  /** A vendor is among the top three or behind all of them. */
  lemma LeftOutRankBehind(vendors: map<string, Aggregate>, stats: seq<Stat>, name: string)
    requires IsRanking(vendors, stats) && name in vendors
    ensures StatOf(vendors, name) in Top(stats)
            || (|Top(stats)| == 3 && forall i :: 0 <= i < 3 ==> Ranks(stats[i], StatOf(vendors, name)))
  {
    var stat := StatOf(vendors, name);
    assert stat in multiset(StatsOf(vendors, vendors.Keys));
    assert stat in multiset(stats);
    var k :| 0 <= k < |stats| && stats[k] == stat;
    if k < 3 {
      assert Top(stats)[k] == stat;
    }
  }

  // ---- The totals add up ----

  function TotalOf(): Stat -> int {
    (s: Stat) => s.total
  }

  function TotalBy(vendors: map<string, Aggregate>): string -> int {
    name => if name in vendors then vendors[name].total else 0
  }

  function ExactBy(rows: seq<Row>): string -> int {
    name => VendorSum(rows, name)
  }

  lemma {:induction false} SumOverNames(vendors: map<string, Aggregate>, names: set<string>)
    requires names <= vendors.Keys
    ensures SumSet(TotalOf(), StatsOf(vendors, names)) == SumSet(TotalBy(vendors), names)
    decreases names
  {
    if names == {} {
      assert StatsOf(vendors, names) == {};
    } else {
      var name :| name in names;
      var rest := names - {name};
      StatsOfOneMore(vendors, rest, name);
      assert rest + {name} == names;
      SumRemove(TotalBy(vendors), names, name);
      SumRemove(TotalOf(), StatsOf(vendors, names), StatOf(vendors, name));
      assert StatsOf(vendors, names) - {StatOf(vendors, name)} == StatsOf(vendors, rest);
      SumOverNames(vendors, rest);
    }
  }

  /** Wrapping the addends moves a sum by whole turns. */
  lemma {:induction false} SumOfWrapped(f: string -> int, g: string -> int, names: set<string>) returns (k: int)
    requires forall x :: x in names ==> f(x) == Wrap(g(x))
    ensures SumSet(f, names) == SumSet(g, names) + k * MODULUS
    decreases names
  {
    if names == {} {
      k := 0;
    } else {
      var x :| x in names;
      SumRemove(f, names, x);
      SumRemove(g, names, x);
      var turns := WrapTurns(g(x));
      var rest := SumOfWrapped(f, g, names - {x});
      k := turns + rest;
    }
  }

  /** Every kept row counts for exactly one vendor and in exactly one direction. */
  lemma {:induction false} RowsAddUp(rows: seq<Row>, names: set<string>)
    requires forall i :: 0 <= i < |rows| ==> rows[i].vendor in names
    ensures SumSet(ExactBy(rows), names) == FlowSum(rows, true) + FlowSum(rows, false)
  {
    if rows == [] {
      SumRestrict(ExactBy(rows), names, {});
    } else {
      var init, last := rows[..|rows| - 1], rows[|rows| - 1];
      RowsAddUp(init, names);
      SumBump(ExactBy(init), ExactBy(rows), names, last.vendor, last.amount);
    }
  }

  lemma WrapSumOfWrapped(x: int, y: int)
    ensures Wrap(Wrap(x) + Wrap(y)) == Wrap(x + y)
  {
    WrapAdd(x, Wrap(y));
    WrapAdd(y, x);
  }

  lemma AllVendorsNamed(s: Summary)
    requires VendorsOk(s)
    ensures forall i :: 0 <= i < |s.rows| ==> s.rows[i].vendor in s.vendors.Keys
  {
    forall i | 0 <= i < |s.rows| ensures s.rows[i].vendor in s.vendors.Keys {
      assert HasVendor(s.rows, s.rows[i].vendor);
    }
  }

  lemma WrappedTotals(s: Summary) returns (k: int)
    requires VendorsOk(s)
    ensures SumSet(TotalBy(s.vendors), s.vendors.Keys) == SumSet(ExactBy(s.rows), s.vendors.Keys) + k * MODULUS
  {
    k := SumOfWrapped(TotalBy(s.vendors), ExactBy(s.rows), s.vendors.Keys);
  }

  lemma ExactTotals(s: Summary)
    requires VendorsOk(s)
    ensures SumSet(ExactBy(s.rows), s.vendors.Keys) == FlowSum(s.rows, true) + FlowSum(s.rows, false)
  {
    AllVendorsNamed(s);
    RowsAddUp(s.rows, s.vendors.Keys);
  }

  lemma VendorTotals(s: Summary)
    requires VendorsOk(s)
    ensures Wrap(SumSet(TotalBy(s.vendors), s.vendors.Keys)) == Wrap(FlowSum(s.rows, true) + FlowSum(s.rows, false))
  {
    var total, exact := SumSet(TotalBy(s.vendors), s.vendors.Keys), FlowSum(s.rows, true) + FlowSum(s.rows, false);
    var k := WrappedTotals(s);
    ExactTotals(s);
    assert total == exact + k * MODULUS;
    WrapCongruent(total, exact, k);
  }

  lemma ListedSum(vendors: map<string, Aggregate>, stats: seq<Stat>)
    requires ListsVendors(vendors, stats)
    ensures SumSeq(TotalOf(), stats) == SumSet(TotalBy(vendors), vendors.Keys)
  {
    SumOverNames(vendors, vendors.Keys);
    SumOfTwoSets(TotalOf(), stats, StatsOf(vendors, vendors.Keys), {});
  }

  lemma WrapTogether(total: int, x: int, y: int, outflow: int64, inflow: int64)
    requires Wrap(total) == Wrap(x + y) && outflow == Wrap(y) && inflow == Wrap(x)
    ensures Wrap(total) == Wrap(outflow + inflow)
  {
    WrapSumOfWrapped(y, x);
    assert y + x == x + y;
  }

  ghost predicate FlowsOk(s: Summary) {
    s.inflow == Wrap(FlowSum(s.rows, true)) && s.outflow == Wrap(FlowSum(s.rows, false))
  }

  lemma FlowsAndVendors(d: Decoders, cols: Columns, records: seq<seq<string>>)
    ensures VendorsOk(Absorbed(d, cols, records)) && FlowsOk(Absorbed(d, cols, records))
  {
    SummaryIsRight(d, cols, records);
  }

  lemma ListedFlow(s: Summary, stats: seq<Stat>)
    requires VendorsOk(s) && ListsVendors(s.vendors, stats)
    ensures Wrap(SumSeq(TotalOf(), stats)) == Wrap(FlowSum(s.rows, true) + FlowSum(s.rows, false))
  {
    ListedSum(s.vendors, stats);
    VendorTotals(s);
  }

  lemma FlowTotal(s: Summary, total: int)
    requires FlowsOk(s) && Wrap(total) == Wrap(FlowSum(s.rows, true) + FlowSum(s.rows, false))
    ensures Wrap(total) == Wrap(s.outflow + s.inflow)
  {
    WrapTogether(total, FlowSum(s.rows, true), FlowSum(s.rows, false), s.outflow, s.inflow);
  }

  lemma ListedTotals(s: Summary, stats: seq<Stat>)
    requires VendorsOk(s) && FlowsOk(s) && ListsVendors(s.vendors, stats)
    ensures Wrap(SumSeq(TotalOf(), stats)) == Wrap(s.outflow + s.inflow)
  {
    ListedFlow(s, stats);
    FlowTotal(s, SumSeq(TotalOf(), stats));
  }

  /** The totals that are fed to the ranking sum to the summary's total cents, in int64 arithmetic. */
  lemma RankedTotalsAddUp(d: Decoders, cols: Columns, records: seq<seq<string>>, s: Summary, stats: seq<Stat>)
    requires s == Absorbed(d, cols, records) && ListsVendors(s.vendors, stats)
    ensures Wrap(SumSeq(TotalOf(), stats)) == Wrap(s.outflow + s.inflow)
  {
    FlowsAndVendors(d, cols, records);
    ListedTotals(s, stats);
  }
}
