/** How much AI work a run of the batch protocol can take: ranks summed over all receipts. */
module BatchProgress {
  import opened ReceiptStages
  import opened BatchProtocol
  import opened BatchRuns
  import opened Sums

  function RankBy(rows: map<string, Row>): string -> int {
    r => if r in rows then StageRank(rows[r].stage) else 0
  }

  /** The AI stages that may still lie ahead of all receipts together. */
  ghost function TotalRank(rows: map<string, Row>): int {
    SumSet(RankBy(rows), rows.Keys)
  }

  lemma {:induction false} SumDrops(f: string -> int, g: string -> int, s: set<string>, t: set<string>)
    requires t <= s && forall x :: x in s ==> g(x) <= f(x) - if x in t then 1 else 0
    ensures SumSet(g, s) <= SumSet(f, s) - |t|
    decreases s
  {
    if s != {} {
      var x :| x in s;
      SumRemove(f, s, x);
      SumRemove(g, s, x);
      SumDrops(f, g, s - {x}, t - {x});
    }
  }

  lemma {:induction false} RanksAreNatural(rows: map<string, Row>, s: set<string>)
    ensures SumSet(RankBy(rows), s) >= 0
    decreases s
  {
    if s != {} {
      var x :| x in s;
      SumRemove(RankBy(rows), s, x);
      RanksAreNatural(rows, s - {x});
    }
  }

  lemma {:induction false} RefsCount(items: seq<JobItem>)
    requires DistinctRefs(items)
    ensures |Refs(items)| == |items|
  {
    if items == [] {
      assert Refs(items) == {};
    } else {
      var init, last := items[..|items| - 1], items[|items| - 1];
      RefsCount(init);
      assert items == init + [last];
      RefsOfConcat(init, [last]);
      assert Refs([last]) == {last.ref} by {
        assert [last][0].ref == last.ref;
      }
      assert last.ref !in Refs(init);
    }
  }

  predicate ServedCollection(e: Event) {
    e.CollectEvent? && e.poll.Results?
  }

  /** The items whose results an event applies. */
  function ItemsApplied(s: State, e: Event): nat {
    if ServedCollection(e) && e.id in s.jobs then |s.jobs[e.id].items| else 0
  }

  /** Rows that lost a rank each, and others that gained none. */
  lemma RanksDrop(rows: map<string, Row>, rows': map<string, Row>, lost: set<string>)
    requires rows'.Keys == rows.Keys && lost <= rows.Keys
    requires forall r :: r in rows ==>
      StageRank(rows'[r].stage) <= StageRank(rows[r].stage) - if r in lost then 1 else 0
    ensures TotalRank(rows') <= TotalRank(rows) - |lost|
  {
    SumDrops(RankBy(rows), RankBy(rows'), rows.Keys, lost);
  }

  lemma OneMoreRank(rows: map<string, Row>, receipt: string, row: Row)
    requires receipt !in rows
    ensures TotalRank(rows[receipt := row]) == TotalRank(rows) + StageRank(row.stage)
    ensures |rows[receipt := row]| == |rows| + 1
  {
    var rows' := rows[receipt := row];
    assert rows'.Keys == rows.Keys + {receipt};
    assert rows'.Keys - {receipt} == rows.Keys;
    SumRemove(RankBy(rows'), rows'.Keys, receipt);
    SumSame(RankBy(rows), RankBy(rows'), rows.Keys);
  }

  lemma SameReceipts(w: World, s: State, e: Event)
    requires Enabled(s, e) && !e.EnterEvent?
    ensures Next(w, s, e).rows.Keys == s.rows.Keys
  {
  }

  lemma AppliedRank(w: World, s: State, id: nat, results: seq<BatchResult>, r: string)
    requires Inv(w, s) && id in s.jobs && s.jobs[id].status == Submitted && r in s.rows
    requires Covers(s.jobs[id], results) && DistinctResults(results)
    ensures StageRank(ApplyRows(w, s.jobs[id], s.rows, results)[r].stage)
            <= StageRank(s.rows[r].stage) - if r in Refs(s.jobs[id].items) then 1 else 0
  {
    ApplyMovesItsReceipts(w, s, id, results, r);
  }

  lemma HeldReceipts(w: World, s: State, id: nat)
    requires Inv(w, s) && id in s.jobs && Live(s.jobs[id])
    ensures Refs(s.jobs[id].items) <= s.rows.Keys && |Refs(s.jobs[id].items)| == |s.jobs[id].items|
  {
    assert JobOk(w, s.rows, s.jobs[id]);
    LiveJobHolds(w, s, id);
    RefsCount(s.jobs[id].items);
  }

  /** Collecting a served batch takes at least one rank off every one of its receipts. */
  lemma CollectionDrops(w: World, s: State, id: nat, results: seq<BatchResult>)
    requires Inv(w, s) && id in s.jobs && s.jobs[id].status == Submitted
    requires Covers(s.jobs[id], results) && DistinctResults(results)
    ensures TotalRank(ApplyRows(w, s.jobs[id], s.rows, results)) <= TotalRank(s.rows) - |s.jobs[id].items|
  {
    var job, rows' := s.jobs[id], ApplyRows(w, s.jobs[id], s.rows, results);
    HeldReceipts(w, s, id);
    forall r | r in s.rows
      ensures StageRank(rows'[r].stage) <= StageRank(s.rows[r].stage) - if r in Refs(job.items) then 1 else 0
    {
      AppliedRank(w, s, id, results, r);
    }
    RanksDrop(s.rows, rows', Refs(job.items));
  }

  lemma OtherStepsKeepRank(w: World, s: State, e: Event)
    requires Inv(w, s) && Enabled(s, e) && Served(s, e) && !e.EnterEvent?
    ensures TotalRank(Next(w, s, e).rows) <= TotalRank(s.rows)
  {
    var rows' := Next(w, s, e).rows;
    SameReceipts(w, s, e);
    forall r | r in s.rows ensures StageRank(rows'[r].stage) <= StageRank(s.rows[r].stage) {
      StepMovesForward(w, s, e, r);
    }
    RanksDrop(s.rows, rows', {});
  }

  lemma ServedRows(w: World, s: State, e: Event)
    requires AllRegistered(w) && Enabled(s, e) && ServedCollection(e)
    ensures Next(w, s, e).rows == ApplyRows(w, s.jobs[e.id], s.rows, e.poll.results)
    ensures ItemsApplied(s, e) == |s.jobs[e.id].items|
  {
  }

  lemma CollectionPays(w: World, s: State, e: Event)
    requires Inv(w, s) && AllRegistered(w) && Enabled(s, e) && Served(s, e) && ServedCollection(e)
    ensures ItemsApplied(s, e) + TotalRank(Next(w, s, e).rows) <= TotalRank(s.rows)
  {
    ServedRows(w, s, e);
    CollectionDrops(w, s, e.id, e.poll.results);
  }

  lemma EnterPays(s: State, receipt: string)
    ensures TotalRank(Enter(s, receipt).rows) - TotalRank(s.rows) <= 3 * (|Enter(s, receipt).rows| - |s.rows|)
  {
    if receipt !in s.rows {
      OneMoreRank(s.rows, receipt, NEW_ROW);
    }
  }

  /** Every step pays for the results it applies. */
  lemma StepPays(w: World, s: State, e: Event)
    requires Inv(w, s) && AllRegistered(w) && Enabled(s, e) && Served(s, e)
    ensures ItemsApplied(s, e) + TotalRank(Next(w, s, e).rows) - TotalRank(s.rows)
            <= 3 * (|Next(w, s, e).rows| - |s.rows|)
  {
    if e.EnterEvent? {
      EnterPays(s, e.receipt);
    } else {
      SameReceipts(w, s, e);
      SameSize(s.rows, Next(w, s, e).rows);
      if ServedCollection(e) {
        CollectionPays(w, s, e);
      } else {
        OtherStepsKeepRank(w, s, e);
      }
    }
  }

  lemma SameSize(rows: map<string, Row>, rows': map<string, Row>)
    requires rows.Keys == rows'.Keys
    ensures |rows| == |rows'|
  {
    assert |rows| == |rows.Keys| && |rows'| == |rows'.Keys|;
  }

  // ---- Whole runs ----

  function AllApplied(trace: seq<State>, events: seq<Event>, n: nat): nat
    requires n <= |events| && n <= |trace|
  {
    if n == 0 then 0 else AllApplied(trace, events, n - 1) + ItemsApplied(trace[n - 1], events[n - 1])
  }

  function Collections(events: seq<Event>, n: nat): nat
    requires n <= |events|
  {
    if n == 0 then 0 else Collections(events, n - 1) + if ServedCollection(events[n - 1]) then 1 else 0
  }

  /** The results applied so far and the ranks still ahead never exceed three per receipt. */
  lemma {:induction false} WorkIsBounded(w: World, trace: seq<State>, events: seq<Event>, n: nat)
    requires Run(w, trace, events) && n < |trace|
    ensures AllApplied(trace, events, n) + TotalRank(trace[n].rows) <= 3 * |trace[n].rows|
  {
    if n == 0 {
      assert TotalRank(map[]) == 0;
    } else {
      WorkIsBounded(w, trace, events, n - 1);
      NeverStranded(w, trace, events, n - 1);
      StepPays(w, trace[n - 1], events[n - 1]);
    }
  }

  lemma {:induction false} CollectionsApplySomething(w: World, trace: seq<State>, events: seq<Event>, n: nat)
    requires Run(w, trace, events) && n < |trace|
    ensures Collections(events, n) <= AllApplied(trace, events, n)
  {
    if n > 0 {
      CollectionsApplySomething(w, trace, events, n - 1);
      NeverStranded(w, trace, events, n - 1);
      assert Enabled(trace[n - 1], events[n - 1]);
      if ServedCollection(events[n - 1]) {
        assert JobOk(w, trace[n - 1].rows, trace[n - 1].jobs[events[n - 1].id]);
      }
    }
  }

  /** So a run collects results at most three times per receipt, however many batches fail in between. */
  lemma CollectionsAreFew(w: World, trace: seq<State>, events: seq<Event>, n: nat)
    requires Run(w, trace, events) && n < |trace|
    ensures Collections(events, n) <= 3 * |trace[n].rows|
  {
    CollectionsApplySomething(w, trace, events, n);
    WorkIsBounded(w, trace, events, n);
    RanksAreNatural(trace[n].rows, trace[n].rows.Keys);
  }
}
