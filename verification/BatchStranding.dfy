/** When the batch protocol strands a receipt: over all runs, whatever kinds are registered and whatever the
    provider answers. */
module BatchStranding {
  import opened ReceiptStages
  import opened BatchProtocol
  import opened BatchRuns

  /** In flight, and no job that is still under way holds it. */
  ghost predicate Stranded(s: State, r: string) {
    r in s.rows && s.rows[r].status == InFlight && forall id :: !Holds(s, id, r)
  }

  ghost predicate AllSafe(w: World, trace: seq<State>, events: seq<Event>, n: nat)
    requires Steps(w, trace, events) && n < |trace|
  {
    forall i :: 0 <= i < n ==> Safe(w, trace[i], events[i])
  }

  // ---- Stranded for good ----

  lemma {:induction false} RoutedIntoItems(items: seq<JobItem>, customId: string)
    ensures var to := RefOf(items, customId); to.Some? ==> to.value in Refs(items)
  {
    if items != [] && items[|items| - 1].customId != customId {
      RoutedIntoItems(items[..|items| - 1], customId);
    }
  }

  /** Results leave a receipt alone that the job does not list. */
  lemma {:induction false} FoldPassesOver(w: World, job: Job, r: string, row: Row, results: seq<BatchResult>)
    requires r !in Refs(job.items)
    ensures FoldRow(w, job, r, row, results) == row
  {
    if results != [] {
      FoldPassesOver(w, job, r, row, results[..|results| - 1]);
      RoutedIntoItems(job.items, results[|results| - 1].customId);
    }
  }

  lemma CollectPassesOver(w: World, s: State, id: nat, poll: Poll, r: string)
    requires Stranded(s, r) && id in s.jobs && s.jobs[id].status == Submitted
    ensures Stranded(CollectJob(w, s, id, poll), r) && CollectJob(w, s, id, poll).rows[r] == s.rows[r]
  {
    assert !Holds(s, id, r);
    if poll.Results? {
      FoldPassesOver(w, s.jobs[id], r, s.rows[r], poll.results);
    }
    var s' := CollectJob(w, s, id, poll);
    assert forall j :: Holds(s', j, r) ==> Holds(s, j, r);
  }

  lemma GatherPassesOver(w: World, s: State, k: Kind, picked: seq<string>, id: nat, r: string)
    requires Stranded(s, r) && Claimable(s.rows, StageOf(k), picked) && id !in s.jobs
    ensures Stranded(Gather(w, s, k, picked, id), r) && Gather(w, s, k, picked, id).rows[r] == s.rows[r]
  {
    RequestsFit(w, s.rows, k, picked);
    var s' := Gather(w, s, k, picked, id);
    assert r !in Refs(Requests(w, s.rows, k, picked));
    assert forall j :: Holds(s', j, r) ==> Holds(s, j, r);
  }

  /** No step frees a stranded receipt, or changes its row. */
  lemma {:induction false} StepPassesOver(w: World, s: State, e: Event, r: string)
    requires Stranded(s, r) && Enabled(s, e)
    ensures Stranded(Next(w, s, e), r) && Next(w, s, e).rows[r] == s.rows[r]
  {
    match e
    case EnterEvent(q) => assert forall j :: Holds(Enter(s, q), j, r) ==> Holds(s, j, r);
    case GatherEvent(k, picked, id) => GatherPassesOver(w, s, k, picked, id, r);
    case CollectEvent(id, poll) => CollectPassesOver(w, s, id, poll, r);
    case SendEvent(id, accepted, recorded, at) =>
      assert !Holds(s, id, r);
      assert forall j :: Holds(Send(s, id, accepted, recorded, at), j, r) ==> Holds(s, j, r);
    case ResetStuckEvent(id, _) =>
      assert !Holds(s, id, r);
      assert forall j :: Holds(ResetStuckJob(w, s, id), j, r) ==> Holds(s, j, r);
  }

  /** Once stranded, a receipt stays in flight in the same row for good. */
  lemma {:induction false} StrandedForGood(w: World, trace: seq<State>, events: seq<Event>, m: nat, n: nat, r: string)
    requires Steps(w, trace, events) && m <= n < |trace| && Stranded(trace[m], r)
    ensures Stranded(trace[n], r) && trace[n].rows[r] == trace[m].rows[r]
    decreases n
  {
    if m < n {
      StrandedForGood(w, trace, events, m, n - 1, r);
      StepPassesOver(w, trace[n - 1], events[n - 1], r);
    }
  }

  // ---- Exactly when ----

  /** Ending a job without releasing one of its receipts strands it. */
  lemma EndingStrands(w: World, s: State, s': State, id: nat, r: string)
    requires Inv(w, s) && Holds(s, id, r)
    requires r in s'.rows && s'.rows[r] == s.rows[r]
    requires id in s'.jobs && s'.jobs == s.jobs[id := s'.jobs[id]] && !Live(s'.jobs[id])
    ensures Stranded(s', r)
  {
    HeldIsInFlight(w, s, id, r);
    forall j ensures !Holds(s', j, r) {
      if Holds(s', j, r) {
        assert Holds(s, j, r);
      }
    }
  }

  /** Some receipt of the job has no result, and its row stays as it is. */
  lemma UnansweredRow(w: World, rows: map<string, Row>, job: Job, results: seq<BatchResult>) returns (r: string)
    requires JobOk(w, rows, job) && !Covers(job, results)
    ensures r in Refs(job.items) && (r in rows ==> FoldRow(w, job, r, rows[r], results) == rows[r])
  {
    CoversIsEveryRef(w, rows, job, results);
    r :| r in Refs(job.items) && !Answers(results, CustomId(job.kind, r));
    if r in rows {
      FoldReleases(w, rows, job, r, rows[r], results);
    }
  }

  lemma UnansweredStrands(w: World, s: State, id: nat, results: seq<BatchResult>) returns (r: string)
    requires Inv(w, s) && id in s.jobs && s.jobs[id].status == Submitted && s.jobs[id].kind in w.registered
    requires !Covers(s.jobs[id], results)
    ensures Stranded(CollectJob(w, s, id, Results(results)), r)
  {
    r := UnansweredRow(w, s.rows, s.jobs[id], results);
    assert Holds(s, id, r);
    HeldIsInFlight(w, s, id, r);
    EndingStrands(w, s, CollectJob(w, s, id, Results(results)), id, r);
  }

  /** An unsafe step strands somebody. */
  lemma {:induction false} UnsafeStrands(w: World, s: State, e: Event) returns (r: string)
    requires Inv(w, s) && Enabled(s, e) && !Safe(w, s, e)
    ensures Stranded(Next(w, s, e), r)
  {
    var job := s.jobs[e.id];
    if job.kind in w.registered {
      r := UnansweredStrands(w, s, e.id, e.poll.results);
    } else {
      LiveJobHolds(w, s, e.id);
      r :| r in Refs(job.items);
      assert Holds(s, e.id, r);
      EndingStrands(w, s, Next(w, s, e), e.id, r);
    }
  }

  /** Over every run: as long as each collection and reset was safe nobody is stranded, and from the first
      that was not, somebody is for good. */
  lemma {:induction false} StrandedExactlyWhen(w: World, trace: seq<State>, events: seq<Event>, n: nat)
    requires Steps(w, trace, events) && n < |trace|
    ensures Inv(w, trace[n]) <==> AllSafe(w, trace, events, n)
    ensures (exists r :: Stranded(trace[n], r)) <==> !AllSafe(w, trace, events, n)
  {
    SafeKeepsAll(w, trace, events, n);
    if !AllSafe(w, trace, events, n) {
      var r := SomebodyStranded(w, trace, events, n);
    }
  }

  lemma {:induction false} SafeKeepsAll(w: World, trace: seq<State>, events: seq<Event>, n: nat)
    requires Steps(w, trace, events) && n < |trace|
    ensures AllSafe(w, trace, events, n) ==> Inv(w, trace[n])
  {
    if n > 0 && AllSafe(w, trace, events, n) {
      assert AllSafe(w, trace, events, n - 1);
      SafeKeepsAll(w, trace, events, n - 1);
      NextKeepsInv(w, trace[n - 1], events[n - 1]);
    }
  }

  lemma {:induction false} SomebodyStranded(w: World, trace: seq<State>, events: seq<Event>, n: nat)
    returns (r: string)
    requires Steps(w, trace, events) && n < |trace| && !AllSafe(w, trace, events, n)
    ensures Stranded(trace[n], r) && !Inv(w, trace[n])
  {
    if AllSafe(w, trace, events, n - 1) {
      SafeKeepsAll(w, trace, events, n - 1);
      r := UnsafeStrands(w, trace[n - 1], events[n - 1]);
    } else {
      r := SomebodyStranded(w, trace, events, n - 1);
      StepPassesOver(w, trace[n - 1], events[n - 1], r);
    }
  }
}
