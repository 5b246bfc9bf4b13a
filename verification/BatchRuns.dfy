/** Whole runs of the batch protocol: safety, progress, and agreement with the sequential pipeline. */
module BatchRuns {
  import opened Wrappers
  import opened Pipeline
  import opened ReceiptStages
  import opened BatchProtocol

  /** One step of one of the scheduled tasks. Gather and Send are the two halves of a submission; Collect
      and ResetStuck treat one job of their pass. */
  datatype Event =
    | EnterEvent(receipt: string)
    | GatherEvent(kind: Kind, picked: seq<string>, id: nat)
    | SendEvent(id: nat, accepted: bool, recorded: bool, at: int)
    | CollectEvent(id: nat, poll: Poll)
    | ResetStuckEvent(id: nat, olderThan: int)

  ghost predicate Enabled(s: State, e: Event) {
    match e
    case EnterEvent(_) => true
    case GatherEvent(k, picked, id) => Claimable(s.rows, StageOf(k), picked) && id !in s.jobs
    case SendEvent(id, _, _, _) => id in s.jobs && s.jobs[id].status == Preparing
    case CollectEvent(id, _) => id in s.jobs && s.jobs[id].status == Submitted
    case ResetStuckEvent(id, olderThan) =>
      id in s.jobs && s.jobs[id].status == Submitted && s.jobs[id].submittedAt < olderThan
  }

  ghost function Next(w: World, s: State, e: Event): State
    requires Enabled(s, e)
  {
    match e
    case EnterEvent(r) => Enter(s, r)
    case GatherEvent(k, picked, id) => Gather(w, s, k, picked, id)
    case SendEvent(id, accepted, recorded, at) => Send(s, id, accepted, recorded, at)
    case CollectEvent(id, poll) => CollectJob(w, s, id, poll)
    case ResetStuckEvent(id, _) => ResetStuckJob(w, s, id)
  }

  /** A completed batch returns one result per item. */
  ghost predicate Served(s: State, e: Event) {
    e.CollectEvent? && e.poll.Results? && e.id in s.jobs ==>
      Covers(s.jobs[e.id], e.poll.results) && DistinctResults(e.poll.results)
  }

  ghost predicate AllRegistered(w: World) {
    forall k :: k in w.registered
  }

  /** Any steps at all, from the empty tables. */
  ghost predicate Steps(w: World, trace: seq<State>, events: seq<Event>) {
    && |trace| == |events| + 1
    && trace[0] == State(map[], map[])
    && forall i :: 0 <= i < |events| ==> Enabled(trace[i], events[i]) && trace[i + 1] == Next(w, trace[i], events[i])
  }

  /** A run: every kind is registered and the provider answers every item of a batch that it completes. Any
      batch may fail, expire or be rejected any number of times. */
  ghost predicate Run(w: World, trace: seq<State>, events: seq<Event>) {
    && Steps(w, trace, events)
    && AllRegistered(w)
    && forall i :: 0 <= i < |events| ==> Served(trace[i], events[i])
  }

  /** What collecting and resetting ask for: the job's kind is registered if the batch is over, and a
      completed batch returned a result for every item. */
  ghost predicate Safe(w: World, s: State, e: Event)
    requires Enabled(s, e)
  {
    match e
    case CollectEvent(id, poll) =>
      && (Terminal(poll) ==> s.jobs[id].kind in w.registered)
      && (poll.Results? ==> Covers(s.jobs[id], poll.results))
    case ResetStuckEvent(id, _) => s.jobs[id].kind in w.registered
    case _ => true
  }

  lemma {:induction false} NextKeepsInv(w: World, s: State, e: Event)
    requires Inv(w, s) && Enabled(s, e) && Safe(w, s, e)
    ensures Inv(w, Next(w, s, e))
  {
    match e
    case EnterEvent(r) => EnterKeepsInv(w, s, r);
    case GatherEvent(k, picked, id) => GatherKeepsInv(w, s, k, picked, id);
    case SendEvent(id, accepted, recorded, at) => SendKeepsInv(w, s, id, accepted, recorded, at);
    case CollectEvent(id, poll) => CollectKeepsInvIff(w, s, id, poll);
    case ResetStuckEvent(id, _) => ResetStuckKeepsInvIff(w, s, id);
  }

  /** No receipt is ever stranded or held twice: in every state of every run, a receipt is in flight
      exactly when one live job holds it, and every live job fits the receipts it holds. */
  lemma {:induction false} NeverStranded(w: World, trace: seq<State>, events: seq<Event>, n: nat)
    requires Run(w, trace, events) && n < |trace|
    ensures Inv(w, trace[n])
  {
    if n > 0 {
      NeverStranded(w, trace, events, n - 1);
      NextKeepsInv(w, trace[n - 1], events[n - 1]);
    }
  }

  /** The kind of the job that holds a receipt is always the one for the receipt's stage. */
  lemma HeldAtItsStage(w: World, s: State, id: nat, r: string)
    requires Inv(w, s) && Holds(s, id, r)
    ensures r in s.rows && KindForStage(s.rows[r].stage) == Some(s.jobs[id].kind)
  {
    HeldIsInFlight(w, s, id, r);
  }

  /** With no submission under way, that one job is a submitted one. */
  lemma AtRest(w: World, trace: seq<State>, events: seq<Event>, n: nat, r: string)
    requires Run(w, trace, events) && n < |trace| && r in trace[n].rows
    requires forall id :: id in trace[n].jobs ==> trace[n].jobs[id].status != Preparing
    ensures trace[n].rows[r].status == InFlight <==>
            exists id :: id in trace[n].jobs && trace[n].jobs[id].status == Submitted
                && r in Refs(trace[n].jobs[id].items)
  {
    NeverStranded(w, trace, events, n);
    forall id ensures Holds(trace[n], id, r) <==>
                      id in trace[n].jobs && trace[n].jobs[id].status == Submitted
                          && r in Refs(trace[n].jobs[id].items) {}
  }

  // ---- Progress ----

  /** With at most one result for the receipt, applying a job's results is applying that result. */
  lemma {:induction false} FoldOnce(w: World, rows: map<string, Row>, job: Job, r: string, row: Row,
      results: seq<BatchResult>)
    returns (i: int)
    requires JobOk(w, rows, job) && r in Refs(job.items) && DistinctResults(results)
    ensures -1 <= i < |results|
    ensures if i < 0 then !Answers(results, CustomId(job.kind, r)) && FoldRow(w, job, r, row, results) == row
            else results[i].customId == CustomId(job.kind, r)
                 && FoldRow(w, job, r, row, results)
                      == ApplyRow(w, r, row, job.kind, results[i].output, results[i].error)
  {
    i := -1;
    if results != [] {
      var init, last := results[..|results| - 1], results[|results| - 1];
      i := FoldOnce(w, rows, job, r, row, init);
      Routing(w, rows, job, last.customId);
      AnswersSnoc(results, CustomId(job.kind, r));
      if last.customId == CustomId(job.kind, r) {
        assert i < 0;
        i := |results| - 1;
      }
    }
  }

  /** A later row of the same receipt: never a stage back, a rank lost for every AI result applied, and
      nothing ever changes after a terminal stage. */
  ghost predicate Forward(a: Row, b: Row) {
    && StageRank(b.stage) <= StageRank(a.stage)
    && a.results <= b.results
    && b.results + StageRank(b.stage) <= a.results + StageRank(a.stage)
    && (StageRank(a.stage) == 0 ==> b == a)
  }

  /** Applying a served job loses its receipts exactly one result's worth of rank, and touches no other. */
  lemma {:induction false} ApplyMovesItsReceipts(w: World, s: State, id: nat, results: seq<BatchResult>, r: string)
    requires Inv(w, s) && id in s.jobs && s.jobs[id].status == Submitted && r in s.rows
    requires Covers(s.jobs[id], results) && DistinctResults(results)
    ensures var row := FoldRow(w, s.jobs[id], r, s.rows[r], results);
      if r in Refs(s.jobs[id].items)
      then StageRank(row.stage) < StageRank(s.rows[r].stage) && row.results == s.rows[r].results + 1
      else row == s.rows[r]
  {
    var job := s.jobs[id];
    assert JobOk(w, s.rows, job);
    if r in Refs(job.items) {
      assert Holds(s, id, r);
      HeldIsInFlight(w, s, id, r);
      var i := FoldOnce(w, s.rows, job, r, s.rows[r], results);
      CoversIsEveryRef(w, s.rows, job, results);
      ApplyMovesForward(w, r, s.rows[r], job.kind, results[i].output, results[i].error);
    } else {
      FoldReleases(w, s.rows, job, r, s.rows[r], results);
    }
  }

  lemma {:induction false} CollectMovesForward(w: World, s: State, id: nat, poll: Poll, r: string)
    requires Inv(w, s) && id in s.jobs && s.jobs[id].status == Submitted && r in s.rows
    requires poll.Results? ==> Covers(s.jobs[id], poll.results) && DistinctResults(poll.results)
    ensures r in CollectJob(w, s, id, poll).rows && Forward(s.rows[r], CollectJob(w, s, id, poll).rows[r])
  {
    if poll.Results? {
      ApplyMovesItsReceipts(w, s, id, poll.results, r);
    }
    if r in Refs(s.jobs[id].items) {
      HeldRank(w, s, id, r);
    }
    ResetKeepsStage(w, s, Refs(s.jobs[id].items), r);
  }

  lemma {:induction false} ResetKeepsStage(w: World, s: State, refs: set<string>, r: string)
    requires r in s.rows && (r in refs ==> StageRank(s.rows[r].stage) > 0)
    ensures var row := ResetRows(s.rows, refs)[r];
      row.stage == s.rows[r].stage && row.results == s.rows[r].results && Forward(s.rows[r], row)
  {
  }

  lemma {:induction false} HeldRank(w: World, s: State, id: nat, r: string)
    requires Inv(w, s) && id in s.jobs && Live(s.jobs[id]) && r in Refs(s.jobs[id].items)
    ensures r in s.rows && StageRank(s.rows[r].stage) > 0
  {
    assert Holds(s, id, r);
    HeldIsInFlight(w, s, id, r);
  }

  lemma {:induction false} StepMovesForward(w: World, s: State, e: Event, r: string)
    requires Inv(w, s) && Enabled(s, e) && Served(s, e) && r in s.rows
    ensures r in Next(w, s, e).rows && Forward(s.rows[r], Next(w, s, e).rows[r])
  {
    match e
    case EnterEvent(_) =>
    case GatherEvent(k, picked, id) =>
      if r in picked && GatherRow(w, r, Claimed(s.rows[r]), k).Settled? {
        GatherMovesForward(w, r, Claimed(s.rows[r]), k);
      }
    case SendEvent(id, _, _, _) =>
      if r in Refs(s.jobs[id].items) {
        HeldRank(w, s, id, r);
      }
      ResetKeepsStage(w, s, Refs(s.jobs[id].items), r);
    case CollectEvent(id, poll) => CollectMovesForward(w, s, id, poll, r);
    case ResetStuckEvent(id, _) =>
      if r in Refs(s.jobs[id].items) {
        HeldRank(w, s, id, r);
      }
      ResetKeepsStage(w, s, Refs(s.jobs[id].items), r);
  }

  lemma ForwardTwice(a: Row, b: Row, c: Row)
    requires Forward(a, b) && Forward(b, c)
    ensures Forward(a, c)
  {
  }

  /** One step of a run. */
  lemma RunMovesForward(w: World, trace: seq<State>, events: seq<Event>, n: nat, r: string)
    requires Run(w, trace, events) && n < |events| && r in trace[n].rows
    ensures r in trace[n + 1].rows && Forward(trace[n].rows[r], trace[n + 1].rows[r])
  {
    NeverStranded(w, trace, events, n);
    StepMovesForward(w, trace[n], events[n], r);
  }

  /** Between any two moments of a run a receipt has only moved forward. */
  lemma {:induction false} OnlyForward(w: World, trace: seq<State>, events: seq<Event>, m: nat, n: nat, r: string)
    requires Run(w, trace, events) && m <= n < |trace| && r in trace[m].rows
    ensures r in trace[n].rows && Forward(trace[m].rows[r], trace[n].rows[r])
    decreases n
  {
    if m < n {
      OnlyForward(w, trace, events, m, n - 1, r);
      RunMovesForward(w, trace, events, n - 1, r);
      ForwardTwice(trace[m].rows[r], trace[n - 1].rows[r], trace[n].rows[r]);
    }
  }

  /** At most three AI results are ever applied to one receipt. */
  lemma {:induction false} AtMostThreeResults(w: World, trace: seq<State>, events: seq<Event>, n: nat, r: string)
    requires Run(w, trace, events) && n < |trace| && r in trace[n].rows
    ensures trace[n].rows[r].results + StageRank(trace[n].rows[r].stage) <= 3
  {
    if n > 0 {
      if r in trace[n - 1].rows {
        AtMostThreeResults(w, trace, events, n - 1, r);
        RunMovesForward(w, trace, events, n - 1, r);
      } else {
        assert trace[n].rows[r] == NEW_ROW;
      }
    }
  }

  /** Once a receipt is done or in review, its row never changes again and no claim returns it. */
  lemma TerminalForGood(w: World, trace: seq<State>, events: seq<Event>, m: nat, r: string)
    requires Run(w, trace, events) && m < |trace| && r in trace[m].rows && StageRank(trace[m].rows[r].stage) == 0
    ensures forall n :: m <= n < |trace| ==> r in trace[n].rows && trace[n].rows[r] == trace[m].rows[r]
    ensures forall n :: m <= n < |events| && events[n].GatherEvent? ==> r !in events[n].picked
  {
    forall n | m <= n < |trace| ensures r in trace[n].rows && trace[n].rows[r] == trace[m].rows[r] {
      OnlyForward(w, trace, events, m, n, r);
    }
    forall n | m <= n < |events| && events[n].GatherEvent? ensures r !in events[n].picked {
      assert Enabled(trace[n], events[n]);
    }
  }

  ghost predicate Finished(s: State, id: nat) {
    id in s.jobs && !Live(s.jobs[id])
  }

  lemma StepKeepsFinished(w: World, s: State, e: Event, id: nat)
    requires Finished(s, id) && Enabled(s, e)
    ensures Finished(Next(w, s, e), id)
  {
  }

  lemma {:induction false} StaysFinished(w: World, trace: seq<State>, events: seq<Event>, m: nat, n: nat, id: nat)
    requires Run(w, trace, events) && m <= n < |trace| && Finished(trace[m], id)
    ensures Finished(trace[n], id)
    decreases n
  {
    if m < n {
      StaysFinished(w, trace, events, m, n - 1, id);
      StepKeepsFinished(w, trace[n - 1], events[n - 1], id);
    }
  }

  /** A job's results are collected at most once. */
  lemma CollectedOnce(w: World, trace: seq<State>, events: seq<Event>, m: nat, n: nat)
    requires Run(w, trace, events) && m < n < |events|
    requires events[m].CollectEvent? && events[m].poll.Results?
    ensures events[n].CollectEvent? ==> events[n].id != events[m].id
  {
    var id := events[m].id;
    assert Enabled(trace[m], events[m]);
    assert Finished(trace[m + 1], id);
    StaysFinished(w, trace, events, m + 1, n, id);
    assert Enabled(trace[n], events[n]);
  }

  // ---- Agreement with the sequential run ----

  /** Every result for this receipt is the AI's own answer to the request that was sent for it. */
  ghost predicate HonestAbout(w: World, job: Job, r: string, results: seq<BatchResult>) {
    forall i, j :: 0 <= i < |results| && 0 <= j < |job.items| && job.items[j].ref == r
                   && results[i].customId == job.items[j].customId ==>
      results[i].error == None && results[i].output == w.ai(job.items[j].prompt)
  }

  ghost predicate HonestStep(w: World, s: State, e: Event, r: string) {
    e.CollectEvent? && e.poll.Results? && e.id in s.jobs ==> HonestAbout(w, s.jobs[e.id], r, e.poll.results)
  }

  lemma StatusKeepsTrack(w: World, r: string, row: Row, status: Status)
    requires Tracks(w, r, row)
    ensures Tracks(w, r, row.(status := status))
  {
  }

  lemma {:induction false} CollectTracks(w: World, s: State, id: nat, results: seq<BatchResult>, r: string)
    requires GoodTables(w) && Inv(w, s) && id in s.jobs && s.jobs[id].status == Submitted
    requires DistinctResults(results) && HonestAbout(w, s.jobs[id], r, results)
    requires r in s.rows && Tracks(w, r, s.rows[r])
    ensures Tracks(w, r, FoldRow(w, s.jobs[id], r, s.rows[r], results))
  {
    var job := s.jobs[id];
    assert JobOk(w, s.rows, job);
    if r in Refs(job.items) {
      var j :| 0 <= j < |job.items| && job.items[j].ref == r;
      assert ItemOk(w, s.rows, job.kind, job.items[j]);
      var i := FoldOnce(w, s.rows, job, r, s.rows[r], results);
      if i >= 0 {
        ApplyTracks(w, r, s.rows[r], job.kind, job.items[j].prompt);
      }
    } else {
      FoldReleases(w, s.rows, job, r, s.rows[r], results);
    }
  }

  lemma {:induction false} StepTracks(w: World, s: State, e: Event, r: string)
    requires GoodTables(w) && Inv(w, s) && Enabled(s, e) && Served(s, e) && HonestStep(w, s, e, r)
    requires r in s.rows && Tracks(w, r, s.rows[r])
    ensures r in Next(w, s, e).rows && Tracks(w, r, Next(w, s, e).rows[r])
  {
    var row := s.rows[r];
    StatusKeepsTrack(w, r, row, Pending);
    StatusKeepsTrack(w, r, row, InFlight);
    match e
    case GatherEvent(k, picked, _) =>
      if r in picked {
        GatherTracks(w, r, Claimed(row), k);
      }
    case CollectEvent(id, poll) =>
      if poll.Results? {
        CollectTracks(w, s, id, poll.results, r);
      }
    case _ =>
  }

  /** The batched pipeline refines the sequential one. Whatever fails, expires or is reset on the way, a
      receipt that reaches a terminal stage ends exactly where pipeline.Run ends - done with the same draft
      lines, or in review at the same stage with the same issues - if and only if the two are comparable. */
  lemma {:induction false} BatchRefinesRun(w: World, trace: seq<State>, events: seq<Event>, n: nat, r: string)
    requires Run(w, trace, events) && GoodTables(w) && n < |trace| && r in trace[n].rows
    requires forall i :: 0 <= i < |events| ==> HonestStep(w, trace[i], events[i], r)
    ensures Tracks(w, r, trace[n].rows[r])
    ensures StageRank(trace[n].rows[r].stage) == 0 ==>
              (Agrees(trace[n].rows[r], Sequential(w, r)) <==> Comparable(w, r))
  {
    if n > 0 {
      if r in trace[n - 1].rows {
        BatchRefinesRun(w, trace, events, n - 1, r);
        NeverStranded(w, trace, events, n - 1);
        StepTracks(w, trace[n - 1], events[n - 1], r);
      } else {
        assert trace[n].rows[r] == NEW_ROW;
      }
    }
  }
}
