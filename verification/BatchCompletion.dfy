/** Where the batch protocol brings a receipt when the AI's own answers come back: to one row, in every run,
    and from every state of every run. */
module BatchCompletion {
  import opened Wrappers
  import opened Pipeline
  import opened ReceiptStages
  import opened BatchProtocol
  import opened BatchRuns

  /** A run in which every result for the receipt is the AI's own answer. */
  ghost predicate HonestRun(w: World, trace: seq<State>, events: seq<Event>, r: string) {
    BatchRuns.Run(w, trace, events) && forall i :: 0 <= i < |events| ==> HonestStep(w, trace[i], events[i], r)
  }

  /** The row that a receipt comes to rest in: gather and apply, stage after stage. */
  function Ending(w: World, r: string, row: Row): Row
    decreases StageRank(row.stage)
  {
    match KindForStage(row.stage)
    case None => row
    case Some(k) =>
      match GatherRow(w, r, Claimed(row), k)
      case Settled(next) => GatherMovesForward(w, r, Claimed(row), k); Ending(w, r, next)
      case Ask(prompt) =>
        ApplyMovesForward(w, r, Claimed(row), k, w.ai(prompt), None);
        Ending(w, r, ApplyRow(w, r, Claimed(row), k, w.ai(prompt), None))
  }

  lemma EndingSettles(w: World, r: string, row: Row, k: Kind)
    requires row.stage == StageOf(k) && GatherRow(w, r, Claimed(row), k).Settled?
    ensures Ending(w, r, row) == Ending(w, r, GatherRow(w, r, Claimed(row), k).row)
  {
  }

  lemma EndingAsks(w: World, r: string, row: Row, k: Kind, prompt: Prompt)
    requires row.stage == StageOf(k) && GatherRow(w, r, Claimed(row), k) == Ask(prompt)
    ensures Ending(w, r, row) == Ending(w, r, ApplyRow(w, r, Claimed(row), k, w.ai(prompt), None))
  {
  }

  // ---- One ending ----

  /** A later row of the receipt comes to rest in the same row. */
  ghost predicate SameEnding(w: World, r: string, a: Row, b: Row) {
    Ending(w, r, a) == Ending(w, r, b)
  }

  lemma StatusKeepsEnding(w: World, r: string, row: Row, status: Status)
    requires StageRank(row.stage) > 0
    ensures SameEnding(w, r, row, row.(status := status))
  {
    assert Claimed(row.(status := status)) == Claimed(row);
  }

  lemma ResetKeepsEnding(w: World, s: State, id: nat, r: string)
    requires Inv(w, s) && id in s.jobs && Live(s.jobs[id]) && r in s.rows
    ensures SameEnding(w, r, s.rows[r], ResetRows(s.rows, Refs(s.jobs[id].items))[r])
  {
    if r in Refs(s.jobs[id].items) {
      HeldRank(w, s, id, r);
      StatusKeepsEnding(w, r, s.rows[r], Pending);
    }
  }

  lemma GatherKeepsEnding(w: World, s: State, k: Kind, picked: seq<string>, id: nat, r: string)
    requires Claimable(s.rows, StageOf(k), picked) && r in s.rows
    ensures SameEnding(w, r, s.rows[r], Gather(w, s, k, picked, id).rows[r])
  {
    if r in picked {
      StatusKeepsEnding(w, r, s.rows[r], InFlight);
      if GatherRow(w, r, Claimed(s.rows[r]), k).Settled? {
        EndingSettles(w, r, s.rows[r], k);
      }
    }
  }

  lemma {:induction false} AnswersKeepEnding(w: World, s: State, id: nat, results: seq<BatchResult>, r: string)
    requires Inv(w, s) && id in s.jobs && s.jobs[id].status == Submitted && r in s.rows
    requires DistinctResults(results) && HonestAbout(w, s.jobs[id], r, results)
    ensures SameEnding(w, r, s.rows[r], FoldRow(w, s.jobs[id], r, s.rows[r], results))
  {
    var job, row := s.jobs[id], s.rows[r];
    assert JobOk(w, s.rows, job);
    if r in Refs(job.items) {
      var j :| 0 <= j < |job.items| && job.items[j].ref == r;
      assert ItemOk(w, s.rows, job.kind, job.items[j]);
      assert Holds(s, id, r);
      HeldIsInFlight(w, s, id, r);
      var i := FoldOnce(w, s.rows, job, r, row, results);
      if i >= 0 {
        assert Claimed(row) == row;
        EndingAsks(w, r, row, job.kind, job.items[j].prompt);
      }
    } else {
      FoldReleases(w, s.rows, job, r, row, results);
    }
  }

  lemma CollectKeepsEnding(w: World, s: State, id: nat, poll: Poll, r: string)
    requires Inv(w, s) && id in s.jobs && s.jobs[id].status == Submitted && r in s.rows
    requires poll.Results? ==> DistinctResults(poll.results) && HonestAbout(w, s.jobs[id], r, poll.results)
    ensures r in CollectJob(w, s, id, poll).rows
    ensures SameEnding(w, r, s.rows[r], CollectJob(w, s, id, poll).rows[r])
  {
    if poll.Results? {
      AnswersKeepEnding(w, s, id, poll.results, r);
    } else {
      ResetKeepsEnding(w, s, id, r);
    }
  }

  lemma {:induction false} StepKeepsEnding(w: World, s: State, e: Event, r: string)
    requires Inv(w, s) && Enabled(s, e) && Served(s, e) && HonestStep(w, s, e, r) && r in s.rows
    ensures r in Next(w, s, e).rows && SameEnding(w, r, s.rows[r], Next(w, s, e).rows[r])
  {
    match e
    case EnterEvent(_) =>
    case GatherEvent(k, picked, id) => GatherKeepsEnding(w, s, k, picked, id, r);
    case SendEvent(id, _, _, _) => ResetKeepsEnding(w, s, id, r);
    case CollectEvent(id, poll) => CollectKeepsEnding(w, s, id, poll, r);
    case ResetStuckEvent(id, _) => ResetKeepsEnding(w, s, id, r);
  }

  /** Whatever fails, expires, is rejected or reset on the way, and in whatever order receipts are claimed: a
      receipt is always on the way to the same row, and a receipt at rest is in it. */
  lemma {:induction false} OneEnding(w: World, trace: seq<State>, events: seq<Event>, n: nat, r: string)
    requires HonestRun(w, trace, events, r) && n < |trace| && r in trace[n].rows
    ensures Ending(w, r, trace[n].rows[r]) == Ending(w, r, NEW_ROW)
    ensures StageRank(trace[n].rows[r].stage) == 0 ==> trace[n].rows[r] == Ending(w, r, NEW_ROW)
  {
    if n > 0 {
      if r in trace[n - 1].rows {
        OneEnding(w, trace, events, n - 1, r);
        NeverStranded(w, trace, events, n - 1);
        StepKeepsEnding(w, trace[n - 1], events[n - 1], r);
      } else {
        assert trace[n].rows[r] == NEW_ROW;
      }
    }
  }

  // ---- It can always be reached ----

  ghost predicate Continues(w: World, r: string, trace: seq<State>, events: seq<Event>, trace': seq<State>,
      events': seq<Event>)
  {
    HonestRun(w, trace', events', r) && trace <= trace' && events <= events'
  }

  /** A run goes on by any step that is enabled. */
  lemma OneMore(w: World, r: string, trace: seq<State>, events: seq<Event>, e: Event)
    returns (trace': seq<State>, events': seq<Event>)
    requires HonestRun(w, trace, events, r)
    requires var s := trace[|events|]; Enabled(s, e) && Served(s, e) && HonestStep(w, s, e, r)
    ensures Continues(w, r, trace, events, trace', events')
    ensures trace'[|events'|] == Next(w, trace[|events|], e)
  {
    trace', events' := trace + [Next(w, trace[|events|], e)], events + [e];
    forall i | 0 <= i < |events'| ensures StepOk(w, trace'[i], events'[i], trace'[i + 1], r) {
      assert i < |events| ==> trace'[i] == trace[i] && trace'[i + 1] == trace[i + 1] && events'[i] == events[i];
    }
  }

  ghost predicate StepOk(w: World, s: State, e: Event, s': State, r: string) {
    Enabled(s, e) && s' == Next(w, s, e) && Served(s, e) && HonestStep(w, s, e, r)
  }

  lemma {:induction false} FreshId(used: set<nat>) returns (id: nat)
    ensures forall j :: j in used ==> j < id
  {
    id := 0;
    if used != {} {
      var j :| j in used;
      var rest := FreshId(used - {j});
      id := if rest <= j then j + 1 else rest;
      assert forall i :: i in used ==> i == j || i in used - {j};
    }
  }

  /** A receipt in flight can be freed: its job may fail. */
  lemma {:induction false} CanBeFreed(w: World, trace: seq<State>, events: seq<Event>, r: string)
    returns (trace': seq<State>, events': seq<Event>)
    requires HonestRun(w, trace, events, r) && r in trace[|events|].rows
    ensures Continues(w, r, trace, events, trace', events')
    ensures var s := trace'[|events'|];
      r in s.rows && s.rows[r] == trace[|events|].rows[r].(status := Pending)
  {
    var s := trace[|events|];
    trace', events' := trace, events;
    if s.rows[r].status == InFlight {
      NeverStranded(w, trace, events, |events|);
      var id := InFlightHeld(w, s, r);
      var e := if s.jobs[id].status == Preparing then SendEvent(id, false, false, 0)
               else CollectEvent(id, Ended(false));
      trace', events' := OneMore(w, r, trace, events, e);
    }
  }

  lemma OneRequest(w: World, rows: map<string, Row>, k: Kind, r: string)
    requires r in rows
    ensures Requests(w, rows, k, [r]) == Request(w, k, r, rows[r])
  {
    assert [r][..0] == [];
    assert Requests(w, rows, k, []) == [];
  }

  /** Its answer comes back alone and is applied. */
  lemma OneAnswer(w: World, job: Job, r: string, row: Row, prompt: Prompt)
    requires job.items == [JobItem(CustomId(job.kind, r), r, prompt)]
    ensures var results := [BatchResult(CustomId(job.kind, r), w.ai(prompt), None)];
      && FoldRow(w, job, r, row, results) == ApplyRow(w, r, row, job.kind, w.ai(prompt), None)
      && Covers(job, results) && DistinctResults(results) && HonestAbout(w, job, r, results)
  {
    var results := [BatchResult(CustomId(job.kind, r), w.ai(prompt), None)];
    assert results[..0] == [];
    assert FoldRow(w, job, r, row, results[..0]) == row;
    assert Answers(results, CustomId(job.kind, r)) by { assert results[0].customId == CustomId(job.kind, r); }
  }

  lemma AskedAlone(w: World, s: State, r: string, k: Kind, prompt: Prompt, id: nat)
    requires r in s.rows && id !in s.jobs
    requires GatherRow(w, r, Claimed(s.rows[r]), k) == Ask(prompt)
    ensures var s' := Gather(w, s, k, [r], id);
      && r in s'.rows && s'.rows[r] == Claimed(s.rows[r])
      && s'.jobs == s.jobs[id := Job(k, Preparing, [JobItem(CustomId(k, r), r, prompt)], 0)]
  {
    OneRequest(w, s.rows, k, r);
  }

  /** A waiting receipt can be gathered and sent alone. */
  lemma {:induction false} CanBeAsked(w: World, trace: seq<State>, events: seq<Event>, r: string, k: Kind,
      prompt: Prompt)
    returns (trace': seq<State>, events': seq<Event>, id: nat)
    requires HonestRun(w, trace, events, r) && r in trace[|events|].rows
    requires var row := trace[|events|].rows[r];
      row.status == Pending && row.stage == StageOf(k) && GatherRow(w, r, Claimed(row), k) == Ask(prompt)
    ensures Continues(w, r, trace, events, trace', events')
    ensures var s := trace'[|events'|];
      && r in s.rows && s.rows[r] == Claimed(trace[|events|].rows[r])
      && id in s.jobs && s.jobs[id] == Job(k, Submitted, [JobItem(CustomId(k, r), r, prompt)], 0)
  {
    var s := trace[|events|];
    id := FreshId(s.jobs.Keys);
    AskedAlone(w, s, r, k, prompt, id);
    trace', events' := OneMore(w, r, trace, events, GatherEvent(k, [r], id));
    trace', events' := OneMore(w, r, trace', events', SendEvent(id, true, true, 0));
  }

  /** Then its answer can be collected: it takes the next step to its ending. */
  lemma {:induction false} CanBeAnswered(w: World, trace: seq<State>, events: seq<Event>, r: string, k: Kind,
      prompt: Prompt)
    returns (trace': seq<State>, events': seq<Event>)
    requires HonestRun(w, trace, events, r) && r in trace[|events|].rows
    requires var row := trace[|events|].rows[r];
      row.status == Pending && row.stage == StageOf(k) && GatherRow(w, r, Claimed(row), k) == Ask(prompt)
    ensures Continues(w, r, trace, events, trace', events') && r in trace'[|events'|].rows
    ensures trace'[|events'|].rows[r]
         == ApplyRow(w, r, Claimed(trace[|events|].rows[r]), k, w.ai(prompt), None)
  {
    var id;
    trace', events', id := CanBeAsked(w, trace, events, r, k, prompt);
    var s := trace'[|events'|];
    OneAnswer(w, s.jobs[id], r, s.rows[r], prompt);
    var results := [BatchResult(CustomId(k, r), w.ai(prompt), None)];
    trace', events' := OneMore(w, r, trace', events', CollectEvent(id, Results(results)));
  }

  lemma {:induction false} CanBeSettled(w: World, trace: seq<State>, events: seq<Event>, r: string, k: Kind)
    returns (trace': seq<State>, events': seq<Event>)
    requires HonestRun(w, trace, events, r) && r in trace[|events|].rows
    requires var row := trace[|events|].rows[r];
      row.status == Pending && row.stage == StageOf(k) && GatherRow(w, r, Claimed(row), k).Settled?
    ensures Continues(w, r, trace, events, trace', events') && r in trace'[|events'|].rows
    ensures trace'[|events'|].rows[r] == GatherRow(w, r, Claimed(trace[|events|].rows[r]), k).row
  {
    var s := trace[|events|];
    var id := FreshId(s.jobs.Keys);
    trace', events' := OneMore(w, r, trace, events, GatherEvent(k, [r], id));
  }

  lemma {:induction false} CanTakeAStep(w: World, trace: seq<State>, events: seq<Event>, r: string)
    returns (trace': seq<State>, events': seq<Event>)
    requires HonestRun(w, trace, events, r) && r in trace[|events|].rows
    requires StageRank(trace[|events|].rows[r].stage) > 0
    ensures Continues(w, r, trace, events, trace', events') && r in trace'[|events'|].rows
    ensures StageRank(trace'[|events'|].rows[r].stage) < StageRank(trace[|events|].rows[r].stage)
  {
    trace', events' := CanBeFreed(w, trace, events, r);
    var row := trace'[|events'|].rows[r];
    var k := KindForStage(row.stage).value;
    match GatherRow(w, r, Claimed(row), k)
    case Settled(_) =>
      GatherMovesForward(w, r, Claimed(row), k);
      trace', events' := CanBeSettled(w, trace', events', r, k);
    case Ask(prompt) =>
      ApplyMovesForward(w, r, Claimed(row), k, w.ai(prompt), None);
      trace', events' := CanBeAnswered(w, trace', events', r, k, prompt);
  }

  /** No receipt is ever stuck: whatever has happened so far, every run can go on so that the receipt comes to
      rest, in the row it was always on the way to. */
  lemma {:induction false} CanAlwaysEnd(w: World, trace: seq<State>, events: seq<Event>, r: string)
    returns (trace': seq<State>, events': seq<Event>)
    requires HonestRun(w, trace, events, r) && r in trace[|events|].rows
    ensures Continues(w, r, trace, events, trace', events') && r in trace'[|events'|].rows
    ensures StageRank(trace'[|events'|].rows[r].stage) == 0 && trace'[|events'|].rows[r] == Ending(w, r, NEW_ROW)
    decreases StageRank(trace[|events|].rows[r].stage)
  {
    trace', events' := trace, events;
    if StageRank(trace[|events|].rows[r].stage) > 0 {
      trace', events' := CanTakeAStep(w, trace, events, r);
      trace', events' := CanAlwaysEnd(w, trace', events', r);
    }
    OneEnding(w, trace', events', |events'|, r);
  }

  /** From the empty tables: some run brings the receipt to its ending. */
  lemma SomeRunEnds(w: World, r: string) returns (trace: seq<State>, events: seq<Event>)
    requires AllRegistered(w)
    ensures HonestRun(w, trace, events, r) && r in trace[|events|].rows
    ensures trace[|events|].rows[r] == Ending(w, r, NEW_ROW)
  {
    trace, events := OneMore(w, r, [State(map[], map[])], [], EnterEvent(r));
    trace, events := CanAlwaysEnd(w, trace, events, r);
  }

  lemma {:induction false} EndingTracks(w: World, r: string, row: Row)
    requires GoodTables(w) && Tracks(w, r, row)
    ensures Tracks(w, r, Ending(w, r, row)) && StageRank(Ending(w, r, row).stage) == 0
    decreases StageRank(row.stage)
  {
    match KindForStage(row.stage)
    case None =>
    case Some(k) =>
      StatusKeepsTrack(w, r, row, InFlight);
      match GatherRow(w, r, Claimed(row), k)
      case Settled(next) =>
        GatherMovesForward(w, r, Claimed(row), k);
        GatherTracks(w, r, Claimed(row), k);
        EndingTracks(w, r, next);
      case Ask(prompt) =>
        ApplyMovesForward(w, r, Claimed(row), k, w.ai(prompt), None);
        ApplyTracks(w, r, Claimed(row), k, prompt);
        EndingTracks(w, r, ApplyRow(w, r, Claimed(row), k, w.ai(prompt), None));
  }

  /** That row is where the sequential run ends exactly when the two are comparable. */
  lemma EndingAgreesIff(w: World, r: string)
    requires GoodTables(w)
    ensures Agrees(Ending(w, r, NEW_ROW), Sequential(w, r)) <==> Comparable(w, r)
  {
    EndingTracks(w, r, NEW_ROW);
  }

  predicate ParksAtVendor(res: RunResult) {
    res.status.NeedsReview? && res.status.stage == AtVendor
  }

  /** Wherever the two are not comparable, some run shows it: the sequential run parks the receipt at the
      vendor stage, and the batched one ends elsewhere. */
  lemma IncomparableRunDiffers(w: World, r: string) returns (trace: seq<State>, events: seq<Event>)
    requires GoodTables(w) && AllRegistered(w) && !Comparable(w, r)
    ensures HonestRun(w, trace, events, r) && r in trace[|events|].rows
    ensures trace[|events|].rows[r] == Ending(w, r, NEW_ROW)
    ensures ParksAtVendor(Sequential(w, r)) && !Agrees(trace[|events|].rows[r], Sequential(w, r))
  {
    IncomparableParksAtVendor(w, r);
    EndingAgreesIff(w, r);
    trace, events := SomeRunEnds(w, r);
  }

  // ---- A vendor name of spaces only ----

  function SpacesAnswer(prompt: Prompt): string {
    match prompt
    case ExtractPrompt(_) => " "
    case VendorPrompt(_, _) => ""
    case ClassifyPrompt(_, _) => "food"
  }

  const SPACES_WORLD := SAMPLE_WORLD.(
    ai := SpacesAnswer, accountsOf := entity => [AccountRef("food", "Food", "expense")])

  const SPACES := ExtractResult(Some(" "), None, None, None, None, Some(500), [], 0.9)

  /** The receipt's row after its two AI answers and the vendor stage that is skipped in between. */
  const SPACES_EXTRACTED := NEW_ROW.(stage := Vendor, extractJson := Some(" "), results := 1)

  const SPACES_SKIPPED := SPACES_EXTRACTED.(stage := Classify)

  lemma SpacesExtracted(r: string)
    ensures Extracted(SPACES_WORLD, r) && ExtractOf(SPACES_WORLD, r) == SPACES
    ensures GateExtract(SPACES).advance
  {
    CleanExtraction(SPACES);
    assert Consistent(SPACES);
  }

  lemma SpacesIncomparable(r: string)
    ensures GoodTables(SPACES_WORLD) && AllRegistered(SPACES_WORLD) && !Comparable(SPACES_WORLD, r)
  {
    SampleTablesAreGood();
    SpacesExtracted(r);
    assert SPACES_WORLD.registered == {ExtractKind, VendorKind, ClassifyKind};
    forall k: Kind ensures k in SPACES_WORLD.registered {
      assert k.ExtractKind? || k.VendorKind? || k.ClassifyKind?;
    }
  }

  lemma SpacesExtractStage(r: string)
    ensures Ending(SPACES_WORLD, r, NEW_ROW) == Ending(SPACES_WORLD, r, SPACES_EXTRACTED)
  {
    SpacesExtracted(r);
    var prompt := ExtractPrompt("receipt text");
    EndingAsks(SPACES_WORLD, r, NEW_ROW, ExtractKind, prompt);
    assert ApplyRow(SPACES_WORLD, r, Claimed(NEW_ROW), ExtractKind, " ", None) == SPACES_EXTRACTED;
  }

  lemma SpacesVendorStage(r: string)
    ensures Ending(SPACES_WORLD, r, SPACES_EXTRACTED) == Ending(SPACES_WORLD, r, SPACES_SKIPPED)
  {
    EndingSettles(SPACES_WORLD, r, SPACES_EXTRACTED, VendorKind);
    assert GatherRow(SPACES_WORLD, r, Claimed(SPACES_EXTRACTED), VendorKind) == Settled(SPACES_SKIPPED);
  }

  lemma SpacesClassifyStage(r: string)
    ensures Ending(SPACES_WORLD, r, SPACES_SKIPPED).stage == Done
  {
    var accounts := SPACES_WORLD.accountsOf("entity");
    assert HasCode("food", accounts) by { assert accounts[0].code == "food"; }
    EndingAsks(SPACES_WORLD, r, SPACES_SKIPPED, ClassifyKind, ClassifyPrompt(SPACES, accounts));
    BuiltExactlyWhen(SPACES, "food", "cash", "");
    BuiltEntryIsStorable(SPACES, "food", "cash");
    assert ApplyRow(SPACES_WORLD, r, Claimed(SPACES_SKIPPED), ClassifyKind, "food", None).stage == Done;
  }

  lemma SpacesEnding(r: string)
    ensures Ending(SPACES_WORLD, r, NEW_ROW).stage == Done
  {
    SpacesExtractStage(r);
    SpacesVendorStage(r);
    SpacesClassifyStage(r);
  }

  /** A run ends with the receipt done, while the sequential run parks it at the vendor stage. */
  lemma SpacesRunDiffers(r: string) returns (trace: seq<State>, events: seq<Event>)
    ensures GoodTables(SPACES_WORLD) && !Comparable(SPACES_WORLD, r)
    ensures HonestRun(SPACES_WORLD, trace, events, r) && r in trace[|events|].rows
    ensures trace[|events|].rows[r].stage == Done && ParksAtVendor(Sequential(SPACES_WORLD, r))
  {
    SpacesIncomparable(r);
    SpacesEnding(r);
    trace, events := IncomparableRunDiffers(SPACES_WORLD, r);
  }
}
