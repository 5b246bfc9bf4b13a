/** What a receipt's row says at any moment of any run, whatever the provider answered: nothing is stored that
    was not read, found and trusted, and an answer that failed leaves its error. */
module BatchOutcomes {
  import opened Wrappers
  import opened Entries
  import opened VendorMatch
  import opened Pipeline
  import opened Text
  import opened ReceiptStages
  import opened BatchProtocol
  import opened BatchRuns

  /** The stored extraction. */
  function Reading(w: World, row: Row): Result<ExtractResult, string> {
    w.codec.parseExtract(GetOr(row.extractJson, ""))
  }

  predicate HasReading(w: World, row: Row) {
    && row.extractJson.Some? && Reading(w, row).Ok?
    && Consistent(Reading(w, row).value) && Reading(w, row).value.confidence >= 0.75
  }

  /** The vendor that the stored match names. */
  function MatchedVendor(w: World, row: Row): Option<VendorRef> {
    if row.vendorJson.None? then None
    else
      var vm := w.codec.parseVendor(row.vendorJson.value);
      if vm.Ok? && vm.value.vendorId.Some? then w.vendorById(vm.value.vendorId.value) else None
  }

  /** The vendor stage is over: there is no name to look up, or the stored match is one by name, or it is an
      answer that was trusted and decides the vendor. */
  ghost predicate VendorDone(w: World, r: string, row: Row)
    requires HasReading(w, row)
  {
    var name := Reading(w, row).value.vendorName;
    if name.None? || Blank(name.value) then row.vendorJson.None?
    else
      var offer := Candidates(w, r, name.value);
      row.vendorJson.Some? && row.vendorJson.value != "" && w.codec.parseVendor(row.vendorJson.value).Ok?
      && var vm := w.codec.parseVendor(row.vendorJson.value).value;
         if ExactMatch(name.value, offer).Some? then vm == ExactAnswer(ExactMatch(name.value, offer).value)
         else 0.85 <= vm.confidence <= 1.0 && Decided(vm, offer)
  }

  /** Some decoded answer chose this account with enough confidence. */
  ghost predicate Chosen(w: World, account: string, accounts: seq<AccountRef>) {
    OfferedCode(account, accounts)
    && exists s :: ChoiceIs(w, s, account)
  }

  ghost predicate ChoiceIs(w: World, s: string, account: string) {
    var cl := w.codec.parseClassify(s);
    cl.Ok? && cl.value.accountCode == account && 0.80 <= cl.value.confidence <= 1.0
  }

  /** The matched vendor's default account, or else one that was offered and chosen. */
  ghost predicate AccountDone(w: World, r: string, row: Row, account: string) {
    var v := MatchedVendor(w, row);
    if v.Some? && v.value.defaultAccount != "" then account == v.value.defaultAccount
    else Chosen(w, account, w.accountsOf(w.entityOf(r)))
  }

  /** The draft of a finished receipt: the extracted total from the cash account to the account found. */
  predicate DraftIs(w: World, r: string, row: Row, account: string)
    requires HasReading(w, row)
  {
    var x, cash := Reading(w, row).value, w.cashOf(w.entityOf(r));
    && x.totalCents.Some? && x.totalCents.value > 0 && account != "" && cash != ""
    && row.draft.Some? && row.draft.value.date == GetOr(x.date, "")
    && row.draft.value.lines ==
         [EntryLine(account, x.totalCents.value, 0), EntryLine(cash, 0, x.totalCents.value)]
    && LineConstraints(row.draft.value.lines) && Accepted(row.draft.value.lines)
  }

  predicate NotFailed(row: Row) {
    row.failedStage.None? && row.issues == []
  }

  predicate NotDrafted(row: Row) {
    row.draft.None? && row.classified.None?
  }

  /** What the row says, stage by stage. */
  ghost predicate Says(w: World, r: string, row: Row) {
    match row.stage
    case Extract => row.extractJson.None? && row.vendorJson.None? && NotDrafted(row) && NotFailed(row)
    case Vendor => HasReading(w, row) && row.vendorJson.None? && NotDrafted(row) && NotFailed(row)
    case Classify => HasReading(w, row) && VendorDone(w, r, row) && NotDrafted(row) && NotFailed(row)
    case Done =>
      && HasReading(w, row) && VendorDone(w, r, row) && NotFailed(row) && row.classified.Some?
      && AccountDone(w, r, row, row.classified.value) && DraftIs(w, r, row, row.classified.value)
    case InReview => row.failedStage.Some? && NotDrafted(row) && SaysParked(w, r, row)
  }

  /** A parked row keeps what the stages before had stored. */
  ghost predicate SaysParked(w: World, r: string, row: Row)
    requires row.failedStage.Some?
  {
    match row.failedStage.value
    case AtExtract => row.extractJson.None? && row.vendorJson.None?
    case AtVendor => HasReading(w, row) && row.vendorJson.None?
    case _ => HasReading(w, row) && VendorDone(w, r, row)
  }

  // ---- One step for one receipt ----

  lemma StatusSaysNothing(w: World, r: string, row: Row, status: Status)
    requires Says(w, r, row)
    ensures Says(w, r, row.(status := status))
  {
  }

  lemma ResultsSayNothing(w: World, r: string, row: Row, n: nat)
    requires Says(w, r, row)
    ensures Says(w, r, row.(results := n))
  {
  }

  lemma DefaultIsMatched(w: World, row: Row)
    requires row.vendorJson != Some("")
    ensures VendorDefault(w, row.vendorJson) ==
            if MatchedVendor(w, row).Some? then MatchedVendor(w, row).value.defaultAccount else ""
  {
  }

  lemma FinalizeSays(w: World, r: string, row: Row, account: string)
    requires row.stage == Classify && Says(w, r, row) && AccountDone(w, r, row, account)
    ensures Says(w, r, Finalize(w, r, row, Reading(w, row).value, account))
  {
    var x, cash := Reading(w, row).value, w.cashOf(w.entityOf(r));
    BuiltExactlyWhen(x, account, cash, "");
    var next := Finalize(w, r, row, x, account);
    if BuildEntry(x, account, cash, "").Ok? {
      BuiltEntryIsStorable(x, account, cash);
      assert Reading(w, next) == Reading(w, row) && MatchedVendor(w, next) == MatchedVendor(w, row);
    }
  }

  lemma GatherSays(w: World, r: string, row: Row, k: Kind)
    requires GoodTables(w) && row.stage == StageOf(k) && Says(w, r, row) && GatherRow(w, r, row, k).Settled?
    ensures Says(w, r, GatherRow(w, r, row, k).row)
  {
    match k
    case ExtractKind =>
    case VendorKind => GatherVendorSays(w, r, row);
    case ClassifyKind =>
      DefaultIsMatched(w, row);
      FinalizeSays(w, r, row, VendorDefault(w, row.vendorJson));
  }

  lemma GatherVendorSays(w: World, r: string, row: Row)
    requires GoodTables(w) && row.stage == Vendor && Says(w, r, row) && GatherVendor(w, r, row).Settled?
    ensures Says(w, r, GatherVendor(w, r, row).row)
  {
    var name := Reading(w, row).value.vendorName;
    assert Reading(w, GatherVendor(w, r, row).row) == Reading(w, row);
    if name.Some? && !Blank(name.value) {
      var id := ExactMatch(name.value, Candidates(w, r, name.value)).value;
      assert w.codec.parseVendor(MatchedJson(w, id)) == Ok(ExactAnswer(id));
    }
  }

  lemma ApplyExtractSays(w: World, r: string, row: Row, output: string)
    requires GoodTables(w) && row.stage == Extract && Says(w, r, row)
    ensures Says(w, r, ApplyExtract(w, row, output))
  {
    var x := w.codec.parseExtract(output);
    if x.Ok? {
      CleanExtraction(x.value);
    }
  }

  lemma ApplyVendorSays(w: World, r: string, row: Row, prompt: Prompt, output: string)
    requires GoodTables(w) && row.stage == Vendor && Says(w, r, row) && GatherVendor(w, r, row) == Ask(prompt)
    ensures Says(w, r, ApplyVendor(w, r, row, output))
  {
    var next, vm := ApplyVendor(w, r, row, output), w.codec.parseVendor(output);
    assert Reading(w, next) == Reading(w, row);
    if vm.Ok? {
      CleanVendorAnswer(vm.value, CandidatesForRef(w, r, row));
      assert w.codec.parseVendor(w.codec.showVendor(vm.value)) == vm;
    }
  }

  lemma ApplyClassifySays(w: World, r: string, row: Row, prompt: Prompt, output: string)
    requires GoodTables(w) && row.stage == Classify && Says(w, r, row) && GatherClassify(w, r, row) == Ask(prompt)
    ensures Says(w, r, ApplyClassify(w, r, row, output))
  {
    var cl := w.codec.parseClassify(output);
    if cl.Ok? {
      var accounts := w.accountsOf(w.entityOf(r));
      CleanClassification(cl.value, accounts);
      if GateClassify(cl.value, accounts).advance {
        DefaultIsMatched(w, row);
        assert ChoiceIs(w, output, cl.value.accountCode);
        FinalizeSays(w, r, row, cl.value.accountCode);
      }
    }
  }

  lemma ErrorSays(w: World, r: string, row: Row, k: Kind, output: string, error: string)
    requires row.stage == StageOf(k) && Says(w, r, row)
    ensures Says(w, r, Answered(w, r, row, k, output, Some(error)))
  {
    var next := Answered(w, r, row, k, output, Some(error));
    assert row.stage != Extract ==> Reading(w, next) == Reading(w, row);
  }

  lemma OutputSays(w: World, r: string, row: Row, k: Kind, prompt: Prompt, output: string)
    requires GoodTables(w) && row.stage == StageOf(k) && Says(w, r, row) && GatherRow(w, r, row, k) == Ask(prompt)
    ensures Says(w, r, Answered(w, r, row, k, output, None))
  {
    match k
    case ExtractKind => ApplyExtractSays(w, r, row, output);
    case VendorKind => ApplyVendorSays(w, r, row, prompt, output);
    case ClassifyKind => ApplyClassifySays(w, r, row, prompt, output);
  }

  lemma AnsweredSays(w: World, r: string, row: Row, k: Kind, prompt: Prompt, output: string, error: Option<string>)
    requires GoodTables(w) && row.stage == StageOf(k) && Says(w, r, row) && GatherRow(w, r, row, k) == Ask(prompt)
    ensures Says(w, r, Answered(w, r, row, k, output, error))
  {
    if error.Some? {
      ErrorSays(w, r, row, k, output, error.value);
    } else {
      OutputSays(w, r, row, k, prompt, output);
    }
  }

  lemma ApplyIsAnswered(w: World, r: string, row: Row, k: Kind, output: string, error: Option<string>)
    returns (next: Row)
    requires row.stage == StageOf(k)
    ensures next == Answered(w, r, row, k, output, error)
    ensures ApplyRow(w, r, row, k, output, error) == next.(results := row.results + 1)
  {
    assert row.(stage := StageOf(k)) == row;
    next := Answered(w, r, row, k, output, error);
  }

  /** Whatever comes back for a request that was asked. */
  lemma AnswerSays(w: World, r: string, row: Row, k: Kind, prompt: Prompt, output: string, error: Option<string>)
    requires GoodTables(w) && row.stage == StageOf(k) && Says(w, r, row) && GatherRow(w, r, row, k) == Ask(prompt)
    ensures Says(w, r, ApplyRow(w, r, row, k, output, error))
  {
    AnsweredSays(w, r, row, k, prompt, output, error);
    var next := ApplyIsAnswered(w, r, row, k, output, error);
    ResultsSayNothing(w, r, next, row.results + 1);
  }

  // ---- Whole runs ----

  lemma {:induction false} CollectSays(w: World, s: State, id: nat, results: seq<BatchResult>, r: string)
    requires GoodTables(w) && Inv(w, s) && id in s.jobs && s.jobs[id].status == Submitted
    requires DistinctResults(results) && r in s.rows && Says(w, r, s.rows[r])
    ensures Says(w, r, FoldRow(w, s.jobs[id], r, s.rows[r], results))
  {
    var job := s.jobs[id];
    assert JobOk(w, s.rows, job);
    if r in Refs(job.items) {
      var j :| 0 <= j < |job.items| && job.items[j].ref == r;
      assert ItemOk(w, s.rows, job.kind, job.items[j]);
      var i := FoldOnce(w, s.rows, job, r, s.rows[r], results);
      if i >= 0 {
        AnswerSays(w, r, s.rows[r], job.kind, job.items[j].prompt, results[i].output, results[i].error);
      }
    } else {
      FoldReleases(w, s.rows, job, r, s.rows[r], results);
    }
  }

  lemma ResetSays(w: World, rows: map<string, Row>, refs: set<string>, r: string)
    requires r in rows && Says(w, r, rows[r])
    ensures r in ResetRows(rows, refs) && Says(w, r, ResetRows(rows, refs)[r])
  {
    StatusSaysNothing(w, r, rows[r], Pending);
  }

  lemma GatheredSays(w: World, s: State, k: Kind, picked: seq<string>, id: nat, r: string)
    requires GoodTables(w) && Claimable(s.rows, StageOf(k), picked) && r in s.rows && Says(w, r, s.rows[r])
    ensures Says(w, r, Gather(w, s, k, picked, id).rows[r])
  {
    StatusSaysNothing(w, r, s.rows[r], InFlight);
    if r in picked && GatherRow(w, r, Claimed(s.rows[r]), k).Settled? {
      GatherSays(w, r, Claimed(s.rows[r]), k);
    }
  }

  lemma PollSays(w: World, s: State, id: nat, poll: Poll, r: string)
    requires GoodTables(w) && Inv(w, s) && id in s.jobs && s.jobs[id].status == Submitted
    requires poll.Results? ==> DistinctResults(poll.results)
    requires r in s.rows && Says(w, r, s.rows[r])
    ensures r in CollectJob(w, s, id, poll).rows && Says(w, r, CollectJob(w, s, id, poll).rows[r])
  {
    if poll.Results? {
      CollectSays(w, s, id, poll.results, r);
    } else {
      ResetSays(w, s.rows, Refs(s.jobs[id].items), r);
    }
  }

  lemma {:induction false} StepSays(w: World, s: State, e: Event, r: string)
    requires GoodTables(w) && Inv(w, s) && Enabled(s, e) && Served(s, e) && r in s.rows && Says(w, r, s.rows[r])
    ensures r in Next(w, s, e).rows && Says(w, r, Next(w, s, e).rows[r])
  {
    match e
    case EnterEvent(_) =>
    case GatherEvent(k, picked, id) => GatheredSays(w, s, k, picked, id, r);
    case SendEvent(id, _, _, _) => ResetSays(w, s.rows, Refs(s.jobs[id].items), r);
    case CollectEvent(id, poll) => PollSays(w, s, id, poll, r);
    case ResetStuckEvent(id, _) => ResetSays(w, s.rows, Refs(s.jobs[id].items), r);
  }

  /** At every moment of every run, whatever the provider answered: a receipt past extraction has a trusted one
      that can be read; one past the vendor stage has its vendor decided; a finished one has a draft of the
      extracted total on an account that was found and trusted; and a parked one has no draft. */
  lemma {:induction false} RowsSay(w: World, trace: seq<State>, events: seq<Event>, n: nat, r: string)
    requires BatchRuns.Run(w, trace, events) && GoodTables(w) && n < |trace| && r in trace[n].rows
    ensures Says(w, r, trace[n].rows[r])
  {
    if n > 0 {
      if r in trace[n - 1].rows {
        RowsSay(w, trace, events, n - 1, r);
        NeverStranded(w, trace, events, n - 1);
        StepSays(w, trace[n - 1], events[n - 1], r);
      } else {
        assert trace[n].rows[r] == NEW_ROW;
      }
    }
  }

  /** Parked at the stage of the job's kind with the provider's error, and everything else as it was. */
  predicate ParkedByError(before: Row, after: Row, k: Kind, error: string) {
    && after.stage == InReview && after.status == Pending && after.issues == [ProviderError(error)]
    && after.failedStage ==
         Some(match k case ExtractKind => AtExtract case VendorKind => AtVendor case ClassifyKind => AtClassify)
    && after.extractJson == before.extractJson && after.vendorJson == before.vendorJson
    && after.classified == before.classified && after.draft == before.draft && after.results == before.results + 1
  }

  lemma ErrorIsApplied(w: World, r: string, row: Row, k: Kind, output: string, error: string)
    ensures ParkedByError(row, ApplyRow(w, r, row, k, output, Some(error)), k, error)
  {
  }

  /** Collecting an item that the provider failed parks its receipt at the stage of the job, with the
      provider's error and nothing else saved. */
  lemma {:induction false} ErrorParks(w: World, s: State, id: nat, results: seq<BatchResult>, i: nat, r: string)
    requires Inv(w, s) && id in s.jobs && s.jobs[id].status == Submitted && s.jobs[id].kind in w.registered
    requires DistinctResults(results) && i < |results| && r in Refs(s.jobs[id].items)
    requires results[i].customId == CustomId(s.jobs[id].kind, r) && results[i].error.Some?
    ensures r in s.rows && r in CollectJob(w, s, id, Results(results)).rows
    ensures ParkedByError(s.rows[r], CollectJob(w, s, id, Results(results)).rows[r], s.jobs[id].kind,
                          results[i].error.value)
  {
    var job := s.jobs[id];
    assert Holds(s, id, r) && JobOk(w, s.rows, job);
    HeldIsInFlight(w, s, id, r);
    var j := FoldOnce(w, s.rows, job, r, s.rows[r], results);
    assert Answers(results, CustomId(job.kind, r));
    assert j == i;
    ErrorIsApplied(w, r, s.rows[r], job.kind, results[i].output, results[i].error.value);
  }

  /** And it stays so for the rest of the run. */
  lemma ErrorParksForGood(w: World, trace: seq<State>, events: seq<Event>, m: nat, n: nat, i: nat, r: string)
    requires BatchRuns.Run(w, trace, events) && m < n < |trace|
    requires events[m].CollectEvent? && events[m].poll.Results? && i < |events[m].poll.results|
    requires var result, job := events[m].poll.results[i], trace[m].jobs[events[m].id];
      Enabled(trace[m], events[m]) && r in Refs(job.items) && result.customId == CustomId(job.kind, r)
      && result.error.Some?
    ensures r in trace[m].rows && r in trace[n].rows
    ensures ParkedByError(trace[m].rows[r], trace[n].rows[r], trace[m].jobs[events[m].id].kind,
                          events[m].poll.results[i].error.value)
  {
    NeverStranded(w, trace, events, m);
    assert Served(trace[m], events[m]);
    ErrorParks(w, trace[m], events[m].id, events[m].poll.results, i, r);
    TerminalForGood(w, trace, events, m + 1, r);
  }
}
