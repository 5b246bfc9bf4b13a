/** The batch protocol as a state machine: claims, provider batches, job rows and the receipts they hold.
    Several submitters may work at once: a submission between Gather and CreateJob is a Preparing job. */
module BatchProtocol {
  import opened Lists
  import opened Wrappers
  import opened Pipeline
  import opened ReceiptStages

  /** Preparing is the submitter's own list, before the job row exists. */
  datatype JobStatus = Preparing | Submitted | Completed | Failed | Expired

  /** prompt is the request that was sent under the custom id. */
  datatype JobItem = JobItem(customId: string, ref: string, prompt: Prompt)

  datatype Job = Job(kind: Kind, status: JobStatus, items: seq<JobItem>, submittedAt: int)

  datatype State = State(rows: map<string, Row>, jobs: map<nat, Job>)

  /** error is None when the provider reported none for the item. */
  datatype BatchResult = BatchResult(customId: string, output: string, error: Option<string>)

  /** What the provider says about a batch. */
  datatype Poll =
    | Unreachable
    | StillRunning
    | Ended(expired: bool)
    | OutputExpired
    | ResultsUnavailable
    | Results(results: seq<BatchResult>)

  function KindName(k: Kind): string {
    match k
    case ExtractKind => "receipt-extract"
    case VendorKind => "receipt-vendor"
    case ClassifyKind => "receipt-classify"
  }

  function CustomId(k: Kind, ref: string): string {
    KindName(k) + ":" + ref
  }

  lemma CustomIdInjective(k: Kind, a: string, b: string)
    requires CustomId(k, a) == CustomId(k, b)
    ensures a == b
  {
    var n := |KindName(k)| + 1;
    assert CustomId(k, a)[n..] == a && CustomId(k, b)[n..] == b;
  }

  /** Neither do receipts of different kinds. */
  lemma CustomIdTellsKind(k: Kind, a: string, l: Kind, b: string)
    requires CustomId(k, a) == CustomId(l, b)
    ensures k == l && a == b
  {
    assert CustomId(k, a)[8] == KindName(k)[8] && CustomId(l, b)[8] == KindName(l)[8];
    CustomIdInjective(k, a, b);
  }

  // ---- Steps ----

  /** Rows a claim at this stage may return. */
  predicate Claimable(rows: map<string, Row>, stage: Stage, picked: seq<string>) {
    && Distinct(picked)
    && forall r :: r in picked ==> r in rows && rows[r].stage == stage && rows[r].status == Pending
  }

  function Request(w: World, k: Kind, ref: string, row: Row): seq<JobItem> {
    match GatherRow(w, ref, Claimed(row), k)
    case Settled(_) => []
    case Ask(prompt) => [JobItem(CustomId(k, ref), ref, prompt)]
  }

  /** The requests gathered for the picked receipts, in order. */
  function Requests(w: World, rows: map<string, Row>, k: Kind, picked: seq<string>): seq<JobItem>
    requires forall r :: r in picked ==> r in rows
  {
    if picked == [] then []
    else
      assert forall r :: r in picked[..|picked| - 1] ==> r in picked;
      Requests(w, rows, k, picked[..|picked| - 1]) + Request(w, k, picked[|picked| - 1], rows[picked[|picked| - 1]])
  }

  /** A picked receipt is settled, or stays held. */
  function GatheredRow(w: World, k: Kind, ref: string, row: Row): Row {
    match GatherRow(w, ref, Claimed(row), k)
    case Settled(row') => row'
    case Ask(_) => Claimed(row)
  }

  function GatherRows(w: World, rows: map<string, Row>, k: Kind, picked: seq<string>): map<string, Row> {
    map r | r in rows :: if r in picked then GatheredRow(w, k, r, rows[r]) else rows[r]
  }

  function Refs(items: seq<JobItem>): set<string> {
    set i | 0 <= i < |items| :: items[i].ref
  }

  function ResetRows(rows: map<string, Row>, refs: set<string>): map<string, Row> {
    map r | r in rows :: if r in refs then ResetRow(rows[r]) else rows[r]
  }

  /** The routing map of a job: a later item with the same custom id overwrites an earlier one. */
  function RefOf(items: seq<JobItem>, customId: string): Option<string> {
    if items == [] then None
    else if items[|items| - 1].customId == customId then Some(items[|items| - 1].ref)
    else RefOf(items[..|items| - 1], customId)
  }

  /** A receipt's row after the results, each applied to the receipt it is routed to. */
  function FoldRow(w: World, job: Job, ref: string, row: Row, results: seq<BatchResult>): Row {
    if results == [] then row
    else
      var before := FoldRow(w, job, ref, row, results[..|results| - 1]);
      var last := results[|results| - 1];
      if RefOf(job.items, last.customId) == Some(ref) then ApplyRow(w, ref, before, job.kind, last.output, last.error)
      else before
  }

  function ApplyRows(w: World, job: Job, rows: map<string, Row>, results: seq<BatchResult>): map<string, Row> {
    map r | r in rows :: FoldRow(w, job, r, rows[r], results)
  }

  function Enter(s: State, receipt: string): State {
    if receipt in s.rows then s else s.(rows := s.rows[receipt := NEW_ROW])
  }

  function Gather(w: World, s: State, k: Kind, picked: seq<string>, id: nat): State
    requires forall r :: r in picked ==> r in s.rows
  {
    var items := Requests(w, s.rows, k, picked);
    State(GatherRows(w, s.rows, k, picked),
          if items == [] then s.jobs else s.jobs[id := Job(k, Preparing, items, 0)])
  }

  /** SubmitBatch and CreateJob: the job is recorded, or its receipts are reset. */
  function Send(s: State, id: nat, accepted: bool, recorded: bool, at: int): State
    requires id in s.jobs
  {
    var job := s.jobs[id];
    if accepted && recorded then s.(jobs := s.jobs[id := job.(status := Submitted, submittedAt := at)])
    else State(ResetRows(s.rows, Refs(job.items)), s.jobs - {id})
  }

  function MarkJob(s: State, id: nat, status: JobStatus): State
    requires id in s.jobs
  {
    s.(jobs := s.jobs[id := s.jobs[id].(status := status)])
  }

  function ResetJob(s: State, id: nat, status: JobStatus): State
    requires id in s.jobs
  {
    MarkJob(s.(rows := ResetRows(s.rows, Refs(s.jobs[id].items))), id, status)
  }

  /** The provider says that the batch is over, whatever came of it. */
  predicate Terminal(p: Poll) {
    p.Ended? || p.OutputExpired? || p.ResultsUnavailable? || p.Results?
  }

  function CollectJob(w: World, s: State, id: nat, poll: Poll): State
    requires id in s.jobs
  {
    var job := s.jobs[id];
    if !Terminal(poll) then s
    else if job.kind !in w.registered then MarkJob(s, id, Failed)
    else
      match poll
      case Ended(expired) => ResetJob(s, id, if expired then Expired else Failed)
      case OutputExpired => ResetJob(s, id, Expired)
      case Results(results) => MarkJob(s.(rows := ApplyRows(w, job, s.rows, results)), id, Completed)
      case _ => s
  }

  function ResetStuckJob(w: World, s: State, id: nat): State
    requires id in s.jobs
  {
    if s.jobs[id].kind in w.registered then ResetJob(s, id, Expired) else MarkJob(s, id, Expired)
  }

  // ---- The invariant ----

  predicate Live(job: Job) {
    job.status in {Preparing, Submitted}
  }

  ghost predicate Holds(s: State, id: nat, ref: string) {
    id in s.jobs && Live(s.jobs[id]) && ref in Refs(s.jobs[id].items)
  }

  predicate DistinctRefs(items: seq<JobItem>) {
    forall i, j :: 0 <= i < j < |items| ==> items[i].ref != items[j].ref
  }

  /** An item is routed by its own custom id, its receipt is at the job's stage, and the request it was
      sent with is the one its row still asks for. */
  ghost predicate ItemOk(w: World, rows: map<string, Row>, k: Kind, item: JobItem) {
    && item.customId == CustomId(k, item.ref)
    && item.ref in rows
    && rows[item.ref].stage == StageOf(k)
    && GatherRow(w, item.ref, rows[item.ref], k) == Ask(item.prompt)
  }

  ghost predicate JobOk(w: World, rows: map<string, Row>, job: Job) {
    && job.items != [] && DistinctRefs(job.items)
    && forall i :: 0 <= i < |job.items| ==> ItemOk(w, rows, job.kind, job.items[i])
  }

  /** A receipt is in flight exactly when one live job holds it; no two do; and every live job fits its
      receipts. */
  ghost predicate Inv(w: World, s: State) {
    && (forall r :: r in s.rows ==> (s.rows[r].status == InFlight <==> exists id :: Holds(s, id, r)))
    && (forall a, b, r :: Holds(s, a, r) && Holds(s, b, r) ==> a == b)
    && (forall id :: id in s.jobs && Live(s.jobs[id]) ==> JobOk(w, s.rows, s.jobs[id]))
  }

  lemma InFlightHeld(w: World, s: State, r: string) returns (id: nat)
    requires Inv(w, s) && r in s.rows && s.rows[r].status == InFlight
    ensures Holds(s, id, r)
  {
    id :| Holds(s, id, r);
  }

  /** Rewriting rows that a live job does not hold leaves the job in order. */
  lemma JobUntouched(w: World, rows: map<string, Row>, rows': map<string, Row>, job: Job)
    requires JobOk(w, rows, job)
    requires forall r :: r in Refs(job.items) && r in rows ==> r in rows' && rows'[r] == rows[r]
    ensures JobOk(w, rows', job)
  {
    forall i | 0 <= i < |job.items| ensures ItemOk(w, rows', job.kind, job.items[i]) {
      assert ItemOk(w, rows, job.kind, job.items[i]);
      assert job.items[i].ref in Refs(job.items);
    }
  }

  lemma {:induction false} EnterKeepsInv(w: World, s: State, receipt: string)
    requires Inv(w, s)
    ensures Inv(w, Enter(s, receipt))
  {
    if receipt !in s.rows {
      var s' := Enter(s, receipt);
      assert forall id, r :: Holds(s', id, r) <==> Holds(s, id, r);
      forall id | id in s'.jobs && Live(s'.jobs[id]) ensures JobOk(w, s'.rows, s'.jobs[id]) {
        JobUntouched(w, s.rows, s'.rows, s.jobs[id]);
      }
      forall id, r | Holds(s, id, r) ensures r in s.rows {
        HeldIsInFlight(w, s, id, r);
      }
    }
  }

  /** The items name distinct picked receipts, one for each that asks. */
  ghost predicate RequestsOk(w: World, rows: map<string, Row>, k: Kind, picked: seq<string>, items: seq<JobItem>)
    requires forall r :: r in picked ==> r in rows
  {
    && DistinctRefs(items)
    && (forall r :: r in Refs(items) <==> r in picked && GatherRow(w, r, Claimed(rows[r]), k).Ask?)
    && (forall i :: 0 <= i < |items| ==>
          && items[i].ref in picked
          && items[i].customId == CustomId(k, items[i].ref)
          && GatherRow(w, items[i].ref, Claimed(rows[items[i].ref]), k) == Ask(items[i].prompt))
  }

  lemma RefsOfConcat(a: seq<JobItem>, b: seq<JobItem>)
    ensures Refs(a + b) == Refs(a) + Refs(b)
  {
    forall r ensures r in Refs(a + b) <==> r in Refs(a) + Refs(b) {
      if r in Refs(a) {
        var i :| 0 <= i < |a| && a[i].ref == r;
        assert (a + b)[i].ref == r;
      } else if r in Refs(b) {
        var i :| 0 <= i < |b| && b[i].ref == r;
        assert (a + b)[|a| + i].ref == r;
      }
    }
  }

  lemma RefsOfRequest(w: World, k: Kind, ref: string, row: Row)
    ensures Refs(Request(w, k, ref, row)) == if GatherRow(w, ref, Claimed(row), k).Ask? then {ref} else {}
  {
    var items := Request(w, k, ref, row);
    if items != [] {
      assert items[0].ref == ref;
    }
  }

  lemma DistinctWithOneMore(before: seq<JobItem>, item: JobItem)
    requires DistinctRefs(before) && item.ref !in Refs(before)
    ensures DistinctRefs(before + [item])
  {
    assert forall i :: 0 <= i < |before| ==> before[i].ref in Refs(before);
  }

  lemma OneMoreRequest(w: World, rows: map<string, Row>, k: Kind, init: seq<string>, last: string, before: seq<JobItem>)
    requires last !in init && forall r :: r in init + [last] ==> r in rows
    requires (forall r :: r in init ==> r in init + [last]) && RequestsOk(w, rows, k, init, before)
    ensures RequestsOk(w, rows, k, init + [last], before + Request(w, k, last, rows[last]))
  {
    var more := Request(w, k, last, rows[last]);
    RefsOfConcat(before, more);
    RefsOfRequest(w, k, last, rows[last]);
    if more != [] {
      DistinctWithOneMore(before, more[0]);
    } else {
      assert before + more == before;
    }
  }

  lemma {:induction false} RequestsFit(w: World, rows: map<string, Row>, k: Kind, picked: seq<string>)
    requires Distinct(picked) && forall r :: r in picked ==> r in rows && rows[r].stage == StageOf(k)
    ensures RequestsOk(w, rows, k, picked, Requests(w, rows, k, picked))
  {
    if picked != [] {
      var init, last := picked[..|picked| - 1], picked[|picked| - 1];
      assert picked == init + [last];
      RequestsFit(w, rows, k, init);
      OneMoreRequest(w, rows, k, init, last, Requests(w, rows, k, init));
    }
  }

  /** Claiming picks nothing that a live job holds. */
  lemma PickedIsFree(w: World, s: State, k: Kind, picked: seq<string>)
    requires Inv(w, s) && Claimable(s.rows, StageOf(k), picked)
    ensures forall j, r :: Holds(s, j, r) ==> r !in picked
  {
    forall j, r | Holds(s, j, r) ensures r !in picked {
      HeldIsInFlight(w, s, j, r);
    }
  }

  lemma {:induction false} GatherKeepsInv(w: World, s: State, k: Kind, picked: seq<string>, id: nat)
    requires Inv(w, s)
    requires Claimable(s.rows, StageOf(k), picked) && id !in s.jobs
    ensures Inv(w, Gather(w, s, k, picked, id))
  {
    var s' := Gather(w, s, k, picked, id);
    var items := Requests(w, s.rows, k, picked);
    RequestsFit(w, s.rows, k, picked);
    PickedIsFree(w, s, k, picked);
    assert items == [] ==> Refs(items) == {};
    assert forall j, r :: Holds(s', j, r) <==> Holds(s, j, r) || (j == id && r in Refs(items));
    forall j | j in s'.jobs && Live(s'.jobs[j]) ensures JobOk(w, s'.rows, s'.jobs[j]) {
      if j in s.jobs {
        assert forall r :: r in Refs(s.jobs[j].items) ==> Holds(s, j, r);
        JobUntouched(w, s.rows, s'.rows, s.jobs[j]);
      } else {
        GatheredJobOk(w, s.rows, k, picked);
      }
    }
    forall r | r in s'.rows ensures s'.rows[r].status == InFlight <==> exists j :: Holds(s', j, r) {
      if r in picked {
        GatheredStatus(w, k, r, s.rows[r]);
        assert r in Refs(items) ==> Holds(s', id, r);
      } else if s.rows[r].status == InFlight {
        var j := InFlightHeld(w, s, r);
        assert Holds(s', j, r);
      }
    }
  }

  lemma GatheredStatus(w: World, k: Kind, r: string, row: Row)
    requires row.stage == StageOf(k)
    ensures GatheredRow(w, k, r, row).status == InFlight <==> GatherRow(w, r, Claimed(row), k).Ask?
  {
    if GatherRow(w, r, Claimed(row), k).Settled? {
      GatherMovesForward(w, r, Claimed(row), k);
    }
  }

  lemma GatheredJobOk(w: World, rows: map<string, Row>, k: Kind, picked: seq<string>)
    requires Claimable(rows, StageOf(k), picked) && Requests(w, rows, k, picked) != []
    ensures JobOk(w, GatherRows(w, rows, k, picked), Job(k, Preparing, Requests(w, rows, k, picked), 0))
  {
    RequestsFit(w, rows, k, picked);
    var items := Requests(w, rows, k, picked);
    forall i | 0 <= i < |items| ensures ItemOk(w, GatherRows(w, rows, k, picked), k, items[i]) {
      assert items[i].ref in picked;
    }
  }

  lemma HeldIsInFlight(w: World, s: State, id: nat, r: string)
    requires Inv(w, s) && Holds(s, id, r)
    ensures r in s.rows && s.rows[r].status == InFlight && s.rows[r].stage == StageOf(s.jobs[id].kind)
  {
    var i :| 0 <= i < |s.jobs[id].items| && s.jobs[id].items[i].ref == r;
    assert ItemOk(w, s.rows, s.jobs[id].kind, s.jobs[id].items[i]);
  }

  /** Ending a live job keeps the invariant exactly when none of its receipts stays in flight, provided the
      other rows are untouched and the receipts of other jobs are, too. */
  lemma {:induction false} EndJob(w: World, s: State, s': State, id: nat)
    requires Inv(w, s) && id in s.jobs && Live(s.jobs[id])
    requires s'.rows.Keys == s.rows.Keys
    requires forall r :: r in s.rows && r !in Refs(s.jobs[id].items) ==> s'.rows[r] == s.rows[r]
    requires forall j :: j != id ==> (j in s'.jobs <==> j in s.jobs)
    requires forall j :: j != id && j in s.jobs ==> s'.jobs[j] == s.jobs[j]
    requires id in s'.jobs ==> !Live(s'.jobs[id])
    ensures Inv(w, s') <==> forall r :: r in Refs(s.jobs[id].items) ==> r in s'.rows && s'.rows[r].status == Pending
  {
    assert forall r :: r in Refs(s.jobs[id].items) ==> Holds(s, id, r);
    assert forall j, r :: Holds(s', j, r) <==> j != id && Holds(s, j, r);
    forall r | r in Refs(s.jobs[id].items) ensures r in s'.rows && !exists j :: Holds(s', j, r) {
      HeldIsInFlight(w, s, id, r);
    }
    forall j | j in s'.jobs && Live(s'.jobs[j]) ensures JobOk(w, s'.rows, s'.jobs[j]) {
      forall r | r in Refs(s.jobs[j].items) && r in s.rows ensures s'.rows[r] == s.rows[r] {
        assert Holds(s, j, r);
      }
      JobUntouched(w, s.rows, s'.rows, s.jobs[j]);
    }
    forall r | r in s'.rows && r !in Refs(s.jobs[id].items)
      ensures s'.rows[r].status == InFlight <==> exists j :: Holds(s', j, r)
    {
      if s.rows[r].status == InFlight {
        var j := InFlightHeld(w, s, r);
        assert Holds(s', j, r);
      }
    }
  }

  lemma SendKeepsInv(w: World, s: State, id: nat, accepted: bool, recorded: bool, at: int)
    requires Inv(w, s) && id in s.jobs && s.jobs[id].status == Preparing
    ensures Inv(w, Send(s, id, accepted, recorded, at))
  {
    var s' := Send(s, id, accepted, recorded, at);
    if accepted && recorded {
      assert forall j, r :: Holds(s', j, r) <==> Holds(s, j, r);
      forall r | r in s'.rows ensures s'.rows[r].status == InFlight <==> exists j :: Holds(s', j, r) {
        if s.rows[r].status == InFlight {
          var j := InFlightHeld(w, s, r);
          assert Holds(s', j, r);
        }
      }
      assert JobOk(w, s.rows, s.jobs[id]);
    } else {
      ResetReleases(w, s, id);
      EndJob(w, s, s', id);
    }
  }

  lemma ResetReleases(w: World, s: State, id: nat)
    requires Inv(w, s) && id in s.jobs && Live(s.jobs[id])
    ensures var rows := ResetRows(s.rows, Refs(s.jobs[id].items));
      forall r :: r in Refs(s.jobs[id].items) ==> r in rows && rows[r].status == Pending
  {
    forall r | r in Refs(s.jobs[id].items) ensures r in s.rows {
      assert Holds(s, id, r);
      HeldIsInFlight(w, s, id, r);
    }
  }

  /** Routing in a job in order: a custom id leads to the receipt it was made from. */
  lemma {:induction false} RoutedBack(w: World, rows: map<string, Row>, job: Job, n: nat, customId: string)
    requires n <= |job.items| && forall i :: 0 <= i < n ==>
        job.items[i].customId == CustomId(job.kind, job.items[i].ref)
    ensures var to := RefOf(job.items[..n], customId);
      && (to.Some? ==> customId == CustomId(job.kind, to.value) && to.value in Refs(job.items))
      && (forall i :: 0 <= i < n && job.items[i].customId == customId ==> to == Some(job.items[i].ref))
  {
    if n > 0 {
      assert job.items[..n][..n - 1] == job.items[..n - 1];
      RoutedBack(w, rows, job, n - 1, customId);
      if job.items[n - 1].customId == customId {
        forall i | 0 <= i < n && job.items[i].customId == customId ensures job.items[i].ref == job.items[n - 1].ref {
          CustomIdInjective(job.kind, job.items[i].ref, job.items[n - 1].ref);
        }
      }
    }
  }

  /** In a live job, a result is routed to the receipt whose custom id it carries, if the job has it. */
  lemma Routing(w: World, rows: map<string, Row>, job: Job, customId: string)
    requires JobOk(w, rows, job)
    ensures forall r :: RefOf(job.items, customId) == Some(r) <==>
        r in Refs(job.items) && customId == CustomId(job.kind, r)
  {
    forall i | 0 <= i < |job.items| ensures job.items[i].customId == CustomId(job.kind, job.items[i].ref) {
      assert ItemOk(w, rows, job.kind, job.items[i]);
    }
    assert job.items[..|job.items|] == job.items;
    RoutedBack(w, rows, job, |job.items|, customId);
  }

  ghost predicate Answers(results: seq<BatchResult>, customId: string) {
    exists i :: 0 <= i < |results| && results[i].customId == customId
  }

  /** Every item has a result. */
  ghost predicate Covers(job: Job, results: seq<BatchResult>) {
    forall i :: 0 <= i < |job.items| ==> Answers(results, job.items[i].customId)
  }

  predicate DistinctResults(results: seq<BatchResult>) {
    forall i, j :: 0 <= i < j < |results| ==> results[i].customId != results[j].customId
  }

  /** Applying results releases a receipt exactly when one of them is for it, and leaves it alone otherwise. */
  lemma {:induction false} FoldReleases(w: World, rows: map<string, Row>, job: Job, r: string, row: Row,
      results: seq<BatchResult>)
    requires JobOk(w, rows, job)
    ensures var after := FoldRow(w, job, r, row, results);
      if r in Refs(job.items) && Answers(results, CustomId(job.kind, r)) then after.status == Pending else after == row
  {
    if results != [] {
      var init, last := results[..|results| - 1], results[|results| - 1];
      FoldReleases(w, rows, job, r, row, init);
      Routing(w, rows, job, last.customId);
      ApplyMovesForward(w, r, FoldRow(w, job, r, row, init), job.kind, last.output, last.error);
      AnswersSnoc(results, CustomId(job.kind, r));
    }
  }

  lemma AnswersSnoc(results: seq<BatchResult>, customId: string)
    requires results != []
    ensures Answers(results, customId) <==>
            Answers(results[..|results| - 1], customId) || results[|results| - 1].customId == customId
  {
    var init := results[..|results| - 1];
    if Answers(init, customId) {
      var i :| 0 <= i < |init| && init[i].customId == customId;
      assert results[i].customId == customId;
    }
    if Answers(results, customId) {
      var i :| 0 <= i < |results| && results[i].customId == customId;
      assert i < |init| ==> init[i].customId == customId;
    }
  }

  /** A live job holds somebody, and everybody it holds is in flight. */
  lemma LiveJobHolds(w: World, s: State, id: nat)
    requires Inv(w, s) && id in s.jobs && Live(s.jobs[id])
    ensures Refs(s.jobs[id].items) != {}
    ensures forall r :: r in Refs(s.jobs[id].items) ==> r in s.rows && s.rows[r].status == InFlight
  {
    var job := s.jobs[id];
    assert JobOk(w, s.rows, job);
    assert job.items[0].ref in Refs(job.items);
    forall r | r in Refs(job.items) ensures r in s.rows && s.rows[r].status == InFlight {
      assert Holds(s, id, r);
      HeldIsInFlight(w, s, id, r);
    }
  }

  lemma AppliedJobKeepsInvIff(w: World, s: State, id: nat, results: seq<BatchResult>)
    requires Inv(w, s) && id in s.jobs && s.jobs[id].status == Submitted
    ensures Inv(w, MarkJob(s.(rows := ApplyRows(w, s.jobs[id], s.rows, results)), id, Completed))
            <==> Covers(s.jobs[id], results)
  {
    var job := s.jobs[id];
    var s' := MarkJob(s.(rows := ApplyRows(w, job, s.rows, results)), id, Completed);
    LiveJobHolds(w, s, id);
    assert JobOk(w, s.rows, job);
    ApplyReleases(w, s.rows, job, results);
    EndJob(w, s, s', id);
    CoversIsEveryRef(w, s.rows, job, results);
  }

  lemma UnregisteredJobStrands(w: World, s: State, id: nat, status: JobStatus)
    requires Inv(w, s) && id in s.jobs && s.jobs[id].status == Submitted && status !in {Preparing, Submitted}
    ensures !Inv(w, MarkJob(s, id, status))
  {
    LiveJobHolds(w, s, id);
    EndJob(w, s, MarkJob(s, id, status), id);
    var r :| r in Refs(s.jobs[id].items);
    assert s.rows[r].status != Pending;
  }

  lemma ResetJobKeepsInv(w: World, s: State, id: nat, status: JobStatus)
    requires Inv(w, s) && id in s.jobs && s.jobs[id].status == Submitted && s.jobs[id].kind in w.registered
    requires status !in {Preparing, Submitted}
    ensures Inv(w, ResetJob(s, id, status))
  {
    ResetReleases(w, s, id);
    EndJob(w, s, ResetJob(s, id, status), id);
  }

  /** Exactly when collecting a submitted job strands nobody: its kind is registered if the batch is over,
      and a completed batch returned a result for every item. */
  lemma CollectKeepsInvIff(w: World, s: State, id: nat, poll: Poll)
    requires Inv(w, s) && id in s.jobs && s.jobs[id].status == Submitted
    ensures Inv(w, CollectJob(w, s, id, poll)) <==>
            && (Terminal(poll) ==> s.jobs[id].kind in w.registered)
            && (poll.Results? ==> Covers(s.jobs[id], poll.results))
  {
    if Terminal(poll) && s.jobs[id].kind !in w.registered {
      UnregisteredJobStrands(w, s, id, Failed);
    } else if poll.Results? {
      AppliedJobKeepsInvIff(w, s, id, poll.results);
    } else if poll.Ended? {
      ResetJobKeepsInv(w, s, id, if poll.expired then Expired else Failed);
    } else if poll.OutputExpired? {
      ResetJobKeepsInv(w, s, id, Expired);
    }
  }

  lemma ApplyReleases(w: World, rows: map<string, Row>, job: Job, results: seq<BatchResult>)
    requires JobOk(w, rows, job)
    ensures var rows' := ApplyRows(w, job, rows, results);
      forall r :: r in rows ==>
        if r in Refs(job.items) && Answers(results, CustomId(job.kind, r)) then rows'[r].status == Pending
        else rows'[r] == rows[r]
  {
    forall r | r in rows
      ensures var after := FoldRow(w, job, r, rows[r], results);
        if r in Refs(job.items) && Answers(results, CustomId(job.kind, r)) then after.status == Pending
        else after == rows[r]
    {
      FoldReleases(w, rows, job, r, rows[r], results);
    }
  }

  lemma CoversIsEveryRef(w: World, rows: map<string, Row>, job: Job, results: seq<BatchResult>)
    requires JobOk(w, rows, job)
    ensures Covers(job, results) <==> forall r :: r in Refs(job.items) ==> Answers(results, CustomId(job.kind, r))
  {
    assert forall i :: 0 <= i < |job.items| ==> ItemOk(w, rows, job.kind, job.items[i]);
    assert forall i :: 0 <= i < |job.items| ==> job.items[i].ref in Refs(job.items);
  }

  /** Resetting a stuck job strands nobody exactly when its kind is registered. */
  lemma ResetStuckKeepsInvIff(w: World, s: State, id: nat)
    requires Inv(w, s) && id in s.jobs && s.jobs[id].status == Submitted
    ensures Inv(w, ResetStuckJob(w, s, id)) <==> s.jobs[id].kind in w.registered
  {
    var job := s.jobs[id];
    assert JobOk(w, s.rows, job);
    assert job.items[0].ref in Refs(job.items);
    assert Holds(s, id, job.items[0].ref);
    HeldIsInFlight(w, s, id, job.items[0].ref);
    ResetReleases(w, s, id);
    EndJob(w, s, ResetStuckJob(w, s, id), id);
  }
}
