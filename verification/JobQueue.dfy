/** The database-backed work queue: many workers claim jobs from one table. */
module JobQueue {
  import opened Lists
  import opened Wrappers

  datatype Status = Queued | Processing | Failed | Finished | Dead

  /** A row of receipt_jobs. */
  datatype Job = Job(
    receipt: string, stage: string, status: Status, attempts: nat,
    lockedUntil: Option<int>, lockedBy: Option<string>, createdAt: int)

  /** A claim after defaulting: the batch is 10, the lock 300 seconds and the limit 5 unless given. */
  datatype ClaimRequest = ClaimRequest(worker: string, stage: string, batchSize: int, lockSeconds: int,
      maxAttempts: int)

  function Defaulted(req: ClaimRequest): ClaimRequest {
    req.(batchSize := if req.batchSize <= 0 then 10 else req.batchSize,
         lockSeconds := if req.lockSeconds <= 0 then 300 else req.lockSeconds,
         maxAttempts := if req.maxAttempts <= 0 then 5 else req.maxAttempts)
  }

  predicate Eligible(job: Job, req: ClaimRequest, now: int) {
    && job.status in {Queued, Failed}
    && job.attempts < Defaulted(req).maxAttempts
    && (job.lockedUntil.None? || job.lockedUntil.value < now)
    && (req.stage == "" || job.stage == req.stage)
  }

  function ClaimedJob(job: Job, req: ClaimRequest, now: int): Job {
    job.(status := Processing, attempts := job.attempts + 1,
         lockedUntil := Some(now + Defaulted(req).lockSeconds), lockedBy := Some(req.worker))
  }

  function ClaimJobs(jobs: map<nat, Job>, picked: seq<nat>, req: ClaimRequest, now: int): map<nat, Job> {
    map id | id in jobs :: if id in picked then ClaimedJob(jobs[id], req, now) else jobs[id]
  }

  function Release(jobs: map<nat, Job>, id: nat, status: Status): map<nat, Job> {
    if id in jobs then jobs[id := jobs[id].(status := status, lockedUntil := None, lockedBy := None)] else jobs
  }

  function NewJob(receipt: string, stage: string, now: int): Job {
    Job(receipt, if stage == "" then "ocr" else stage, Queued, 0, None, None, now)
  }

  /** A claim takes distinct eligible jobs, at most a batch of them. Rows that another claim has locked are
      skipped, so which ones it takes is open here. */
  predicate Claimable(jobs: map<nat, Job>, req: ClaimRequest, now: int, picked: seq<nat>) {
    && Distinct(picked) && |picked| <= Defaulted(req).batchSize
    && forall id :: id in picked ==> id in jobs && Eligible(jobs[id], req, now)
  }

  /** A claim that nothing else competes with takes the oldest eligible jobs, as many as fit. */
  predicate TakesOldest(jobs: map<nat, Job>, req: ClaimRequest, now: int, picked: seq<nat>) {
    && (forall id, other ::
          id in picked && id in jobs && other in jobs && other !in picked && Eligible(jobs[other], req, now) ==>
          jobs[id].createdAt <= jobs[other].createdAt)
    && (|picked| < Defaulted(req).batchSize ==> forall id :: id in jobs && Eligible(jobs[id], req, now) ==>
         id in picked)
    && (forall i, j :: 0 <= i < j < |picked| && picked[i] in jobs && picked[j] in jobs ==>
          jobs[picked[i]].createdAt <= jobs[picked[j]].createdAt)
  }

  class DBQueue {
    var jobs: map<nat, Job>
    var nextId: nat

    ghost predicate Valid()
      reads this
    {
      forall id :: id in jobs ==> id < nextId
    }

    constructor ()
      ensures Valid() && jobs == map[]
    {
      jobs, nextId := map[], 0;
    }

    method Enqueue(receipt: string, stage: string, now: int) returns (id: nat)
      requires Valid()
      modifies this
      ensures Valid() && id !in old(jobs) && jobs == old(jobs)[id := NewJob(receipt, stage, now)]
    {
      id := nextId;
      var first := stage;
      if first == "" {
        first := "ocr";
      }
      jobs := jobs[id := Job(receipt, first, Queued, 0, None, None, now)];
      nextId := nextId + 1;
    }

    /** The oldest of a set of jobs. */
    method Oldest(ids: set<nat>) returns (oldest: nat)
      requires ids != {} && ids <= jobs.Keys
      ensures oldest in ids && forall id :: id in ids ==> jobs[oldest].createdAt <= jobs[id].createdAt
    {
      oldest :| oldest in ids;
      var rest := ids - {oldest};
      while rest != {}
        invariant oldest in ids && rest <= ids
        invariant forall id :: id in ids && id !in rest ==> jobs[oldest].createdAt <= jobs[id].createdAt
      {
        var id :| id in rest;
        if jobs[id].createdAt < jobs[oldest].createdAt {
          oldest := id;
        }
        rest := rest - {id};
      }
    }

    /** ORDER BY created_at LIMIT batch over the eligible jobs; no stage means any. */
    method SelectOldest(stage: string, batch: nat, limit: int, now: int, ghost req: ClaimRequest)
      returns (picked: seq<nat>)
      requires req.stage == stage && Defaulted(req).batchSize == batch && Defaulted(req).maxAttempts == limit
      ensures Claimable(jobs, req, now, picked) && TakesOldest(jobs, req, now, picked)
    {
      var open := set id | id in jobs && jobs[id].status in {Queued, Failed} && jobs[id].attempts < limit
                           && (jobs[id].lockedUntil.None? || jobs[id].lockedUntil.value < now)
                           && (stage == "" || jobs[id].stage == stage);
      assert forall id :: id in open <==> id in jobs && Eligible(jobs[id], req, now);
      picked := [];
      while |picked| < batch && open != {}
        invariant |picked| <= batch && Distinct(picked)
        invariant forall id :: id in picked || id in open <==> id in jobs && Eligible(jobs[id], req, now)
        invariant forall id :: id in picked ==> id !in open
        invariant forall id, other :: id in picked && other in open ==> jobs[id].createdAt <= jobs[other].createdAt
        invariant forall i, j :: 0 <= i < j < |picked| ==> jobs[picked[i]].createdAt <= jobs[picked[j]].createdAt
        decreases open
      {
        var id := Oldest(open);
        picked, open := picked + [id], open - {id};
      }
    }

    method Claim(req: ClaimRequest, now: int) returns (picked: seq<nat>)
      requires Valid()
      modifies this
      ensures Valid() && Claimable(old(jobs), req, now, picked) && TakesOldest(old(jobs), req, now, picked)
      ensures jobs == ClaimJobs(old(jobs), picked, req, now)
    {
      var batch, lock, limit := req.batchSize, req.lockSeconds, req.maxAttempts;
      if batch <= 0 {
        batch := 10;
      }
      if lock <= 0 {
        lock := 300;
      }
      if limit <= 0 {
        limit := 5;
      }
      picked := SelectOldest(req.stage, batch, limit, now, req);
      Lock(picked, now + lock, req.worker);
    }

    method Lock(picked: seq<nat>, until: int, worker: string)
      modifies this`jobs
      ensures jobs == map id | id in old(jobs) ::
        if id in picked
        then Job(old(jobs)[id].receipt, old(jobs)[id].stage, Processing, old(jobs)[id].attempts + 1, Some(until),
                 Some(worker), old(jobs)[id].createdAt)
        else old(jobs)[id]
    {
      jobs := map id | id in jobs ::
        if id in picked
        then jobs[id].(status := Processing, attempts := jobs[id].attempts + 1, lockedUntil := Some(until),
                       lockedBy := Some(worker))
        else jobs[id];
    }

    method Ack(id: nat)
      requires Valid()
      modifies this
      ensures Valid() && jobs == Release(old(jobs), id, Finished)
    {
      if id in jobs {
        jobs := jobs[id := jobs[id].(status := Finished, lockedUntil := None, lockedBy := None)];
      }
    }

    method Fail(id: nat, retry: bool)
      requires Valid()
      modifies this
      ensures Valid() && jobs == Release(old(jobs), id, if retry then Failed else Dead)
    {
      var status := Failed;
      if !retry {
        status := Dead;
      }
      if id in jobs {
        jobs := jobs[id := jobs[id].(status := status, lockedUntil := None, lockedBy := None)];
      }
    }

    method Requeue(id: nat)
      requires Valid()
      modifies this
      ensures Valid() && jobs == Release(old(jobs), id, Queued)
    {
      if id in jobs {
        jobs := jobs[id := jobs[id].(status := Queued, lockedUntil := None, lockedBy := None)];
      }
    }
  }

  // ---- Whole runs ----

  /** now is the database clock of the statement; it need not move steadily. */
  datatype Event =
    | EnqueueEvent(id: nat, receipt: string, stage: string, now: int)
    | ClaimEvent(req: ClaimRequest, picked: seq<nat>, now: int)
    | AckEvent(id: nat)
    | FailEvent(id: nat, retry: bool)
    | RequeueEvent(id: nat)

  predicate Enabled(jobs: map<nat, Job>, e: Event) {
    match e
    case EnqueueEvent(id, _, _, _) => id !in jobs
    case ClaimEvent(req, picked, now) => Claimable(jobs, req, now, picked)
    case _ => true
  }

  function Next(jobs: map<nat, Job>, e: Event): map<nat, Job> {
    match e
    case EnqueueEvent(id, receipt, stage, now) => jobs[id := NewJob(receipt, stage, now)]
    case ClaimEvent(req, picked, now) => ClaimJobs(jobs, picked, req, now)
    case AckEvent(id) => Release(jobs, id, Finished)
    case FailEvent(id, retry) => Release(jobs, id, if retry then Failed else Dead)
    case RequeueEvent(id) => Release(jobs, id, Queued)
  }

  ghost predicate Run(trace: seq<map<nat, Job>>, events: seq<Event>) {
    && |trace| == |events| + 1 && trace[0] == map[]
    && forall i :: 0 <= i < |events| ==> Enabled(trace[i], events[i]) && trace[i + 1] == Next(trace[i], events[i])
  }

  predicate Claims(e: Event, id: nat) {
    e.ClaimEvent? && id in e.picked
  }

  /** How often the job was claimed. */
  function ClaimCount(events: seq<Event>, id: nat): nat {
    if events == [] then 0
    else ClaimCount(events[..|events| - 1], id) + if Claims(events[|events| - 1], id) then 1 else 0
  }

  /** A lock is held exactly while the job is being processed. */
  predicate LockedWhileProcessing(job: Job) {
    (job.lockedUntil.Some? <==> job.status == Processing) && (job.lockedBy.Some? <==> job.status == Processing)
  }

  lemma {:induction false} LocksAndCounts(trace: seq<map<nat, Job>>, events: seq<Event>, n: nat, id: nat)
    requires Run(trace, events) && n < |trace|
    ensures id in trace[n] ==>
      LockedWhileProcessing(trace[n][id]) && trace[n][id].attempts == ClaimCount(events[..n], id)
    ensures id !in trace[n] ==> ClaimCount(events[..n], id) == 0
  {
    if n > 0 {
      LocksAndCounts(trace, events, n - 1, id);
      assert events[..n][..n - 1] == events[..n - 1];
      assert Enabled(trace[n - 1], events[n - 1]) && trace[n] == Next(trace[n - 1], events[n - 1]);
    }
  }

  /** With one attempt limit for all claims, no job is ever claimed more often - not even across requeues. */
  lemma {:induction false} NeverBeyondLimit(trace: seq<map<nat, Job>>, events: seq<Event>, limit: nat, n: nat, id: nat)
    requires Run(trace, events) && n < |trace|
    requires forall i :: 0 <= i < |events| && events[i].ClaimEvent? ==> Defaulted(events[i].req).maxAttempts == limit
    ensures ClaimCount(events[..n], id) <= limit
  {
    if n > 0 {
      NeverBeyondLimit(trace, events, limit, n - 1, id);
      LocksAndCounts(trace, events, n - 1, id);
      assert events[..n][..n - 1] == events[..n - 1];
      assert Enabled(trace[n - 1], events[n - 1]);
    }
  }

  /** In every run a job that can be claimed is unlocked: only its status, its attempts and its stage decide. */
  lemma EligibleExactlyWhen(trace: seq<map<nat, Job>>, events: seq<Event>, n: nat, id: nat, req: ClaimRequest, now: int)
    requires Run(trace, events) && n < |trace| && id in trace[n]
    ensures Eligible(trace[n][id], req, now) <==>
            && (trace[n][id].status == Queued || trace[n][id].status == Failed)
            && ClaimCount(events[..n], id) < (if req.maxAttempts > 0 then req.maxAttempts else 5)
            && (req.stage != "" ==> trace[n][id].stage == req.stage)
  {
    LocksAndCounts(trace, events, n, id);
  }

  predicate MakesClaimable(e: Event, id: nat) {
    e == FailEvent(id, true) || e == RequeueEvent(id)
  }

  lemma {:induction false} StaysTaken(trace: seq<map<nat, Job>>, events: seq<Event>, m: nat, n: nat, id: nat)
    requires Run(trace, events) && m <= n < |trace|
    requires id in trace[m] && trace[m][id].status !in {Queued, Failed}
    requires forall k :: m <= k < n ==> !MakesClaimable(events[k], id)
    ensures id in trace[n] && trace[n][id].status !in {Queued, Failed}
    decreases n
  {
    if m < n {
      StaysTaken(trace, events, m, n - 1, id);
      assert Enabled(trace[n - 1], events[n - 1]) && trace[n] == Next(trace[n - 1], events[n - 1]);
      assert !MakesClaimable(events[n - 1], id);
    }
  }

  /** No job goes to two claims unless it was failed for retry or requeued in between - an expired lock
      alone does not release it. */
  lemma NoDoubleClaim(trace: seq<map<nat, Job>>, events: seq<Event>, m: nat, n: nat, id: nat)
    requires Run(trace, events) && m < n < |events|
    requires Claims(events[m], id) && Claims(events[n], id)
    ensures exists k :: m < k < n && MakesClaimable(events[k], id)
  {
    assert Enabled(trace[m], events[m]) && trace[m + 1] == Next(trace[m], events[m]);
    assert Enabled(trace[n], events[n]);
    if forall k :: m < k < n ==> !MakesClaimable(events[k], id) {
      StaysTaken(trace, events, m + 1, n, id);
    }
  }
}
