/** The batch tasks over their tables, as the scheduled jobs run them. */
module BatchService {
  import opened Lists
  import opened Wrappers
  import opened Pipeline
  import opened ReceiptStages
  import opened BatchProtocol

  const BATCH_LIMIT := 200

  /** A Collect pass over these jobs, one after the other. */
  function CollectPass(w: World, s: State, ids: seq<nat>, polls: nat -> Poll): (s': State)
    requires forall id :: id in ids ==> id in s.jobs
    ensures s'.jobs.Keys == s.jobs.Keys
  {
    if ids == [] then s
    else
      assert forall id :: id in ids[..|ids| - 1] ==> id in ids;
      CollectJob(w, CollectPass(w, s, ids[..|ids| - 1], polls), ids[|ids| - 1], polls(ids[|ids| - 1]))
  }

  /** A ResetStuck pass over these jobs. */
  function ResetPass(w: World, s: State, ids: seq<nat>): (s': State)
    requires forall id :: id in ids ==> id in s.jobs
    ensures s'.jobs.Keys == s.jobs.Keys
  {
    if ids == [] then s
    else
      assert forall id :: id in ids[..|ids| - 1] ==> id in ids;
      ResetStuckJob(w, ResetPass(w, s, ids[..|ids| - 1]), ids[|ids| - 1])
  }

  /** Collecting one job of a pass. */
  lemma CollectedKeepsOthers(w: World, s: State, id: nat, poll: Poll)
    requires Inv(w, s) && id in s.jobs && s.jobs[id].status == Submitted && s.jobs[id].kind in w.registered
    requires poll.Results? ==> Covers(s.jobs[id], poll.results)
    ensures Inv(w, CollectJob(w, s, id, poll))
    ensures forall other :: other in s.jobs && other != id ==> CollectJob(w, s, id, poll).jobs[other] == s.jobs[other]
  {
    CollectKeepsInvIff(w, s, id, poll);
  }

  /** A whole Collect pass strands nobody: every job it treats is still as the pass found it when its turn
      comes. */
  lemma {:induction false} CollectPassKeepsInv(w: World, s: State, ids: seq<nat>, polls: nat -> Poll)
    requires Inv(w, s) && Distinct(ids) && forall k :: k in w.registered
    requires forall id :: id in ids ==>
      && id in s.jobs && s.jobs[id].status == Submitted
      && (polls(id).Results? ==> Covers(s.jobs[id], polls(id).results))
    ensures Inv(w, CollectPass(w, s, ids, polls))
    ensures forall id :: id in s.jobs && id !in ids ==> CollectPass(w, s, ids, polls).jobs[id] == s.jobs[id]
  {
    if ids != [] {
      var init, last := ids[..|ids| - 1], ids[|ids| - 1];
      assert forall id :: id in init ==> id in ids;
      assert last in ids && last !in init;
      CollectPassKeepsInv(w, s, init, polls);
      CollectedKeepsOthers(w, CollectPass(w, s, init, polls), last, polls(last));
    }
  }

  /** A submission that asks something: the job is recorded, or its receipts are reset and it is gone. */
  lemma SubmissionIs(w: World, s: State, k: Kind, picked: seq<string>, id: nat, accepted: bool, recorded: bool, at: int)
    requires (forall r :: r in picked ==> r in s.rows) && id !in s.jobs && Requests(w, s.rows, k, picked) != []
    ensures var items, rows := Requests(w, s.rows, k, picked), GatherRows(w, s.rows, k, picked);
      Send(Gather(w, s, k, picked, id), id, accepted, recorded, at) ==
      if accepted && recorded then State(rows, s.jobs[id := Job(k, Submitted, items, at)])
      else State(ResetRows(rows, Refs(items)), s.jobs)
  {
    TakenOutAgain(s.jobs, id, Job(k, Preparing, Requests(w, s.rows, k, picked), 0));
  }

  lemma TakenOutAgain(jobs: map<nat, Job>, id: nat, job: Job)
    requires id !in jobs
    ensures jobs[id := job] - {id} == jobs
  {
  }

  /** The domain ids of a list of items. */
  method RefIds(items: seq<JobItem>) returns (refs: seq<string>)
    ensures (set i | 0 <= i < |refs| :: refs[i]) == Refs(items)
  {
    refs := [];
    for i := 0 to |items|
      invariant |refs| == i && forall j :: 0 <= j < i ==> refs[j] == items[j].ref
    {
      refs := refs + [items[i].ref];
    }
  }

  predicate IsPending(rows: map<string, Row>, stage: Stage, r: string) {
    r in rows && rows[r].stage == stage && rows[r].status == Pending
  }

  /** The first two hundred of the stage's pending receipts, counted from the one updated longest ago. */
  ghost predicate LongestWaiting(rows: map<string, Row>, stage: Stage, picked: seq<string>,
      updatedAt: string -> int)
  {
    && |picked| <= 200
    && (|picked| < 200 ==> forall r :: IsPending(rows, stage, r) ==> r in picked)
    && forall r, other :: r in picked && IsPending(rows, stage, other) && other !in picked ==>
         updatedAt(r) <= updatedAt(other)
  }

  class Tables {
    const w: World
    var rows: map<string, Row>
    var jobs: map<nat, Job>
    var nextJob: nat

    ghost predicate Valid()
      reads this
    {
      forall id :: id in jobs ==> id < nextJob
    }

    ghost function View(): State
      reads this
    {
      State(rows, jobs)
    }

    constructor (w: World)
      ensures Valid() && View() == State(map[], map[]) && this.w == w
    {
      this.w := w;
      rows, jobs, nextJob := map[], map[], 0;
    }

    method Ensure(receipt: string)
      modifies this`rows
      ensures View() == Enter(old(View()), receipt)
    {
      if receipt !in rows {
        rows := rows[receipt := NEW_ROW];
      }
    }

    /** The receipt that was updated longest ago. */
    method Oldest(receipts: set<string>, updatedAt: string -> int) returns (oldest: string)
      requires receipts != {}
      ensures oldest in receipts && forall r :: r in receipts ==> updatedAt(oldest) <= updatedAt(r)
    {
      oldest :| oldest in receipts;
      var rest := receipts - {oldest};
      while rest != {}
        invariant oldest in receipts && rest <= receipts
        invariant forall r :: r in receipts && r !in rest ==> updatedAt(oldest) <= updatedAt(r)
      {
        var r :| r in rest;
        if updatedAt(r) < updatedAt(oldest) {
          oldest := r;
        }
        rest := rest - {r};
      }
    }

    /** Claims the pending receipts of a stage that were updated longest ago; updatedAt is that column. */
    method ClaimPending(stage: Stage, limit: nat, updatedAt: string -> int) returns (picked: seq<string>)
      modifies this`rows
      ensures |picked| <= limit && Claimable(old(rows), stage, picked)
      ensures |picked| < limit ==> forall r :: IsPending(old(rows), stage, r) ==> r in picked
      ensures forall r, other :: r in picked && IsPending(old(rows), stage, other) && other !in picked ==>
        updatedAt(r) <= updatedAt(other)
      ensures rows == map r | r in old(rows) :: if r in picked then Claimed(old(rows)[r]) else old(rows)[r]
    {
      var pending := set r | r in rows && IsPending(rows, stage, r);
      picked := [];
      while |picked| < limit && pending != {}
        invariant |picked| <= limit && Distinct(picked)
        invariant forall r :: r in pending || r in picked <==> IsPending(old(rows), stage, r)
        invariant forall r :: r in picked ==> r !in pending
        invariant forall r, other :: r in picked && other in pending ==> updatedAt(r) <= updatedAt(other)
        invariant rows == map r | r in old(rows) :: if r in picked then Claimed(old(rows)[r]) else old(rows)[r]
        decreases pending
      {
        var r := Oldest(pending, updatedAt);
        rows := rows[r := Claimed(rows[r])];
        picked := picked + [r];
        pending := pending - {r};
      }
    }

    /** Reset of the domain rows: only rows still in flight change. */
    method Reset(ids: seq<string>)
      modifies this`rows
      ensures rows == ResetRows(old(rows), set i | 0 <= i < |ids| :: ids[i])
    {
      for n := 0 to |ids|
        invariant rows == ResetRows(old(rows), set i | 0 <= i < n :: ids[i])
      {
        if ids[n] in rows {
          rows := rows[ids[n] := ResetRow(rows[ids[n]])];
        }
      }
    }

    /** Gather's loop body: settle a claimed receipt, or ask about it. */
    method GatherOne(k: Kind, r: string, ghost before: Row) returns (items: seq<JobItem>)
      requires r in rows && rows[r] == Claimed(before)
      modifies this`rows
      ensures rows == old(rows)[r := GatheredRow(w, k, r, before)]
      ensures items == Request(w, k, r, before)
    {
      match GatherRow(w, r, rows[r], k) {
        case Settled(row) =>
          rows := rows[r := row];
          items := [];
        case Ask(prompt) =>
          items := [JobItem(CustomId(k, r), r, prompt)];
      }
    }

    /** Gather's loop over the claimed receipts. */
    method GatherClaimed(k: Kind, states: seq<string>, ghost before: map<string, Row>) returns (items: seq<JobItem>)
      requires Distinct(states) && rows.Keys == before.Keys
      requires forall r :: r in states ==> r in rows && rows[r] == Claimed(before[r])
      modifies this`rows
      ensures rows.Keys == before.Keys
      ensures forall r :: r in before && r !in states ==> rows[r] == old(rows)[r]
      ensures forall r :: r in states ==> rows[r] == GatheredRow(w, k, r, before[r])
      ensures items == Requests(w, before, k, states)
    {
      items := [];
      for n := 0 to |states|
        invariant rows.Keys == before.Keys
        invariant forall r :: r in before && r !in states ==> rows[r] == old(rows)[r]
        invariant forall i :: 0 <= i < n ==> rows[states[i]] == GatheredRow(w, k, states[i], before[states[i]])
        invariant forall i :: n <= i < |states| ==> rows[states[i]] == Claimed(before[states[i]])
        invariant items == Requests(w, before, k, states[..n])
      {
        assert states[..n + 1][..n] == states[..n];
        var request := GatherOne(k, states[n], before[states[n]]);
        items := items + request;
      }
      assert states[..|states|] == states;
    }

    method GatherItems(k: Kind, updatedAt: string -> int) returns (items: seq<JobItem>, ghost picked: seq<string>)
      modifies this`rows
      ensures Claimable(old(rows), StageOf(k), picked) && LongestWaiting(old(rows), StageOf(k), picked, updatedAt)
      ensures rows == GatherRows(w, old(rows), k, picked)
      ensures items == Requests(w, old(rows), k, picked)
    {
      var states := ClaimPending(StageOf(k), BATCH_LIMIT, updatedAt);
      items := GatherClaimed(k, states, old(rows));
      picked := states;
    }

    method Apply(k: Kind, ref: string, output: string, error: Option<string>)
      modifies this`rows
      ensures rows == if ref in old(rows) then old(rows)[ref := ApplyRow(w, ref, old(rows)[ref], k, output, error)]
          else old(rows)
    {
      if ref in rows {
        rows := rows[ref := ApplyRow(w, ref, rows[ref], k, output, error)];
      }
    }

    /** SubmitBatch and CreateJob for a non-empty list of items; accepted and recorded are their outcomes. */
    method Record(k: Kind, items: seq<JobItem>, accepted: bool, recorded: bool, now: int) returns (n: nat)
      requires Valid()
      modifies this
      ensures Valid()
      ensures if accepted && recorded
              then rows == old(rows) && jobs == old(jobs)[old(nextJob) := Job(k, Submitted, items, now)] && n == |items|
              else rows == ResetRows(old(rows), Refs(items)) && jobs == old(jobs) && n == 0
    {
      var refs := RefIds(items);
      if !accepted {
        Reset(refs);
        return 0;
      }
      if !recorded {
        Reset(refs);
        return 0;
      }
      jobs := jobs[nextJob := Job(k, Submitted, items, now)];
      nextJob := nextJob + 1;
      return |items|;
    }

    method Submit(k: Kind, updatedAt: string -> int, accepted: bool, recorded: bool, now: int)
      returns (n: nat, ghost picked: seq<string>, ghost id: nat)
      requires Valid()
      modifies this
      ensures Valid() && id !in old(jobs) && Claimable(old(rows), StageOf(k), picked)
      ensures LongestWaiting(old(rows), StageOf(k), picked, updatedAt)
      ensures var items, gathered := Requests(w, old(rows), k, picked), Gather(w, old(View()), k, picked, id);
        && View() == (if items == [] then gathered else Send(gathered, id, accepted, recorded, now))
        && n == if accepted && recorded then |items| else 0
    {
      var items;
      items, picked := GatherItems(k, updatedAt);
      id := nextJob;
      n := 0;
      if |items| > 0 {
        SubmissionIs(w, old(View()), k, picked, id, accepted, recorded, now);
        n := Record(k, items, accepted, recorded, now);
      }
    }

    method RouteResults(id: nat, results: seq<BatchResult>)
      requires id in jobs
      modifies this`rows
      ensures rows == ApplyRows(w, jobs[id], old(rows), results)
    {
      var job := jobs[id];
      var refByCustom: map<string, string> := map[];
      for i := 0 to |job.items|
        invariant forall c :: RefOf(job.items[..i], c) == if c in refByCustom then Some(refByCustom[c]) else None
      {
        assert job.items[..i + 1][..i] == job.items[..i];
        refByCustom := refByCustom[job.items[i].customId := job.items[i].ref];
      }
      assert job.items[..|job.items|] == job.items;
      for i := 0 to |results|
        invariant rows == ApplyRows(w, job, old(rows), results[..i])
      {
        var res := results[i];
        assert results[..i + 1][..i] == results[..i];
        if res.customId in refByCustom {
          Apply(job.kind, refByCustom[res.customId], res.output, res.error);
        }
      }
      assert results[..|results|] == results;
    }

    method ResetEntities(id: nat, status: JobStatus)
      requires Valid() && id in jobs
      modifies this
      ensures Valid() && View() == ResetJob(old(View()), id, status)
    {
      var job := jobs[id];
      var refs := RefIds(job.items);
      Reset(refs);
      jobs := jobs[id := job.(status := status)];
    }

    method CollectOne(id: nat, poll: Poll)
      requires Valid() && id in jobs
      modifies this
      ensures Valid() && View() == CollectJob(w, old(View()), id, poll)
    {
      if poll.Unreachable? || poll.StillRunning? {
        return;
      }
      if jobs[id].kind !in w.registered {
        jobs := jobs[id := jobs[id].(status := Failed)];
        return;
      }
      if poll.Ended? {
        ResetEntities(id, if poll.expired then Expired else Failed);
        return;
      }
      if poll.OutputExpired? {
        ResetEntities(id, Expired);
        return;
      }
      if poll.ResultsUnavailable? {
        return;
      }
      RouteResults(id, poll.results);
      jobs := jobs[id := jobs[id].(status := Completed)];
    }

    /** The submitted jobs, all of them once. */
    method OpenJobs() returns (ids: seq<nat>)
      ensures Distinct(ids)
      ensures forall id :: id in ids <==> id in jobs && jobs[id].status == Submitted
    {
      var open := set id | id in jobs && jobs[id].status == Submitted;
      ids := [];
      while open != {}
        invariant Distinct(ids)
        invariant forall id :: id in ids || id in open <==> id in jobs && jobs[id].status == Submitted
        invariant forall id :: id in ids ==> id !in open
        decreases open
      {
        var id :| id in open;
        ids, open := ids + [id], open - {id};
      }
    }

    method Collect(polls: nat -> Poll) returns (ghost ids: seq<nat>)
      requires Valid()
      modifies this
      ensures Valid() && Distinct(ids)
      ensures forall id :: id in ids <==> id in old(jobs) && old(jobs)[id].status == Submitted
      ensures View() == CollectPass(w, old(View()), ids, polls)
    {
      var open := OpenJobs();
      ids := open;
      for i := 0 to |open|
        invariant Valid() && forall id :: id in open[..i] ==> id in open
        invariant View() == CollectPass(w, old(View()), open[..i], polls)
      {
        assert open[..i + 1][..i] == open[..i];
        assert open[i] in open;
        CollectOne(open[i], polls(open[i]));
      }
      assert open[..|open|] == open;
    }

    method ResetStuck(olderThan: int) returns (ghost ids: seq<nat>)
      requires Valid()
      modifies this
      ensures Valid() && Distinct(ids)
      ensures forall id :: id in ids <==>
                id in old(jobs) && old(jobs)[id].status == Submitted && old(jobs)[id].submittedAt < olderThan
      ensures View() == ResetPass(w, old(View()), ids)
    {
      var open := OpenJobs();
      var stuck: seq<nat> := [];
      for i := 0 to |open|
        invariant Distinct(stuck)
        invariant forall id :: id in stuck <==> id in open[..i] && jobs[id].submittedAt < olderThan
      {
        assert open[..i + 1] == open[..i] + [open[i]];
        if jobs[open[i]].submittedAt < olderThan {
          stuck := stuck + [open[i]];
        }
      }
      assert open[..|open|] == open;
      ids := stuck;
      for i := 0 to |stuck|
        invariant Valid() && forall id :: id in stuck[..i] ==> id in stuck
        invariant View() == ResetPass(w, old(View()), stuck[..i])
      {
        assert stuck[..i + 1][..i] == stuck[..i];
        assert stuck[i] in stuck;
        if jobs[stuck[i]].kind !in w.registered {
          jobs := jobs[stuck[i] := jobs[stuck[i]].(status := Expired)];
        } else {
          ResetEntities(stuck[i], Expired);
        }
      }
      assert stuck[..|stuck|] == stuck;
    }
  }
}
