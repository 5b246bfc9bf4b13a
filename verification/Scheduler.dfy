/** The recurring-task scheduler: any number of replicas lease due tasks from one table and run each
    claimed batch one task after the other, while real time passes. */
module Scheduler {
  import opened Lists
  import opened Wrappers

  /** A row of scheduled_tasks. */
  datatype TaskRow = TaskRow(interval: int, enabled: bool, nextRunAt: int, runningSince: Option<int>)

  /** lease, and the effective timeout of every task with a handler. delay bounds the time a scheduler
      spends between two tasks of a batch. */
  datatype Config = Config(lease: int, timeouts: map<string, int>, delay: int)

  ghost predicate Sane(c: Config) {
    c.lease > 0 && c.delay >= 0 && forall n :: n in c.timeouts ==> c.timeouts[n] > 0
  }

  /** A replica with a claimed batch is about to run the first task of its queue, or is running it. */
  datatype Replica =
    | Idle
    | Waiting(queue: seq<string>, since: int, claimedAt: int)
    | Running(queue: seq<string>, since: int, claimedAt: int)

  datatype State = State(now: int, rows: map<string, TaskRow>, replicas: map<nat, Replica>)

  function ReplicaOf(s: State, p: nat): Replica {
    if p in s.replicas then s.replicas[p] else Idle
  }

  function Queue(r: Replica): seq<string> {
    if r.Idle? then [] else r.queue
  }

  // ---- The table ----

  predicate Due(c: Config, row: TaskRow, now: int) {
    && row.enabled
    && row.nextRunAt <= now
    && (row.runningSince.None? || row.runningSince.value < now - c.lease)
  }

  function EnsureRow(
      rows: map<string, TaskRow>, name: string, interval: int, enabled: bool, now: int): map<string, TaskRow> {
    if name in rows then rows else rows[name := TaskRow(interval, enabled, now, None)]
  }

  function ClaimRows(rows: map<string, TaskRow>, names: seq<string>, now: int): map<string, TaskRow> {
    map n | n in rows :: if n in names then rows[n].(runningSince := Some(now)) else rows[n]
  }

  function CompleteRow(rows: map<string, TaskRow>, name: string, now: int): map<string, TaskRow> {
    if name in rows
    then rows[name := rows[name].(runningSince := None, nextRunAt := now + rows[name].interval)]
    else rows
  }

  // ---- Events ----

  /** Finish ends the body of a task, or passes over a task without a handler; recorded says whether the
      Complete write succeeded. Tick lets time pass. */
  datatype Event =
    | Tick(d: int)
    | Ensure(name: string, interval: int, enabled: bool)
    | Tune(name: string, interval: int, enabled: bool)
    | Claim(p: nat, names: seq<string>)
    | Start(p: nat)
    | Finish(p: nat, recorded: bool)

  /** Runs honour their deadlines, and a scheduler does not dawdle between two tasks. */
  predicate MayWait(c: Config, r: Replica, until: int) {
    match r
    case Idle => true
    case Waiting(_, since, _) => until <= since + c.delay
    case Running(queue, since, _) => queue != [] && queue[0] in c.timeouts && until <= since + c.timeouts[queue[0]]
  }

  ghost predicate Enabled(c: Config, s: State, e: Event) {
    match e
    case Tick(d) => d >= 0 && forall p :: p in s.replicas ==> MayWait(c, s.replicas[p], s.now + d)
    case Ensure(_, interval, _) => interval > 0
    case Tune(name, interval, _) => name in s.rows && interval > 0
    case Claim(p, names) =>
      && ReplicaOf(s, p).Idle? && Distinct(names)
      && forall n :: n in names ==> n in s.rows && Due(c, s.rows[n], s.now)
    case Start(p) => ReplicaOf(s, p).Waiting? && Queue(ReplicaOf(s, p)) != [] && Queue(ReplicaOf(s, p))[0] in c.timeouts
    case Finish(p, _) =>
      var r := ReplicaOf(s, p);
      Queue(r) != [] && (r.Running? || Queue(r)[0] !in c.timeouts)
  }

  function Next(s: State, e: Event): State {
    match e
    case Tick(d) => s.(now := s.now + d)
    case Ensure(name, interval, enabled) => s.(rows := EnsureRow(s.rows, name, interval, enabled, s.now))
    case Tune(name, interval, enabled) =>
      if name in s.rows then s.(rows := s.rows[name := s.rows[name].(interval := interval, enabled := enabled)]) else s
    case Claim(p, names) =>
      if names == [] then s
      else s.(rows := ClaimRows(s.rows, names, s.now), replicas := s.replicas[p := Waiting(names, s.now, s.now)])
    case Start(p) =>
      var r := ReplicaOf(s, p);
      if r.Idle? then s else s.(replicas := s.replicas[p := Running(r.queue, s.now, r.claimedAt)])
    case Finish(p, recorded) =>
      var r := ReplicaOf(s, p);
      if Queue(r) == [] then s
      else
        s.(rows := if recorded then CompleteRow(s.rows, r.queue[0], s.now) else s.rows,
           replicas := s.replicas[p := if |r.queue| == 1 then Idle else Waiting(r.queue[1..], s.now, r.claimedAt)])
  }

  /** The longest time a batch can take. */
  function Budget(c: Config, names: seq<string>): int {
    if names == [] then 0
    else c.delay + (if names[0] in c.timeouts then c.timeouts[names[0]] else 0) + Budget(c, names[1..])
  }

  ghost predicate Fits(c: Config, e: Event) {
    e.Claim? ==> Budget(c, e.names) <= c.lease
  }

  ghost predicate Run(c: Config, s: State, es: seq<Event>)
    decreases es
  {
    es != [] ==> Enabled(c, s, es[0]) && Run(c, Next(s, es[0]), es[1..])
  }

  function Exec(s: State, es: seq<Event>): State
    decreases es
  {
    if es == [] then s else Exec(Next(s, es[0]), es[1..])
  }

  const START := State(0, map[], map[])

  // ---- Timed mutual exclusion ----

  /** Replica p is inside the body of task n. */
  predicate RunsNow(s: State, p: nat, n: string) {
    p in s.replicas && s.replicas[p].Running? && s.replicas[p].queue != [] && s.replicas[p].queue[0] == n
  }

  /** No task body runs twice at the same time. */
  ghost predicate Exclusive(s: State) {
    forall p, q, n :: p != q && RunsNow(s, p, n) ==> !RunsNow(s, q, n)
  }

  /** A busy replica is on schedule: what is left of its batch ends within its lease. */
  ghost predicate OnSchedule(c: Config, now: int, r: Replica) {
    match r
    case Idle => true
    case Waiting(queue, since, claimedAt) =>
      && queue != [] && Distinct(queue)
      && claimedAt <= since <= now <= since + c.delay && since + Budget(c, queue) <= claimedAt + c.lease
    case Running(queue, since, claimedAt) =>
      && queue != [] && Distinct(queue) && queue[0] in c.timeouts
      && claimedAt <= since <= now <= since + c.timeouts[queue[0]]
      && since + c.timeouts[queue[0]] + Budget(c, queue[1..]) <= claimedAt + c.lease
  }

  /** Its tasks carry its lease in the table. */
  ghost predicate Leased(rows: map<string, TaskRow>, r: Replica) {
    forall n :: n in Queue(r) ==>
      n in rows && rows[n].runningSince == Some(r.claimedAt) && rows[n].nextRunAt <= r.claimedAt
  }

  ghost predicate Inv(c: Config, s: State) {
    && (forall n :: n in s.rows ==> s.rows[n].interval > 0)
    && (forall p :: p in s.replicas ==> OnSchedule(c, s.now, s.replicas[p]) && Leased(s.rows, s.replicas[p]))
    && (forall p, q, n :: p in s.replicas && q in s.replicas && p != q && n in Queue(s.replicas[p]) ==>
         n !in Queue(s.replicas[q]))
  }

  lemma {:induction false} BudgetNonNegative(c: Config, names: seq<string>)
    requires Sane(c)
    ensures Budget(c, names) >= 0
  {
    if names != [] {
      BudgetNonNegative(c, names[1..]);
    }
  }

  /** While a replica is on schedule its lease has not run out. */
  lemma WithinLease(c: Config, now: int, r: Replica)
    requires Sane(c) && OnSchedule(c, now, r) && !r.Idle?
    ensures now <= r.claimedAt + c.lease
  {
    if r.Waiting? {
      BudgetNonNegative(c, r.queue[1..]);
    } else {
      BudgetNonNegative(c, r.queue[1..]);
    }
  }

  lemma {:induction false} ClaimKeepsInv(c: Config, s: State, p: nat, names: seq<string>)
    requires Sane(c) && Inv(c, s) && Enabled(c, s, Claim(p, names)) && Budget(c, names) <= c.lease
    ensures Inv(c, Next(s, Claim(p, names)))
  {
    forall q, n | q in s.replicas && n in Queue(s.replicas[q]) ensures n !in names {
      WithinLease(c, s.now, s.replicas[q]);
      assert Leased(s.rows, s.replicas[q]);
    }
    var s' := Next(s, Claim(p, names));
    forall q | q in s'.replicas ensures OnSchedule(c, s'.now, s'.replicas[q]) && Leased(s'.rows, s'.replicas[q]) {
      if q in s.replicas && (q != p || names == []) {
        assert OnSchedule(c, s.now, s.replicas[q]) && Leased(s.rows, s.replicas[q]);
      }
    }
  }

  /** Completing a task leaves the leases of the other tasks alone. */
  lemma CompleteKeepsLease(rows: map<string, TaskRow>, name: string, now: int, r: Replica)
    requires Leased(rows, r) && name !in Queue(r)
    ensures Leased(CompleteRow(rows, name, now), r)
  {
  }

  /** The replica that finished: the rest of its batch is still leased and on schedule. */
  lemma FinishedReplica(c: Config, s: State, p: nat, recorded: bool)
    requires Sane(c) && Inv(c, s) && Enabled(c, s, Finish(p, recorded))
    ensures var s' := Next(s, Finish(p, recorded));
      p in s'.replicas && OnSchedule(c, s'.now, s'.replicas[p]) && Leased(s'.rows, s'.replicas[p])
      && forall n :: n in Queue(s'.replicas[p]) ==> n in Queue(s.replicas[p])
  {
    var r := ReplicaOf(s, p);
    assert OnSchedule(c, s.now, r) && Leased(s.rows, r);
    assert forall n :: n in r.queue[1..] ==> n in r.queue;
    assert forall n :: n in r.queue[1..] ==> n != r.queue[0];
  }

  lemma {:induction false} FinishKeepsInv(c: Config, s: State, p: nat, recorded: bool)
    requires Sane(c) && Inv(c, s) && Enabled(c, s, Finish(p, recorded))
    ensures Inv(c, Next(s, Finish(p, recorded)))
  {
    var r, s' := ReplicaOf(s, p), Next(s, Finish(p, recorded));
    FinishedReplica(c, s, p, recorded);
    assert r.queue[0] in Queue(s.replicas[p]);
    forall q | q in s'.replicas && q != p
        ensures OnSchedule(c, s'.now, s'.replicas[q]) && Leased(s'.rows, s'.replicas[q]) {
      assert OnSchedule(c, s.now, s.replicas[q]) && Leased(s.rows, s.replicas[q]);
      CompleteKeepsLease(s.rows, r.queue[0], s.now, s.replicas[q]);
    }
  }

  lemma {:induction false} NextKeepsInv(c: Config, s: State, e: Event)
    requires Sane(c) && Inv(c, s) && Enabled(c, s, e) && Fits(c, e)
    ensures Inv(c, Next(s, e))
  {
    match e
    case Claim(p, names) => ClaimKeepsInv(c, s, p, names);
    case Finish(p, recorded) => FinishKeepsInv(c, s, p, recorded);
    case Start(p) =>
      var s' := Next(s, e);
      assert OnSchedule(c, s.now, s.replicas[p]);
      forall q | q in s'.replicas ensures OnSchedule(c, s'.now, s'.replicas[q]) && Leased(s'.rows, s'.replicas[q]) {
        assert OnSchedule(c, s.now, s.replicas[q]) && Leased(s.rows, s.replicas[q]);
      }
    case _ =>
      var s' := Next(s, e);
      forall q | q in s'.replicas ensures OnSchedule(c, s'.now, s'.replicas[q]) && Leased(s'.rows, s'.replicas[q]) {
        assert OnSchedule(c, s.now, s.replicas[q]) && Leased(s.rows, s.replicas[q]);
      }
  }

  lemma {:induction false} RunKeepsInv(c: Config, s: State, es: seq<Event>)
    requires Sane(c) && Inv(c, s) && Run(c, s, es)
    requires forall i :: 0 <= i < |es| ==> Fits(c, es[i])
    ensures Inv(c, Exec(s, es))
    decreases es
  {
    if es != [] {
      NextKeepsInv(c, s, es[0]);
      assert forall i :: 0 <= i < |es| - 1 ==> es[1..][i] == es[i + 1];
      RunKeepsInv(c, Next(s, es[0]), es[1..]);
    }
  }

  /** For any number of replicas: if every claimed batch fits into the lease, no task body ever runs twice
      at the same time. */
  lemma MutualExclusion(c: Config, es: seq<Event>)
    requires Sane(c) && Run(c, START, es)
    requires forall i :: 0 <= i < |es| ==> Fits(c, es[i])
    ensures Exclusive(Exec(START, es))
  {
    RunKeepsInv(c, START, es);
    var s := Exec(START, es);
    forall p, q, n | p != q && RunsNow(s, p, n) ensures !RunsNow(s, q, n) {
      assert n in Queue(s.replicas[p]);
      assert RunsNow(s, q, n) ==> n in Queue(s.replicas[q]);
    }
  }

  // ---- Spacing ----

  lemma StepMovesNextRunOn(c: Config, s: State, e: Event, n: string)
    requires Sane(c) && Inv(c, s) && Enabled(c, s, e) && n in s.rows
    ensures n in Next(s, e).rows && s.rows[n].nextRunAt <= Next(s, e).rows[n].nextRunAt
  {
    if e.Finish? {
      var r := ReplicaOf(s, e.p);
      assert OnSchedule(c, s.now, r) && Leased(s.rows, r);
      assert r.queue[0] in Queue(r);
    }
  }

  lemma {:induction false} NextRunOnlyMovesOn(c: Config, s: State, es: seq<Event>, n: string)
    requires Sane(c) && Inv(c, s) && Run(c, s, es) && n in s.rows
    requires forall i :: 0 <= i < |es| ==> Fits(c, es[i])
    ensures n in Exec(s, es).rows && s.rows[n].nextRunAt <= Exec(s, es).rows[n].nextRunAt
    decreases es
  {
    if es != [] {
      NextKeepsInv(c, s, es[0]);
      StepMovesNextRunOn(c, s, es[0], n);
      assert forall i :: 0 <= i < |es| - 1 ==> es[1..][i] == es[i + 1];
      NextRunOnlyMovesOn(c, Next(s, es[0]), es[1..], n);
    }
  }

  /** After a recorded completion, whatever happens in between, a task is not claimed again before its
      interval has passed. */
  lemma NotBeforeInterval(c: Config, s: State, p: nat, es: seq<Event>, q: nat, names: seq<string>, n: string)
    requires Sane(c) && Inv(c, s) && Enabled(c, s, Finish(p, true))
    requires n == Queue(ReplicaOf(s, p))[0]
    requires Run(c, Next(s, Finish(p, true)), es) && forall i :: 0 <= i < |es| ==> Fits(c, es[i])
    requires Enabled(c, Exec(Next(s, Finish(p, true)), es), Claim(q, names)) && n in names
    ensures n in s.rows && s.now + s.rows[n].interval <= Exec(Next(s, Finish(p, true)), es).now
  {
    assert Leased(s.rows, ReplicaOf(s, p));
    NextKeepsInv(c, s, Finish(p, true));
    NextRunOnlyMovesOn(c, Next(s, Finish(p, true)), es, n);
  }

  /** What a claim may take: tasks that are switched on, whose time has come, and that nobody runs within the
      lease. */
  lemma ClaimTakes(c: Config, s: State, p: nat, names: seq<string>, n: string)
    requires Enabled(c, s, Claim(p, names)) && n in names
    ensures n in s.rows && s.rows[n].enabled && s.rows[n].nextRunAt <= s.now
    ensures s.rows[n].runningSince.Some? ==> s.rows[n].runningSince.value + c.lease < s.now
  {
  }

  /** A task that is switched off is never claimed until somebody switches it on. */
  lemma {:induction false} NeverWhileOff(c: Config, s: State, es: seq<Event>, n: string)
    requires Run(c, s, es) && n in s.rows && !s.rows[n].enabled
    requires forall i :: 0 <= i < |es| && es[i].Tune? && es[i].name == n ==> !es[i].enabled
    ensures forall i :: 0 <= i < |es| && es[i].Claim? ==> n !in es[i].names
    decreases es
  {
    if es != [] {
      assert forall i :: 0 <= i < |es| - 1 ==> es[1..][i] == es[i + 1];
      if es[0].Claim? && n in es[0].names {
        ClaimTakes(c, s, es[0].p, es[0].names, n);
      }
      NeverWhileOff(c, Next(s, es[0]), es[1..], n);
      forall i | 0 <= i < |es| && es[i].Claim? ensures n !in es[i].names {
        if i > 0 {
          assert es[i] == es[1..][i - 1];
        }
      }
    }
  }

  // ---- Exactly when mutual exclusion holds ----

  /** A claim that no other claim disturbs takes every due task. */
  ghost predicate TakesAll(c: Config, s: State, e: Event) {
    e.Claim? ==> forall n :: n in s.rows && Due(c, s.rows[n], s.now) ==> n in e.names
  }

  ghost predicate UndisturbedRun(c: Config, s: State, es: seq<Event>)
    decreases es
  {
    es != [] ==> Enabled(c, s, es[0]) && TakesAll(c, s, es[0]) && UndisturbedRun(c, Next(s, es[0]), es[1..])
  }

  lemma {:induction false} UndisturbedIsRun(c: Config, s: State, es: seq<Event>)
    requires UndisturbedRun(c, s, es)
    ensures Run(c, s, es)
    decreases es
  {
    if es != [] {
      UndisturbedIsRun(c, Next(s, es[0]), es[1..]);
    }
  }

  lemma {:induction false} RunAppend(c: Config, s: State, es: seq<Event>, e: Event)
    requires UndisturbedRun(c, s, es) && Enabled(c, Exec(s, es), e) && TakesAll(c, Exec(s, es), e)
    ensures UndisturbedRun(c, s, es + [e]) && Exec(s, es + [e]) == Next(Exec(s, es), e)
    decreases es
  {
    if es == [] {
      assert es + [e] == [e] && [e][1..] == [];
    } else {
      assert (es + [e])[1..] == es[1..] + [e];
      RunAppend(c, Next(s, es[0]), es[1..], e);
    }
  }

  lemma {:induction false} BudgetWithout(c: Config, names: seq<string>, i: nat)
    requires i < |names|
    ensures Budget(c, names) == Budget(c, [names[i]]) + Budget(c, names[..i] + names[i + 1..])
  {
    if i == 0 {
      assert names[..0] + names[1..] == names[1..];
    } else {
      BudgetWithout(c, names[1..], i - 1);
      assert (names[..i] + names[i + 1..])[1..] == names[1..][..i - 1] + names[1..][i..];
    }
  }

  /** Without delays a batch of distinct tasks needs no more time than all tasks together. */
  lemma {:induction false} BatchWithinAll(c: Config, names: seq<string>, all: seq<string>)
    requires Sane(c) && c.delay == 0 && Distinct(names)
    requires forall n :: n in names && n in c.timeouts ==> n in all
    ensures Budget(c, names) <= Budget(c, all)
  {
    if names == [] {
      BudgetNonNegative(c, all);
    } else if names[0] !in c.timeouts {
      BatchWithinAll(c, names[1..], all);
    } else {
      var i :| 0 <= i < |all| && all[i] == names[0];
      BudgetWithout(c, all, i);
      forall n | n in names[1..] && n in c.timeouts ensures n in all[..i] + all[i + 1..] {
        assert n in names && n != names[0];
        var j :| 0 <= j < |all| && all[j] == n;
        assert if j < i then n == all[..i][j] else n == all[i + 1..][j - i - 1];
      }
      BatchWithinAll(c, names[1..], all[..i] + all[i + 1..]);
    }
  }

  /** Replica 0 has claimed this queue and is about to run it; replica 1 is free. */
  ghost predicate OneBatch(c: Config, s: State, queue: seq<string>, claimedAt: int) {
    && s.replicas == map[0 := Waiting(queue, s.now, claimedAt)]
    && claimedAt <= s.now <= claimedAt + c.lease
    && Distinct(queue)
    && forall n :: n in queue ==>
         && n in c.timeouts && n in s.rows
         && s.rows[n].enabled && s.rows[n].nextRunAt <= claimedAt && s.rows[n].runningSince == Some(claimedAt)
  }

  /** Some order of a finite set of names. */
  lemma {:induction false} Listed(names: set<string>) returns (order: seq<string>)
    ensures Distinct(order) && forall n :: n in order <==> n in names
  {
    order := [];
    if names != {} {
      var n :| n in names;
      var rest := Listed(names - {n});
      order := [n] + rest;
    }
  }

  /** A claim may return the due tasks in any order. */
  lemma DueWithFirst(c: Config, s: State, n: string) returns (names: seq<string>)
    requires n in s.rows && Due(c, s.rows[n], s.now)
    ensures Distinct(names) && names != [] && names[0] == n
    ensures forall m :: m in names <==> m in s.rows && Due(c, s.rows[m], s.now)
  {
    var rest := Listed((set m | m in s.rows && Due(c, s.rows[m], s.now)) - {n});
    names := [n] + rest;
  }

  /** The task at the head outlasts the lease: meanwhile a second replica claims what is due and starts it. */
  lemma HeadOverlaps(c: Config, s: State, queue: seq<string>, claimedAt: int) returns (es: seq<Event>)
    requires Sane(c) && OneBatch(c, s, queue, claimedAt) && queue != []
    requires s.now + c.timeouts[queue[0]] > claimedAt + c.lease
    ensures UndisturbedRun(c, s, es) && !Exclusive(Exec(s, es))
  {
    var n, d := queue[0], claimedAt + c.lease + 1 - s.now;
    assert n in queue;
    var s1 := Next(s, Start(0));
    var s2 := Next(s1, Tick(d));
    var names := DueWithFirst(c, s2, n);
    var s3 := Next(s2, Claim(1, names));
    var s4 := Next(s3, Start(1));
    assert RunsNow(s4, 0, n) && RunsNow(s4, 1, n);
    es := [Start(0), Tick(d), Claim(1, names), Start(1)];
    assert es[1..] == [Tick(d), Claim(1, names), Start(1)] && es[1..][1..] == [Claim(1, names), Start(1)];
    assert es[1..][1..][1..] == [Start(1)] && [Start(1)][1..] == [];
    assert UndisturbedRun(c, s3, [Start(1)]) && Exec(s3, [Start(1)]) == s4;
    assert UndisturbedRun(c, s2, es[1..][1..]) && Exec(s2, es[1..][1..]) == s4;
    assert UndisturbedRun(c, s1, es[1..]) && Exec(s1, es[1..]) == s4;
  }

  /** The task at the head runs to its deadline within the lease. */
  lemma HeadRuns(c: Config, s: State, queue: seq<string>, claimedAt: int) returns (s': State)
    requires Sane(c) && OneBatch(c, s, queue, claimedAt) && |queue| > 1
    requires s.now + c.timeouts[queue[0]] <= claimedAt + c.lease
    ensures OneBatch(c, s', queue[1..], claimedAt) && s'.now == s.now + c.timeouts[queue[0]]
    ensures UndisturbedRun(c, s, [Start(0), Tick(c.timeouts[queue[0]]), Finish(0, true)])
    ensures Exec(s, [Start(0), Tick(c.timeouts[queue[0]]), Finish(0, true)]) == s'
  {
    var d := c.timeouts[queue[0]];
    assert queue[0] in queue;
    var s1 := Next(s, Start(0));
    var s2 := Next(s1, Tick(d));
    s' := Next(s2, Finish(0, true));
    assert forall m :: m in queue[1..] ==> m in queue && m != queue[0];
    var es := [Start(0), Tick(d), Finish(0, true)];
    assert es[1..] == [Tick(d), Finish(0, true)] && es[1..][1..] == [Finish(0, true)] && [Finish(0, true)][1..] == [];
    assert UndisturbedRun(c, s2, [Finish(0, true)]) && Exec(s2, [Finish(0, true)]) == s';
    assert UndisturbedRun(c, s1, es[1..]) && Exec(s1, es[1..]) == s';
  }

  lemma {:induction false} OverrunOverlaps(c: Config, s: State, queue: seq<string>, claimedAt: int)
    returns (es: seq<Event>)
    requires Sane(c) && c.delay == 0 && OneBatch(c, s, queue, claimedAt)
    requires s.now + Budget(c, queue) > claimedAt + c.lease
    ensures UndisturbedRun(c, s, es) && !Exclusive(Exec(s, es))
    decreases queue
  {
    assert queue[0] in queue;
    if s.now + c.timeouts[queue[0]] > claimedAt + c.lease {
      es := HeadOverlaps(c, s, queue, claimedAt);
    } else {
      assert |queue| > 1;
      var s' := HeadRuns(c, s, queue, claimedAt);
      var rest := OverrunOverlaps(c, s', queue[1..], claimedAt);
      var first := [Start(0), Tick(c.timeouts[queue[0]]), Finish(0, true)];
      RunConcat(c, s, first, rest);
      es := first + rest;
    }
  }

  /** The tables after every task was registered at time 0. */
  lemma {:induction false} RegisterAll(c: Config, names: seq<string>) returns (es: seq<Event>)
    requires Distinct(names)
    ensures UndisturbedRun(c, START, es)
    ensures var s := Exec(START, es);
      && s.now == 0 && s.replicas == map[]
      && forall n :: n in names ==> n in s.rows && s.rows[n] == TaskRow(1, true, 0, None)
    ensures forall n :: n in Exec(START, es).rows ==> n in names
  {
    if names == [] {
      es := [];
    } else {
      var init, last := names[..|names| - 1], names[|names| - 1];
      var before := RegisterAll(c, init);
      RunAppend(c, START, before, Ensure(last, 1, true));
      es := before + [Ensure(last, 1, true)];
      assert names == init + [last];
    }
  }

  lemma {:induction false} RunConcat(c: Config, s: State, a: seq<Event>, b: seq<Event>)
    requires UndisturbedRun(c, s, a) && UndisturbedRun(c, Exec(s, a), b)
    ensures UndisturbedRun(c, s, a + b) && Exec(s, a + b) == Exec(Exec(s, a), b)
    decreases a
  {
    if a == [] {
      assert a + b == b;
    } else {
      assert (a + b)[1..] == a[1..] + b;
      RunConcat(c, Next(s, a[0]), a[1..], b);
    }
  }

  lemma SomeRunOverlaps(c: Config, all: seq<string>) returns (es: seq<Event>)
    requires Sane(c) && c.delay == 0 && Distinct(all) && (forall n :: n in all <==> n in c.timeouts)
    requires Budget(c, all) > c.lease
    ensures UndisturbedRun(c, START, es) && !Exclusive(Exec(START, es))
  {
    var before := RegisterAll(c, all);
    var s := Exec(START, before);
    RunAppend(c, START, before, Claim(0, all));
    var s' := Next(s, Claim(0, all));
    assert OneBatch(c, s', all, 0);
    var rest := OverrunOverlaps(c, s', all, 0);
    RunConcat(c, START, before + [Claim(0, all)], rest);
    es := before + [Claim(0, all)] + rest;
  }

  lemma {:induction false} EveryClaimFits(c: Config, s: State, es: seq<Event>, all: seq<string>)
    requires Sane(c) && c.delay == 0 && (forall n :: n in all <==> n in c.timeouts)
    requires Run(c, s, es) && Budget(c, all) <= c.lease
    ensures forall i :: 0 <= i < |es| ==> Fits(c, es[i])
    decreases es
  {
    if es != [] {
      if es[0].Claim? {
        BatchWithinAll(c, es[0].names, all);
      }
      EveryClaimFits(c, Next(s, es[0]), es[1..], all);
      assert forall i :: 1 <= i < |es| ==> es[i] == es[1..][i - 1];
    }
  }

  /** When schedulers start each task of a batch as soon as the one before ends, task bodies exclude each
      other in every run exactly when the timeouts of all registered tasks together fit into the lease, and
      it makes no difference whether claims disturb each other. */
  lemma ExclusiveIffTimeoutsFit(c: Config, all: seq<string>)
    requires Sane(c) && c.delay == 0 && Distinct(all) && (forall n :: n in all <==> n in c.timeouts)
    ensures (forall es :: Run(c, START, es) ==> Exclusive(Exec(START, es))) <==> Budget(c, all) <= c.lease
    ensures (forall es :: UndisturbedRun(c, START, es) ==> Exclusive(Exec(START, es))) <==> Budget(c, all) <= c.lease
  {
    if Budget(c, all) <= c.lease {
      forall es | Run(c, START, es) ensures Exclusive(Exec(START, es)) {
        EveryClaimFits(c, START, es, all);
        MutualExclusion(c, es);
      }
      forall es | UndisturbedRun(c, START, es) ensures Run(c, START, es) {
        UndisturbedIsRun(c, START, es);
      }
    } else {
      var es := SomeRunOverlaps(c, all);
      UndisturbedIsRun(c, START, es);
    }
  }

  /** A task without its own timeout gets the whole lease, so two such tasks already break exclusion. */
  lemma TwoDefaultTimeoutsOverlap(c: Config, a: string, b: string)
    requires Sane(c) && c.delay == 0 && a != b && c.timeouts == map[a := c.lease, b := c.lease]
    ensures exists es :: UndisturbedRun(c, START, es) && !Exclusive(Exec(START, es))
  {
    assert [b][1..] == [];
    assert Budget(c, [b]) == c.lease + Budget(c, []);
    assert [a, b][1..] == [b];
    assert Budget(c, [a, b]) == c.lease + Budget(c, [b]);
    ExclusiveIffTimeoutsFit(c, [a, b]);
  }
}
