/** The task table and one scheduler pass over it. */
module SchedulerService {
  import opened Lists
  import opened Wrappers
  import opened Scheduler

  class TaskStore {
    var rows: map<string, TaskRow>

    constructor ()
      ensures rows == map[]
    {
      rows := map[];
    }

    method Ensure(name: string, interval: int, enabled: bool, now: int)
      modifies this
      ensures rows == EnsureRow(old(rows), name, interval, enabled, now)
    {
      if name !in rows {
        rows := rows[name := TaskRow(interval, enabled, now, None)];
      }
    }

    /** One statement: every due row is leased and returned. */
    method ClaimDue(c: Config, now: int) returns (names: seq<string>)
      modifies this
      ensures Distinct(names)
      ensures forall n :: n in names <==> n in old(rows) && Due(c, old(rows)[n], now)
      ensures forall n :: n in names ==>
        && old(rows)[n].enabled && old(rows)[n].nextRunAt <= now
        && (old(rows)[n].runningSince.Some? ==> old(rows)[n].runningSince.value + c.lease < now)
      ensures forall n :: n in old(rows) && n !in names ==>
        || !old(rows)[n].enabled || now < old(rows)[n].nextRunAt
        || (old(rows)[n].runningSince.Some? && now <= old(rows)[n].runningSince.value + c.lease)
      ensures rows == ClaimRows(old(rows), names, now)
    {
      var due := set n | n in rows && Due(c, rows[n], now);
      names := [];
      while due != {}
        invariant Distinct(names)
        invariant forall n :: n in names || n in due <==> n in old(rows) && Due(c, old(rows)[n], now)
        invariant forall n :: n in names ==> n !in due
        invariant rows == ClaimRows(old(rows), names, now)
        decreases due
      {
        var n :| n in due;
        rows := rows[n := rows[n].(runningSince := Some(now))];
        names, due := names + [n], due - {n};
      }
    }

    method Complete(name: string, now: int)
      modifies this
      ensures rows == CompleteRow(old(rows), name, now)
    {
      if name in rows {
        rows := rows[name := rows[name].(runningSince := None, nextRunAt := now + rows[name].interval)];
      }
    }
  }

  const DEFAULT_LEASE := 3600

  class TaskScheduler {
    const store: TaskStore
    var lease: int
    var defaultTimeout: int
    var timeouts: map<string, int>

    /** Options that are not positive fall back: the lease to an hour, the run timeout to the lease. */
    constructor (store: TaskStore, lease: int, defaultTimeout: int)
      ensures this.store == store && timeouts == map[]
      ensures this.lease == (if lease > 0 then lease else 3600)
      ensures this.defaultTimeout == (if defaultTimeout > 0 then defaultTimeout else this.lease)
      ensures Sane(Settings())
    {
      this.store := store;
      var l := if lease > 0 then lease else DEFAULT_LEASE;
      this.lease := l;
      this.defaultTimeout := if defaultTimeout > 0 then defaultTimeout else l;
      timeouts := map[];
    }

    ghost function Settings(): Config
      reads this
    {
      Config(lease, timeouts, 0)
    }

    /** A task without a timeout of its own gets the default. */
    method Register(name: string, timeout: int)
      requires Sane(Settings()) && defaultTimeout > 0
      modifies this`timeouts
      ensures Sane(Settings())
      ensures timeouts == if name == "" then old(timeouts)
                          else old(timeouts)[name := if timeout > 0 then timeout else defaultTimeout]
    {
      if name == "" {
        return;
      }
      timeouts := timeouts[name := if timeout > 0 then timeout else defaultTimeout];
    }

    /** One task of a claimed batch: its body takes its duration, then the row is released. */
    method Execute(name: string, start: int, durations: string -> int) returns (end: int)
      requires name in timeouts ==> 0 <= durations(name)
      modifies store
      ensures end == if name in timeouts then start + durations(name) else start
      ensures store.rows == CompleteRow(old(store.rows), name, end)
    {
      end := start;
      if name in timeouts {
        end := end + durations(name);
      }
      store.Complete(name, end);
    }

    /** The row after its run: free, and due one interval after an end between the two times. */
    ghost predicate Released(before: TaskRow, after: TaskRow, earliest: int, latest: int) {
      && after.runningSince == None && after.interval == before.interval
      && earliest + before.interval <= after.nextRunAt <= latest + before.interval
    }

    /** One pass: claim what is due and run it task by task, each body ending within its deadline. The pass
        ends within the budget of its batch, and every task it ran is free again and due one interval after
        its own run. */
    method RunDue(now: int, durations: string -> int) returns (names: seq<string>, end: int)
      requires Sane(Settings())
      requires forall n :: n in timeouts ==> 0 <= durations(n) <= timeouts[n]
      modifies store
      ensures forall n :: n in names <==> n in old(store.rows) && Due(Settings(), old(store.rows)[n], now)
      ensures now <= end <= now + Budget(Settings(), names)
      ensures store.rows.Keys == old(store.rows).Keys
      ensures forall n :: n in old(store.rows) && n !in names ==> store.rows[n] == old(store.rows)[n]
      ensures forall n :: n in names ==> Released(old(store.rows)[n], store.rows[n], now, end)
    {
      names := store.ClaimDue(Config(lease, timeouts, 0), now);
      end := now;
      ghost var before := old(store.rows);
      ghost var claimed := store.rows;
      for i := 0 to |names|
        invariant now <= end && end + Budget(Settings(), names[i..]) <= now + Budget(Settings(), names)
        invariant store.rows.Keys == before.Keys
        invariant forall n :: n in before && n !in names ==> store.rows[n] == before[n]
        invariant forall j :: i <= j < |names| ==> store.rows[names[j]] == claimed[names[j]]
        invariant forall j :: 0 <= j < i ==> Released(before[names[j]], store.rows[names[j]], now, end)
      {
        assert names[i] in names && names[i..][0] == names[i] && names[i..][1..] == names[i + 1..];
        assert claimed[names[i]].interval == before[names[i]].interval;
        end := Execute(names[i], end, durations);
      }
    }
  }
}
