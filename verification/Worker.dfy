/**
 The worker as code: process_job, orphan recovery, the BRPOP loop and the janitor pass, one call after
 another, against the value each leaves.
 */
module Worker {
  import opened Ledger
  import opened Serial
  import opened Database

  // How one process_job call goes once its job was read as pending. Interrupted is a crash, or an exception
  // no handler catches, after the move to running.
  datatype Outcome = Misconfigured | InvalidInput | ProvidersFailed | HandlerRaised | Success | Interrupted

  datatype Attempt = Attempt(outcome: Outcome, now: Time)

  type Plan = JobId -> Attempt

  predicate IsPending(s: Store, j: JobId) {
    j in s.jobs && s.jobs[j].status == Pending
  }

  predicate HasOwner(s: Store, j: JobId) {
    j in s.jobs ==> s.jobs[j].user in s.users
  }

  // Every job has its user, and the history map knows every job.
  predicate WellOwned(a: Accounts) {
    a.failures.Keys == a.store.jobs.Keys && forall j :: j in a.store.jobs ==> HasOwner(a.store, j)
  }

  lemma BooksAreOwned(a: Accounts)
    requires Books(a.store, a.failures)
    ensures WellOwned(a)
  {
    forall j | j in a.store.jobs ensures HasOwner(a.store, j) {
      assert JobBalanced(a.store, j, a.failures[j]);
    }
  }

  ghost function Process(a: Accounts, j: JobId, t: Attempt): Accounts {
    if !IsPending(a.store, j) then a
    else if t.outcome == Misconfigured then Apply(a, Fail(j), t.now)
    else
      var started := Apply(a, Start(j), t.now);
      if t.outcome == Interrupted then started
      else if t.outcome == Success then Apply(started, Succeed(j), t.now)
      else Apply(started, Fail(j), t.now)
  }

  lemma ProcessStaysOwned(a: Accounts, j: JobId, t: Attempt)
    requires WellOwned(a)
    ensures WellOwned(Process(a, j, t)) && Process(a, j, t).store.jobs.Keys == a.store.jobs.Keys
    ensures Process(a, j, t).store.users.Keys == a.store.users.Keys
  {
  }

  // BRPOP takes the rightmost id.
  ghost function Drain(a: Accounts, queue: seq<JobId>, plan: Plan): Accounts
    decreases |queue|
  {
    if queue == [] then a
    else Drain(Process(a, queue[|queue| - 1], plan(queue[|queue| - 1])), queue[..|queue| - 1], plan)
  }

  // One janitor pass over the rows its SELECT returned.
  ghost function Sweep(a: Accounts, rows: seq<JobId>, now: Time): Accounts
    decreases |rows|
  {
    if rows == [] then a
    else Sweep(Apply(a, Fail(rows[0]), now), rows[1..], now)
  }

  lemma SweepFails(a: Accounts, rows: seq<JobId>, i: nat, now: Time)
    requires WellOwned(a) && i < |rows| && rows[i] in a.store.jobs
    ensures var a' := Apply(a, Change.Fail(rows[i]), now);
            && WellOwned(a') && a'.store.jobs.Keys == a.store.jobs.Keys
            && Sweep(a, rows[i..], now) == Sweep(a', rows[i + 1..], now)
  {
    assert rows[i..][1..] == rows[i + 1..];
    assert HasOwner(a.store, rows[i]);
  }

  // recover_orphaned_jobs pushes its rows one by one on the left.
  function Pushed(queue: seq<JobId>, rows: seq<JobId>): seq<JobId>
    decreases |rows|
  {
    if rows == [] then queue else Pushed([rows[0]] + queue, rows[1..])
  }

  lemma {:induction false} PushedHolds(queue: seq<JobId>, rows: seq<JobId>, j: JobId)
    ensures j in Pushed(queue, rows) <==> j in queue || j in rows
    decreases |rows|
  {
    if rows != [] {
      PushedHolds([rows[0]] + queue, rows[1..], j);
    }
  }

  // They are taken after the ids that were queued, in the order they were listed in.
  lemma {:induction false} PushedBehind(queue: seq<JobId>, rows: seq<JobId>)
    ensures var all := Pushed(queue, rows);
            && |all| == |rows| + |queue| && all[|rows|..] == queue
            && forall k :: 0 <= k < |rows| ==> all[|rows| - 1 - k] == rows[k]
    decreases |rows|
  {
    if rows != [] {
      PushedBehind([rows[0]] + queue, rows[1..]);
      var all := Pushed(queue, rows);
      assert all[|rows| - 1..] == [rows[0]] + queue;
      assert all[|rows| - 1] == rows[0] && all[|rows|..] == all[|rows| - 1..][1..];
      forall k | 0 <= k < |rows| ensures all[|rows| - 1 - k] == rows[k] {
        if k > 0 {
          assert rows[k] == rows[1..][k - 1];
        }
      }
    }
  }

  // First pushed, first processed: an id pushed on the left is handled after everything that was queued.
  lemma {:induction false} DrainInOrder(a: Accounts, queue: seq<JobId>, j: JobId, plan: Plan)
    ensures Drain(a, [j] + queue, plan) == Process(Drain(a, queue, plan), j, plan(j))
    decreases |queue|
  {
    var all := [j] + queue;
    if queue == [] {
      assert all == [j] && all[..0] == [];
    } else {
      var last := queue[|queue| - 1];
      assert all[|all| - 1] == last && all[..|all| - 1] == [j] + queue[..|queue| - 1];
      DrainInOrder(Process(a, last, plan(last)), queue[..|queue| - 1], j, plan);
    }
  }

  ghost predicate Orphaned(s: Store, now: Time, j: JobId) {
    IsPending(s, j) && s.jobs[j].createdAt < now - 60
  }

  // The SELECT of recover_orphaned_jobs, its rows in any order.
  ghost predicate ListsOrphans(s: Store, now: Time, rows: seq<JobId>) {
    forall j :: j in rows <==> Orphaned(s, now, j)
  }

  class WorkerProcess {
    const tables: Tables
    var queue: seq<JobId>
    ghost var failures: Failures

    constructor (tables: Tables)
      ensures this.tables == tables && queue == [] && failures == map j | j in tables.jobs :: 0
    {
      this.tables := tables;
      queue := [];
      failures := map j | j in tables.jobs :: 0;
    }

    ghost function Value(): Accounts
      reads this, tables
    {
      Accounts(tables.Value(), failures)
    }

    method Fail(j: JobId, now: Time)
      requires WellOwned(Value()) && j in tables.jobs
      modifies this`failures, tables
      ensures Value() == Apply(old(Value()), Change.Fail(j), now)
    {
      assert HasOwner(tables.Value(), j);
      tables.FailJob(j, now);
      failures := failures[j := failures[j] + 1];
    }

    method ProcessJob(j: JobId, t: Attempt)
      requires WellOwned(Value())
      modifies this`failures, tables
      ensures Value() == Process(old(Value()), j, t)
    {
      if j !in tables.jobs || tables.jobs[j].status != Pending {
        return;
      }
      if t.outcome == Misconfigured {
        Fail(j, t.now);
        return;
      }
      tables.UpdateStatus(j, Running, t.now);
      if t.outcome == Interrupted {
        return;
      }
      assert forall i :: i in tables.jobs ==> HasOwner(old(tables.Value()), i);
      if t.outcome != Success {
        Fail(j, t.now);
        return;
      }
      tables.UpdateStatus(j, Succeeded, t.now);
    }

    method RecoverOrphanedJobs(rows: seq<JobId>)
      modifies this`queue
      ensures queue == Pushed(old(queue), rows)
    {
      for i := 0 to |rows|
        invariant Pushed(queue, rows[i..]) == Pushed(old(queue), rows)
      {
        assert rows[i..][1..] == rows[i + 1..];
        queue := [rows[i]] + queue;
      }
    }

    method DrainQueue(plan: Plan)
      requires WellOwned(Value())
      modifies this, tables
      ensures Value() == Drain(old(Value()), old(queue), plan) && queue == []
    {
      while queue != []
        invariant WellOwned(Value())
        invariant Drain(Value(), queue, plan) == Drain(old(Value()), old(queue), plan)
        decreases |queue|
      {
        var j := queue[|queue| - 1];
        ProcessStaysOwned(Value(), j, plan(j));
        queue := queue[..|queue| - 1];
        ProcessJob(j, plan(j));
      }
    }

    method JanitorPass(rows: seq<JobId>, now: Time)
      requires WellOwned(Value()) && forall j :: j in rows ==> j in tables.jobs
      modifies this`failures, tables
      ensures Value() == Sweep(old(Value()), rows, now)
    {
      for i := 0 to |rows|
        invariant WellOwned(Value()) && tables.jobs.Keys == old(tables.jobs).Keys
        invariant Sweep(Value(), rows[i..], now) == Sweep(old(Value()), rows, now)
      {
        SweepFails(Value(), rows, i, now);
        Fail(rows[i], now);
      }
    }
  }
}
