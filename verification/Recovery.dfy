/**
 A worker crash at any point loses nothing for good: restart, drain, one janitor pass, and every job the crash
 could have orphaned is terminal with its charge settled once.
 */
module Recovery {
  import opened Options
  import opened Ledger
  import opened Billing
  import opened Serial
  import opened Settlement
  import opened Worker
  import Lifecycle

  // A job's row after process_job handled some job.
  ghost predicate JobMoved(before: Job, after: Job) {
    && after.createdAt == before.createdAt
    && (before.status != Pending ==> after == before)
  }

  lemma ProcessSettles(a: Accounts, j: JobId, t: Attempt)
    requires Settled(a) && WellOwned(a)
    ensures Settled(Process(a, j, t))
  {
    if IsPending(a.store, j) {
      if t.outcome == Misconfigured {
        CommitKeepsSettled(a, Fail(j), t.now);
      } else {
        var started := Apply(a, Start(j), t.now);
        CommitKeepsSettled(a, Start(j), t.now);
        if t.outcome == Success {
          CommitKeepsSettled(started, Succeed(j), t.now);
        } else if t.outcome != Interrupted {
          CommitKeepsSettled(started, Fail(j), t.now);
        }
      }
    }
  }

  lemma ProcessMoves(a: Accounts, j: JobId, t: Attempt, i: JobId)
    requires WellOwned(a) && i in a.store.jobs
    ensures var jobs' := Process(a, j, t).store.jobs;
            && i in jobs' && JobMoved(a.store.jobs[i], jobs'[i])
            && (i == j ==> jobs'[i].status != Pending)
            && (i != j ==> jobs'[i] == a.store.jobs[i])
  {
  }

  lemma {:induction false} DrainSettles(a: Accounts, queue: seq<JobId>, plan: Plan)
    requires Settled(a) && WellOwned(a)
    ensures Settled(Drain(a, queue, plan)) && WellOwned(Drain(a, queue, plan))
    decreases |queue|
  {
    if queue != [] {
      var j := queue[|queue| - 1];
      ProcessSettles(a, j, plan(j));
      ProcessStaysOwned(a, j, plan(j));
      DrainSettles(Process(a, j, plan(j)), queue[..|queue| - 1], plan);
    }
  }

  // A drained id is no longer pending.
  lemma {:induction false} DrainMoves(a: Accounts, queue: seq<JobId>, plan: Plan, i: JobId)
    requires WellOwned(a) && i in a.store.jobs
    ensures var jobs' := Drain(a, queue, plan).store.jobs;
            && i in jobs' && JobMoved(a.store.jobs[i], jobs'[i])
            && (i in queue ==> jobs'[i].status != Pending)
            && (i !in queue ==> jobs'[i] == a.store.jobs[i])
    decreases |queue|
  {
    if queue != [] {
      var j, front := queue[|queue| - 1], queue[..|queue| - 1];
      assert queue == front + [j];
      ProcessMoves(a, j, plan(j), i);
      ProcessStaysOwned(a, j, plan(j));
      DrainMoves(Process(a, j, plan(j)), front, plan, i);
    }
  }

  ghost predicate AllRunning(s: Store, rows: seq<JobId>) {
    && (forall j :: j in rows ==> j in s.jobs && s.jobs[j].status == Running)
    && (forall i, k :: 0 <= i < k < |rows| ==> rows[i] != rows[k])
  }

  lemma SweepOne(a: Accounts, rows: seq<JobId>, now: Time)
    requires Settled(a) && WellOwned(a) && AllRunning(a.store, rows) && rows != []
    ensures var a' := Apply(a, Fail(rows[0]), now);
            && Settled(a') && AllRunning(a'.store, rows[1..])
            && a'.store.jobs == a.store.jobs[rows[0] := a.store.jobs[rows[0]].(status := Failed)]
  {
    var j := rows[0];
    assert j in rows;
    CommitKeepsSettled(a, Fail(j), now);
    assert forall i :: i in rows[1..] ==> i in rows && i != j;
  }

  lemma {:induction false} SweepSettles(a: Accounts, rows: seq<JobId>, now: Time)
    requires Settled(a) && AllRunning(a.store, rows)
    ensures Settled(Sweep(a, rows, now))
    decreases |rows|
  {
    if rows != [] {
      BooksAreOwned(a);
      SweepOne(a, rows, now);
      SweepSettles(Apply(a, Fail(rows[0]), now), rows[1..], now);
    }
  }

  lemma {:induction false} SweepFails(a: Accounts, rows: seq<JobId>, now: Time, j: JobId)
    requires Settled(a) && AllRunning(a.store, rows)
    ensures j in Sweep(a, rows, now).store.jobs <==> j in a.store.jobs
    ensures j in a.store.jobs ==>
              Sweep(a, rows, now).store.jobs[j] == if j in rows then a.store.jobs[j].(status := Failed) else a.store.jobs[j]
    decreases |rows|
  {
    if rows != [] {
      BooksAreOwned(a);
      SweepOne(a, rows, now);
      SweepFails(Apply(a, Fail(rows[0]), now), rows[1..], now, j);
    }
  }

  ghost predicate PastEveryDeadline(s: Store, now: Time) {
    forall j :: j in s.jobs && s.jobs[j].status == Running ==> s.jobs[j].startedAt + s.jobs[j].timeout + 60 < now
  }

  // What the listed jobs of a user were charged in a bucket
  function ChargedTo(s: Store, rows: seq<JobId>, u: UserId, b: Bucket): int
    requires forall j :: j in rows ==> j in s.jobs
    decreases |rows|
  {
    if rows == [] then 0
    else
      assert forall j :: j in rows[1..] ==> j in rows;
      (if s.jobs[rows[0]].user == u then Charges(s.ledger, rows[0]).At(b) else 0) + ChargedTo(s, rows[1..], u, b)
  }

  lemma {:induction false} ChargedAlike(s: Store, t: Store, rows: seq<JobId>, u: UserId, b: Bucket)
    requires forall j :: j in rows ==> j in s.jobs && j in t.jobs && t.jobs[j].user == s.jobs[j].user
    requires forall j :: j in rows ==> Charges(t.ledger, j) == Charges(s.ledger, j)
    ensures ChargedTo(t, rows, u, b) == ChargedTo(s, rows, u, b)
    decreases |rows|
  {
    if rows != [] {
      assert rows[0] in rows && forall j :: j in rows[1..] ==> j in rows;
      ChargedAlike(s, t, rows[1..], u, b);
    }
  }

  lemma {:induction false} NothingChargedTo(s: Store, rows: seq<JobId>, u: UserId, b: Bucket)
    requires forall j :: j in rows ==> j in s.jobs && s.jobs[j].user != u
    ensures ChargedTo(s, rows, u, b) == 0
    decreases |rows|
  {
    if rows != [] {
      assert rows[0] in rows && forall j :: j in rows[1..] ==> j in rows;
      NothingChargedTo(s, rows[1..], u, b);
    }
  }

  // The first failure of a sweep pays one user, and no charge of any job changes.
  lemma FailurePays(a: Accounts, j: JobId, now: Time, u: UserId, b: Bucket)
    requires Settled(a) && j in a.store.jobs && u in a.store.users
    ensures var s := Apply(a, Fail(j), now).store;
            && u in s.users && s.users[u] == a.store.users[u].(balance := s.users[u].balance)
            && s.users[u].balance.At(b)
               == a.store.users[u].balance.At(b) + (if a.store.jobs[j].user == u then Charges(a.store.ledger, j).At(b) else 0)
            && forall i :: Charges(s.ledger, i) == Charges(a.store.ledger, i)
  {
    FailIsPosted(a.store, a.failures, j, now);
    var v, back := a.store.jobs[j].user, Charges(a.store.ledger, j);
    forall i ensures Charges(Apply(a, Fail(j), now).store.ledger, i) == Charges(a.store.ledger, i) {
      JobSumsAfter(i, a.store.ledger, v, back, Refund, a.store.users[v].balance.Plus(back), Some(j), None, now);
    }
  }

  lemma {:induction false} SweepPays(a: Accounts, rows: seq<JobId>, now: Time, u: UserId, b: Bucket)
    requires Settled(a) && AllRunning(a.store, rows) && u in a.store.users
    ensures var s := Sweep(a, rows, now).store;
            && u in s.users && s.users[u] == a.store.users[u].(balance := s.users[u].balance)
            && s.users[u].balance.At(b) == a.store.users[u].balance.At(b) + ChargedTo(a.store, rows, u, b)
    decreases |rows|
  {
    if rows != [] {
      var a' := Apply(a, Fail(rows[0]), now);
      BooksAreOwned(a);
      SweepOne(a, rows, now);
      assert rows[0] in rows && forall j :: j in rows[1..] ==> j in rows;
      FailurePays(a, rows[0], now, u, b);
      SweepPays(a', rows[1..], now, u, b);
      ChargedAlike(a.store, a'.store, rows[1..], u, b);
    }
  }

  // A pass of the janitor, at any time: exactly the running jobs whose start lies more than their timeout and sixty
  // seconds back are failed, with both buckets of their charge given back; every other job stays as it is.
  lemma JanitorPassFails(a: Accounts, now: Time, rows: seq<JobId>, j: JobId)
    requires Settled(a) && ListsOverdue(a.store, now, rows)
    ensures var end := Sweep(a, rows, now);
            && Settled(end) && (j in end.store.jobs <==> j in a.store.jobs)
            && (j in rows <==> && j in a.store.jobs && a.store.jobs[j].status == Running
                               && a.store.jobs[j].startedAt + a.store.jobs[j].timeout + 60 < now)
            && (j in rows ==>
                  && end.store.jobs[j] == a.store.jobs[j].(status := Failed)
                  && Sum(end.store.ledger, OfJob(j, Free)) == 0 && Sum(end.store.ledger, OfJob(j, Paid)) == 0)
            && (j in a.store.jobs && j !in rows ==> end.store.jobs[j] == a.store.jobs[j])
  {
    SweepSettles(a, rows, now);
    SweepFails(a, rows, now, j);
    if j in rows {
      FailedIffRefunded(Sweep(a, rows, now), j);
    }
  }

  // Each bucket of a user rises by what those jobs were charged in it; a user without such jobs is left alone.
  lemma JanitorPassPays(a: Accounts, now: Time, rows: seq<JobId>, u: UserId, b: Bucket)
    requires Settled(a) && ListsOverdue(a.store, now, rows) && u in a.store.users
    ensures var end := Sweep(a, rows, now).store;
            && u in end.users
            && end.users[u].balance.At(b) == a.store.users[u].balance.At(b) + ChargedTo(a.store, rows, u, b)
            && ((forall j :: j in a.store.jobs && a.store.jobs[j].user == u && a.store.jobs[j].status == Running
                   ==> now <= a.store.jobs[j].startedAt + a.store.jobs[j].timeout + 60)
                ==> end.users[u].balance.At(b) == a.store.users[u].balance.At(b))
  {
    SweepPays(a, rows, now, u, b);
    if forall j :: j in a.store.jobs && a.store.jobs[j].user == u && a.store.jobs[j].status == Running
         ==> now <= a.store.jobs[j].startedAt + a.store.jobs[j].timeout + 60 {
      NothingChargedTo(a.store, rows, u, b);
    }
  }

  // What orphan recovery leaves queued: what was, and the pending jobs that are older than a minute.
  lemma RecoveredQueue(s: Store, queue: seq<JobId>, restart: Time, orphans: seq<JobId>, j: JobId)
    requires ListsOrphans(s, restart, orphans)
    ensures j in Pushed(queue, orphans) <==> j in queue || (j in s.jobs && s.jobs[j].status == Pending && s.jobs[j].createdAt < restart - 60)
  {
    PushedHolds(queue, orphans, j);
  }

  // Restart and drain, from settled accounts.
  lemma RestartSettles(a: Accounts, queue: seq<JobId>, restart: Time, orphans: seq<JobId>, plan: Plan, j: JobId)
    requires Settled(a) && ListsOrphans(a.store, restart, orphans) && j in a.store.jobs
    ensures var drained := Drain(a, Pushed(queue, orphans), plan);
            && Settled(drained)
            && j in drained.store.jobs
            && (drained.store.jobs[j].status == Pending <==>
                  a.store.jobs[j].status == Pending && a.store.jobs[j].createdAt >= restart - 60 && j !in queue)
  {
    BooksAreOwned(a);
    DrainSettles(a, Pushed(queue, orphans), plan);
    PushedHolds(queue, orphans, j);
    DrainMoves(a, Pushed(queue, orphans), plan, j);
    assert Orphaned(a.store, restart, j) ==> j in orphans;
  }

  // The janitor pass once every running job is past its deadline.
  lemma JanitorFinishes(a: Accounts, now: Time, rows: seq<JobId>, j: JobId)
    requires Settled(a) && ListsOverdue(a.store, now, rows) && PastEveryDeadline(a.store, now) && j in a.store.jobs
    ensures var end := Sweep(a, rows, now);
            && Settled(end) && j in end.store.jobs
            && (a.store.jobs[j].status != Pending ==> Terminal(end.store.jobs[j].status))
  {
    SweepSettles(a, rows, now);
    SweepFails(a, rows, now, j);
  }

  // From the state a crash leaves after any orderly run (the calls are gone, the rows and the queue stay): a
  // restart that lists the pending jobs older than sixty seconds, a drain under any outcomes, and a janitor
  // pass leave every job that was started, queued or old enough terminal, with its charge settled exactly once.
  lemma CrashRecovery(steps: seq<Lifecycle.Step>, restart: Time, orphans: seq<JobId>, plan: Plan,
                      later: Time, overdue: seq<JobId>, j: JobId)
    requires Lifecycle.OrderlyFrom(Lifecycle.START, steps)
    requires var w := Lifecycle.RunFrom(Lifecycle.START, steps);
             var drained := Drain(w.accounts, Pushed(w.queue, orphans), plan);
             && j in w.accounts.store.jobs
             && ListsOrphans(w.accounts.store, restart, orphans)
             && ListsOverdue(drained.store, later, overdue)
             && PastEveryDeadline(drained.store, later)
    ensures var w := Lifecycle.RunFrom(Lifecycle.START, steps);
            var end := Sweep(Drain(w.accounts, Pushed(w.queue, orphans), plan), overdue, later);
            var job := w.accounts.store.jobs[j];
            && Settled(end)
            && j in end.store.jobs
            && (job.status != Pending || job.createdAt < restart - 60 || j in w.queue ==>
                  Terminal(end.store.jobs[j].status))
  {
    var w := Lifecycle.RunFrom(Lifecycle.START, steps);
    Lifecycle.RunFromKeepsInv(Lifecycle.START, steps);
    RestartSettles(w.accounts, w.queue, restart, orphans, plan, j);
    JanitorFinishes(Drain(w.accounts, Pushed(w.queue, orphans), plan), later, overdue, j);
  }
}
