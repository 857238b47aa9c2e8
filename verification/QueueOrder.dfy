/**
 Draining the queue with one process_job call after another: the statuses and balances it ends in depend only on
 which ids were queued, not on their order or on how often each was pushed.
 */
module QueueOrder {
  import opened Options
  import opened Ledger
  import opened Billing
  import opened Serial
  import opened Worker

  // What users see: every balance and every job's status.
  datatype View = View(balances: map<UserId, Credits>, statuses: map<JobId, Status>)

  ghost function ViewOf(s: Store): View {
    View(map u | u in s.users :: s.users[u].balance, map j | j in s.jobs :: s.jobs[j].status)
  }

  // What a drain never changes: whose each job is and what it was charged.
  datatype Fixed = Fixed(owners: map<JobId, UserId>, charges: map<JobId, Credits>)

  ghost function FixedOf(s: Store): Fixed {
    Fixed(map j | j in s.jobs :: s.jobs[j].user, map j | j in s.jobs :: Charges(s.ledger, j))
  }

  ghost predicate Fits(v: View, f: Fixed) {
    && v.statuses.Keys == f.owners.Keys == f.charges.Keys
    && forall j :: j in f.owners ==> f.owners[j] in v.balances
  }

  function Final(o: Outcome): Status {
    match o
    case Success => Succeeded
    case Interrupted => Running
    case _ => Failed
  }

  ghost function Added(balances: map<UserId, Credits>, u: UserId, c: Credits): map<UserId, Credits>
    requires u in balances
  {
    balances[u := balances[u].Plus(c)]
  }

  ghost function ViewStep(v: View, f: Fixed, j: JobId, o: Outcome): View
    requires Fits(v, f)
  {
    if j !in v.statuses || v.statuses[j] != Pending then v
    else
      View(if Final(o) == Failed then Added(v.balances, f.owners[j], f.charges[j]) else v.balances,
           v.statuses[j := Final(o)])
  }

  ghost function ViewDrain(v: View, f: Fixed, queue: seq<JobId>, plan: Plan): View
    requires Fits(v, f)
    decreases |queue|
  {
    if queue == [] then v
    else ViewDrain(ViewStep(v, f, queue[|queue| - 1], plan(queue[|queue| - 1]).outcome), f, queue[..|queue| - 1], plan)
  }

  // --- The algebra of steps ---

  lemma StepTwice(v: View, f: Fixed, j: JobId, o: Outcome)
    requires Fits(v, f)
    ensures ViewStep(ViewStep(v, f, j, o), f, j, o) == ViewStep(v, f, j, o)
  {
  }

  lemma AdditionsCommute(balances: map<UserId, Credits>, u: UserId, c: Credits, w: UserId, d: Credits)
    requires u in balances && w in balances
    ensures Added(Added(balances, u, c), w, d) == Added(Added(balances, w, d), u, c)
  {
    var x, y := Added(Added(balances, u, c), w, d), Added(Added(balances, w, d), u, c);
    assert x[u].free == y[u].free && x[u].paid == y[u].paid;
    assert x[w].free == y[w].free && x[w].paid == y[w].paid;
    forall k | k in balances ensures x[k] == y[k] {
    }
  }

  lemma StepsCommute(v: View, f: Fixed, i: JobId, j: JobId, plan: Plan)
    requires Fits(v, f)
    ensures ViewStep(ViewStep(v, f, i, plan(i).outcome), f, j, plan(j).outcome)
         == ViewStep(ViewStep(v, f, j, plan(j).outcome), f, i, plan(i).outcome)
  {
    if i != j && i in v.statuses && v.statuses[i] == Pending && j in v.statuses && v.statuses[j] == Pending {
      var x, y := Final(plan(i).outcome), Final(plan(j).outcome);
      assert v.statuses[i := x][j := y] == v.statuses[j := y][i := x];
      AdditionsCommute(v.balances, f.owners[i], f.charges[i], f.owners[j], f.charges[j]);
    }
  }

  function Without(queue: seq<JobId>, j: JobId): (r: seq<JobId>)
    ensures j !in r && |r| <= |queue|
    ensures forall i :: i != j ==> (i in r <==> i in queue)
  {
    if queue == [] then []
    else Without(queue[..|queue| - 1], j) + if queue[|queue| - 1] == j then [] else [queue[|queue| - 1]]
  }

  // Once j has been stepped, its other occurrences do nothing.
  lemma {:induction false} DrainSkips(v: View, f: Fixed, queue: seq<JobId>, plan: Plan, j: JobId)
    requires Fits(v, f)
    ensures ViewDrain(ViewStep(v, f, j, plan(j).outcome), f, queue, plan)
         == ViewDrain(ViewStep(v, f, j, plan(j).outcome), f, Without(queue, j), plan)
    decreases |queue|
  {
    if queue != [] {
      var last, front := queue[|queue| - 1], queue[..|queue| - 1];
      if last == j {
        StepTwice(v, f, j, plan(j).outcome);
        DrainSkips(v, f, front, plan, j);
        assert Without(queue, j) == Without(front, j);
      } else {
        StepsCommute(v, f, j, last, plan);
        DrainSkips(ViewStep(v, f, last, plan(last).outcome), f, front, plan, j);
        assert Without(queue, j)[..|Without(queue, j)| - 1] == Without(front, j);
      }
    }
  }

  // A queued id may as well come first.
  lemma {:induction false} DrainPulls(v: View, f: Fixed, queue: seq<JobId>, plan: Plan, j: JobId)
    requires Fits(v, f) && j in queue
    ensures ViewDrain(v, f, queue, plan) == ViewDrain(ViewStep(v, f, j, plan(j).outcome), f, queue, plan)
    decreases |queue|
  {
    var last, front := queue[|queue| - 1], queue[..|queue| - 1];
    if last == j {
      StepTwice(v, f, j, plan(j).outcome);
    } else {
      assert queue == front + [last];
      StepsCommute(v, f, j, last, plan);
      DrainPulls(ViewStep(v, f, last, plan(last).outcome), f, front, plan, j);
    }
  }

  lemma {:induction false} DrainByIds(v: View, f: Fixed, p: seq<JobId>, q: seq<JobId>, plan: Plan)
    requires Fits(v, f) && forall j :: j in p <==> j in q
    ensures ViewDrain(v, f, p, plan) == ViewDrain(v, f, q, plan)
    decreases |p|
  {
    assert q != [] ==> q[0] in q;
    if p != [] {
      var j := p[|p| - 1];
      var v' := ViewStep(v, f, j, plan(j).outcome);
      var front := p[..|p| - 1];
      assert p == front + [j];
      DrainSkips(v, f, front, plan, j);
      DrainPulls(v, f, q, plan, j);
      DrainSkips(v, f, q, plan, j);
      DrainByIds(v', f, Without(front, j), Without(q, j), plan);
    }
  }

  // --- Back to the tables ---

  lemma FailKeepsFixed(a: Accounts, j: JobId, now: Time)
    requires Books(a.store, a.failures) && j in a.store.jobs && a.store.jobs[j].user in a.store.users
    ensures FixedOf(FailJob(a.store, j, now)) == FixedOf(a.store)
  {
    var s, s' := a.store, FailJob(a.store, j, now);
    FailIsPosted(s, a.failures, j, now);
    var u, back := s.jobs[j].user, Charges(s.ledger, j);
    forall i | i in s.jobs ensures Charges(s'.ledger, i) == Charges(s.ledger, i) {
      JobSumsAfter(i, s.ledger, u, back, Refund, s.users[u].balance.Plus(back), Some(j), None, now);
    }
    assert FixedOf(s').charges == FixedOf(s).charges;
    assert FixedOf(s').owners == FixedOf(s).owners;
  }

  lemma FailView(a: Accounts, j: JobId, now: Time)
    requires Books(a.store, a.failures) && j in a.store.jobs && a.store.jobs[j].user in a.store.users
    ensures var s := a.store;
            ViewOf(FailJob(s, j, now)) == View(Added(ViewOf(s).balances, s.jobs[j].user, Charges(s.ledger, j)),
                                               ViewOf(s).statuses[j := Failed])
  {
    var s, s' := a.store, FailJob(a.store, j, now);
    FailIsPosted(s, a.failures, j, now);
    assert ViewOf(s').balances == Added(ViewOf(s).balances, s.jobs[j].user, Charges(s.ledger, j));
    assert ViewOf(s').statuses == ViewOf(s).statuses[j := Failed];
  }

  lemma StatusView(a: Accounts, j: JobId, job: Job)
    requires j in a.store.jobs && job.user == a.store.jobs[j].user
    ensures var s' := a.store.(jobs := a.store.jobs[j := job]);
            && ViewOf(s') == ViewOf(a.store).(statuses := ViewOf(a.store).statuses[j := job.status])
            && FixedOf(s') == FixedOf(a.store)
  {
    var s' := a.store.(jobs := a.store.jobs[j := job]);
    assert FixedOf(s').charges == FixedOf(a.store).charges;
    assert FixedOf(s').owners == FixedOf(a.store).owners;
  }

  lemma BooksFit(s: Store, failures: Failures)
    requires Books(s, failures)
    ensures Fits(ViewOf(s), FixedOf(s)) && WellOwned(Accounts(s, failures))
  {
    forall j | j in s.jobs ensures s.jobs[j].user in s.users {
      assert JobBalanced(s, j, failures[j]);
    }
  }

  ghost predicate SameBooks(a: Accounts, a': Accounts) {
    Books(a'.store, a'.failures) && FixedOf(a'.store) == FixedOf(a.store)
  }

  lemma FailFromPending(a: Accounts, j: JobId, o: Outcome, now: Time)
    requires Books(a.store, a.failures) && WellOwned(a) && IsPending(a.store, j) && Final(o) == Failed
    ensures SameBooks(a, Apply(a, Fail(j), now)) && Fits(ViewOf(a.store), FixedOf(a.store))
    ensures ViewOf(Apply(a, Fail(j), now).store) == ViewStep(ViewOf(a.store), FixedOf(a.store), j, o)
  {
    BooksFit(a.store, a.failures);
    CommitKeepsBooks(a, Fail(j), now);
    FailView(a, j, now);
    FailKeepsFixed(a, j, now);
  }

  lemma StartFromPending(a: Accounts, j: JobId, now: Time)
    requires Books(a.store, a.failures) && WellOwned(a) && IsPending(a.store, j)
    ensures var a' := Apply(a, Start(j), now);
            && SameBooks(a, a') && WellOwned(a') && j in a'.store.jobs
            && ViewOf(a'.store) == ViewOf(a.store).(statuses := ViewOf(a.store).statuses[j := Running])
  {
    CommitKeepsBooks(a, Start(j), now);
    StatusView(a, j, a.store.jobs[j].(status := Running, startedAt := now));
    BooksFit(Apply(a, Start(j), now).store, a.failures);
  }

  // `started` is a after the move of pending job j to running.
  ghost predicate IsStarted(a: Accounts, started: Accounts, j: JobId) {
    && SameBooks(a, started) && WellOwned(a) && WellOwned(started)
    && IsPending(a.store, j) && j in started.store.jobs
    && Fits(ViewOf(a.store), FixedOf(a.store))
    && ViewOf(started.store) == ViewOf(a.store).(statuses := ViewOf(a.store).statuses[j := Running])
  }

  lemma SucceedKeeps(started: Accounts, j: JobId, now: Time)
    requires Books(started.store, started.failures) && j in started.store.jobs
    ensures SameBooks(started, Apply(started, Succeed(j), now))
    ensures ViewOf(Apply(started, Succeed(j), now).store)
         == ViewOf(started.store).(statuses := ViewOf(started.store).statuses[j := Succeeded])
  {
    CommitKeepsBooks(started, Succeed(j), now);
    StatusView(started, j, started.store.jobs[j].(status := Succeeded));
  }

  lemma SucceedFromRunning(a: Accounts, started: Accounts, j: JobId, o: Outcome, now: Time)
    requires IsStarted(a, started, j) && Final(o) == Succeeded
    ensures SameBooks(a, Apply(started, Succeed(j), now))
    ensures ViewOf(Apply(started, Succeed(j), now).store) == ViewStep(ViewOf(a.store), FixedOf(a.store), j, o)
  {
    var v := ViewOf(a.store);
    var done := Final(o);
    assert v.statuses[j := Running][j := done] == v.statuses[j := done];
    SucceedKeeps(started, j, now);
  }

  lemma FailFromRunning(a: Accounts, started: Accounts, j: JobId, o: Outcome, now: Time)
    requires IsStarted(a, started, j) && Final(o) == Failed
    ensures SameBooks(a, Apply(started, Fail(j), now))
    ensures ViewOf(Apply(started, Fail(j), now).store) == ViewStep(ViewOf(a.store), FixedOf(a.store), j, o)
  {
    var v := ViewOf(a.store);
    assert v.statuses[j := Running][j := Failed] == v.statuses[j := Failed];
    CommitKeepsBooks(started, Fail(j), now);
    FailView(started, j, now);
    FailKeepsFixed(started, j, now);
    assert FixedOf(started.store).charges[j] == FixedOf(a.store).charges[j];
    assert FixedOf(started.store).owners[j] == FixedOf(a.store).owners[j];
  }

  lemma ProcessView(a: Accounts, j: JobId, t: Attempt)
    requires Books(a.store, a.failures) && WellOwned(a)
    ensures Fits(ViewOf(a.store), FixedOf(a.store)) && SameBooks(a, Process(a, j, t))
    ensures ViewOf(Process(a, j, t).store) == ViewStep(ViewOf(a.store), FixedOf(a.store), j, t.outcome)
  {
    BooksFit(a.store, a.failures);
    if IsPending(a.store, j) {
      if t.outcome == Misconfigured {
        FailFromPending(a, j, t.outcome, t.now);
      } else {
        StartFromPending(a, j, t.now);
        var started := Apply(a, Start(j), t.now);
        if t.outcome == Success {
          SucceedFromRunning(a, started, j, t.outcome, t.now);
        } else if t.outcome != Interrupted {
          FailFromRunning(a, started, j, t.outcome, t.now);
        }
      }
    }
  }

  lemma {:induction false} DrainView(a: Accounts, queue: seq<JobId>, plan: Plan)
    requires Books(a.store, a.failures) && WellOwned(a)
    ensures Fits(ViewOf(a.store), FixedOf(a.store))
    ensures ViewOf(Drain(a, queue, plan).store) == ViewDrain(ViewOf(a.store), FixedOf(a.store), queue, plan)
    decreases |queue|
  {
    BooksFit(a.store, a.failures);
    if queue != [] {
      var j := queue[|queue| - 1];
      ProcessView(a, j, plan(j));
      ProcessStaysOwned(a, j, plan(j));
      DrainView(Process(a, j, plan(j)), queue[..|queue| - 1], plan);
    }
  }

  // Any two queues of the same ids, whatever their order and repetitions, drain to the same balances and
  // statuses from any books at all.
  lemma OrderDoesNotMatter(a: Accounts, p: seq<JobId>, q: seq<JobId>, plan: Plan)
    requires Books(a.store, a.failures) && forall j :: j in p <==> j in q
    ensures ViewOf(Drain(a, p, plan).store) == ViewOf(Drain(a, q, plan).store)
  {
    BooksFit(a.store, a.failures);
    DrainView(a, p, plan);
    DrainView(a, q, plan);
    DrainByIds(ViewOf(a.store), FixedOf(a.store), p, q, plan);
  }

  // Orphan recovery pushing ids that are still queued is such a repetition.
  lemma RequeueingTheQueuedIsHarmless(a: Accounts, queue: seq<JobId>, rows: seq<JobId>, plan: Plan)
    requires Books(a.store, a.failures) && forall j :: j in rows ==> j in queue
    ensures ViewOf(Drain(a, Pushed(queue, rows), plan).store) == ViewOf(Drain(a, queue, plan).store)
  {
    forall j ensures j in Pushed(queue, rows) <==> j in queue {
      PushedHolds(queue, rows, j);
    }
    OrderDoesNotMatter(a, Pushed(queue, rows), queue, plan);
  }
}
