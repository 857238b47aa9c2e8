/**
 When a job's status writes respect its terminal states, every job is settled exactly once: its charge is kept
 or wholly given back, and a user's credits are what came in less the charges of the jobs that did not fail.
 */
module Settlement {
  import opened Options
  import opened Ledger
  import opened Billing
  import opened Serial

  predicate Terminal(status: Status) {
    status == Succeeded || status == Failed
  }

  function Rank(status: Status): nat {
    match status
    case Pending => 2
    case Running => 1
    case Succeeded => 0
    case Failed => 0
  }

  // --- What the jobs of a user still cost ---

  function Cost(job: Job, u: UserId): nat {
    if job.user == u && job.status != Failed then job.charged else 0
  }

  // The sum of Cost over all jobs, taken in any order.
  ghost function Outstanding(jobs: map<JobId, Job>, u: UserId): nat
    decreases |jobs|
  {
    if jobs == map[] then 0
    else
      var j :| j in jobs;
      Cost(jobs[j], u) + Outstanding(jobs - {j}, u)
  }

  lemma {:induction false} OutstandingSplits(jobs: map<JobId, Job>, j: JobId, u: UserId)
    requires j in jobs
    ensures Outstanding(jobs, u) == Cost(jobs[j], u) + Outstanding(jobs - {j}, u)
    decreases |jobs|
  {
    var i :| i in jobs && Outstanding(jobs, u) == Cost(jobs[i], u) + Outstanding(jobs - {i}, u);
    if i != j {
      OutstandingSplits(jobs - {i}, j, u);
      OutstandingSplits(jobs - {j}, i, u);
      assert (jobs - {i}) - {j} == (jobs - {j}) - {i};
    }
  }

  lemma OutstandingAfter(jobs: map<JobId, Job>, j: JobId, job: Job, u: UserId)
    ensures Outstanding(jobs[j := job], u)
         == Outstanding(jobs, u) + Cost(job, u) - (if j in jobs then Cost(jobs[j], u) else 0)
  {
    OutstandingSplits(jobs[j := job], j, u);
    assert jobs[j := job] - {j} == jobs - {j};
    if j in jobs {
      OutstandingSplits(jobs, j, u);
    } else {
      assert jobs - {j} == jobs;
    }
  }

  // --- Settled accounts ---

  ghost predicate FailedOnce(a: Accounts, j: JobId)
    requires j in a.store.jobs
  {
    j in a.failures && a.failures[j] == if a.store.jobs[j].status == Failed then 1 else 0
  }

  ghost predicate PaysForJobs(s: Store, u: UserId)
    requires u in s.users
  {
    s.users[u].balance.free + s.users[u].balance.paid
      == s.users[u].grant + Sum(s.ledger, FromOutside(u)) - Outstanding(s.jobs, u)
  }

  ghost predicate Settled(a: Accounts) {
    && Books(a.store, a.failures)
    && (forall j {:trigger FailedOnce(a, j)} :: j in a.store.jobs ==> FailedOnce(a, j))
    && (forall u {:trigger PaysForJobs(a.store, u)} :: u in a.store.users ==> PaysForJobs(a.store, u))
  }

  // The job whose status a change writes
  function Writes(c: Change): Option<JobId> {
    match c
    case Fail(j) => Some(j)
    case Start(j) => Some(j)
    case Succeed(j) => Some(j)
    case _ => None
  }

  // No write to the status of a failed job.
  ghost predicate Lawful(a: Accounts, c: Change) {
    && Possible(a, c)
    && (Writes(c).Some? ==> a.store.jobs[Writes(c).value].status != Failed)
  }

  // No write to the status of a terminal job, which is more than Lawful asks.
  ghost predicate SparesTerminal(a: Accounts, c: Change) {
    && Possible(a, c)
    && (Writes(c).Some? ==> !Terminal(a.store.jobs[Writes(c).value].status))
  }

  lemma {:induction false} NoJobsOf(jobs: map<JobId, Job>, u: UserId)
    requires forall j :: j in jobs ==> jobs[j].user != u
    ensures Outstanding(jobs, u) == 0
    decreases |jobs|
  {
    if j :| j in jobs {
      OutstandingSplits(jobs, j, u);
      NoJobsOf(jobs - {j}, u);
    } else {
      assert jobs == map[];
    }
  }

  lemma RegisterPays(a: Accounts, u: UserId, user: User)
    requires Settled(a) && Possible(a, Register(u, user))
    ensures forall v :: v in a.store.users || v == u ==> PaysForJobs(Commit(a, Register(u, user), 0).store, v)
  {
    var s, s' := a.store, Commit(a, Register(u, user), 0).store;
    forall j | j in s.jobs ensures s.jobs[j].user != u {
      assert JobBalanced(s, j, a.failures[j]);
    }
    forall t | t in s.ledger ensures Weight(FromOutside(u), t) == 0 {
      assert RowBelongs(s, t);
    }
    NoJobsOf(s.jobs, u);
    SumOfStrangers(s.ledger, FromOutside(u));
    forall v | v in s'.users ensures PaysForJobs(s', v) {
      assert v in s.users ==> PaysForJobs(s, v);
    }
  }

  lemma PostedFor(s: Store, s': Store, u: UserId, d: Credits, reason: Reason, shown: Credits, job: Option<JobId>,
                  external: Option<string>, now: Time, v: UserId)
    requires Posted(s, s', u, d, reason, shown, job, external, now) && v in s.users
    ensures v in s'.users && s'.users[v].grant == s.users[v].grant
    ensures s'.users[v].balance.free + s'.users[v].balance.paid
         == s.users[v].balance.free + s.users[v].balance.paid + if v == u then d.free + d.paid else 0
    ensures Sum(s'.ledger, FromOutside(v)) == Sum(s.ledger, FromOutside(v))
         + if v == u && (reason == Topup || reason == AdminAdjustment) then d.free + d.paid else 0
  {
    SumAfter(FromOutside(v), s.ledger, u, d, reason, shown, job, external, now);
    assert RowsWeight(FromOutside(v), u, d, reason, job)
        == if v == u && (reason == Topup || reason == AdminAdjustment) then d.free + d.paid else 0;
    assert v == u ==> s'.users[v].balance == s.users[v].balance.Plus(d);
    assert v != u ==> s'.users[v] == s.users[v];
  }

  // A transaction that posts rows for u and changes at most job j.
  lemma PostPays(s: Store, s': Store, u: UserId, d: Credits, reason: Reason, shown: Credits, job: Option<JobId>,
                 external: Option<string>, now: Time, v: UserId)
    requires Posted(s, s', u, d, reason, shown, job, external, now)
    requires v in s.users && PaysForJobs(s, v)
    requires Outstanding(s'.jobs, v) == Outstanding(s.jobs, v)
             - (if v == u && (reason == JobCharge || reason == Refund) then d.free + d.paid else 0)
    ensures v in s'.users && PaysForJobs(s', v)
  {
    PostedFor(s, s', u, d, reason, shown, job, external, now, v);
  }

  lemma CommitPays(a: Accounts, c: Change, now: Time, v: UserId)
    requires Settled(a) && Lawful(a, c) && !c.Register? && v in a.store.users
    ensures v in Commit(a, c, now).store.users && PaysForJobs(Commit(a, c, now).store, v)
  {
    var s, s' := a.store, Commit(a, c, now).store;
    assert PaysForJobs(s, v);
    match c
    case Create(j, job) =>
      if CreateJob(s, j, job, now).Ok? {
        var split := CreateIsPosted(s, a.failures, j, job, now);
        OutstandingAfter(s.jobs, j, job, v);
        PostPays(s, s', job.user, split.Negated(), JobCharge, s.users[job.user].balance.Plus(split.Negated()), Some(j), None, now, v);
      }
    case Fail(j) =>
      FailIsPosted(s, a.failures, j, now);
      assert JobBalanced(s, j, a.failures[j]);
      var u, back := s.jobs[j].user, Charges(s.ledger, j);
      OutstandingAfter(s.jobs, j, s'.jobs[j], v);
      PostPays(s, s', u, back, Refund, s.users[u].balance.Plus(back), Some(j), None, now, v);
    case Start(j) => OutstandingAfter(s.jobs, j, s'.jobs[j], v);
    case Succeed(j) => OutstandingAfter(s.jobs, j, s'.jobs[j], v);
    case Credit(u, amount, external) =>
      if s' != s {
        var d := Credits(0, amount);
        PostPays(s, s', u, d, Topup, s.users[u].balance.Plus(d), None, Some(external), now, v);
      }
    case Correct(u, b, amount) =>
      if s' != s {
        var d := InBucket(b, amount);
        PostPays(s, s', u, d, AdminAdjustment, s.users[u].balance.Plus(d), None, None, now, v);
      }
  }

  lemma CommitFailsOnce(a: Accounts, c: Change, now: Time, j: JobId)
    requires Settled(a) && Lawful(a, c) && j in Commit(a, c, now).store.jobs
    ensures FailedOnce(Commit(a, c, now), j)
  {
    assert j in a.store.jobs ==> FailedOnce(a, j);
  }

  lemma CommitKeepsSettled(a: Accounts, c: Change, now: Time)
    requires Settled(a) && Lawful(a, c)
    ensures Settled(Commit(a, c, now))
  {
    var a' := Commit(a, c, now);
    CommitKeepsBooks(a, c, now);
    forall j | j in a'.store.jobs ensures FailedOnce(a', j) {
      CommitFailsOnce(a, c, now, j);
    }
    forall v | v in a'.store.users ensures PaysForJobs(a'.store, v) {
      if c.Register? {
        RegisterPays(a, c.u, c.user);
      } else {
        CommitPays(a, c, now, v);
      }
    }
  }

  // From settled accounts a change leaves settled accounts if and only if it does not write the status of a failed
  // job: the guard that update_status does not have.
  lemma CommitStaysSettledIff(a: Accounts, c: Change, now: Time)
    requires Settled(a) && Possible(a, c)
    ensures Settled(Commit(a, c, now)) <==> Lawful(a, c)
  {
    if Lawful(a, c) {
      CommitKeepsSettled(a, c, now);
    } else {
      var j := Writes(c).value;
      assert FailedOnce(a, j);
      assert !FailedOnce(Commit(a, c, now), j);
    }
  }

  // What Settled says of one job: failed exactly when every bucket it was charged from got it back.
  lemma FailedIffRefunded(a: Accounts, j: JobId)
    requires Settled(a) && j in a.store.jobs
    ensures a.store.jobs[j].status == Failed ==>
              Sum(a.store.ledger, OfJob(j, Free)) == 0 && Sum(a.store.ledger, OfJob(j, Paid)) == 0
    ensures a.store.jobs[j].status != Failed ==>
              && Sum(a.store.ledger, OfJob(j, Free)) == -Sum(a.store.ledger, ChargesOf(j, Free))
              && Sum(a.store.ledger, OfJob(j, Paid)) == -Sum(a.store.ledger, ChargesOf(j, Paid))
    ensures Sum(a.store.ledger, ChargesOf(j, Free)) + Sum(a.store.ledger, ChargesOf(j, Paid)) == a.store.jobs[j].charged
  {
    assert FailedOnce(a, j) && JobBalanced(a.store, j, a.failures[j]);
    NetIs(Sum(a.store.ledger, ChargesOf(j, Free)), a.failures[j]);
    NetIs(Sum(a.store.ledger, ChargesOf(j, Paid)), a.failures[j]);
  }
}
