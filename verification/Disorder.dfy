/**
 What worker runs that are not orderly can end in. No step of a worker, of the janitor or of orphan recovery is
 left out: each run below is one the code can make.
 */
module Disorder {
  import opened Options
  import opened Ledger
  import opened Billing
  import opened Serial
  import opened Lifecycle

  ghost predicate Reachable(w: World) {
    exists steps :: RunFrom(START, steps) == w
  }

  lemma {:induction false} RunFromThen(w: World, steps: seq<Step>, step: Step)
    ensures RunFrom(w, steps + [step]) == NextOr(RunFrom(w, steps), step)
    decreases |steps|
  {
    var all := steps + [step];
    if steps == [] {
      assert all == [step] && all[1..] == [];
    } else {
      assert all[1..] == steps[1..] + [step];
      RunFromThen(NextOr(w, steps[0]), steps[1..], step);
    }
  }

  lemma Reach(w: World, step: Step) returns (t: World)
    requires Reachable(w) && Enabled(w, step)
    ensures Reachable(t) && t == Next(w, step)
  {
    var steps :| RunFrom(START, steps) == w;
    RunFromThen(START, steps, step);
    t := Next(w, step);
    assert RunFrom(START, steps + [step]) == t;
  }

  // The accounts of one user and one job, with the job's failures and its charge on the ledger.
  ghost predicate Stands(a: Accounts, u: UserId, user: User, j: JobId, job: Job, k: nat, charge: Credits) {
    && a.store.users == map[u := user] && a.store.jobs == map[j := job] && job.user == u
    && a.failures == map[j := k] && Charges(a.store.ledger, j) == charge
  }

  function Credited(user: User, d: Credits): User {
    user.(balance := user.balance.Plus(d))
  }

  predicate Waits(w: World, queue: seq<JobId>, calls: map<CallId, Call>, now: Time) {
    w.queue == queue && w.calls == calls && w.batch == [] && w.now == now
  }

  lemma FirstCharge(ledger: seq<Txn>, u: UserId, j: JobId, charge: Credits, after: Credits, now: Time)
    requires |ledger| == 0 && charge.NonNegative()
    ensures Charges(ledger + Rows(u, charge.Negated(), JobCharge, after, Some(j), None, now), j) == charge
  {
    JobSumsAfter(j, ledger, u, charge.Negated(), JobCharge, after, Some(j), None, now);
  }

  // One user, and nothing else yet
  predicate Fresh(a: Accounts, u: UserId, user: User) {
    a.store.users == map[u := user] && |a.store.jobs| == 0 && |a.store.ledger| == 0 && |a.failures| == 0
  }

  lemma WholeCharge(charge: Credits, cost: nat)
    requires charge.free == cost && charge.paid == 0
    ensures CalculateCreditSplit(charge, cost) == Ok(charge)
  {
    SplitIs(charge, cost);
  }

  lemma Creating(a: Accounts, u: UserId, user: User, j: JobId, job: Job, charge: Credits, now: Time)
    requires Fresh(a, u, user) && charge.free == job.charged == user.grant && charge.paid == 0 && user.balance == charge
    requires job.user == u && job.key.None? && job.status == Pending
    ensures Possible(a, Create(j, job))
    ensures var after := charge.Plus(charge.Negated());
            Commit(a, Create(j, job), now)
              == Accounts(Post(a.store.(jobs := a.store.jobs[j := job]), u, after,
                               Rows(u, charge.Negated(), JobCharge, after, Some(j), None, now)), a.failures[j := 0])
  {
    WholeCharge(charge, job.charged);
    CreateJobIs(a.store, j, job, now, charge);
  }

  lemma OneEntry<V>(m: map<JobId, V>, j: JobId, v: V)
    requires |m| == 0
    ensures m[j := v] == map[j := v]
  {
  }

  lemma ChargeStands(a: Accounts, u: UserId, user: User, j: JobId, job: Job, charge: Credits, now: Time, end: Accounts)
    requires Fresh(a, u, user) && job.user == u && user.balance == charge && charge.NonNegative()
    requires var after := charge.Plus(charge.Negated());
             end == Accounts(Post(a.store.(jobs := a.store.jobs[j := job]), u, after,
                                  Rows(u, charge.Negated(), JobCharge, after, Some(j), None, now)), a.failures[j := 0])
    ensures Stands(end, u, Credited(user, charge.Negated()), j, job, 0, charge)
  {
    OneEntry(a.store.jobs, j, job);
    OneEntry(a.failures, j, 0);
    assert end.store.users == map[u := Credited(user, charge.Negated())];
    FirstCharge(a.store.ledger, u, j, charge, charge.Plus(charge.Negated()), now);
  }

  lemma Charging(a: Accounts, u: UserId, user: User, j: JobId, job: Job, charge: Credits, now: Time)
    requires Fresh(a, u, user) && charge.free == job.charged == user.grant && charge.paid == 0 && user.balance == charge
    requires job.user == u && job.key.None? && job.status == Pending
    ensures Possible(a, Create(j, job))
    ensures Stands(Commit(a, Create(j, job), now), u, Credited(user, charge.Negated()), j, job, 0, charge)
  {
    Creating(a, u, user, j, job, charge, now);
    WholeCharge(charge, job.charged);
    ChargeStands(a, u, user, j, job, charge, now, Commit(a, Create(j, job), now));
  }

  lemma Registered(u: UserId, user: User) returns (w: World)
    requires user.balance == Credits(user.grant, 0)
    ensures Reachable(w) && Waits(w, [], map[], w.now) && Fresh(w.accounts, u, user)
  {
    assert RunFrom(START, []) == START;
    w := Reach(START, Submit(Register(u, user)));
  }

  lemma Submits(w: World, u: UserId, user: User, j: JobId, job: Job, charge: Credits) returns (t: World)
    requires Reachable(w) && Fresh(w.accounts, u, user)
    requires charge.free == job.charged == user.grant && charge.paid == 0 && user.balance == charge
    requires job.user == u && job.key.None? && job.status == Pending
    ensures Reachable(t) && t == w.(accounts := t.accounts)
    ensures Stands(t.accounts, u, Credited(user, charge.Negated()), j, job, 0, charge)
  {
    Charging(w.accounts, u, user, j, job, charge, w.now);
    t := Reach(w, Submit(Create(j, job)));
  }

  // A user who can pay for one job submits it.
  lemma Submitted(u: UserId, user: User, j: JobId, job: Job, charge: Credits) returns (w: World)
    requires user.balance == charge == Credits(user.grant, 0) && job.charged == user.grant
    requires job.user == u && job.key.None? && job.status == Pending
    ensures Reachable(w) && Waits(w, [j], map[], w.now)
    ensures Stands(w.accounts, u, Credited(user, charge.Negated()), j, job, 0, charge)
  {
    var r := Registered(u, user);
    w := Submits(r, u, user, j, job, charge);
    w := Pushes(w, j);
  }

  lemma Pushes(w: World, j: JobId) returns (t: World)
    requires Reachable(w) && j in w.accounts.store.jobs && w.queue == []
    ensures Reachable(t) && t == w.(queue := t.queue) && t.queue == [j]
  {
    t := Reach(w, Push(j));
    assert t.queue == [j] + w.queue;
  }

  // A committed _fail_job, whatever the job's status was
  lemma Failing(a: Accounts, u: UserId, user: User, j: JobId, job: Job, k: nat, charge: Credits, now: Time)
    requires Stands(a, u, user, j, job, k, charge) && user.balance.NonNegative() && charge.NonNegative()
    ensures Possible(a, Fail(j))
    ensures Stands(Commit(a, Fail(j), now), u, Credited(user, charge), j, job.(status := Failed), k + 1, charge)
  {
    JobSumsAfter(j, a.store.ledger, u, charge, Refund, user.balance.Plus(charge), Some(j), None, now);
  }

  // --- Two calls past the pending check ---

  // A second worker's orphan recovery pushes the id again.
  lemma QueuedTwice(w: World, u: UserId, user: User, j: JobId, job: Job, charge: Credits, now: Time) returns (t: World)
    requires Reachable(w) && Waits(w, [j], map[], now) && Stands(w.accounts, u, user, j, job, 0, charge)
    ensures Reachable(t) && Waits(t, [j, j], map[], now + 61) && t.accounts == w.accounts
  {
    t := Reach(w, Tick(61));
    t := Reach(t, Push(j));
  }

  lemma TakenTwice(w: World, u: UserId, user: User, j: JobId, job: Job, charge: Credits, c: CallId, d: CallId, now: Time)
    returns (t: World)
    requires Reachable(w) && Waits(w, [j, j], map[], now) && Stands(w.accounts, u, user, j, job, 0, charge)
    requires job.status == Pending && c != d
    ensures Reachable(t) && t.accounts == w.accounts && At(t, c, Loaded) && At(t, d, Loaded)
    ensures t.calls[c].job == j == t.calls[d].job
  {
    t := Reach(w, Take(c));
    t := Reach(t, Take(d));
    t := Reach(t, Read(c));
    t := Reach(t, Read(d));
  }

  // Two tasks read the job as pending before either writes its status, and both fail it: the charge comes back
  // twice.
  lemma TwoCallsRefundTwice(u: UserId, j: JobId, c: CallId, d: CallId, cost: nat) returns (w: World)
    requires cost > 0 && c != d
    ensures Reachable(w) && j in w.accounts.failures && w.accounts.failures[j] == 2
    ensures u in w.accounts.store.users && w.accounts.store.users[u].grant == cost
    ensures w.accounts.store.users[u].balance.free == 2 * cost
  {
    var charge := Credits(cost, 0);
    var user, job := User(0, "", charge, cost), Job(0, u, cost, None, 0, 0, Pending, 0);
    var paid := Credited(user, charge.Negated());
    w := Submitted(u, user, j, job, charge);
    w := QueuedTwice(w, u, paid, j, job, charge, w.now);
    w := TakenTwice(w, u, paid, j, job, charge, c, d, w.now);
    Failing(w.accounts, u, paid, j, job, 0, charge, w.now);
    w := Reach(w, Refuse(c));
    var once := Credited(paid, charge);
    Failing(w.accounts, u, once, j, job.(status := Failed), 1, charge, w.now);
    w := Reach(w, Refuse(d));
  }

  // --- A handler that outlives the janitor's deadline ---

  lemma Runs(w: World, u: UserId, user: User, j: JobId, job: Job, charge: Credits, c: CallId, now: Time) returns (t: World)
    requires Reachable(w) && Waits(w, [j], map[], now) && Stands(w.accounts, u, user, j, job, 0, charge)
    requires job.status == Pending
    ensures Reachable(t) && Waits(t, [], map[c := Call(j, Executing)], now)
    ensures Stands(t.accounts, u, user, j, job.(status := Running, startedAt := now), 0, charge)
  {
    t := Reach(w, Take(c));
    t := Reach(t, Read(c));
    t := Reach(t, Execute(c));
  }

  // The janitor lists the job once it is overdue, and fails it.
  lemma SweptAway(w: World, u: UserId, user: User, j: JobId, job: Job, charge: Credits, c: CallId, now: Time) returns (t: World)
    requires Reachable(w) && Waits(w, [], map[c := Call(j, Executing)], now) && Stands(w.accounts, u, user, j, job, 0, charge)
    requires job.status == Running && job.startedAt == now && user.balance.NonNegative() && charge.NonNegative()
    ensures Reachable(t) && t.calls == map[c := Call(j, Executing)]
    ensures Stands(t.accounts, u, Credited(user, charge), j, job.(status := Failed), 1, charge)
  {
    t := Reach(w, Tick(job.timeout + 61));
    assert forall i :: i in [j] <==> Overdue(t.accounts.store, t.now, i);
    t := Reach(t, Scan([j]));
    Failing(t.accounts, u, user, j, job, 0, charge, t.now);
    t := Reach(t, Sweep);
  }

  // The janitor fails a slow job, then its handler's write marks it succeeded: the user has the output and the
  // whole charge back.
  lemma LateSuccessIsFree(u: UserId, j: JobId, c: CallId, cost: nat, timeout: nat) returns (w: World)
    requires cost > 0
    ensures Reachable(w) && j in w.accounts.store.jobs
    ensures w.accounts.store.jobs[j].status == Succeeded && w.accounts.store.jobs[j].charged == cost
    ensures j in w.accounts.failures && w.accounts.failures[j] == 1
    ensures u in w.accounts.store.users && w.accounts.store.users[u].grant == cost
    ensures w.accounts.store.users[u].balance.free == cost
  {
    var charge := Credits(cost, 0);
    var user, job := User(0, "", charge, cost), Job(0, u, cost, None, timeout, 0, Pending, 0);
    var paid := Credited(user, charge.Negated());
    w := Submitted(u, user, j, job, charge);
    var start := w.now;
    w := Runs(w, u, paid, j, job, charge, c, start);
    w := SweptAway(w, u, paid, j, job.(status := Running, startedAt := start), charge, c, start);
    w := Reach(w, FinishWell(c));
  }
}
