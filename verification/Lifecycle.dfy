/**
 Worker tasks, the queue and the janitor against a clock, each transaction one step, in any interleaving.
 Neither process_job nor update_status guards its status writes, so what is proved here is proved of orderly
 runs: each job is in the hands of one process_job call at a time, and a call either ends or dies before the
 janitor's deadline for its job.
 */
module Lifecycle {
  import opened Options
  import opened Ledger
  import opened Billing
  import opened Serial
  import opened Settlement

  type CallId = nat

  // One task made for a dequeued id: waiting, past the pending check, past the move to running, over.
  datatype Call = Call(job: JobId, at: CallPc)

  datatype CallPc = Dequeued | Loaded | Executing | Over

  // `batch` is what is left of the rows the janitor's last SELECT returned.
  datatype World = World(accounts: Accounts, now: Time, queue: seq<JobId>, calls: map<CallId, Call>, batch: seq<JobId>)

  const START := World(NO_ACCOUNTS, 0, [], map[], [])

  datatype Step =
    | Submit(change: Change)
    | Push(j: JobId)
    | Take(c: CallId)
    | Read(c: CallId)
    | Refuse(c: CallId)
    | Execute(c: CallId)
    | FinishBadly(c: CallId)
    | FinishWell(c: CallId)
    | Crash(c: CallId)
    | Scan(rows: seq<JobId>)
    | Sweep
    | StopSweep
    | Tick(seconds: nat)

  predicate At(w: World, c: CallId, pc: CallPc) {
    c in w.calls && w.calls[c].at == pc
  }

  ghost predicate Enabled(w: World, step: Step) {
    match step
    case Submit(change) =>
      Possible(w.accounts, change) && !change.Fail? && !change.Start? && !change.Succeed?
    case Push(j) => j in w.accounts.store.jobs
    case Take(c) => c !in w.calls && w.queue != []
    case Read(c) => At(w, c, Dequeued)
    case Refuse(c) => At(w, c, Loaded) && Possible(w.accounts, Fail(w.calls[c].job))
    case Execute(c) => At(w, c, Loaded) && Possible(w.accounts, Start(w.calls[c].job))
    case FinishBadly(c) => At(w, c, Executing) && Possible(w.accounts, Fail(w.calls[c].job))
    case FinishWell(c) => At(w, c, Executing) && Possible(w.accounts, Succeed(w.calls[c].job))
    case Crash(c) => c in w.calls
    case Scan(rows) => w.batch == [] && ListsOverdue(w.accounts.store, w.now, rows)
    case Sweep => w.batch != [] && Possible(w.accounts, Fail(w.batch[0]))
    case StopSweep => true
    case Tick(_) => true
  }

  ghost function Committed(w: World, change: Change): World
    requires Possible(w.accounts, change)
  {
    w.(accounts := Commit(w.accounts, change, w.now))
  }

  function Move(w: World, c: CallId, pc: CallPc): World
    requires c in w.calls
  {
    w.(calls := w.calls[c := Call(w.calls[c].job, pc)])
  }

  // process_job's first SELECT: anything but a pending job ends the call.
  function ReadsPending(w: World, j: JobId): bool {
    j in w.accounts.store.jobs && w.accounts.store.jobs[j].status == Pending
  }

  ghost function Next(w: World, step: Step): World
    requires Enabled(w, step)
  {
    match step
    case Submit(change) => Committed(w, change)
    case Push(j) => w.(queue := [j] + w.queue)
    case Take(c) =>
      w.(queue := w.queue[..|w.queue| - 1], calls := w.calls[c := Call(w.queue[|w.queue| - 1], Dequeued)])
    case Read(c) => Move(w, c, if ReadsPending(w, w.calls[c].job) then Loaded else Over)
    case Refuse(c) => Move(Committed(w, Fail(w.calls[c].job)), c, Over)
    case Execute(c) => Move(Committed(w, Start(w.calls[c].job)), c, Executing)
    case FinishBadly(c) => Move(Committed(w, Fail(w.calls[c].job)), c, Over)
    case FinishWell(c) => Move(Committed(w, Succeed(w.calls[c].job)), c, Over)
    case Crash(c) => Move(w, c, Over)
    case Scan(rows) => w.(batch := rows)
    case Sweep => Committed(w, Fail(w.batch[0])).(batch := w.batch[1..])
    case StopSweep => w.(batch := [])
    case Tick(seconds) => w.(now := w.now + seconds)
  }

  // BRPOP takes the id that was pushed first: a push in between does not change what is taken.
  lemma FirstPushedIsTaken(w: World, j: JobId, c: CallId)
    requires Enabled(w, Push(j)) && Enabled(w, Take(c))
    ensures Enabled(Next(w, Push(j)), Take(c)) && Enabled(Next(w, Take(c)), Push(j))
    ensures Next(Next(w, Push(j)), Take(c)) == Next(Next(w, Take(c)), Push(j))
  {
    var queue := [j] + w.queue;
    assert queue[|queue| - 1] == w.queue[|w.queue| - 1];
    assert queue[..|queue| - 1] == [j] + w.queue[..|w.queue| - 1];
  }

  // --- Orderly runs ---

  predicate Busy(w: World, c: CallId) {
    At(w, c, Loaded) || At(w, c, Executing)
  }

  ghost predicate Orderly(w: World, step: Step) {
    match step
    case Read(c) => c in w.calls ==> forall d :: Busy(w, d) ==> w.calls[d].job != w.calls[c].job
    case Tick(seconds) =>
      forall c :: At(w, c, Executing) && w.calls[c].job in w.accounts.store.jobs ==>
        w.now + seconds <= w.accounts.store.jobs[w.calls[c].job].startedAt + w.accounts.store.jobs[w.calls[c].job].timeout + 60
    case _ => true
  }

  // A step that is not enabled changes nothing.
  ghost function NextOr(w: World, step: Step): World {
    if Enabled(w, step) then Next(w, step) else w
  }

  ghost function RunFrom(w: World, steps: seq<Step>): World
    decreases |steps|
  {
    if steps == [] then w
    else RunFrom(NextOr(w, steps[0]), steps[1..])
  }

  ghost predicate OrderlyFrom(w: World, steps: seq<Step>)
    decreases |steps|
  {
    steps == [] || (Orderly(w, steps[0])
                    && OrderlyFrom(NextOr(w, steps[0]), steps[1..]))
  }

  // --- What orderly runs keep ---

  ghost predicate CallOk(w: World, c: CallId)
    requires c in w.calls
  {
    var j, jobs := w.calls[c].job, w.accounts.store.jobs;
    match w.calls[c].at
    case Loaded => j in jobs && jobs[j].status == Pending
    case Executing => j in jobs && jobs[j].status == Running && w.now <= jobs[j].startedAt + jobs[j].timeout + 60
    case _ => true
  }

  ghost predicate OnePerJob(w: World) {
    forall c, d :: Busy(w, c) && Busy(w, d) && w.calls[c].job == w.calls[d].job ==> c == d
  }

  ghost predicate BatchOk(w: World) {
    && (forall j :: j in w.batch ==> Overdue(w.accounts.store, w.now, j))
    && (forall i, k :: 0 <= i < k < |w.batch| ==> w.batch[i] != w.batch[k])
  }

  ghost predicate Inv(w: World) {
    && Settled(w.accounts)
    && (forall c {:trigger CallOk(w, c)} :: c in w.calls ==> CallOk(w, c))
    && OnePerJob(w)
    && BatchOk(w)
  }

  // The change a step makes to the tables, if it makes one.
  ghost function ChangeOf(w: World, step: Step): Option<Change>
    requires Enabled(w, step)
  {
    match step
    case Submit(change) => Some(change)
    case Refuse(c) => Some(Fail(w.calls[c].job))
    case Execute(c) => Some(Start(w.calls[c].job))
    case FinishBadly(c) => Some(Fail(w.calls[c].job))
    case FinishWell(c) => Some(Succeed(w.calls[c].job))
    case Sweep => Some(Fail(w.batch[0]))
    case _ => None
  }

  ghost predicate StepSparesTerminal(w: World, step: Step)
    requires Enabled(w, step)
  {
    ChangeOf(w, step).Some? ==> SparesTerminal(w.accounts, ChangeOf(w, step).value)
  }

  lemma StepsSpareTerminal(w: World, step: Step)
    requires Inv(w) && Enabled(w, step)
    ensures StepSparesTerminal(w, step)
  {
    match step
    case Refuse(c) => assert CallOk(w, c);
    case Execute(c) => assert CallOk(w, c);
    case FinishBadly(c) => assert CallOk(w, c);
    case FinishWell(c) => assert CallOk(w, c);
    case Sweep => assert w.batch[0] in w.batch;
    case _ =>
  }

  lemma NextKeepsSettled(w: World, step: Step)
    requires Inv(w) && Enabled(w, step)
    ensures Settled(Next(w, step).accounts)
  {
    StepsSpareTerminal(w, step);
    match step
    case Submit(change) => CommitKeepsSettled(w.accounts, change, w.now);
    case Refuse(c) => CommitKeepsSettled(w.accounts, Fail(w.calls[c].job), w.now);
    case Execute(c) => CommitKeepsSettled(w.accounts, Start(w.calls[c].job), w.now);
    case FinishBadly(c) => CommitKeepsSettled(w.accounts, Fail(w.calls[c].job), w.now);
    case FinishWell(c) => CommitKeepsSettled(w.accounts, Succeed(w.calls[c].job), w.now);
    case Sweep => CommitKeepsSettled(w.accounts, Fail(w.batch[0]), w.now);
    case _ =>
  }

  // The one job a change writes; the others keep their rows.
  function Touches(change: Change): Option<JobId> {
    if change.Create? then Some(change.j) else Writes(change)
  }

  lemma CommitLeavesOtherJobs(a: Accounts, change: Change, now: Time, j: JobId)
    requires Possible(a, change) && Touches(change) != Some(j)
    ensures j in a.store.jobs <==> j in Commit(a, change, now).store.jobs
    ensures j in a.store.jobs ==> Commit(a, change, now).store.jobs[j] == a.store.jobs[j]
  {
  }

  lemma CommitMovesJob(a: Accounts, change: Change, now: Time, j: JobId)
    requires Possible(a, change) && Touches(change) == Some(j) && j in a.store.jobs
    ensures var jobs' := Commit(a, change, now).store.jobs;
            && j in jobs'
            && jobs'[j] == match change
                           case Fail(_) => a.store.jobs[j].(status := Failed)
                           case Start(_) => a.store.jobs[j].(status := Running, startedAt := now)
                           case _ => a.store.jobs[j].(status := Succeeded)
  {
  }

  // Calls and batch rows on other jobs see nothing of a change.
  lemma ChangeKeepsCall(w: World, change: Change, c: CallId)
    requires Possible(w.accounts, change) && c in w.calls && CallOk(w, c)
    requires Busy(w, c) ==> Touches(change) != Some(w.calls[c].job)
    ensures CallOk(Committed(w, change), c)
  {
    if Busy(w, c) {
      CommitLeavesOtherJobs(w.accounts, change, w.now, w.calls[c].job);
    }
  }

  lemma ChangeKeepsBatch(w: World, change: Change)
    requires Possible(w.accounts, change) && BatchOk(w)
    requires forall j :: j in w.batch ==> Touches(change) != Some(j)
    ensures BatchOk(Committed(w, change))
  {
    forall j | j in w.batch ensures Overdue(Committed(w, change).accounts.store, Committed(w, change).now, j) {
      CommitLeavesOtherJobs(w.accounts, change, w.now, j);
    }
  }

  // A call that changes its own job and moves on.
  lemma OwnChangeKeepsInv(w: World, c: CallId, change: Change, pc: CallPc)
    requires Inv(w) && Busy(w, c) && Possible(w.accounts, change) && Touches(change) == Some(w.calls[c].job)
    requires !change.Create? && (pc == Over || (pc == Executing && change.Start? && At(w, c, Loaded)))
    requires Settled(Committed(w, change).accounts)
    ensures Inv(Move(Committed(w, change), c, pc))
  {
    var w' := Move(Committed(w, change), c, pc);
    var j := w.calls[c].job;
    assert CallOk(w, c);
    forall d | d in w'.calls ensures CallOk(w', d) {
      assert CallOk(w, d);
      if d != c {
        ChangeKeepsCall(w, change, d);
      } else {
        CommitMovesJob(w.accounts, change, w.now, j);
      }
    }
    forall d, e | Busy(w', d) && Busy(w', e) && w'.calls[d].job == w'.calls[e].job ensures d == e {
      assert Busy(w, d) && Busy(w, e);
    }
    assert j !in w.batch by {
      assert j in w.batch ==> Overdue(w.accounts.store, w.now, j);
    }
    ChangeKeepsBatch(w, change);
  }

  lemma SubmitKeepsInv(w: World, change: Change)
    requires Inv(w) && Enabled(w, Submit(change))
    ensures Inv(Next(w, Submit(change)))
  {
    var w' := Committed(w, change);
    NextKeepsSettled(w, Submit(change));
    forall d | d in w'.calls ensures CallOk(w', d) {
      assert CallOk(w, d);
      ChangeKeepsCall(w, change, d);
    }
    assert forall d :: Busy(w', d) ==> Busy(w, d);
    forall j | j in w.batch ensures Touches(change) != Some(j) {
      assert Overdue(w.accounts.store, w.now, j);
    }
    ChangeKeepsBatch(w, change);
  }

  lemma SweepKeepsInv(w: World)
    requires Inv(w) && Enabled(w, Sweep)
    ensures Inv(Next(w, Sweep))
  {
    var j := w.batch[0];
    var change := Fail(j);
    var w' := Next(w, Sweep);
    NextKeepsSettled(w, Sweep);
    assert j in w.batch && Overdue(w.accounts.store, w.now, j);
    forall d | d in w'.calls ensures CallOk(w', d) {
      assert CallOk(w, d);
      ChangeKeepsCall(w, change, d);
    }
    assert forall d :: Busy(w', d) ==> Busy(w, d);
    forall i | i in w'.batch ensures Overdue(w'.accounts.store, w'.now, i) {
      assert Overdue(w.accounts.store, w.now, i) && i != j;
      CommitLeavesOtherJobs(w.accounts, change, w.now, i);
    }
  }

  // Steps that write no row of the database.
  lemma QuietStepKeepsInv(w: World, step: Step)
    requires Inv(w) && Enabled(w, step) && Orderly(w, step)
    requires step.Push? || step.Take? || step.Read? || step.Crash? || step.Scan? || step.StopSweep? || step.Tick?
    ensures Inv(Next(w, step))
  {
    var w' := Next(w, step);
    forall d | d in w'.calls ensures CallOk(w', d) {
      assert d in w.calls ==> CallOk(w, d);
    }
    forall d, e | Busy(w', d) && Busy(w', e) && w'.calls[d].job == w'.calls[e].job ensures d == e {
      assert Busy(w, d) || (step.Read? && step.c == d);
      assert Busy(w, e) || (step.Read? && step.c == e);
    }
    forall j | j in w'.batch ensures Overdue(w'.accounts.store, w'.now, j) {
      assert j in w.batch ==> Overdue(w.accounts.store, w.now, j);
    }
  }

  lemma NextKeepsInv(w: World, step: Step)
    requires Inv(w) && Enabled(w, step) && Orderly(w, step)
    ensures Inv(Next(w, step))
  {
    match step
    case Submit(change) => SubmitKeepsInv(w, change);
    case Refuse(c) =>
      NextKeepsSettled(w, step);
      OwnChangeKeepsInv(w, c, Fail(w.calls[c].job), Over);
    case Execute(c) =>
      NextKeepsSettled(w, step);
      OwnChangeKeepsInv(w, c, Start(w.calls[c].job), Executing);
    case FinishBadly(c) =>
      NextKeepsSettled(w, step);
      OwnChangeKeepsInv(w, c, Fail(w.calls[c].job), Over);
    case FinishWell(c) =>
      NextKeepsSettled(w, step);
      OwnChangeKeepsInv(w, c, Succeed(w.calls[c].job), Over);
    case Sweep => SweepKeepsInv(w);
    case _ => QuietStepKeepsInv(w, step);
  }

  lemma {:induction false} RunFromKeepsInv(w: World, steps: seq<Step>)
    requires Inv(w) && OrderlyFrom(w, steps)
    ensures Inv(RunFrom(w, steps))
    decreases |steps|
  {
    if steps != [] {
      if Enabled(w, steps[0]) {
        NextKeepsInv(w, steps[0]);
        RunFromKeepsInv(Next(w, steps[0]), steps[1..]);
      } else {
        RunFromKeepsInv(w, steps[1..]);
      }
    }
  }

  // --- Main results ---

  // Every step of the run meets the guard: it does not write the status of a failed job.
  ghost predicate GuardedFrom(w: World, steps: seq<Step>)
    decreases |steps|
  {
    steps == [] || (GuardedStep(w, steps[0]) && GuardedFrom(NextOr(w, steps[0]), steps[1..]))
  }

  ghost predicate GuardedStep(w: World, step: Step) {
    Enabled(w, step) && ChangeOf(w, step).Some? ==> Lawful(w.accounts, ChangeOf(w, step).value)
  }

  // At every point of the run each job is failed exactly when its whole charge went back, once, and all balances
  // agree with that.
  ghost predicate SettledThroughout(w: World, steps: seq<Step>)
    decreases |steps|
  {
    Settled(w.accounts) && (steps != [] ==> SettledThroughout(NextOr(w, steps[0]), steps[1..]))
  }

  lemma StepStaysSettledIff(w: World, step: Step)
    requires Settled(w.accounts)
    ensures Settled(NextOr(w, step).accounts) <==> GuardedStep(w, step)
  {
    if Enabled(w, step) && ChangeOf(w, step).Some? {
      CommitStaysSettledIff(w.accounts, ChangeOf(w, step).value, w.now);
    }
  }

  // Any run at all, orderly or not, stays settled throughout if and only if every step meets the guard.
  lemma {:induction false} SettledThroughoutIff(w: World, steps: seq<Step>)
    requires Settled(w.accounts)
    ensures SettledThroughout(w, steps) <==> GuardedFrom(w, steps)
    decreases |steps|
  {
    if steps != [] {
      StepStaysSettledIff(w, steps[0]);
      if GuardedStep(w, steps[0]) {
        SettledThroughoutIff(NextOr(w, steps[0]), steps[1..]);
      }
    }
  }

  // Every job of an orderly run is failed exactly when its whole charge went back to the buckets it came from,
  // and was failed at most once.
  lemma SettledExactlyOnce(steps: seq<Step>, j: JobId)
    requires OrderlyFrom(START, steps) && j in RunFrom(START, steps).accounts.store.jobs
    ensures var a := RunFrom(START, steps).accounts; var job, rows := a.store.jobs[j], a.store.ledger;
            && j in a.failures && a.failures[j] <= 1
            && (job.status == Failed <==> a.failures[j] == 1)
            && Sum(rows, ChargesOf(j, Free)) + Sum(rows, ChargesOf(j, Paid)) == job.charged
            && (job.status == Failed ==> Sum(rows, OfJob(j, Free)) == 0 && Sum(rows, OfJob(j, Paid)) == 0)
            && (job.status != Failed ==> && Sum(rows, OfJob(j, Free)) == -Sum(rows, ChargesOf(j, Free))
                                         && Sum(rows, OfJob(j, Paid)) == -Sum(rows, ChargesOf(j, Paid)))
  {
    var a := RunFrom(START, steps).accounts;
    RunFromKeepsInv(START, steps);
    assert FailedOnce(a, j);
    FailedIffRefunded(a, j);
  }

  // A user's credits are the grant, the top-ups and the adjustments less the charges of the jobs not failed.
  lemma CreditsAccountedFor(steps: seq<Step>, u: UserId)
    requires OrderlyFrom(START, steps) && u in RunFrom(START, steps).accounts.store.users
    ensures var s := RunFrom(START, steps).accounts.store;
            s.users[u].balance.free + s.users[u].balance.paid
              == s.users[u].grant + Sum(s.ledger, FromOutside(u)) - Outstanding(s.jobs, u)
  {
    RunFromKeepsInv(START, steps);
    assert PaysForJobs(RunFrom(START, steps).accounts.store, u);
  }

  // Every status change of an orderly run goes down in rank; terminal jobs never change again.
  lemma StatusesOnlyFall(steps: seq<Step>, step: Step, j: JobId)
    requires OrderlyFrom(START, steps) && Enabled(RunFrom(START, steps), step)
    requires j in RunFrom(START, steps).accounts.store.jobs
    ensures j in Next(RunFrom(START, steps), step).accounts.store.jobs
    ensures var before := RunFrom(START, steps).accounts.store.jobs[j];
            var after := Next(RunFrom(START, steps), step).accounts.store.jobs[j];
            && (after.status != before.status ==> Rank(after.status) < Rank(before.status))
            && (Terminal(before.status) ==> after == before)
  {
    var w := RunFrom(START, steps);
    RunFromKeepsInv(START, steps);
    StatusFalls(w, step, j);
  }

  lemma StatusFalls(w: World, step: Step, j: JobId)
    requires Inv(w) && Enabled(w, step) && j in w.accounts.store.jobs
    ensures j in Next(w, step).accounts.store.jobs
    ensures var before, after := w.accounts.store.jobs[j], Next(w, step).accounts.store.jobs[j];
            && (after.status != before.status ==> Rank(after.status) < Rank(before.status))
            && (Terminal(before.status) ==> after == before)
  {
    StepsSpareTerminal(w, step);
    var change := ChangeOf(w, step);
    if change.Some? {
      if Touches(change.value) == Some(j) {
        CommitMovesJob(w.accounts, change.value, w.now, j);
        if step.Execute? {
          assert CallOk(w, step.c);
        }
      } else {
        CommitLeavesOtherJobs(w.accounts, change.value, w.now, j);
      }
    }
  }

  // A run is orderly if each of its steps is, where the run has come to by then.
  lemma {:induction false} OrderlyByStep(w: World, steps: seq<Step>)
    requires forall n :: 0 <= n < |steps| ==> Orderly(RunFrom(w, steps[..n]), steps[n])
    ensures OrderlyFrom(w, steps)
    decreases |steps|
  {
    if steps != [] {
      var rest := steps[1..];
      assert steps[..0] == [] && Orderly(RunFrom(w, steps[..0]), steps[0]);
      forall n | 0 <= n < |rest| ensures Orderly(RunFrom(NextOr(w, steps[0]), rest[..n]), rest[n]) {
        assert steps[..n + 1][0] == steps[0] && steps[..n + 1][1..] == rest[..n];
        assert Orderly(RunFrom(w, steps[..n + 1]), steps[n + 1]);
      }
      OrderlyByStep(NextOr(w, steps[0]), rest);
    }
  }

  lemma LiveJobsAreSpared(w: World, rows: seq<JobId>, c: CallId)
    requires Inv(w) && ListsOverdue(w.accounts.store, w.now, rows) && Busy(w, c)
    ensures w.calls[c].job !in rows && w.calls[c].job !in w.batch
  {
    assert CallOk(w, c);
    assert forall j :: j in w.batch ==> Overdue(w.accounts.store, w.now, j);
  }

  // Where no job is read as pending while another call works on it, and time never passes a working call's start,
  // timeout and sixty seconds, the janitor never picks a job that a call is still working on.
  lemma JanitorSparesLiveJobs(steps: seq<Step>, rows: seq<JobId>, c: CallId)
    requires forall n, d :: 0 <= n < |steps| && steps[n].Read? && Busy(RunFrom(START, steps[..n]), d) ==>
               var w := RunFrom(START, steps[..n]);
               steps[n].c in w.calls ==> w.calls[d].job != w.calls[steps[n].c].job
    requires forall n, d :: 0 <= n < |steps| && steps[n].Tick? && At(RunFrom(START, steps[..n]), d, Executing) ==>
               var w := RunFrom(START, steps[..n]); var j := w.calls[d].job;
               j in w.accounts.store.jobs ==>
                 w.now + steps[n].seconds <= w.accounts.store.jobs[j].startedAt + w.accounts.store.jobs[j].timeout + 60
    requires var w := RunFrom(START, steps); ListsOverdue(w.accounts.store, w.now, rows) && Busy(w, c)
    ensures RunFrom(START, steps).calls[c].job !in rows
    ensures RunFrom(START, steps).calls[c].job !in RunFrom(START, steps).batch
  {
    forall n | 0 <= n < |steps| ensures Orderly(RunFrom(START, steps[..n]), steps[n]) {
    }
    OrderlyByStep(START, steps);
    RunFromKeepsInv(START, steps);
    LiveJobsAreSpared(RunFrom(START, steps), rows, c);
  }
}
