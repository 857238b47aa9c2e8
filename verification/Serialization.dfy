/**
 Which interleaved runs are serial in effect: exactly those whose charges all commit before the balance they were
 split over has moved. And settled accounts in interleaved runs, serial in effect or not.
 */
module Serialization {
  import opened Options
  import opened Ledger
  import opened Billing
  import opened Interleaving
  import opened Safety
  import opened Effects
  import opened Exactness
  import Alone
  import Guarantees
  import Serial
  import Settlement

  ghost function Committed(s: State): Serial.Accounts {
    Serial.Accounts(s.db, s.failures)
  }

  // The transaction, or the autocommitted statement, that a step commits, with the time its rows are stamped with.
  ghost function CommitOf(s: State, step: Step): Option<(Serial.Change, Time)> {
    match step
    case Register(u, user) => if IsNew(s.db, u, user) then Some((Serial.Change.Register(u, user), 0)) else None
    case Advance(a) => if a in s.actors && Commits(s.actors[a]) then Some(ChangeOf(a, s.actors[a])) else None
    case MarkRunning(j, now) => if j in s.db.jobs && j !in s.jobLocks then Some((Serial.Change.Start(j), now)) else None
    case MarkSucceeded(j) => if j in s.db.jobs && j !in s.jobLocks then Some((Serial.Change.Succeed(j), 0)) else None
    case _ => None
  }

  function ChangeOf(a: ActorId, actor: Actor): (Serial.Change, Time) {
    match actor
    case Create(row, now, _) => (Serial.Change.Create(a, row), now)
    case Fail(j, now, _) => (Serial.Change.Fail(j), now)
    case TopUp(u, amount, external, _, now, _) => (Serial.Change.Credit(u, amount, external), now)
    case Adjust(u, b, amount, now, _) => (Serial.Change.Correct(u, b, amount), now)
  }

  // What is committed after the change that the step commits, made by itself.
  ghost function Alike(s: State, step: Step): Serial.Accounts {
    match CommitOf(s, step)
    case None => Committed(s)
    case Some(c) => Serial.Apply(Committed(s), c.0, c.1)
  }

  // A balance has moved under the split of a charge: in a bucket the charge takes from, or in the free one, which a
  // charge of paid credits had used up.
  predicate Moved(read: Credits, balance: Credits, split: Credits) {
    (split.free != 0 && read.free != balance.free) || (split.paid != 0 && read != balance)
  }

  // The COMMIT of a charge whose balance has moved.
  ghost predicate Outdated(s: State, step: Step) {
    && step.Advance? && step.a in s.actors && s.actors[step.a].Create? && s.actors[step.a].at.CommitCharge?
    && s.actors[step.a].row.user in s.db.users
    && Moved(s.actors[step.a].at.read, s.db.users[s.actors[step.a].row.user].balance, s.actors[step.a].at.split)
  }

  // Two ledgers that no later row can make equal.
  ghost predicate Diverged(x: Serial.Accounts, y: Serial.Accounts) {
    exists i :: 0 <= i < |x.store.ledger| && i < |y.store.ledger| && x.store.ledger[i] != y.store.ledger[i]
  }

  // --- Charges ---

  lemma NothingToSplit(balance: Credits, cost: int)
    requires balance.NonNegative() && cost == 0
    ensures CalculateCreditSplit(balance, cost) == Ok(Credits(0, 0))
  {
  }

  lemma SplitOfNothing(read: Credits, cost: nat, split: Credits)
    requires read.NonNegative() && CalculateCreditSplit(read, cost) == Ok(split)
    ensures split == Credits(0, 0) <==> cost == 0
  {
    if cost == 0 {
      NothingToSplit(read, cost);
    }
  }

  // A balance that has not moved is split the same way.
  lemma SplitStands(read: Credits, balance: Credits, cost: nat, split: Credits)
    requires read.NonNegative() && balance.NonNegative() && CalculateCreditSplit(read, cost) == Ok(split)
    requires balance.Plus(split.Negated()).NonNegative() && !Moved(read, balance, split)
    ensures CalculateCreditSplit(balance, cost) == Ok(split)
  {
    SplitOfNothing(read, cost, split);
    if cost == 0 {
      NothingToSplit(balance, cost);
    } else if split.paid == 0 {
      FreeSplitStands(read, balance, cost, split);
    }
  }

  lemma FreeSplitStands(read: Credits, balance: Credits, cost: nat, split: Credits)
    requires read.NonNegative() && balance.NonNegative() && CalculateCreditSplit(read, cost) == Ok(split)
    requires split.paid == 0 && split.free != 0 && read.free == balance.free && balance.paid >= 0
    ensures CalculateCreditSplit(balance, cost) == Ok(split)
  {
    assert split.free == cost;
    var again := CalculateCreditSplit(balance, cost);
    assert again.Ok? && again.value.free == split.free && again.value.paid == split.paid;
  }

  // One that has moved still pays for the job, but splits it otherwise or is no longer the one its rows show.
  lemma SplitFalls(read: Credits, balance: Credits, cost: nat, split: Credits)
    requires read.NonNegative() && balance.NonNegative() && CalculateCreditSplit(read, cost) == Ok(split)
    requires balance.Plus(split.Negated()).NonNegative() && Moved(read, balance, split)
    ensures CalculateCreditSplit(balance, cost).Ok?
    ensures CalculateCreditSplit(balance, cost).value.free != split.free
            || (split.free != 0 && read.free != balance.free) || (split.paid != 0 && read.paid != balance.paid)
  {
  }

  predicate Differ(x: seq<Txn>, y: seq<Txn>) {
    (|x| > 0 && |y| > 0 && x[0] != y[0]) || (|x| > 1 && |y| > 1 && x[1] != y[1])
  }

  lemma RowsStand(u: UserId, read: Credits, balance: Credits, split: Credits, j: JobId, now: Time)
    requires split.NonNegative() && (split.free != 0 ==> read.free == balance.free) && (split.paid != 0 ==> read.paid == balance.paid)
    ensures Alone.Charged(u, split, read, j, now) == Alone.Charged(u, split, balance, j, now)
  {
    var d, x, y := split.Negated(), read.Plus(split.Negated()), balance.Plus(split.Negated());
    if split.free != 0 {
      assert Row(u, d, Free, JobCharge, x, Some(j), None, now) == Row(u, d, Free, JobCharge, y, Some(j), None, now);
    }
    if split.paid != 0 {
      assert Row(u, d, Paid, JobCharge, x, Some(j), None, now) == Row(u, d, Paid, JobCharge, y, Some(j), None, now);
    }
  }

  lemma RowsFall(u: UserId, read: Credits, balance: Credits, split: Credits, again: Credits, j: JobId, now: Time)
    requires split.NonNegative() && again.NonNegative() && split.Total() == again.Total()
    requires again.free != split.free || (split.free != 0 && read.free != balance.free) || (split.paid != 0 && read.paid != balance.paid)
    ensures Differ(Alone.Charged(u, split, read, j, now), Alone.Charged(u, again, balance, j, now))
  {
    var x, y := Alone.Charged(u, split, read, j, now), Alone.Charged(u, again, balance, j, now);
    if split.free == 0 || again.free == 0 || split.free != again.free || read.free != balance.free {
      assert |x| > 0 && |y| > 0 ==> x[0] != y[0] || (split.free == again.free == 0);
    } else {
      assert |x| > 1 && |y| > 1 && x[1] != y[1];
    }
  }

  lemma SplitIsNonNegative(read: Credits, cost: nat, split: Credits)
    requires read.NonNegative() && CalculateCreditSplit(read, cost) == Ok(split)
    ensures split.NonNegative()
  {
  }

  // What the commit of a charge finds: its key free, its user there, and a balance that pays for its split.
  lemma ChargeIsPossible(s: State, a: ActorId, row: Job, now: Time, pc: CreatePc)
    requires Inv(s) && a in s.actors && s.actors[a] == Create(row, now, pc) && pc.CommitCharge?
    ensures a !in s.db.jobs && row.status == Pending && !KeyTaken(s.db, row) && row.user in s.db.users
    ensures pc.read.NonNegative() && CalculateCreditSplit(pc.read, row.charged) == Ok(pc.split) && pc.split.NonNegative()
    ensures s.db.users[row.user].balance.NonNegative() && s.db.users[row.user].balance.Plus(pc.split.Negated()).NonNegative()
  {
    assert ActorOk(s, a);
    assert KeyHeld(s, a, row) && Charging(s, a, row, pc.read, pc.split, pc.after);
    SplitIsNonNegative(pc.read, row.charged, pc.split);
    InvIsSound(s, row.user);
  }

  lemma SameStart(x: Serial.Accounts, y: Serial.Accounts, ledger: seq<Txn>, r: seq<Txn>, r': seq<Txn>)
    requires x.store.ledger == ledger + r && y.store.ledger == ledger + r' && Differ(r, r')
    ensures Diverged(x, y)
  {
    var k := if r[0] != r'[0] then 0 else 1;
    assert x.store.ledger[|ledger| + k] == r[k] && y.store.ledger[|ledger| + k] == r'[k];
  }

  // What create_job alone leaves where the commit of a charge finds the tables, for one split or another
  lemma ChargeAlike(s: State, a: ActorId, row: Job, now: Time, pc: CreatePc, split: Credits)
    requires Inv(s) && a in s.actors && s.actors[a] == Create(row, now, pc) && pc.CommitCharge?
    requires row.user in s.db.users && CalculateCreditSplit(s.db.users[row.user].balance, row.charged) == Ok(split)
    ensures split.NonNegative() && split.Total() == row.charged
    ensures var balance := s.db.users[row.user].balance;
            Alike(s, Advance(a)) == Serial.Accounts(Post(s.db.(jobs := s.db.jobs[a := row]), row.user, balance.Plus(split.Negated()),
                                                         Alone.Charged(row.user, split, balance, a, now)), s.failures[a := 0])
  {
    ChargeIsPossible(s, a, row, now, pc);
    SplitIsNonNegative(s.db.users[row.user].balance, row.charged, split);
    CreateJobIs(s.db, a, row, now, split);
  }

  lemma ChargeCommitted(s: State, a: ActorId, row: Job, now: Time, pc: CreatePc)
    requires Inv(s) && a in s.actors && s.actors[a] == Create(row, now, pc) && pc.CommitCharge?
    ensures row.user in s.db.users
    ensures Committed(Next(s, Advance(a)))
         == Serial.Accounts(Post(s.db.(jobs := s.db.jobs[a := row]), row.user, s.db.users[row.user].balance.Plus(pc.split.Negated()),
                                 Alone.Charged(row.user, pc.split, pc.read, a, now)), s.failures[a := 0])
  {
    ChargeCommits(s, a, row, now, pc);
    assert ActorOk(s, a);
  }

  // The commit of a charge leaves what create_job alone would leave, unless it is outdated: then never again.
  lemma ChargeIsSerialIff(s: State, a: ActorId, row: Job, now: Time, pc: CreatePc)
    requires Inv(s) && a in s.actors && s.actors[a] == Create(row, now, pc) && pc.CommitCharge?
    ensures if Outdated(s, Advance(a)) then Diverged(Committed(Next(s, Advance(a))), Alike(s, Advance(a)))
            else Committed(Next(s, Advance(a))) == Alike(s, Advance(a))
  {
    ChargeCommitted(s, a, row, now, pc);
    ChargeIsPossible(s, a, row, now, pc);
    var u, balance := row.user, s.db.users[row.user].balance;
    if Moved(pc.read, balance, pc.split) {
      SplitFalls(pc.read, balance, row.charged, pc.split);
      var again := CalculateCreditSplit(balance, row.charged).value;
      ChargeAlike(s, a, row, now, pc, again);
      RowsFall(u, pc.read, balance, pc.split, again, a, now);
      SameStart(Committed(Next(s, Advance(a))), Alike(s, Advance(a)), s.db.ledger,
                Alone.Charged(u, pc.split, pc.read, a, now), Alone.Charged(u, again, balance, a, now));
    } else {
      SplitStands(pc.read, balance, row.charged, pc.split);
      ChargeAlike(s, a, row, now, pc, pc.split);
      RowsStand(u, pc.read, balance, pc.split, a, now);
    }
  }

  // --- The other commits ---

  // Posting the same rows to the same tables leaves the same users and the same ledger.
  lemma SamePost(s: Store, x: Store, y: Store, u: UserId, d: Credits, reason: Reason, shown: Credits,
                 job: Option<JobId>, external: Option<string>, now: Time)
    requires Posted(s, x, u, d, reason, shown, job, external, now) && Posted(s, y, u, d, reason, shown, job, external, now)
    requires x.jobs == y.jobs
    ensures x == y
  {
  }

  lemma FailureIsSerial(s: State, a: ActorId, j: JobId, now: Time, pc: FailPc)
    requires Inv(s) && a in s.actors && s.actors[a] == Fail(j, now, pc) && pc.CommitFailure?
    ensures Committed(Next(s, Advance(a))) == Alike(s, Advance(a))
  {
    FailureCommits(s, a, j, now, pc);
    Serial.FailIsPosted(s.db, s.failures, j, now);
    var u, back := s.db.jobs[j].user, Charges(s.db.ledger, j);
    SamePost(s.db, FailedDb(s, j, pc), FailJob(s.db, j, now), u, back, Refund, s.db.users[u].balance.Plus(back), Some(j), None, now);
  }

  lemma TopUpIsSerial(s: State, a: ActorId, u: UserId, amount: int, external: string, key: Option<Key>, now: Time, pc: TopUpPc)
    requires Inv(s) && a in s.actors && s.actors[a] == TopUp(u, amount, external, key, now, pc) && pc.CommitTopUp?
    ensures Committed(Next(s, Advance(a))) == Alike(s, Advance(a))
  {
    assert ActorOk(s, a);
    TopUpCommits(s, a, u, amount, external, key, now, pc);
    var d := Credits(0, amount);
    var shown := s.db.users[u].balance.Plus(d);
    SamePost(s.db, Next(s, Advance(a)).db, Billing.TopUp(s.db, u, amount, external, now).value, u, d, Topup, shown, None, Some(external), now);
  }

  lemma AdjustmentIsSerial(s: State, a: ActorId, u: UserId, b: Bucket, amount: int, now: Time, stage: AdjustPc)
    requires Inv(s) && a in s.actors && s.actors[a] == Actor.Adjust(u, b, amount, now, stage) && stage.CommitAdjustment?
    ensures Committed(Next(s, Advance(a))) == Alike(s, Advance(a))
  {
    assert ActorOk(s, a);
    AdjustmentCommits(s, a, u, b, amount, now, stage);
    var d := InBucket(b, amount);
    var shown := s.db.users[u].balance.Plus(d);
    SamePost(s.db, Next(s, Advance(a)).db, Billing.Adjust(s.db, u, b, amount, now).value, u, d, AdminAdjustment, shown, None, None, now);
  }

  lemma OtherStepIsSerial(s: State, step: Step)
    requires !step.Advance?
    ensures Committed(Next(s, step)) == Alike(s, step)
  {
    OtherStepCommits(s, step);
  }

  // A step leaves what the change it commits leaves by itself if and only if it does not commit an outdated charge.
  lemma StepIsSerialIff(s: State, step: Step)
    requires Inv(s)
    ensures if Outdated(s, step) then Diverged(Committed(Next(s, step)), Alike(s, step)) else Committed(Next(s, step)) == Alike(s, step)
  {
    if !step.Advance? {
      OtherStepIsSerial(s, step);
    } else if step.a in s.actors {
      if !Commits(s.actors[step.a]) {
        OthersCommitNothing(s, step.a);
      } else {
        match s.actors[step.a]
        case Create(row, now, pc) => ChargeIsSerialIff(s, step.a, row, now, pc);
        case Fail(j, now, pc) => FailureIsSerial(s, step.a, j, now, pc);
        case TopUp(u, amount, external, key, now, pc) => TopUpIsSerial(s, step.a, u, amount, external, key, now, pc);
        case Adjust(u, b, amount, now, stage) => AdjustmentIsSerial(s, step.a, u, b, amount, now, stage);
      }
    }
  }

  // --- Runs ---

  // The changes that a run commits, in the order of their commits
  ghost function CommitsOf(steps: seq<Step>): seq<(Serial.Change, Time)>
    decreases |steps|
  {
    if steps == [] then []
    else
      var front := steps[..|steps| - 1];
      CommitsOf(front) + match CommitOf(Run(front), steps[|steps| - 1]) case None => [] case Some(c) => [c]
  }

  ghost predicate SomeOutdated(steps: seq<Step>) {
    exists n :: 0 <= n < |steps| && Outdated(Run(steps[..n]), steps[n])
  }

  lemma RunEnds(steps: seq<Step>)
    requires steps != []
    ensures var front, last := steps[..|steps| - 1], steps[|steps| - 1];
            && Run(steps) == Next(Run(front), last)
            && (SomeOutdated(steps) <==> SomeOutdated(front) || Outdated(Run(front), last))
  {
    var front, last := steps[..|steps| - 1], steps[|steps| - 1];
    Alone.RunStep(steps, |front|);
    assert steps[..|front| + 1] == steps;
    forall n | 0 <= n < |front| ensures front[..n] == steps[..n] {
    }
    if n :| 0 <= n < |front| && Outdated(Run(front[..n]), front[n]) {
      assert Outdated(Run(steps[..n]), steps[n]);
    }
  }

  lemma AfterEnds(steps: seq<Step>)
    requires steps != []
    ensures var front, last := steps[..|steps| - 1], steps[|steps| - 1];
            Serial.After(CommitsOf(steps)) == match CommitOf(Run(front), last)
                                              case None => Serial.After(CommitsOf(front))
                                              case Some(c) => Serial.Apply(Serial.After(CommitsOf(front)), c.0, c.1)
  {
    var front, last := steps[..|steps| - 1], steps[|steps| - 1];
    match CommitOf(Run(front), last)
    case None => assert CommitsOf(steps) == CommitsOf(front);
    case Some(c) =>
      var all := CommitsOf(front) + [c];
      assert all[..|all| - 1] == CommitsOf(front);
  }

  lemma ChangeOnlyAppends(a: Serial.Accounts, c: Serial.Change, now: Time)
    ensures a.store.ledger <= Serial.Apply(a, c, now).store.ledger
  {
  }

  lemma StaysDiverged(x: Serial.Accounts, y: Serial.Accounts, x': Serial.Accounts, y': Serial.Accounts)
    requires Diverged(x, y) && x.store.ledger <= x'.store.ledger && y.store.ledger <= y'.store.ledger
    ensures Diverged(x', y')
  {
    var i :| 0 <= i < |x.store.ledger| && i < |y.store.ledger| && x.store.ledger[i] != y.store.ledger[i];
    assert x'.store.ledger[i] == x.store.ledger[i] && y'.store.ledger[i] == y.store.ledger[i];
  }

  lemma {:induction false} SerialOrDiverged(steps: seq<Step>)
    ensures if SomeOutdated(steps) then Diverged(Committed(Run(steps)), Serial.After(CommitsOf(steps)))
            else Committed(Run(steps)) == Serial.After(CommitsOf(steps))
    decreases |steps|
  {
    if steps != [] {
      var front, last := steps[..|steps| - 1], steps[|steps| - 1];
      SerialOrDiverged(front);
      RunEnds(steps);
      AfterEnds(steps);
      RunKeepsInv(front);
      var s, y, y' := Run(front), Serial.After(CommitsOf(front)), Serial.After(CommitsOf(steps));
      if SomeOutdated(front) {
        StepOnlyAdds(s, last);
        match CommitOf(s, last) {
          case None =>
          case Some(c) => ChangeOnlyAppends(y, c.0, c.1);
        }
        StaysDiverged(Committed(s), y, Committed(Next(s, last)), y');
      } else {
        StepIsSerialIff(s, last);
      }
    }
  }

  // An interleaved run leaves the users, jobs, failures and ledger that its transactions leave one after the other, in
  // the order of their commits, if and only if none of its charges was outdated when it committed.
  lemma SerializableIff(steps: seq<Step>)
    ensures Committed(Run(steps)) == Serial.After(CommitsOf(steps)) <==> !SomeOutdated(steps)
  {
    SerialOrDiverged(steps);
  }

  // The two things that go wrong with an outdated charge: a row of it does not show the balance it leaves, or it
  // spends paid credits while there are free ones.
  lemma OutdatedIff(steps: seq<Step>, a: ActorId)
    requires var s := Run(steps); a in s.actors && s.actors[a].Create? && s.actors[a].at.CommitCharge?
    ensures var s, t := Run(steps), Next(Run(steps), Advance(a)); var u, pc := s.actors[a].row.user, s.actors[a].at;
            && u in t.db.users
            && (Outdated(s, Advance(a)) <==> Stale(s, Advance(a)) || (pc.split.paid > 0 && t.db.users[u].balance.free > 0))
  {
    var s := Run(steps);
    RunKeepsInv(steps);
    Guarantees.PaidBeforeFreeIff(steps, a);
    ChargeIsPossible(s, a, s.actors[a].row, s.actors[a].now, s.actors[a].at);
    MovedIff(s.actors[a].at.read, s.db.users[s.actors[a].row.user].balance, s.actors[a].at.split);
  }

  lemma MovedIff(read: Credits, balance: Credits, split: Credits)
    requires split.NonNegative()
    ensures Moved(read, balance, split) <==>
            || (split.paid > 0 && read.free != balance.free)
            || exists b: Bucket :: split.At(b) != 0 && read.At(b) != balance.At(b)
  {
    assert split.At(Free) == split.free && read.At(Free) == read.free && balance.At(Free) == balance.free;
    assert split.At(Paid) == split.paid && read.At(Paid) == read.paid && balance.At(Paid) == balance.paid;
  }

  // --- Settled accounts ---

  // The step writes the status of a job that is failed.
  ghost predicate RewritesFailed(s: State, step: Step) {
    exists j :: j in s.db.jobs && WritesStatus(s, step, j) && s.db.jobs[j].status == Failed
  }

  lemma WritesAlike(s: State, step: Step, j: JobId)
    requires j in s.db.jobs
    ensures WritesStatus(s, step, j) <==> CommitOf(s, step).Some? && Settlement.Writes(CommitOf(s, step).value.0) == Some(j)
  {
  }

  lemma CommitIsPossible(s: State, step: Step)
    requires Inv(s) && CommitOf(s, step).Some?
    ensures Serial.Possible(Committed(s), CommitOf(s, step).value.0)
  {
    if step.Advance? {
      assert ActorOk(s, step.a);
      match s.actors[step.a]
      case Create(row, now, pc) => ChargeIsPossible(s, step.a, row, now, pc);
      case Fail(j, now, pc) => FailureCommits(s, step.a, j, now, pc);
      case _ =>
    }
  }

  lemma RewritesIff(s: State, step: Step)
    requires Inv(s)
    ensures CommitOf(s, step).None? ==> !RewritesFailed(s, step)
    ensures CommitOf(s, step).Some? ==>
              && Serial.Possible(Committed(s), CommitOf(s, step).value.0)
              && (Settlement.Lawful(Committed(s), CommitOf(s, step).value.0) <==> !RewritesFailed(s, step))
  {
    forall j | j in s.db.jobs
      ensures WritesStatus(s, step, j) <==> CommitOf(s, step).Some? && Settlement.Writes(CommitOf(s, step).value.0) == Some(j)
    {
      WritesAlike(s, step, j);
    }
    if CommitOf(s, step).Some? {
      CommitIsPossible(s, step);
    }
  }

  // Outdated or not, a charge leaves settled accounts.
  lemma ChargeStaysSettled(s: State, a: ActorId, row: Job, now: Time, pc: CreatePc)
    requires Inv(s) && a in s.actors && s.actors[a] == Create(row, now, pc) && pc.CommitCharge?
    requires Settlement.Settled(Committed(s))
    ensures Settlement.Settled(Committed(Next(s, Advance(a))))
  {
    var t := Next(s, Advance(a));
    NextKeepsInv(s, Advance(a));
    ChargeCommits(s, a, row, now, pc);
    ChargeIsPossible(s, a, row, now, pc);
    forall j | j in t.db.jobs ensures Settlement.FailedOnce(Committed(t), j) {
      assert j in s.db.jobs ==> Settlement.FailedOnce(Committed(s), j);
    }
    forall v | v in t.db.users ensures Settlement.PaysForJobs(t.db, v) {
      assert Settlement.PaysForJobs(s.db, v);
      Settlement.OutstandingAfter(s.db.jobs, a, row, v);
      Settlement.PostPays(s.db, t.db, row.user, pc.split.Negated(), JobCharge, pc.read.Plus(pc.split.Negated()), Some(a), None, now, v);
    }
  }

  lemma StepStaysSettledIff(s: State, step: Step)
    requires Inv(s) && Settlement.Settled(Committed(s))
    ensures Settlement.Settled(Committed(Next(s, step))) <==> !RewritesFailed(s, step)
  {
    StepIsSerialIff(s, step);
    RewritesIff(s, step);
    if Outdated(s, step) {
      ChargeStaysSettled(s, step.a, s.actors[step.a].row, s.actors[step.a].now, s.actors[step.a].at);
    } else if CommitOf(s, step).Some? {
      Settlement.CommitStaysSettledIff(Committed(s), CommitOf(s, step).value.0, CommitOf(s, step).value.1);
    }
  }

  ghost predicate SettledAfter(steps: seq<Step>, n: nat)
    requires n <= |steps|
  {
    Settlement.Settled(Committed(Run(steps[..n])))
  }

  lemma {:induction false} StaysSettledUpTo(steps: seq<Step>, n: nat)
    requires n <= |steps| && forall m :: 0 <= m < n ==> !RewritesFailed(Run(steps[..m]), steps[m])
    ensures SettledAfter(steps, n)
  {
    if n == 0 {
      assert Run(steps[..0]) == EMPTY;
    } else {
      StaysSettledUpTo(steps, n - 1);
      RunKeepsInv(steps[..n - 1]);
      Alone.RunStep(steps, n - 1);
      StepStaysSettledIff(Run(steps[..n - 1]), steps[n - 1]);
    }
  }

  // In every interleaved run, serial in effect or not, the accounts are settled at every point if and only if no step
  // writes the status of a job that is failed: each job then keeps its charge or gave it back once, and the credits of
  // a user are what came in less the charges of the jobs that did not fail.
  lemma RunsStaySettledIff(steps: seq<Step>)
    ensures (forall n :: 0 <= n <= |steps| ==> SettledAfter(steps, n))
       <==> forall m :: 0 <= m < |steps| ==> !RewritesFailed(Run(steps[..m]), steps[m])
  {
    forall n | 0 <= n <= |steps| && forall m :: 0 <= m < |steps| ==> !RewritesFailed(Run(steps[..m]), steps[m])
      ensures SettledAfter(steps, n)
    {
      StaysSettledUpTo(steps, n);
    }
    if forall n :: 0 <= n <= |steps| ==> SettledAfter(steps, n) {
      forall m | 0 <= m < |steps| ensures !RewritesFailed(Run(steps[..m]), steps[m]) {
        assert SettledAfter(steps, m) && SettledAfter(steps, m + 1);
        RunKeepsInv(steps[..m]);
        Alone.RunStep(steps, m);
        StepStaysSettledIff(Run(steps[..m]), steps[m]);
      }
    }
  }
}
