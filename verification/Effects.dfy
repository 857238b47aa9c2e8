/**
 What one step of an interleaved run does to the committed tables.
 */
module Effects {
  import opened Options
  import opened Ledger
  import opened Billing
  import opened Interleaving
  import opened Safety

  // The next statement of the actor is a COMMIT.
  predicate Commits(actor: Actor) {
    match actor
    case Create(_, _, pc) => pc.CommitCharge?
    case Fail(_, _, step) => step.CommitFailure?
    case TopUp(_, _, _, _, _, pc) => pc.CommitTopUp?
    case Adjust(_, _, _, _, stage) => stage.CommitAdjustment?
  }

  predicate SameTables(s: State, t: State) {
    Left(t, s.db, s.failures)
  }

  lemma CreateCommitsNothing(s: State, a: ActorId, row: Job, now: Time, pc: CreatePc)
    requires !pc.CommitCharge?
    ensures !CreateStep(s, a, row, now, pc).1.Publish?
  {
  }

  lemma FailCommitsNothing(s: State, a: ActorId, j: JobId, now: Time, step: FailPc)
    requires !step.CommitFailure? && j in s.db.jobs && s.db.jobs[j].user in s.db.users && j in s.failures
    ensures !FailStep(s, a, j, now, step).1.Publish?
  {
  }

  lemma TopUpCommitsNothing(s: State, a: ActorId, u: UserId, amount: int, external: string, key: Option<Key>, now: Time,
                            pc: TopUpPc)
    requires !pc.CommitTopUp? && u in s.db.users
    ensures !TopUpStep(s, a, u, amount, external, key, now, pc).1.Publish?
  {
  }

  lemma AdjustCommitsNothing(s: State, a: ActorId, u: UserId, b: Bucket, amount: int, now: Time, stage: AdjustPc)
    requires !stage.CommitAdjustment? && u in s.db.users
    ensures !AdjustStep(s, a, u, b, amount, now, stage).1.Publish?
  {
  }

  lemma OnlyPublishCommits(s: State, a: ActorId, actor: Actor, e: Effect)
    requires !e.Publish?
    ensures SameTables(s, Apply(s, a, actor, e))
  {
  }

  lemma AdvancedCommitsNothing(s: State, a: ActorId)
    requires a in s.actors && !Commits(s.actors[a])
    ensures SameTables(s, Advanced(s, a))
  {
    match s.actors[a]
    case Create(row, now, pc) =>
      var (pc', e) := CreateStep(s, a, row, now, pc);
      CreateCommitsNothing(s, a, row, now, pc);
      OnlyPublishCommits(s, a, Create(row, now, pc'), e);
    case Fail(j, now, step) =>
      if j in s.db.jobs && s.db.jobs[j].user in s.db.users && j in s.failures {
        var (step', e) := FailStep(s, a, j, now, step);
        FailCommitsNothing(s, a, j, now, step);
        OnlyPublishCommits(s, a, Fail(j, now, step'), e);
      }
    case TopUp(u, amount, external, key, now, pc) =>
      if u in s.db.users {
        var (pc', e) := TopUpStep(s, a, u, amount, external, key, now, pc);
        TopUpCommitsNothing(s, a, u, amount, external, key, now, pc);
        OnlyPublishCommits(s, a, TopUp(u, amount, external, key, now, pc'), e);
      }
    case Adjust(u, b, amount, now, stage) =>
      if u in s.db.users {
        var (stage', e) := AdjustStep(s, a, u, b, amount, now, stage);
        AdjustCommitsNothing(s, a, u, b, amount, now, stage);
        OnlyPublishCommits(s, a, Actor.Adjust(u, b, amount, now, stage'), e);
      }
  }

  // Any other statement leaves what is committed alone.
  lemma OthersCommitNothing(s: State, a: ActorId)
    requires a in s.actors && !Commits(s.actors[a])
    ensures SameTables(s, Next(s, Advance(a)))
  {
    AdvancedCommitsNothing(s, a);
  }

  lemma ChargeCommits(s: State, a: ActorId, row: Job, now: Time, pc: CreatePc)
    requires Inv(s) && a in s.actors && s.actors[a] == Create(row, now, pc) && pc.CommitCharge?
    ensures a !in s.db.jobs && row.user in s.db.users
    ensures Next(s, Advance(a)).db == ChargedDb(s, a, row, pc) && Next(s, Advance(a)).failures == s.failures[a := 0]
    ensures Posted(s.db, ChargedDb(s, a, row, pc), row.user, pc.split.Negated(), JobCharge,
                   pc.read.Plus(pc.split.Negated()), Some(a), None, now)
  {
    assert ActorOk(s, a);
    ChargeIsPosted(s, a, row, now, pc, pc.split.Negated(), pc.read.Plus(pc.split.Negated()));
  }

  lemma FailureCommits(s: State, a: ActorId, j: JobId, now: Time, pc: FailPc)
    requires Inv(s) && a in s.actors && s.actors[a] == Fail(j, now, pc) && pc.CommitFailure?
    ensures j in s.db.jobs && s.db.jobs[j].user in s.db.users && j in s.failures
    ensures Next(s, Advance(a)).db == FailedDb(s, j, pc)
    ensures Next(s, Advance(a)).failures == s.failures[j := s.failures[j] + 1]
    ensures FailedDb(s, j, pc).jobs == s.db.jobs[j := s.db.jobs[j].(status := Failed)]
    ensures var u, back := s.db.jobs[j].user, Charges(s.db.ledger, j);
            Posted(s.db, FailedDb(s, j, pc), u, back, Refund, s.db.users[u].balance.Plus(back), Some(j), None, now)
  {
    assert ActorOk(s, a);
    assert JobBalanced(s.db, j, s.failures[j]);
    RefundIsPosted(s, a, j, now, pc);
  }

  lemma TopUpCommits(s: State, a: ActorId, u: UserId, amount: int, external: string, key: Option<Key>, now: Time, pc: TopUpPc)
    requires Inv(s) && a in s.actors && s.actors[a] == TopUp(u, amount, external, key, now, pc) && pc.CommitTopUp?
    ensures u in s.db.users && SameJobs(s, Next(s, Advance(a)))
    ensures var d := Credits(0, amount);
            Posted(s.db, Next(s, Advance(a)).db, u, d, Topup, s.db.users[u].balance.Plus(d), None, Some(external), now)
  {
    assert ActorOk(s, a);
    assert Rows(u, Credits(0, amount), Topup, pc.seen, None, Some(external), now)
        == [Row(u, Credits(0, amount), Paid, Topup, pc.seen, None, Some(external), now)];
  }

  lemma AdjustmentCommits(s: State, a: ActorId, u: UserId, b: Bucket, amount: int, now: Time, stage: AdjustPc)
    requires Inv(s) && a in s.actors && s.actors[a] == Actor.Adjust(u, b, amount, now, stage) && stage.CommitAdjustment?
    ensures u in s.db.users && SameJobs(s, Next(s, Advance(a)))
    ensures var d := InBucket(b, amount);
            Posted(s.db, Next(s, Advance(a)).db, u, d, AdminAdjustment, s.db.users[u].balance.Plus(d), None, None, now)
  {
    assert ActorOk(s, a);
    assert Rows(u, InBucket(b, amount), AdminAdjustment, stage.seen, None, None, now)
        == [Row(u, InBucket(b, amount), b, AdminAdjustment, stage.seen, None, None, now)];
  }

  predicate SameJobs(s: State, t: State) {
    t.db.jobs == s.db.jobs && t.failures == s.failures
  }

  // Rows and failures stay, users stay as they are; a new user may come.
  ghost predicate InsertsNothing(s: State, t: State) {
    && t.db.ledger == s.db.ledger && t.failures == s.failures
    && forall u :: u in s.db.users ==> u in t.db.users && t.db.users[u] == s.db.users[u]
  }

  lemma BeginCommitsNothing(s: State, a: ActorId, actor: Actor)
    ensures SameTables(s, Next(s, Begin(a, actor)))
  {
  }

  lemma AbortCommitsNothing(s: State, a: ActorId)
    ensures SameTables(s, Next(s, Abort(a)))
  {
  }

  lemma ForgetCommitsNothing(s: State, k: Key)
    ensures SameTables(s, Next(s, ForgetKey(k))) && SameTables(s, Next(s, ForgetReceipt(k)))
  {
  }

  ghost predicate IsNew(db: Store, u: UserId, user: User) {
    u !in db.users && !Known(db, user) && user.balance == Credits(user.grant, 0)
  }

  lemma RegisterCommits(s: State, u: UserId, user: User)
    ensures var t := Next(s, Register(u, user));
            if IsNew(s.db, u, user) then Left(t, s.db.(users := s.db.users[u := user]), s.failures) else SameTables(s, t)
  {
  }

  lemma MarkRunningCommits(s: State, j: JobId, now: Time)
    ensures var t := Next(s, MarkRunning(j, now));
            if j in s.db.jobs && j !in s.jobLocks then Left(t, StartJob(s.db, j, now), s.failures) else SameTables(s, t)
  {
  }

  lemma MarkSucceededCommits(s: State, j: JobId)
    ensures var t := Next(s, MarkSucceeded(j));
            if j in s.db.jobs && j !in s.jobLocks then Left(t, SetStatus(s.db, j, Succeeded), s.failures) else SameTables(s, t)
  {
  }

  lemma OtherStepsInsertNothing(s: State, step: Step)
    requires !step.Advance?
    ensures InsertsNothing(s, Next(s, step))
  {
    OtherStepCommits(s, step);
  }

  // What the steps that advance no transaction do to the committed tables
  lemma OtherStepCommits(s: State, step: Step)
    requires !step.Advance?
    ensures var t := Next(s, step);
            match step
            case Register(u, user) =>
              if IsNew(s.db, u, user) then Left(t, s.db.(users := s.db.users[u := user]), s.failures) else SameTables(s, t)
            case MarkRunning(j, now) =>
              if j in s.db.jobs && j !in s.jobLocks then Left(t, StartJob(s.db, j, now), s.failures) else SameTables(s, t)
            case MarkSucceeded(j) =>
              if j in s.db.jobs && j !in s.jobLocks then Left(t, SetStatus(s.db, j, Succeeded), s.failures) else SameTables(s, t)
            case _ => SameTables(s, t)
  {
    match step
    case Register(u, user) => RegisterCommits(s, u, user);
    case Begin(a, actor) => BeginCommitsNothing(s, a, actor);
    case Abort(a) => AbortCommitsNothing(s, a);
    case MarkRunning(j, now) => MarkRunningCommits(s, j, now);
    case MarkSucceeded(j) => MarkSucceededCommits(s, j);
    case ForgetKey(k) => ForgetCommitsNothing(s, k);
    case ForgetReceipt(k) => ForgetCommitsNothing(s, k);
  }

  // Rows, users and grants only come, they never go.
  lemma StepOnlyAdds(s: State, step: Step)
    requires Inv(s)
    ensures s.db.ledger <= Next(s, step).db.ledger
    ensures forall u :: u in s.db.users ==> u in Next(s, step).db.users && Next(s, step).db.users[u].grant == s.db.users[u].grant
  {
    if !step.Advance? {
      OtherStepsInsertNothing(s, step);
    } else if step.a in s.actors {
      if !Commits(s.actors[step.a]) {
        OthersCommitNothing(s, step.a);
      } else {
        match s.actors[step.a]
        case Create(row, now, pc) => ChargeCommits(s, step.a, row, now, pc);
        case Fail(j, now, pc) => FailureCommits(s, step.a, j, now, pc);
        case TopUp(u, amount, external, key, now, pc) => TopUpCommits(s, step.a, u, amount, external, key, now, pc);
        case Adjust(u, b, amount, now, stage) => AdjustmentCommits(s, step.a, u, b, amount, now, stage);
      }
    }
  }

  // --- What a step does to one job ---

  // The step writes the status of job j.
  predicate WritesStatus(s: State, step: Step, j: JobId) {
    match step
    case MarkRunning(i, _) => i == j && j !in s.jobLocks
    case MarkSucceeded(i) => i == j && j !in s.jobLocks
    case Advance(a) => a in s.actors && s.actors[a].Fail? && s.actors[a].step.CommitFailure? && s.actors[a].job == j
    case _ => false
  }

  function NewStatus(step: Step): Status {
    match step
    case MarkRunning(_, _) => Running
    case MarkSucceeded(_) => Succeeded
    case _ => Failed
  }

  // From s to t the job gets this status and this many failures, and stays as it is otherwise.
  predicate JobBecomes(s: State, t: State, j: JobId, status: Status, k: int) {
    && j in s.db.jobs && j in t.db.jobs && j in s.failures && j in t.failures
    && t.db.jobs[j].charged == s.db.jobs[j].charged && t.db.jobs[j].status == status && t.failures[j] == k
  }

  lemma AdvanceOnJob(s: State, a: ActorId, j: JobId)
    requires Inv(s) && a in s.actors && j in s.db.jobs
    ensures j in s.failures
    ensures JobBecomes(s, Next(s, Advance(a)), j,
                       if WritesStatus(s, Advance(a), j) then Failed else s.db.jobs[j].status,
                       s.failures[j] + if WritesStatus(s, Advance(a), j) then 1 else 0)
  {
    assert j in s.failures;
    if !Commits(s.actors[a]) {
      OthersCommitNothing(s, a);
    } else {
      match s.actors[a]
      case Create(row, now, pc) => ChargeCommits(s, a, row, now, pc);
      case Fail(i, now, step) => FailureCommits(s, a, i, now, step);
      case TopUp(u, amount, external, key, now, pc) => TopUpCommits(s, a, u, amount, external, key, now, pc);
      case Adjust(u, b, amount, now, stage) => AdjustmentCommits(s, a, u, b, amount, now, stage);
    }
  }

  lemma StepOnJob(s: State, step: Step, j: JobId)
    requires Inv(s) && j in s.db.jobs
    ensures j in s.failures
    ensures JobBecomes(s, Next(s, step), j,
                       if WritesStatus(s, step, j) then NewStatus(step) else s.db.jobs[j].status,
                       s.failures[j] + if WritesStatus(s, step, j) && NewStatus(step) == Failed then 1 else 0)
  {
    assert j in s.failures;
    if !step.Advance? {
      OtherStepsOnJob(s, step, j);
    } else if step.a in s.actors {
      AdvanceOnJob(s, step.a, j);
    }
  }

  lemma OtherStepsOnJob(s: State, step: Step, j: JobId)
    requires !step.Advance? && j in s.db.jobs && j in s.failures
    ensures JobBecomes(s, Next(s, step), j, if WritesStatus(s, step, j) then NewStatus(step) else s.db.jobs[j].status,
                       s.failures[j])
    ensures WritesStatus(s, step, j) ==> NewStatus(step) != Failed
  {
    OtherStepCommits(s, step);
  }
}
