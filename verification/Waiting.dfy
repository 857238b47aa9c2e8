/**
 Transactions wait for each other's users rows, jobs rows and uncommitted keys, but never in a circle.
 */
module Waiting {
  import opened Options
  import opened Ledger
  import opened Billing
  import opened Interleaving
  import opened Safety

  // The refund has updated the users row. A job without charges is marked failed without one.
  predicate RefundIsOn(step: FailPc) {
    || step.ReadBack? || step.InsertFreeRefund? || step.InsertPaidRefund?
    || ((step.MarkFailed? || step.CommitFailure?) && step.written.Some?)
  }

  // The actor's transaction has updated its users row.
  predicate HoldsRow(actor: Actor) {
    match actor
    case Create(_, _, pc) => pc.InsertFreeCharge? || pc.InsertPaidCharge? || pc.CommitCharge?
    case Fail(_, _, step) => RefundIsOn(step)
    case TopUp(_, _, _, _, _, pc) => pc.ReadCredited? || pc.InsertTopUp? || pc.CommitTopUp?
    case Adjust(_, _, _, _, stage) => !stage.UpdateUser? && !stage.AdjustDone?
  }

  // It has inserted its job.
  predicate HoldsKey(actor: Actor) {
    actor.Create? && InTransaction(actor.at)
  }

  // It has updated its jobs row.
  predicate HoldsJob(actor: Actor) {
    actor.Fail? && actor.step.CommitFailure?
  }

  predicate HolderOf(s: State, a: ActorId, j: JobId) {
    a in s.actors && HoldsJob(s.actors[a]) && s.actors[a].job == j
  }

  // Rows and keys are held only by transactions past the statement that takes them.
  ghost predicate HoldersKnown(s: State) {
    && (forall j :: j in s.jobLocks ==> HolderOf(s, s.jobLocks[j], j))
    && (forall u :: u in s.locks ==> s.locks[u] in s.actors && HoldsRow(s.actors[s.locks[u]]))
    && (forall k :: k in s.inserting ==> s.inserting[k] in s.actors && HoldsKey(s.actors[s.inserting[k]]))
  }

  // A statement takes what it needs and keeps what it has, until the transaction ends.
  predicate Keeps(actor: Actor, actor': Actor, e: Effect) {
    match e
    case RollBack => true
    case Publish(_, _) => true
    case _ =>
      && (HoldsRow(actor) || e.LockUser? ==> HoldsRow(actor'))
      && (HoldsKey(actor) || e.ReserveKey? ==> HoldsKey(actor'))
      && !HoldsJob(actor)
      && (e.LockJob? ==> HoldsJob(actor') && actor'.job == e.j)
  }

  lemma ApplyKeepsHolders(s: State, a: ActorId, actor': Actor, e: Effect)
    requires HoldersKnown(s) && a in s.actors && Keeps(s.actors[a], actor', e)
    ensures HoldersKnown(Apply(s, a, actor', e))
  {
  }

  lemma CreateKeeps(s: State, a: ActorId, row: Job, now: Time, pc: CreatePc)
    ensures var (pc', e) := CreateStep(s, a, row, now, pc); Keeps(Create(row, now, pc), Create(row, now, pc'), e)
  {
  }

  lemma FailKeeps(s: State, a: ActorId, j: JobId, now: Time, step: FailPc)
    requires j in s.db.jobs && s.db.jobs[j].user in s.db.users && j in s.failures
    ensures var (step', e) := FailStep(s, a, j, now, step); Keeps(Fail(j, now, step), Fail(j, now, step'), e)
  {
  }

  lemma TopUpKeeps(s: State, a: ActorId, u: UserId, amount: int, external: string, key: Option<Key>, now: Time, pc: TopUpPc)
    requires u in s.db.users
    ensures var (pc', e) := TopUpStep(s, a, u, amount, external, key, now, pc);
            Keeps(TopUp(u, amount, external, key, now, pc), TopUp(u, amount, external, key, now, pc'), e)
  {
  }

  lemma AdjustKeeps(s: State, a: ActorId, u: UserId, b: Bucket, amount: int, now: Time, stage: AdjustPc)
    requires u in s.db.users
    ensures var (stage', e) := AdjustStep(s, a, u, b, amount, now, stage);
            Keeps(Actor.Adjust(u, b, amount, now, stage), Actor.Adjust(u, b, amount, now, stage'), e)
  {
  }

  lemma AdvanceKeepsHolders(s: State, a: ActorId)
    requires HoldersKnown(s) && a in s.actors
    ensures HoldersKnown(Advanced(s, a))
  {
    match s.actors[a]
    case Create(row, now, pc) =>
      var (pc', e) := CreateStep(s, a, row, now, pc);
      CreateKeeps(s, a, row, now, pc);
      ApplyKeepsHolders(s, a, Create(row, now, pc'), e);
    case Fail(j, now, step) =>
      if j in s.db.jobs && s.db.jobs[j].user in s.db.users && j in s.failures {
        var (step', e) := FailStep(s, a, j, now, step);
        FailKeeps(s, a, j, now, step);
        ApplyKeepsHolders(s, a, Fail(j, now, step'), e);
      }
    case TopUp(u, amount, external, key, now, pc) =>
      if u in s.db.users {
        var (pc', e) := TopUpStep(s, a, u, amount, external, key, now, pc);
        TopUpKeeps(s, a, u, amount, external, key, now, pc);
        ApplyKeepsHolders(s, a, TopUp(u, amount, external, key, now, pc'), e);
      }
    case Adjust(u, b, amount, now, stage) =>
      if u in s.db.users {
        var (stage', e) := AdjustStep(s, a, u, b, amount, now, stage);
        AdjustKeeps(s, a, u, b, amount, now, stage);
        ApplyKeepsHolders(s, a, Actor.Adjust(u, b, amount, now, stage'), e);
      }
  }

  lemma BeginKeepsHolders(s: State, a: ActorId, actor: Actor)
    requires HoldersKnown(s)
    ensures HoldersKnown(Next(s, Begin(a, actor)))
  {
  }

  // Statements outside the transactions of actors hold nothing behind themselves.
  predicate SameHolders(s: State, t: State) {
    t == s.(db := t.db, keys := t.keys, receipts := t.receipts)
  }

  lemma RegisterHoldsNothing(s: State, u: UserId, user: User)
    ensures SameHolders(s, Next(s, Register(u, user)))
  {
  }

  lemma MarkRunningHoldsNothing(s: State, j: JobId, now: Time)
    ensures SameHolders(s, Next(s, MarkRunning(j, now)))
  {
  }

  lemma MarkSucceededHoldsNothing(s: State, j: JobId)
    ensures SameHolders(s, Next(s, MarkSucceeded(j)))
  {
  }

  lemma ForgetHoldsNothing(s: State, k: Key)
    ensures SameHolders(s, Next(s, ForgetKey(k))) && SameHolders(s, Next(s, ForgetReceipt(k)))
  {
  }

  lemma NextKeepsHolders(s: State, step: Step)
    requires HoldersKnown(s)
    ensures HoldersKnown(Next(s, step))
  {
    match step
    case Begin(a, actor) => BeginKeepsHolders(s, a, actor);
    case Advance(a) =>
      if a in s.actors {
        AdvanceKeepsHolders(s, a);
      }
    case Abort(a) =>
      if a in s.actors {
        ApplyKeepsHolders(s, a, Stopped(s.actors[a]), RollBack);
      }
    case Register(u, user) => RegisterHoldsNothing(s, u, user);
    case MarkRunning(j, now) => MarkRunningHoldsNothing(s, j, now);
    case MarkSucceeded(j) => MarkSucceededHoldsNothing(s, j);
    case ForgetKey(k) => ForgetHoldsNothing(s, k);
    case ForgetReceipt(k) => ForgetHoldsNothing(s, k);
  }

  lemma {:induction false} RunFromKeepsHolders(s: State, steps: seq<Step>)
    requires HoldersKnown(s)
    ensures HoldersKnown(RunFrom(s, steps))
    decreases |steps|
  {
    if steps != [] {
      NextKeepsHolders(s, steps[0]);
      RunFromKeepsHolders(Next(s, steps[0]), steps[1..]);
    }
  }

  // --- Who waits for whom ---

  ghost function KeyRival(s: State, row: Job): Option<ActorId> {
    if !KeyTaken(s.db, row) && KeyOf(row).Some? && KeyOf(row).value in s.inserting then Some(s.inserting[KeyOf(row).value]) else None
  }

  function JobRival(s: State, a: ActorId, j: JobId): Option<ActorId> {
    if JobBlocked(s, a, j) then Some(s.jobLocks[j]) else None
  }

  function RowRival(s: State, a: ActorId, u: UserId): Option<ActorId> {
    if Blocked(s, a, u) then Some(s.locks[u]) else None
  }

  // The actor that a's next statement has to wait for.
  ghost function WaitsFor(s: State, a: ActorId): Option<ActorId> {
    if a !in s.actors then None
    else match s.actors[a]
      case Create(row, _, InsertJob) => KeyRival(s, row)
      case Create(row, _, ChargeUser(read)) =>
        if CalculateCreditSplit(read, row.charged).Ok? then RowRival(s, a, row.user) else None
      case Fail(j, _, RefundUser(_)) => if j in s.db.jobs then RowRival(s, a, s.db.jobs[j].user) else None
      case Fail(j, _, MarkFailed(_, _)) => JobRival(s, a, j)
      case TopUp(u, _, _, _, _, CreditUser) => RowRival(s, a, u)
      case Adjust(u, _, _, _, UpdateUser) => RowRival(s, a, u)
      case _ => None
  }

  predicate Finished(actor: Actor) {
    match actor
    case Create(_, _, pc) => pc.Answered? || pc.Refused? || pc.Gone?
    case Fail(_, _, step) => step.FailDone?
    case TopUp(_, _, _, _, _, pc) => pc.Credited? || pc.Replayed? || pc.TopUpRefused?
    case Adjust(_, _, _, _, stage) => stage.AdjustDone?
  }

  // Two failures of one charged job meet at the users row: the one that holds it finds the jobs row free.
  lemma RefundFindsJobFree(s: State, a: ActorId, j: JobId, now: Time, written: Option<Credits>, rows: seq<Txn>)
    requires Inv(s) && HoldersKnown(s) && a in s.actors && s.actors[a] == Fail(j, now, MarkFailed(written, rows)) && written.Some?
    ensures !JobBlocked(s, a, j)
  {
    assert ActorOk(s, a);
    if j in s.jobLocks {
      assert ActorOk(s, s.jobLocks[j]);
    }
  }

  // An actor that holds a users row is in the middle of its transaction and waits for nobody.
  lemma RowHoldersRun(s: State, a: ActorId)
    requires Inv(s) && HoldersKnown(s) && a in s.actors && HoldsRow(s.actors[a])
    ensures WaitsFor(s, a).None? && !Finished(s.actors[a])
  {
    if s.actors[a].Fail? && s.actors[a].step.MarkFailed? {
      RefundFindsJobFree(s, a, s.actors[a].job, s.actors[a].now, s.actors[a].step.written, s.actors[a].step.rows);
    }
  }

  predicate Moves(s: State, t: State, a: ActorId) {
    a in s.actors && a in t.actors && t.actors[a] != s.actors[a]
  }

  lemma ApplyMoves(s: State, a: ActorId, actor: Actor, e: Effect)
    ensures a in Apply(s, a, actor, e).actors && Apply(s, a, actor, e).actors[a] == actor
  {
  }

  lemma InsertMoves(s: State, a: ActorId, row: Job, now: Time)
    requires a in s.actors && s.actors[a] == Create(row, now, InsertJob)
    ensures WaitsFor(s, a).None? <==> CreateStep(s, a, row, now, InsertJob).0 != InsertJob
  {
  }

  lemma ChargeMoves(s: State, a: ActorId, row: Job, now: Time, read: Credits)
    requires a in s.actors && s.actors[a] == Create(row, now, ChargeUser(read))
    ensures WaitsFor(s, a).None? <==> CreateStep(s, a, row, now, ChargeUser(read)).0 != ChargeUser(read)
  {
  }

  lemma CreateMoves(s: State, a: ActorId, row: Job, now: Time, pc: CreatePc)
    requires a in s.actors && s.actors[a] == Create(row, now, pc) && !Finished(s.actors[a])
    ensures WaitsFor(s, a).None? <==> CreateStep(s, a, row, now, pc).0 != pc
  {
    match pc
    case InsertJob => InsertMoves(s, a, row, now);
    case ChargeUser(read) => ChargeMoves(s, a, row, now, read);
    case _ =>
  }

  lemma FailMoves(s: State, a: ActorId, j: JobId, now: Time, step: FailPc)
    requires a in s.actors && s.actors[a] == Fail(j, now, step) && !Finished(s.actors[a])
    requires j in s.db.jobs && s.db.jobs[j].user in s.db.users && j in s.failures
    ensures WaitsFor(s, a).None? <==> FailStep(s, a, j, now, step).0 != step
  {
  }

  lemma TopUpMoves(s: State, a: ActorId, u: UserId, amount: int, external: string, key: Option<Key>, now: Time, pc: TopUpPc)
    requires a in s.actors && s.actors[a] == TopUp(u, amount, external, key, now, pc) && !Finished(s.actors[a])
    requires u in s.db.users
    ensures WaitsFor(s, a).None? <==> TopUpStep(s, a, u, amount, external, key, now, pc).0 != pc
  {
  }

  lemma AdjustMoves(s: State, a: ActorId, u: UserId, b: Bucket, amount: int, now: Time, stage: AdjustPc)
    requires a in s.actors && s.actors[a] == Actor.Adjust(u, b, amount, now, stage) && !Finished(s.actors[a])
    requires u in s.db.users
    ensures WaitsFor(s, a).None? <==> AdjustStep(s, a, u, b, amount, now, stage).0 != stage
  {
  }

  // In every interleaved run the next statement of an unfinished actor moves it on if and only if it waits for nobody.
  lemma MovesUnlessWaiting(steps: seq<Step>, a: ActorId)
    requires a in Run(steps).actors && !Finished(Run(steps).actors[a])
    ensures WaitsFor(Run(steps), a).None? <==> Moves(Run(steps), Next(Run(steps), Advance(a)), a)
  {
    var s := Run(steps);
    RunKeepsInv(steps);
    assert ActorOk(s, a);
    match s.actors[a]
    case Create(row, now, pc) =>
      var (pc', e) := CreateStep(s, a, row, now, pc);
      CreateMoves(s, a, row, now, pc);
      ApplyMoves(s, a, Create(row, now, pc'), e);
    case Fail(j, now, step) =>
      assert JobBalanced(s.db, j, s.failures[j]);
      var (step', e) := FailStep(s, a, j, now, step);
      FailMoves(s, a, j, now, step);
      ApplyMoves(s, a, Fail(j, now, step'), e);
    case TopUp(u, amount, external, key, now, pc) =>
      var (pc', e) := TopUpStep(s, a, u, amount, external, key, now, pc);
      TopUpMoves(s, a, u, amount, external, key, now, pc);
      ApplyMoves(s, a, TopUp(u, amount, external, key, now, pc'), e);
    case Adjust(u, b, amount, now, stage) =>
      var (stage', e) := AdjustStep(s, a, u, b, amount, now, stage);
      AdjustMoves(s, a, u, b, amount, now, stage);
      ApplyMoves(s, a, Actor.Adjust(u, b, amount, now, stage'), e);
  }

  // Whom an actor waits for has what it waits for: requests that have inserted their job wait for users rows only.
  lemma LeadsToHolder(s: State, a: ActorId)
    requires HoldersKnown(s) && WaitsFor(s, a).Some?
    ensures var b := WaitsFor(s, a).value;
            && b != a && b in s.actors
            && (HoldsRow(s.actors[b]) || (!HoldsKey(s.actors[a]) && (HoldsKey(s.actors[b]) || HoldsJob(s.actors[b]))))
  {
  }

  // An actor that waits leads, in one step or two, to another one whose next statement moves on: transactions
  // never wait for each other in a circle.
  lemma WaitingEnds(steps: seq<Step>, a: ActorId) returns (c: ActorId)
    requires WaitsFor(Run(steps), a).Some?
    ensures var s := Run(steps); var b := WaitsFor(s, a).value;
            && c != a && (c == b || (b != a && WaitsFor(s, b) == Some(c)))
            && c in s.actors && Moves(s, Next(s, Advance(c)), c)
  {
    var s := Run(steps);
    RunKeepsInv(steps);
    RunFromKeepsHolders(EMPTY, steps);
    var b := WaitsFor(s, a).value;
    c := if WaitsFor(s, b).Some? then WaitsFor(s, b).value else b;
    LeadsToHolder(s, a);
    if HoldsRow(s.actors[b]) {
      RowHoldersRun(s, b);
    } else if c != b {
      LeadsToHolder(s, b);
      RowHoldersRun(s, c);
    }
    MovesUnlessWaiting(steps, c);
  }
}
