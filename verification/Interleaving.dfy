/**
 Every request, worker and admin action at the grain of one SQL statement or Redis command per step,
 interleaved in any order, under PostgreSQL's READ COMMITTED rules: a statement reads committed rows and its
 own transaction's writes, an UPDATE holds its row until COMMIT or ROLLBACK, a unique index makes an INSERT
 wait for an uncommitted rival. Any actor may stop at any step, which rolls back its open transaction.
 */
module Interleaving {
  import opened Options
  import opened Ledger
  import opened Billing

  type ActorId = nat

  // `now` of an actor is the start of its transaction: the created_at of every row it inserts.
  datatype Actor =
    | Create(row: Job, now: Time, at: CreatePc)
    | Fail(job: JobId, now: Time, step: FailPc)
    | TopUp(user: UserId, amount: int, external: string, key: Option<Key>, now: Time, pc: TopUpPc)
    | Adjust(user: UserId, bucket: Bucket, amount: int, now: Time, stage: AdjustPc)

  // create_job. The checks before its transaction can only refuse, and Abort does that at any step.
  datatype CreatePc =
    | GetKey
    | FindJob(hit: JobId)
    | DropKey
    | InsertJob
    | ReadUser
    | ChargeUser(read: Credits)
    | InsertFreeCharge(read: Credits, split: Credits, after: Credits)
    | InsertPaidCharge(read: Credits, split: Credits, after: Credits, rows: seq<Txn>)
    | CommitCharge(read: Credits, split: Credits, after: Credits, rows: seq<Txn>)
    | SaveKey
    | Push
    | Answered(reply: JobId)
    | Refused
    | Gone

  // _fail_job. `after` is the user row as this transaction's UPDATE left it, `seen` what its SELECT read back.
  datatype FailPc =
    | ReadCharges
    | RefundUser(back: Credits)
    | ReadBack(back: Credits, after: Credits)
    | InsertFreeRefund(back: Credits, after: Credits, seen: Credits)
    | InsertPaidRefund(back: Credits, after: Credits, seen: Credits, rows: seq<Txn>)
    | MarkFailed(written: Option<Credits>, rows: seq<Txn>)
    | CommitFailure(written: Option<Credits>, rows: seq<Txn>)
    | FailDone

  datatype TopUpPc =
    | GetReceipt
    | FindTxn
    | CreditUser
    | ReadCredited(after: Credits)
    | InsertTopUp(after: Credits, seen: Credits)
    | CommitTopUp(after: Credits, seen: Credits)
    | SaveReceipt
    | Credited
    | Replayed
    | TopUpRefused

  datatype AdjustPc =
    | UpdateUser
    | ReadAdjusted(after: Credits)
    | InsertAdjustment(after: Credits, seen: Credits)
    | CommitAdjustment(after: Credits, seen: Credits)
    | AdjustDone

  // `db` and `failures` are committed; `locks`, `jobLocks` and `inserting` name the transactions that hold a users
  // row, a jobs row or an uncommitted entry of idx_jobs_idempotency. A job's id is the id of the request that
  // inserts it.
  datatype State = State(
    db: Store,
    failures: Failures,
    locks: map<UserId, ActorId>,
    jobLocks: map<JobId, ActorId>,
    inserting: map<Key, ActorId>,
    keys: map<Key, JobId>,
    receipts: map<Key, (UserId, string)>,
    queue: seq<JobId>,
    actors: map<ActorId, Actor>)

  datatype Step =
    | Register(u: UserId, user: User)
    | Begin(a: ActorId, actor: Actor)
    | Advance(a: ActorId)
    | Abort(a: ActorId)
    | MarkRunning(j: JobId, now: Time)
    | MarkSucceeded(j: JobId)
    | ForgetKey(key: Key)
    | ForgetReceipt(key: Key)

  const EMPTY := State(Store(map[], map[], []), map[], map[], map[], map[], map[], map[], [], map[])

  // What one statement does besides moving its actor on. Publish is COMMIT, RollBack is ROLLBACK; both let go
  // of every row and index entry the transaction held.
  datatype Effect =
    | Nothing
    | LockUser(u: UserId)
    | LockJob(j: JobId)
    | ReserveKey(key: Key)
    | RollBack
    | Publish(db: Store, failures: Failures)
    | CacheJob(key: Key, j: JobId)
    | DropJob(key: Key)
    | CacheReceipt(key: Key, u: UserId, external: string)
    | Enqueue(j: JobId)

  function Without<K>(m: map<K, ActorId>, a: ActorId): map<K, ActorId> {
    map k | k in m && m[k] != a :: m[k]
  }

  function Apply(s: State, a: ActorId, actor: Actor, e: Effect): State {
    var t := s.(actors := s.actors[a := actor]);
    match e
    case Nothing => t
    case LockUser(u) => t.(locks := s.locks[u := a])
    case LockJob(j) => t.(jobLocks := s.jobLocks[j := a])
    case ReserveKey(k) => t.(inserting := s.inserting[k := a])
    case RollBack =>
      t.(locks := Without(s.locks, a), jobLocks := Without(s.jobLocks, a), inserting := Without(s.inserting, a))
    case Publish(db, failures) =>
      t.(db := db, failures := failures,
         locks := Without(s.locks, a), jobLocks := Without(s.jobLocks, a), inserting := Without(s.inserting, a))
    case CacheJob(k, j) => t.(keys := s.keys[k := j])
    case DropJob(k) => t.(keys := s.keys - {k})
    case CacheReceipt(k, u, external) => t.(receipts := s.receipts[k := (u, external)])
    case Enqueue(j) => t.(queue := [j] + s.queue)
  }

  // UPDATE users waits while another transaction holds the row.
  predicate Blocked(s: State, a: ActorId, u: UserId) {
    u in s.locks && s.locks[u] != a
  }

  // ... and so does UPDATE jobs.
  predicate JobBlocked(s: State, a: ActorId, j: JobId) {
    j in s.jobLocks && s.jobLocks[j] != a
  }

  predicate CachedReceipt(key: Option<Key>) {
    key.Some? && key.value.1 != ""
  }

  // The next program point of create_job and what its statement does; (pc, Nothing) while it has to wait.
  ghost function CreateStep(s: State, a: ActorId, row: Job, now: Time, pc: CreatePc): (CreatePc, Effect) {
    match pc
    case GetKey =>
      (if Cached(row) && KeyOf(row).value in s.keys then FindJob(s.keys[KeyOf(row).value]) else InsertJob, Nothing)
    case FindJob(hit) => (if hit in s.db.jobs then Answered(hit) else DropKey, Nothing)
    case DropKey => (InsertJob, if Cached(row) then DropJob(KeyOf(row).value) else Nothing)
    case InsertJob =>
      if KeyTaken(s.db, row) then (Refused, RollBack)
      else if KeyOf(row).None? then (ReadUser, Nothing)
      else if KeyOf(row).value in s.inserting then (pc, Nothing)
      else (ReadUser, ReserveKey(KeyOf(row).value))
    case ReadUser =>
      if row.user !in s.db.users then (Refused, RollBack)
      else (ChargeUser(s.db.users[row.user].balance), Nothing)
    case ChargeUser(read) =>
      var split := CalculateCreditSplit(read, row.charged);
      if split.Err? then (Refused, RollBack)
      else if Blocked(s, a, row.user) then (pc, Nothing)
      else if row.user !in s.db.users || !s.db.users[row.user].balance.Plus(split.value.Negated()).NonNegative()
      then (Refused, RollBack)
      else (InsertFreeCharge(read, split.value, s.db.users[row.user].balance.Plus(split.value.Negated())),
            LockUser(row.user))
    case InsertFreeCharge(read, split, after) =>
      (InsertPaidCharge(read, split, after,
         if split.free > 0
         then [Row(row.user, split.Negated(), Free, JobCharge, read.Plus(split.Negated()), Some(a), None, now)]
         else []), Nothing)
    case InsertPaidCharge(read, split, after, rows) =>
      (CommitCharge(read, split, after, rows +
         if split.paid > 0
         then [Row(row.user, split.Negated(), Paid, JobCharge, read.Plus(split.Negated()), Some(a), None, now)]
         else []), Nothing)
    case CommitCharge(read, split, after, rows) =>
      if row.user !in s.db.users then (Refused, RollBack)
      else (SaveKey, Publish(Post(s.db.(jobs := s.db.jobs[a := row]), row.user, after, rows), s.failures[a := 0]))
    case SaveKey => (Push, if Cached(row) then CacheJob(KeyOf(row).value, a) else Nothing)
    case Push => (Answered(a), Enqueue(a))
    case Answered(_) => (pc, Nothing)
    case Refused => (pc, Nothing)
    case Gone => (pc, Nothing)
  }

  ghost function FailStep(s: State, a: ActorId, j: JobId, now: Time, pc: FailPc): (FailPc, Effect)
    requires j in s.db.jobs && s.db.jobs[j].user in s.db.users && j in s.failures
  {
    var u := s.db.jobs[j].user;
    match pc
    case ReadCharges =>
      var back := Charges(s.db.ledger, j);
      (if back.free > 0 || back.paid > 0 then RefundUser(back) else MarkFailed(None, []), Nothing)
    case RefundUser(back) =>
      if Blocked(s, a, u) then (pc, Nothing)
      else (ReadBack(back, Guarded(s.db.users[u].balance, back)), LockUser(u))
    case ReadBack(back, after) => (InsertFreeRefund(back, after, after), Nothing)
    case InsertFreeRefund(back, after, seen) =>
      (InsertPaidRefund(back, after, seen,
         if back.free > 0 then [Row(u, back, Free, Refund, seen, Some(j), None, now)] else []), Nothing)
    case InsertPaidRefund(back, after, seen, rows) =>
      (MarkFailed(Some(after), rows +
         if back.paid > 0 then [Row(u, back, Paid, Refund, seen, Some(j), None, now)] else []), Nothing)
    case MarkFailed(written, rows) =>
      if JobBlocked(s, a, j) then (pc, Nothing) else (CommitFailure(written, rows), LockJob(j))
    case CommitFailure(written, rows) =>
      (FailDone, Publish(SetStatus(if written.Some? then Post(s.db, u, written.value, rows) else s.db, j, Failed),
                         s.failures[j := s.failures[j] + 1]))
    case FailDone => (pc, Nothing)
  }

  ghost function TopUpStep(s: State, a: ActorId, u: UserId, amount: int, external: string, key: Option<Key>,
                           now: Time, pc: TopUpPc): (TopUpPc, Effect)
    requires u in s.db.users
  {
    match pc
    case GetReceipt => (if CachedReceipt(key) && key.value in s.receipts then Replayed else FindTxn, Nothing)
    case FindTxn => (if ExternalTaken(s.db.ledger, u, external) then Replayed else CreditUser, Nothing)
    case CreditUser =>
      var after := s.db.users[u].balance.Plus(Credits(0, amount));
      if Blocked(s, a, u) then (pc, Nothing)
      else if !after.NonNegative() then (TopUpRefused, RollBack)
      else (ReadCredited(after), LockUser(u))
    case ReadCredited(after) => (InsertTopUp(after, after), Nothing)
    case InsertTopUp(after, seen) =>
      if ExternalTaken(s.db.ledger, u, external) then (TopUpRefused, RollBack)
      else (CommitTopUp(after, seen), Nothing)
    case CommitTopUp(after, seen) =>
      (SaveReceipt, Publish(Post(s.db, u, after, [Row(u, Credits(0, amount), Paid, Topup, seen, None, Some(external), now)]),
                            s.failures))
    case SaveReceipt => (Credited, if CachedReceipt(key) then CacheReceipt(key.value, u, external) else Nothing)
    case Credited => (pc, Nothing)
    case Replayed => (pc, Nothing)
    case TopUpRefused => (pc, Nothing)
  }

  ghost function AdjustStep(s: State, a: ActorId, u: UserId, b: Bucket, amount: int, now: Time, pc: AdjustPc): (AdjustPc, Effect)
    requires u in s.db.users
  {
    match pc
    case UpdateUser =>
      var after := s.db.users[u].balance.Plus(InBucket(b, amount));
      if Blocked(s, a, u) then (pc, Nothing)
      else if !after.NonNegative() then (AdjustDone, RollBack)
      else (ReadAdjusted(after), LockUser(u))
    case ReadAdjusted(after) => (InsertAdjustment(after, after), Nothing)
    case InsertAdjustment(after, seen) => (CommitAdjustment(after, seen), Nothing)
    case CommitAdjustment(after, seen) =>
      (AdjustDone, Publish(Post(s.db, u, after, [Row(u, InBucket(b, amount), b, AdminAdjustment, seen, None, None, now)]),
                           s.failures))
    case AdjustDone => (pc, Nothing)
  }

  // How an actor looks once it is gone.
  function Stopped(actor: Actor): Actor {
    match actor
    case Create(row, now, _) => Create(row, now, Gone)
    case Fail(j, now, _) => Fail(j, now, FailDone)
    case TopUp(u, amount, external, key, now, _) => TopUp(u, amount, external, key, now, TopUpRefused)
    case Adjust(u, b, amount, now, _) => Actor.Adjust(u, b, amount, now, AdjustDone)
  }

  predicate IsStart(s: State, actor: Actor) {
    match actor
    case Create(row, _, pc) => pc == GetKey && row.status == Pending
    case Fail(j, _, pc) => pc == ReadCharges && j in s.db.jobs
    case TopUp(u, amount, _, _, _, pc) => pc == GetReceipt && u in s.db.users && amount > 0
    case Adjust(u, _, amount, _, pc) => pc == UpdateUser && u in s.db.users && amount != 0
  }

  // UNIQUE(integration_id, external_user_id)
  ghost predicate Known(s: Store, user: User) {
    exists v :: v in s.users && s.users[v].integration == user.integration && s.users[v].external == user.external
  }

  // The next statement of actor a. The rows it names are there: nothing deletes a user or a job.
  ghost function Advanced(s: State, a: ActorId): State
    requires a in s.actors
  {
    match s.actors[a]
    case Create(row, now, pc) =>
      var (pc', e) := CreateStep(s, a, row, now, pc);
      Apply(s, a, Create(row, now, pc'), e)
    case Fail(j, now, pc) =>
      if j !in s.db.jobs || s.db.jobs[j].user !in s.db.users || j !in s.failures then s
      else
        var (pc', e) := FailStep(s, a, j, now, pc);
        Apply(s, a, Fail(j, now, pc'), e)
    case TopUp(u, amount, external, key, now, pc) =>
      if u !in s.db.users then s
      else
        var (pc', e) := TopUpStep(s, a, u, amount, external, key, now, pc);
        Apply(s, a, TopUp(u, amount, external, key, now, pc'), e)
    case Adjust(u, b, amount, now, pc) =>
      if u !in s.db.users then s
      else
        var (pc', e) := AdjustStep(s, a, u, b, amount, now, pc);
        Apply(s, a, Actor.Adjust(u, b, amount, now, pc'), e)
  }

  // A step that is not possible changes nothing.
  ghost function Next(s: State, step: Step): State {
    match step
    case Register(u, user) =>
      if u in s.db.users || Known(s.db, user) || user.balance != Credits(user.grant, 0) then s
      else s.(db := s.db.(users := s.db.users[u := user]))
    case Begin(a, actor) =>
      if a in s.actors || !IsStart(s, actor) then s else Apply(s, a, actor, Nothing)
    case Advance(a) => if a in s.actors then Advanced(s, a) else s
    case Abort(a) => if a in s.actors then Apply(s, a, Stopped(s.actors[a]), RollBack) else s
    case MarkRunning(j, now) => if j in s.db.jobs && j !in s.jobLocks then s.(db := StartJob(s.db, j, now)) else s
    case MarkSucceeded(j) => if j in s.db.jobs && j !in s.jobLocks then s.(db := SetStatus(s.db, j, Succeeded)) else s
    case ForgetKey(k) => s.(keys := s.keys - {k})
    case ForgetReceipt(k) => s.(receipts := s.receipts - {k})
  }

  // The committed tables of t, and the failures counted, are these.
  predicate Left(t: State, db: Store, failures: Failures) {
    t.db == db && t.failures == failures
  }

  ghost function RunFrom(s: State, steps: seq<Step>): State
    decreases |steps|
  {
    if steps == [] then s else RunFrom(Next(s, steps[0]), steps[1..])
  }

  ghost function Run(steps: seq<Step>): State {
    RunFrom(EMPTY, steps)
  }
}
