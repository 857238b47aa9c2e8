/**
 The two grains agree: an actor whose statements run without anyone in between leaves exactly what its
 transaction, taken as one step, leaves.
 */
module Alone {
  import opened Options
  import opened Ledger
  import opened Billing
  import opened Interleaving

  predicate Own(steps: seq<Step>, a: ActorId) {
    forall step :: step in steps ==> step == Advance(a)
  }

  // Statements of a alone lead from s to t.
  ghost predicate Leads(s: State, a: ActorId, t: State) {
    exists steps :: Own(steps, a) && RunFrom(s, steps) == t
  }

  lemma LeadsNowhere(s: State, a: ActorId)
    ensures Leads(s, a, s)
  {
    var none: seq<Step> := [];
    assert Own(none, a) && RunFrom(s, none) == s;
  }

  lemma {:induction false} RunFromThen(s: State, steps: seq<Step>, step: Step)
    ensures RunFrom(s, steps + [step]) == Next(RunFrom(s, steps), step)
    decreases |steps|
  {
    var all := steps + [step];
    if steps == [] {
      assert all == [step] && all[1..] == [];
    } else {
      assert all[1..] == steps[1..] + [step];
      RunFromThen(Next(s, steps[0]), steps[1..], step);
    }
  }

  lemma {:induction false} RunFromOn(s: State, p: seq<Step>, q: seq<Step>)
    ensures RunFrom(s, p + q) == RunFrom(RunFrom(s, p), q)
    decreases |p|
  {
    if p == [] {
      assert p + q == q;
    } else {
      assert (p + q)[1..] == p[1..] + q;
      RunFromOn(Next(s, p[0]), p[1..], q);
    }
  }

  lemma LeadsOn(s: State, a: ActorId, t: State, u: State)
    requires Leads(s, a, t) && Leads(t, a, u)
    ensures Leads(s, a, u)
  {
    var p :| Own(p, a) && RunFrom(s, p) == t;
    var q :| Own(q, a) && RunFrom(t, q) == u;
    RunFromOn(s, p, q);
    assert Own(p + q, a) && RunFrom(s, p + q) == u;
  }

  // A run goes on from each of its prefixes.
  lemma RunStep(steps: seq<Step>, n: nat)
    requires n < |steps|
    ensures Run(steps[..n + 1]) == Next(Run(steps[..n]), steps[n])
  {
    assert steps[..n + 1] == steps[..n] + [steps[n]];
    RunFromThen(EMPTY, steps[..n], steps[n]);
  }

  lemma LeadsFurther(o: State, a: ActorId, s: State) returns (t: State)
    requires Leads(o, a, s)
    ensures t == Next(s, Advance(a)) && Leads(o, a, t)
  {
    var steps :| Own(steps, a) && RunFrom(o, steps) == s;
    RunFromThen(o, steps, Advance(a));
    t := Next(s, Advance(a));
    assert Own(steps + [Advance(a)], a) && RunFrom(o, steps + [Advance(a)]) == t;
  }

  // No statement of a transaction touches Redis.
  predicate SameRedis(s: State, t: State) {
    t.keys == s.keys && t.receipts == s.receipts && t.queue == s.queue
  }

  // The actor's transaction is behind it, and it holds nothing.
  predicate Ended(s: State, a: ActorId, t: State, actor: Actor) {
    && t.actors == s.actors[a := actor] && SameRedis(s, t)
    && t.locks == Without(s.locks, a) && t.jobLocks == Without(s.jobLocks, a) && t.inserting == Without(s.inserting, a)
  }

  // What the transaction leaves: the result, or nothing.
  ghost predicate Concluded(s: State, t: State, r: Result<Store>, failures: Failures) {
    if r.Ok? then Left(t, r.value, failures) else Left(t, s.db, s.failures)
  }

  // The actor is on its way: nothing committed, and nothing held by others than before.
  predicate Midway(s: State, a: ActorId, t: State, actor: Actor) {
    && Left(t, s.db, s.failures) && t.actors == s.actors[a := actor] && SameRedis(s, t)
    && Without(t.locks, a) == Without(s.locks, a) && Without(t.jobLocks, a) == Without(s.jobLocks, a)
    && Without(t.inserting, a) == Without(s.inserting, a)
  }

  lemma MidwayFurther(s: State, a: ActorId, t: State, u: State, x: Actor, y: Actor)
    requires Midway(s, a, t, x) && Midway(t, a, u, y)
    ensures Midway(s, a, u, y)
  {
    assert s.actors[a := x][a := y] == s.actors[a := y];
  }

  lemma EndsMidway(s: State, a: ActorId, t: State, u: State, x: Actor, y: Actor)
    requires Midway(s, a, t, x) && Ended(t, a, u, y)
    ensures Ended(s, a, u, y)
  {
    assert s.actors[a := x][a := y] == s.actors[a := y];
  }

  lemma QuietStep(s: State, a: ActorId, actor: Actor)
    ensures Midway(s, a, Apply(s, a, actor, Nothing), actor)
  {
  }

  lemma LockStep(s: State, a: ActorId, actor: Actor, u: UserId)
    requires !Blocked(s, a, u)
    ensures Midway(s, a, Apply(s, a, actor, LockUser(u)), actor)
  {
    assert Without(s.locks[u := a], a) == Without(s.locks, a);
  }

  lemma JobLockStep(s: State, a: ActorId, actor: Actor, j: JobId)
    requires !JobBlocked(s, a, j)
    ensures Midway(s, a, Apply(s, a, actor, LockJob(j)), actor)
  {
    assert Without(s.jobLocks[j := a], a) == Without(s.jobLocks, a);
  }

  // --- create_job ---

  predicate IsCreate(s: State, a: ActorId, row: Job, now: Time, pc: CreatePc) {
    a in s.actors && s.actors[a] == Create(row, now, pc)
  }

  lemma CreateMoves(o: State, s: State, a: ActorId, row: Job, now: Time, pc: CreatePc, pc': CreatePc, e: Effect)
    returns (t: State)
    requires Leads(o, a, s) && IsCreate(s, a, row, now, pc) && CreateStep(s, a, row, now, pc) == (pc', e)
    ensures Leads(o, a, t) && t == Apply(s, a, Create(row, now, pc'), e)
  {
    t := LeadsFurther(o, a, s);
  }

  lemma CreateRefused(o: State, s: State, a: ActorId, row: Job, now: Time, pc: CreatePc) returns (t: State)
    requires Leads(o, a, s) && IsCreate(s, a, row, now, pc) && CreateStep(s, a, row, now, pc) == (Refused, RollBack)
    ensures Leads(o, a, t) && Ended(s, a, t, Create(row, now, Refused)) && Left(t, s.db, s.failures)
  {
    t := CreateMoves(o, s, a, row, now, pc, Refused, RollBack);
  }

  // The rows of a charge computed from the balance read
  function Charged(u: UserId, split: Credits, read: Credits, a: ActorId, now: Time): seq<Txn> {
    Rows(u, split.Negated(), JobCharge, read.Plus(split.Negated()), Some(a), None, now)
  }

  function FreeCharge(u: UserId, split: Credits, read: Credits, a: ActorId, now: Time): seq<Txn> {
    if split.free > 0 then [Row(u, split.Negated(), Free, JobCharge, read.Plus(split.Negated()), Some(a), None, now)] else []
  }

  lemma InsertsFree(o: State, s: State, a: ActorId, row: Job, now: Time, read: Credits, split: Credits, after: Credits)
    returns (t: State)
    requires Leads(o, a, s) && IsCreate(s, a, row, now, InsertFreeCharge(read, split, after))
    ensures Leads(o, a, t)
    ensures Midway(s, a, t, Create(row, now, InsertPaidCharge(read, split, after, FreeCharge(row.user, split, read, a, now))))
  {
    QuietStep(s, a, Create(row, now, InsertPaidCharge(read, split, after, FreeCharge(row.user, split, read, a, now))));
    t := CreateMoves(o, s, a, row, now, InsertFreeCharge(read, split, after),
                     InsertPaidCharge(read, split, after, FreeCharge(row.user, split, read, a, now)), Nothing);
  }

  lemma InsertsPaid(o: State, s: State, a: ActorId, row: Job, now: Time, read: Credits, split: Credits, after: Credits)
    returns (t: State)
    requires Leads(o, a, s) && split.NonNegative()
    requires IsCreate(s, a, row, now, InsertPaidCharge(read, split, after, FreeCharge(row.user, split, read, a, now)))
    ensures Leads(o, a, t)
    ensures Midway(s, a, t, Create(row, now, CommitCharge(read, split, after, Charged(row.user, split, read, a, now))))
  {
    QuietStep(s, a, Create(row, now, CommitCharge(read, split, after, Charged(row.user, split, read, a, now))));
    t := CreateMoves(o, s, a, row, now, InsertPaidCharge(read, split, after, FreeCharge(row.user, split, read, a, now)),
                     CommitCharge(read, split, after, Charged(row.user, split, read, a, now)), Nothing);
  }

  lemma CommitsCharge(o: State, s: State, a: ActorId, row: Job, now: Time, read: Credits, split: Credits, after: Credits,
                      rows: seq<Txn>) returns (t: State)
    requires Leads(o, a, s) && IsCreate(s, a, row, now, CommitCharge(read, split, after, rows)) && row.user in s.db.users
    ensures Leads(o, a, t) && Ended(s, a, t, Create(row, now, SaveKey))
    ensures Left(t, Post(s.db.(jobs := s.db.jobs[a := row]), row.user, after, rows), s.failures[a := 0])
  {
    t := CreateMoves(o, s, a, row, now, CommitCharge(read, split, after, rows), SaveKey,
                     Publish(Post(s.db.(jobs := s.db.jobs[a := row]), row.user, after, rows), s.failures[a := 0]));
  }

  lemma Charging(o: State, s: State, a: ActorId, row: Job, now: Time, read: Credits, split: Credits, after: Credits)
    returns (t: State)
    requires Leads(o, a, s) && IsCreate(s, a, row, now, ChargeUser(read)) && !Blocked(s, a, row.user)
    requires CalculateCreditSplit(read, row.charged) == Ok(split) && row.user in s.db.users
    requires after == s.db.users[row.user].balance.Plus(split.Negated()) && after.NonNegative()
    ensures Leads(o, a, t)
    ensures Midway(s, a, t, Create(row, now, InsertFreeCharge(read, split, after)))
  {
    LockStep(s, a, Create(row, now, InsertFreeCharge(read, split, after)), row.user);
    t := CreateMoves(o, s, a, row, now, ChargeUser(read), InsertFreeCharge(read, split, after), LockUser(row.user));
  }

  // From the UPDATE of the balance to the COMMIT, whatever the balance has become since it was read
  lemma ChargesOn(o: State, s: State, a: ActorId, row: Job, now: Time, read: Credits, split: Credits, after: Credits)
    returns (t: State)
    requires Leads(o, a, s) && IsCreate(s, a, row, now, ChargeUser(read)) && !Blocked(s, a, row.user)
    requires CalculateCreditSplit(read, row.charged) == Ok(split) && split.NonNegative() && row.user in s.db.users
    requires after == s.db.users[row.user].balance.Plus(split.Negated()) && after.NonNegative()
    ensures Leads(o, a, t) && Ended(s, a, t, Create(row, now, SaveKey))
    ensures Left(t, Post(s.db.(jobs := s.db.jobs[a := row]), row.user, after, Charged(row.user, split, read, a, now)),
                 s.failures[a := 0])
  {
    var free, all := FreeCharge(row.user, split, read, a, now), Charged(row.user, split, read, a, now);
    var x1 := Create(row, now, InsertFreeCharge(read, split, after));
    var x2 := Create(row, now, InsertPaidCharge(read, split, after, free));
    var x3 := Create(row, now, CommitCharge(read, split, after, all));
    var t1 := Charging(o, s, a, row, now, read, split, after);
    var t2 := InsertsFree(o, t1, a, row, now, read, split, after);
    MidwayFurther(s, a, t1, t2, x1, x2);
    var t3 := InsertsPaid(o, t2, a, row, now, read, split, after);
    MidwayFurther(s, a, t2, t3, x2, x3);
    t := CommitsCharge(o, t3, a, row, now, read, split, after, all);
    EndsMidway(s, a, t3, t, x3, Create(row, now, SaveKey));
  }

  lemma ChargesAlone(o: State, s: State, a: ActorId, row: Job, now: Time, read: Credits) returns (t: State, end: CreatePc)
    requires Leads(o, a, s) && IsCreate(s, a, row, now, ChargeUser(read)) && !Blocked(s, a, row.user)
    requires row.user in s.db.users && read == s.db.users[row.user].balance && read.NonNegative()
    ensures Leads(o, a, t) && Ended(s, a, t, Create(row, now, end))
    ensures var r := Reserve(s.db.(jobs := s.db.jobs[a := row]), row.user, row.charged, a, now);
            Concluded(s, t, r, s.failures[a := 0]) && end == if r.Ok? then SaveKey else Refused
  {
    var split := CalculateCreditSplit(read, row.charged);
    if split.Err? {
      t := CreateRefused(o, s, a, row, now, ChargeUser(read));
      end := Refused;
    } else {
      t := ChargesOn(o, s, a, row, now, read, split.value, read.Plus(split.value.Negated()));
      end := SaveKey;
    }
  }

  lemma ReadsAlone(o: State, s: State, a: ActorId, row: Job, now: Time) returns (t: State, end: CreatePc)
    requires Leads(o, a, s) && IsCreate(s, a, row, now, ReadUser) && !Blocked(s, a, row.user)
    requires row.user in s.db.users ==> s.db.users[row.user].balance.NonNegative()
    ensures Leads(o, a, t) && Ended(s, a, t, Create(row, now, end))
    ensures var r := Reserve(s.db.(jobs := s.db.jobs[a := row]), row.user, row.charged, a, now);
            Concluded(s, t, r, s.failures[a := 0]) && end == if r.Ok? then SaveKey else Refused
  {
    if row.user !in s.db.users {
      t := CreateRefused(o, s, a, row, now, ReadUser);
      end := Refused;
    } else {
      var read := s.db.users[row.user].balance;
      var s1 := CreateMoves(o, s, a, row, now, ReadUser, ChargeUser(read), Nothing);
      QuietStep(s, a, Create(row, now, ChargeUser(read)));
      t, end := ChargesAlone(o, s1, a, row, now, read);
      EndsMidway(s, a, s1, t, Create(row, now, ChargeUser(read)), Create(row, now, end));
    }
  }

  // The INSERT of the job, when no uncommitted rival has its key
  lemma InsertsJob(o: State, s: State, a: ActorId, row: Job, now: Time) returns (t: State)
    requires Leads(o, a, s) && IsCreate(s, a, row, now, InsertJob) && !KeyTaken(s.db, row)
    requires KeyOf(row).Some? ==> KeyOf(row).value !in s.inserting
    ensures Leads(o, a, t) && Midway(s, a, t, Create(row, now, ReadUser)) && t.locks == s.locks
  {
    t := CreateMoves(o, s, a, row, now, InsertJob, ReadUser,
                     if KeyOf(row).Some? then ReserveKey(KeyOf(row).value) else Nothing);
  }

  // create_job's transaction, from its INSERT of the job to its COMMIT or ROLLBACK.
  lemma CreateAlone(s: State, a: ActorId, row: Job, now: Time) returns (t: State, end: CreatePc)
    requires IsCreate(s, a, row, now, InsertJob) && !Blocked(s, a, row.user)
    requires KeyOf(row).Some? ==> KeyOf(row).value !in s.inserting
    requires row.user in s.db.users ==> s.db.users[row.user].balance.NonNegative()
    ensures Leads(s, a, t) && Ended(s, a, t, Create(row, now, end))
    ensures var r := CreateJob(s.db, a, row, now);
            Concluded(s, t, r, s.failures[a := 0]) && end == if r.Ok? then SaveKey else Refused
  {
    LeadsNowhere(s, a);
    if KeyTaken(s.db, row) {
      t := CreateRefused(s, s, a, row, now, InsertJob);
      end := Refused;
    } else {
      var s1 := InsertsJob(s, s, a, row, now);
      t, end := ReadsAlone(s, s1, a, row, now);
      EndsMidway(s, a, s1, t, Create(row, now, ReadUser), Create(row, now, end));
    }
  }

  // --- _fail_job ---

  predicate IsFail(s: State, a: ActorId, j: JobId, now: Time, step: FailPc) {
    && a in s.actors && s.actors[a] == Fail(j, now, step)
    && j in s.db.jobs && s.db.jobs[j].user in s.db.users && j in s.failures
  }

  lemma FailMoves(o: State, s: State, a: ActorId, j: JobId, now: Time, step: FailPc, step': FailPc, e: Effect)
    returns (t: State)
    requires Leads(o, a, s) && IsFail(s, a, j, now, step) && FailStep(s, a, j, now, step) == (step', e)
    ensures Leads(o, a, t) && t == Apply(s, a, Fail(j, now, step'), e)
  {
    t := LeadsFurther(o, a, s);
  }

  function GivenBack(u: UserId, back: Credits, shown: Credits, j: JobId, now: Time): seq<Txn> {
    Rows(u, back, Refund, shown, Some(j), None, now)
  }

  function FreeGivenBack(u: UserId, back: Credits, shown: Credits, j: JobId, now: Time): seq<Txn> {
    if back.free > 0 then [Row(u, back, Free, Refund, shown, Some(j), None, now)] else []
  }

  lemma FailQuiet(o: State, s: State, a: ActorId, j: JobId, now: Time, step: FailPc, step': FailPc) returns (t: State)
    requires Leads(o, a, s) && IsFail(s, a, j, now, step) && FailStep(s, a, j, now, step) == (step', Nothing)
    ensures Leads(o, a, t) && Midway(s, a, t, Fail(j, now, step')) && t.locks == s.locks && t.jobLocks == s.jobLocks
  {
    t := FailMoves(o, s, a, j, now, step, step', Nothing);
    QuietStep(s, a, Fail(j, now, step'));
  }

  lemma Refunding(o: State, s: State, a: ActorId, j: JobId, now: Time, back: Credits, after: Credits) returns (t: State)
    requires Leads(o, a, s) && IsFail(s, a, j, now, RefundUser(back)) && !Blocked(s, a, s.db.jobs[j].user)
    requires after == Guarded(s.db.users[s.db.jobs[j].user].balance, back)
    ensures Leads(o, a, t) && Midway(s, a, t, Fail(j, now, ReadBack(back, after))) && t.jobLocks == s.jobLocks
  {
    t := FailMoves(o, s, a, j, now, RefundUser(back), ReadBack(back, after), LockUser(s.db.jobs[j].user));
    LockStep(s, a, Fail(j, now, ReadBack(back, after)), s.db.jobs[j].user);
  }

  lemma Marks(o: State, s: State, a: ActorId, j: JobId, now: Time, written: Option<Credits>, rows: seq<Txn>) returns (t: State)
    requires Leads(o, a, s) && IsFail(s, a, j, now, MarkFailed(written, rows)) && !JobBlocked(s, a, j)
    ensures Leads(o, a, t) && Midway(s, a, t, Fail(j, now, CommitFailure(written, rows)))
  {
    t := FailMoves(o, s, a, j, now, MarkFailed(written, rows), CommitFailure(written, rows), LockJob(j));
    JobLockStep(s, a, Fail(j, now, CommitFailure(written, rows)), j);
  }

  lemma CommitsFailure(o: State, s: State, a: ActorId, j: JobId, now: Time, written: Option<Credits>, rows: seq<Txn>,
                       db: Store, failures: Failures) returns (t: State)
    requires Leads(o, a, s) && IsFail(s, a, j, now, CommitFailure(written, rows))
    requires FailStep(s, a, j, now, CommitFailure(written, rows)) == (FailDone, Publish(db, failures))
    ensures Leads(o, a, t) && Ended(s, a, t, Fail(j, now, FailDone)) && Left(t, db, failures)
  {
    t := FailMoves(o, s, a, j, now, CommitFailure(written, rows), FailDone, Publish(db, failures));
  }

  // The COMMIT of a failure with a refund, and of one without
  lemma RefundCommits(o: State, s: State, a: ActorId, j: JobId, now: Time, after: Credits, rows: seq<Txn>) returns (t: State)
    requires Leads(o, a, s) && IsFail(s, a, j, now, MarkFailed(Some(after), rows)) && !JobBlocked(s, a, j)
    ensures Leads(o, a, t) && Ended(s, a, t, Fail(j, now, FailDone))
    ensures Left(t, SetStatus(Post(s.db, s.db.jobs[j].user, after, rows), j, Failed), s.failures[j := s.failures[j] + 1])
  {
    var s1 := Marks(o, s, a, j, now, Some(after), rows);
    t := CommitsFailure(o, s1, a, j, now, Some(after), rows, SetStatus(Post(s.db, s.db.jobs[j].user, after, rows), j, Failed),
                        s.failures[j := s.failures[j] + 1]);
    EndsMidway(s, a, s1, t, Fail(j, now, CommitFailure(Some(after), rows)), Fail(j, now, FailDone));
  }

  lemma FailureCommits(o: State, s: State, a: ActorId, j: JobId, now: Time, rows: seq<Txn>) returns (t: State)
    requires Leads(o, a, s) && IsFail(s, a, j, now, MarkFailed(None, rows)) && !JobBlocked(s, a, j)
    ensures Leads(o, a, t) && Ended(s, a, t, Fail(j, now, FailDone))
    ensures Left(t, SetStatus(s.db, j, Failed), s.failures[j := s.failures[j] + 1])
  {
    var s1 := Marks(o, s, a, j, now, None, rows);
    t := CommitsFailure(o, s1, a, j, now, None, rows, SetStatus(s.db, j, Failed), s.failures[j := s.failures[j] + 1]);
    EndsMidway(s, a, s1, t, Fail(j, now, CommitFailure(None, rows)), Fail(j, now, FailDone));
  }

  lemma InsertsRefund(o: State, s: State, a: ActorId, j: JobId, now: Time, back: Credits, after: Credits) returns (t: State)
    requires Leads(o, a, s) && IsFail(s, a, j, now, ReadBack(back, after)) && back.NonNegative()
    ensures Leads(o, a, t)
    ensures Midway(s, a, t, Fail(j, now, MarkFailed(Some(after), GivenBack(s.db.jobs[j].user, back, after, j, now))))
    ensures t.jobLocks == s.jobLocks
  {
    var free, all := FreeGivenBack(s.db.jobs[j].user, back, after, j, now), GivenBack(s.db.jobs[j].user, back, after, j, now);
    var p1, p2, p3 := InsertFreeRefund(back, after, after), InsertPaidRefund(back, after, after, free), MarkFailed(Some(after), all);
    var s1 := FailQuiet(o, s, a, j, now, ReadBack(back, after), p1);
    var s2 := FailQuiet(o, s1, a, j, now, p1, p2);
    MidwayFurther(s, a, s1, s2, Fail(j, now, p1), Fail(j, now, p2));
    t := FailQuiet(o, s2, a, j, now, p2, p3);
    MidwayFurther(s, a, s2, t, Fail(j, now, p2), Fail(j, now, p3));
  }

  // From the refund's UPDATE to the COMMIT
  lemma RefundsOn(o: State, s: State, a: ActorId, j: JobId, now: Time, back: Credits, after: Credits) returns (t: State)
    requires Leads(o, a, s) && IsFail(s, a, j, now, RefundUser(back)) && !Blocked(s, a, s.db.jobs[j].user)
    requires back.NonNegative() && after == Guarded(s.db.users[s.db.jobs[j].user].balance, back) && !JobBlocked(s, a, j)
    ensures Leads(o, a, t) && Ended(s, a, t, Fail(j, now, FailDone))
    ensures t.db == SetStatus(Post(s.db, s.db.jobs[j].user, after, GivenBack(s.db.jobs[j].user, back, after, j, now)), j, Failed)
    ensures t.failures == s.failures[j := s.failures[j] + 1]
  {
    var all := GivenBack(s.db.jobs[j].user, back, after, j, now);
    var x1, x2 := Fail(j, now, ReadBack(back, after)), Fail(j, now, MarkFailed(Some(after), all));
    var s1 := Refunding(o, s, a, j, now, back, after);
    var s2 := InsertsRefund(o, s1, a, j, now, back, after);
    MidwayFurther(s, a, s1, s2, x1, x2);
    t := RefundCommits(o, s2, a, j, now, after, all);
    EndsMidway(s, a, s2, t, x2, Fail(j, now, FailDone));
  }

  // _fail_job's transaction with its refund.
  lemma FailAlone(s: State, a: ActorId, j: JobId, now: Time) returns (t: State)
    requires IsFail(s, a, j, now, ReadCharges) && !Blocked(s, a, s.db.jobs[j].user) && !JobBlocked(s, a, j)
    ensures Leads(s, a, t) && Ended(s, a, t, Fail(j, now, FailDone))
    ensures t.db == FailJob(s.db, j, now) && t.failures == s.failures[j := s.failures[j] + 1]
  {
    var back, u := Charges(s.db.ledger, j), s.db.jobs[j].user;
    ChargesAreNonNegative(s.db.ledger, j);
    LeadsNowhere(s, a);
    if back.free > 0 || back.paid > 0 {
      var s1 := FailQuiet(s, s, a, j, now, ReadCharges, RefundUser(back));
      t := RefundsOn(s, s1, a, j, now, back, Guarded(s.db.users[u].balance, back));
      EndsMidway(s, a, s1, t, Fail(j, now, RefundUser(back)), Fail(j, now, FailDone));
    } else {
      NothingToGiveBack(s.db, j, now);
      var s1 := FailQuiet(s, s, a, j, now, ReadCharges, MarkFailed(None, []));
      t := FailureCommits(s, s1, a, j, now, []);
      EndsMidway(s, a, s1, t, Fail(j, now, MarkFailed(None, [])), Fail(j, now, FailDone));
    }
  }

  lemma NothingToGiveBack(db: Store, j: JobId, now: Time)
    requires j in db.jobs && db.jobs[j].user in db.users
    requires Charges(db.ledger, j).free == 0 && Charges(db.ledger, j).paid == 0
    ensures FailJob(db, j, now) == SetStatus(db, j, Failed)
  {
    var u, back := db.jobs[j].user, Charges(db.ledger, j);
    assert Rows(u, back, Refund, Guarded(db.users[u].balance, back), Some(j), None, now) == [];
    assert db.users[u := db.users[u].(balance := Guarded(db.users[u].balance, back))] == db.users;
  }

  // --- topup ---

  predicate IsTopUp(s: State, a: ActorId, actor: Actor, pc: TopUpPc) {
    actor.TopUp? && a in s.actors && s.actors[a] == actor.(pc := pc) && actor.user in s.db.users
  }

  lemma TopUpMoves(o: State, s: State, a: ActorId, actor: Actor, pc: TopUpPc, pc': TopUpPc, e: Effect) returns (t: State)
    requires Leads(o, a, s) && IsTopUp(s, a, actor, pc)
    requires TopUpStep(s, a, actor.user, actor.amount, actor.external, actor.key, actor.now, pc) == (pc', e)
    ensures Leads(o, a, t) && t == Apply(s, a, actor.(pc := pc'), e)
  {
    t := LeadsFurther(o, a, s);
  }

  function TopUpRow(actor: Actor, after: Credits): Txn
    requires actor.TopUp?
  {
    Row(actor.user, Credits(0, actor.amount), Paid, Topup, after, None, Some(actor.external), actor.now)
  }

  lemma TopUpQuiet(o: State, s: State, a: ActorId, actor: Actor, pc: TopUpPc, pc': TopUpPc) returns (t: State)
    requires Leads(o, a, s) && IsTopUp(s, a, actor, pc)
    requires TopUpStep(s, a, actor.user, actor.amount, actor.external, actor.key, actor.now, pc) == (pc', Nothing)
    ensures Leads(o, a, t) && Midway(s, a, t, actor.(pc := pc')) && t.locks == s.locks && t.inserting == s.inserting
  {
    t := TopUpMoves(o, s, a, actor, pc, pc', Nothing);
    QuietStep(s, a, actor.(pc := pc'));
  }

  lemma CreditsOn(o: State, s: State, a: ActorId, actor: Actor, after: Credits) returns (t: State)
    requires Leads(o, a, s) && IsTopUp(s, a, actor, CreditUser) && !Blocked(s, a, actor.user)
    requires after == s.db.users[actor.user].balance.Plus(Credits(0, actor.amount)) && after.NonNegative()
    ensures Leads(o, a, t) && Midway(s, a, t, actor.(pc := InsertTopUp(after, after)))
  {
    var s1 := TopUpMoves(o, s, a, actor, CreditUser, ReadCredited(after), LockUser(actor.user));
    LockStep(s, a, actor.(pc := ReadCredited(after)), actor.user);
    t := TopUpQuiet(o, s1, a, actor, ReadCredited(after), InsertTopUp(after, after));
    MidwayFurther(s, a, s1, t, actor.(pc := ReadCredited(after)), actor.(pc := InsertTopUp(after, after)));
  }

  lemma CommitsTopUp(o: State, s: State, a: ActorId, actor: Actor, after: Credits) returns (t: State)
    requires Leads(o, a, s) && IsTopUp(s, a, actor, CommitTopUp(after, after))
    ensures Leads(o, a, t) && Ended(s, a, t, actor.(pc := SaveReceipt))
    ensures Left(t, Post(s.db, actor.user, after, [TopUpRow(actor, after)]), s.failures)
  {
    t := TopUpMoves(o, s, a, actor, CommitTopUp(after, after), SaveReceipt,
                    Publish(Post(s.db, actor.user, after, [TopUpRow(actor, after)]), s.failures));
  }

  // From the UPDATE to the COMMIT, of an external id that is not taken
  lemma TopsUpOn(o: State, s: State, a: ActorId, actor: Actor, after: Credits) returns (t: State)
    requires Leads(o, a, s) && IsTopUp(s, a, actor, CreditUser) && !Blocked(s, a, actor.user)
    requires after == s.db.users[actor.user].balance.Plus(Credits(0, actor.amount)) && after.NonNegative()
    requires !ExternalTaken(s.db.ledger, actor.user, actor.external)
    ensures Leads(o, a, t) && Ended(s, a, t, actor.(pc := SaveReceipt))
    ensures Left(t, Post(s.db, actor.user, after, [TopUpRow(actor, after)]), s.failures)
  {
    var x1, x2 := actor.(pc := InsertTopUp(after, after)), actor.(pc := CommitTopUp(after, after));
    var s1 := CreditsOn(o, s, a, actor, after);
    var s2 := TopUpQuiet(o, s1, a, actor, InsertTopUp(after, after), CommitTopUp(after, after));
    MidwayFurther(s, a, s1, s2, x1, x2);
    t := CommitsTopUp(o, s2, a, actor, after);
    EndsMidway(s, a, s2, t, x2, actor.(pc := SaveReceipt));
  }

  lemma TopUpRefusedOn(o: State, s: State, a: ActorId, actor: Actor, pc: TopUpPc) returns (t: State)
    requires Leads(o, a, s) && IsTopUp(s, a, actor, pc)
    requires TopUpStep(s, a, actor.user, actor.amount, actor.external, actor.key, actor.now, pc) == (TopUpRefused, RollBack)
    ensures Leads(o, a, t) && Ended(s, a, t, actor.(pc := TopUpRefused)) && Left(t, s.db, s.failures)
  {
    t := TopUpMoves(o, s, a, actor, pc, TopUpRefused, RollBack);
  }

  // topup's transaction.
  lemma TopUpAlone(s: State, a: ActorId, actor: Actor) returns (t: State, end: TopUpPc)
    requires IsTopUp(s, a, actor, CreditUser) && !Blocked(s, a, actor.user) && actor.amount != 0
    ensures Leads(s, a, t) && Ended(s, a, t, actor.(pc := end))
    ensures var r := Billing.TopUp(s.db, actor.user, actor.amount, actor.external, actor.now);
            Concluded(s, t, r, s.failures) && end == if r.Ok? then SaveReceipt else TopUpRefused
  {
    var after := s.db.users[actor.user].balance.Plus(Credits(0, actor.amount));
    LeadsNowhere(s, a);
    if !after.NonNegative() {
      t := TopUpRefusedOn(s, s, a, actor, CreditUser);
      end := TopUpRefused;
    } else if ExternalTaken(s.db.ledger, actor.user, actor.external) {
      var s1 := CreditsOn(s, s, a, actor, after);
      t := TopUpRefusedOn(s, s1, a, actor, InsertTopUp(after, after));
      EndsMidway(s, a, s1, t, actor.(pc := InsertTopUp(after, after)), actor.(pc := TopUpRefused));
      end := TopUpRefused;
    } else {
      t := TopsUpOn(s, s, a, actor, after);
      end := SaveReceipt;
    }
  }

  // --- user_credit_adjust ---

  predicate IsAdjust(s: State, a: ActorId, actor: Actor, stage: AdjustPc) {
    actor.Adjust? && a in s.actors && s.actors[a] == actor.(stage := stage) && actor.user in s.db.users
  }

  lemma AdjustMoves(o: State, s: State, a: ActorId, actor: Actor, stage: AdjustPc, stage': AdjustPc, e: Effect) returns (t: State)
    requires Leads(o, a, s) && IsAdjust(s, a, actor, stage)
    requires AdjustStep(s, a, actor.user, actor.bucket, actor.amount, actor.now, stage) == (stage', e)
    ensures Leads(o, a, t) && t == Apply(s, a, actor.(stage := stage'), e)
  {
    t := LeadsFurther(o, a, s);
  }

  function AdjustRow(actor: Actor, after: Credits): Txn
    requires actor.Adjust?
  {
    Row(actor.user, InBucket(actor.bucket, actor.amount), actor.bucket, AdminAdjustment, after, None, None, actor.now)
  }

  lemma AdjustQuiet(o: State, s: State, a: ActorId, actor: Actor, stage: AdjustPc, stage': AdjustPc) returns (t: State)
    requires Leads(o, a, s) && IsAdjust(s, a, actor, stage)
    requires AdjustStep(s, a, actor.user, actor.bucket, actor.amount, actor.now, stage) == (stage', Nothing)
    ensures Leads(o, a, t) && Midway(s, a, t, actor.(stage := stage'))
  {
    t := AdjustMoves(o, s, a, actor, stage, stage', Nothing);
    QuietStep(s, a, actor.(stage := stage'));
  }

  lemma CommitsAdjustment(o: State, s: State, a: ActorId, actor: Actor, after: Credits) returns (t: State)
    requires Leads(o, a, s) && IsAdjust(s, a, actor, CommitAdjustment(after, after))
    ensures Leads(o, a, t) && Ended(s, a, t, actor.(stage := AdjustDone))
    ensures Left(t, Post(s.db, actor.user, after, [AdjustRow(actor, after)]), s.failures)
  {
    t := AdjustMoves(o, s, a, actor, CommitAdjustment(after, after), AdjustDone,
                     Publish(Post(s.db, actor.user, after, [AdjustRow(actor, after)]), s.failures));
  }

  lemma AdjustsOn(o: State, s: State, a: ActorId, actor: Actor, after: Credits) returns (t: State)
    requires Leads(o, a, s) && IsAdjust(s, a, actor, ReadAdjusted(after))
    ensures Leads(o, a, t) && Ended(s, a, t, actor.(stage := AdjustDone))
    ensures Left(t, Post(s.db, actor.user, after, [AdjustRow(actor, after)]), s.failures)
  {
    var x1, x2 := actor.(stage := InsertAdjustment(after, after)), actor.(stage := CommitAdjustment(after, after));
    var s1 := AdjustQuiet(o, s, a, actor, ReadAdjusted(after), InsertAdjustment(after, after));
    var s2 := AdjustQuiet(o, s1, a, actor, InsertAdjustment(after, after), CommitAdjustment(after, after));
    MidwayFurther(s, a, s1, s2, x1, x2);
    t := CommitsAdjustment(o, s2, a, actor, after);
    EndsMidway(s, a, s2, t, x2, actor.(stage := AdjustDone));
  }

  lemma AdjustsUser(o: State, s: State, a: ActorId, actor: Actor, after: Credits) returns (t: State)
    requires Leads(o, a, s) && IsAdjust(s, a, actor, UpdateUser) && !Blocked(s, a, actor.user)
    requires after == s.db.users[actor.user].balance.Plus(InBucket(actor.bucket, actor.amount)) && after.NonNegative()
    ensures Leads(o, a, t) && Midway(s, a, t, actor.(stage := ReadAdjusted(after)))
  {
    t := AdjustMoves(o, s, a, actor, UpdateUser, ReadAdjusted(after), LockUser(actor.user));
    LockStep(s, a, actor.(stage := ReadAdjusted(after)), actor.user);
  }

  // user_credit_adjust's transaction.
  lemma AdjustAlone(s: State, a: ActorId, actor: Actor) returns (t: State)
    requires IsAdjust(s, a, actor, UpdateUser) && !Blocked(s, a, actor.user) && actor.amount != 0
    ensures Leads(s, a, t) && Ended(s, a, t, actor.(stage := AdjustDone))
    ensures Concluded(s, t, Billing.Adjust(s.db, actor.user, actor.bucket, actor.amount, actor.now), s.failures)
  {
    var after := s.db.users[actor.user].balance.Plus(InBucket(actor.bucket, actor.amount));
    LeadsNowhere(s, a);
    if !after.NonNegative() {
      t := AdjustMoves(s, s, a, actor, UpdateUser, AdjustDone, RollBack);
    } else {
      var s1 := AdjustsUser(s, s, a, actor, after);
      t := AdjustsOn(s, s1, a, actor, after);
      EndsMidway(s, a, s1, t, actor.(stage := ReadAdjusted(after)), actor.(stage := AdjustDone));
    }
  }
}
