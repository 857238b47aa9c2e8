/**
 What the interleavings do allow: runs in which a claim that holds of serial or orderly runs fails.
 */
module Races {
  import opened Options
  import opened Ledger
  import opened Billing
  import opened Interleaving
  import opened Alone
  import Serial
  import opened Reconcile

  ghost predicate Reachable(s: State) {
    exists steps :: Run(steps) == s
  }

  lemma Reach(s: State, step: Step) returns (t: State)
    requires Reachable(s)
    ensures Reachable(t) && t == Next(s, step)
  {
    var steps :| Run(steps) == s;
    RunFromThen(EMPTY, steps, step);
    t := Next(s, step);
    assert Run(steps + [step]) == t;
  }

  // No transaction holds anything.
  predicate Quiet(s: State) {
    s.locks == map[] && s.jobLocks == map[] && s.inserting == map[]
  }

  lemma LedIsReachable(s: State, a: ActorId, t: State)
    requires Reachable(s) && Leads(s, a, t)
    ensures Reachable(t)
  {
    var p :| Run(p) == s;
    var q :| Own(q, a) && RunFrom(s, q) == t;
    RunFromOn(EMPTY, p, q);
    assert Run(p + q) == t;
  }

  lemma StaysQuiet(s: State, a: ActorId, t: State, actor: Actor)
    requires Quiet(s) && Ended(s, a, t, actor)
    ensures Quiet(t)
  {
    assert Without(s.locks, a) == map[];
    assert Without(s.jobLocks, a) == map[];
    assert Without(s.inserting, a) == map[];
  }

  // A new actor has come as far as this without holding or committing anything.
  predicate Arrived(s: State, t: State, a: ActorId, actor: Actor) {
    t.db == s.db && t.failures == s.failures
    && t.locks == s.locks && t.jobLocks == s.jobLocks && t.inserting == s.inserting
    && t.actors == s.actors[a := actor]
  }

  // --- A stale balance_after, and what reconciliation makes of it ---

  lemma Registered(u: UserId, user: User) returns (t: State)
    requires user.balance == Credits(user.grant, 0)
    ensures Reachable(t) && t == EMPTY.(db := EMPTY.db.(users := map[u := user]))
  {
    assert Run([]) == EMPTY;
    t := Reach(EMPTY, Register(u, user));
  }

  lemma ReadsOn(s: State, a: ActorId, row: Job, now: Time, read: Credits) returns (t: State)
    requires IsCreate(s, a, row, now, GetKey) && row.key.None?
    requires row.user in s.db.users && read == s.db.users[row.user].balance
    ensures Leads(s, a, t) && Arrived(s, t, a, Create(row, now, ChargeUser(read)))
  {
    LeadsNowhere(s, a);
    t := CreateMoves(s, s, a, row, now, GetKey, InsertJob, Nothing);
    t := CreateMoves(s, t, a, row, now, InsertJob, ReadUser, Nothing);
    t := CreateMoves(s, t, a, row, now, ReadUser, ChargeUser(read), Nothing);
  }

  // create_job without an Idempotency-Key, as far as its read of the balance
  lemma BeginsAndReads(s: State, a: ActorId, row: Job, now: Time, read: Credits) returns (t: State)
    requires Reachable(s) && a !in s.actors && row.status == Pending && row.key.None?
    requires row.user in s.db.users && read == s.db.users[row.user].balance
    ensures Reachable(t) && Arrived(s, t, a, Create(row, now, ChargeUser(read)))
  {
    var begun := Reach(s, Begin(a, Create(row, now, GetKey)));
    t := ReadsOn(begun, a, row, now, read);
    LedIsReachable(begun, a, t);
  }

  // ... and from there to its COMMIT, whatever the balance has become by then
  lemma ChargesNow(s: State, a: ActorId, row: Job, now: Time, read: Credits, split: Credits, after: Credits) returns (t: State)
    requires Reachable(s) && Quiet(s) && IsCreate(s, a, row, now, ChargeUser(read)) && row.user in s.db.users
    requires CalculateCreditSplit(read, row.charged) == Ok(split) && split.NonNegative()
    requires after == s.db.users[row.user].balance.Plus(split.Negated()) && after.NonNegative()
    ensures Reachable(t) && Quiet(t) && t.actors == s.actors[a := Create(row, now, SaveKey)]
    ensures Left(t, Post(s.db.(jobs := s.db.jobs[a := row]), row.user, after, Charged(row.user, split, read, a, now)),
                 s.failures[a := 0])
  {
    LeadsNowhere(s, a);
    t := ChargesOn(s, s, a, row, now, read, split, after);
    LedIsReachable(s, a, t);
    StaysQuiet(s, a, t, Create(row, now, SaveKey));
  }

  // Two requests read the balance before either charges it.
  lemma BothRead(user: User, row: Job, a: ActorId, b: ActorId, now: Time, later: Time) returns (t: State)
    requires user.balance == Credits(user.grant, 0) && row.key.None? && row.status == Pending && a != b
    ensures Reachable(t) && Quiet(t) && |t.db.ledger| == 0 && t.db.users == map[row.user := user]
    ensures IsCreate(t, a, row, now, ChargeUser(user.balance)) && IsCreate(t, b, row, later, ChargeUser(user.balance))
  {
    var s := Registered(row.user, user);
    s := BeginsAndReads(s, a, row, now, user.balance);
    t := BeginsAndReads(s, b, row, later, user.balance);
  }

  lemma BothCharge(s: State, user: User, row: Job, a: ActorId, b: ActorId, now: Time, later: Time, split: Credits)
    returns (t: State)
    requires Reachable(s) && Quiet(s) && s.db.users == map[row.user := user] && a != b
    requires IsCreate(s, a, row, now, ChargeUser(user.balance)) && IsCreate(s, b, row, later, ChargeUser(user.balance))
    requires CalculateCreditSplit(user.balance, row.charged) == Ok(split) && split.NonNegative()
    requires user.balance.Plus(split.Negated()).Plus(split.Negated()).NonNegative()
    ensures Reachable(t)
    ensures t.db.users == map[row.user := user.(balance := user.balance.Plus(split.Negated()).Plus(split.Negated()))]
    ensures t.db.ledger == s.db.ledger + Charged(row.user, split, user.balance, a, now)
                                       + Charged(row.user, split, user.balance, b, later)
  {
    var once := user.balance.Plus(split.Negated());
    var mid := ChargesNow(s, a, row, now, user.balance, split, once);
    t := ChargesNow(mid, b, row, later, user.balance, split, once.Plus(split.Negated()));
  }

  // Both succeed, and the second one's rows show what the first one's show.
  lemma StaleCharge(user: User, row: Job, a: ActorId, b: ActorId, now: Time, later: Time, split: Credits)
    returns (t: State)
    requires user.balance == Credits(user.grant, 0) && row.key.None? && row.status == Pending && a != b
    requires CalculateCreditSplit(user.balance, row.charged) == Ok(split) && split.NonNegative()
    requires user.balance.Plus(split.Negated()).Plus(split.Negated()).NonNegative()
    ensures Reachable(t)
    ensures t.db.users == map[row.user := user.(balance := user.balance.Plus(split.Negated()).Plus(split.Negated()))]
    ensures t.db.ledger == Charged(row.user, split, user.balance, a, now) + Charged(row.user, split, user.balance, b, later)
  {
    var s := BothRead(user, row, a, b, now, later);
    t := BothCharge(s, user, row, a, b, now, later, split);
  }

  // The later row is the latest one of its line, and shows the balance as if the other charge had not been.
  lemma LatestIsStale(ledger: seq<Txn>, u: UserId, users: map<UserId, User>, users': map<UserId, User>)
    requires |ledger| == 2 && u in users && ReconciledTo(users, ledger, users')
    requires Serial.SameLine(ledger[0], u, Free) && Serial.SameLine(ledger[1], u, Free)
    requires ledger[0].createdAt < ledger[1].createdAt
    ensures u in users' && users'[u].balance.free == ledger[1].balanceAfter
  {
    assert ledger[1] in ledger;
    assert LineRepaired(ledger, u, Free, users[u].balance.At(Free), users'[u].balance.At(Free));
    assert !IsLatest(ledger, 0);
  }

  // A user with twice the cost of a job submits two at once: nothing is left, and reconciliation takes one
  // charge back.
  lemma ReconcileBreaksABalance(u: UserId, a: ActorId, b: ActorId, cost: nat) returns (t: State)
    requires cost > 0 && a != b
    ensures Reachable(t) && u in t.db.users && t.db.users[u].grant == 2 * cost && t.db.users[u].balance.free == 0
    ensures forall users': map<UserId, User> :: ReconciledTo(t.db.users, t.db.ledger, users') ==> u in users' && users'[u].balance.free == cost
  {
    var user := User(0, "", Credits(2 * cost, 0), 2 * cost);
    var row := Job(0, u, cost, None, 0, 0, Pending, 0);
    var split := Credits(cost, 0);
    t := StaleCharge(user, row, a, b, 1, 2, split);
    assert |t.db.ledger| == 2;
    forall users': map<UserId, User> | ReconciledTo(t.db.users, t.db.ledger, users') ensures u in users' && users'[u].balance.free == cost {
      LatestIsStale(t.db.ledger, u, t.db.users, users');
    }
  }

  // --- Exact rows that are stamped out of order ---

  lemma ChecksOn(s: State, a: ActorId, actor: Actor) returns (t: State)
    requires IsTopUp(s, a, actor, GetReceipt) && actor.key.None?
    requires !ExternalTaken(s.db.ledger, actor.user, actor.external)
    ensures Leads(s, a, t) && Arrived(s, t, a, actor.(pc := CreditUser))
  {
    LeadsNowhere(s, a);
    t := TopUpMoves(s, s, a, actor, GetReceipt, FindTxn, Nothing);
    t := TopUpMoves(s, t, a, actor, FindTxn, CreditUser, Nothing);
  }

  // topup without an Idempotency-Key, as far as the start of its transaction
  lemma BeginsTopUp(s: State, a: ActorId, actor: Actor) returns (t: State)
    requires Reachable(s) && a !in s.actors && actor.TopUp? && actor.pc == GetReceipt
    requires actor.user in s.db.users && actor.amount > 0 && actor.key.None?
    requires !ExternalTaken(s.db.ledger, actor.user, actor.external)
    ensures Reachable(t) && Arrived(s, t, a, actor.(pc := CreditUser))
  {
    var begun := Reach(s, Begin(a, actor));
    t := ChecksOn(begun, a, actor);
    LedIsReachable(begun, a, t);
  }

  // ... and from there to its COMMIT
  lemma TopsUpNow(s: State, a: ActorId, actor: Actor, after: Credits) returns (t: State)
    requires Reachable(s) && Quiet(s) && IsTopUp(s, a, actor, CreditUser)
    requires after == s.db.users[actor.user].balance.Plus(Credits(0, actor.amount)) && after.NonNegative()
    requires !ExternalTaken(s.db.ledger, actor.user, actor.external)
    ensures Reachable(t) && Quiet(t) && t.actors == s.actors[a := actor.(pc := SaveReceipt)]
    ensures t.db == Post(s.db, actor.user, after, [TopUpRow(actor, after)])
  {
    LeadsNowhere(s, a);
    t := TopsUpOn(s, s, a, actor, after);
    LedIsReachable(s, a, t);
    StaysQuiet(s, a, t, actor.(pc := SaveReceipt));
  }

  // The transaction that began first commits last: both rows show the balance their commit left, but the later
  // stamp is on the earlier row.
  lemma InvertedTopUps(user: User, first: Actor, a: ActorId, second: Actor, b: ActorId) returns (t: State)
    requires user.balance == Credits(user.grant, 0) && a != b
    requires first.TopUp? && second.TopUp? && first.pc == GetReceipt == second.pc && first.key.None? && second.key.None?
    requires first.user == second.user && first.external != second.external && first.amount > 0 && second.amount > 0
    ensures Reachable(t)
    ensures t.db.users == map[first.user := user.(balance := Credits(user.grant, second.amount + first.amount))]
    ensures t.db.ledger == [TopUpRow(second, Credits(user.grant, second.amount)),
                            TopUpRow(first, Credits(user.grant, second.amount + first.amount))]
  {
    var s := Registered(first.user, user);
    s := BeginsTopUp(s, a, first);
    s := BeginsTopUp(s, b, second);
    var mid, end := Credits(user.grant, second.amount), Credits(user.grant, second.amount + first.amount);
    s := TopsUpNow(s, b, second, mid);
    t := TopsUpNow(s, a, first, end);
  }

  lemma BothExact(db: Store, u: UserId)
    requires u in db.users && |db.ledger| == 2
    requires Serial.SameLine(db.ledger[0], u, Paid) && Serial.SameLine(db.ledger[1], u, Paid)
    requires db.ledger[0].balanceAfter == db.ledger[0].amount
    requires db.ledger[1].balanceAfter == db.ledger[0].amount + db.ledger[1].amount
    ensures Serial.Exact(db)
  {
    Serial.SumNext(db.ledger, 0, OfUser(u, Paid));
    Serial.SumNext(db.ledger, 1, OfUser(u, Paid));
    forall i | 0 <= i < |db.ledger| ensures Serial.ExactAt(db, i) {
      assert i == 0 || i == 1;
    }
  }

  // Two top-ups of one user, both rows exact and the balance right: every reconciliation takes the first one away.
  lemma ReconcileBreaksExactRows(u: UserId, a: ActorId, b: ActorId, amount: nat) returns (t: State)
    requires amount > 0 && a != b
    ensures Reachable(t) && Serial.Exact(t.db) && DistinctTimes(t.db.ledger)
    ensures u in t.db.users && t.db.users[u].balance.paid == 2 * amount
    ensures forall users': map<UserId, User> :: ReconciledTo(t.db.users, t.db.ledger, users') ==> u in users' && users'[u].balance.paid == amount
  {
    var first := TopUp(u, amount, "a", None, 1, GetReceipt);
    var second := TopUp(u, amount, "b", None, 2, GetReceipt);
    var user := User(0, "", Credits(0, 0), 0);
    t := InvertedTopUps(user, first, a, second, b);
    BothExact(t.db, u);
    forall users': map<UserId, User> | ReconciledTo(t.db.users, t.db.ledger, users') ensures u in users' && users'[u].balance.paid == amount {
      FirstIsLatest(t.db.ledger, u, t.db.users, users');
    }
  }

  lemma FirstIsLatest(ledger: seq<Txn>, u: UserId, users: map<UserId, User>, users': map<UserId, User>)
    requires |ledger| == 2 && u in users && ReconciledTo(users, ledger, users')
    requires Serial.SameLine(ledger[0], u, Paid) && Serial.SameLine(ledger[1], u, Paid)
    requires ledger[1].createdAt < ledger[0].createdAt
    ensures u in users' && users'[u].balance.paid == ledger[0].balanceAfter
  {
    assert ledger[1] in ledger;
    assert LineRepaired(ledger, u, Paid, users[u].balance.At(Paid), users'[u].balance.At(Paid));
    assert !IsLatest(ledger, 1);
  }

  // --- Paid credits spent before free ones ---

  // user_credit_adjust with nobody in between
  lemma AdjustsNow(s: State, a: ActorId, actor: Actor, after: Credits) returns (t: State)
    requires Reachable(s) && Quiet(s) && a !in s.actors && actor.Adjust? && actor.stage == UpdateUser
    requires actor.user in s.db.users && actor.amount != 0
    requires after == s.db.users[actor.user].balance.Plus(InBucket(actor.bucket, actor.amount)) && after.NonNegative()
    ensures Reachable(t) && Quiet(t) && t.actors == s.actors[a := actor.(stage := AdjustDone)]
    ensures t.db.users == s.db.users[actor.user := s.db.users[actor.user].(balance := after)]
  {
    var begun := Reach(s, Begin(a, actor));
    t := AdjustAlone(begun, a, actor);
    LedIsReachable(begun, a, t);
    StaysQuiet(begun, a, t, actor.(stage := AdjustDone));
  }

  // A user who has topped up has a request read a balance without free credits.
  lemma ReadsPaidOnly(user: User, topUp: Actor, b: ActorId, row: Job, a: ActorId, now: Time) returns (t: State)
    requires user.balance == Credits(0, 0) && user.grant == 0 && a != b
    requires topUp.TopUp? && topUp.pc == GetReceipt && topUp.key.None? && topUp.amount > 0 && topUp.user == row.user
    requires row.key.None? && row.status == Pending
    ensures Reachable(t) && Quiet(t) && t.actors.Keys == {a, b} && t.db.users == map[row.user := user.(balance := Credits(0, topUp.amount))]
    ensures IsCreate(t, a, row, now, ChargeUser(Credits(0, topUp.amount)))
  {
    var s := Registered(row.user, user);
    s := BeginsTopUp(s, b, topUp);
    s := TopsUpNow(s, b, topUp, Credits(0, topUp.amount));
    t := BeginsAndReads(s, a, row, now, Credits(0, topUp.amount));
  }

  // A request reads a balance of paid credits only; an adjustment then gives free ones. The charge takes the paid
  // credits it had read, all of them, and leaves the free ones, enough for the job as they may be.
  lemma PaidSpentBeforeFree(u: UserId, a: ActorId, b: ActorId, c: ActorId, cost: nat, gift: nat) returns (t: State)
    requires cost > 0 && gift > 0 && a != b && a != c && b != c
    ensures Reachable(t) && u in t.db.users && t.db.users[u].balance == Credits(gift, 0)
    ensures a in t.db.jobs && t.db.jobs[a].charged == cost
  {
    var user := User(0, "", Credits(0, 0), 0);
    var row := Job(0, u, cost, None, 0, 0, Pending, 0);
    var s := ReadsPaidOnly(user, TopUp(u, cost, "a", None, 1, GetReceipt), b, row, a, 2);
    var given := AdjustsNow(s, c, Actor.Adjust(u, Free, gift, 3, UpdateUser), Credits(gift, cost));
    t := ChargesNow(given, a, row, 2, Credits(0, cost), Credits(0, cost), Credits(gift, 0));
  }

  // --- A job failed twice ---

  // A whole _fail_job with nobody in between
  lemma FailsNow(s: State, a: ActorId, j: JobId, now: Time) returns (t: State)
    requires Reachable(s) && Quiet(s) && a !in s.actors
    requires j in s.db.jobs && s.db.jobs[j].user in s.db.users && j in s.failures
    ensures Reachable(t) && Quiet(t) && t.actors == s.actors[a := Fail(j, now, FailDone)]
    ensures Left(t, FailJob(s.db, j, now), s.failures[j := s.failures[j] + 1])
  {
    var begun := Reach(s, Begin(a, Fail(j, now, ReadCharges)));
    t := FailAlone(begun, a, j, now);
    LedIsReachable(begun, a, t);
    StaysQuiet(begun, a, t, Fail(j, now, FailDone));
  }

  lemma ChargedOnce(u: UserId, user: User, row: Job, j: JobId, split: Credits) returns (t: State)
    requires row.user == u && row.key.None? && row.status == Pending && user.balance == Credits(user.grant, 0)
    requires split == Credits(row.charged, 0) && row.charged == user.grant > 0
    ensures Reachable(t) && Quiet(t) && t.actors.Keys == {j} && t.failures == map[j := 0]
    ensures t.db.users == map[u := user.(balance := user.balance.Plus(split.Negated()))] && t.db.jobs == map[j := row]
    ensures Charges(t.db.ledger, j) == split
  {
    var read := user.balance;
    var s := Registered(u, user);
    s := BeginsAndReads(s, j, row, 1, read);
    t := ChargesNow(s, j, row, 1, read, split, read.Plus(split.Negated()));
    JobSumsAfter(j, [], u, split.Negated(), JobCharge, read.Plus(split.Negated()), Some(j), None, 1);
    assert [] + Charged(u, split, read, j, 1) == Charged(u, split, read, j, 1);
  }

  lemma PaysBack(db: Store, j: JobId, u: UserId, user: User, charge: Credits, now: Time)
    requires j in db.jobs && db.jobs[j].user == u && u in db.users && db.users[u] == user
    requires Charges(db.ledger, j) == charge && charge.NonNegative() && user.balance.NonNegative()
    ensures var after := FailJob(db, j, now);
            && u in after.users && after.users[u] == user.(balance := user.balance.Plus(charge))
            && j in after.jobs && after.jobs[j].user == u && Charges(after.ledger, j) == charge
  {
    JobSumsAfter(j, db.ledger, u, charge, Refund, user.balance.Plus(charge), Some(j), None, now);
  }

  // _fail_job does not look for an earlier refund: run twice on one job, it pays the charge back twice, and the
  // user ends up with more than ever came in.
  lemma FailedTwicePaysTwice(u: UserId, j: JobId, a: ActorId, b: ActorId, cost: nat) returns (t: State)
    requires cost > 0 && j != a && j != b && a != b
    ensures Reachable(t) && j in t.failures && t.failures[j] == 2
    ensures u in t.db.users && t.db.users[u].grant == cost && t.db.users[u].balance.free == 2 * cost
  {
    var user := User(0, "", Credits(cost, 0), cost);
    var row := Job(0, u, cost, None, 0, 0, Pending, 0);
    var split := Credits(cost, 0);
    var s := ChargedOnce(u, user, row, j, split);
    PaysBack(s.db, j, u, s.db.users[u], split, 2);
    var once := FailsNow(s, a, j, 2);
    PaysBack(once.db, j, u, once.db.users[u], split, 3);
    t := FailsNow(once, b, j, 3);
  }
}
