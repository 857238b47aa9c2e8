/**
 What every interleaving keeps: exact bookkeeping with refunds counted, balances never below zero, one job and
 one charge per idempotency key, one credit per external transaction id.
 */
module Safety {
  import opened Options
  import opened Ledger
  import opened Billing
  import opened Interleaving

  // --- What holds of each actor, at each of its program points ---

  // a holds u's row, which it left at `after`, d away from the committed balance.
  ghost predicate Holds(s: State, a: ActorId, u: UserId, d: Credits, after: Credits) {
    && u in s.locks && s.locks[u] == a
    && u in s.db.users
    && after == s.db.users[u].balance.Plus(d)
    && after.NonNegative()
  }

  predicate BeforeCommit(pc: CreatePc) {
    !pc.SaveKey? && !pc.Push? && !pc.Answered? && !pc.Gone?
  }

  predicate InTransaction(pc: CreatePc) {
    pc.ReadUser? || pc.ChargeUser? || pc.InsertFreeCharge? || pc.InsertPaidCharge? || pc.CommitCharge?
  }

  ghost predicate KeyHeld(s: State, a: ActorId, row: Job) {
    KeyOf(row).Some? ==>
      && KeyOf(row).value in s.inserting
      && s.inserting[KeyOf(row).value] == a
      && !KeyTaken(s.db, row)
  }

  // The charge was split over the balance read, whatever the balance is by now.
  ghost predicate Charging(s: State, a: ActorId, row: Job, read: Credits, split: Credits, after: Credits) {
    && Holds(s, a, row.user, split.Negated(), after)
    && read.NonNegative()
    && CalculateCreditSplit(read, row.charged) == Ok(split)
  }

  ghost predicate IsJobOf(s: State, j: JobId, key: Key) {
    j in s.db.jobs && KeyOf(s.db.jobs[j]) == Some(key)
  }

  ghost predicate CreateOk(s: State, a: ActorId, row: Job, now: Time, pc: CreatePc) {
    && row.status == Pending
    && (BeforeCommit(pc) ==> a !in s.db.jobs)
    && (InTransaction(pc) ==> KeyHeld(s, a, row))
    && match pc
       case FindJob(hit) => Cached(row) && IsJobOf(s, hit, KeyOf(row).value)
       case DropKey => false
       case ChargeUser(read) => read.NonNegative()
       case InsertFreeCharge(read, split, after) => Charging(s, a, row, read, split, after)
       case InsertPaidCharge(read, split, after, rows) =>
         && Charging(s, a, row, read, split, after)
         && rows == (if split.free > 0
                     then [Row(row.user, split.Negated(), Free, JobCharge, read.Plus(split.Negated()), Some(a), None, now)]
                     else [])
       case CommitCharge(read, split, after, rows) =>
         && Charging(s, a, row, read, split, after)
         && rows == Rows(row.user, split.Negated(), JobCharge, read.Plus(split.Negated()), Some(a), None, now)
       case SaveKey => a in s.db.jobs && KeyOf(s.db.jobs[a]) == KeyOf(row)
       case Push => a in s.db.jobs && KeyOf(s.db.jobs[a]) == KeyOf(row)
       case Answered(reply) => reply in s.db.jobs && KeyOf(s.db.jobs[reply]) == KeyOf(row)
       case _ => true
  }

  predicate Something(back: Credits) {
    back.free > 0 || back.paid > 0
  }

  ghost predicate Refunding(s: State, a: ActorId, j: JobId, back: Credits, after: Credits)
    requires j in s.db.jobs
  {
    back == Charges(s.db.ledger, j) && Something(back) && Holds(s, a, s.db.jobs[j].user, back, after)
  }

  ghost predicate RefundReady(s: State, a: ActorId, j: JobId, now: Time, written: Option<Credits>, rows: seq<Txn>)
    requires j in s.db.jobs
  {
    var back := Charges(s.db.ledger, j);
    match written
    case None => back == Credits(0, 0) && rows == []
    case Some(after) =>
      && Something(back) && Holds(s, a, s.db.jobs[j].user, back, after)
      && rows == Rows(s.db.jobs[j].user, back, Refund, after, Some(j), None, now)
  }

  ghost predicate FailOk(s: State, a: ActorId, j: JobId, now: Time, pc: FailPc) {
    && j in s.db.jobs
    && match pc
       case RefundUser(back) => back == Charges(s.db.ledger, j) && Something(back)
       case ReadBack(back, after) => Refunding(s, a, j, back, after)
       case InsertFreeRefund(back, after, seen) => Refunding(s, a, j, back, after) && seen == after
       case InsertPaidRefund(back, after, seen, rows) =>
         && Refunding(s, a, j, back, after) && seen == after
         && rows == (if back.free > 0 then [Row(s.db.jobs[j].user, back, Free, Refund, seen, Some(j), None, now)] else [])
       case MarkFailed(written, rows) => RefundReady(s, a, j, now, written, rows)
       case CommitFailure(written, rows) => RefundReady(s, a, j, now, written, rows)
       case _ => true
  }

  // A row of this user and transaction id credits this amount.
  ghost predicate CreditedWith(ledger: seq<Txn>, u: UserId, external: string, amount: int) {
    exists t :: t in ledger && t.user == u && t.external == Some(external) && t.amount == amount
  }

  lemma CreditedIsTaken(ledger: seq<Txn>, u: UserId, external: string, amount: int)
    requires CreditedWith(ledger, u, external, amount)
    ensures ExternalTaken(ledger, u, external)
  {
    var t :| t in ledger && t.user == u && t.external == Some(external);
    var i :| 0 <= i < |ledger| && ledger[i] == t;
  }

  ghost predicate TopUpOk(s: State, a: ActorId, u: UserId, amount: int, external: string, key: Option<Key>,
                          pc: TopUpPc)
  {
    && u in s.db.users && amount > 0
    && match pc
       case ReadCredited(after) => Holds(s, a, u, Credits(0, amount), after)
       case InsertTopUp(after, seen) => Holds(s, a, u, Credits(0, amount), after) && seen == after
       case CommitTopUp(after, seen) =>
         Holds(s, a, u, Credits(0, amount), after) && seen == after && !ExternalTaken(s.db.ledger, u, external)
       case SaveReceipt => CreditedWith(s.db.ledger, u, external, amount)
       case Credited => CreditedWith(s.db.ledger, u, external, amount)
       case _ => true
  }

  ghost predicate AdjustOk(s: State, a: ActorId, u: UserId, b: Bucket, amount: int, pc: AdjustPc) {
    && u in s.db.users && amount != 0
    && match pc
       case ReadAdjusted(after) => Holds(s, a, u, InBucket(b, amount), after)
       case InsertAdjustment(after, seen) => Holds(s, a, u, InBucket(b, amount), after) && seen == after
       case CommitAdjustment(after, seen) => Holds(s, a, u, InBucket(b, amount), after) && seen == after
       case _ => true
  }

  ghost predicate ActorOk(s: State, a: ActorId)
    requires a in s.actors
  {
    match s.actors[a]
    case Create(row, now, pc) => CreateOk(s, a, row, now, pc)
    case Fail(j, now, pc) => FailOk(s, a, j, now, pc)
    case TopUp(u, amount, external, key, _, pc) => TopUpOk(s, a, u, amount, external, key, pc)
    case Adjust(u, b, amount, _, pc) => AdjustOk(s, a, u, b, amount, pc)
  }

  // --- What holds of the tables and caches ---

  ghost predicate UniqueKeys(s: Store) {
    forall i, j {:trigger SameKey(s.jobs[i], s.jobs[j])} ::
      i in s.jobs && j in s.jobs && SameKey(s.jobs[i], s.jobs[j]) ==> i == j
  }

  ghost predicate UniqueExternals(ledger: seq<Txn>) {
    forall i, k :: 0 <= i < k < |ledger| && ledger[i].external.Some? && ledger[i].user == ledger[k].user ==>
                     ledger[i].external != ledger[k].external
  }

  predicate SameIdentity(x: User, y: User) {
    x.integration == y.integration && x.external == y.external
  }

  ghost predicate UniqueUsers(s: Store) {
    forall u, v {:trigger SameIdentity(s.users[u], s.users[v])} ::
      u in s.users && v in s.users && SameIdentity(s.users[u], s.users[v]) ==> u == v
  }

  ghost predicate CachesOk(s: State) {
    && (forall k {:trigger IsJobOf(s, s.keys[k], k)} :: k in s.keys ==> IsJobOf(s, s.keys[k], k))
    && (forall k :: k in s.receipts ==> ExternalTaken(s.db.ledger, s.receipts[k].0, s.receipts[k].1))
  }

  ghost predicate TablesOk(db: Store, failures: Failures) {
    && Books(db, failures)
    && UniqueKeys(db)
    && UniqueExternals(db.ledger)
    && UniqueUsers(db)
  }

  ghost predicate IdsKnown(s: State) {
    forall j :: j in s.db.jobs ==> j in s.actors
  }

  ghost predicate Inv(s: State) {
    && TablesOk(s.db, s.failures)
    && CachesOk(s)
    && IdsKnown(s)
    && forall a {:trigger ActorOk(s, a)} :: a in s.actors ==> ActorOk(s, a)
  }

  // --- What one actor's step leaves alone ---

  ghost predicate SameJob(x: Job, y: Job) {
    x.user == y.user && x.charged == y.charged && x.integration == y.integration && x.key == y.key
  }

  ghost predicate ReservedBy(inserting: map<Key, ActorId>, row: Job, a: ActorId) {
    KeyOf(row).Some? ==> KeyOf(row).value in inserting && inserting[KeyOf(row).value] == a
  }

  ghost predicate ActorsKept(s: State, s': State, a: Option<ActorId>) {
    && (forall b :: b in s.actors && Some(b) != a ==> b in s'.actors && s'.actors[b] == s.actors[b])
    && (forall b :: b in s'.actors && Some(b) != a ==> b in s.actors)
    && (forall u :: u in s.locks && Some(s.locks[u]) != a ==> u in s'.locks && s'.locks[u] == s.locks[u])
    && (forall k :: k in s.inserting && Some(s.inserting[k]) != a ==>
          k in s'.inserting && s'.inserting[k] == s.inserting[k])
  }

  ghost predicate LedgerGrew(ledger: seq<Txn>, ledger': seq<Txn>) {
    && (forall u, e :: ExternalTaken(ledger, u, e) ==> ExternalTaken(ledger', u, e))
    && (forall u, e, n :: CreditedWith(ledger, u, e, n) ==> CreditedWith(ledger', u, e, n))
  }

  ghost predicate RowUntouched(db: Store, db': Store, u: UserId) {
    && (u in db.users ==> u in db'.users && db'.users[u].balance == db.users[u].balance)
    && (forall e :: ExternalTaken(db'.ledger, u, e) ==> ExternalTaken(db.ledger, u, e))
  }

  ghost predicate JobKept(db: Store, db': Store, j: JobId) {
    && j in db.jobs && j in db'.jobs
    && SameJob(db.jobs[j], db'.jobs[j])
    && Charges(db'.ledger, j) == Charges(db.ledger, j)
  }

  ghost predicate JobsKept(db: Store, db': Store) {
    forall j {:trigger JobKept(db, db', j)} :: j in db.jobs ==> JobKept(db, db', j)
  }

  ghost predicate TablesKept(db: Store, db': Store, locks: map<UserId, ActorId>, inserting: map<Key, ActorId>,
                             a: Option<ActorId>)
  {
    && (forall u :: u in db.users ==> u in db'.users)
    && (forall u {:trigger RowUntouched(db, db', u)} :: u in locks && Some(locks[u]) != a ==> RowUntouched(db, db', u))
    && LedgerGrew(db.ledger, db'.ledger)
    && JobsKept(db, db')
    && (forall j :: j in db'.jobs && j !in db.jobs ==> Some(j) == a && ReservedBy(inserting, db'.jobs[j], j))
  }

  // Nothing any actor but a relies on has moved.
  ghost predicate Undisturbed(s: State, s': State, a: Option<ActorId>) {
    ActorsKept(s, s', a) && TablesKept(s.db, s'.db, s.locks, s.inserting, a)
  }

  lemma UnchangedTablesAreKept(db: Store, locks: map<UserId, ActorId>, inserting: map<Key, ActorId>, a: Option<ActorId>)
    ensures TablesKept(db, db, locks, inserting, a)
  {
  }

  lemma OthersStayOk(s: State, s': State, a: Option<ActorId>, b: ActorId)
    requires Undisturbed(s, s', a) && b in s.actors && Some(b) != a && ActorOk(s, b)
    ensures ActorOk(s', b)
  {
    match s.actors[b]
    case Create(row, now, pc) => CreatorStaysOk(s, s', a, b, row, now, pc);
    case Fail(j, now, pc) =>
      assert JobKept(s.db, s'.db, j);
      assert RowUntouched(s.db, s'.db, s.db.jobs[j].user) || !HeldBy(s, b, s.db.jobs[j].user);
    case TopUp(u, amount, external, key, _, pc) =>
      assert RowUntouched(s.db, s'.db, u) || !HeldBy(s, b, u);
    case Adjust(u, c, amount, _, pc) =>
      assert RowUntouched(s.db, s'.db, u) || !HeldBy(s, b, u);
  }

  predicate HeldBy(s: State, b: ActorId, u: UserId) {
    u in s.locks && s.locks[u] == b
  }

  lemma CreatorStaysOk(s: State, s': State, a: Option<ActorId>, b: ActorId, row: Job, now: Time, pc: CreatePc)
    requires Undisturbed(s, s', a) && Some(b) != a && CreateOk(s, b, row, now, pc)
    ensures CreateOk(s', b, row, now, pc)
  {
    assert RowUntouched(s.db, s'.db, row.user) || !HeldBy(s, b, row.user);
    if InTransaction(pc) && KeyOf(row).Some? {
      forall i | i in s'.db.jobs ensures !SameKey(row, s'.db.jobs[i]) {
        if i in s.db.jobs {
          assert JobKept(s.db, s'.db, i) && !SameKey(row, s.db.jobs[i]);
        }
      }
    }
    assert b in s.db.jobs ==> JobKept(s.db, s'.db, b);
    match pc {
      case FindJob(hit) => assert JobKept(s.db, s'.db, hit);
      case Answered(reply) => assert JobKept(s.db, s'.db, reply);
      case _ =>
    }
  }

  // --- Steps that commit nothing ---

  ghost predicate Allowed(s: State, a: ActorId, e: Effect) {
    match e
    case LockUser(u) => !Blocked(s, a, u)
    case ReserveKey(k) => k !in s.inserting
    case Publish(_, _) => false
    case CacheJob(k, j) => IsJobOf(s, j, k)
    case CacheReceipt(_, u, external) => ExternalTaken(s.db.ledger, u, external)
    case _ => true
  }

  lemma AllowedKeepsCaches(s: State, a: ActorId, actor: Actor, e: Effect)
    requires CachesOk(s) && IdsKnown(s) && Allowed(s, a, e)
    ensures CachesOk(Apply(s, a, actor, e)) && IdsKnown(Apply(s, a, actor, e))
  {
    var s' := Apply(s, a, actor, e);
    forall k | k in s'.keys ensures IsJobOf(s', s'.keys[k], k) {
      assert k in s.keys ==> IsJobOf(s, s.keys[k], k);
    }
  }

  lemma AllowedDisturbsNobody(s: State, a: ActorId, actor: Actor, e: Effect)
    requires Allowed(s, a, e)
    ensures var s' := Apply(s, a, actor, e); s'.db == s.db && s'.failures == s.failures && Undisturbed(s, s', Some(a))
  {
    UnchangedTablesAreKept(s.db, s.locks, s.inserting, Some(a));
  }

  ghost predicate Sound(s: State, u: UserId) {
    u in s.db.users ==> s.db.users[u].balance.NonNegative()
  }

  predicate Early(pc: CreatePc) {
    pc.GetKey? || pc.FindJob? || pc.DropKey? || pc.InsertJob?
  }

  // The next statement of the request does no more than it may, and leaves the request at a point it may be at.
  ghost predicate CreateGoesOn(s: State, a: ActorId, row: Job, now: Time, pc: CreatePc) {
    var (pc', e) := CreateStep(s, a, row, now, pc);
    Allowed(s, a, e) && CreateOk(Apply(s, a, Create(row, now, pc'), e), a, row, now, pc')
  }

  lemma GetKeyOk(s: State, a: ActorId, row: Job, now: Time)
    requires CreateOk(s, a, row, now, GetKey) && CachesOk(s)
    ensures CreateGoesOn(s, a, row, now, GetKey)
  {
    if Cached(row) && KeyOf(row).value in s.keys {
      assert IsJobOf(s, s.keys[KeyOf(row).value], KeyOf(row).value);
    }
  }

  lemma FindJobOk(s: State, a: ActorId, row: Job, now: Time, hit: JobId)
    requires CreateOk(s, a, row, now, FindJob(hit))
    ensures CreateGoesOn(s, a, row, now, FindJob(hit))
  {
  }

  lemma InsertJobOk(s: State, a: ActorId, row: Job, now: Time)
    requires CreateOk(s, a, row, now, InsertJob)
    ensures CreateGoesOn(s, a, row, now, InsertJob)
  {
    if !KeyTaken(s.db, row) && KeyOf(row).Some? && KeyOf(row).value !in s.inserting {
      assert KeyHeld(Apply(s, a, Create(row, now, ReadUser), ReserveKey(KeyOf(row).value)), a, row);
    }
  }

  lemma EarlyCreateStepOk(s: State, a: ActorId, row: Job, now: Time, pc: CreatePc)
    requires CreateOk(s, a, row, now, pc) && Early(pc) && CachesOk(s)
    ensures CreateGoesOn(s, a, row, now, pc)
  {
    match pc
    case GetKey => GetKeyOk(s, a, row, now);
    case FindJob(hit) => FindJobOk(s, a, row, now, hit);
    case InsertJob => InsertJobOk(s, a, row, now);
  }

  lemma ChargeUserStepOk(s: State, a: ActorId, row: Job, now: Time, pc: CreatePc)
    requires CreateOk(s, a, row, now, pc) && pc.ChargeUser? && Sound(s, row.user)
    ensures CreateGoesOn(s, a, row, now, pc)
  {
    var (pc', e) := CreateStep(s, a, row, now, pc);
    var t := Apply(s, a, Create(row, now, pc'), e);
    assert pc'.InsertFreeCharge? ==> KeyHeld(t, a, row) && Charging(t, a, row, pc.read, pc'.split, pc'.after);
  }

  lemma InsertFreeChargeOk(s: State, a: ActorId, row: Job, now: Time, pc: CreatePc)
    requires CreateOk(s, a, row, now, pc) && pc.InsertFreeCharge?
    ensures CreateGoesOn(s, a, row, now, pc)
  {
    var t := Apply(s, a, Create(row, now, CreateStep(s, a, row, now, pc).0), Nothing);
    assert KeyHeld(t, a, row) && Charging(t, a, row, pc.read, pc.split, pc.after);
  }

  lemma InsertPaidChargeOk(s: State, a: ActorId, row: Job, now: Time, pc: CreatePc)
    requires CreateOk(s, a, row, now, pc) && pc.InsertPaidCharge?
    ensures CreateGoesOn(s, a, row, now, pc)
  {
    var t := Apply(s, a, Create(row, now, CreateStep(s, a, row, now, pc).0), Nothing);
    assert KeyHeld(t, a, row) && Charging(t, a, row, pc.read, pc.split, pc.after);
  }

  lemma SaveKeyOk(s: State, a: ActorId, row: Job, now: Time)
    requires CreateOk(s, a, row, now, SaveKey)
    ensures CreateGoesOn(s, a, row, now, SaveKey)
  {
  }

  lemma LateCreateStepOk(s: State, a: ActorId, row: Job, now: Time, pc: CreatePc)
    requires CreateOk(s, a, row, now, pc) && !Early(pc) && !pc.CommitCharge? && Sound(s, row.user)
    ensures CreateGoesOn(s, a, row, now, pc)
  {
    match pc
    case ChargeUser(_) => ChargeUserStepOk(s, a, row, now, pc);
    case InsertFreeCharge(_, _, _) => InsertFreeChargeOk(s, a, row, now, pc);
    case InsertPaidCharge(_, _, _, _) => InsertPaidChargeOk(s, a, row, now, pc);
    case SaveKey => SaveKeyOk(s, a, row, now);
    case _ =>
  }

  lemma FailStepOk(s: State, a: ActorId, j: JobId, now: Time, pc: FailPc)
    requires FailOk(s, a, j, now, pc) && !pc.CommitFailure? && Sound(s, s.db.jobs[j].user)
    requires s.db.jobs[j].user in s.db.users && j in s.failures
    ensures var (pc', e) := FailStep(s, a, j, now, pc);
            Allowed(s, a, e) && FailOk(Apply(s, a, Fail(j, now, pc'), e), a, j, now, pc')
  {
    ChargesAreNonNegative(s.db.ledger, j);
  }

  lemma TopUpStepOk(s: State, a: ActorId, u: UserId, amount: int, external: string, key: Option<Key>, now: Time,
                    pc: TopUpPc)
    requires TopUpOk(s, a, u, amount, external, key, pc) && !pc.CommitTopUp? && Sound(s, u)
    ensures var (pc', e) := TopUpStep(s, a, u, amount, external, key, now, pc);
            Allowed(s, a, e)
            && TopUpOk(Apply(s, a, TopUp(u, amount, external, key, now, pc'), e), a, u, amount, external, key, pc')
  {
    if pc.SaveReceipt? {
      CreditedIsTaken(s.db.ledger, u, external, amount);
    }
  }

  lemma AdjustStepOk(s: State, a: ActorId, u: UserId, b: Bucket, amount: int, now: Time, pc: AdjustPc)
    requires AdjustOk(s, a, u, b, amount, pc) && !pc.CommitAdjustment? && Sound(s, u)
    ensures var (pc', e) := AdjustStep(s, a, u, b, amount, now, pc);
            Allowed(s, a, e)
            && AdjustOk(Apply(s, a, Actor.Adjust(u, b, amount, now, pc'), e), a, u, b, amount, pc')
  {
  }

  // --- Commits ---

  lemma ExternalsAfter(ledger: seq<Txn>, rows: seq<Txn>)
    ensures LedgerGrew(ledger, ledger + rows)
    ensures forall u, e :: ExternalTaken(ledger + rows, u, e) ==>
              ExternalTaken(ledger, u, e) || exists t :: t in rows && t.user == u && t.external == Some(e)
  {
    forall u, e | ExternalTaken(ledger, u, e) ensures ExternalTaken(ledger + rows, u, e) {
      var i :| 0 <= i < |ledger| && ledger[i].user == u && ledger[i].external == Some(e);
      assert (ledger + rows)[i] == ledger[i];
    }
    forall u, e, n | CreditedWith(ledger, u, e, n) ensures CreditedWith(ledger + rows, u, e, n) {
      var t :| t in ledger && t.user == u && t.external == Some(e) && t.amount == n;
      assert t in ledger + rows;
    }
    forall u, e | ExternalTaken(ledger + rows, u, e) && !ExternalTaken(ledger, u, e)
      ensures exists t :: t in rows && t.user == u && t.external == Some(e)
    {
      var i :| 0 <= i < |ledger + rows| && (ledger + rows)[i].user == u && (ledger + rows)[i].external == Some(e);
      assert (ledger + rows)[i] == rows[i - |ledger|];
    }
  }

  // A commit that posts rows for the one user whose row it holds.
  lemma PostKeepsTables(db: Store, db': Store, u: UserId, d: Credits, reason: Reason, shown: Credits,
                        job: Option<JobId>, external: Option<string>, now: Time,
                        locks: map<UserId, ActorId>, inserting: map<Key, ActorId>, a: ActorId)
    requires Posted(db, db', u, d, reason, shown, job, external, now)
    requires u in locks && locks[u] == a
    requires reason == JobCharge ==> job.Some? && job.value !in db.jobs
    requires forall j :: j in db.jobs ==> SameJob(db.jobs[j], db'.jobs[j])
    requires forall j :: j in db'.jobs && j !in db.jobs ==> j == a && ReservedBy(inserting, db'.jobs[j], j)
    ensures TablesKept(db, db', locks, inserting, Some(a))
  {
    var rows := Rows(u, d, reason, shown, job, external, now);
    RowsAreFor(u, d, reason, shown, job, external, now);
    ExternalsAfter(db.ledger, rows);
    forall j | j in db.jobs ensures JobKept(db, db', j) {
      JobSumsAfter(j, db.ledger, u, d, reason, shown, job, external, now);
    }
    forall v | v in locks && Some(locks[v]) != Some(a) ensures RowUntouched(db, db', v) {
    }
  }

  lemma PostKeepsExternalsUnique(ledger: seq<Txn>, u: UserId, d: Credits, reason: Reason, shown: Credits,
                                 job: Option<JobId>, external: Option<string>, now: Time)
    requires UniqueExternals(ledger)
    requires external.Some? ==> d.free == 0 && !ExternalTaken(ledger, u, external.value)
    ensures UniqueExternals(ledger + Rows(u, d, reason, shown, job, external, now))
  {
    RowsAreFor(u, d, reason, shown, job, external, now);
    var rows := Rows(u, d, reason, shown, job, external, now);
    var ledger' := ledger + rows;
    forall i, k | 0 <= i < k < |ledger'| && ledger'[i].external.Some? && ledger'[i].user == ledger'[k].user
      ensures ledger'[i].external != ledger'[k].external
    {
      if k >= |ledger| {
        assert ledger'[k] == rows[k - |ledger|] && ledger'[k] in rows;
      }
    }
  }

  lemma UsersStayUnique(db: Store, db': Store, u: UserId, after: Credits)
    requires UniqueUsers(db) && u in db.users && db'.users == db.users[u := db.users[u].(balance := after)]
    ensures UniqueUsers(db')
  {
    forall v, w | v in db'.users && w in db'.users && SameIdentity(db'.users[v], db'.users[w]) ensures v == w {
      assert SameIdentity(db.users[v], db.users[w]);
    }
  }

  lemma OldKeysStayUnique(db: Store, db': Store)
    requires UniqueKeys(db) && db'.jobs.Keys == db.jobs.Keys
    requires forall j :: j in db.jobs ==> SameJob(db.jobs[j], db'.jobs[j])
    ensures UniqueKeys(db')
  {
    forall i, j | i in db'.jobs && j in db'.jobs && SameKey(db'.jobs[i], db'.jobs[j]) ensures i == j {
      assert SameKey(db.jobs[i], db.jobs[j]);
    }
  }

  lemma NewKeyIsUnique(db: Store, db': Store, a: JobId, row: Job)
    requires UniqueKeys(db) && !KeyTaken(db, row) && db'.jobs == db.jobs[a := row]
    ensures UniqueKeys(db')
  {
    forall i, j | i in db'.jobs && j in db'.jobs && SameKey(db'.jobs[i], db'.jobs[j]) ensures i == j {
      if i != a && j != a {
        assert SameKey(db.jobs[i], db.jobs[j]);
      }
    }
  }

  lemma CachesFollowTables(s: State, s': State, a: Option<ActorId>)
    requires CachesOk(s) && IdsKnown(s) && Undisturbed(s, s', a)
    requires s'.keys == s.keys && s'.receipts == s.receipts && s.actors.Keys <= s'.actors.Keys
    requires a.Some? ==> a.value in s'.actors
    ensures CachesOk(s') && IdsKnown(s')
  {
    forall k | k in s'.keys ensures IsJobOf(s', s'.keys[k], k) {
      assert IsJobOf(s, s.keys[k], k) && JobKept(s.db, s'.db, s.keys[k]);
    }
  }

  ghost function ChargedDb(s: State, a: ActorId, row: Job, pc: CreatePc): Store
    requires pc.CommitCharge? && row.user in s.db.users
  {
    Post(s.db.(jobs := s.db.jobs[a := row]), row.user, pc.after, pc.rows)
  }

  // The charge is d, and its rows show `shown`.
  ghost predicate ChargeReady(s: State, a: ActorId, row: Job, now: Time, pc: CreatePc, d: Credits, shown: Credits) {
    && pc.CommitCharge? && a !in s.db.jobs && KeyHeld(s, a, row)
    && Holds(s, a, row.user, d, pc.after)
    && d.free <= 0 && d.paid <= 0 && d.free + d.paid + row.charged == 0
    && pc.rows == Rows(row.user, d, JobCharge, shown, Some(a), None, now)
  }

  lemma ChargeIsPosted(s: State, a: ActorId, row: Job, now: Time, pc: CreatePc, d: Credits, shown: Credits)
    requires ChargeReady(s, a, row, now, pc, d, shown)
    ensures Posted(s.db, ChargedDb(s, a, row, pc), row.user, d, JobCharge, shown, Some(a), None, now)
  {
  }

  lemma ChargeCommitKeepsTables(s: State, a: ActorId, row: Job, now: Time, pc: CreatePc, d: Credits, shown: Credits)
    requires ChargeReady(s, a, row, now, pc, d, shown)
    ensures TablesKept(s.db, ChargedDb(s, a, row, pc), s.locks, s.inserting, Some(a))
  {
    ChargeIsPosted(s, a, row, now, pc, d, shown);
    PostKeepsTables(s.db, ChargedDb(s, a, row, pc), row.user, d, JobCharge, shown, Some(a), None, now, s.locks, s.inserting, a);
  }

  lemma ChargeCommitOk(s: State, a: ActorId, row: Job, now: Time, pc: CreatePc, d: Credits, shown: Credits)
    requires TablesOk(s.db, s.failures) && ChargeReady(s, a, row, now, pc, d, shown)
    ensures TablesOk(ChargedDb(s, a, row, pc), s.failures[a := 0])
  {
    var db' := ChargedDb(s, a, row, pc);
    ChargeIsPosted(s, a, row, now, pc, d, shown);
    ChargeKeepsBooks(s.db, db', s.failures, a, d.Negated(), shown, now);
    PostKeepsExternalsUnique(s.db.ledger, row.user, d, JobCharge, shown, Some(a), None, now);
    UsersStayUnique(s.db, db', row.user, pc.after);
    NewKeyIsUnique(s.db, db', a, row);
  }

  ghost function FailedDb(s: State, j: JobId, pc: FailPc): Store
    requires pc.CommitFailure? && j in s.db.jobs && s.db.jobs[j].user in s.db.users
  {
    SetStatus(if pc.written.Some? then Post(s.db, s.db.jobs[j].user, pc.written.value, pc.rows) else s.db, j, Failed)
  }

  lemma RefundIsPosted(s: State, a: ActorId, j: JobId, now: Time, pc: FailPc)
    requires FailOk(s, a, j, now, pc) && pc.CommitFailure? && s.db.jobs[j].user in s.db.users
    ensures var u, back := s.db.jobs[j].user, Charges(s.db.ledger, j);
            Posted(s.db, FailedDb(s, j, pc), u, back, Refund, s.db.users[u].balance.Plus(back), Some(j), None, now)
  {
    var u, back := s.db.jobs[j].user, Charges(s.db.ledger, j);
    assert FailedDb(s, j, pc).users == s.db.users[u := s.db.users[u].(balance := s.db.users[u].balance.Plus(back))];
  }

  lemma FailCommitKeepsTables(s: State, a: ActorId, j: JobId, now: Time, pc: FailPc)
    requires FailOk(s, a, j, now, pc) && pc.CommitFailure? && s.db.jobs[j].user in s.db.users
    ensures TablesKept(s.db, FailedDb(s, j, pc), s.locks, s.inserting, Some(a))
  {
    if pc.written.Some? {
      var u, back := s.db.jobs[j].user, Charges(s.db.ledger, j);
      RefundIsPosted(s, a, j, now, pc);
      PostKeepsTables(s.db, FailedDb(s, j, pc), u, back, Refund, s.db.users[u].balance.Plus(back), Some(j), None, now,
                      s.locks, s.inserting, a);
    }
  }

  lemma RefundKeepsTablesOk(db: Store, db': Store, failures: Failures, j: JobId, after: Credits, now: Time)
    requires TablesOk(db, failures) && j in db.jobs && db'.jobs == db.jobs[j := db.jobs[j].(status := Failed)]
    requires Posted(db, db', db.jobs[j].user, Charges(db.ledger, j), Refund, after, Some(j), None, now)
    ensures TablesOk(db', failures[j := failures[j] + 1])
  {
    var u, back := db.jobs[j].user, Charges(db.ledger, j);
    RefundKeepsBooks(db, db', failures, j, back, after, now);
    PostKeepsExternalsUnique(db.ledger, u, back, Refund, after, Some(j), None, now);
    UsersStayUnique(db, db', u, db.users[u].balance.Plus(back));
    OldKeysStayUnique(db, db');
  }

  lemma FailCommitOk(s: State, a: ActorId, j: JobId, now: Time, pc: FailPc)
    requires TablesOk(s.db, s.failures) && FailOk(s, a, j, now, pc) && pc.CommitFailure?
    requires s.db.jobs[j].user in s.db.users
    ensures TablesOk(FailedDb(s, j, pc), s.failures[j := s.failures[j] + 1])
  {
    RefundIsPosted(s, a, j, now, pc);
    RefundKeepsTablesOk(s.db, FailedDb(s, j, pc), s.failures, j,
                        s.db.users[s.db.jobs[j].user].balance.Plus(Charges(s.db.ledger, j)), now);
  }

  // Top-ups and adjustments.
  lemma CreditCommitOk(s: State, a: ActorId, u: UserId, d: Credits, reason: Reason, after: Credits,
                       external: Option<string>, now: Time)
    requires TablesOk(s.db, s.failures) && Holds(s, a, u, d, after)
    requires reason == Topup || reason == AdminAdjustment
    requires external.Some? ==> reason == Topup && d.free == 0 && !ExternalTaken(s.db.ledger, u, external.value)
    ensures var db' := Post(s.db, u, after, Rows(u, d, reason, after, None, external, now));
            TablesOk(db', s.failures) && TablesKept(s.db, db', s.locks, s.inserting, Some(a))
  {
    var db' := Post(s.db, u, after, Rows(u, d, reason, after, None, external, now));
    CreditKeepsBooks(s.db, db', s.failures, u, d, reason, after, external, now);
    PostKeepsTables(s.db, db', u, d, reason, after, None, external, now, s.locks, s.inserting, a);
    PostKeepsExternalsUnique(s.db.ledger, u, d, reason, after, None, external, now);
    UsersStayUnique(s.db, db', u, after);
  }

  // --- Every step, every run ---

  lemma PublishOk(s: State, a: ActorId, actor: Actor, db: Store, failures: Failures)
    requires Inv(s) && TablesOk(db, failures) && TablesKept(s.db, db, s.locks, s.inserting, Some(a))
    requires ActorOk(Apply(s, a, actor, Publish(db, failures)), a)
    ensures Inv(Apply(s, a, actor, Publish(db, failures)))
  {
    var s' := Apply(s, a, actor, Publish(db, failures));
    CachesFollowTables(s, s', Some(a));
    forall b | b in s'.actors && b != a ensures ActorOk(s', b) {
      OthersStayOk(s, s', Some(a), b);
    }
  }

  lemma EffectOk(s: State, a: ActorId, actor: Actor, e: Effect)
    requires Inv(s) && Allowed(s, a, e) && ActorOk(Apply(s, a, actor, e), a)
    ensures Inv(Apply(s, a, actor, e))
  {
    var s' := Apply(s, a, actor, e);
    AllowedKeepsCaches(s, a, actor, e);
    AllowedDisturbsNobody(s, a, actor, e);
    forall b | b in s'.actors && b != a ensures ActorOk(s', b) {
      OthersStayOk(s, s', Some(a), b);
    }
  }

  lemma InvIsSound(s: State, u: UserId)
    requires Inv(s)
    ensures Sound(s, u)
  {
    assert u in s.db.users ==> UserBalanced(s.db, u);
  }

  lemma CreateStepOk(s: State, a: ActorId, row: Job, now: Time, pc: CreatePc)
    requires Inv(s) && a in s.actors && s.actors[a] == Create(row, now, pc) && !pc.CommitCharge?
    ensures CreateGoesOn(s, a, row, now, pc)
  {
    assert ActorOk(s, a);
    if Early(pc) {
      EarlyCreateStepOk(s, a, row, now, pc);
    } else {
      InvIsSound(s, row.user);
      LateCreateStepOk(s, a, row, now, pc);
    }
  }

  lemma CreateCommitOk(s: State, a: ActorId, row: Job, now: Time, pc: CreatePc)
    requires Inv(s) && a in s.actors && s.actors[a] == Create(row, now, pc) && pc.CommitCharge?
    ensures var (pc', e) := CreateStep(s, a, row, now, pc); Inv(Apply(s, a, Create(row, now, pc'), e))
  {
    assert ActorOk(s, a);
    var (pc', e) := CreateStep(s, a, row, now, pc);
    var d, shown := pc.split.Negated(), pc.read.Plus(pc.split.Negated());
    ChargeCommitOk(s, a, row, now, pc, d, shown);
    ChargeCommitKeepsTables(s, a, row, now, pc, d, shown);
    PublishOk(s, a, Create(row, now, pc'), e.db, e.failures);
  }

  lemma CreateAdvanceOk(s: State, a: ActorId, row: Job, now: Time, pc: CreatePc)
    requires Inv(s) && a in s.actors && s.actors[a] == Create(row, now, pc)
    ensures var (pc', e) := CreateStep(s, a, row, now, pc); Inv(Apply(s, a, Create(row, now, pc'), e))
  {
    if pc.CommitCharge? {
      CreateCommitOk(s, a, row, now, pc);
    } else {
      var (pc', e) := CreateStep(s, a, row, now, pc);
      CreateStepOk(s, a, row, now, pc);
      EffectOk(s, a, Create(row, now, pc'), e);
    }
  }

  lemma FailAdvanceOk(s: State, a: ActorId, j: JobId, now: Time, pc: FailPc)
    requires Inv(s) && a in s.actors && s.actors[a] == Fail(j, now, pc)
    ensures j in s.db.jobs && s.db.jobs[j].user in s.db.users && j in s.failures
    ensures var (pc', e) := FailStep(s, a, j, now, pc); Inv(Apply(s, a, Fail(j, now, pc'), e))
  {
    assert ActorOk(s, a);
    assert JobBalanced(s.db, j, s.failures[j]);
    var (pc', e) := FailStep(s, a, j, now, pc);
    if pc.CommitFailure? {
      FailCommitOk(s, a, j, now, pc);
      FailCommitKeepsTables(s, a, j, now, pc);
      PublishOk(s, a, Fail(j, now, pc'), e.db, e.failures);
    } else {
      InvIsSound(s, s.db.jobs[j].user);
      FailStepOk(s, a, j, now, pc);
      EffectOk(s, a, Fail(j, now, pc'), e);
    }
  }

  lemma TopUpCommitOk(s: State, a: ActorId, u: UserId, amount: int, external: string, key: Option<Key>, now: Time,
                      pc: TopUpPc)
    requires Inv(s) && TopUpOk(s, a, u, amount, external, key, pc) && pc.CommitTopUp?
    ensures var (pc', e) := TopUpStep(s, a, u, amount, external, key, now, pc);
            Inv(Apply(s, a, TopUp(u, amount, external, key, now, pc'), e))
  {
    var (pc', e) := TopUpStep(s, a, u, amount, external, key, now, pc);
    var d := Credits(0, amount);
    assert Rows(u, d, Topup, pc.seen, None, Some(external), now) == [Row(u, d, Paid, Topup, pc.seen, None, Some(external), now)];
    CreditCommitOk(s, a, u, d, Topup, pc.after, Some(external), now);
    assert e.db.ledger[|s.db.ledger|] in e.db.ledger && e.db.ledger[|s.db.ledger|].external == Some(external);
    PublishOk(s, a, TopUp(u, amount, external, key, now, pc'), e.db, e.failures);
  }

  lemma TopUpAdvanceOk(s: State, a: ActorId, u: UserId, amount: int, external: string, key: Option<Key>, now: Time,
                       pc: TopUpPc)
    requires Inv(s) && a in s.actors && s.actors[a] == TopUp(u, amount, external, key, now, pc)
    ensures u in s.db.users
    ensures var (pc', e) := TopUpStep(s, a, u, amount, external, key, now, pc);
            Inv(Apply(s, a, TopUp(u, amount, external, key, now, pc'), e))
  {
    assert ActorOk(s, a);
    if pc.CommitTopUp? {
      TopUpCommitOk(s, a, u, amount, external, key, now, pc);
    } else {
      var (pc', e) := TopUpStep(s, a, u, amount, external, key, now, pc);
      InvIsSound(s, u);
      TopUpStepOk(s, a, u, amount, external, key, now, pc);
      EffectOk(s, a, TopUp(u, amount, external, key, now, pc'), e);
    }
  }

  lemma AdjustCommitOk(s: State, a: ActorId, u: UserId, b: Bucket, amount: int, now: Time, pc: AdjustPc)
    requires Inv(s) && AdjustOk(s, a, u, b, amount, pc) && pc.CommitAdjustment?
    ensures var (pc', e) := AdjustStep(s, a, u, b, amount, now, pc);
            Inv(Apply(s, a, Actor.Adjust(u, b, amount, now, pc'), e))
  {
    var (pc', e) := AdjustStep(s, a, u, b, amount, now, pc);
    var d := InBucket(b, amount);
    assert Rows(u, d, AdminAdjustment, pc.seen, None, None, now) == [Row(u, d, b, AdminAdjustment, pc.seen, None, None, now)];
    CreditCommitOk(s, a, u, d, AdminAdjustment, pc.after, None, now);
    PublishOk(s, a, Actor.Adjust(u, b, amount, now, pc'), e.db, e.failures);
  }

  lemma AdjustAdvanceOk(s: State, a: ActorId, u: UserId, b: Bucket, amount: int, now: Time, pc: AdjustPc)
    requires Inv(s) && a in s.actors && s.actors[a] == Actor.Adjust(u, b, amount, now, pc)
    ensures u in s.db.users
    ensures var (pc', e) := AdjustStep(s, a, u, b, amount, now, pc);
            Inv(Apply(s, a, Actor.Adjust(u, b, amount, now, pc'), e))
  {
    assert ActorOk(s, a);
    var (pc', e) := AdjustStep(s, a, u, b, amount, now, pc);
    if pc.CommitAdjustment? {
      AdjustCommitOk(s, a, u, b, amount, now, pc);
    } else {
      InvIsSound(s, u);
      AdjustStepOk(s, a, u, b, amount, now, pc);
      EffectOk(s, a, Actor.Adjust(u, b, amount, now, pc'), e);
    }
  }

  lemma AdvanceOk(s: State, a: ActorId)
    requires Inv(s) && a in s.actors
    ensures Inv(Advanced(s, a))
  {
    match s.actors[a]
    case Create(row, now, pc) => CreateAdvanceOk(s, a, row, now, pc);
    case Fail(j, now, pc) => FailAdvanceOk(s, a, j, now, pc);
    case TopUp(u, amount, external, key, now, pc) => TopUpAdvanceOk(s, a, u, amount, external, key, now, pc);
    case Adjust(u, b, amount, now, pc) => AdjustAdvanceOk(s, a, u, b, amount, now, pc);
  }

  lemma AbortOk(s: State, a: ActorId)
    requires Inv(s) && a in s.actors
    ensures Inv(Apply(s, a, Stopped(s.actors[a]), RollBack))
  {
    assert ActorOk(s, a);
    EffectOk(s, a, Stopped(s.actors[a]), RollBack);
  }

  lemma BeginOk(s: State, a: ActorId, actor: Actor)
    requires Inv(s) && a !in s.actors && IsStart(s, actor)
    ensures Inv(Apply(s, a, actor, Nothing))
  {
    assert a !in s.db.jobs;
    EffectOk(s, a, actor, Nothing);
  }

  lemma RegisterOk(s: State, u: UserId, user: User)
    requires Inv(s) && u !in s.db.users && !Known(s.db, user) && user.balance == Credits(user.grant, 0)
    ensures Inv(s.(db := s.db.(users := s.db.users[u := user])))
  {
    var s' := s.(db := s.db.(users := s.db.users[u := user]));
    RegisterKeepsBooks(s.db, s.failures, u, user);
    assert UniqueUsers(s'.db);
    assert Undisturbed(s, s', None);
    CachesFollowTables(s, s', None);
    forall b | b in s'.actors ensures ActorOk(s', b) {
      OthersStayOk(s, s', None, b);
    }
  }

  lemma WriteOk(s: State, j: JobId, job: Job)
    requires Inv(s) && j in s.db.jobs && SameJob(s.db.jobs[j], job)
    ensures Inv(s.(db := s.db.(jobs := s.db.jobs[j := job])))
  {
    var s' := s.(db := s.db.(jobs := s.db.jobs[j := job]));
    StatusKeepsBooks(s.db, s.failures, j, job);
    OldKeysStayUnique(s.db, s'.db);
    assert Undisturbed(s, s', None);
    CachesFollowTables(s, s', None);
    forall b | b in s'.actors ensures ActorOk(s', b) {
      OthersStayOk(s, s', None, b);
    }
  }

  lemma ForgetOk(s: State, s': State)
    requires Inv(s) && s' == s.(keys := s'.keys, receipts := s'.receipts)
    requires forall k :: k in s'.keys ==> k in s.keys && s'.keys[k] == s.keys[k]
    requires forall k :: k in s'.receipts ==> k in s.receipts && s'.receipts[k] == s.receipts[k]
    ensures Inv(s')
  {
    UnchangedTablesAreKept(s.db, s.locks, s.inserting, None);
    forall k | k in s'.keys ensures IsJobOf(s', s'.keys[k], k) {
      assert IsJobOf(s, s.keys[k], k);
    }
    forall b | b in s'.actors ensures ActorOk(s', b) {
      OthersStayOk(s, s', None, b);
    }
  }

  lemma NextKeepsInv(s: State, step: Step)
    requires Inv(s)
    ensures Inv(Next(s, step))
  {
    match step
    case Register(u, user) =>
      if Next(s, step) != s {
        RegisterOk(s, u, user);
      }
    case Begin(a, actor) =>
      if Next(s, step) != s {
        BeginOk(s, a, actor);
      }
    case Advance(a) =>
      if a in s.actors {
        AdvanceOk(s, a);
      }
    case Abort(a) =>
      if a in s.actors {
        AbortOk(s, a);
      }
    case MarkRunning(j, now) =>
      if j in s.db.jobs {
        WriteOk(s, j, s.db.jobs[j].(status := Running, startedAt := now));
      }
    case MarkSucceeded(j) =>
      if j in s.db.jobs {
        WriteOk(s, j, s.db.jobs[j].(status := Succeeded));
      }
    case ForgetKey(k) => ForgetOk(s, Next(s, step));
    case ForgetReceipt(k) => ForgetOk(s, Next(s, step));
  }

  lemma {:induction false} RunFromKeepsInv(s: State, steps: seq<Step>)
    requires Inv(s)
    ensures Inv(RunFrom(s, steps))
    decreases |steps|
  {
    if steps != [] {
      NextKeepsInv(s, steps[0]);
      RunFromKeepsInv(Next(s, steps[0]), steps[1..]);
    }
  }

  lemma RunKeepsInv(steps: seq<Step>)
    ensures Inv(Run(steps))
  {
    RunFromKeepsInv(EMPTY, steps);
  }
}
