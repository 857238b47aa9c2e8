/**
 Whole requests at the statement grain, from their first command to their answer with nobody in between: they leave
 and answer what the endpoints leave and answer in one step.
 */
module Requests {
  import opened Options
  import opened Ledger
  import opened Billing
  import opened Interleaving
  import opened Alone
  import Routes

  function FrontOf(s: State): Routes.Front {
    Routes.Front(s.db, s.keys, s.queue)
  }

  // A request that passes every check before the transaction.
  function Admitted(row: Job): Routes.Request {
    Routes.Request(row, true, true, Credits(row.charged, 0))
  }

  // Where a request ends whose answer is this: an error is told apart by the transaction that raised it.
  predicate AnsweredAs(end: CreatePc, reply: Routes.JobReply) {
    match reply
    case Created(j) => end == Answered(j)
    case Replayed(j) => end == Answered(j)
    case Rejected(_) => end == Refused
  }

  lemma SetTwice(actors: map<ActorId, Actor>, a: ActorId, x: Actor, y: Actor)
    ensures actors[a := x][a := y] == actors[a := y]
  {
  }

  // A statement that does nothing but move its request on
  lemma CreateGoes(o: State, s: State, a: ActorId, row: Job, now: Time, pc: CreatePc, pc': CreatePc) returns (t: State)
    requires Leads(o, a, s) && IsCreate(s, a, row, now, pc) && CreateStep(s, a, row, now, pc) == (pc', Nothing)
    ensures Leads(o, a, t) && t == s.(actors := s.actors[a := Create(row, now, pc')])
  {
    t := CreateMoves(o, s, a, row, now, pc, pc', Nothing);
  }

  predicate Saved(s: State, t: State, a: ActorId, row: Job) {
    && t.db == s.db && t.queue == [a] + s.queue && t.receipts == s.receipts
    && t.keys == if Cached(row) then s.keys[KeyOf(row).value := a] else s.keys
  }

  // After its COMMIT a request caches its key and queues its job.
  lemma SavesAndPushes(o: State, s: State, a: ActorId, row: Job, now: Time) returns (t: State)
    requires Leads(o, a, s) && IsCreate(s, a, row, now, SaveKey)
    ensures Leads(o, a, t) && t.actors == s.actors[a := Create(row, now, Answered(a))] && Saved(s, t, a, row)
  {
    var s1 := Saves(o, s, a, row, now);
    t := CreateMoves(o, s1, a, row, now, Push, Answered(a), Enqueue(a));
    SetTwice(s.actors, a, Create(row, now, Push), Create(row, now, Answered(a)));
  }

  lemma Saves(o: State, s: State, a: ActorId, row: Job, now: Time) returns (t: State)
    requires Leads(o, a, s) && IsCreate(s, a, row, now, SaveKey)
    ensures Leads(o, a, t)
    ensures t == s.(actors := s.actors[a := Create(row, now, Push)], keys := if Cached(row) then s.keys[KeyOf(row).value := a] else s.keys)
  {
    t := CreateMoves(o, s, a, row, now, SaveKey, Push, if Cached(row) then CacheJob(KeyOf(row).value, a) else Nothing);
  }

  // As far as the INSERT of the job: a stale cached id has been dropped by then.
  predicate AtInsert(s: State, t: State, a: ActorId, row: Job, now: Time) {
    && IsCreate(t, a, row, now, InsertJob) && t.actors == s.actors[a := Create(row, now, InsertJob)]
    && t.db == s.db && t.failures == s.failures && t.locks == s.locks && t.inserting == s.inserting && t.queue == s.queue
    && t.keys == if Cached(row) then s.keys - {KeyOf(row).value} else s.keys
  }

  lemma Drops(o: State, s: State, a: ActorId, row: Job, now: Time) returns (t: State)
    requires Leads(o, a, s) && IsCreate(s, a, row, now, DropKey) && Cached(row)
    ensures Leads(o, a, t)
    ensures t == s.(actors := s.actors[a := Create(row, now, InsertJob)], keys := s.keys - {KeyOf(row).value})
  {
    t := CreateMoves(o, s, a, row, now, DropKey, InsertJob, DropJob(KeyOf(row).value));
  }

  lemma LooksUp(s: State, a: ActorId, row: Job, now: Time) returns (t: State)
    requires IsCreate(s, a, row, now, GetKey)
    requires !(Cached(row) && KeyOf(row).value in s.keys && s.keys[KeyOf(row).value] in s.db.jobs)
    ensures Leads(s, a, t) && AtInsert(s, t, a, row, now)
  {
    LeadsNowhere(s, a);
    if Cached(row) && KeyOf(row).value in s.keys {
      var hit := s.keys[KeyOf(row).value];
      var s1 := CreateGoes(s, s, a, row, now, GetKey, FindJob(hit));
      var s2 := CreateGoes(s, s1, a, row, now, FindJob(hit), DropKey);
      t := Drops(s, s2, a, row, now);
      SetTwice(s.actors, a, Create(row, now, FindJob(hit)), Create(row, now, DropKey));
      SetTwice(s.actors, a, Create(row, now, DropKey), Create(row, now, InsertJob));
    } else {
      t := CreateGoes(s, s, a, row, now, GetKey, InsertJob);
      assert Cached(row) ==> s.keys - {KeyOf(row).value} == s.keys;
    }
  }

  // A cached id of a job that is there is answered at once.
  lemma Replays(s: State, a: ActorId, row: Job, now: Time, hit: JobId) returns (t: State)
    requires IsCreate(s, a, row, now, GetKey) && Cached(row) && KeyOf(row).value in s.keys && s.keys[KeyOf(row).value] == hit
    requires hit in s.db.jobs
    ensures Leads(s, a, t) && t.actors == s.actors[a := Create(row, now, Answered(hit))]
    ensures Routes.Submitted(FrontOf(s), Admitted(row), a, now) == (FrontOf(t), Routes.Replayed(hit))
  {
    LeadsNowhere(s, a);
    var s1 := CreateGoes(s, s, a, row, now, GetKey, FindJob(hit));
    t := CreateGoes(s, s1, a, row, now, FindJob(hit), Answered(hit));
    SetTwice(s.actors, a, Create(row, now, FindJob(hit)), Create(row, now, Answered(hit)));
  }

  // What the route leaves and answers, once it has come to its transaction
  lemma SubmittedFrom(f: Routes.Front, row: Job, a: ActorId, now: Time, keys: map<Key, JobId>)
    requires !(Cached(row) && KeyOf(row).value in f.keys && f.keys[KeyOf(row).value] in f.db.jobs)
    requires keys == if Cached(row) then f.keys - {KeyOf(row).value} else f.keys
    ensures Routes.Submitted(f, Admitted(row), a, now)
         == match CreateJob(f.db, a, row, now)
            case Err(e) => (f.(keys := keys), Routes.Rejected(Routes.Raised(e)))
            case Ok(db) => (Routes.Front(db, if Cached(row) then keys[KeyOf(row).value := a] else keys, [a] + f.queue), Routes.Created(a))
  {
    if Cached(row) {
      assert keys[KeyOf(row).value := a] == f.keys[KeyOf(row).value := a];
    }
  }

  // The transaction, and what follows it
  lemma GoesThrough(s: State, a: ActorId, row: Job, now: Time) returns (t: State, end: CreatePc)
    requires IsCreate(s, a, row, now, InsertJob) && !Blocked(s, a, row.user)
    requires KeyOf(row).Some? ==> KeyOf(row).value !in s.inserting
    requires row.user in s.db.users ==> s.db.users[row.user].balance.NonNegative()
    ensures Leads(s, a, t) && t.actors == s.actors[a := Create(row, now, end)]
    ensures var r := CreateJob(s.db, a, row, now);
            if r.Err? then end == Refused && FrontOf(t) == FrontOf(s)
            else && end == Answered(a)
                 && FrontOf(t) == Routes.Front(r.value, if Cached(row) then s.keys[KeyOf(row).value := a] else s.keys, [a] + s.queue)
  {
    var pc;
    t, pc := CreateAlone(s, a, row, now);
    end := pc;
    if pc == SaveKey {
      var s1 := t;
      t := SavesAndPushes(s, s1, a, row, now);
      end := Answered(a);
      assert s1.actors[a := Create(row, now, end)] == s.actors[a := Create(row, now, end)];
    }
  }

  lemma CreatesAlone(s: State, a: ActorId, row: Job, now: Time) returns (t: State, end: CreatePc)
    requires IsCreate(s, a, row, now, GetKey) && !Blocked(s, a, row.user)
    requires !(Cached(row) && KeyOf(row).value in s.keys && s.keys[KeyOf(row).value] in s.db.jobs)
    requires KeyOf(row).Some? ==> KeyOf(row).value !in s.inserting
    requires row.user in s.db.users ==> s.db.users[row.user].balance.NonNegative()
    ensures Leads(s, a, t) && t.actors == s.actors[a := Create(row, now, end)]
    ensures var (front, reply) := Routes.Submitted(FrontOf(s), Admitted(row), a, now);
            FrontOf(t) == front && AnsweredAs(end, reply)
  {
    var s1 := LooksUp(s, a, row, now);
    SubmittedFrom(FrontOf(s), row, a, now, s1.keys);
    t, end := GoesThrough(s1, a, row, now);
    LeadsOn(s, a, s1, t);
    assert s1.actors[a := Create(row, now, end)] == s.actors[a := Create(row, now, end)];
  }

  // POST /v1/jobs from its look into the cache to its answer.
  lemma CreateRequestAlone(s: State, a: ActorId, row: Job, now: Time) returns (t: State, end: CreatePc)
    requires IsCreate(s, a, row, now, GetKey) && !Blocked(s, a, row.user)
    requires KeyOf(row).Some? ==> KeyOf(row).value !in s.inserting
    requires row.user in s.db.users ==> s.db.users[row.user].balance.NonNegative()
    ensures Leads(s, a, t) && t.actors == s.actors[a := Create(row, now, end)]
    ensures var (front, reply) := Routes.Submitted(FrontOf(s), Admitted(row), a, now);
            FrontOf(t) == front && AnsweredAs(end, reply)
  {
    if Cached(row) && KeyOf(row).value in s.keys && s.keys[KeyOf(row).value] in s.db.jobs {
      end := Answered(s.keys[KeyOf(row).value]);
      t := Replays(s, a, row, now, s.keys[KeyOf(row).value]);
    } else {
      t, end := CreatesAlone(s, a, row, now);
    }
  }

  // --- Top-ups ---

  // The row of an earlier top-up of that user and transaction id
  predicate IsKnown(s: State, actor: Actor)
    requires actor.TopUp?
  {
    exists i :: 0 <= i < |s.db.ledger| && s.db.ledger[i].user == actor.user && s.db.ledger[i].external == Some(actor.external)
  }

  // A statement that does nothing but move its request on
  lemma TopUpGoes(o: State, s: State, a: ActorId, actor: Actor, pc: TopUpPc, pc': TopUpPc) returns (t: State)
    requires Leads(o, a, s) && IsTopUp(s, a, actor, pc)
    requires TopUpStep(s, a, actor.user, actor.amount, actor.external, actor.key, actor.now, pc) == (pc', Nothing)
    ensures Leads(o, a, t) && t == s.(actors := s.actors[a := actor.(pc := pc')])
  {
    t := TopUpMoves(o, s, a, actor, pc, pc', Nothing);
  }

  // topup from its look into the cache to the start of its transaction, or to the reply that was given before
  lemma Checks(s: State, a: ActorId, actor: Actor) returns (t: State, pc: TopUpPc)
    requires IsTopUp(s, a, actor, GetReceipt)
    ensures Leads(s, a, t) && t == s.(actors := s.actors[a := actor.(pc := pc)])
    ensures pc == if (actor.key.Some? && actor.key.value.1 != "" && actor.key.value in s.receipts) || IsKnown(s, actor)
                  then Replayed else CreditUser
  {
    LeadsNowhere(s, a);
    if CachedReceipt(actor.key) && actor.key.value in s.receipts {
      t := TopUpGoes(s, s, a, actor, GetReceipt, Replayed);
      pc := Replayed;
    } else {
      pc := if IsKnown(s, actor) then Replayed else CreditUser;
      var s1 := TopUpGoes(s, s, a, actor, GetReceipt, FindTxn);
      t := TopUpGoes(s, s1, a, actor, FindTxn, pc);
      SetTwice(s.actors, a, actor.(pc := FindTxn), actor.(pc := pc));
    }
  }

  lemma SavesReceipt(o: State, s: State, a: ActorId, actor: Actor) returns (t: State)
    requires Leads(o, a, s) && IsTopUp(s, a, actor, SaveReceipt)
    ensures Leads(o, a, t)
    ensures t == s.(actors := s.actors[a := actor.(pc := Credited)],
                    receipts := if CachedReceipt(actor.key) then s.receipts[actor.key.value := (actor.user, actor.external)] else s.receipts)
  {
    t := TopUpMoves(o, s, a, actor, SaveReceipt, Credited,
                    if CachedReceipt(actor.key) then CacheReceipt(actor.key.value, actor.user, actor.external) else Nothing);
  }

  lemma CreditsAndSaves(s: State, a: ActorId, actor: Actor) returns (t: State)
    requires IsTopUp(s, a, actor, CreditUser) && !Blocked(s, a, actor.user) && actor.amount > 0
    requires s.db.users[actor.user].balance.NonNegative() && !IsKnown(s, actor)
    ensures Leads(s, a, t) && t.actors == s.actors[a := actor.(pc := Credited)] && t.keys == s.keys && t.queue == s.queue
    ensures Billing.TopUp(s.db, actor.user, actor.amount, actor.external, actor.now) == Ok(t.db)
    ensures t.receipts == if CachedReceipt(actor.key) then s.receipts[actor.key.value := (actor.user, actor.external)] else s.receipts
  {
    TopUpMeans(s.db, actor.user, actor.amount, actor.external, actor.now);
    var s1, pc := TopUpAlone(s, a, actor);
    t := SavesReceipt(s, s1, a, actor);
    assert s1.actors[a := actor.(pc := Credited)] == s.actors[a := actor.(pc := Credited)];
  }

  // POST /v1/billing/topup of a known user, from its look into the cache to its answer: a cached reply or a known
  // transaction id is answered and moves nothing; a new one is credited, and its reply cached.
  lemma TopUpRequestAlone(s: State, a: ActorId, actor: Actor) returns (t: State)
    requires IsTopUp(s, a, actor, GetReceipt) && !Blocked(s, a, actor.user) && actor.amount > 0
    requires s.db.users[actor.user].balance.NonNegative()
    ensures Leads(s, a, t) && t.keys == s.keys && t.queue == s.queue
    ensures if (actor.key.Some? && actor.key.value.1 != "" && actor.key.value in s.receipts) || IsKnown(s, actor)
            then t == s.(actors := s.actors[a := actor.(pc := Replayed)])
            else && t.actors == s.actors[a := actor.(pc := Credited)]
                 && Billing.TopUp(s.db, actor.user, actor.amount, actor.external, actor.now) == Ok(t.db)
                 && t.receipts == if actor.key.Some? && actor.key.value.1 != ""
                                  then s.receipts[actor.key.value := (actor.user, actor.external)] else s.receipts
  {
    var pc;
    t, pc := Checks(s, a, actor);
    if pc == CreditUser {
      var s1 := t;
      t := CreditsAndSaves(s1, a, actor);
      LeadsOn(s, a, s1, t);
      assert s1.actors[a := actor.(pc := Credited)] == s.actors[a := actor.(pc := Credited)];
    }
  }
}
