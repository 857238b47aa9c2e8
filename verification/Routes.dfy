/**
 POST /v1/jobs and POST /v1/billing/topup, one request at a time: the two layers of idempotency around the
 transactions, and the queue.
 */
module Routes {
  import opened Options
  import opened Ledger
  import opened Billing
  import opened Database

  datatype JobReply = Created(job: JobId) | Replayed(job: JobId) | Rejected(reason: Reject)

  datatype Reject = NotOffered | NotAdmitted | Raised(error: Error)

  // What the request came with: whether its job type is active, whether the rate limit and the file checks let it
  // through, and the balance its user had when it was authenticated.
  datatype Request = Request(job: Job, offered: bool, admitted: bool, seen: Credits)

  // The tables, the cached job ids and the queue.
  datatype Front = Front(db: Store, keys: map<Key, JobId>, queue: seq<JobId>)

  // What the request leaves and what it answers.
  ghost function Submitted(f: Front, r: Request, j: JobId, now: Time): (Front, JobReply) {
    if !r.offered then (f, Rejected(NotOffered))
    else if Cached(r.job) && KeyOf(r.job).value in f.keys && f.keys[KeyOf(r.job).value] in f.db.jobs
    then (f, Replayed(f.keys[KeyOf(r.job).value]))
    else
      var g := if Cached(r.job) then f.(keys := f.keys - {KeyOf(r.job).value}) else f;
      if !r.admitted then (g, Rejected(NotAdmitted))
      else if r.seen.Total() < r.job.charged then (g, Rejected(Raised(InsufficientCredits)))
      else
        match Billing.CreateJob(f.db, j, r.job, now)
        case Err(e) => (g, Rejected(Raised(e)))
        case Ok(db) =>
          (Front(db, if Cached(r.job) then f.keys[KeyOf(r.job).value := j] else f.keys, [j] + f.queue), Created(j))
  }

  // When each answer is given: the checks in the order of the route, each by what it looks at,
  lemma ChecksAnswer(f: Front, r: Request, j: JobId, now: Time)
    ensures var reply := Submitted(f, r, j, now).1;
            var key := (r.job.integration, if r.job.key.Some? then r.job.key.value else "");
            var repeated := key.1 != "" && key in f.keys && f.keys[key] in f.db.jobs;
            var asked := r.offered && !repeated && r.admitted;
            && (reply == Rejected(NotOffered) <==> !r.offered)
            && (reply.Replayed? <==> r.offered && repeated) && (reply.Replayed? ==> reply.job == f.keys[key])
            && (reply == Rejected(NotAdmitted) <==> r.offered && !repeated && !r.admitted)
            && (asked && r.seen.free + r.seen.paid < r.job.charged ==> reply == Rejected(Raised(InsufficientCredits)))
            && (reply.Replayed? || !r.offered ==> Submitted(f, r, j, now).0 == f)
            && (reply.Rejected? && r.offered ==> Submitted(f, r, j, now).0 == f.(keys := if key.1 != "" then f.keys - {key} else f.keys))
  {
  }

  // ... then what the transaction meets.
  lemma TransactionAnswers(f: Front, r: Request, j: JobId, now: Time)
    requires r.offered && r.admitted && r.seen.free + r.seen.paid >= r.job.charged
    requires !(r.job.key.Some? && r.job.key.value != "" && (r.job.integration, r.job.key.value) in f.keys
               && f.keys[(r.job.integration, r.job.key.value)] in f.db.jobs)
    ensures var s, reply := f.db, Submitted(f, r, j, now).1;
            var used := r.job.key.Some? && exists i :: i in s.jobs && s.jobs[i].key == r.job.key && s.jobs[i].integration == r.job.integration;
            var known := r.job.user in s.users;
            && (reply == Rejected(Raised(DuplicateIdempotencyKey)) <==> used)
            && (reply == Rejected(Raised(UserNotFound)) <==> !used && !known)
            && (!used && known ==>
                  var funds := s.users[r.job.user].balance;
                  && (reply == Rejected(Raised(InsufficientCredits)) <==> funds.free + funds.paid < r.job.charged)
                  && (reply.Created? <==> funds.free + funds.paid >= r.job.charged && (funds.free <= r.job.charged || funds.paid >= 0)))
            && (reply.Created? ==> reply.job == j && !used && known)
  {
    CreateJobMeans(f.db, j, r.job, now);
    ReserveAnswers(f.db, r.job.user, r.job.charged, j, now);
  }

  // So a job is created exactly when every check passes and the balance stored covers the cost.
  lemma AnswersCreated(f: Front, r: Request, j: JobId, now: Time)
    ensures Submitted(f, r, j, now).1.Created? <==>
              && r.offered && r.admitted && r.seen.free + r.seen.paid >= r.job.charged
              && !(r.job.key.Some? && r.job.key.value != "" && (r.job.integration, r.job.key.value) in f.keys
                   && f.keys[(r.job.integration, r.job.key.value)] in f.db.jobs)
              && !(r.job.key.Some? && exists i :: i in f.db.jobs && f.db.jobs[i].key == r.job.key
                                                  && f.db.jobs[i].integration == r.job.integration)
              && r.job.user in f.db.users
              && var b := f.db.users[r.job.user].balance;
                 b.free + b.paid >= r.job.charged && (b.free <= r.job.charged || b.paid >= 0)
  {
    ChecksAnswer(f, r, j, now);
    if r.offered && r.admitted && r.seen.free + r.seen.paid >= r.job.charged
       && !(r.job.key.Some? && r.job.key.value != "" && (r.job.integration, r.job.key.value) in f.keys
            && f.keys[(r.job.integration, r.job.key.value)] in f.db.jobs) {
      TransactionAnswers(f, r, j, now);
    }
  }

  // The user's credits go down by the cost, and the ledger gains charge rows of that user and job alone.
  ghost predicate ChargedFor(s: Store, t: Store, u: UserId, cost: nat, j: JobId) {
    && u in s.users && u in t.users && t.users == s.users[u := s.users[u].(balance := t.users[u].balance)]
    && t.users[u].balance.free + t.users[u].balance.paid == s.users[u].balance.free + s.users[u].balance.paid - cost
    && s.ledger <= t.ledger
    && forall i :: |s.ledger| <= i < |t.ledger| ==>
         t.ledger[i].user == u && t.ledger[i].job == Some(j) && t.ledger[i].reason == JobCharge
  }

  lemma CreationCharges(s: Store, j: JobId, job: Job, now: Time)
    requires Billing.CreateJob(s, j, job, now).Ok?
    ensures Billing.CreateJob(s, j, job, now).value.jobs == s.jobs[j := job]
    ensures ChargedFor(s, Billing.CreateJob(s, j, job, now).value, job.user, job.charged, j)
  {
  }

  datatype TopUpReply = Credited(user: UserId, paid: int, row: nat) | Refused(error: Error)

  class Api {
    const tables: Tables
    var keys: map<Key, JobId>
    var replies: map<Key, TopUpReply>
    var queue: seq<JobId>

    constructor (tables: Tables)
      ensures this.tables == tables && keys == map[] && replies == map[] && queue == []
    {
      this.tables := tables;
      keys, replies, queue := map[], map[], [];
    }

    function Value(): Front
      reads this, tables
    {
      Front(tables.Value(), keys, queue)
    }

    // `generated` is the id the INSERT generates.
    method CreateJob(r: Request, generated: JobId, now: Time) returns (reply: JobReply)
      requires generated !in tables.jobs
      modifies this`keys, this`queue, tables
      ensures (Value(), reply) == Submitted(old(Value()), r, generated, now)
      ensures reply.Replayed? ==>
                && Value() == old(Value()) && reply.job in tables.jobs
                && Cached(r.job) && KeyOf(r.job).value in keys && keys[KeyOf(r.job).value] == reply.job
      ensures reply.Rejected? ==> tables.Value() == old(tables.Value()) && queue == old(queue)
      ensures reply.Created? ==>
                && reply.job == generated && tables.jobs == old(tables.jobs)[generated := r.job]
                && queue == [generated] + old(queue)
                && (Cached(r.job) ==> keys == old(keys)[KeyOf(r.job).value := generated])
                && (!Cached(r.job) ==> keys == old(keys))
                && ChargedFor(old(tables.Value()), tables.Value(), r.job.user, r.job.charged, generated)
      ensures reply.Created? <==>
                && r.offered && r.admitted && r.seen.free + r.seen.paid >= r.job.charged
                && !(r.job.key.Some? && r.job.key.value != "" && (r.job.integration, r.job.key.value) in old(keys)
                     && old(keys)[(r.job.integration, r.job.key.value)] in old(tables.jobs))
                && !(r.job.key.Some? && exists i :: i in old(tables.jobs) && old(tables.jobs)[i].key == r.job.key
                                                    && old(tables.jobs)[i].integration == r.job.integration)
                && r.job.user in old(tables.users)
                && var b := old(tables.users)[r.job.user].balance;
                   b.free + b.paid >= r.job.charged && (b.free <= r.job.charged || b.paid >= 0)
    {
      AnswersCreated(Value(), r, generated, now);
      if !r.offered {
        return Rejected(NotOffered);
      }
      if Cached(r.job) {
        var key := (r.job.integration, r.job.key.value);
        if key in keys {
          if keys[key] in tables.jobs {
            return Replayed(keys[key]);
          }
          keys := keys - {key};
        }
        assert keys == old(keys) - {key};
      }
      if !r.admitted {
        return Rejected(NotAdmitted);
      }
      if r.seen.free + r.seen.paid < r.job.charged {
        return Rejected(Raised(InsufficientCredits));
      }
      var done := tables.CreateJob(generated, r.job, now);
      if done.Err? {
        return Rejected(Raised(done.error));
      }
      if Cached(r.job) {
        keys := keys[(r.job.integration, r.job.key.value) := generated];
        assert keys == old(keys)[KeyOf(r.job).value := generated];
      }
      CreationCharges(old(tables.Value()), generated, r.job, now);
      queue := [generated] + queue;
      return Created(generated);
    }

    // `grant` is the integration's default_free_credits, `generated` the id a new user row would get.
    method TopUp(integration: IntegrationId, external: string, amount: int, transaction: string, key: string,
                 grant: nat, generated: UserId, now: Time) returns (reply: TopUpReply)
      requires generated !in tables.users
      modifies this`replies, tables
      ensures amount <= 0 ==> reply == Refused(InvalidAmount) && tables.Value() == old(tables.Value()) && replies == old(replies)
      ensures amount > 0 && key != "" && (integration, key) in old(replies) ==>
                reply == old(replies)[(integration, key)] && tables.Value() == old(tables.Value()) && replies == old(replies)
      ensures amount > 0 && (key == "" || (integration, key) !in old(replies)) ==>
                ToppedUp(old(tables.Value()), tables.Value(), integration, external, amount, transaction, grant, generated, now, reply)
      ensures amount > 0 && (key == "" || (integration, key) !in old(replies)) && reply.Refused? ==>
                && tables.jobs == old(tables.jobs) && tables.ledger == old(tables.ledger) && replies == old(replies)
                && forall u :: u in old(tables.users) ==> u in tables.users && tables.users[u] == old(tables.users)[u]
      ensures amount > 0 && (key == "" || (integration, key) !in old(replies)) && reply.Credited? ==>
                replies == if key != "" && reply.row == |old(tables.ledger)| then old(replies)[(integration, key) := reply]
                           else old(replies)
    {
      if amount <= 0 {
        return Refused(InvalidAmount);
      }
      if key != "" && (integration, key) in replies {
        return replies[(integration, key)];
      }
      ghost var before := tables.Value();
      var u := tables.GetOrCreate(integration, external, grant, generated);
      assert Provided(before, tables.Value(), integration, external, grant, generated, u);
      if i :| 0 <= i < |tables.ledger| && tables.ledger[i].user == u && tables.ledger[i].external == Some(transaction) {
        assert IsRow(tables.ledger, i, u, transaction);
        return Credited(u, tables.users[u].balance.paid, i);
      }
      var row := |tables.ledger|;
      TopUpMeans(tables.Value(), u, amount, transaction, now);
      var done := tables.TopUp(u, amount, transaction, now);
      if done.Err? {
        return Refused(done.error);
      }
      reply := Credited(u, tables.users[u].balance.paid, row);
      if key != "" {
        replies := replies[(integration, key) := reply];
      }
    }
  }

  predicate Is(user: User, integration: IntegrationId, external: string) {
    user.integration == integration && user.external == external
  }

  // get_or_create: the user row that was there, or a new one.
  ghost predicate Provided(s: Store, mid: Store, integration: IntegrationId, external: string, grant: nat, generated: UserId,
                           u: UserId) {
    && u in mid.users && Is(mid.users[u], integration, external)
    && if exists v :: v in s.users && Is(s.users[v], integration, external) then mid == s
       else u == generated && mid == s.(users := s.users[u := User(integration, external, Credits(grant, 0), grant)])
  }

  // A row of the user with this transaction id
  predicate IsRow(ledger: seq<Txn>, i: nat, u: UserId, transaction: string) {
    i < |ledger| && ledger[i].user == u && ledger[i].external == Some(transaction)
  }

  // What an uncached top-up of a positive amount leaves and answers: the row of that user and transaction id that was
  // there, and nothing moved; else a new row, and its amount in the paid bucket, unless the balance forbids it.
  ghost predicate ToppedUp(s: Store, t: Store, integration: IntegrationId, external: string, amount: int, transaction: string,
                           grant: nat, generated: UserId, now: Time, reply: TopUpReply)
  {
    exists u, mid :: Provided(s, mid, integration, external, grant, generated, u) && Settles(mid, t, u, amount, transaction, now, reply)
  }

  ghost predicate Settles(mid: Store, t: Store, u: UserId, amount: int, transaction: string, now: Time, reply: TopUpReply)
    requires u in mid.users
  {
    var b := mid.users[u].balance;
    if exists i :: IsRow(mid.ledger, i, u, transaction) then
      t == mid && reply.Credited? && reply.user == u && reply.paid == b.paid && IsRow(mid.ledger, reply.row, u, transaction)
    else if b.free >= 0 && b.paid + amount >= 0 then
      && t.users == mid.users[u := mid.users[u].(balance := Credits(b.free, b.paid + amount))] && t.jobs == mid.jobs
      && t.ledger == mid.ledger + [Txn(u, amount, Paid, Topup, b.paid + amount, None, Some(transaction), now)]
      && reply == Credited(u, b.paid + amount, |mid.ledger|)
    else
      t == mid && reply == Refused(InvalidAmount)
  }

  // A known transaction id is answered with its row and the balance, and moves nothing.
  lemma KnownIsAnswered(s: Store, t: Store, integration: IntegrationId, external: string, amount: int, transaction: string,
                        grant: nat, generated: UserId, now: Time, reply: TopUpReply)
    requires ToppedUp(s, t, integration, external, amount, transaction, grant, generated, now, reply)
    requires exists u :: u in s.users && s.users[u].integration == integration && s.users[u].external == external
    requires forall u :: u in s.users && s.users[u].integration == integration && s.users[u].external == external ==>
               exists i :: 0 <= i < |s.ledger| && s.ledger[i].user == u && s.ledger[i].external == Some(transaction)
    ensures t == s && reply.Credited? && reply.user in s.users && reply.row < |s.ledger|
    ensures s.users[reply.user].integration == integration && s.users[reply.user].external == external
    ensures s.ledger[reply.row].user == reply.user && s.ledger[reply.row].external == Some(transaction)
    ensures reply.paid == s.users[reply.user].balance.paid
  {
    var v :| v in s.users && s.users[v].integration == integration && s.users[v].external == external;
    assert Is(s.users[v], integration, external);
    var u, mid :| Provided(s, mid, integration, external, grant, generated, u) && Settles(mid, t, u, amount, transaction, now, reply);
    var i :| 0 <= i < |s.ledger| && s.ledger[i].user == u && s.ledger[i].external == Some(transaction);
    assert IsRow(mid.ledger, i, u, transaction);
  }

  // A new one is credited whenever the balance is not negative: one paid row of its amount, to the user that was there
  // or to a new one with its grant.
  lemma NewIsCredited(s: Store, t: Store, integration: IntegrationId, external: string, amount: int, transaction: string,
                      grant: nat, generated: UserId, now: Time, reply: TopUpReply)
    requires ToppedUp(s, t, integration, external, amount, transaction, grant, generated, now, reply)
    requires amount > 0 && generated !in s.users && forall i :: 0 <= i < |s.ledger| ==> s.ledger[i].user in s.users
    requires forall u :: u in s.users && s.users[u].integration == integration && s.users[u].external == external ==>
               && s.users[u].balance.free >= 0 && s.users[u].balance.paid >= 0
               && forall i :: 0 <= i < |s.ledger| && s.ledger[i].user == u ==> s.ledger[i].external != Some(transaction)
    ensures reply.Credited? && reply.user in t.users
    ensures t.users[reply.user].integration == integration && t.users[reply.user].external == external
    ensures reply.user in s.users ==>
              && reply.paid == s.users[reply.user].balance.paid + amount
              && t.users[reply.user] == s.users[reply.user].(balance := Credits(s.users[reply.user].balance.free, reply.paid))
    ensures reply.user !in s.users ==>
              reply.user == generated && reply.paid == amount && t.users[reply.user].balance == Credits(grant, amount)
    ensures forall v :: v in s.users && v != reply.user ==> v in t.users && t.users[v] == s.users[v]
    ensures reply.row == |s.ledger| && t.jobs == s.jobs
    ensures t.ledger == s.ledger + [Txn(reply.user, amount, Paid, Topup, reply.paid, None, Some(transaction), now)]
  {
    var u, mid :| Provided(s, mid, integration, external, grant, generated, u) && Settles(mid, t, u, amount, transaction, now, reply);
    assert !exists i :: IsRow(mid.ledger, i, u, transaction);
  }

  // --- Retries ---

  // Whatever cached entries get lost, a second request with the key of one that succeeded creates no job, charges
  // nothing and enqueues nothing; if it is answered with a job, it is the first one's.
  lemma RetryCreatesNothing(f: Front, r: Request, j: JobId, now: Time, g: Front, again: Request, k: JobId, later: Time,
                            lost: set<Key>)
    requires Submitted(f, r, j, now) == (g, Created(j)) && SameKey(again.job, r.job)
    ensures Harmless(g.(keys := g.keys - lost), again, k, later, j)
    ensures again.offered && Cached(again.job) && KeyOf(again.job).value !in lost ==>
              Submitted(g.(keys := g.keys - lost), again, k, later).1 == Replayed(j)
  {
    assert SameKey(again.job, g.db.jobs[j]);
    assert KeyTaken(g.db, again.job);
  }

  // The request leaves tables and queue alone, and answers with job j if with any.
  ghost predicate Harmless(f: Front, r: Request, k: JobId, now: Time, j: JobId) {
    var (h, reply) := Submitted(f, r, k, now);
    h.db == f.db && h.queue == f.queue && !reply.Created? && (reply.Replayed? ==> reply.job == j)
  }

  // UNIQUE(integration_id, external_user_id)
  predicate DistinctUsers(s: Store) {
    forall u, v :: u in s.users && v in s.users && Is(s.users[v], s.users[u].integration, s.users[u].external) ==> u == v
  }

  // idx_ct_external_txn
  predicate DistinctTransactions(s: Store) {
    forall i, k :: 0 <= i < |s.ledger| && 0 <= k < |s.ledger| && SameTransaction(s.ledger[i], s.ledger[k]) ==> i == k
  }

  predicate SameTransaction(a: Txn, b: Txn) {
    a.external.Some? && a.user == b.user && a.external == b.external
  }

  // After a top-up that succeeded, a second one of the same user and transaction id, whatever its amount, its cached
  // reply lost, is answered with the very reply of the first and moves nothing.
  lemma RetryCreditsNothing(s: Store, t: Store, u: Store, integration: IntegrationId, external: string, amount: int,
                            again: int, transaction: string, grant: nat, id: UserId, id': UserId, now: Time, later: Time,
                            reply: TopUpReply, reply': TopUpReply)
    requires reply.Credited?
    requires ToppedUp(s, t, integration, external, amount, transaction, grant, id, now, reply)
    requires ToppedUp(t, u, integration, external, again, transaction, grant, id', later, reply')
    requires DistinctUsers(t) && DistinctTransactions(t)
    ensures u == t && reply' == reply
  {
    var v, mid :| Provided(s, mid, integration, external, grant, id, v) && Settles(mid, t, v, amount, transaction, now, reply);
    assert Is(t.users[v], integration, external) && IsRow(t.ledger, reply.row, v, transaction);
    var w, mid' :| Provided(t, mid', integration, external, grant, id', w) && Settles(mid', u, w, again, transaction, later, reply');
    assert mid' == t && w == v;
    assert SameTransaction(t.ledger[reply.row], t.ledger[reply'.row]);
  }
}
