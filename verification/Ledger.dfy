/**
 The rows of users, jobs and credit_transactions as values, the sums over ledger rows that
 every accounting claim is stated with, and the one way a transaction changes the books.
 */
module Ledger {
  import opened Options

  type UserId = nat
  type JobId = nat
  type IntegrationId = nat
  type Time = int

  datatype Bucket = Free | Paid

  datatype Reason = JobCharge | Refund | Topup | AdminAdjustment

  // A pair of amounts, one per bucket: a balance, a change of balance, or a split charge.
  datatype Credits = Credits(free: int, paid: int) {
    function At(b: Bucket): int {
      if b == Free then free else paid
    }

    function Plus(d: Credits): Credits {
      Credits(free + d.free, paid + d.paid)
    }

    function Negated(): Credits {
      Credits(-free, -paid)
    }

    function Total(): int {
      free + paid
    }

    predicate NonNegative() {
      free >= 0 && paid >= 0
    }
  }

  // `grant` records the free credits the row was inserted with. It is history: nothing reads it.
  datatype User = User(integration: IntegrationId, external: string, balance: Credits, grant: nat)

  datatype Status = Pending | Running | Succeeded | Failed

  datatype Job = Job(integration: IntegrationId, user: UserId, charged: nat, key: Option<string>,
                     timeout: nat, createdAt: Time, status: Status, startedAt: Time)

  datatype Txn = Txn(user: UserId, amount: int, bucket: Bucket, reason: Reason, balanceAfter: int,
                     job: Option<JobId>, external: Option<string>, createdAt: Time)

  datatype Store = Store(users: map<UserId, User>, jobs: map<JobId, Job>, ledger: seq<Txn>)

  function Opening(u: User, b: Bucket): nat {
    if b == Free then u.grant else 0
  }

  // --- Sums over ledger rows ---

  // What a sum ranges over. ChargesOf is what get_charges_for_job selects; FromOutside is top-ups and
  // admin adjustments.
  datatype Query =
    | OfUser(user: UserId, bucket: Bucket)
    | OfJob(job: JobId, bucket: Bucket)
    | ChargesOf(job: JobId, bucket: Bucket)
    | FromOutside(user: UserId)

  function Abs(x: int): nat {
    if x < 0 then -x else x
  }

  function Weight(q: Query, t: Txn): int {
    match q
    case OfUser(u, b) => if t.user == u && t.bucket == b then t.amount else 0
    case OfJob(j, b) => if t.job == Some(j) && t.bucket == b then t.amount else 0
    case ChargesOf(j, b) =>
      if t.job == Some(j) && t.reason == JobCharge && t.bucket == b then Abs(t.amount) else 0
    case FromOutside(u) =>
      if t.user == u && (t.reason == Topup || t.reason == AdminAdjustment) then t.amount else 0
  }

  function Sum(rows: seq<Txn>, q: Query): int {
    if rows == [] then 0 else Sum(rows[..|rows| - 1], q) + Weight(q, rows[|rows| - 1])
  }

  function Charges(rows: seq<Txn>, j: JobId): Credits {
    Credits(Sum(rows, ChargesOf(j, Free)), Sum(rows, ChargesOf(j, Paid)))
  }

  lemma {:induction false} SumAppend(a: seq<Txn>, b: seq<Txn>, q: Query)
    ensures Sum(a + b, q) == Sum(a, q) + Sum(b, q)
  {
    if b == [] {
      assert a + b == a;
    } else {
      var n := |b| - 1;
      assert (a + b)[..|a + b| - 1] == a + b[..n];
      SumAppend(a, b[..n], q);
    }
  }

  // No row of interest, no sum.
  lemma {:induction false} SumOfStrangers(rows: seq<Txn>, q: Query)
    requires forall t :: t in rows ==> Weight(q, t) == 0
    ensures Sum(rows, q) == 0
  {
    if rows != [] {
      SumOfStrangers(rows[..|rows| - 1], q);
    }
  }

  lemma {:induction false} ChargesAreNonNegative(rows: seq<Txn>, j: JobId)
    ensures Charges(rows, j).NonNegative()
  {
    if rows != [] {
      ChargesAreNonNegative(rows[..|rows| - 1], j);
    }
  }

  // --- Posting rows ---

  function Row(u: UserId, d: Credits, b: Bucket, reason: Reason, shown: Credits, job: Option<JobId>,
               external: Option<string>, now: Time): Txn
  {
    Txn(u, d.At(b), b, reason, shown.At(b), job, external, now)
  }

  // The rows one transaction inserts: one for each bucket it changes, free first.
  function Rows(u: UserId, d: Credits, reason: Reason, shown: Credits, job: Option<JobId>,
                external: Option<string>, now: Time): seq<Txn>
  {
    (if d.free != 0 then [Row(u, d, Free, reason, shown, job, external, now)] else []) +
    (if d.paid != 0 then [Row(u, d, Paid, reason, shown, job, external, now)] else [])
  }

  // What a sum over the rows of one transaction comes to.
  function RowsWeight(q: Query, u: UserId, d: Credits, reason: Reason, job: Option<JobId>): int {
    match q
    case OfUser(v, b) => if u == v then d.At(b) else 0
    case OfJob(j, b) => if job == Some(j) then d.At(b) else 0
    case ChargesOf(j, b) => if job == Some(j) && reason == JobCharge then Abs(d.At(b)) else 0
    case FromOutside(v) => if u == v && (reason == Topup || reason == AdminAdjustment) then d.Total() else 0
  }

  lemma SumOfRow(q: Query, t: Txn, there: bool)
    ensures Sum(if there then [t] else [], q) == if there then Weight(q, t) else 0
  {
    assert Sum([t], q) == Weight(q, t);
  }

  lemma SumOfRows(q: Query, u: UserId, d: Credits, reason: Reason, shown: Credits, job: Option<JobId>,
                  external: Option<string>, now: Time)
    ensures Sum(Rows(u, d, reason, shown, job, external, now), q) == RowsWeight(q, u, d, reason, job)
  {
    var free := Row(u, d, Free, reason, shown, job, external, now);
    var paid := Row(u, d, Paid, reason, shown, job, external, now);
    SumAppend(if d.free != 0 then [free] else [], if d.paid != 0 then [paid] else [], q);
    SumOfRow(q, free, d.free != 0);
    SumOfRow(q, paid, d.paid != 0);
  }

  // The user row as its UPDATE leaves it and the rows inserted beside it, as they reach the tables at COMMIT.
  function Post(s: Store, u: UserId, after: Credits, rows: seq<Txn>): Store
    requires u in s.users
  {
    s.(users := s.users[u := s.users[u].(balance := after)], ledger := s.ledger + rows)
  }

  function SetStatus(s: Store, j: JobId, status: Status): Store
    requires j in s.jobs
  {
    s.(jobs := s.jobs[j := s.jobs[j].(status := status)])
  }

  // --- The books ---

  // failures[j] counts the committed _fail_job transactions of j: history, read by no operation.
  type Failures = map<JobId, nat>

  // What a bucket of a job's rows nets to after k refunds of a charge c.
  function Net(c: int, k: nat): int {
    if k == 0 then -c else Net(c, k - 1) + c
  }

  lemma {:induction false} NetIs(c: int, k: nat)
    ensures Net(c, k) == c * (k - 1)
  {
    if k > 0 {
      NetIs(c, k - 1);
    }
  }

  // A balance is the grant plus the user's rows, bucket by bucket, and never below zero.
  ghost predicate UserBalanced(s: Store, u: UserId)
    requires u in s.users
  {
    && 0 <= s.users[u].balance.free == s.users[u].grant + Sum(s.ledger, OfUser(u, Free))
    && 0 <= s.users[u].balance.paid == Sum(s.ledger, OfUser(u, Paid))
  }

  // A job was charged in full, and every one of its committed failures gave the whole charge back to
  // the buckets it came from.
  ghost predicate JobBalanced(s: Store, j: JobId, k: nat)
    requires j in s.jobs
  {
    && s.jobs[j].user in s.users
    && Sum(s.ledger, ChargesOf(j, Free)) + Sum(s.ledger, ChargesOf(j, Paid)) == s.jobs[j].charged
    && Sum(s.ledger, OfJob(j, Free)) == Net(Sum(s.ledger, ChargesOf(j, Free)), k)
    && Sum(s.ledger, OfJob(j, Paid)) == Net(Sum(s.ledger, ChargesOf(j, Paid)), k)
  }

  ghost predicate RowBelongs(s: Store, t: Txn) {
    && t.user in s.users
    && (t.job.Some? ==> t.job.value in s.jobs && s.jobs[t.job.value].user == t.user)
    && (t.external.Some? ==> t.reason == Topup && t.bucket == Paid)
  }

  ghost predicate RowsBelong(s: Store) {
    forall t {:trigger RowBelongs(s, t)} :: t in s.ledger ==> RowBelongs(s, t)
  }

  ghost predicate Books(s: Store, failures: Failures) {
    && failures.Keys == s.jobs.Keys
    && (forall u {:trigger UserBalanced(s, u)} :: u in s.users ==> UserBalanced(s, u))
    && (forall j {:trigger JobBalanced(s, j, failures[j])} :: j in s.jobs ==> JobBalanced(s, j, failures[j]))
    && RowsBelong(s)
  }

  lemma RowsAreFor(u: UserId, d: Credits, reason: Reason, shown: Credits, job: Option<JobId>,
                   external: Option<string>, now: Time)
    ensures forall t :: t in Rows(u, d, reason, shown, job, external, now) ==>
              && t.user == u && t.reason == reason && t.job == job && t.external == external
              && t.createdAt == now && t.amount == d.At(t.bucket) && t.amount != 0
              && t.balanceAfter == shown.At(t.bucket)
  {
  }

  // Every sum moves by its share of the rows inserted.
  lemma SumAfter(q: Query, ledger: seq<Txn>, u: UserId, d: Credits, reason: Reason, shown: Credits,
                 job: Option<JobId>, external: Option<string>, now: Time)
    ensures Sum(ledger + Rows(u, d, reason, shown, job, external, now), q)
         == Sum(ledger, q) + RowsWeight(q, u, d, reason, job)
  {
    SumAppend(ledger, Rows(u, d, reason, shown, job, external, now), q);
    SumOfRows(q, u, d, reason, shown, job, external, now);
  }

  // The same for the sums JobBalanced speaks of.
  lemma JobSumsAfter(j: JobId, ledger: seq<Txn>, u: UserId, d: Credits, reason: Reason, shown: Credits,
                     job: Option<JobId>, external: Option<string>, now: Time)
    ensures var ledger' := ledger + Rows(u, d, reason, shown, job, external, now);
            && Sum(ledger', OfJob(j, Free)) == Sum(ledger, OfJob(j, Free)) + (if job == Some(j) then d.free else 0)
            && Sum(ledger', OfJob(j, Paid)) == Sum(ledger, OfJob(j, Paid)) + (if job == Some(j) then d.paid else 0)
            && Charges(ledger', j) == if job == Some(j) && reason == JobCharge
                                      then Charges(ledger, j).Plus(Credits(Abs(d.free), Abs(d.paid)))
                                      else Charges(ledger, j)
  {
    SumAfter(OfJob(j, Free), ledger, u, d, reason, shown, job, external, now);
    SumAfter(OfJob(j, Paid), ledger, u, d, reason, shown, job, external, now);
    SumAfter(ChargesOf(j, Free), ledger, u, d, reason, shown, job, external, now);
    SumAfter(ChargesOf(j, Paid), ledger, u, d, reason, shown, job, external, now);
  }

  // A new user row starts with its grant and no ledger rows.
  lemma RegisterKeepsBooks(s: Store, failures: Failures, u: UserId, user: User)
    requires Books(s, failures) && u !in s.users
    requires user.balance == Credits(user.grant, 0)
    ensures Books(s.(users := s.users[u := user]), failures)
  {
    var s' := s.(users := s.users[u := user]);
    forall t | t in s.ledger ensures RowBelongs(s', t) {
      assert RowBelongs(s, t);
    }
    forall t | t in s.ledger ensures t.user != u {
      assert RowBelongs(s, t);
    }
    SumOfStrangers(s.ledger, OfUser(u, Free));
    SumOfStrangers(s.ledger, OfUser(u, Paid));
    forall v | v in s'.users ensures UserBalanced(s', v) {
      assert v in s.users ==> UserBalanced(s, v);
    }
    forall j | j in s.jobs ensures JobBalanced(s', j, failures[j]) {
      assert JobBalanced(s, j, failures[j]);
    }
  }

  lemma NewJobHasNoRows(s: Store, j: JobId)
    requires RowsBelong(s) && j !in s.jobs
    ensures Sum(s.ledger, OfJob(j, Free)) == 0 == Sum(s.ledger, OfJob(j, Paid))
    ensures Charges(s.ledger, j) == Credits(0, 0)
  {
    forall t | t in s.ledger ensures t.job != Some(j) {
      assert RowBelongs(s, t);
    }
    SumOfStrangers(s.ledger, OfJob(j, Free));
    SumOfStrangers(s.ledger, OfJob(j, Paid));
    SumOfStrangers(s.ledger, ChargesOf(j, Free));
    SumOfStrangers(s.ledger, ChargesOf(j, Paid));
  }

  predicate SameAccount(x: Job, y: Job) {
    x.user == y.user && x.charged == y.charged
  }

  // s' is s after one transaction changed user u's balance by d and inserted the matching rows. The
  // status columns of jobs may differ; job ids only get added.
  ghost predicate Posted(s: Store, s': Store, u: UserId, d: Credits, reason: Reason, shown: Credits,
                         job: Option<JobId>, external: Option<string>, now: Time)
  {
    && u in s.users
    && s'.users == s.users[u := s.users[u].(balance := s.users[u].balance.Plus(d))]
    && s'.ledger == s.ledger + Rows(u, d, reason, shown, job, external, now)
    && forall j :: j in s.jobs ==> j in s'.jobs && SameAccount(s.jobs[j], s'.jobs[j])
  }

  lemma PostKeepsUsers(s: Store, s': Store, u: UserId, d: Credits, reason: Reason, shown: Credits,
                       job: Option<JobId>, external: Option<string>, now: Time)
    requires Posted(s, s', u, d, reason, shown, job, external, now)
    requires s.users[u].balance.Plus(d).NonNegative()
    requires forall v {:trigger UserBalanced(s, v)} :: v in s.users ==> UserBalanced(s, v)
    ensures forall v {:trigger UserBalanced(s', v)} :: v in s'.users ==> UserBalanced(s', v)
  {
    forall v | v in s'.users ensures UserBalanced(s', v) {
      assert UserBalanced(s, v);
      SumAfter(OfUser(v, Free), s.ledger, u, d, reason, shown, job, external, now);
      SumAfter(OfUser(v, Paid), s.ledger, u, d, reason, shown, job, external, now);
    }
  }

  lemma PostKeepsOtherJobs(s: Store, s': Store, u: UserId, d: Credits, reason: Reason, shown: Credits,
                           job: Option<JobId>, external: Option<string>, now: Time, failures: Failures)
    requires Posted(s, s', u, d, reason, shown, job, external, now)
    requires s.jobs.Keys == failures.Keys
    requires forall j {:trigger JobBalanced(s, j, failures[j])} :: j in s.jobs ==> JobBalanced(s, j, failures[j])
    ensures forall j {:trigger JobBalanced(s', j, failures[j])} :: j in s.jobs && Some(j) != job ==> JobBalanced(s', j, failures[j])
  {
    forall j | j in s.jobs && Some(j) != job ensures JobBalanced(s', j, failures[j]) {
      assert JobBalanced(s, j, failures[j]);
      JobSumsAfter(j, s.ledger, u, d, reason, shown, job, external, now);
    }
  }

  lemma PostKeepsRows(s: Store, s': Store, u: UserId, d: Credits, reason: Reason, shown: Credits,
                      job: Option<JobId>, external: Option<string>, now: Time)
    requires Posted(s, s', u, d, reason, shown, job, external, now)
    requires job.Some? ==> job.value in s'.jobs && s'.jobs[job.value].user == u
    requires external.Some? ==> reason == Topup && d.free == 0
    requires RowsBelong(s)
    ensures RowsBelong(s')
  {
    RowsAreFor(u, d, reason, shown, job, external, now);
    forall t | t in s'.ledger ensures RowBelongs(s', t) {
      if t in s.ledger {
        assert RowBelongs(s, t);
      } else {
        assert t in Rows(u, d, reason, shown, job, external, now);
      }
    }
  }

  // What the rows of a first charge sum to.
  lemma ChargeSums(ledger: seq<Txn>, u: UserId, j: JobId, split: Credits, shown: Credits, now: Time)
    requires Sum(ledger, OfJob(j, Free)) == 0 == Sum(ledger, OfJob(j, Paid))
    requires Sum(ledger, ChargesOf(j, Free)) == 0 == Sum(ledger, ChargesOf(j, Paid)) && split.NonNegative()
    ensures var ledger' := ledger + Rows(u, Credits(-split.free, -split.paid), JobCharge, shown, Some(j), None, now);
            && Sum(ledger', OfJob(j, Free)) == -split.free && Sum(ledger', OfJob(j, Paid)) == -split.paid
            && Sum(ledger', ChargesOf(j, Free)) == split.free && Sum(ledger', ChargesOf(j, Paid)) == split.paid
  {
    JobSumsAfter(j, ledger, u, Credits(-split.free, -split.paid), JobCharge, shown, Some(j), None, now);
    assert Charges(ledger, j) == Credits(0, 0);
  }

  lemma ChargedJobBalances(s: Store, s': Store, j: JobId, split: Credits, shown: Credits, now: Time)
    requires RowsBelong(s) && j !in s.jobs && j in s'.jobs
    requires Posted(s, s', s'.jobs[j].user, Credits(-split.free, -split.paid), JobCharge, shown, Some(j), None, now)
    requires split.NonNegative() && split.Total() == s'.jobs[j].charged
    ensures JobBalanced(s', j, 0)
  {
    NewJobHasNoRows(s, j);
    ChargeSums(s.ledger, s'.jobs[j].user, j, split, shown, now);
  }

  lemma RefundedJobBalances(s: Store, s': Store, k: nat, j: JobId, back: Credits, shown: Credits, now: Time)
    requires j in s.jobs && JobBalanced(s, j, k) && back == Charges(s.ledger, j)
    requires Posted(s, s', s.jobs[j].user, back, Refund, shown, Some(j), None, now)
    ensures JobBalanced(s', j, k + 1)
  {
    JobSumsAfter(j, s.ledger, s.jobs[j].user, back, Refund, shown, Some(j), None, now);
  }

  // create_job's commit: the job row together with the rows that charge it.
  lemma ChargeKeepsBooks(s: Store, s': Store, failures: Failures, j: JobId, split: Credits, shown: Credits, now: Time)
    requires Books(s, failures) && j !in s.jobs && s'.jobs.Keys == s.jobs.Keys + {j}
    requires Posted(s, s', s'.jobs[j].user, Credits(-split.free, -split.paid), JobCharge, shown, Some(j), None, now)
    requires split.NonNegative() && split.Total() == s'.jobs[j].charged
    requires s'.users[s'.jobs[j].user].balance.NonNegative()
    ensures Books(s', failures[j := 0])
  {
    var u, d := s'.jobs[j].user, split.Negated();
    PostKeepsUsers(s, s', u, d, JobCharge, shown, Some(j), None, now);
    PostKeepsOtherJobs(s, s', u, d, JobCharge, shown, Some(j), None, now, failures);
    PostKeepsRows(s, s', u, d, JobCharge, shown, Some(j), None, now);
    ChargedJobBalances(s, s', j, split, shown, now);
  }

  // _fail_job's commit: the whole charge back to where it came from.
  lemma RefundKeepsBooks(s: Store, s': Store, failures: Failures, j: JobId, back: Credits, shown: Credits, now: Time)
    requires Books(s, failures) && j in s.jobs && s'.jobs.Keys == s.jobs.Keys && back == Charges(s.ledger, j)
    requires Posted(s, s', s.jobs[j].user, back, Refund, shown, Some(j), None, now)
    ensures Books(s', failures[j := failures[j] + 1])
  {
    var u := s.jobs[j].user;
    assert s.users[u].balance.Plus(back).NonNegative() by {
      assert UserBalanced(s, u);
      ChargesAreNonNegative(s.ledger, j);
    }
    PostKeepsUsers(s, s', u, back, Refund, shown, Some(j), None, now);
    PostKeepsOtherJobs(s, s', u, back, Refund, shown, Some(j), None, now, failures);
    PostKeepsRows(s, s', u, back, Refund, shown, Some(j), None, now);
    assert JobBalanced(s, j, failures[j]);
    RefundedJobBalances(s, s', failures[j], j, back, shown, now);
  }

  // A top-up's or an adjustment's commit.
  lemma CreditKeepsBooks(s: Store, s': Store, failures: Failures, u: UserId, d: Credits, reason: Reason,
                         shown: Credits, external: Option<string>, now: Time)
    requires Books(s, failures) && s'.jobs.Keys == s.jobs.Keys
    requires Posted(s, s', u, d, reason, shown, None, external, now)
    requires external.Some? ==> reason == Topup && d.free == 0
    requires s.users[u].balance.Plus(d).NonNegative()
    ensures Books(s', failures)
  {
    PostKeepsUsers(s, s', u, d, reason, shown, None, external, now);
    PostKeepsOtherJobs(s, s', u, d, reason, shown, None, external, now, failures);
    PostKeepsRows(s, s', u, d, reason, shown, None, external, now);
  }

  // A write of the job's status columns alone moves no credits.
  lemma StatusKeepsBooks(s: Store, failures: Failures, j: JobId, job: Job)
    requires Books(s, failures) && j in s.jobs
    requires job.user == s.jobs[j].user && job.charged == s.jobs[j].charged
    ensures Books(s.(jobs := s.jobs[j := job]), failures)
  {
    var s' := s.(jobs := s.jobs[j := job]);
    forall t | t in s.ledger ensures RowBelongs(s', t) {
      assert RowBelongs(s, t);
    }
    forall u | u in s.users ensures UserBalanced(s', u) {
      assert UserBalanced(s, u);
    }
    forall i | i in s.jobs ensures JobBalanced(s', i, failures[i]) {
      assert JobBalanced(s, i, failures[i]);
    }
  }
}
