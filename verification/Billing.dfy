/**
 Credit splitting, the guarded balance update, and what each database transaction does to the tables
 when it runs alone: the values that the imperative Database class is proved against.
 */
module Billing {
  import opened Options
  import opened Ledger

  datatype Error =
    | InsufficientCredits
    | UserNotFound
    | ConcurrentUpdate
    | DuplicateIdempotencyKey
    | DuplicateExternalId
    | InvalidAmount

  datatype Result<+T> = Ok(value: T) | Err(error: Error)

  // Free credits go first; paid credits pay only what free ones could not.
  function CalculateCreditSplit(balance: Credits, cost: int): (r: Result<Credits>)
    ensures r.Err? <==> balance.Total() < cost
    ensures r.Ok? ==> r.value.Total() == cost
    ensures r.Ok? && balance.NonNegative() && cost >= 0 ==>
              && r.value.NonNegative()
              && balance.Plus(r.value.Negated()).NonNegative()
              && (r.value.paid > 0 ==> r.value.free == balance.free)
  {
    if balance.Total() < cost then
      Err(InsufficientCredits)
    else
      var free := if cost < balance.free then cost else balance.free;
      Ok(Credits(free, cost - free))
  }

  // The split is the only one that spends as few paid credits as possible.
  lemma SplitIsCheapest(balance: Credits, cost: nat, other: Credits)
    requires balance.NonNegative() && cost <= balance.Total()
    requires other.NonNegative() && other.Total() == cost && balance.Plus(other.Negated()).NonNegative()
    ensures CalculateCreditSplit(balance, cost).value.paid <= other.paid
    ensures CalculateCreditSplit(balance, cost).value.paid == other.paid ==>
              CalculateCreditSplit(balance, cost).value == other
  {
  }

  // UPDATE users ... WHERE both results are non-negative: the balance it leaves.
  function Guarded(balance: Credits, d: Credits): Credits {
    if balance.Plus(d).NonNegative() then balance.Plus(d) else balance
  }

  predicate IsChargeOf(t: Txn, j: JobId) {
    t.job == Some(j) && t.reason == JobCharge
  }

  // get_charges_for_job: the job's charge rows, in insertion order.
  function GetChargesForJob(rows: seq<Txn>, j: JobId): (charges: seq<Txn>)
    ensures forall t :: t in charges <==> t in rows && IsChargeOf(t, j)
  {
    if rows == [] then []
    else
      var t := rows[|rows| - 1];
      GetChargesForJob(rows[..|rows| - 1], j) + if IsChargeOf(t, j) then [t] else []
  }

  // Each of them is selected as often as it is there, and nothing else is.
  lemma {:induction false} ChargesAreSelected(rows: seq<Txn>, j: JobId, t: Txn)
    ensures multiset(GetChargesForJob(rows, j))[t] == if IsChargeOf(t, j) then multiset(rows)[t] else 0
  {
    if rows != [] {
      var front, last := rows[..|rows| - 1], rows[|rows| - 1];
      ChargesAreSelected(front, j, t);
      assert rows == front + [last];
    }
  }

  lemma {:induction false} SelectedChargesSumUp(rows: seq<Txn>, j: JobId)
    ensures Charges(GetChargesForJob(rows, j), j) == Charges(rows, j)
  {
    if rows != [] {
      var front, t := rows[..|rows| - 1], rows[|rows| - 1];
      SelectedChargesSumUp(front, j);
      if t.job == Some(j) && t.reason == JobCharge {
        SumAppend(GetChargesForJob(front, j), [t], ChargesOf(j, Free));
        SumAppend(GetChargesForJob(front, j), [t], ChargesOf(j, Paid));
      } else {
        assert GetChargesForJob(rows, j) == GetChargesForJob(front, j);
      }
    }
  }

  // --- Idempotency keys and unique indexes ---

  // An integration with its Idempotency-Key.
  type Key = (IntegrationId, string)

  function KeyOf(row: Job): Option<Key> {
    if row.key.Some? then Some((row.integration, row.key.value)) else None
  }

  // An empty Idempotency-Key is stored with the job but never cached.
  predicate Cached(row: Job) {
    row.key.Some? && row.key.value != ""
  }

  ghost predicate SameKey(a: Job, b: Job) {
    a.key.Some? && a.key == b.key && a.integration == b.integration
  }

  // idx_jobs_idempotency
  ghost predicate KeyTaken(s: Store, job: Job) {
    exists i :: i in s.jobs && SameKey(job, s.jobs[i])
  }

  // idx_ct_external_txn
  predicate ExternalTaken(ledger: seq<Txn>, u: UserId, external: string) {
    exists i :: 0 <= i < |ledger| && ledger[i].user == u && ledger[i].external == Some(external)
  }

  // --- The transactions, each running alone ---

  // reserve_credits
  function Reserve(s: Store, u: UserId, cost: nat, j: JobId, now: Time): Result<Store> {
    if u !in s.users then
      Err(UserNotFound)
    else
      var read := s.users[u].balance;
      match CalculateCreditSplit(read, cost)
      case Err(e) => Err(e)
      case Ok(split) =>
        var after := read.Plus(split.Negated());
        if !after.NonNegative() then
          Err(ConcurrentUpdate)
        else
          Ok(Post(s, u, after, Rows(u, split.Negated(), JobCharge, after, Some(j), None, now)))
  }

  // create_job's transaction: the job row, then its charge; a failed charge takes the job row with it.
  ghost function CreateJob(s: Store, j: JobId, job: Job, now: Time): Result<Store> {
    if KeyTaken(s, job) then
      Err(DuplicateIdempotencyKey)
    else
      Reserve(s.(jobs := s.jobs[j := job]), job.user, job.charged, j, now)
  }

  // The transaction goes through with the split of the balance it finds.
  lemma CreateJobIs(s: Store, j: JobId, job: Job, now: Time, split: Credits)
    requires !KeyTaken(s, job) && job.user in s.users && s.users[job.user].balance.NonNegative()
    requires CalculateCreditSplit(s.users[job.user].balance, job.charged) == Ok(split)
    ensures var after := s.users[job.user].balance.Plus(split.Negated());
            CreateJob(s, j, job, now) == Ok(Post(s.(jobs := s.jobs[j := job]), job.user, after,
                                                 Rows(job.user, split.Negated(), JobCharge, after, Some(j), None, now)))
  {
  }

  // refund_credits
  function GiveBack(s: Store, j: JobId, u: UserId, now: Time): Store
    requires u in s.users
  {
    var back := Charges(s.ledger, j);
    var after := Guarded(s.users[u].balance, back);
    Post(s, u, after, Rows(u, back, Refund, after, Some(j), None, now))
  }

  // _fail_job
  function FailJob(s: Store, j: JobId, now: Time): Store
    requires j in s.jobs && s.jobs[j].user in s.users
  {
    SetStatus(GiveBack(s, j, s.jobs[j].user, now), j, Failed)
  }

  // The transaction of topup.
  function TopUp(s: Store, u: UserId, amount: int, external: string, now: Time): Result<Store>
    requires u in s.users
  {
    var after := s.users[u].balance.Plus(Credits(0, amount));
    if !after.NonNegative() then
      Err(InvalidAmount)
    else if ExternalTaken(s.ledger, u, external) then
      Err(DuplicateExternalId)
    else
      Ok(Post(s, u, after, Rows(u, Credits(0, amount), Topup, after, None, Some(external), now)))
  }

  function InBucket(b: Bucket, amount: int): Credits {
    if b == Free then Credits(amount, 0) else Credits(0, amount)
  }

  // The transaction of user_credit_adjust.
  function Adjust(s: Store, u: UserId, b: Bucket, amount: int, now: Time): Result<Store> {
    if u !in s.users then
      Err(InsufficientCredits)
    else
      var after := s.users[u].balance.Plus(InBucket(b, amount));
      if !after.NonNegative() then
        Err(InsufficientCredits)
      else
        Ok(Post(s, u, after, Rows(u, InBucket(b, amount), AdminAdjustment, after, None, None, now)))
  }

  // --- What they come to, column by column ---

  function Least(x: int, y: int): int {
    if x < y then x else y
  }

  // A ledger row if its amount is not zero
  function RowOf(t: Txn): seq<Txn> {
    if t.amount != 0 then [t] else []
  }

  // The answer of reserve_credits: it charges exactly when the user exists and has the cost.
  lemma ReserveAnswers(s: Store, u: UserId, cost: nat, j: JobId, now: Time)
    ensures Reserve(s, u, cost, j, now) == Err(UserNotFound) <==> u !in s.users
    ensures Reserve(s, u, cost, j, now) == Err(InsufficientCredits)
       <==> u in s.users && s.users[u].balance.free + s.users[u].balance.paid < cost
    ensures Reserve(s, u, cost, j, now) == Err(ConcurrentUpdate)
       <==> && u in s.users && s.users[u].balance.free + s.users[u].balance.paid >= cost
            && s.users[u].balance.free > cost && s.users[u].balance.paid < 0
    ensures Reserve(s, u, cost, j, now).Err? ==> Reserve(s, u, cost, j, now).error in {UserNotFound, InsufficientCredits, ConcurrentUpdate}
  {
  }

  lemma SplitIs(balance: Credits, cost: int)
    requires cost <= balance.free + balance.paid
    ensures CalculateCreditSplit(balance, cost) == Ok(Credits(Least(cost, balance.free), cost - Least(cost, balance.free)))
  {
  }

  lemma ChargeRowsAre(u: UserId, free: int, paid: int, shown: Credits, j: JobId, now: Time)
    ensures Rows(u, Credits(-free, -paid), JobCharge, shown, Some(j), None, now)
         == RowOf(Txn(u, -free, Free, JobCharge, shown.free, Some(j), None, now))
          + RowOf(Txn(u, -paid, Paid, JobCharge, shown.paid, Some(j), None, now))
  {
  }

  // It takes what it can from the free credits and the rest from the paid ones, with one row for each bucket it used.
  lemma ReserveMeans(s: Store, u: UserId, cost: nat, j: JobId, now: Time)
    requires Reserve(s, u, cost, j, now).Ok?
    ensures u in s.users && cost <= s.users[u].balance.free + s.users[u].balance.paid
    ensures var b, t := s.users[u].balance, Reserve(s, u, cost, j, now).value;
            var free := Least(cost, b.free);
            var left := Credits(b.free - free, b.paid - (cost - free));
            && t.users == s.users[u := s.users[u].(balance := left)] && t.jobs == s.jobs
            && t.ledger == s.ledger + (RowOf(Txn(u, -free, Free, JobCharge, left.free, Some(j), None, now))
                                     + RowOf(Txn(u, -(cost - free), Paid, JobCharge, left.paid, Some(j), None, now)))
  {
    ReserveAnswers(s, u, cost, j, now);
    var b := s.users[u].balance;
    var free := Least(cost, b.free);
    SplitIs(b, cost);
    ChargeRowsAre(u, free, cost - free, Credits(b.free - free, b.paid - (cost - free)), j, now);
  }

  // A job is created exactly when no job of its integration has its key and its charge is made.
  lemma CreateJobMeans(s: Store, j: JobId, job: Job, now: Time)
    ensures CreateJob(s, j, job, now) == Err(DuplicateIdempotencyKey)
       <==> job.key.Some? && exists i :: i in s.jobs && s.jobs[i].key == job.key && s.jobs[i].integration == job.integration
    ensures CreateJob(s, j, job, now) != Err(DuplicateIdempotencyKey) ==>
              var charged := Reserve(s, job.user, job.charged, j, now);
              CreateJob(s, j, job, now) == match charged case Err(e) => Err(e) case Ok(t) => Ok(t.(jobs := s.jobs[j := job]))
  {
    if CreateJob(s, j, job, now) == Err(DuplicateIdempotencyKey) {
      ReserveAnswers(s.(jobs := s.jobs[j := job]), job.user, job.charged, j, now);
      var i :| i in s.jobs && SameKey(job, s.jobs[i]);
    }
    if i :| job.key.Some? && i in s.jobs && s.jobs[i].key == job.key && s.jobs[i].integration == job.integration {
      assert SameKey(job, s.jobs[i]);
    }
  }

  // A failed job's charge goes back to the buckets it came from, whatever the job's status was.
  lemma FailJobMeans(s: Store, j: JobId, now: Time)
    requires j in s.jobs && s.jobs[j].user in s.users && s.users[s.jobs[j].user].balance.NonNegative()
    ensures var u, t := s.jobs[j].user, FailJob(s, j, now);
            var free, paid := Sum(s.ledger, ChargesOf(j, Free)), Sum(s.ledger, ChargesOf(j, Paid));
            var after := Credits(s.users[u].balance.free + free, s.users[u].balance.paid + paid);
            && t.users == s.users[u := s.users[u].(balance := after)] && t.jobs == s.jobs[j := s.jobs[j].(status := Failed)]
            && t.ledger == s.ledger + RowOf(Txn(u, free, Free, Refund, after.free, Some(j), None, now))
                                    + RowOf(Txn(u, paid, Paid, Refund, after.paid, Some(j), None, now))
  {
    ChargesAreNonNegative(s.ledger, j);
    var u, back := s.jobs[j].user, Charges(s.ledger, j);
    var after := s.users[u].balance.Plus(back);
    assert Row(u, back, Free, Refund, after, Some(j), None, now) == Txn(u, back.free, Free, Refund, after.free, Some(j), None, now);
    assert Row(u, back, Paid, Refund, after, Some(j), None, now) == Txn(u, back.paid, Paid, Refund, after.paid, Some(j), None, now);
  }

  // A top-up goes through exactly when the balance stays non-negative and no row of the user has its id.
  lemma TopUpMeans(s: Store, u: UserId, amount: int, external: string, now: Time)
    requires u in s.users && amount != 0
    ensures TopUp(s, u, amount, external, now) == Err(InvalidAmount)
       <==> s.users[u].balance.free < 0 || s.users[u].balance.paid + amount < 0
    ensures TopUp(s, u, amount, external, now) == Err(DuplicateExternalId)
       <==> && s.users[u].balance.free >= 0 && s.users[u].balance.paid + amount >= 0
            && exists i :: 0 <= i < |s.ledger| && s.ledger[i].user == u && s.ledger[i].external == Some(external)
    ensures TopUp(s, u, amount, external, now).Err? ==> TopUp(s, u, amount, external, now).error in {InvalidAmount, DuplicateExternalId}
    ensures TopUp(s, u, amount, external, now).Ok? ==>
              var t, paid := TopUp(s, u, amount, external, now).value, s.users[u].balance.paid + amount;
              && t.users == s.users[u := s.users[u].(balance := Credits(s.users[u].balance.free, paid))] && t.jobs == s.jobs
              && t.ledger == s.ledger + [Txn(u, amount, Paid, Topup, paid, None, Some(external), now)]
  {
  }

  // An adjustment goes through exactly when the user exists and its balance stays non-negative.
  lemma AdjustMeans(s: Store, u: UserId, b: Bucket, amount: int, now: Time)
    requires amount != 0
    ensures Adjust(s, u, b, amount, now).Ok?
       <==> && u in s.users
            && s.users[u].balance.free + (if b == Free then amount else 0) >= 0
            && s.users[u].balance.paid + (if b == Paid then amount else 0) >= 0
    ensures Adjust(s, u, b, amount, now).Err? ==> Adjust(s, u, b, amount, now).error == InsufficientCredits
    ensures Adjust(s, u, b, amount, now).Ok? ==>
              var t, before := Adjust(s, u, b, amount, now).value, s.users[u].balance;
              var after := if b == Free then Credits(before.free + amount, before.paid) else Credits(before.free, before.paid + amount);
              && t.users == s.users[u := s.users[u].(balance := after)] && t.jobs == s.jobs
              && t.ledger == s.ledger + [Txn(u, amount, b, AdminAdjustment, if b == Free then after.free else after.paid, None, None, now)]
  {
  }

  // UPDATE jobs SET status = 'running', started_at = now(): whatever the status was.
  function StartJob(s: Store, j: JobId, now: Time): Store
    requires j in s.jobs
  {
    s.(jobs := s.jobs[j := s.jobs[j].(status := Running, startedAt := now)])
  }

  // --- The janitor's SELECT ---

  ghost predicate Overdue(s: Store, now: Time, j: JobId) {
    j in s.jobs && s.jobs[j].status == Running && s.jobs[j].startedAt + s.jobs[j].timeout + 60 < now
  }

  // Its rows, in whatever order they come.
  ghost predicate ListsOverdue(s: Store, now: Time, rows: seq<JobId>) {
    && (forall j :: j in rows <==> Overdue(s, now, j))
    && (forall i, k :: 0 <= i < k < |rows| ==> rows[i] != rows[k])
  }
}
