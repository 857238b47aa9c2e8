/**
 The tables as the repositories and services change them: one method per repository call, and the
 transactions built from those calls statement by statement.
 */
module Database {
  import opened Options
  import opened Ledger
  import opened Billing

  class Tables {
    var users: map<UserId, User>
    var jobs: map<JobId, Job>
    var ledger: seq<Txn>

    constructor ()
      ensures Value() == Store(map[], map[], [])
    {
      users, jobs, ledger := map[], map[], [];
    }

    function Value(): Store
      reads this
    {
      Store(users, jobs, ledger)
    }

    // --- Repository calls ---

    // The returned flag is whether the UPDATE matched its row.
    method UpdateCredits(u: UserId, d: Credits) returns (updated: bool)
      modifies this`users
      ensures updated <==> u in old(users) && old(users)[u].balance.Plus(d).NonNegative()
      ensures updated ==> users == old(users)[u := old(users)[u].(balance := old(users)[u].balance.Plus(d))]
      ensures !updated ==> users == old(users)
    {
      updated := false;
      if u in users && users[u].balance.free + d.free >= 0 && users[u].balance.paid + d.paid >= 0 {
        users := users[u := users[u].(balance := users[u].balance.Plus(d))];
        updated := true;
      }
    }

    method ForceSetCredits(u: UserId, balance: Credits) returns (updated: bool)
      modifies this`users
      ensures updated <==> u in old(users)
      ensures updated ==> users == old(users)[u := old(users)[u].(balance := balance)]
      ensures !updated ==> users == old(users)
    {
      updated := u in users;
      if updated {
        users := users[u := users[u].(balance := balance)];
      }
    }

    // `generated` is the id the INSERT would generate. An existing row is never changed, whatever its balance.
    method GetOrCreate(integration: IntegrationId, external: string, grant: nat, generated: UserId)
      returns (u: UserId)
      requires generated !in users
      modifies this`users
      ensures u in users && users[u].integration == integration && users[u].external == external
      ensures users == old(users) <==>
                exists v :: v in old(users) && old(users)[v].integration == integration && old(users)[v].external == external
      ensures users == old(users) || (u == generated
                && users == old(users)[u := User(integration, external, Credits(grant, 0), grant)])
    {
      if v :| v in users && users[v].integration == integration && users[v].external == external {
        u := v;
      } else {
        u := generated;
        users := users[u := User(integration, external, Credits(grant, 0), grant)];
        assert u in users && u !in old(users);
      }
    }

    method InsertTxn(t: Txn)
      modifies this`ledger
      ensures ledger == old(ledger) + [t]
    {
      ledger := ledger + [t];
    }

    // No clause of the UPDATE looks at the status it replaces.
    method UpdateStatus(j: JobId, status: Status, now: Time)
      modifies this`jobs
      ensures j !in old(jobs) ==> jobs == old(jobs)
      ensures j in old(jobs) && status == Running ==>
                jobs == old(jobs)[j := old(jobs)[j].(status := Running, startedAt := now)]
      ensures j in old(jobs) && status != Running ==> jobs == old(jobs)[j := old(jobs)[j].(status := status)]
    {
      if j in jobs {
        if status == Running {
          jobs := jobs[j := jobs[j].(status := status, startedAt := now)];
        } else {
          jobs := jobs[j := jobs[j].(status := status)];
        }
      }
    }

    // --- Services ---

    // The inserts that follow a charge or a refund, free row first. A bucket that did not change gets no row.
    method InsertRows(u: UserId, d: Credits, reason: Reason, shown: Credits, j: JobId, now: Time)
      modifies this`ledger
      ensures ledger == old(ledger) + Rows(u, d, reason, shown, Some(j), None, now)
    {
      if d.free != 0 {
        InsertTxn(Txn(u, d.free, Free, reason, shown.free, Some(j), None, now));
      }
      if d.paid != 0 {
        InsertTxn(Txn(u, d.paid, Paid, reason, shown.paid, Some(j), None, now));
      }
    }

    // A raised error leaves nothing behind: every check comes before the first write.
    method ReserveCredits(u: UserId, cost: nat, j: JobId, now: Time) returns (r: Result<()>)
      modifies this`users, this`ledger
      ensures r.Ok? ==> Reserve(old(Value()), u, cost, j, now) == Ok(Value())
      ensures r.Err? ==> Reserve(old(Value()), u, cost, j, now) == Err(r.error) && Value() == old(Value())
    {
      if u !in users {
        return Err(UserNotFound);
      }
      var read := users[u].balance;
      var split := CalculateCreditSplit(read, cost);
      if split.Err? {
        return Err(split.error);
      }
      var deduction := split.value;
      var updated := UpdateCredits(u, deduction.Negated());
      if !updated {
        return Err(ConcurrentUpdate);
      }
      InsertRows(u, deduction.Negated(), JobCharge, read.Plus(deduction.Negated()), j, now);
      return Ok(());
    }

    method SumCharges(charges: seq<Txn>, j: JobId) returns (back: Credits)
      requires forall t :: t in charges ==> IsChargeOf(t, j)
      ensures back == Charges(charges, j)
    {
      var freeRefund, paidRefund := 0, 0;
      for i := 0 to |charges|
        invariant Credits(freeRefund, paidRefund) == Charges(charges[..i], j)
      {
        assert charges[..i + 1][..i] == charges[..i];
        assert charges[i] in charges;
        if charges[i].bucket == Free {
          freeRefund := freeRefund + Abs(charges[i].amount);
        } else {
          paidRefund := paidRefund + Abs(charges[i].amount);
        }
      }
      assert charges[..|charges|] == charges;
      back := Credits(freeRefund, paidRefund);
    }

    method RefundCredits(j: JobId, u: UserId, now: Time)
      requires u in users
      modifies this`users, this`ledger
      ensures Value() == GiveBack(old(Value()), j, u, now)
    {
      var charges := GetChargesForJob(ledger, j);
      var back := SumCharges(charges, j);
      SelectedChargesSumUp(ledger, j);
      ChargesAreNonNegative(ledger, j);
      if charges != [] && (back.free > 0 || back.paid > 0) {
        var _ := UpdateCredits(u, back);
        InsertRows(u, back, Refund, users[u].balance, j, now);
      } else {
        assert users == users[u := users[u].(balance := users[u].balance)];
        assert ledger == ledger + Rows(u, back, Refund, users[u].balance, Some(j), None, now);
      }
    }

    method FailJob(j: JobId, now: Time)
      requires j in jobs && jobs[j].user in users
      modifies this
      ensures Value() == Billing.FailJob(old(Value()), j, now)
    {
      RefundCredits(j, jobs[j].user, now);
      UpdateStatus(j, Failed, now);
    }

    // --- Transactions of the routes ---

    // The job INSERT is undone together with everything else when the charge raises.
    method CreateJob(j: JobId, job: Job, now: Time) returns (r: Result<()>)
      requires j !in jobs
      modifies this
      ensures r.Ok? ==> Billing.CreateJob(old(Value()), j, job, now) == Ok(Value())
      ensures r.Err? ==> Billing.CreateJob(old(Value()), j, job, now) == Err(r.error) && Value() == old(Value())
    {
      if i :| i in jobs && job.key.Some? && job.key == jobs[i].key && job.integration == jobs[i].integration {
        assert SameKey(job, jobs[i]);
        return Err(DuplicateIdempotencyKey);
      }
      var saved := jobs;
      jobs := jobs[j := job];
      r := ReserveCredits(job.user, job.charged, j, now);
      if r.Err? {
        jobs := saved;
      }
    }

    // The balance is updated before the INSERT can find the duplicate, so the rollback must undo it.
    method TopUp(u: UserId, amount: int, external: string, now: Time) returns (r: Result<()>)
      requires u in users && amount != 0
      modifies this
      ensures r.Ok? ==> Billing.TopUp(old(Value()), u, amount, external, now) == Ok(Value())
      ensures r.Err? ==> Billing.TopUp(old(Value()), u, amount, external, now) == Err(r.error) && Value() == old(Value())
    {
      var saved := users;
      var updated := UpdateCredits(u, Credits(0, amount));
      if !updated {
        return Err(InvalidAmount);
      }
      var balance := users[u].balance;
      if ExternalTaken(ledger, u, external) {
        users := saved;
        return Err(DuplicateExternalId);
      }
      InsertTxn(Txn(u, amount, Paid, Topup, balance.paid, None, Some(external), now));
      assert Rows(u, Credits(0, amount), Topup, balance, None, Some(external), now)
          == [Row(u, Credits(0, amount), Paid, Topup, balance, None, Some(external), now)];
      return Ok(());
    }

    method AdjustCredits(u: UserId, b: Bucket, amount: int, now: Time) returns (r: Result<()>)
      modifies this
      ensures amount == 0 ==> r.Ok? && Value() == old(Value())
      ensures amount != 0 && r.Ok? ==> Adjust(old(Value()), u, b, amount, now) == Ok(Value())
      ensures r.Err? ==> Adjust(old(Value()), u, b, amount, now) == Err(r.error) && Value() == old(Value())
    {
      if amount == 0 {
        return Ok(());
      }
      var ok;
      if b == Free {
        ok := UpdateCredits(u, Credits(amount, 0));
      } else {
        ok := UpdateCredits(u, Credits(0, amount));
      }
      if !ok {
        return Err(InsufficientCredits);
      }
      var balance := users[u].balance;
      InsertTxn(Txn(u, amount, b, AdminAdjustment, if b == Free then balance.free else balance.paid, None, None, now));
      assert Rows(u, InBucket(b, amount), AdminAdjustment, balance, None, None, now)
          == [Row(u, InBucket(b, amount), b, AdminAdjustment, balance, None, None, now)];
      return Ok(());
    }
  }
}
