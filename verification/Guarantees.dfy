/**
 The guarantees that hold after every interleaved run, crash and lost cache key, as their users would state them.
 */
module Guarantees {
  import opened Options
  import opened Ledger
  import opened Billing
  import opened Interleaving
  import opened Safety
  import Effects
  import Exactness

  // Each balance is the one-time grant plus the user's rows, bucket by bucket, and never negative.
  lemma BalancesConserved(steps: seq<Step>, u: UserId)
    requires u in Run(steps).db.users
    ensures var db := Run(steps).db;
            && 0 <= db.users[u].balance.free == db.users[u].grant + Sum(db.ledger, OfUser(u, Free))
            && 0 <= db.users[u].balance.paid == Sum(db.ledger, OfUser(u, Paid))
  {
    var s := Run(steps);
    RunKeepsInv(steps);
    assert UserBalanced(s.db, u);
  }

  // Each job was charged in full, and each bucket of its rows nets to that bucket's charge times one less than
  // the number of its committed failures.
  lemma JobsNetByFailures(steps: seq<Step>, j: JobId, b: Bucket)
    requires j in Run(steps).db.jobs
    ensures var s := Run(steps);
            && j in s.failures
            && Sum(s.db.ledger, ChargesOf(j, Free)) + Sum(s.db.ledger, ChargesOf(j, Paid)) == s.db.jobs[j].charged
            && Sum(s.db.ledger, OfJob(j, b)) == Sum(s.db.ledger, ChargesOf(j, b)) * (s.failures[j] as int - 1)
  {
    var s := Run(steps);
    RunKeepsInv(steps);
    assert JobBalanced(s.db, j, s.failures[j]);
    NetIs(Sum(s.db.ledger, ChargesOf(j, b)), s.failures[j]);
  }

  // What has been given back of a job's charge, over both buckets
  function Returned(s: State, j: JobId): int
    requires j in s.db.jobs
  {
    Sum(s.db.ledger, OfJob(j, Free)) + Sum(s.db.ledger, OfJob(j, Paid)) + s.db.jobs[j].charged
  }

  lemma ReturnedIs(s: State, j: JobId, k: nat)
    requires Inv(s) && j in s.db.jobs && j in s.failures && s.failures[j] == k
    ensures Returned(s, j) == s.db.jobs[j].charged * k
  {
    assert JobBalanced(s.db, j, k);
    var free, paid := Sum(s.db.ledger, ChargesOf(j, Free)), Sum(s.db.ledger, ChargesOf(j, Paid));
    NetIs(free, k);
    NetIs(paid, k);
    Distributes(free, paid, k);
  }

  lemma Distributes(x: int, y: int, k: int)
    ensures x * (k - 1) + y * (k - 1) + (x + y) == (x + y) * k
  {
  }

  lemma FailureIsCounted(s: State, a: ActorId)
    requires Inv(s) && a in s.actors && s.actors[a].Fail? && s.actors[a].step.CommitFailure?
    ensures var t, j := Next(s, Advance(a)), s.actors[a].job;
            && j in s.db.jobs && j in t.db.jobs && t.db.jobs[j].charged == s.db.jobs[j].charged
            && j in s.failures && j in t.failures && t.failures[j] == s.failures[j] + 1
  {
    assert ActorOk(s, a);
    var j := s.actors[a].job;
    assert JobBalanced(s.db, j, s.failures[j]);
  }

  lemma OnceMore(s: State, t: State, j: JobId, c: int, k: nat)
    requires j in s.db.jobs && j in t.db.jobs && s.db.jobs[j].charged == c == t.db.jobs[j].charged
    requires Inv(s) && j in s.failures && s.failures[j] == k && Inv(t) && j in t.failures && t.failures[j] == k + 1
    ensures Returned(t, j) == Returned(s, j) + c
  {
    ReturnedIs(s, j, k);
    ReturnedIs(t, j, k + 1);
    assert c * (k + 1) == c * k + c;
  }

  // A commit of _fail_job gives the whole charge back once more and leaves the job failed. Of a job that was
  // settled, this leaves a settled one if and only if the job was not failed already, or cost nothing; the charge
  // has then come back exactly once.
  lemma FailureRefundsOnceIff(steps: seq<Step>, a: ActorId)
    requires var s := Run(steps); a in s.actors && s.actors[a].Fail? && s.actors[a].step.CommitFailure?
    ensures var s, t, j := Run(steps), Next(Run(steps), Advance(a)), Run(steps).actors[a].job;
            && j in s.db.jobs && j in t.db.jobs
            && Returned(t, j) == Returned(s, j) + s.db.jobs[j].charged
            && (Returned(t, j) == t.db.jobs[j].charged <==> Returned(s, j) == 0)
            && t.db.jobs[j].status == Failed
            && (Exactness.JobSettled(s.db, j) ==>
                  (Exactness.JobSettled(t.db, j) <==> s.db.jobs[j].status != Failed || s.db.jobs[j].charged == 0))
  {
    var s := Run(steps);
    var j := s.actors[a].job;
    RunKeepsInv(steps);
    NextKeepsInv(s, Advance(a));
    FailureIsCounted(s, a);
    OnceMore(s, Next(s, Advance(a)), j, s.db.jobs[j].charged, s.failures[j]);
    Effects.StepOnJob(s, Advance(a), j);
    if Exactness.JobSettled(s.db, j) {
      Exactness.JobsStaySettledIff(steps, Advance(a), j);
    }
  }

  // refund_credits ignores whether its UPDATE matched; it always does.
  lemma RefundAlwaysLands(steps: seq<Step>, a: ActorId)
    requires var s := Run(steps); a in s.actors && s.actors[a].Fail? && s.actors[a].step.RefundUser?
    ensures var s := Run(steps); var j := s.actors[a].job;
            && j in s.db.jobs && s.db.jobs[j].user in s.db.users
            && s.db.users[s.db.jobs[j].user].balance.Plus(s.actors[a].step.back).NonNegative()
  {
    var s := Run(steps);
    RunKeepsInv(steps);
    assert ActorOk(s, a);
    var j := s.actors[a].job;
    assert JobBalanced(s.db, j, s.failures[j]) && UserBalanced(s.db, s.db.jobs[j].user);
    ChargesAreNonNegative(s.db.ledger, j);
  }

  // At most one job, hence at most one full charge, per integration and Idempotency-Key, whatever Redis forgets.
  lemma OneJobPerKey(steps: seq<Step>, i: JobId, j: JobId, key: Key)
    requires IsJobOf(Run(steps), i, key) && IsJobOf(Run(steps), j, key)
    ensures i == j
  {
    var s := Run(steps);
    RunKeepsInv(steps);
    assert SameKey(s.db.jobs[i], s.db.jobs[j]);
  }

  // Every cached entry names the committed job of that very key, so the branch that drops a stale key never
  // runs, and every answer, fresh or replayed, names the job of the request's own key.
  lemma CacheNamesTheJob(steps: seq<Step>)
    ensures var s := Run(steps);
            && (forall k :: k in s.keys ==> IsJobOf(s, s.keys[k], k))
            && (forall a :: a in s.actors && s.actors[a].Create? ==>
                  && !s.actors[a].at.DropKey?
                  && (s.actors[a].at.Answered? && KeyOf(s.actors[a].row).Some? ==>
                        IsJobOf(s, s.actors[a].at.reply, KeyOf(s.actors[a].row).value)))
  {
    var s := Run(steps);
    RunKeepsInv(steps);
    forall k | k in s.keys ensures IsJobOf(s, s.keys[k], k) {
    }
    forall a | a in s.actors && s.actors[a].Create?
      ensures !s.actors[a].at.DropKey?
      ensures s.actors[a].at.Answered? && KeyOf(s.actors[a].row).Some? ==>
                IsJobOf(s, s.actors[a].at.reply, KeyOf(s.actors[a].row).value)
    {
      assert ActorOk(s, a);
    }
  }

  // A refused request, the loser of two inserts for one key among them, leaves no job and no charge.
  lemma RefusedLeavesNothing(steps: seq<Step>, a: ActorId)
    requires var s := Run(steps); a in s.actors && s.actors[a].Create? && s.actors[a].at.Refused?
    ensures a !in Run(steps).db.jobs
    ensures forall t :: t in Run(steps).db.ledger ==> t.job != Some(a)
  {
    var s := Run(steps);
    RunKeepsInv(steps);
    assert ActorOk(s, a);
    forall t | t in s.db.ledger ensures t.job != Some(a) {
      assert RowBelongs(s.db, t);
    }
  }

  // A top-up that reports success is in the ledger exactly once, as a paid credit of its amount, however many requests
  // carried its id and whatever happened to the cached replies.
  lemma TopUpOnce(steps: seq<Step>, a: ActorId) returns (i: nat)
    requires var s := Run(steps); a in s.actors && s.actors[a].TopUp? && s.actors[a].pc.Credited?
    ensures var rows, u, e := Run(steps).db.ledger, Run(steps).actors[a].user, Run(steps).actors[a].external;
            && i < |rows| && rows[i].user == u && rows[i].external == Some(e)
            && rows[i].bucket == Paid && rows[i].reason == Topup && rows[i].amount == Run(steps).actors[a].amount
            && forall k :: 0 <= k < |rows| && rows[k].user == u && rows[k].external == Some(e) ==> k == i
  {
    var s := Run(steps);
    RunKeepsInv(steps);
    assert ActorOk(s, a);
    var u, e := s.actors[a].user, s.actors[a].external;
    var t :| t in s.db.ledger && t.user == u && t.external == Some(e) && t.amount == s.actors[a].amount;
    i :| 0 <= i < |s.db.ledger| && s.db.ledger[i] == t;
    assert s.db.ledger[i] in s.db.ledger && RowBelongs(s.db, s.db.ledger[i]);
    forall k | 0 <= k < |s.db.ledger| && s.db.ledger[k].user == u && s.db.ledger[k].external == Some(e) ensures k == i {
      if k < i {
        assert false;
      } else if i < k {
        assert false;
      }
    }
  }

  // Two committed top-ups of one user never share an external id, whether or not anyone was told of them.
  lemma ExternalIdsAreUnique(steps: seq<Step>, i: nat, k: nat)
    requires var rows := Run(steps).db.ledger;
             && i < |rows| && k < |rows| && rows[i].external.Some?
             && rows[i].user == rows[k].user && rows[i].external == rows[k].external
    ensures i == k
  {
    RunKeepsInv(steps);
  }

  // --- Free credits first ---

  // A charge is split over the balance that was read. Its commit takes paid credits and leaves free ones unused if
  // and only if it takes paid ones at all and the free balance has changed since.
  lemma PaidBeforeFreeIff(steps: seq<Step>, a: ActorId)
    requires var s := Run(steps); a in s.actors && s.actors[a].Create? && s.actors[a].at.CommitCharge?
    ensures var s, t := Run(steps), Next(Run(steps), Advance(a)); var u, pc := s.actors[a].row.user, s.actors[a].at;
            && u in s.db.users && u in t.db.users
            && t.db.users[u].balance == s.db.users[u].balance.Plus(pc.split.Negated())
            && (pc.split.paid > 0 && t.db.users[u].balance.free > 0 <==>
                pc.split.paid > 0 && pc.read.free != s.db.users[u].balance.free)
  {
    var s := Run(steps);
    RunKeepsInv(steps);
    assert ActorOk(s, a);
    Effects.ChargeCommits(s, a, s.actors[a].row, s.actors[a].now, s.actors[a].at);
  }

  // --- balance_after ---

  // A charge row shows the balance reserve_credits read before its UPDATE, less the charge: right exactly when
  // nobody changed that bucket in between.
  lemma ChargeRowIsExactIff(steps: seq<Step>, a: ActorId, t: Txn)
    requires var s := Run(steps); a in s.actors && s.actors[a].Create? && s.actors[a].at.CommitCharge?
                                  && t in s.actors[a].at.rows
    ensures var s := Run(steps); var row, pc := s.actors[a].row, s.actors[a].at;
            && row.user in s.db.users
            && (t.balanceAfter == pc.after.At(t.bucket) <==> pc.read.At(t.bucket) == s.db.users[row.user].balance.At(t.bucket))
  {
    var s := Run(steps);
    RunKeepsInv(steps);
    assert ActorOk(s, a);
    var row, pc := s.actors[a].row, s.actors[a].at;
    RowsAreFor(row.user, pc.split.Negated(), JobCharge, pc.read.Plus(pc.split.Negated()), Some(a), None, s.actors[a].now);
  }

  lemma RefundRowIsExact(steps: seq<Step>, a: ActorId, t: Txn)
    requires var s := Run(steps); a in s.actors && s.actors[a].Fail? && s.actors[a].step.CommitFailure?
                                  && t in s.actors[a].step.rows
    ensures Run(steps).actors[a].step.written.Some?
    ensures t.balanceAfter == Run(steps).actors[a].step.written.value.At(t.bucket)
  {
    var s := Run(steps);
    RunKeepsInv(steps);
    assert ActorOk(s, a);
    var j := s.actors[a].job;
    RowsAreFor(s.db.jobs[j].user, Charges(s.db.ledger, j), Refund, s.actors[a].step.written.value, Some(j), None, s.actors[a].now);
  }
}
