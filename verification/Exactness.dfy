/**
 balance_after and settlement in interleaved runs, step by step: exactly which steps break them.
 */
module Exactness {
  import opened Options
  import opened Ledger
  import opened Billing
  import opened Interleaving
  import opened Safety
  import opened Effects
  import Alone
  import Serial

  // --- Rows that show the balance they left ---

  // The COMMIT of a charge whose rows were computed from a balance that has changed since.
  ghost predicate Stale(s: State, step: Step) {
    && step.Advance? && step.a in s.actors && s.actors[step.a].Create? && s.actors[step.a].at.CommitCharge?
    && var row, pc := s.actors[step.a].row, s.actors[step.a].at;
    && row.user in s.db.users
    && exists b: Bucket :: pc.split.At(b) != 0 && pc.read.At(b) != s.db.users[row.user].balance.At(b)
  }

  lemma ChargeStaysExactIff(s: State, a: ActorId, row: Job, now: Time, pc: CreatePc)
    requires Inv(s) && a in s.actors && s.actors[a] == Create(row, now, pc) && pc.CommitCharge? && Serial.Exact(s.db)
    ensures Serial.Exact(Next(s, Advance(a)).db) <==> !Stale(s, Advance(a))
  {
    ChargeCommits(s, a, row, now, pc);
    assert UserBalanced(s.db, row.user);
    var d, shown := pc.split.Negated(), pc.read.Plus(pc.split.Negated());
    Serial.PostIsExactIff(s.db, ChargedDb(s, a, row, pc), row.user, d, JobCharge, shown, Some(a), None, now);
    TruthIsFresh(s.db.users[row.user].balance, pc.read, pc.split);
  }

  lemma TruthIsFresh(balance: Credits, read: Credits, split: Credits)
    ensures Serial.ShowsTruth(balance, split.Negated(), read.Plus(split.Negated()))
       <==> forall b: Bucket :: split.At(b) != 0 ==> read.At(b) == balance.At(b)
  {
    forall b: Bucket
      ensures split.Negated().At(b) != 0 <==> split.At(b) != 0
      ensures read.Plus(split.Negated()).At(b) == balance.Plus(split.Negated()).At(b) <==> read.At(b) == balance.At(b)
    {
    }
  }

  lemma FailureStaysExact(s: State, a: ActorId, j: JobId, now: Time, pc: FailPc)
    requires Inv(s) && a in s.actors && s.actors[a] == Fail(j, now, pc) && pc.CommitFailure? && Serial.Exact(s.db)
    ensures Serial.Exact(Next(s, Advance(a)).db)
  {
    FailureCommits(s, a, j, now, pc);
    var u, back := s.db.jobs[j].user, Charges(s.db.ledger, j);
    assert UserBalanced(s.db, u);
    Serial.PostKeepsExact(s.db, FailedDb(s, j, pc), u, back, Refund, s.db.users[u].balance.Plus(back), Some(j), None, now);
  }

  lemma TopUpStaysExact(s: State, a: ActorId, u: UserId, amount: int, external: string, key: Option<Key>, now: Time, pc: TopUpPc)
    requires Inv(s) && a in s.actors && s.actors[a] == TopUp(u, amount, external, key, now, pc) && pc.CommitTopUp?
    requires Serial.Exact(s.db)
    ensures Serial.Exact(Next(s, Advance(a)).db)
  {
    TopUpCommits(s, a, u, amount, external, key, now, pc);
    var d := Credits(0, amount);
    assert UserBalanced(s.db, u);
    Serial.PostKeepsExact(s.db, Next(s, Advance(a)).db, u, d, Topup, s.db.users[u].balance.Plus(d), None, Some(external), now);
  }

  lemma AdjustmentStaysExact(s: State, a: ActorId, u: UserId, b: Bucket, amount: int, now: Time, stage: AdjustPc)
    requires Inv(s) && a in s.actors && s.actors[a] == Actor.Adjust(u, b, amount, now, stage) && stage.CommitAdjustment?
    requires Serial.Exact(s.db)
    ensures Serial.Exact(Next(s, Advance(a)).db)
  {
    AdjustmentCommits(s, a, u, b, amount, now, stage);
    var d := InBucket(b, amount);
    assert UserBalanced(s.db, u);
    Serial.PostKeepsExact(s.db, Next(s, Advance(a)).db, u, d, AdminAdjustment, s.db.users[u].balance.Plus(d), None, None, now);
  }

  lemma AdvanceStaysExactIff(s: State, a: ActorId)
    requires Inv(s) && a in s.actors && Serial.Exact(s.db)
    ensures Serial.Exact(Next(s, Advance(a)).db) <==> !Stale(s, Advance(a))
  {
    if !Commits(s.actors[a]) {
      OthersCommitNothing(s, a);
    } else {
      match s.actors[a]
      case Create(row, now, pc) => ChargeStaysExactIff(s, a, row, now, pc);
      case Fail(j, now, step) => FailureStaysExact(s, a, j, now, step);
      case TopUp(u, amount, external, key, now, pc) => TopUpStaysExact(s, a, u, amount, external, key, now, pc);
      case Adjust(u, b, amount, now, stage) => AdjustmentStaysExact(s, a, u, b, amount, now, stage);
    }
  }

  // In every interleaved run whose rows all show the balance their commit left, the next step keeps that true if
  // and only if it does not commit a stale charge: refunds, top-ups and adjustments always show the truth.
  lemma RowsStayExactIff(steps: seq<Step>, step: Step)
    requires Serial.Exact(Run(steps).db)
    ensures Serial.Exact(Next(Run(steps), step).db) <==> !Stale(Run(steps), step)
  {
    var s := Run(steps);
    RunKeepsInv(steps);
    if !step.Advance? {
      OtherStepsInsertNothing(s, step);
      Serial.SameLedgerStaysExact(s.db, Next(s, step).db);
    } else if step.a in s.actors {
      AdvanceStaysExactIff(s, step.a);
    }
  }

  // An inexact row stays in the ledger, as it is.
  lemma WasExact(s: State, step: Step)
    requires Inv(s) && Serial.Exact(Next(s, step).db)
    ensures Serial.Exact(s.db)
  {
    var t := Next(s, step);
    StepOnlyAdds(s, step);
    forall i | 0 <= i < |s.db.ledger| ensures Serial.ExactAt(s.db, i) {
      assert Serial.ExactAt(t.db, i) && RowBelongs(s.db, s.db.ledger[i]);
      assert t.db.ledger[..i + 1] == s.db.ledger[..i + 1];
    }
  }

  lemma {:induction false} ExactAfterIff(steps: seq<Step>, n: nat)
    requires n <= |steps|
    ensures Serial.Exact(Run(steps[..n]).db) <==> forall m :: 0 <= m < n ==> !Stale(Run(steps[..m]), steps[m])
  {
    if n > 0 {
      ExactAfterIff(steps, n - 1);
      RunKeepsInv(steps[..n - 1]);
      Alone.RunStep(steps, n - 1);
      if Serial.Exact(Run(steps[..n - 1]).db) {
        RowsStayExactIff(steps[..n - 1], steps[n - 1]);
      } else if Serial.Exact(Run(steps[..n]).db) {
        WasExact(Run(steps[..n - 1]), steps[n - 1]);
      }
    }
  }

  // Every row of an interleaved run shows the balance it left if and only if no step of the run committed a stale charge.
  lemma RunIsExactIff(steps: seq<Step>)
    ensures Serial.Exact(Run(steps).db) <==> forall m :: 0 <= m < |steps| ==> !Stale(Run(steps[..m]), steps[m])
  {
    ExactAfterIff(steps, |steps|);
    assert steps[..|steps|] == steps;
  }

  // ... and then each row continues the previous one of its user and bucket, in the order of commits.
  lemma RowsChain(steps: seq<Step>, p: nat, i: nat)
    requires forall m :: 0 <= m < |steps| ==> !Stale(Run(steps[..m]), steps[m])
    requires var rows := Run(steps).db.ledger;
             && p < i < |rows| && Serial.SameLine(rows[p], rows[i].user, rows[i].bucket)
             && forall k :: p < k < i ==> !Serial.SameLine(rows[k], rows[i].user, rows[i].bucket)
    ensures var rows := Run(steps).db.ledger; rows[i].balanceAfter == rows[p].balanceAfter + rows[i].amount
  {
    RunIsExactIff(steps);
    assert Serial.ExactAt(Run(steps).db, p) && Serial.ExactAt(Run(steps).db, i);
    Serial.ExactRowsChain(Run(steps).db, p, i);
  }

  // --- Jobs that are failed exactly when their charge went back ---

  // A failed job's rows net to zero in each bucket, any other job's rows to what the bucket was charged.
  ghost predicate JobSettled(db: Store, j: JobId)
    requires j in db.jobs
  {
    BucketSettled(db, j, Free) && BucketSettled(db, j, Paid)
  }

  ghost predicate BucketSettled(db: Store, j: JobId, b: Bucket)
    requires j in db.jobs
  {
    Sum(db.ledger, OfJob(j, b)) == if db.jobs[j].status == Failed then 0 else -Sum(db.ledger, ChargesOf(j, b))
  }

  lemma NetIff(c: int, k: nat)
    requires c >= 0
    ensures Net(c, k) == 0 <==> c == 0 || k == 1
    ensures Net(c, k) == -c <==> c == 0 || k == 0
  {
    NetIs(c, k);
    if c > 0 && k > 1 {
      assert c * (k - 1) > 0;
    }
  }

  // In the books a job is settled if and only if it cost nothing or was failed as often as its status says.
  lemma JobSettledIff(db: Store, j: JobId, k: nat)
    requires j in db.jobs && JobBalanced(db, j, k)
    ensures JobSettled(db, j) <==> db.jobs[j].charged == 0 || k == if db.jobs[j].status == Failed then 1 else 0
  {
    ChargesAreNonNegative(db.ledger, j);
    NetIff(Sum(db.ledger, ChargesOf(j, Free)), k);
    NetIff(Sum(db.ledger, ChargesOf(j, Paid)), k);
  }

  // The step writes the status of a charged job that is already failed.
  predicate Overwrites(s: State, step: Step, j: JobId)
    requires j in s.db.jobs
  {
    WritesStatus(s, step, j) && s.db.jobs[j].status == Failed && s.db.jobs[j].charged > 0
  }

  // In every interleaved run a settled job stays settled through the next step if and only if that step does not
  // write the status of a charged job that is already failed: the guard update_status does not have.
  lemma JobsStaySettledIff(steps: seq<Step>, step: Step, j: JobId)
    requires j in Run(steps).db.jobs && JobSettled(Run(steps).db, j)
    ensures j in Next(Run(steps), step).db.jobs
    ensures JobSettled(Next(Run(steps), step).db, j) <==> !Overwrites(Run(steps), step, j)
  {
    var s := Run(steps);
    var t := Next(s, step);
    RunKeepsInv(steps);
    NextKeepsInv(s, step);
    StepOnJob(s, step, j);
    assert JobBalanced(s.db, j, s.failures[j]) && JobBalanced(t.db, j, t.failures[j]);
    JobSettledIff(s.db, j, s.failures[j]);
    JobSettledIff(t.db, j, t.failures[j]);
  }
}
