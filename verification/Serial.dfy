/**
 Transactions one after another, each at its own start time: beyond the books, every ledger row then shows the
 exact balance it left, so the rows of a user and bucket form a chain that ends in the stored balance.
 */
module Serial {
  import opened Options
  import opened Ledger
  import opened Billing

  // One committed or refused transaction, or one autocommitted write of a job's status.
  datatype Change =
    | Register(u: UserId, user: User)
    | Create(j: JobId, job: Job)
    | Fail(j: JobId)
    | Start(j: JobId)
    | Succeed(j: JobId)
    | Credit(u: UserId, amount: int, external: string)
    | Correct(u: UserId, bucket: Bucket, amount: int)

  datatype Accounts = Accounts(store: Store, failures: Failures)

  const NO_ACCOUNTS := Accounts(Store(map[], map[], []), map[])

  ghost predicate Possible(a: Accounts, c: Change) {
    match c
    case Register(u, user) => u !in a.store.users && user.balance == Credits(user.grant, 0)
    case Create(j, job) => j !in a.store.jobs && job.status == Pending
    case Fail(j) => j in a.store.jobs && j in a.failures && a.store.jobs[j].user in a.store.users
    case Start(j) => j in a.store.jobs
    case Succeed(j) => j in a.store.jobs
    case Credit(u, amount, _) => u in a.store.users && amount > 0
    case Correct(u, _, amount) => u in a.store.users && amount != 0
  }

  ghost function OrElse(r: Result<Store>, s: Store): Store {
    if r.Ok? then r.value else s
  }

  ghost function Commit(a: Accounts, c: Change, now: Time): Accounts
    requires Possible(a, c)
  {
    match c
    case Register(u, user) => a.(store := a.store.(users := a.store.users[u := user]))
    case Create(j, job) =>
      (match CreateJob(a.store, j, job, now)
       case Ok(s) => Accounts(s, a.failures[j := 0])
       case Err(_) => a)
    case Fail(j) => Accounts(FailJob(a.store, j, now), a.failures[j := a.failures[j] + 1])
    case Start(j) => a.(store := StartJob(a.store, j, now))
    case Succeed(j) => a.(store := SetStatus(a.store, j, Succeeded))
    case Credit(u, amount, external) => a.(store := OrElse(TopUp(a.store, u, amount, external, now), a.store))
    case Correct(u, b, amount) => a.(store := OrElse(Adjust(a.store, u, b, amount, now), a.store))
  }

  // --- What a change does to the tables, once for all changes ---

  lemma CreateIsPosted(s: Store, failures: Failures, j: JobId, job: Job, now: Time) returns (split: Credits)
    requires Books(s, failures) && j !in s.jobs && CreateJob(s, j, job, now).Ok?
    ensures job.user in s.users
    ensures CalculateCreditSplit(s.users[job.user].balance, job.charged) == Ok(split) && split.NonNegative()
    ensures var s' := CreateJob(s, j, job, now).value;
            && s'.jobs == s.jobs[j := job]
            && Posted(s, s', job.user, split.Negated(), JobCharge, s.users[job.user].balance.Plus(split.Negated()), Some(j), None, now)
    ensures s.users[job.user].balance.Plus(split.Negated()).NonNegative()
  {
    assert UserBalanced(s, job.user);
    split := CalculateCreditSplit(s.users[job.user].balance, job.charged).value;
  }

  lemma FailIsPosted(s: Store, failures: Failures, j: JobId, now: Time)
    requires Books(s, failures) && j in s.jobs
    ensures s.jobs[j].user in s.users
    ensures var u, back, s' := s.jobs[j].user, Charges(s.ledger, j), FailJob(s, j, now);
            && s'.jobs == s.jobs[j := s.jobs[j].(status := Failed)]
            && s.users[u].balance.Plus(back).NonNegative()
            && Posted(s, s', u, back, Refund, s.users[u].balance.Plus(back), Some(j), None, now)
  {
    assert JobBalanced(s, j, failures[j]);
    assert UserBalanced(s, s.jobs[j].user);
    ChargesAreNonNegative(s.ledger, j);
  }

  lemma CommitKeepsBooks(a: Accounts, c: Change, now: Time)
    requires Books(a.store, a.failures) && Possible(a, c)
    ensures Books(Commit(a, c, now).store, Commit(a, c, now).failures)
  {
    var s, a' := a.store, Commit(a, c, now);
    match c
    case Register(u, user) => RegisterKeepsBooks(s, a.failures, u, user);
    case Create(j, job) =>
      if CreateJob(s, j, job, now).Ok? {
        var split := CreateIsPosted(s, a.failures, j, job, now);
        ChargeKeepsBooks(s, a'.store, a.failures, j, split, s.users[job.user].balance.Plus(split.Negated()), now);
      }
    case Fail(j) =>
      FailIsPosted(s, a.failures, j, now);
      var back := Charges(s.ledger, j);
      RefundKeepsBooks(s, a'.store, a.failures, j, back, s.users[s.jobs[j].user].balance.Plus(back), now);
    case Start(j) => StatusKeepsBooks(s, a.failures, j, a'.store.jobs[j]);
    case Succeed(j) => StatusKeepsBooks(s, a.failures, j, a'.store.jobs[j]);
    case Credit(u, amount, external) =>
      if a'.store != s {
        var d := Credits(0, amount);
        CreditKeepsBooks(s, a'.store, a.failures, u, d, Topup, s.users[u].balance.Plus(d), Some(external), now);
      }
    case Correct(u, b, amount) =>
      if a'.store != s {
        var d := InBucket(b, amount);
        CreditKeepsBooks(s, a'.store, a.failures, u, d, AdminAdjustment, s.users[u].balance.Plus(d), None, now);
      }
  }

  // --- Exact rows ---

  // Row i shows the balance as it stood right after row i.
  ghost predicate ExactAt(s: Store, i: nat)
    requires i < |s.ledger|
  {
    var t := s.ledger[i];
    t.user in s.users && t.balanceAfter == Opening(s.users[t.user], t.bucket) + Sum(s.ledger[..i + 1], OfUser(t.user, t.bucket))
  }

  ghost predicate Exact(s: Store) {
    forall i {:trigger ExactAt(s, i)} :: 0 <= i < |s.ledger| ==> ExactAt(s, i)
  }

  // Rows come in order of created_at, and rows of one user and bucket never share it.
  predicate InOrder(ledger: seq<Txn>) {
    forall i, k :: 0 <= i < k < |ledger| ==>
      ledger[i].createdAt < ledger[k].createdAt
      || (ledger[i].createdAt == ledger[k].createdAt && ledger[i].bucket != ledger[k].bucket)
  }

  ghost predicate Before(ledger: seq<Txn>, now: Time) {
    forall t :: t in ledger ==> t.createdAt < now
  }

  // A new row is exact if and only if it shows the committed balance moved by the change.
  lemma NewRowExactIff(s: Store, s': Store, u: UserId, d: Credits, reason: Reason, shown: Credits,
                       job: Option<JobId>, external: Option<string>, now: Time, i: nat)
    requires Posted(s, s', u, d, reason, shown, job, external, now) && UserBalanced(s, u)
    requires |s.ledger| <= i < |s'.ledger|
    ensures var b := s'.ledger[i].bucket; ExactAt(s', i) <==> shown.At(b) == s.users[u].balance.Plus(d).At(b)
  {
    var n, rows := |s.ledger|, Rows(u, d, reason, shown, job, external, now);
    var t := rows[i - n];
    assert s'.ledger[i] == t && t in rows;
    RowsAreFor(u, d, reason, shown, job, external, now);
    assert s'.ledger[..i + 1] == s.ledger + rows[..i + 1 - n];
    SumAppend(s.ledger, rows[..i + 1 - n], OfUser(u, t.bucket));
    SumUpToRow(u, d, reason, shown, job, external, now, i - n);
  }

  lemma OldRowStaysExact(s: Store, s': Store, u: UserId, d: Credits, reason: Reason, shown: Credits,
                         job: Option<JobId>, external: Option<string>, now: Time, i: nat)
    requires Posted(s, s', u, d, reason, shown, job, external, now) && i < |s.ledger| && ExactAt(s, i)
    ensures ExactAt(s', i)
  {
    assert s'.ledger[..i + 1] == s.ledger[..i + 1];
  }

  // The rows of every changed bucket show the balance they leave.
  predicate ShowsTruth(balance: Credits, d: Credits, shown: Credits) {
    forall b :: d.At(b) != 0 ==> shown.At(b) == balance.Plus(d).At(b)
  }

  lemma PostIsExactIff(s: Store, s': Store, u: UserId, d: Credits, reason: Reason, shown: Credits,
                       job: Option<JobId>, external: Option<string>, now: Time)
    requires Exact(s) && Posted(s, s', u, d, reason, shown, job, external, now) && UserBalanced(s, u)
    ensures Exact(s') <==> ShowsTruth(s.users[u].balance, d, shown)
  {
    var n := |s.ledger|;
    RowsAreFor(u, d, reason, shown, job, external, now);
    if ShowsTruth(s.users[u].balance, d, shown) {
      forall i | 0 <= i < |s'.ledger| ensures ExactAt(s', i) {
        if i < n {
          assert ExactAt(s, i);
          OldRowStaysExact(s, s', u, d, reason, shown, job, external, now, i);
        } else {
          NewRowExactIff(s, s', u, d, reason, shown, job, external, now, i);
          assert s'.ledger[i] in Rows(u, d, reason, shown, job, external, now);
        }
      }
    }
    if Exact(s') {
      forall b | d.At(b) != 0 ensures shown.At(b) == s.users[u].balance.Plus(d).At(b) {
        var i := if b == Free || d.free == 0 then n else n + 1;
        assert s'.ledger[i].bucket == b && ExactAt(s', i);
        NewRowExactIff(s, s', u, d, reason, shown, job, external, now, i);
      }
    }
  }

  lemma PostKeepsExact(s: Store, s': Store, u: UserId, d: Credits, reason: Reason, shown: Credits,
                       job: Option<JobId>, external: Option<string>, now: Time)
    requires Exact(s) && Posted(s, s', u, d, reason, shown, job, external, now)
    requires UserBalanced(s, u) && shown == s.users[u].balance.Plus(d)
    ensures Exact(s')
  {
    PostIsExactIff(s, s', u, d, reason, shown, job, external, now);
  }

  lemma SumUpToRow(u: UserId, d: Credits, reason: Reason, shown: Credits, job: Option<JobId>,
                   external: Option<string>, now: Time, i: nat)
    requires i < |Rows(u, d, reason, shown, job, external, now)|
    ensures var rows := Rows(u, d, reason, shown, job, external, now);
            Sum(rows[..i + 1], OfUser(u, rows[i].bucket)) == rows[i].amount
  {
    var rows := Rows(u, d, reason, shown, job, external, now);
    assert rows[..i + 1][..i] == rows[..i];
    if i == 1 {
      assert rows[..1][..0] == [];
      assert Sum(rows[..1], OfUser(u, Paid)) == 0;
    }
  }

  lemma PostKeepsOrder(s: Store, s': Store, u: UserId, d: Credits, reason: Reason, shown: Credits,
                       job: Option<JobId>, external: Option<string>, now: Time)
    requires InOrder(s.ledger) && Before(s.ledger, now)
    requires Posted(s, s', u, d, reason, shown, job, external, now)
    ensures InOrder(s'.ledger)
  {
    var rows := Rows(u, d, reason, shown, job, external, now);
    RowsAreFor(u, d, reason, shown, job, external, now);
    forall i, k | 0 <= i < k < |s'.ledger|
      ensures s'.ledger[i].createdAt < s'.ledger[k].createdAt
              || (s'.ledger[i].createdAt == s'.ledger[k].createdAt && s'.ledger[i].bucket != s'.ledger[k].bucket)
    {
      if k >= |s.ledger| {
        assert s'.ledger[k] == rows[k - |s.ledger|] && s'.ledger[k] in rows;
        if i < |s.ledger| {
          assert s'.ledger[i] == s.ledger[i] && s.ledger[i] in s.ledger;
        }
      }
    }
  }

  ghost predicate Audited(s: Store) {
    Exact(s) && InOrder(s.ledger)
  }

  lemma PostKeepsAudited(s: Store, s': Store, u: UserId, d: Credits, reason: Reason, shown: Credits,
                         job: Option<JobId>, external: Option<string>, now: Time)
    requires Audited(s) && Before(s.ledger, now) && Posted(s, s', u, d, reason, shown, job, external, now)
    requires UserBalanced(s, u) && shown == s.users[u].balance.Plus(d)
    ensures Audited(s')
  {
    PostKeepsExact(s, s', u, d, reason, shown, job, external, now);
    PostKeepsOrder(s, s', u, d, reason, shown, job, external, now);
  }

  lemma SameLedgerStaysExact(s: Store, s': Store)
    requires Exact(s) && s'.ledger == s.ledger
    requires forall u :: u in s.users ==> u in s'.users && s'.users[u] == s.users[u]
    ensures Exact(s')
  {
    forall i | 0 <= i < |s'.ledger| ensures ExactAt(s', i) {
      assert ExactAt(s, i);
    }
  }

  lemma CommitKeepsAudited(a: Accounts, c: Change, now: Time)
    requires Books(a.store, a.failures) && Audited(a.store) && Before(a.store.ledger, now) && Possible(a, c)
    ensures Audited(Commit(a, c, now).store)
  {
    var s, s' := a.store, Commit(a, c, now).store;
    match c
    case Create(j, job) =>
      if CreateJob(s, j, job, now).Ok? {
        var split := CreateIsPosted(s, a.failures, j, job, now);
        assert UserBalanced(s, job.user);
        PostKeepsAudited(s, s', job.user, split.Negated(), JobCharge, s.users[job.user].balance.Plus(split.Negated()),
                         Some(j), None, now);
      }
    case Fail(j) =>
      FailIsPosted(s, a.failures, j, now);
      var u, back := s.jobs[j].user, Charges(s.ledger, j);
      assert UserBalanced(s, u);
      PostKeepsAudited(s, s', u, back, Refund, s.users[u].balance.Plus(back), Some(j), None, now);
    case Credit(u, amount, external) =>
      if s' != s {
        assert UserBalanced(s, u);
        PostKeepsAudited(s, s', u, Credits(0, amount), Topup, s.users[u].balance.Plus(Credits(0, amount)), None, Some(external), now);
      }
    case Correct(u, b, amount) =>
      if s' != s {
        assert UserBalanced(s, u);
        PostKeepsAudited(s, s', u, InBucket(b, amount), AdminAdjustment, s.users[u].balance.Plus(InBucket(b, amount)), None, None, now);
      }
    case _ => SameLedgerStaysExact(s, s');
  }

  // --- Runs ---

  // A change that is not possible does nothing.
  ghost function Apply(a: Accounts, c: Change, now: Time): Accounts {
    if Possible(a, c) then Commit(a, c, now) else a
  }

  // Accounts reached by one change after another, each with the start time of its transaction.
  ghost function After(changes: seq<(Change, Time)>): Accounts {
    if changes == [] then NO_ACCOUNTS
    else
      var a := After(changes[..|changes| - 1]);
      var (c, now) := changes[|changes| - 1];
      Apply(a, c, now)
  }

  predicate Ascending(changes: seq<(Change, Time)>) {
    forall i, k :: 0 <= i < k < |changes| ==> changes[i].1 < changes[k].1
  }

  lemma {:induction false} AfterKeepsBooks(changes: seq<(Change, Time)>)
    ensures Books(After(changes).store, After(changes).failures)
  {
    if changes != [] {
      var front := changes[..|changes| - 1];
      var (c, now) := changes[|changes| - 1];
      AfterKeepsBooks(front);
      if Possible(After(front), c) {
        CommitKeepsBooks(After(front), c, now);
      }
    }
  }

  lemma CommitStaysBefore(a: Accounts, c: Change, now: Time, later: Time)
    requires Books(a.store, a.failures) && Possible(a, c) && Before(a.store.ledger, now) && now < later
    ensures Before(Commit(a, c, now).store.ledger, later)
  {
    match c
    case Create(j, job) =>
      if CreateJob(a.store, j, job, now).Ok? {
        var split := CreateIsPosted(a.store, a.failures, j, job, now);
        RowsAreFor(job.user, split.Negated(), JobCharge, a.store.users[job.user].balance.Plus(split.Negated()), Some(j), None, now);
      }
    case Fail(j) =>
      FailIsPosted(a.store, a.failures, j, now);
      var u, back := a.store.jobs[j].user, Charges(a.store.ledger, j);
      RowsAreFor(u, back, Refund, a.store.users[u].balance.Plus(back), Some(j), None, now);
    case Credit(u, amount, external) =>
      RowsAreFor(u, Credits(0, amount), Topup, a.store.users[u].balance.Plus(Credits(0, amount)), None, Some(external), now);
    case Correct(u, b, amount) =>
      RowsAreFor(u, InBucket(b, amount), AdminAdjustment, a.store.users[u].balance.Plus(InBucket(b, amount)), None, None, now);
    case _ =>
  }

  lemma {:induction false} AfterKeepsAudited(changes: seq<(Change, Time)>, later: Time)
    requires Ascending(changes) && forall i :: 0 <= i < |changes| ==> changes[i].1 < later
    ensures Audited(After(changes).store) && Before(After(changes).store.ledger, later)
  {
    if changes != [] {
      var front := changes[..|changes| - 1];
      var (c, now) := changes[|changes| - 1];
      AfterKeepsAudited(front, now);
      AfterKeepsBooks(front);
      if Possible(After(front), c) {
        CommitKeepsAudited(After(front), c, now);
        CommitStaysBefore(After(front), c, now, later);
      }
    }
  }

  // --- The chain ---

  predicate SameLine(t: Txn, u: UserId, b: Bucket) {
    t.user == u && t.bucket == b
  }

  // Each row shows the previous balance_after of its user and bucket plus its own amount.
  lemma LedgerChain(changes: seq<(Change, Time)>, p: nat, i: nat)
    requires Ascending(changes)
    requires var rows := After(changes).store.ledger;
             && p < i < |rows|
             && SameLine(rows[p], rows[i].user, rows[i].bucket)
             && forall k :: p < k < i ==> !SameLine(rows[k], rows[i].user, rows[i].bucket)
    ensures var rows := After(changes).store.ledger;
            rows[i].balanceAfter == rows[p].balanceAfter + rows[i].amount
  {
    var s := After(changes).store;
    AfterKeepsAudited(changes, Latest(changes));
    assert ExactAt(s, p) && ExactAt(s, i);
    ExactRowsChain(s, p, i);
  }

  lemma SumNext(rows: seq<Txn>, i: nat, q: Query)
    requires i < |rows|
    ensures Sum(rows[..i + 1], q) == Sum(rows[..i], q) + Weight(q, rows[i])
  {
    assert rows[..i + 1][..i] == rows[..i];
  }

  lemma ExactRowsChain(s: Store, p: nat, i: nat)
    requires p < i < |s.ledger| && ExactAt(s, p) && ExactAt(s, i)
    requires SameLine(s.ledger[p], s.ledger[i].user, s.ledger[i].bucket)
    requires forall k :: p < k < i ==> !SameLine(s.ledger[k], s.ledger[i].user, s.ledger[i].bucket)
    ensures s.ledger[i].balanceAfter == s.ledger[p].balanceAfter + s.ledger[i].amount
  {
    var u, b := s.ledger[i].user, s.ledger[i].bucket;
    SumOverGap(s.ledger, p + 1, i, u, b);
    SumNext(s.ledger, i, OfUser(u, b));
  }

  // The first row of a user and bucket starts from the grant, or from nothing.
  lemma LedgerChainStarts(changes: seq<(Change, Time)>, i: nat)
    requires Ascending(changes)
    requires var rows := After(changes).store.ledger;
             i < |rows| && forall k :: 0 <= k < i ==> !SameLine(rows[k], rows[i].user, rows[i].bucket)
    ensures var s := After(changes).store; var t := s.ledger[i];
            t.user in s.users && t.balanceAfter == Opening(s.users[t.user], t.bucket) + t.amount
  {
    var s := After(changes).store;
    AfterKeepsAudited(changes, Latest(changes));
    assert ExactAt(s, i);
    SumOverGap(s.ledger, 0, i, s.ledger[i].user, s.ledger[i].bucket);
    SumNext(s.ledger, i, OfUser(s.ledger[i].user, s.ledger[i].bucket));
  }

  function Latest(changes: seq<(Change, Time)>): (t: Time)
    ensures Ascending(changes) ==> forall i :: 0 <= i < |changes| ==> changes[i].1 < t
  {
    if changes == [] then 0 else changes[|changes| - 1].1 + 1
  }

  lemma {:induction false} SumOverGap(rows: seq<Txn>, p: nat, i: nat, u: UserId, b: Bucket)
    requires p <= i <= |rows| && forall k :: p <= k < i ==> !SameLine(rows[k], u, b)
    ensures Sum(rows[..i], OfUser(u, b)) == Sum(rows[..p], OfUser(u, b))
  {
    if p < i {
      SumOverGap(rows, p, i - 1, u, b);
      assert rows[..i][..i - 1] == rows[..i - 1];
    }
  }

  // The row with the greatest created_at shows the stored balance.
  lemma LatestRowShowsBalance(s: Store, failures: Failures, i: nat)
    requires Books(s, failures) && Audited(s) && i < |s.ledger|
    requires forall k :: 0 <= k < |s.ledger| && SameLine(s.ledger[k], s.ledger[i].user, s.ledger[i].bucket) ==>
               s.ledger[k].createdAt <= s.ledger[i].createdAt
    ensures s.ledger[i].user in s.users
    ensures s.ledger[i].balanceAfter == s.users[s.ledger[i].user].balance.At(s.ledger[i].bucket)
  {
    var t := s.ledger[i];
    assert ExactAt(s, i) && UserBalanced(s, t.user);
    forall k | i + 1 <= k < |s.ledger| ensures !SameLine(s.ledger[k], t.user, t.bucket) {
    }
    SumOverGap(s.ledger, i + 1, |s.ledger|, t.user, t.bucket);
    assert s.ledger[..|s.ledger|] == s.ledger;
  }
}
