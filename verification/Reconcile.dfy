/**
 run_reconcile: every balance is set to the balance_after of the user's latest row of that bucket.
 */
module Reconcile {
  import opened Ledger
  import opened Serial
  import opened Database
  import Interleaving
  import Safety

  // A row of get_latest_balances.
  datatype LatestRow = LatestRow(user: UserId, bucket: Bucket, balanceAfter: int)

  // Row i is a latest one of its user and bucket: none has a greater created_at.
  predicate IsLatest(ledger: seq<Txn>, i: nat)
    requires i < |ledger|
  {
    forall k :: 0 <= k < |ledger| && SameLine(ledger[k], ledger[i].user, ledger[i].bucket) ==>
      ledger[k].createdAt <= ledger[i].createdAt
  }

  predicate ShowsRow(ledger: seq<Txn>, i: nat, r: LatestRow)
    requires i < |ledger|
  {
    SameLine(ledger[i], r.user, r.bucket) && ledger[i].balanceAfter == r.balanceAfter
  }

  // SELECT DISTINCT ON (user_id, credit_type) ... ORDER BY ..., created_at DESC. Among equal created_at
  // PostgreSQL may pick any row.
  ghost predicate LatestBalances(ledger: seq<Txn>, latest: seq<LatestRow>) {
    && (forall r :: r in latest ==> exists i :: 0 <= i < |ledger| && ShowsRow(ledger, i, r) && IsLatest(ledger, i))
    && (forall t :: t in ledger ==> exists r :: r in latest && r.user == t.user && r.bucket == t.bucket)
    && (forall i, k :: 0 <= i < k < |latest| ==> latest[i].user != latest[k].user || latest[i].bucket != latest[k].bucket)
  }

  // The balance the run leaves a user with: the latest where there is one, the stored one elsewhere.
  function Repaired(latest: map<(UserId, Bucket), int>, u: UserId, balance: Credits): Credits {
    Credits(if (u, Free) in latest then latest[(u, Free)] else balance.free,
            if (u, Paid) in latest then latest[(u, Paid)] else balance.paid)
  }

  ghost predicate Lists(ids: seq<UserId>, users: map<UserId, User>) {
    && (forall u :: u in users <==> u in ids)
    && (forall i, k :: 0 <= i < k < |ids| ==> ids[i] != ids[k])
  }

  // users' is what one run over ledger may make of users.
  ghost predicate ReconciledTo(users: map<UserId, User>, ledger: seq<Txn>, users': map<UserId, User>) {
    && users'.Keys == users.Keys
    && forall u :: u in users ==>
         && users'[u] == users[u].(balance := users'[u].balance)
         && forall b :: LineRepaired(ledger, u, b, users[u].balance.At(b), users'[u].balance.At(b))
  }

  ghost predicate LineRepaired(ledger: seq<Txn>, u: UserId, b: Bucket, before: int, after: int) {
    if exists t :: t in ledger && SameLine(t, u, b)
    then exists i :: 0 <= i < |ledger| && SameLine(ledger[i], u, b) && IsLatest(ledger, i) && ledger[i].balanceAfter == after
    else after == before
  }

  // Looking the latest rows up by user and bucket repairs each line.
  lemma LookupRepairsLines(ledger: seq<Txn>, latest: seq<LatestRow>, lookup: map<(UserId, Bucket), int>, u: UserId,
                        b: Bucket, balance: Credits)
    requires LatestBalances(ledger, latest)
    requires forall r :: r in latest ==> (r.user, r.bucket) in lookup && lookup[(r.user, r.bucket)] == r.balanceAfter
    requires forall k :: k in lookup ==> exists r :: r in latest && k == (r.user, r.bucket)
    ensures LineRepaired(ledger, u, b, balance.At(b), Repaired(lookup, u, balance).At(b))
  {
    if t :| t in ledger && SameLine(t, u, b) {
      var r :| r in latest && r.user == t.user && r.bucket == t.bucket;
      var i :| 0 <= i < |ledger| && ShowsRow(ledger, i, r) && IsLatest(ledger, i);
      assert SameLine(ledger[i], u, b);
    }
  }

  method BuildLookup(latest: seq<LatestRow>) returns (lookup: map<(UserId, Bucket), int>)
    requires forall i, k :: 0 <= i < k < |latest| ==> latest[i].user != latest[k].user || latest[i].bucket != latest[k].bucket
    ensures forall r :: r in latest ==> (r.user, r.bucket) in lookup && lookup[(r.user, r.bucket)] == r.balanceAfter
    ensures forall k :: k in lookup ==> exists r :: r in latest && k == (r.user, r.bucket)
  {
    lookup := map[];
    for i := 0 to |latest|
      invariant forall n :: 0 <= n < i ==>
                  (latest[n].user, latest[n].bucket) in lookup && lookup[(latest[n].user, latest[n].bucket)] == latest[n].balanceAfter
      invariant forall k :: k in lookup ==> exists r :: r in latest && k == (r.user, r.bucket)
    {
      assert latest[i] in latest;
      lookup := lookup[(latest[i].user, latest[i].bucket) := latest[i].balanceAfter];
    }
  }

  lemma RepairedIsReconciled(users: map<UserId, User>, ledger: seq<Txn>, latest: seq<LatestRow>,
                             lookup: map<(UserId, Bucket), int>, users': map<UserId, User>)
    requires LatestBalances(ledger, latest)
    requires forall r :: r in latest ==> (r.user, r.bucket) in lookup && lookup[(r.user, r.bucket)] == r.balanceAfter
    requires forall k :: k in lookup ==> exists r :: r in latest && k == (r.user, r.bucket)
    requires users'.Keys == users.Keys
    requires forall u :: u in users ==> users'[u] == users[u].(balance := Repaired(lookup, u, users[u].balance))
    ensures ReconciledTo(users, ledger, users')
  {
    forall u, b | u in users ensures LineRepaired(ledger, u, b, users[u].balance.At(b), users'[u].balance.At(b)) {
      LookupRepairsLines(ledger, latest, lookup, u, b, users[u].balance);
    }
  }

  ghost function Changed(before: map<UserId, User>, after: map<UserId, User>): set<UserId> {
    set u | u in before && u in after && after[u] != before[u]
  }

  lemma OneMoreChanged(before: map<UserId, User>, mid: map<UserId, User>, u: UserId, user: User)
    requires mid.Keys == before.Keys && u in before && mid[u] == before[u] && user != before[u]
    ensures |Changed(before, mid[u := user])| == |Changed(before, mid)| + 1
  {
    assert Changed(before, mid[u := user]) == Changed(before, mid) + {u};
  }

  lemma NoneChangedIff(before: map<UserId, User>, after: map<UserId, User>)
    requires after.Keys == before.Keys
    ensures |Changed(before, after)| == 0 <==> after == before
  {
    if u :| u in before && after[u] != before[u] {
      assert u in Changed(before, after);
    } else {
      assert Changed(before, after) == {};
    }
  }

  // The loop over the users. A row is written only when it is off, and counted when it is written.
  method RepairUsers(tables: Tables, ids: seq<UserId>, lookup: map<(UserId, Bucket), int>) returns (mismatches: nat)
    requires Lists(ids, tables.users)
    modifies tables`users
    ensures tables.users.Keys == old(tables.users).Keys
    ensures forall u :: u in old(tables.users) ==>
              tables.users[u] == old(tables.users)[u].(balance := Repaired(lookup, u, old(tables.users)[u].balance))
    ensures mismatches == |Changed(old(tables.users), tables.users)|
    ensures mismatches == 0 <==> tables.users == old(tables.users)
  {
    mismatches := 0;
    ghost var before := tables.users;
    for i := 0 to |ids|
      invariant tables.users.Keys == before.Keys
      invariant forall n :: 0 <= n < i ==>
                  tables.users[ids[n]] == before[ids[n]].(balance := Repaired(lookup, ids[n], before[ids[n]].balance))
      invariant forall n :: i <= n < |ids| ==> tables.users[ids[n]] == before[ids[n]]
      invariant mismatches == |Changed(before, tables.users)|
    {
      var u := ids[i];
      assert u in ids;
      var balance := tables.users[u].balance;
      var freeOk := (u, Free) !in lookup || balance.free == lookup[(u, Free)];
      var paidOk := (u, Paid) !in lookup || balance.paid == lookup[(u, Paid)];
      if !freeOk || !paidOk {
        ghost var written := tables.users;
        mismatches := mismatches + 1;
        var newFree := if (u, Free) in lookup then lookup[(u, Free)] else balance.free;
        var newPaid := if (u, Paid) in lookup then lookup[(u, Paid)] else balance.paid;
        var _ := tables.ForceSetCredits(u, Credits(newFree, newPaid));
        OneMoreChanged(before, written, u, tables.users[u]);
      }
    }
    NoneChangedIff(before, tables.users);
  }

  // One run over the users as list_all returned them.
  method RunReconcile(tables: Tables, ids: seq<UserId>, latest: seq<LatestRow>) returns (mismatches: nat)
    requires Lists(ids, tables.users) && LatestBalances(tables.ledger, latest)
    modifies tables`users
    ensures ReconciledTo(old(tables.users), tables.ledger, tables.users)
    ensures mismatches == |Changed(old(tables.users), tables.users)|
    ensures mismatches == 0 <==> tables.users == old(tables.users)
  {
    var lookup := BuildLookup(latest);
    ghost var before := tables.users;
    mismatches := RepairUsers(tables, ids, lookup);
    RepairedIsReconciled(before, tables.ledger, latest, lookup, tables.users);
  }

  // Distinct created_at within each user and bucket leave one latest row.
  predicate DistinctTimes(ledger: seq<Txn>) {
    forall i, k :: 0 <= i < k < |ledger| && SameLine(ledger[i], ledger[k].user, ledger[k].bucket) ==>
      ledger[i].createdAt != ledger[k].createdAt
  }

  // From any balances at all, a second run changes nothing.
  lemma SecondRunIsIdle(users: map<UserId, User>, ledger: seq<Txn>, users': map<UserId, User>, users'': map<UserId, User>)
    requires DistinctTimes(ledger) && ReconciledTo(users, ledger, users') && ReconciledTo(users', ledger, users'')
    ensures users'' == users'
  {
    forall u | u in users' ensures users''[u] == users'[u] {
      forall b ensures users''[u].balance.At(b) == users'[u].balance.At(b) {
        assert LineRepaired(ledger, u, b, users[u].balance.At(b), users'[u].balance.At(b));
        assert LineRepaired(ledger, u, b, users'[u].balance.At(b), users''[u].balance.At(b));
      }
      assert users''[u].balance.free == users''[u].balance.At(Free) && users''[u].balance.paid == users''[u].balance.At(Paid);
      assert users'[u].balance.free == users'[u].balance.At(Free) && users'[u].balance.paid == users'[u].balance.At(Paid);
    }
  }

  // Every latest row shows the balance stored for its user and bucket.
  ghost predicate LatestShown(users: map<UserId, User>, ledger: seq<Txn>) {
    forall i :: 0 <= i < |ledger| && ledger[i].user in users && IsLatest(ledger, i) ==>
      ledger[i].balanceAfter == users[ledger[i].user].balance.At(ledger[i].bucket)
  }

  // No run over these users can have anything to repair.
  ghost predicate Idle(users: map<UserId, User>, ledger: seq<Txn>) {
    forall users' :: ReconciledTo(users, ledger, users') ==> users' == users
  }

  lemma {:induction false} LatestOf(ledger: seq<Txn>, n: nat, u: UserId, b: Bucket) returns (i: nat)
    requires n <= |ledger| && exists k :: 0 <= k < n && SameLine(ledger[k], u, b)
    ensures i < n && SameLine(ledger[i], u, b)
    ensures forall k :: 0 <= k < n && SameLine(ledger[k], u, b) ==> ledger[k].createdAt <= ledger[i].createdAt
  {
    if forall k :: 0 <= k < n - 1 ==> !SameLine(ledger[k], u, b) {
      i := n - 1;
    } else {
      i := LatestOf(ledger, n - 1, u, b);
      if SameLine(ledger[n - 1], u, b) && ledger[n - 1].createdAt > ledger[i].createdAt {
        i := n - 1;
      }
    }
  }

  // Each line can be repaired,
  lemma RepairExists(ledger: seq<Txn>, u: UserId, b: Bucket, before: int)
    ensures exists after :: LineRepaired(ledger, u, b, before, after)
  {
    if t :| t in ledger && SameLine(t, u, b) {
      var i := LatestOf(ledger, |ledger|, u, b);
      assert LineRepaired(ledger, u, b, before, ledger[i].balanceAfter);
    } else {
      assert LineRepaired(ledger, u, b, before, before);
    }
  }

  // ... so every run has an outcome.
  lemma OutcomeExists(users: map<UserId, User>, ledger: seq<Txn>)
    ensures exists users' :: ReconciledTo(users, ledger, users')
  {
    forall u, b | u in users ensures exists after :: LineRepaired(ledger, u, b, users[u].balance.At(b), after) {
      RepairExists(ledger, u, b, users[u].balance.At(b));
    }
    var users' := map u | u in users ::
      var free :| LineRepaired(ledger, u, Free, users[u].balance.At(Free), free);
      var paid :| LineRepaired(ledger, u, Paid, users[u].balance.At(Paid), paid);
      users[u].(balance := Credits(free, paid));
    assert ReconciledTo(users, ledger, users');
  }

  // Where every latest row shows the balance, a run leaves it alone.
  lemma ShownIsIdle(users: map<UserId, User>, ledger: seq<Txn>, users': map<UserId, User>)
    requires LatestShown(users, ledger) && ReconciledTo(users, ledger, users')
    ensures users' == users
  {
    forall u | u in users ensures users'[u] == users[u] {
      forall b ensures users'[u].balance.At(b) == users[u].balance.At(b) {
        assert LineRepaired(ledger, u, b, users[u].balance.At(b), users'[u].balance.At(b));
      }
      SameBalance(users'[u].balance, users[u].balance);
    }
  }

  function Setting(balance: Credits, b: Bucket, amount: int): Credits {
    if b == Free then balance.(free := amount) else balance.(paid := amount)
  }

  // A latest row that shows another balance may be the one a run writes.
  lemma IdleIsShown(users: map<UserId, User>, ledger: seq<Txn>, i: nat)
    requires Idle(users, ledger) && i < |ledger| && ledger[i].user in users && IsLatest(ledger, i)
    ensures ledger[i].balanceAfter == users[ledger[i].user].balance.At(ledger[i].bucket)
  {
    var u, b := ledger[i].user, ledger[i].bucket;
    OutcomeExists(users, ledger);
    assert ReconciledTo(users, ledger, users);
    var users' := users[u := users[u].(balance := Setting(users[u].balance, b, ledger[i].balanceAfter))];
    forall v, c | v in users ensures LineRepaired(ledger, v, c, users[v].balance.At(c), users'[v].balance.At(c)) {
      assert LineRepaired(ledger, v, c, users[v].balance.At(c), users[v].balance.At(c));
      if v == u && c == b {
        assert ledger[i] in ledger && SameLine(ledger[i], u, b) && users'[v].balance.At(c) == ledger[i].balanceAfter;
      } else {
        assert users'[v].balance.At(c) == users[v].balance.At(c);
      }
    }
    assert ReconciledTo(users, ledger, users');
  }

  // A run leaves every balance alone, whichever of several latest rows it is given, if and only if every latest row
  // shows the balance stored.
  lemma UnchangedIff(users: map<UserId, User>, ledger: seq<Txn>)
    ensures Idle(users, ledger) <==> LatestShown(users, ledger)
  {
    if Idle(users, ledger) {
      forall i | 0 <= i < |ledger| && ledger[i].user in users && IsLatest(ledger, i)
        ensures ledger[i].balanceAfter == users[ledger[i].user].balance.At(ledger[i].bucket)
      {
        IdleIsShown(users, ledger, i);
      }
    }
    if LatestShown(users, ledger) {
      forall users' | ReconciledTo(users, ledger, users') ensures users' == users {
        ShownIsIdle(users, ledger, users');
      }
    }
  }

  lemma SameBalance(x: Credits, y: Credits)
    requires forall b :: x.At(b) == y.At(b)
    ensures x == y
  {
    assert x.At(Free) == y.At(Free) && x.At(Paid) == y.At(Paid);
  }

  // --- Interleaved runs ---

  // A line's rows are stamped in the order they were committed in.
  predicate StampedInOrder(ledger: seq<Txn>) {
    forall i, k :: 0 <= i < k < |ledger| && SameLine(ledger[i], ledger[k].user, ledger[k].bucket) ==>
      ledger[i].createdAt < ledger[k].createdAt
  }

  // The rows committed behind row i leave its line where row i left it.
  ghost predicate NothingSince(ledger: seq<Txn>, i: nat)
    requires i < |ledger|
  {
    var q := OfUser(ledger[i].user, ledger[i].bucket);
    Sum(ledger[..i + 1], q) == Sum(ledger, q)
  }

  lemma ExactShowsIff(s: Store, failures: Failures, i: nat)
    requires Books(s, failures) && i < |s.ledger| && ExactAt(s, i)
    ensures s.ledger[i].user in s.users
    ensures s.ledger[i].balanceAfter == s.users[s.ledger[i].user].balance.At(s.ledger[i].bucket) <==> NothingSince(s.ledger, i)
  {
    assert UserBalanced(s, s.ledger[i].user);
  }

  // Even rows that all show the balance their commit left do not protect a balance: in every interleaved run with
  // such rows, a reconciliation leaves all balances alone if and only if nothing was committed to a line since its
  // latest-stamped row, or what was cancels out.
  lemma ExactRunsNeedNoRepairIff(steps: seq<Interleaving.Step>)
    requires Exact(Interleaving.Run(steps).db)
    ensures var db := Interleaving.Run(steps).db;
            Idle(db.users, db.ledger) <==> forall i :: 0 <= i < |db.ledger| && IsLatest(db.ledger, i) ==> NothingSince(db.ledger, i)
  {
    var s := Interleaving.Run(steps);
    var db := s.db;
    Safety.RunKeepsInv(steps);
    UnchangedIff(db.users, db.ledger);
    forall i | 0 <= i < |db.ledger| && IsLatest(db.ledger, i)
      ensures db.ledger[i].user in db.users
      ensures db.ledger[i].balanceAfter == db.users[db.ledger[i].user].balance.At(db.ledger[i].bucket) <==> NothingSince(db.ledger, i)
    {
      assert ExactAt(db, i);
      ExactShowsIff(db, s.failures, i);
    }
  }

  lemma LastIsLatest(ledger: seq<Txn>, i: nat)
    requires StampedInOrder(ledger) && i < |ledger| && IsLatest(ledger, i)
    ensures NothingSince(ledger, i)
  {
    forall k | i + 1 <= k < |ledger| ensures !SameLine(ledger[k], ledger[i].user, ledger[i].bucket) {
    }
    SumOverGap(ledger, i + 1, |ledger|, ledger[i].user, ledger[i].bucket);
    assert ledger[..|ledger|] == ledger;
  }

  // Exact rows whose stamps follow the order of commits do: then a reconciliation changes nothing.
  lemma OrderedExactRunsNeedNoRepair(steps: seq<Interleaving.Step>)
    requires Exact(Interleaving.Run(steps).db) && StampedInOrder(Interleaving.Run(steps).db.ledger)
    ensures Idle(Interleaving.Run(steps).db.users, Interleaving.Run(steps).db.ledger)
  {
    var db := Interleaving.Run(steps).db;
    forall i | 0 <= i < |db.ledger| && IsLatest(db.ledger, i) ensures NothingSince(db.ledger, i) {
      LastIsLatest(db.ledger, i);
    }
    ExactRunsNeedNoRepairIff(steps);
  }

  // After serial transactions a run finds nothing to repair.
  lemma SerialRunsNeedNoRepair(changes: seq<(Change, Time)>)
    requires Ascending(changes)
    ensures Idle(After(changes).store.users, After(changes).store.ledger)
  {
    var a := After(changes);
    AfterKeepsBooks(changes);
    AfterKeepsAudited(changes, Latest(changes));
    forall i | 0 <= i < |a.store.ledger| && IsLatest(a.store.ledger, i)
      ensures a.store.ledger[i].user in a.store.users
      ensures a.store.ledger[i].balanceAfter == a.store.users[a.store.ledger[i].user].balance.At(a.store.ledger[i].bucket)
    {
      LatestRowShowsBalance(a.store, a.failures, i);
    }
    UnchangedIff(a.store.users, a.store.ledger);
  }
}
