/**
 Webhook deliveries: at most four attempts on a fixed backoff, retried in batches of at most fifty due rows.
 Attempts on one delivery are serial.
 */
module Webhooks {
  import opened Options

  type Time = Option<int>

  datatype Status = Pending | Delivered | Failed

  datatype Problem = Nothing | NotConfigured | Refused

  // The status code of a POST, or none when it raised
  type Answer = Option<int>

  predicate Accepts(answer: Answer) {
    answer.Some? && 200 <= answer.value < 300
  }

  datatype Delivery = Delivery(integration: nat, status: Status, attempts: nat, lastStatusCode: Answer, lastError: Problem,
                               nextRetry: Time, updatedAt: int)

  // The empty string stands for a URL or secret that is not set.
  datatype Integration = Integration(url: string, secret: string)

  const RETRY_BACKOFFS := [10, 60, 300]

  const BATCH: nat := 50

  // datetime.now(UTC) + backoff. An attempt number of 0 would index the table from its end.
  function CalculateNextRetry(attempt: nat, now: int): Time {
    var index := attempt - 1;
    if index >= |RETRY_BACKOFFS| then None
    else Some(now + RETRY_BACKOFFS[if index < 0 then index + |RETRY_BACKOFFS| else index])
  }

  // attempt_delivery, once the receiver's answer to this attempt is known.
  function Attempted(d: Delivery, integration: Integration, answer: Answer, now: int): Delivery {
    if integration.url == "" || integration.secret == ""
    then d.(status := Failed, lastStatusCode := None, lastError := NotConfigured, nextRetry := None, updatedAt := now)
    else if Accepts(answer)
    then d.(status := Delivered, attempts := d.attempts + 1, lastStatusCode := answer, lastError := Nothing, nextRetry := None,
            updatedAt := now)
    else
      var next := CalculateNextRetry(d.attempts + 1, now);
      d.(status := if next.Some? then Pending else Failed, attempts := d.attempts + 1, lastStatusCode := answer,
         lastError := Refused, nextRetry := next, updatedAt := now)
  }

  // What an attempt makes of each column. A refused delivery is tried again 10, 60 and 300 seconds after its first three
  // attempts, and fails with the fourth.
  lemma AttemptMeans(d: Delivery, integration: Integration, answer: Answer, now: int)
    ensures integration.url == "" || integration.secret == "" ==>
              Attempted(d, integration, answer, now)
                == Delivery(d.integration, Failed, d.attempts, None, NotConfigured, None, now)
    ensures integration.url != "" && integration.secret != "" && answer.Some? && 200 <= answer.value <= 299 ==>
              Attempted(d, integration, answer, now)
                == Delivery(d.integration, Delivered, d.attempts + 1, answer, Nothing, None, now)
    ensures integration.url != "" && integration.secret != "" && (answer.Some? ==> answer.value < 200 || answer.value > 299) ==>
              Attempted(d, integration, answer, now)
                == if d.attempts >= 3 then Delivery(d.integration, Failed, d.attempts + 1, answer, Refused, None, now)
                   else Delivery(d.integration, Pending, d.attempts + 1, answer, Refused,
                                 Some(now + if d.attempts == 0 then 10 else if d.attempts == 1 then 60 else 300), now)
  {
  }

  type Table = seq<Delivery>

  // What the receiver of delivery `id` answers to its n-th POST
  type Receiver = (nat, nat) -> Answer

  function Attempt(rows: Table, id: nat, integration: Integration, receiver: Receiver, now: int): Table
    requires id < |rows|
  {
    rows[id := Attempted(rows[id], integration, receiver(id, rows[id].attempts + 1), now)]
  }

  predicate Due(rows: Table, id: nat, now: int) {
    id < |rows| && rows[id].status == Pending && rows[id].nextRetry.Some? && rows[id].nextRetry.value <= now
  }

  // SELECT ... WHERE status = 'pending' AND next_retry_at <= now ORDER BY next_retry_at LIMIT limit, with any
  // order among equal times.
  ghost predicate IsBatch(rows: Table, now: int, limit: nat, batch: seq<nat>) {
    && |batch| <= limit
    && (forall k :: 0 <= k < |batch| ==> Due(rows, batch[k], now))
    && (forall i, k :: 0 <= i < k < |batch| ==> batch[i] != batch[k])
    && (forall i, k :: 0 <= i < k < |batch| ==> rows[batch[i]].nextRetry.value <= rows[batch[k]].nextRetry.value)
    && (forall id: nat :: Due(rows, id, now) && id !in batch
          ==> |batch| == limit && forall b :: b in batch ==> rows[b].nextRetry.value <= rows[id].nextRetry.value)
  }

  // A foreign key: every delivery's integration exists.
  predicate Referenced(rows: Table, integrations: map<nat, Integration>) {
    forall id :: 0 <= id < |rows| ==> rows[id].integration in integrations
  }

  // The table after the first n rows of a batch were attempted, the k-th of them at times[k].
  function Retried(rows: Table, batch: seq<nat>, n: nat, integrations: map<nat, Integration>, receiver: Receiver,
                   times: seq<int>): (after: Table)
    requires n <= |batch| <= |times| && Referenced(rows, integrations)
    requires forall k :: 0 <= k < |batch| ==> batch[k] < |rows|
    ensures |after| == |rows| && Referenced(after, integrations)
  {
    if n == 0 then rows
    else
      var before := Retried(rows, batch, n - 1, integrations, receiver, times);
      Attempt(before, batch[n - 1], integrations[before[batch[n - 1]].integration], receiver, times[n - 1])
  }

  // A row is attempted once, from its state in the SELECT, whatever the rows before it did.
  lemma {:induction false} RetriedRow(rows: Table, batch: seq<nat>, n: nat, integrations: map<nat, Integration>,
                                      receiver: Receiver, times: seq<int>, id: nat)
    requires n <= |batch| <= |times| && Referenced(rows, integrations) && id < |rows|
    requires forall k :: 0 <= k < |batch| ==> batch[k] < |rows|
    requires forall i, k :: 0 <= i < k < |batch| ==> batch[i] != batch[k]
    ensures var after := Retried(rows, batch, n, integrations, receiver, times)[id];
            && (id !in batch[..n] ==> after == rows[id])
            && (forall k :: 0 <= k < n && batch[k] == id
                  ==> after == Attempted(rows[id], integrations[rows[id].integration],
                                         receiver(id, rows[id].attempts + 1), times[k]))
  {
    if n > 0 {
      RetriedRow(rows, batch, n - 1, integrations, receiver, times, id);
      if batch[n - 1] == id {
        assert forall k :: 0 <= k < n - 1 ==> batch[k] != id;
      }
    }
  }

  class Deliveries {
    var rows: Table

    method Create(integration: nat, now: int) returns (id: nat)
      modifies this
      ensures id == old(|rows|) && rows == old(rows) + [Delivery(integration, Pending, 0, None, Nothing, Some(now), now)]
    {
      id := |rows|;
      rows := rows + [Delivery(integration, Pending, 0, None, Nothing, Some(now), now)];
    }

    method UpdateDelivery(id: nat, status: Status, attempts: nat, lastStatusCode: Answer, lastError: Problem, nextRetry: Time,
                          now: int)
      modifies this
      ensures rows == if id < |old(rows)|
                      then old(rows)[id := Delivery(old(rows)[id].integration, status, attempts, lastStatusCode, lastError,
                                                    nextRetry, now)]
                      else old(rows)
    {
      if id < |rows| {
        rows := rows[id := rows[id].(status := status, attempts := attempts, lastStatusCode := lastStatusCode,
                                     lastError := lastError, nextRetry := nextRetry, updatedAt := now)];
      }
    }

    // `delivery` is the row as it was read.
    method AttemptDelivery(id: nat, delivery: Delivery, integration: Integration, receiver: Receiver, now: int)
      returns (delivered: bool)
      requires id < |rows| && rows[id] == delivery
      modifies this
      ensures rows == Attempt(old(rows), id, integration, receiver, now)
      ensures delivered == (rows[id].status == Delivered)
    {
      if integration.url == "" || integration.secret == "" {
        UpdateDelivery(id, Failed, delivery.attempts, None, NotConfigured, None, now);
        return false;
      }
      var answer := receiver(id, delivery.attempts + 1);
      var newAttempts := delivery.attempts + 1;
      if Accepts(answer) {
        UpdateDelivery(id, Delivered, newAttempts, answer, Nothing, None, now);
        return true;
      }
      var nextRetry := CalculateNextRetry(newAttempts, now);
      var newStatus := if nextRetry.Some? then Pending else Failed;
      UpdateDelivery(id, newStatus, newAttempts, answer, Refused, nextRetry, now);
      return false;
    }

    method FireWebhookIfConfigured(integration: nat, integrations: map<nat, Integration>, receiver: Receiver, now: int)
      modifies this
      ensures rows == if integration !in integrations || integrations[integration].url == "" then old(rows)
                      else Attempt(old(rows) + [Delivery(integration, Pending, 0, None, Nothing, Some(now), now)], |old(rows)|,
                                   integrations[integration], receiver, now)
    {
      if integration in integrations && integrations[integration].url != "" {
        var id := Create(integration, now);
        var _ := AttemptDelivery(id, rows[id], integrations[integration], receiver, now);
      }
    }

    // One turn of webhook_retry_loop: the batch is read once, then its rows are attempted in turn.
    method RetryPass(now: int, batch: seq<nat>, integrations: map<nat, Integration>, receiver: Receiver, times: seq<int>)
      requires IsBatch(rows, now, BATCH, batch) && |batch| <= |times| && Referenced(rows, integrations)
      modifies this
      ensures rows == Retried(old(rows), batch, |batch|, integrations, receiver, times)
    {
      var read := rows;
      for k := 0 to |batch|
        invariant rows == Retried(read, batch, k, integrations, receiver, times)
      {
        var id, delivery := batch[k], read[batch[k]];
        RetriedRow(read, batch, k, integrations, receiver, times, id);
        assert id !in batch[..k];
        if delivery.integration in integrations {
          var _ := AttemptDelivery(id, delivery, integrations[delivery.integration], receiver, times[k]);
        }
      }
    }
  }

  // --- What a row says about its attempts, in every run ---

  datatype Event =
    | Fire(integration: nat, at: int)
    | Deliver(id: nat, target: Integration, at: int)

  predicate Possible(rows: Table, e: Event) {
    e.Fire? || (e.id < |rows| && rows[e.id].status == Pending)
  }

  function After(events: seq<Event>, n: nat, receiver: Receiver): Table
    requires n <= |events|
  {
    if n == 0 then []
    else
      var rows := After(events, n - 1, receiver);
      if !Possible(rows, events[n - 1]) then rows
      else match events[n - 1]
        case Fire(integration, at) => rows + [Delivery(integration, Pending, 0, None, Nothing, Some(at), at)]
        case Deliver(id, target, at) => Attempt(rows, id, target, receiver, at)
  }

  // The row and the receiver agree: it was posted to `attempts` times and refused every time but a last one.
  ghost predicate Faithful(d: Delivery, id: nat, receiver: Receiver) {
    && (forall n :: 0 < n < d.attempts ==> !Accepts(receiver(id, n)))
    && d.lastStatusCode == (if d.attempts == 0 || d.lastError == NotConfigured then None else receiver(id, d.attempts))
    && match d.status
       case Pending =>
         && d.attempts <= 3 && (d.attempts > 0 ==> !Accepts(receiver(id, d.attempts)))
         && d.nextRetry == Some(d.updatedAt + if d.attempts == 0 then 0 else RETRY_BACKOFFS[d.attempts - 1])
       case Delivered =>
         && 1 <= d.attempts <= 4 && Accepts(receiver(id, d.attempts)) && d.nextRetry.None?
       case Failed =>
         && (d.attempts > 0 ==> !Accepts(receiver(id, d.attempts))) && d.nextRetry.None?
         && (d.lastError == NotConfigured ==> d.attempts <= 3)
         && (d.lastError != NotConfigured ==> d.attempts == 4)
  }

  lemma AttemptIsFaithful(d: Delivery, id: nat, integration: Integration, receiver: Receiver, now: int)
    requires Faithful(d, id, receiver) && d.status == Pending
    ensures Faithful(Attempted(d, integration, receiver(id, d.attempts + 1), now), id, receiver)
  {
  }

  lemma {:induction false} RowsAreFaithful(events: seq<Event>, n: nat, receiver: Receiver, id: nat)
    requires n <= |events| && id < |After(events, n, receiver)|
    ensures Faithful(After(events, n, receiver)[id], id, receiver)
  {
    if n > 0 {
      var rows, e := After(events, n - 1, receiver), events[n - 1];
      if id < |rows| {
        RowsAreFaithful(events, n - 1, receiver, id);
        if Possible(rows, e) && e.Deliver? && e.id == id {
          AttemptIsFaithful(rows[id], id, e.target, receiver, e.at);
        }
      }
    }
  }

  // A delivery that is no longer pending, and was never cut short for want of a URL or secret, is delivered if
  // and only if one of four attempts is accepted; it then took as many attempts as that needed.
  lemma DeliveredIff(events: seq<Event>, n: nat, receiver: Receiver, id: nat)
    requires n <= |events| && id < |After(events, n, receiver)|
    requires After(events, n, receiver)[id].status != Pending && After(events, n, receiver)[id].lastError != NotConfigured
    ensures After(events, n, receiver)[id].status == Delivered
       <==> exists a :: 1 <= a <= 4 && Accepts(receiver(id, a))
    ensures var attempts := After(events, n, receiver)[id].attempts;
            1 <= attempts <= 4 && forall a :: 1 <= a < attempts ==> !Accepts(receiver(id, a))
  {
    RowsAreFaithful(events, n, receiver, id);
  }

  // --- The retry loop drains a finite backlog ---

  lemma {:induction false} Earliest(rows: Table, ids: set<nat>) returns (id: nat)
    requires ids != {} && forall i :: i in ids ==> i < |rows| && rows[i].nextRetry.Some?
    ensures id in ids && forall i :: i in ids ==> rows[id].nextRetry.value <= rows[i].nextRetry.value
  {
    id :| id in ids;
    if ids != {id} {
      assert ids - {id} != {} by {
        var other :| other in ids && other != id;
        assert other in ids - {id};
      }
      var other := Earliest(rows, ids - {id});
      if rows[other].nextRetry.value < rows[id].nextRetry.value {
        id := other;
      }
    }
  }

  lemma {:induction false} BatchExists(rows: Table, now: int, limit: nat) returns (batch: seq<nat>)
    ensures IsBatch(rows, now, limit, batch)
  {
    batch := [];
    if limit > 0 {
      batch := BatchExists(rows, now, limit - 1);
      var left := set id | 0 <= id < |rows| && Due(rows, id, now) && id !in batch;
      if left == {} {
        forall id: nat | Due(rows, id, now) ensures id in batch {
          assert id in batch || id in left;
        }
      } else {
        var next := Earliest(rows, left);
        batch := batch + [next];
        forall id: nat | Due(rows, id, now) && id !in batch
          ensures |batch| == limit && forall b :: b in batch ==> rows[b].nextRetry.value <= rows[id].nextRetry.value
        {
          assert id in left;
        }
      }
    }
  }

  // The attempts a row may still get.
  function Left(d: Delivery): nat {
    if d.status == Pending && d.attempts < 4 then 4 - d.attempts else 0
  }

  function Backlog(rows: Table, n: nat): nat
    requires n <= |rows|
  {
    if n == 0 then 0 else Backlog(rows, n - 1) + Left(rows[n - 1])
  }

  // Pending rows have attempts left and are due by `time`.
  ghost predicate Ready(rows: Table, time: int) {
    forall id :: 0 <= id < |rows| && rows[id].status == Pending ==> Left(rows[id]) > 0 && Due(rows, id, time)
  }

  lemma {:induction false} RowsAreUpdatedBy(events: seq<Event>, n: nat, receiver: Receiver, time: int, id: nat)
    requires n <= |events| && id < |After(events, n, receiver)|
    requires forall i :: 0 <= i < n ==> events[i].at <= time
    ensures After(events, n, receiver)[id].updatedAt <= time
  {
    if n > 0 && id < |After(events, n - 1, receiver)| {
      RowsAreUpdatedBy(events, n - 1, receiver, time, id);
    }
  }

  // After any run, everything pending is due at the latest 300 seconds after the last attempt.
  lemma RunsAreReady(events: seq<Event>, n: nat, receiver: Receiver, time: int)
    requires n <= |events| && forall i :: 0 <= i < n ==> events[i].at <= time
    ensures Ready(After(events, n, receiver), time + 300)
  {
    var rows := After(events, n, receiver);
    forall id | 0 <= id < |rows| && rows[id].status == Pending ensures Left(rows[id]) > 0 && Due(rows, id, time + 300) {
      RowsAreFaithful(events, n, receiver, id);
      RowsAreUpdatedBy(events, n, receiver, time, id);
    }
  }

  function Below(ids: set<nat>, n: nat): set<nat> {
    set id | id in ids && id < n
  }

  lemma BelowNext(ids: set<nat>, n: nat)
    ensures |Below(ids, n + 1)| == |Below(ids, n)| + if n in ids then 1 else 0
  {
    assert Below(ids, n + 1) == if n in ids then Below(ids, n) + {n} else Below(ids, n);
  }

  lemma {:induction false} BacklogFalls(rows: Table, after: Table, n: nat, ids: set<nat>)
    requires n <= |rows| == |after|
    requires forall id :: 0 <= id < |rows| ==> Left(after[id]) <= Left(rows[id]) - if id in ids then 1 else 0
    ensures Backlog(after, n) + |Below(ids, n)| <= Backlog(rows, n)
  {
    if n > 0 {
      BacklogFalls(rows, after, n - 1, ids);
      BelowNext(ids, n - 1);
    } else {
      assert Below(ids, n) == {};
    }
  }

  // One pass of the retry loop and the table it leaves, with every attempt made between `start` and `end`.
  datatype Pass = Pass(start: int, end: int, batch: seq<nat>, times: seq<int>)

  ghost predicate Passed(rows: Table, p: Pass, after: Table, integrations: map<nat, Integration>, receiver: Receiver) {
    && Referenced(rows, integrations) && IsBatch(rows, p.start, BATCH, p.batch)
    && p.start <= p.end && |p.times| == |p.batch|
    && (forall k :: 0 <= k < |p.times| ==> p.start <= p.times[k] <= p.end)
    && after == Retried(rows, p.batch, |p.batch|, integrations, receiver, p.times)
  }

  function Ids(batch: seq<nat>): set<nat> {
    set id | id in batch
  }

  lemma {:induction false} IdsCount(batch: seq<nat>, n: nat)
    requires n <= |batch| && forall i, k :: 0 <= i < k < |batch| ==> batch[i] != batch[k]
    ensures |Ids(batch[..n])| == n
  {
    if n > 0 {
      IdsCount(batch, n - 1);
      assert batch[..n] == batch[..n - 1] + [batch[n - 1]];
      assert Ids(batch[..n]) == Ids(batch[..n - 1]) + {batch[n - 1]};
    } else {
      assert Ids(batch[..n]) == {};
    }
  }

  lemma BatchCount(batch: seq<nat>, n: nat)
    requires forall i, k :: 0 <= i < k < |batch| ==> batch[i] != batch[k]
    requires forall k :: 0 <= k < |batch| ==> batch[k] < n
    ensures |Below(Ids(batch), n)| == |batch|
  {
    IdsCount(batch, |batch|);
    assert batch[..|batch|] == batch && Below(Ids(batch), n) == Ids(batch);
  }

  // A pass takes fifty due rows, or all there are.
  lemma BatchTakes(rows: Table, now: int, batch: seq<nat>)
    requires IsBatch(rows, now, BATCH, batch)
    ensures |batch| <= 50
    ensures |batch| < 50 ==>
              forall id :: 0 <= id < |rows| && rows[id].status == Pending && rows[id].nextRetry.Some? && rows[id].nextRetry.value <= now
                ==> id in batch
  {
    forall id | 0 <= id < |rows| && rows[id].status == Pending && rows[id].nextRetry.Some? && rows[id].nextRetry.value <= now
                && |batch| < 50
      ensures id in batch
    {
      assert Due(rows, id, now);
    }
  }

  // One more attempt is one fewer left, and puts the next one at most 300 seconds off.
  lemma AttemptUses(d: Delivery, integration: Integration, answer: Answer, now: int)
    requires d.status == Pending && Left(d) > 0
    ensures var after := Attempted(d, integration, answer, now);
            && Left(after) < Left(d)
            && (after.status == Pending ==> Left(after) > 0 && after.nextRetry.Some? && after.nextRetry.value <= now + 300)
  {
  }

  // Rows are left alone or have used up attempts; none comes back to pending.
  ghost predicate Progress(before: Table, after: Table) {
    |before| == |after| && forall id :: 0 <= id < |before| ==> Moved(before[id], after[id])
  }

  predicate Moved(before: Delivery, after: Delivery) {
    after == before || (before.status == Pending && Left(after) < Left(before))
  }

  lemma PassRow(rows: Table, p: Pass, after: Table, integrations: map<nat, Integration>, receiver: Receiver, id: nat)
    requires Passed(rows, p, after, integrations, receiver) && Ready(rows, p.end + 300) && id < |rows|
    ensures |after| == |rows| && Moved(rows[id], after[id])
    ensures id in p.batch ==> Left(after[id]) < Left(rows[id])
    ensures after[id].status == Pending ==> Left(after[id]) > 0 && Due(after, id, p.end + 300)
  {
    RetriedRow(rows, p.batch, |p.batch|, integrations, receiver, p.times, id);
    assert p.batch[..|p.batch|] == p.batch;
    if id in p.batch {
      var k :| 0 <= k < |p.batch| && p.batch[k] == id;
      assert Due(rows, p.batch[k], p.start) && p.start <= p.times[k] <= p.end;
      AttemptUses(rows[id], integrations[rows[id].integration], receiver(id, rows[id].attempts + 1), p.times[k]);
    } else if rows[id].status == Pending {
      assert Due(rows, id, p.end + 300);
    }
  }

  lemma PassProgress(rows: Table, p: Pass, after: Table, integrations: map<nat, Integration>, receiver: Receiver)
    requires Passed(rows, p, after, integrations, receiver) && Ready(rows, p.end + 300)
    ensures Progress(rows, after) && Ready(after, p.end + 300)
  {
    forall id | 0 <= id < |rows|
      ensures Moved(rows[id], after[id])
      ensures after[id].status == Pending ==> Left(after[id]) > 0 && Due(after, id, p.end + 300)
    {
      PassRow(rows, p, after, integrations, receiver, id);
    }
  }

  // tables[i] is what the first i passes leave. The loop passes as often as it likes; the receivers answer as
  // they like.
  datatype Run = Run(tables: seq<Table>, passes: seq<Pass>, first: int)

  ghost predicate Scheduled(r: Run, integrations: map<nat, Integration>, receiver: Receiver) {
    && |r.tables| == |r.passes| + 1 && Ready(r.tables[0], r.first)
    && forall i {:trigger PassAt(r, i, integrations, receiver)} :: 0 <= i < |r.passes| ==> PassAt(r, i, integrations, receiver)
  }

  ghost predicate PassAt(r: Run, i: nat, integrations: map<nat, Integration>, receiver: Receiver) {
    && i < |r.passes| && i + 1 < |r.tables|
    && Passed(r.tables[i], r.passes[i], r.tables[i + 1], integrations, receiver)
    && Deadline(r, i) <= r.passes[i].end + 300
  }

  // By when everything pending before pass i is due.
  function Deadline(r: Run, i: nat): int
    requires i <= |r.passes|
  {
    if i == 0 then r.first else r.passes[i - 1].end + 300
  }

  lemma LaterIsDue(rows: Table, time: int, later: int)
    requires Ready(rows, time) && time <= later
    ensures Ready(rows, later)
  {
    forall id | 0 <= id < |rows| && rows[id].status == Pending ensures Due(rows, id, later) {
      assert Due(rows, id, time);
    }
  }

  lemma ReadyNext(r: Run, i: nat, integrations: map<nat, Integration>, receiver: Receiver)
    requires PassAt(r, i, integrations, receiver) && Ready(r.tables[i], Deadline(r, i))
    ensures Ready(r.tables[i], r.passes[i].end + 300) && Ready(r.tables[i + 1], Deadline(r, i + 1))
    ensures Progress(r.tables[i], r.tables[i + 1])
  {
    LaterIsDue(r.tables[i], Deadline(r, i), r.passes[i].end + 300);
    PassProgress(r.tables[i], r.passes[i], r.tables[i + 1], integrations, receiver);
  }

  lemma {:induction false} AlwaysReady(r: Run, i: nat, integrations: map<nat, Integration>, receiver: Receiver)
    requires Scheduled(r, integrations, receiver) && i <= |r.passes|
    ensures Ready(r.tables[i], Deadline(r, i))
  {
    if i > 0 {
      var p := i - 1;
      AlwaysReady(r, p, integrations, receiver);
      assert PassAt(r, p, integrations, receiver);
      ReadyNext(r, p, integrations, receiver);
    }
  }

  lemma ProgressChains(before: Table, middle: Table, after: Table)
    requires Progress(before, middle) && Progress(middle, after)
    ensures Progress(before, after)
  {
    forall id | 0 <= id < |before| ensures Moved(before[id], after[id]) {
      assert Moved(before[id], middle[id]) && Moved(middle[id], after[id]);
    }
  }

  lemma {:induction false} SpanProgress(r: Run, i: nat, j: nat, integrations: map<nat, Integration>, receiver: Receiver)
    requires Scheduled(r, integrations, receiver) && i <= j <= |r.passes|
    ensures Progress(r.tables[i], r.tables[j])
    decreases j
  {
    if i < j {
      SpanProgress(r, i, j - 1, integrations, receiver);
      AlwaysReady(r, j - 1, integrations, receiver);
      assert PassAt(r, j - 1, integrations, receiver);
      ReadyNext(r, j - 1, integrations, receiver);
      ProgressChains(r.tables[i], r.tables[j - 1], r.tables[j]);
    }
  }

  // Every pending row used an attempt.
  ghost predicate AllTried(before: Table, after: Table) {
    |before| == |after|
    && forall id :: 0 <= id < |before| && before[id].status == Pending ==> Left(after[id]) < Left(before[id])
  }

  // A full batch takes BATCH attempts off the backlog.
  lemma FullBatch(rows: Table, middle: Table, p: Pass, after: Table, integrations: map<nat, Integration>, receiver: Receiver)
    requires Passed(middle, p, after, integrations, receiver) && Ready(middle, p.end + 300) && Progress(rows, middle)
    ensures |after| == |rows| && Backlog(after, |rows|) + |p.batch| <= Backlog(rows, |rows|)
  {
    PassProgress(middle, p, after, integrations, receiver);
    forall id | 0 <= id < |rows| ensures Left(after[id]) <= Left(rows[id]) - if id in Ids(p.batch) then 1 else 0 {
      assert Moved(rows[id], middle[id]);
      PassRow(middle, p, after, integrations, receiver, id);
    }
    BacklogFalls(rows, after, |rows|, Ids(p.batch));
    BatchCount(p.batch, |rows|);
  }

  // A batch that is not full holds every due row.
  lemma ShortBatch(rows: Table, middle: Table, p: Pass, after: Table, integrations: map<nat, Integration>, receiver: Receiver)
    requires Passed(middle, p, after, integrations, receiver) && Ready(middle, p.end + 300) && Progress(rows, middle)
    requires Ready(rows, p.start) && |p.batch| < BATCH
    ensures AllTried(rows, after)
  {
    PassProgress(middle, p, after, integrations, receiver);
    forall id | 0 <= id < |rows| && rows[id].status == Pending ensures Left(after[id]) < Left(rows[id]) {
      assert Moved(rows[id], middle[id]) && Moved(middle[id], after[id]);
      PassRow(middle, p, after, integrations, receiver, id);
      assert Due(rows, id, p.start);
      assert middle[id] == rows[id] ==> Due(middle, id, p.start);
    }
  }

  // BATCH attempts were made, or every row had one.
  ghost predicate Worked(before: Table, after: Table) {
    && Progress(before, after)
    && (Backlog(after, |after|) + BATCH <= Backlog(before, |before|) || AllTried(before, after))
  }

  // From pass i on, once a pass j starts when everything pending at i has become due.
  lemma Round(r: Run, i: nat, j: nat, integrations: map<nat, Integration>, receiver: Receiver)
    requires Scheduled(r, integrations, receiver) && i <= j < |r.passes| && Deadline(r, i) <= r.passes[j].start
    ensures Worked(r.tables[i], r.tables[j + 1])
  {
    AlwaysReady(r, i, integrations, receiver);
    AlwaysReady(r, j, integrations, receiver);
    SpanProgress(r, i, j, integrations, receiver);
    SpanProgress(r, i, j + 1, integrations, receiver);
    assert PassAt(r, j, integrations, receiver);
    ReadyNext(r, j, integrations, receiver);
    if |r.passes[j].batch| < BATCH {
      LaterIsDue(r.tables[i], Deadline(r, i), r.passes[j].start);
      ShortBatch(r.tables[i], r.tables[j], r.passes[j], r.tables[j + 1], integrations, receiver);
    } else {
      FullBatch(r.tables[i], r.tables[j], r.passes[j], r.tables[j + 1], integrations, receiver);
    }
  }

  lemma {:induction false} ProgressLowersBacklog(before: Table, after: Table, n: nat)
    requires Progress(before, after) && n <= |before|
    ensures Backlog(after, n) <= Backlog(before, n)
  {
    if n > 0 {
      ProgressLowersBacklog(before, after, n - 1);
      assert Moved(before[n - 1], after[n - 1]);
    }
  }

  // Rounds cut the run at passes marks[0] = 0, marks[1], ...: the last pass of a round starts when everything
  // pending at the round's start has become due, which is 300 seconds after the round before ended.
  ghost predicate Rounds(r: Run, marks: seq<nat>) {
    && |marks| > 0 && marks[0] == 0
    && forall k {:trigger RoundAt(r, marks, k)} :: 0 < k < |marks| ==> RoundAt(r, marks, k)
  }

  predicate RoundAt(r: Run, marks: seq<nat>, k: nat) {
    && 0 < k < |marks| && marks[k - 1] < marks[k] <= |r.passes|
    && Deadline(r, marks[k - 1]) <= r.passes[marks[k] - 1].start
  }

  ghost predicate AtMostLeft(rows: Table, most: nat) {
    forall id :: 0 <= id < |rows| ==> Left(rows[id]) <= most
  }

  lemma FewerLeft(before: Table, after: Table, most: nat)
    requires Progress(before, after) && AtMostLeft(before, most)
    ensures AtMostLeft(after, most)
    ensures AllTried(before, after) && most > 0 ==> AtMostLeft(after, most - 1)
  {
    forall id | 0 <= id < |before|
      ensures Left(after[id]) <= most
      ensures AllTried(before, after) && most > 0 ==> Left(after[id]) <= most - 1
    {
      assert Moved(before[id], after[id]) && Left(before[id]) <= most;
    }
  }

  // Enough rounds are left: one for every BATCH attempts of the backlog, and one for every attempt a row may get.
  ghost predicate Affordable(rows: Table, most: nat, rounds: int) {
    AtMostLeft(rows, most) && Backlog(rows, |rows|) / BATCH + most <= rounds
  }

  lemma RoundIsPaid(before: Table, after: Table, most: nat, rounds: nat) returns (most': nat)
    requires Worked(before, after) && Affordable(before, most, rounds) && rounds > 0
    ensures Affordable(after, most', rounds - 1)
  {
    FewerLeft(before, after, most);
    ProgressLowersBacklog(before, after, |before|);
    if AllTried(before, after) && most > 0 {
      most' := most - 1;
    } else {
      most' := most;
      if AllTried(before, after) {
        NothingLeft(after, |after|);
      }
    }
  }

  lemma {:induction false} NothingLeft(rows: Table, n: nat)
    requires AtMostLeft(rows, 0) && n <= |rows|
    ensures Backlog(rows, n) == 0
  {
    if n > 0 {
      NothingLeft(rows, n - 1);
      assert Left(rows[n - 1]) <= 0;
    }
  }

  lemma {:induction false} RoundsDrain(r: Run, marks: seq<nat>, k: nat, most: nat,
                                       integrations: map<nat, Integration>, receiver: Receiver)
    requires Scheduled(r, integrations, receiver) && Rounds(r, marks) && k < |marks| && marks[k] < |r.tables|
    requires Affordable(r.tables[marks[k]], most, |marks| - 1 - k)
    ensures marks[|marks| - 1] < |r.tables| && AtMostLeft(r.tables[marks[|marks| - 1]], 0)
    decreases |marks| - k
  {
    if k + 1 < |marks| {
      var next := k + 1;
      assert RoundAt(r, marks, next);
      Round(r, marks[k], marks[next] - 1, integrations, receiver);
      var most' := RoundIsPaid(r.tables[marks[k]], r.tables[marks[next]], most, |marks| - 1 - k);
      RoundsDrain(r, marks, next, most', integrations, receiver);
    }
  }

  // The retry loop drains any finite backlog: nothing is pending once it has run for backlog / 50 + 4 rounds.
  lemma BacklogDrains(r: Run, marks: seq<nat>, integrations: map<nat, Integration>, receiver: Receiver)
    requires Scheduled(r, integrations, receiver) && Rounds(r, marks)
    requires |marks| > Backlog(r.tables[0], |r.tables[0]|) / BATCH + 4
    ensures marks[|marks| - 1] < |r.tables|
    ensures forall d :: d in r.tables[marks[|marks| - 1]] ==> d.status != Pending
  {
    var most := 4;
    RoundsDrain(r, marks, 0, most, integrations, receiver);
    var i := marks[|marks| - 1];
    AlwaysReady(r, i, integrations, receiver);
  }
}
