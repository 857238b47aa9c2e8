/**
 check_rate_limit: a Redis sorted set that is pruned and left to expire, against the plain rule "fewer than
 `limit` accepted calls in the last `window` seconds".
 */
module RateLimit {

  // The sorted set of one key. A member is the text of its own score, so it is a set of times. The key is gone
  // once Redis's clock reaches `expiry`.
  datatype Key = Key(entries: set<real>, expiry: real)

  const NO_KEY := Key({}, 0.0)

  function Visible(key: Key, clock: real): set<real> {
    if clock >= key.expiry then {} else key.entries
  }

  // ZREMRANGEBYSCORE key 0 (now - window)
  function Pruned(entries: set<real>, now: real, window: nat): set<real> {
    set t | t in entries && !(0.0 <= t <= now - window as real)
  }

  function Counted(key: Key, now: real, window: nat): set<real> {
    Pruned(Visible(key, now), now, window)
  }

  function Allows(key: Key, now: real, limit: int, window: nat): bool {
    |Counted(key, now, window)| < limit
  }

  function Check(key: Key, now: real, limit: int, window: nat): Key {
    if Allows(key, now, limit, window)
    then Key(Counted(key, now, window) + {now}, now + window as real)
    else Key(Counted(key, now, window), if now >= key.expiry then 0.0 else key.expiry)
  }

  class Redis {
    var key: Key

    constructor ()
      ensures key == NO_KEY
    {
      key := NO_KEY;
    }

    method CheckRateLimit(now: real, limit: int, window: nat)
      returns (allowed: bool, cap: int, remaining: int, reset: int)
      modifies this
      ensures allowed == Allows(old(key), now, limit, window)
      ensures key == Check(old(key), now, limit, window)
      ensures cap == limit && reset == now.Floor + window
      ensures remaining == if allowed then limit - |Counted(old(key), now, window)| - 1 else 0
      ensures remaining >= 0
    {
      reset := now.Floor + window;
      if now >= key.expiry {
        key := NO_KEY;
      }
      key := key.(entries := Pruned(key.entries, now, window));
      var count := |key.entries|;
      if count >= limit {
        return false, limit, 0, reset;
      }
      key := Key(key.entries + {now}, now + window as real);
      remaining := if limit - count - 1 > 0 then limit - count - 1 else 0;
      return true, limit, remaining, reset;
    }
  }

  // --- The rule, on the full history ---

  function Window(history: set<real>, now: real, window: nat): set<real> {
    set t | t in history && now - window as real < t <= now
  }

  // The rule's own step.
  function Judged(history: set<real>, now: real, limit: int, window: nat): set<real> {
    if |Window(history, now, window)| < limit then history + {now} else history
  }

  // What is accepted of the first n calls when each is judged by every accepted call before it.
  function Accepted(calls: seq<real>, n: nat, limit: int, window: nat): set<real>
    requires n <= |calls|
  {
    if n == 0 then {} else Judged(Accepted(calls, n - 1, limit, window), calls[n - 1], limit, window)
  }

  // The key once the first n calls were served.
  function Served(calls: seq<real>, n: nat, limit: int, window: nat): Key
    requires n <= |calls|
  {
    if n == 0 then NO_KEY else Check(Served(calls, n - 1, limit, window), calls[n - 1], limit, window)
  }

  predicate Increasing(calls: seq<real>) {
    && (forall i :: 0 <= i < |calls| ==> 0.0 < calls[i])
    && (forall i, k :: 0 <= i < k < |calls| ==> calls[i] < calls[k])
  }

  function Last(calls: seq<real>, n: nat): real
    requires n <= |calls|
  {
    if n == 0 then 0.0 else calls[n - 1]
  }

  // The key holds every accepted call that could still count at `now` or later, and nothing else.
  ghost predicate Tracks(key: Key, history: set<real>, now: real, window: nat) {
    && key.entries <= history
    && (forall t :: t in history && now - window as real < t ==> t in Visible(key, now))
    && (forall t :: t in key.entries ==> 0.0 <= t && t + window as real <= key.expiry)
    && (forall t :: t in history ==> 0.0 < t <= now)
  }

  lemma CountIsWindow(key: Key, history: set<real>, last: real, now: real, window: nat)
    requires Tracks(key, history, last, window) && last <= now
    ensures Counted(key, now, window) == Window(history, now, window)
  {
    forall t | t in Window(history, now, window) ensures t in Counted(key, now, window) {
      assert t in Visible(key, last);
    }
  }

  lemma CheckTracks(key: Key, history: set<real>, last: real, now: real, limit: int, window: nat)
    requires Tracks(key, history, last, window) && last < now && 0.0 < now
    ensures Tracks(Check(key, now, limit, window), Judged(history, now, limit, window), now, window)
  {
    CountIsWindow(key, history, last, now, window);
    var key', history' := Check(key, now, limit, window), Judged(history, now, limit, window);
    forall t | t in history' && now - window as real < t ensures t in Visible(key', now) {
      assert t != now ==> t in Window(history, now, window);
    }
  }

  lemma {:induction false} Tracking(calls: seq<real>, n: nat, limit: int, window: nat)
    requires Increasing(calls) && n <= |calls|
    ensures Tracks(Served(calls, n, limit, window), Accepted(calls, n, limit, window), Last(calls, n), window)
  {
    if n > 0 {
      Tracking(calls, n - 1, limit, window);
      CheckTracks(Served(calls, n - 1, limit, window), Accepted(calls, n - 1, limit, window), Last(calls, n - 1),
                  calls[n - 1], limit, window);
    }
  }

  // Serial calls at strictly increasing times: pruning and expiry never change a decision, nor the count.
  lemma DecidesByHistory(calls: seq<real>, n: nat, limit: int, window: nat)
    requires Increasing(calls) && n < |calls|
    ensures Counted(Served(calls, n, limit, window), calls[n], window)
         == Window(Accepted(calls, n, limit, window), calls[n], window)
    ensures Allows(Served(calls, n, limit, window), calls[n], limit, window)
        <==> calls[n] in Accepted(calls, n + 1, limit, window)
  {
    Tracking(calls, n, limit, window);
    CountIsWindow(Served(calls, n, limit, window), Accepted(calls, n, limit, window), Last(calls, n), calls[n], window);
  }

  // --- What the rule guarantees ---

  lemma Fewer(a: set<real>, b: set<real>)
    requires a <= b
    ensures |a| <= |b|
  {
    assert b == a + (b - a);
  }

  lemma AcceptedAreEarlier(calls: seq<real>, n: nat, limit: int, window: nat)
    requires Increasing(calls) && n < |calls|
    ensures forall t :: t in Accepted(calls, n, limit, window) ==> t < calls[n]
  {
    Tracking(calls, n, limit, window);
  }

  // No stretch of `window` seconds holds more than `limit` accepted calls, wherever it ends.
  lemma {:induction false} EveryWindowIsCapped(calls: seq<real>, n: nat, limit: nat, window: nat, x: real)
    requires Increasing(calls) && n <= |calls|
    ensures |Window(Accepted(calls, n, limit, window), x, window)| <= limit
  {
    if n > 0 {
      var now := calls[n - 1];
      var history, history' := Accepted(calls, n - 1, limit, window), Accepted(calls, n, limit, window);
      EveryWindowIsCapped(calls, n - 1, limit, window, x);
      AcceptedAreEarlier(calls, n - 1, limit, window);
      if now !in Window(history', x, window) {
        assert Window(history', x, window) == Window(history, x, window);
      } else {
        assert Window(history', x, window) <= Window(history, now, window) + {now};
        Fewer(Window(history', x, window), Window(history, now, window) + {now});
      }
    }
  }

  // --- remaining ---

  // What check_rate_limit reports as remaining.
  function Remaining(key: Key, now: real, limit: int, window: nat): int {
    if Allows(key, now, limit, window) then limit - |Counted(key, now, window)| - 1 else 0
  }

  lemma RoomAfterJudging(history: set<real>, now: real, limit: nat, window: nat)
    requires window > 0 && |Window(history, now, window)| <= limit && now !in history
    ensures var count, held := |Window(history, now, window)|, Window(Judged(history, now, limit, window), now, window);
            && |held| == (if count < limit then count + 1 else limit)
            && (limit > 0 ==> held != {})
  {
    if |Window(history, now, window)| < limit {
      assert Window(history + {now}, now, window) == Window(history, now, window) + {now};
    }
  }

  // What call n leaves in its window.
  function Held(calls: seq<real>, n: nat, limit: int, window: nat): set<real>
    requires n < |calls|
  {
    Window(Accepted(calls, n + 1, limit, window), calls[n], window)
  }

  // The reported remaining is the room left in the window once the call is judged.
  lemma RemainingIsRoom(calls: seq<real>, n: nat, limit: nat, window: nat)
    requires n < |calls| && Increasing(calls) && window > 0
    ensures Remaining(Served(calls, n, limit, window), calls[n], limit, window) == limit - |Held(calls, n, limit, window)| >= 0
    ensures limit > 0 ==> Held(calls, n, limit, window) != {}
  {
    DecidesByHistory(calls, n, limit, window);
    EveryWindowIsCapped(calls, n, limit, window, calls[n]);
    AcceptedAreEarlier(calls, n, limit, window);
    RoomAfterJudging(Accepted(calls, n, limit, window), calls[n], limit, window);
  }

  predicate NoneAged(held: set<real>, t: real, window: nat) {
    forall e :: e in held ==> t - window as real < e
  }

  // A later call, early enough that nothing held at `now` has aged out, counts what was held and every
  // newcomer since.
  lemma NewcomersCount(history: set<real>, now: real, window: nat, newcomers: set<real>, t: real)
    requires forall h :: h in history ==> h <= now
    requires forall g :: g in newcomers ==> now < g <= t
    requires now < t && NoneAged(Window(history, now, window), t, window)
    requires newcomers != {} ==> Window(history, now, window) != {}
    ensures |Window(history + newcomers, t, window)| == |Window(history, now, window)| + |newcomers|
  {
    var held := Window(history, now, window);
    forall g | g in newcomers ensures t - window as real < g {
      var e :| e in held;
      assert t - window as real < e <= now < g;
    }
    assert Window(history + newcomers, t, window) == held + newcomers;
    assert held !! newcomers;
  }

  // The first `count` calls after call n, as far as call m - 1.
  function Following(calls: seq<real>, n: nat, m: nat, count: nat): set<real>
    requires n < m <= |calls|
    decreases m
  {
    if m == n + 1 then {}
    else if m - 1 - n <= count then Following(calls, n, m - 1, count) + {calls[m - 1]}
    else Following(calls, n, m - 1, count)
  }

  lemma {:induction false} FollowingAre(calls: seq<real>, n: nat, m: nat, count: nat)
    requires n < m <= |calls| && Increasing(calls)
    ensures |Following(calls, n, m, count)| == if m - n - 1 <= count then m - n - 1 else count
    ensures forall g :: g in Following(calls, n, m, count) ==> calls[n] < g <= calls[m - 1]
    decreases m
  {
    if m > n + 1 {
      FollowingAre(calls, n, m - 1, count);
    }
  }

  lemma NewcomerJudged(history: set<real>, now: real, limit: nat, window: nat, newcomers: set<real>, t: real, remaining: nat)
    requires (forall h :: h in history ==> h <= now) && (forall g :: g in newcomers ==> now < g <= t)
    requires now < t && NoneAged(Window(history, now, window), t, window)
    requires |Window(history, now, window)| + remaining == limit && |newcomers| <= remaining
    requires limit > 0 ==> Window(history, now, window) != {}
    ensures Judged(history + newcomers, t, limit, window)
         == if |newcomers| < remaining then history + newcomers + {t} else history + newcomers
  {
    NewcomersCount(history, now, window, newcomers, t);
  }

  lemma RemainingStep(calls: seq<real>, n: nat, m: nat, limit: nat, window: nat, remaining: nat)
    requires n < m < |calls| && Increasing(calls)
    requires NoneAged(Held(calls, n, limit, window), calls[m], window)
    requires |Held(calls, n, limit, window)| + remaining == limit && (limit > 0 ==> Held(calls, n, limit, window) != {})
    ensures Judged(Accepted(calls, n + 1, limit, window) + Following(calls, n, m, remaining), calls[m], limit, window)
         == Accepted(calls, n + 1, limit, window) + Following(calls, n, m + 1, remaining)
  {
    var history, newcomers := Accepted(calls, n + 1, limit, window), Following(calls, n, m, remaining);
    Tracking(calls, n + 1, limit, window);
    FollowingAre(calls, n, m, remaining);
    NewcomerJudged(history, calls[n], limit, window, newcomers, calls[m], remaining);
  }

  lemma {:induction false} FirstFollowersPass(calls: seq<real>, n: nat, m: nat, limit: nat, window: nat, remaining: nat)
    requires n < m <= |calls| && Increasing(calls)
    requires NoneAged(Held(calls, n, limit, window), calls[m - 1], window)
    requires |Held(calls, n, limit, window)| + remaining == limit && (limit > 0 ==> Held(calls, n, limit, window) != {})
    ensures Accepted(calls, m, limit, window)
         == Accepted(calls, n + 1, limit, window) + Following(calls, n, m, remaining)
    decreases m
  {
    if m > n + 1 {
      FirstFollowersPass(calls, n, m - 1, limit, window, remaining);
      RemainingStep(calls, n, m - 1, limit, window, remaining);
    }
  }

  // The reported remaining is exact: of the calls after call n, as long as nothing held at call n has aged out,
  // the first `remaining` get in and no others.
  lemma RemainingIsExact(calls: seq<real>, n: nat, m: nat, limit: nat, window: nat)
    requires n < m <= |calls| && Increasing(calls) && window > 0
    requires NoneAged(Held(calls, n, limit, window), calls[m - 1], window)
    ensures Remaining(Served(calls, n, limit, window), calls[n], limit, window) >= 0
    ensures var remaining := Remaining(Served(calls, n, limit, window), calls[n], limit, window);
            Accepted(calls, m, limit, window)
              == Accepted(calls, n + 1, limit, window) + Following(calls, n, m, remaining)
  {
    RemainingIsRoom(calls, n, limit, window);
    FirstFollowersPass(calls, n, m, limit, window, Remaining(Served(calls, n, limit, window), calls[n], limit, window));
  }

  // --- Calls whose count and add pipelines interleave ---

  // `waiting` are the calls past their count that have not added themselves yet, `added` the ones that have:
  // together, the calls that were or will be let through. Both pipelines run at Redis's clock; a call's own
  // time is read with its count.
  datatype Gate = Gate(key: Key, clock: real, waiting: set<real>, added: set<real>)

  const OPEN := Gate(NO_KEY, 0.0, {}, {})

  datatype Pipeline =
    | Count(now: real)
    | Add(call: real, at: real)
    | Drop(call: real)

  predicate Runs(g: Gate, p: Pipeline) {
    match p
    case Count(now) => g.clock < now
    case Add(call, at) => call in g.waiting && g.clock <= at
    case Drop(call) => true
  }

  function Step(g: Gate, p: Pipeline, limit: nat, window: nat): Gate
    requires Runs(g, p)
  {
    match p
    case Count(now) =>
      var key := Key(Counted(g.key, now, window), if now >= g.key.expiry then 0.0 else g.key.expiry);
      Gate(key, now, if |key.entries| < limit then g.waiting + {now} else g.waiting, g.added)
    case Add(call, at) =>
      Gate(Key(Visible(g.key, at) + {call}, at + window as real), at, g.waiting - {call}, g.added + {call})
    case Drop(call) => g.(waiting := g.waiting - {call})
  }

  // The calls a client of the gate sees let through, now or once their add has run.
  function Passed(g: Gate): set<real> {
    g.waiting + g.added
  }

  // The pipelines run so far, the last one outermost.
  datatype Trace = Start | Then(before: Trace, last: Pipeline)

  function After(trace: Trace, limit: nat, window: nat): Gate {
    match trace
    case Start => OPEN
    case Then(before, p) =>
      var g := After(before, limit, window);
      if Runs(g, p) then Step(g, p, limit, window) else g
  }

  // At no point of the run do more than k calls stand between their two pipelines.
  predicate AtMostWaiting(trace: Trace, limit: nat, window: nat, k: nat) {
    |After(trace, limit, window).waiting| <= k && (trace.Then? ==> AtMostWaiting(trace.before, limit, window, k))
  }

  ghost predicate GateOk(g: Gate, limit: nat, window: nat, k: nat) {
    && g.clock >= 0.0
    && g.key.entries <= g.added
    && (forall t :: t in Passed(g) ==> 0.0 < t <= g.clock)
    && (forall t :: t in g.added && g.clock - window as real < t ==> t in Visible(g.key, g.clock))
    && (forall t :: t in g.key.entries ==> t + window as real <= g.key.expiry)
    && (forall m :: m in Passed(g) ==> |Window(Passed(g), m, window)| <= limit + k - 1)
  }

  // What a count sees covers every added call still in the window.
  lemma CountCovers(g: Gate, now: real, limit: nat, window: nat, k: nat)
    requires GateOk(g, limit, window, k) && g.clock <= now
    ensures forall t :: t in g.added && now - window as real < t ==> t in Counted(g.key, now, window)
  {
    forall t | t in g.added && now - window as real < t ensures t in Counted(g.key, now, window) {
      assert t in Visible(g.key, g.clock);
    }
  }

  lemma CountKeepsGate(g: Gate, now: real, limit: nat, window: nat, k: nat)
    requires k > 0 && GateOk(g, limit, window, k) && g.clock < now
    requires |Step(g, Count(now), limit, window).waiting| <= k
    ensures GateOk(Step(g, Count(now), limit, window), limit, window, k)
  {
    var g' := Step(g, Count(now), limit, window);
    CountCovers(g, now, limit, window, k);
    forall m | m in Passed(g') ensures |Window(Passed(g'), m, window)| <= limit + k - 1 {
      if m != now {
        assert Window(Passed(g'), m, window) == Window(Passed(g), m, window);
      } else if now in g'.waiting {
        assert Window(Passed(g'), now, window) <= g'.key.entries + g'.waiting;
        Fewer(Window(Passed(g'), now, window), g'.key.entries + g'.waiting);
      }
    }
  }

  lemma AddKeepsGate(g: Gate, call: real, at: real, limit: nat, window: nat, k: nat)
    requires k > 0 && GateOk(g, limit, window, k) && call in g.waiting && g.clock <= at
    ensures GateOk(Step(g, Add(call, at), limit, window), limit, window, k)
  {
    var g' := Step(g, Add(call, at), limit, window);
    CountCovers(g, at, limit, window, k);
    assert Passed(g') == Passed(g);
  }

  lemma DropKeepsGate(g: Gate, call: real, limit: nat, window: nat, k: nat)
    requires k > 0 && GateOk(g, limit, window, k)
    ensures GateOk(Step(g, Drop(call), limit, window), limit, window, k)
  {
    var g' := Step(g, Drop(call), limit, window);
    forall m | m in Passed(g') ensures |Window(Passed(g'), m, window)| <= limit + k - 1 {
      assert Window(Passed(g'), m, window) <= Window(Passed(g), m, window);
      Fewer(Window(Passed(g'), m, window), Window(Passed(g), m, window));
    }
  }

  lemma {:induction false} RunsKeepGate(trace: Trace, limit: nat, window: nat, k: nat)
    requires k > 0 && AtMostWaiting(trace, limit, window, k)
    ensures GateOk(After(trace, limit, window), limit, window, k)
  {
    if trace.Then? {
      RunsKeepGate(trace.before, limit, window, k);
      var g := After(trace.before, limit, window);
      if Runs(g, trace.last) {
        match trace.last
        case Count(now) => CountKeepsGate(g, now, limit, window, k);
        case Add(call, at) => AddKeepsGate(g, call, at, limit, window, k);
        case Drop(call) => DropKeepsGate(g, call, limit, window, k);
      }
    }
  }

  function Above(s: set<real>, t: real): set<real> {
    set u | u in s && t < u
  }

  lemma {:induction false} Greatest(s: set<real>, t: real) returns (m: real)
    requires t in s
    ensures m in s && forall u :: u in s ==> u <= m
    decreases Above(s, t)
  {
    if u :| u in s && t < u {
      assert u in Above(s, t) && u !in Above(s, u);
      m := Greatest(s, u);
    } else {
      m := t;
    }
  }

  // However the pipelines interleave, no stretch of `window` seconds lets through more than limit + k - 1 calls
  // when at most k calls are ever between their two pipelines.
  lemma ConcurrentWindowIsCapped(trace: Trace, limit: nat, window: nat, k: nat, x: real)
    requires k > 0 && AtMostWaiting(trace, limit, window, k)
    ensures |Window(Passed(After(trace, limit, window)), x, window)| <= limit + k - 1
  {
    var passed := Passed(After(trace, limit, window));
    RunsKeepGate(trace, limit, window, k);
    if t :| t in Window(passed, x, window) {
      var m := Greatest(Window(passed, x, window), t);
      assert Window(passed, x, window) <= Window(passed, m, window);
      Fewer(Window(passed, x, window), Window(passed, m, window));
    } else {
      assert Window(passed, x, window) == {};
    }
  }

  // --- The concurrent cap is reached ---

  // The n-th of the times step, 2 * step, ...
  function Tick(n: nat, step: real): real {
    if n == 0 then 0.0 else Tick(n - 1, step) + step
  }

  lemma {:induction false} TickIs(n: nat, step: real)
    ensures Tick(n, step) == n as real * step
  {
    if n > 0 {
      TickIs(n - 1, step);
    }
  }

  lemma {:induction false} TicksRise(n: nat, m: nat, step: real)
    requires step > 0.0 && n <= m
    ensures 0.0 <= Tick(n, step) <= Tick(m, step)
    ensures n < m ==> Tick(n, step) < Tick(m, step)
    decreases m
  {
    if n < m {
      TicksRise(n, m - 1, step);
    } else if n > 0 {
      TicksRise(n - 1, n - 1, step);
    }
  }

  function Ticks(n: nat, step: real): set<real> {
    if n == 0 then {} else Ticks(n - 1, step) + {Tick(n, step)}
  }

  lemma {:induction false} TicksRange(n: nat, step: real)
    requires step > 0.0
    ensures |Ticks(n, step)| == n
    ensures forall t :: t in Ticks(n, step) ==> 0.0 < t <= Tick(n, step)
  {
    if n > 0 {
      TicksRange(n - 1, step);
      TicksRise(n - 1, n, step);
    }
  }

  lemma {:induction false} TicksGrow(n: nat, j: nat, step: real)
    ensures Ticks(n, step) <= Ticks(n + j, step)
  {
    if j > 0 {
      TicksGrow(n, j - 1, step);
    }
  }

  // n calls one after the other.
  function Serially(n: nat, step: real): Trace {
    if n == 0 then Start
    else Then(Then(Serially(n - 1, step), Count(Tick(n, step))), Add(Tick(n, step), Tick(n, step)))
  }

  // n calls one after the other, then calls n + 1 to m that all count before any of them adds.
  function Together(n: nat, m: nat, step: real): Trace {
    if m <= n then Serially(n, step) else Then(Together(n, m - 1, step), Count(Tick(m, step)))
  }

  // Tick m is at most a window after time 0.
  predicate InWindow(m: nat, step: real, window: nat) {
    step > 0.0 && Tick(m, step) <= window as real
  }

  lemma EarlierInWindow(n: nat, m: nat, step: real, window: nat)
    requires n <= m && InWindow(m, step, window)
    ensures InWindow(n, step, window) && 0.0 <= Tick(n, step) <= Tick(m, step)
    ensures n < m ==> Tick(n, step) < Tick(m, step)
  {
    TicksRise(n, m, step);
  }

  // A key holding the first n ticks loses none of them up to tick m.
  lemma TicksStay(n: nat, m: nat, expiry: real, step: real, window: nat)
    requires n < m && InWindow(m, step, window) && (n > 0 ==> expiry == Tick(n, step) + window as real)
    ensures Counted(Key(Ticks(n, step), expiry), Tick(m, step), window) == Ticks(n, step)
  {
    TicksRange(n, step);
    EarlierInWindow(n, m, step, window);
    if n > 0 {
      TicksRise(0, n, step);
    }
  }

  ghost predicate Settled(g: Gate, n: nat, m: nat, step: real, window: nat) {
    && g.clock == Tick(m, step)
    && g.added == Ticks(n, step) && g.key.entries == Ticks(n, step)
    && g.waiting == Ticks(m, step) - Ticks(n, step)
    && (n > 0 ==> g.key.expiry == Tick(n, step) + window as real)
  }

  // One more call counts while the key holds n < limit ticks.
  lemma CountTick(g: Gate, n: nat, m: nat, limit: nat, step: real, window: nat, t: nat)
    requires Settled(g, n, m, step, window) && n < limit && n <= m && t == m + 1 && InWindow(t, step, window)
    ensures Runs(g, Count(Tick(t, step)))
    ensures Settled(Step(g, Count(Tick(t, step)), limit, window), n, t, step, window)
  {
    TicksStay(n, t, g.key.expiry, step, window);
    assert g.key == Key(Ticks(n, step), g.key.expiry);
    TicksRange(n, step);
    EarlierInWindow(n, t, step, window);
    assert Tick(t, step) !in Ticks(n, step);
  }

  lemma AddTick(g: Gate, n: nat, m: nat, step: real, window: nat, limit: nat)
    requires Settled(g, n, m, step, window) && n + 1 == m && InWindow(m, step, window)
    ensures Runs(g, Add(Tick(m, step), Tick(m, step)))
    ensures Settled(Step(g, Add(Tick(m, step), Tick(m, step)), limit, window), m, m, step, window)
  {
    TicksRange(n, step);
    EarlierInWindow(n, m, step, window);
    if n > 0 {
      TicksRise(0, n, step);
    }
    assert Tick(m, step) !in Ticks(n, step) && Tick(m, step) in g.waiting;
    assert Visible(g.key, Tick(m, step)) == Ticks(n, step);
  }

  lemma Without(a: set<real>, b: set<real>)
    requires b <= a
    ensures |a - b| == |a| - |b|
  {
    assert a == b + (a - b);
  }

  lemma SettledWaiting(g: Gate, n: nat, m: nat, step: real, window: nat)
    requires Settled(g, n, m, step, window) && n <= m && step > 0.0
    ensures |g.waiting| == m - n
  {
    TicksRange(n, step);
    TicksRange(m, step);
    TicksGrow(n, m - n, step);
    Without(Ticks(m, step), Ticks(n, step));
  }

  lemma {:induction false} SeriallySettles(n: nat, limit: nat, step: real, window: nat)
    requires n <= limit && InWindow(n, step, window)
    ensures Settled(After(Serially(n, step), limit, window), n, n, step, window)
  {
    if n > 0 {
      var p := n - 1;
      EarlierInWindow(p, n, step, window);
      SeriallySettles(p, limit, step, window);
      CountTick(After(Serially(p, step), limit, window), p, p, limit, step, window, n);
      AddTick(After(Then(Serially(p, step), Count(Tick(n, step))), limit, window), p, n, step, window, limit);
    }
  }

  lemma CountedWaiting(n: nat, p: nat, limit: nat, step: real, window: nat)
    requires p + 1 == n <= limit && InWindow(n, step, window)
    ensures |After(Then(Serially(p, step), Count(Tick(n, step))), limit, window).waiting| == 1
  {
    EarlierInWindow(p, n, step, window);
    SeriallySettles(p, limit, step, window);
    CountTick(After(Serially(p, step), limit, window), p, p, limit, step, window, n);
    SettledWaiting(After(Then(Serially(p, step), Count(Tick(n, step))), limit, window), p, n, step, window);
  }

  lemma {:induction false} SeriallyWait(n: nat, limit: nat, step: real, window: nat, k: nat)
    requires n <= limit && k > 0 && InWindow(n, step, window)
    ensures AtMostWaiting(Serially(n, step), limit, window, k)
  {
    if n > 0 {
      var p := n - 1;
      EarlierInWindow(p, n, step, window);
      SeriallyWait(p, limit, step, window, k);
      CountedWaiting(n, p, limit, step, window);
      SeriallySettles(n, limit, step, window);
      SettledWaiting(After(Serially(n, step), limit, window), n, n, step, window);
    }
  }

  lemma {:induction false} TogetherSettles(n: nat, m: nat, limit: nat, step: real, window: nat)
    requires n < limit && n <= m && InWindow(m, step, window)
    ensures Settled(After(Together(n, m, step), limit, window), n, m, step, window)
    decreases m
  {
    if m == n {
      SeriallySettles(n, limit, step, window);
    } else {
      EarlierInWindow(m - 1, m, step, window);
      TogetherSettles(n, m - 1, limit, step, window);
      CountTick(After(Together(n, m - 1, step), limit, window), n, m - 1, limit, step, window, m);
    }
  }

  lemma {:induction false} TogetherWait(n: nat, m: nat, limit: nat, step: real, window: nat, k: nat)
    requires n < limit && n <= m && m - n <= k && k > 0 && InWindow(m, step, window)
    ensures AtMostWaiting(Together(n, m, step), limit, window, k)
    decreases m
  {
    if m == n {
      SeriallyWait(n, limit, step, window, k);
    } else {
      EarlierInWindow(m - 1, m, step, window);
      TogetherWait(n, m - 1, limit, step, window, k);
      TogetherSettles(n, m, limit, step, window);
      SettledWaiting(After(Together(n, m, step), limit, window), n, m, step, window);
    }
  }

  lemma SettledWindow(g: Gate, n: nat, m: nat, step: real, window: nat)
    requires Settled(g, n, m, step, window) && n <= m && InWindow(m, step, window)
    ensures |Window(Passed(g), Tick(m, step), window)| == m
  {
    TicksRange(m, step);
    TicksGrow(n, m - n, step);
    assert Passed(g) == Ticks(m, step);
    assert Window(Ticks(m, step), Tick(m, step), window) == Ticks(m, step);
  }

  lemma StepFits(m: nat, window: nat) returns (step: real)
    requires m > 0 && window > 0
    ensures InWindow(m, step, window)
  {
    step := window as real / m as real;
    TickIs(m, step);
  }

  // The bound is the best one: for every limit, every k and every window there is a run that lets limit + k - 1
  // calls through in one window.
  lemma ConcurrentCapIsReached(limit: nat, window: nat, k: nat) returns (trace: Trace, x: real)
    requires 0 < limit && 0 < k && 0 < window
    ensures AtMostWaiting(trace, limit, window, k)
    ensures |Window(Passed(After(trace, limit, window)), x, window)| == limit + k - 1
  {
    var n, m := limit - 1, limit - 1 + k;
    var step := StepFits(m, window);
    trace, x := Together(n, m, step), Tick(m, step);
    TogetherWait(n, m, limit, step, window, k);
    TogetherSettles(n, m, limit, step, window);
    SettledWindow(After(trace, limit, window), n, m, step, window);
  }
}
