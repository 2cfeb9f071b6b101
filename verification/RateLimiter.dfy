/**
 * The priority queue in front of the endpoint groups' buckets, and its bounded retries
 * (backend/engine/rate_limit.py:48-154). A request is known by its sequence number; `kinds`,
 * `takes` and `starts` are histories that exist only to state what is proved.
 */
module RateLimiter {
  import opened Domain
  import B = TokenBucket

  datatype Endpoint = Hedge | Cancel | Kill | Place | Query

  datatype Request = Request(priority: int, endpoint: Endpoint, attempts: nat)

  datatype Start = Start(id: nat, endpoint: Endpoint, time: real)

  /** queue: waiting to be popped; running: operation under way; sleeping: backing off after a refusal. */
  datatype Limiter = Limiter(
    queue: map<nat, Request>, running: map<nat, Request>, sleeping: map<nat, Request>, done: set<nat>,
    buckets: map<Endpoint, B.Bucket>, blocked: map<Endpoint, real>, next: nat,
    kinds: map<nat, Endpoint>, takes: map<Endpoint, seq<real>>, starts: seq<Start>)

  datatype Outcome = Succeeded | RateLimited | Failed

  function MaxAttempts(e: Endpoint): nat { if e == Hedge then 8 else 4 }

  function Pow2(n: nat): real { if n == 0 then 1.0 else 2.0 * Pow2(n - 1) }

  /** How long a group rests after a refusal. */
  function Delay(attempts: nat): real { Min(Pow2(attempts) / 10.0, 5.0) }

  predicate Before(a: Request, m: nat, b: Request, n: nat)
  {
    a.priority < b.priority || (a.priority == b.priority && m < n)
  }

  /** The heap's top: the most urgent request, the oldest among equals. */
  predicate IsTop(queue: map<nat, Request>, n: nat)
  {
    n in queue && forall m :: m in queue && m != n ==> Before(queue[n], n, queue[m], m)
  }

  predicate Complete(l: Limiter)
  {
    forall e: Endpoint :: e in l.buckets && e in l.blocked && e in l.takes
  }

  function Submitted(l: Limiter, priority: int, e: Endpoint): Limiter
  {
    l.(queue := l.queue[l.next := Request(priority, e, 0)], next := l.next + 1, kinds := l.kinds[l.next := e])
  }

  /** One round of the worker on the top request; `canceled` says that nobody waits for it any more. */
  function Dispatched(l: Limiter, n: nat, now: real, canceled: bool): Limiter
    requires Complete(l) && n in l.queue
  {
    var r := l.queue[n];
    if now < l.blocked[r.endpoint] then l
    else
      var bucket := l.buckets[r.endpoint];
      var t := l.(buckets := l.buckets[r.endpoint := B.Taken(bucket, now)],
                  takes := l.takes[r.endpoint := l.takes[r.endpoint] + [now]]);
      if !B.Granted(bucket, now) then t
      else if canceled then t.(queue := l.queue - {n}, done := l.done + {n})
      else t.(queue := l.queue - {n}, running := l.running[n := r], starts := l.starts + [Start(n, r.endpoint, now)])
  }

  /** An operation ends; only a refusal for its rate is retried, and only while somebody waits. */
  function Finished(l: Limiter, n: nat, outcome: Outcome, now: real, waitedFor: bool): Limiter
    requires n in l.running
  {
    var r := l.running[n];
    var t := l.(running := l.running - {n});
    if outcome == RateLimited && r.attempts < MaxAttempts(r.endpoint) && waitedFor then
      t.(sleeping := l.sleeping[n := r.(attempts := r.attempts + 1)],
         blocked := l.blocked[r.endpoint := now + Delay(r.attempts + 1)])
    else t.(done := l.done + {n})
  }

  function Requeued(l: Limiter, n: nat): Limiter
    requires n in l.sleeping
  {
    l.(queue := l.queue[n := l.sleeping[n]], sleeping := l.sleeping - {n})
  }

  class PriorityRateLimiter {
    var queue: map<nat, Request>
    var running: map<nat, Request>
    var sleeping: map<nat, Request>
    var done: set<nat>
    var buckets: map<Endpoint, B.Bucket>
    var blocked: map<Endpoint, real>
    var next: nat
    ghost var kinds: map<nat, Endpoint>
    ghost var takes: map<Endpoint, seq<real>>
    ghost var starts: seq<Start>

    ghost function Value(): Limiter
      reads this
    {
      Limiter(queue, running, sleeping, done, buckets, blocked, next, kinds, takes, starts)
    }

    method Submit(priority: int, e: Endpoint) returns (n: nat)
      modifies this
      ensures n == old(next) && Value() == Submitted(old(Value()), priority, e)
    {
      n := next;
      queue := queue[n := Request(priority, e, 0)];
      next := next + 1;
      kinds := kinds[n := e];
    }

    method Top() returns (n: nat)
      requires queue != map[]
      ensures IsTop(queue, n)
    {
      n :| n in queue;
      var rest := queue.Keys - {n};
      while rest != {}
        invariant n in queue && n !in rest && rest <= queue.Keys
        invariant forall m :: m in queue && m != n && m !in rest ==> Before(queue[n], n, queue[m], m)
        decreases rest
      {
        var m :| m in rest;
        rest := rest - {m};
        if Before(queue[m], m, queue[n], n) {
          n := m;
        }
      }
    }

    method Dispatch(now: real, canceled: bool) returns (n: nat)
      requires queue != map[] && Complete(Value())
      modifies this
      ensures IsTop(old(queue), n) && Value() == Dispatched(old(Value()), n, now, canceled)
    {
      n := Top();
      var r := queue[n];
      if now < blocked[r.endpoint] {
        return;
      }
      var bucket := buckets[r.endpoint];
      buckets := buckets[r.endpoint := B.Taken(bucket, now)];
      takes := takes[r.endpoint := takes[r.endpoint] + [now]];
      if !B.Granted(bucket, now) {
        return;
      }
      queue := queue - {n};
      if canceled {
        done := done + {n};
        return;
      }
      running := running[n := r];
      starts := starts + [Start(n, r.endpoint, now)];
    }

    method Finish(n: nat, outcome: Outcome, now: real, waitedFor: bool)
      requires n in running
      modifies this
      ensures Value() == Finished(old(Value()), n, outcome, now, waitedFor)
    {
      var r := running[n];
      running := running - {n};
      if outcome == RateLimited && r.attempts < MaxAttempts(r.endpoint) && waitedFor {
        sleeping := sleeping[n := r.(attempts := r.attempts + 1)];
        blocked := blocked[r.endpoint := now + Delay(r.attempts + 1)];
      } else {
        done := done + {n};
      }
    }

    method Requeue(n: nat)
      requires n in sleeping
      modifies this
      ensures Value() == Requeued(old(Value()), n)
    {
      queue := queue[n := sleeping[n]];
      sleeping := sleeping - {n};
    }
  }

  // ----- runs -----

  datatype Event =
    | Submit(priority: int, endpoint: Endpoint)
    | Dispatch(n: nat, now: real, canceled: bool)
    | Finish(n: nat, outcome: Outcome, now: real, waitedFor: bool)
    | Requeue(n: nat)

  function Initial(rates: map<Endpoint, (real, real)>, now: real): Limiter
    requires forall e: Endpoint :: e in rates
  {
    Limiter(map[], map[], map[], {}, map e: Endpoint | e in rates :: B.Full(rates[e].0, rates[e].1, now),
      map e: Endpoint | e in rates :: 0.0, 0, map[], map e: Endpoint | e in rates :: [], [])
  }

  /** The clock does not run backwards: a take is never earlier than the group's last one. */
  predicate Enabled(l: Limiter, e: Event)
  {
    match e
    case Submit(_, _) => true
    case Dispatch(n, now, _) => Complete(l) && IsTop(l.queue, n) && l.buckets[l.queue[n].endpoint].updatedAt <= now
    case Finish(n, _, _, _) => n in l.running
    case Requeue(n) => n in l.sleeping
  }

  function Do(l: Limiter, e: Event): Limiter
    requires Enabled(l, e)
  {
    match e
    case Submit(priority, endpoint) => Submitted(l, priority, endpoint)
    case Dispatch(n, now, canceled) => Dispatched(l, n, now, canceled)
    case Finish(n, outcome, now, waitedFor) => Finished(l, n, outcome, now, waitedFor)
    case Requeue(n) => Requeued(l, n)
  }

  predicate Feasible(l: Limiter, events: seq<Event>)
    decreases |events|
  {
    events == [] || (Enabled(l, events[0]) && Feasible(Do(l, events[0]), events[1..]))
  }

  function After(l: Limiter, events: seq<Event>): Limiter
    requires Feasible(l, events)
    decreases |events|
  {
    if events == [] then l else After(Do(l, events[0]), events[1..])
  }

  // ----- every request runs a bounded number of times, and never twice at once -----

  function StartsOf(starts: seq<Start>, n: nat): nat
  {
    if starts == [] then 0 else StartsOf(starts[..|starts| - 1], n) + if starts[|starts| - 1].id == n then 1 else 0
  }

  function Bound(e: Endpoint): nat { MaxAttempts(e) + 1 }

  /** A request's record agrees with its history: one start for each attempt behind it, and `extra` under way. */
  predicate Counts(l: Limiter, n: nat, r: Request, extra: nat)
  {
    && n in l.kinds && r.endpoint == l.kinds[n] && r.attempts <= MaxAttempts(r.endpoint)
    && StartsOf(l.starts, n) == r.attempts + extra
  }

  /** A request is in one place at a time. */
  predicate PlaceOk(l: Limiter, n: nat)
  {
    && (n in l.queue ==> Counts(l, n, l.queue[n], 0) && n !in l.running && n !in l.sleeping && n !in l.done)
    && (n in l.running ==> Counts(l, n, l.running[n], 1) && n !in l.sleeping && n !in l.done)
    && (n in l.sleeping ==> Counts(l, n, l.sleeping[n], 0) && n !in l.done)
    && (n in l.done ==> n in l.kinds)
    && (n in l.kinds ==> n < l.next && StartsOf(l.starts, n) <= Bound(l.kinds[n]))
    && (n !in l.kinds ==> StartsOf(l.starts, n) == 0)
  }

  ghost predicate RequestsOk(l: Limiter)
  {
    forall n: nat :: PlaceOk(l, n)
  }

  lemma StartsAfter(starts: seq<Start>, s: Start, n: nat)
    ensures StartsOf(starts + [s], n) == StartsOf(starts, n) + if s.id == n then 1 else 0
  {
    assert (starts + [s])[..|starts|] == starts;
  }

  lemma SubmitKeeps(l: Limiter, priority: int, e: Endpoint)
    requires RequestsOk(l)
    ensures RequestsOk(Submitted(l, priority, e))
  {
    assert PlaceOk(l, l.next);
    forall n: nat ensures PlaceOk(Submitted(l, priority, e), n) {
      assert PlaceOk(l, n);
    }
  }

  /** The records of a request are the same in both. */
  predicate SameRecords(l: Limiter, t: Limiter, n: nat)
  {
    && (n in l.queue <==> n in t.queue) && (n in l.queue && n in t.queue ==> l.queue[n] == t.queue[n])
    && (n in l.running <==> n in t.running) && (n in l.running && n in t.running ==> l.running[n] == t.running[n])
    && l.sleeping == t.sleeping && (n in l.done <==> n in t.done) && l.kinds == t.kinds && l.next == t.next
    && StartsOf(l.starts, n) == StartsOf(t.starts, n)
  }

  lemma SameRecordsOk(l: Limiter, t: Limiter, n: nat)
    requires PlaceOk(l, n) && SameRecords(l, t, n)
    ensures PlaceOk(t, n)
  {
  }

  lemma StartedOk(l: Limiter, m: nat, now: real, t: Limiter)
    requires PlaceOk(l, m) && m in l.queue
    requires t == l.(queue := l.queue - {m}, running := l.running[m := l.queue[m]],
                     starts := l.starts + [Start(m, l.queue[m].endpoint, now)], buckets := t.buckets, takes := t.takes)
    ensures PlaceOk(t, m)
  {
    StartsAfter(l.starts, Start(m, l.queue[m].endpoint, now), m);
  }

  lemma DroppedOk(l: Limiter, m: nat, t: Limiter)
    requires PlaceOk(l, m) && m in l.queue
    requires t == l.(queue := l.queue - {m}, done := l.done + {m}, buckets := t.buckets, takes := t.takes)
    ensures PlaceOk(t, m)
  {
  }

  /** Other requests keep their records when one leaves the queue. */
  lemma OthersSame(l: Limiter, m: nat, n: nat, t: Limiter)
    requires n != m && t.kinds == l.kinds && t.next == l.next && t.sleeping == l.sleeping
    requires t.queue == l.queue || t.queue == l.queue - {m}
    requires t.running == l.running || (m in t.running && t.running == l.running[m := t.running[m]])
    requires t.done == l.done || t.done == l.done + {m}
    requires t.starts == l.starts || exists s: Start :: s.id == m && t.starts == l.starts + [s]
    ensures SameRecords(l, t, n)
  {
    if t.starts != l.starts {
      var s: Start :| s.id == m && t.starts == l.starts + [s];
      StartsAfter(l.starts, s, n);
    }
  }

  lemma DispatchKeeps(l: Limiter, m: nat, now: real, canceled: bool)
    requires RequestsOk(l) && Complete(l) && m in l.queue
    ensures RequestsOk(Dispatched(l, m, now, canceled))
  {
    hide PlaceOk, SameRecords;
    var t := Dispatched(l, m, now, canceled);
    var s := Start(m, l.queue[m].endpoint, now);
    assert t.starts == l.starts || t.starts == l.starts + [s];
    forall n: nat ensures PlaceOk(t, n) {
      assert PlaceOk(l, n);
      if n != m {
        OthersSame(l, m, n, t);
        SameRecordsOk(l, t, n);
      } else if t.starts != l.starts {
        StartedOk(l, m, now, t);
      } else if m !in t.queue {
        DroppedOk(l, m, t);
      } else {
        Untouched(l, m, t);
        SameRecordsOk(l, t, m);
      }
    }
  }

  lemma Untouched(l: Limiter, m: nat, t: Limiter)
    requires t == l.(buckets := t.buckets, takes := t.takes)
    ensures SameRecords(l, t, m)
  {
  }

  lemma FinishKeeps(l: Limiter, m: nat, outcome: Outcome, now: real, waitedFor: bool)
    requires RequestsOk(l) && m in l.running
    ensures RequestsOk(Finished(l, m, outcome, now, waitedFor))
  {
    assert PlaceOk(l, m);
    forall n: nat ensures PlaceOk(Finished(l, m, outcome, now, waitedFor), n) {
      assert PlaceOk(l, n);
    }
  }

  lemma RequeueKeeps(l: Limiter, m: nat)
    requires RequestsOk(l) && m in l.sleeping
    ensures RequestsOk(Requeued(l, m))
  {
    assert PlaceOk(l, m);
    forall n: nat ensures PlaceOk(Requeued(l, m), n) {
      assert PlaceOk(l, n);
    }
  }

  lemma StepKeepsRequests(l: Limiter, e: Event)
    requires RequestsOk(l) && Enabled(l, e)
    ensures RequestsOk(Do(l, e))
  {
    match e
    case Submit(priority, endpoint) => SubmitKeeps(l, priority, endpoint);
    case Dispatch(n, now, canceled) => DispatchKeeps(l, n, now, canceled);
    case Finish(n, outcome, now, waitedFor) => FinishKeeps(l, n, outcome, now, waitedFor);
    case Requeue(n) => RequeueKeeps(l, n);
  }

  lemma {:induction false} RunKeepsRequests(l: Limiter, events: seq<Event>)
    requires RequestsOk(l) && Feasible(l, events)
    ensures RequestsOk(After(l, events))
    decreases |events|
  {
    if events != [] {
      StepKeepsRequests(l, events[0]);
      RunKeepsRequests(Do(l, events[0]), events[1..]);
    }
  }

  predicate AllRates(rates: map<Endpoint, (real, real)>)
  {
    forall e: Endpoint :: e in rates
  }

  /** In every run a request's operation starts at most 9 times for hedges and 5 for everything else. */
  lemma RetriesBounded(rates: map<Endpoint, (real, real)>, at: real, events: seq<Event>, n: nat)
    requires AllRates(rates) && Feasible(Initial(rates, at), events)
    requires n in After(Initial(rates, at), events).kinds
    ensures var l := After(Initial(rates, at), events);
            StartsOf(l.starts, n) <= if l.kinds[n] == Hedge then 9 else 5
  {
    RunKeepsRequests(Initial(rates, at), events);
    assert PlaceOk(After(Initial(rates, at), events), n);
  }

  /** While an operation is under way its request is nowhere else, so it never runs twice at once. */
  lemma OnePlace(rates: map<Endpoint, (real, real)>, at: real, events: seq<Event>, n: nat)
    requires AllRates(rates) && Feasible(Initial(rates, at), events)
    requires n in After(Initial(rates, at), events).running
    ensures var l := After(Initial(rates, at), events);
            n !in l.queue && n !in l.sleeping && n !in l.done
  {
    RunKeepsRequests(Initial(rates, at), events);
    assert PlaceOk(After(Initial(rates, at), events), n);
  }

  // ----- the rate of starts -----

  function StartsIn(starts: seq<Start>, e: Endpoint, a: real, z: real): nat
  {
    if starts == [] then 0
    else
      var last := starts[|starts| - 1];
      StartsIn(starts[..|starts| - 1], e, a, z) + if last.endpoint == e && a <= last.time <= z then 1 else 0
  }

  /** A group's bucket is its initial bucket after the takes so far, and each start had its own grant. */
  ghost predicate GroupOk(l: Limiter, e: Endpoint, b: B.Bucket)
  {
    Tracked(l, e, b) && Paid(l.starts, e, B.Grants(b, l.takes[e]))
  }

  predicate Tracked(l: Limiter, e: Endpoint, b: B.Bucket)
  {
    && e in l.buckets && e in l.takes && l.buckets[e] == B.After(b, l.takes[e]) && B.Clocked(b, l.takes[e])
    && (l.takes[e] != [] ==> l.buckets[e].updatedAt == l.takes[e][|l.takes[e]| - 1])
    && (l.takes[e] == [] ==> l.buckets[e].updatedAt == b.updatedAt)
  }

  ghost predicate Paid(starts: seq<Start>, e: Endpoint, grants: seq<real>)
  {
    forall a, z :: StartsIn(starts, e, a, z) <= B.CountIn(grants, a, z)
  }

  lemma TakeExtends(b: B.Bucket, times: seq<real>, now: real, a: real, z: real)
    ensures B.After(b, times + [now]) == B.Taken(B.After(b, times), now)
    ensures B.CountIn(B.Grants(b, times + [now]), a, z) ==
              B.CountIn(B.Grants(b, times), a, z) + if B.Granted(B.After(b, times), now) && a <= now <= z then 1 else 0
  {
    assert (times + [now])[..|times|] == times;
    var g := B.Grants(b, times);
    if B.Granted(B.After(b, times), now) {
      assert (g + [now])[..|g|] == g;
    } else {
      assert B.Grants(b, times + [now]) == g;
    }
  }

  lemma StartExtends(starts: seq<Start>, s: Start, e: Endpoint, a: real, z: real)
    ensures StartsIn(starts + [s], e, a, z) ==
              StartsIn(starts, e, a, z) + if s.endpoint == e && a <= s.time <= z then 1 else 0
  {
    assert (starts + [s])[..|starts|] == starts;
  }

  lemma TakeKeepsGroup(l: Limiter, e: Endpoint, b: B.Bucket, now: real, t: Limiter, started: seq<Start>)
    requires GroupOk(l, e, b) && l.buckets[e].updatedAt <= now
    requires t.buckets == l.buckets[e := B.Taken(l.buckets[e], now)] && t.takes == l.takes[e := l.takes[e] + [now]]
    requires t.starts == l.starts + started
    requires started == [] || (|started| == 1 && started[0].time == now && B.Granted(l.buckets[e], now))
    ensures GroupOk(t, e, b)
  {
    var times := l.takes[e];
    TakeTracked(l, e, b, now, t);
    forall a, z ensures StartsIn(t.starts, e, a, z) <= B.CountIn(B.Grants(b, t.takes[e]), a, z) {
      StartsPaid(l.starts, started, b, times, now, e, a, z);
    }
  }

  lemma TakeTracked(l: Limiter, e: Endpoint, b: B.Bucket, now: real, t: Limiter)
    requires Tracked(l, e, b) && l.buckets[e].updatedAt <= now
    requires t.buckets == l.buckets[e := B.Taken(l.buckets[e], now)] && t.takes == l.takes[e := l.takes[e] + [now]]
    ensures Tracked(t, e, b)
  {
    var times := l.takes[e];
    ClockedMore(b, times, now, l.buckets[e].updatedAt);
    TakeExtends(b, times, now, 0.0, 0.0);
  }

  lemma StartsPaid(
    starts: seq<Start>, started: seq<Start>, b: B.Bucket, times: seq<real>, now: real, e: Endpoint, a: real, z: real)
    requires StartsIn(starts, e, a, z) <= B.CountIn(B.Grants(b, times), a, z)
    requires started == [] || (|started| == 1 && started[0].time == now && B.Granted(B.After(b, times), now))
    ensures StartsIn(starts + started, e, a, z) <= B.CountIn(B.Grants(b, times + [now]), a, z)
  {
    TakeExtends(b, times, now, a, z);
    if started == [] {
      assert starts + started == starts;
    } else {
      assert started == [started[0]];
      StartExtends(starts, started[0], e, a, z);
    }
  }

  lemma OtherKeepsGroup(l: Limiter, e: Endpoint, b: B.Bucket, t: Limiter, started: seq<Start>)
    requires GroupOk(l, e, b) && e in t.buckets && e in t.takes
    requires t.buckets[e] == l.buckets[e] && t.takes[e] == l.takes[e] && t.starts == l.starts + started
    requires started == [] || (|started| == 1 && started[0].endpoint != e)
    ensures GroupOk(t, e, b)
  {
    forall a, z ensures StartsIn(t.starts, e, a, z) <= B.CountIn(B.Grants(b, t.takes[e]), a, z) {
      if started == [] {
        assert t.starts == l.starts;
      } else {
        assert started == [started[0]];
        StartExtends(l.starts, started[0], e, a, z);
      }
    }
  }

  lemma DispatchKeepsGroup(l: Limiter, n: nat, now: real, canceled: bool, e: Endpoint, b: B.Bucket)
    requires GroupOk(l, e, b) && Complete(l) && n in l.queue && l.buckets[l.queue[n].endpoint].updatedAt <= now
    ensures GroupOk(Dispatched(l, n, now, canceled), e, b)
  {
    var t := Dispatched(l, n, now, canceled);
    var r := l.queue[n];
    var started := if t.starts == l.starts then [] else [Start(n, r.endpoint, now)];
    assert t.starts == l.starts + started;
    if now >= l.blocked[r.endpoint] && r.endpoint == e {
      TakeKeepsGroup(l, e, b, now, t, started);
    } else {
      OtherKeepsGroup(l, e, b, t, started);
    }
  }

  lemma ClockedMore(b: B.Bucket, times: seq<real>, now: real, last: real)
    requires B.Clocked(b, times) && last <= now
    requires if times == [] then last == b.updatedAt else last == times[|times| - 1]
    ensures B.Clocked(b, times + [now])
  {
  }

  lemma StepKeepsGroup(l: Limiter, ev: Event, e: Endpoint, b: B.Bucket)
    requires GroupOk(l, e, b) && B.BucketOk(b) && Enabled(l, ev)
    ensures GroupOk(Do(l, ev), e, b)
  {
    match ev
    case Dispatch(n, now, canceled) => DispatchKeepsGroup(l, n, now, canceled, e, b);
    case _ =>
  }

  lemma {:induction false} RunKeepsGroup(l: Limiter, events: seq<Event>, e: Endpoint, b: B.Bucket)
    requires GroupOk(l, e, b) && B.BucketOk(b) && Feasible(l, events)
    ensures GroupOk(After(l, events), e, b)
    decreases |events|
  {
    if events != [] {
      StepKeepsGroup(l, events[0], e, b);
      RunKeepsGroup(Do(l, events[0]), events[1..], e, b);
    }
  }

  /**
   * In every run, the operations of a group that start in any window from `a` to `z` are at most its
   * capacity plus its rate times the window's length.
   */
  lemma RateBound(rates: map<Endpoint, (real, real)>, at: real, events: seq<Event>, e: Endpoint, a: real, z: real)
    requires AllRates(rates) && rates[e].0 >= 0.0 && rates[e].1 >= 0.0 && a <= z
    requires Feasible(Initial(rates, at), events)
    ensures StartsIn(After(Initial(rates, at), events).starts, e, a, z) as real
              <= rates[e].1 + B.Earned(rates[e].0, z - a)
  {
    var b := B.Full(rates[e].0, rates[e].1, at);
    RunKeepsGroup(Initial(rates, at), events, e, b);
    var times := After(Initial(rates, at), events).takes[e];
    B.WindowBound(b, times, a, z);
  }
}
