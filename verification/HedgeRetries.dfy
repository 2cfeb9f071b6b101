/** Retry limits of the hedge worker: how often an intent can be attempted, and for how long. */
module HedgeRetries {
  import opened Domain
  import opened Sums
  import opened Store
  import opened Allocation
  import opened Ledger
  import opened HedgeProtocol
  import opened HedgeInvariant
  import OrphanMatch

  /** The intents a task has not settled yet are HEDGING. */
  predicate ActiveHedging(intents: seq<Intent>, g: Group)
  {
    var from := if g.stage.Settling? then g.stage.next else 0;
    forall n :: from <= n < |g.active| ==> g.active[n] < |intents| && intents[g.active[n]].status == Hedging
  }

  predicate StatusOk(s: State)
  {
    && (forall i :: 0 <= i < |s.store.intents| ==> s.store.intents[i].attempts <= s.limit)
    && (forall task :: task in s.groups ==> ActiveHedging(s.store.intents, s.groups[task]))
  }

  /** One intent over one event: a legal move, counted when it enters HEDGING, within the limit. */
  predicate Moved(a: Intent, b: Intent, limit: nat)
  {
    && HedgeMove(a.status, b.status)
    && b.attempts == a.attempts + (if a.status != Hedging && b.status == Hedging then 1 else 0)
    && (a.attempts <= limit ==> b.attempts <= limit)
  }

  predicate AllMoved(a: seq<Intent>, b: seq<Intent>, limit: nat)
  {
    |a| <= |b| && forall i :: 0 <= i < |a| ==> Moved(a[i], b[i], limit)
  }

  /** A single write either leaves every status alone or moves one intent. */
  predicate OnlyMoves(a: seq<Intent>, b: seq<Intent>, i: nat)
  {
    |a| <= |b| && forall j :: 0 <= j < |a| && j != i ==> b[j].status == a[j].status && b[j].attempts == a[j].attempts
  }

  lemma TransitionMoves(s: Tables, i: nat, target: HedgeStatus, orderId: Option<nat>, limit: nat)
    requires TransitionHedge(s, i, target, orderId).Ok?
    requires target == Hedging ==> s.intents[i].status == Hedging || s.intents[i].attempts < limit
    ensures var t := TransitionHedge(s, i, target, orderId).value;
      AllMoved(s.intents, t.intents, limit) && OnlyMoves(s.intents, t.intents, i) && t.intents[i].status == target
  {
  }

  /** A task other than the mover keeps its HEDGING intents. */
  lemma OthersHedging(s: State, b: seq<Intent>, i: nat, task: nat)
    requires Inv(s) && StatusOk(s) && task in s.groups && OnlyMoves(s.store.intents, b, i)
    requires i !in s.groups[task].ids
    ensures ActiveHedging(b, s.groups[task])
  {
    var g := s.groups[task];
    assert GroupOk(s.store, g);
    forall n | 0 <= n < |g.active| ensures g.active[n] != i {
      assert g.active[n] in g.active;
    }
  }

  /** What a task step needs to know of its own intents. */
  predicate OwnReady(s: State, g: Group)
  {
    && ActiveHedging(s.store.intents, g) && InTable(g.ids, |s.store.intents|) && (forall i :: i in g.active ==> i in g.ids)
    && (g.stage.Inflight? ==> g.active == [])
  }

  lemma TaskReady(s: State, task: nat)
    requires Inv(s) && StatusOk(s) && task in s.groups
    ensures OwnReady(s, s.groups[task])
  {
    assert GroupOk(s.store, s.groups[task]);
    hide StoreOk;
  }

  lemma ElseMoves(s: State, task: nat, step: TaskStep)
    requires ForeignKeys(s.store) && task in s.groups && TaskEnabled(s, s.groups[task], step) && !step.Complete?
    requires OwnReady(s, s.groups[task])
    ensures AllMoved(s.store.intents, DoTask(s, task, step).store.intents, s.limit)
    ensures forall j :: 0 <= j < |s.store.intents| && j !in s.groups[task].ids ==>
              DoTask(s, task, step).store.intents[j].status == s.store.intents[j].status
  {
    var g := s.groups[task];
    hide ForeignKeys;
    match step
    case Attempt =>
      TransitionMoves(s.store, g.ids[g.stage.next], AttemptTarget(s, g.ids[g.stage.next]), None, s.limit);
    case EscalateInflight =>
      if IsInflight(s.store.intents[g.ids[g.stage.next]]) {
        TransitionMoves(s.store, g.ids[g.stage.next], Escalate, None, s.limit);
      }
    case Mark =>
      TransitionMoves(s.store, g.active[g.stage.marked], Hedging, Some(OwnId(g.stage.sub)), s.limit);
    case Settle =>
      var i := g.active[g.stage.next];
      TransitionMoves(s.store, i, SettleTarget(s.store.intents[i], g.stage.outcome), SettleOrder(g.stage.outcome), s.limit);
    case _ =>
  }

  /** The write of one task step: which intent it moves, if any. */
  lemma TaskMoves(s: State, task: nat, step: TaskStep)
    requires Inv(s) && StatusOk(s) && task in s.groups && TaskEnabled(s, s.groups[task], step)
    ensures AllMoved(s.store.intents, DoTask(s, task, step).store.intents, s.limit)
    ensures forall j :: 0 <= j < |s.store.intents| && j !in s.groups[task].ids ==>
              DoTask(s, task, step).store.intents[j].status == s.store.intents[j].status
  {
    if step.Complete? {
      CompleteRows(s, task, step.filled, step.notional, step.fee);
      hide DoTask, TaskEnabled, Inv;
    } else {
      TaskReady(s, task);
      ElseMoves(s, task, step);
      hide *;
    }
  }

  lemma AttemptActive(s: State, task: nat)
    requires Inv(s) && StatusOk(s) && task in s.groups && TaskEnabled(s, s.groups[task], Attempt)
    ensures var t := DoTask(s, task, Attempt); ActiveHedging(t.store.intents, t.groups[task])
  {
    var g := s.groups[task];
    var i := g.ids[g.stage.next];
    assert GroupOk(s.store, g) && ActiveHedging(s.store.intents, g);
    assert i !in g.ids[..g.stage.next];
    forall n | 0 <= n < |g.active| ensures g.active[n] != i {
      assert g.active[n] in g.active;
    }
  }

  lemma ElseActive(s: State, task: nat, step: TaskStep)
    requires ForeignKeys(s.store) && task in s.groups && TaskEnabled(s, s.groups[task], step)
    requires !step.Complete? && !step.Attempt? && OwnReady(s, s.groups[task]) && Distinct(s.groups[task].active)
    ensures var t := DoTask(s, task, step); task in t.groups ==> ActiveHedging(t.store.intents, t.groups[task])
  {
    hide ForeignKeys;
  }

  lemma CompletedActive(s: State, task: nat, step: TaskStep)
    requires ForeignKeys(s.store) && task in s.groups && TaskEnabled(s, s.groups[task], step) && step.Complete?
    ensures var t := DoTask(s, task, step);
      && task in t.groups && t.groups[task].active == s.groups[task].active
      && (t.groups[task].stage.Settling? ==> t.groups[task].stage.next == 0)
  {
    hide ForeignKeys, Finish;
  }

  /** What is left for the task to settle stays HEDGING. */
  lemma TaskActive(s: State, task: nat, step: TaskStep)
    requires Inv(s) && StatusOk(s) && task in s.groups && TaskEnabled(s, s.groups[task], step)
    ensures var t := DoTask(s, task, step); task in t.groups ==> ActiveHedging(t.store.intents, t.groups[task])
  {
    TaskReady(s, task);
    if step.Complete? {
      CompleteRows(s, task, step.filled, step.notional, step.fee);
      CompletedActive(s, task, step);
      hide DoTask, Inv;
    } else if step.Attempt? {
      AttemptActive(s, task);
    } else {
      assert GroupOk(s.store, s.groups[task]);
      ElseActive(s, task, step);
      hide DoTask;
    }
  }

  lemma RestartMoves(s: State, step: RestartStep)
    requires Inv(s) && (step.Crash? || s.recovering) && RestartEnabled(s, step)
    ensures AllMoved(s.store.intents, DoRestart(s, step).store.intents, s.limit)
  {
    match step
    case RecoverKnown(k, filled, notional, fee) =>
      FinishKeeps(s.store, k, filled, notional, fee, s.store.submissions[k].orderId);
    case RecoverRows(k) => FoundKeeps(s, k);
    case RecoverSettle(k, i) =>
      TransitionMoves(s.store, i, RecoveredTarget(s.store.intents[i]),
        if s.store.submissions[k].status == Resolved then s.store.submissions[k].orderId else None, s.limit);
    case RecoverInflight(i, latest) => TransitionMoves(s.store, i, InflightTarget(s.store, i, latest), None, s.limit);
    case _ =>
  }

  lemma ClientMoves(s: State, step: ClientStep)
    requires ClientEnabled(s, step)
    ensures s.store.intents <= DoClient(s, step).store.intents && DoClient(s, step).limit == s.limit
  {
  }

  lemma LoopMoves(s: State, step: LoopStep)
    requires LoopEnabled(s, step)
    ensures AllMoved(s.store.intents, DoLoop(s, step).store.intents, s.limit)
  {
    if step.EscalateDust? {
      TransitionMoves(s.store, step.i, Escalate, None, s.limit);
    }
  }

  lemma StepMoves(s: State, e: Event)
    requires Inv(s) && StatusOk(s) && Enabled(s, e)
    ensures AllMoved(s.store.intents, Do(s, e).store.intents, s.limit) && Do(s, e).limit == s.limit
  {
    hide Inv, StatusOk, DoClient, ClientEnabled, LoopEnabled, RestartEnabled, TaskEnabled;
    match e
    case Client(step) => ClientMoves(s, step);
    case Loop(step) => LoopMoves(s, step);
    case Task(task, step) =>
      TaskMoves(s, task, step);
      TaskLimit(s, task, step);
      hide DoTask;
    case Venue(_, _) =>
    case Outside(_) =>
    case Restart(step) => RestartMoves(s, step);
  }

  lemma TaskLimit(s: State, task: nat, step: TaskStep)
    requires Inv(s) && task in s.groups && TaskEnabled(s, s.groups[task], step)
    ensures DoTask(s, task, step).limit == s.limit
  {
    hide ForeignKeys, StoreOk, TasksOk, Finish, Allocate;
  }

  lemma OtherTask(s: State, b: seq<Intent>, task: nat, other: nat)
    requires Inv(s) && StatusOk(s) && task in s.groups && other in s.groups && other != task
    requires |b| >= |s.store.intents|
    requires forall j :: 0 <= j < |s.store.intents| && j !in s.groups[task].ids ==> b[j].status == s.store.intents[j].status
    ensures ActiveHedging(b, s.groups[other])
  {
    var h := s.groups[other];
    assert GroupOk(s.store, h) && ActiveHedging(s.store.intents, h);
    forall n | 0 <= n < |h.active| ensures b[h.active[n]].status == s.store.intents[h.active[n]].status {
      assert h.active[n] in h.active;
      assert Disjoint(h.ids, s.groups[task].ids);
    }
  }

  lemma TaskScope(s: State, task: nat, step: TaskStep)
    requires ForeignKeys(s.store) && task in s.groups && TaskEnabled(s, s.groups[task], step)
    ensures var t := DoTask(s, task, step);
      && t.limit == s.limit && t.groups.Keys <= s.groups.Keys
      && forall other :: other in t.groups && other != task ==> t.groups[other] == s.groups[other]
  {
  }

  lemma StatusFromParts(s: State, t: State, task: nat)
    requires Inv(s) && StatusOk(s) && task in s.groups && t.limit == s.limit && t.groups.Keys <= s.groups.Keys
    requires forall other :: other in t.groups && other != task ==> t.groups[other] == s.groups[other]
    requires AllMoved(s.store.intents, t.store.intents, s.limit) && |t.store.intents| == |s.store.intents|
    requires forall j :: 0 <= j < |s.store.intents| && j !in s.groups[task].ids ==>
               t.store.intents[j].status == s.store.intents[j].status
    requires task in t.groups ==> ActiveHedging(t.store.intents, t.groups[task])
    ensures StatusOk(t)
  {
    forall other | other in t.groups ensures ActiveHedging(t.store.intents, t.groups[other]) {
      if other != task {
        OtherTask(s, t.store.intents, task, other);
      }
    }
    forall i | 0 <= i < |t.store.intents| ensures t.store.intents[i].attempts <= t.limit {
      assert Moved(s.store.intents[i], t.store.intents[i], s.limit);
    }
  }

  lemma TaskStatusOk(s: State, task: nat, step: TaskStep)
    requires Inv(s) && StatusOk(s) && task in s.groups && TaskEnabled(s, s.groups[task], step)
    ensures StatusOk(DoTask(s, task, step))
  {
    TaskMoves(s, task, step);
    TaskActive(s, task, step);
    TaskScope(s, task, step);
    TaskRowsKept(s, task, step);
    StatusFromParts(s, DoTask(s, task, step), task);
  }

  /** Steps outside the tasks keep the tasks, or drop them, and move no intent a task still has to settle. */
  lemma ElseStatusOk(s: State, e: Event)
    requires Inv(s) && StatusOk(s) && Enabled(s, e) && !e.Task? && !e.Loop?
    ensures StatusOk(Do(s, e))
  {
    var t := Do(s, e);
    StepMoves(s, e);
    ElseGroups(s, e);
    hide Inv, Do, Enabled, Moved;
    forall i | 0 <= i < |t.store.intents| ensures t.store.intents[i].attempts <= t.limit {
      if i < |s.store.intents| {
        Limited(s.store.intents[i], t.store.intents[i], s.limit);
      }
    }
  }

  lemma Limited(a: Intent, b: Intent, limit: nat)
    requires Moved(a, b, limit) && a.attempts <= limit
    ensures b.attempts <= limit
  {
  }

  lemma ElseGroups(s: State, e: Event)
    requires Inv(s) && Enabled(s, e) && !e.Task? && !e.Loop?
    ensures var t := Do(s, e);
      && (t.groups == map[] || (t.groups == s.groups && s.store.intents <= t.store.intents))
      && forall i :: |s.store.intents| <= i < |t.store.intents| ==> t.store.intents[i].attempts == 0
  {
    NewIntents(s, e);
    hide Shows, OrphanMatch.Decided;
  }

  lemma StepStatusOk(s: State, e: Event)
    requires Inv(s) && StatusOk(s) && Enabled(s, e)
    ensures Inv(Do(s, e)) && StatusOk(Do(s, e))
  {
    StepInv(s, e);
    hide Inv, StatusOk, Enabled;
    match e
    case Task(task, step) => TaskStatusOk(s, task, step);
    case Loop(step) => LoopStatusOk(s, step);
    case _ => ElseStatusOk(s, e);
  }

  lemma LoopStatusOk(s: State, step: LoopStep)
    requires Inv(s) && StatusOk(s) && LoopEnabled(s, step)
    ensures Inv(DoLoop(s, step)) && StatusOk(DoLoop(s, step))
  {
    var t := DoLoop(s, step);
    LoopEvent(s, step);
    forall task | task in t.groups
      ensures ActiveHedging(t.store.intents, t.groups[task])
    {
      if step.EscalateDust? {
        assert !InSomeGroup(s, step.i);
        OthersHedging(s, t.store.intents, step.i, task);
      }
    }
  }

  lemma {:induction false} RunStatusOk(s: State, events: seq<Event>)
    requires Inv(s) && StatusOk(s) && Feasible(s, events)
    ensures Inv(After(s, events)) && StatusOk(After(s, events)) && After(s, events).limit == s.limit
    decreases |events|
  {
    if events != [] {
      StepStatusOk(s, events[0]);
      StepMoves(s, events[0]);
      RunStatusOk(Do(s, events[0]), events[1..]);
    }
  }

  // ----- attempts -----

  /** How often intent `i` enters HEDGING during a run. */
  function Entries(s: State, events: seq<Event>, i: nat): nat
    requires Feasible(s, events)
    decreases |events|
  {
    if events == [] then 0
    else
      var t := Do(s, events[0]);
      (if i < |s.store.intents| && i < |t.store.intents|
          && s.store.intents[i].status != Hedging && t.store.intents[i].status == Hedging then 1 else 0)
      + Entries(t, events[1..], i)
  }

  lemma {:induction false} EntriesCounted(s: State, events: seq<Event>, i: nat)
    requires Inv(s) && StatusOk(s) && Feasible(s, events)
    ensures i < |After(s, events).store.intents| ==>
              After(s, events).store.intents[i].attempts
              == Entries(s, events, i) + if i < |s.store.intents| then s.store.intents[i].attempts else 0
    ensures i >= |After(s, events).store.intents| ==> Entries(s, events, i) == 0
    ensures |s.store.intents| <= |After(s, events).store.intents|
    decreases |events|
  {
    if events != [] {
      var t := Do(s, events[0]);
      StepStatusOk(s, events[0]);
      StepMoves(s, events[0]);
      NewIntents(s, events[0]);
      EntriesCounted(t, events[1..], i);
    }
  }

  lemma NewIntents(s: State, e: Event)
    requires Inv(s) && Enabled(s, e)
    ensures forall i :: |s.store.intents| <= i < |Do(s, e).store.intents| ==>
              Do(s, e).store.intents[i].attempts == 0 && Do(s, e).store.intents[i].status == Pending
  {
    hide Inv;
    match e
    case Client(step) =>
    case Loop(step) =>
    case Task(task, step) => TaskRowsKept(s, task, step);
    case Venue(k, step) =>
    case Outside(step) =>
    case Restart(step) => RestartRowsKept(s, step);
  }

  /** An intent that is HEDGED or escalated stays so. */
  lemma {:induction false} EndedStays(s: State, events: seq<Event>, i: nat)
    requires Inv(s) && StatusOk(s) && Feasible(s, events) && i < |s.store.intents| && !IsPending(s.store.intents[i].status)
    ensures i < |After(s, events).store.intents| && After(s, events).store.intents[i].status == s.store.intents[i].status
    decreases |events|
  {
    if events != [] {
      StepStatusOk(s, events[0]);
      StepMoves(s, events[0]);
      EndedStays(Do(s, events[0]), events[1..], i);
    }
  }

  lemma {:induction false} Joined(s: State, first: seq<Event>, second: seq<Event>)
    requires Feasible(s, first) && Feasible(After(s, first), second)
    ensures Feasible(s, first + second) && After(s, first + second) == After(After(s, first), second)
    decreases |first|
  {
    hide ForeignKeys, Enabled, Do;
    if first == [] {
      assert first + second == second;
    } else {
      assert (first + second)[1..] == first[1..] + second;
      Joined(Do(s, first[0]), first[1..], second);
    }
  }

  /** No intent is ever attempted more often than the limit allows. */
  lemma BoundedRetries(limit: nat, events: seq<Event>, i: nat)
    requires Feasible(Init(limit), events)
    ensures Entries(Init(limit), events, i) <= limit
  {
    InitInv(limit);
    EntriesCounted(Init(limit), events, i);
    RunStatusOk(Init(limit), events);
  }

  // ----- termination -----

  /** Status changes an intent has left: two per remaining attempt, and one to leave where it is. */
  function RankAt(limit: nat): Intent -> real
  {
    (i: Intent) =>
      match i.status
      case Pending => 2.0 * (limit as real - i.attempts as real) + 1.0
      case Retry => 2.0 * (limit as real - i.attempts as real) + 1.0
      case Hedging => 2.0 * (limit as real - i.attempts as real) + 2.0
      case Hedged => 0.0
      case Escalate => 0.0
  }

  function Changes(a: seq<Intent>, b: seq<Intent>): nat
    requires |a| <= |b|
  {
    if a == [] then 0 else (if a[0].status != b[0].status then 1 else 0) + Changes(a[1..], b[1..])
  }

  lemma {:induction false} RankDrops(a: seq<Intent>, b: seq<Intent>, limit: nat)
    requires AllMoved(a, b, limit) && |a| == |b|
    requires forall i :: 0 <= i < |a| ==> a[i].attempts <= limit
    ensures Total(RankAt(limit), b) + Changes(a, b) as real <= Total(RankAt(limit), a)
  {
    if a != [] {
      assert Moved(a[0], b[0], limit);
      forall i | 0 <= i < |a[1..]| ensures Moved(a[1..][i], b[1..][i], limit) && a[1..][i].attempts <= limit {
        assert a[1..][i] == a[i + 1] && b[1..][i] == b[i + 1];
      }
      RankDrops(a[1..], b[1..], limit);
    }
  }

  function RunChanges(s: State, events: seq<Event>): nat
    requires Feasible(s, events)
    decreases |events|
  {
    if events == [] then 0
    else
      var t := Do(s, events[0]);
      (if |s.store.intents| <= |t.store.intents| then Changes(s.store.intents, t.store.intents) else 0)
      + RunChanges(t, events[1..])
  }

  predicate NoNewFills(events: seq<Event>)
  {
    forall k :: 0 <= k < |events| ==> !(events[k].Client? && events[k].client.Fill?)
  }

  lemma {:induction false} RankBoundsChanges(s: State, events: seq<Event>)
    requires Inv(s) && StatusOk(s) && Feasible(s, events) && NoNewFills(events)
    ensures RunChanges(s, events) as real <= Total(RankAt(s.limit), s.store.intents)
    decreases |events|
  {
    if events == [] {
      RankNonNegative(s.store.intents, s.limit);
    } else {
      var t := Do(s, events[0]);
      StepStatusOk(s, events[0]);
      StepMoves(s, events[0]);
      SameCount(s, events[0]);
      RankDrops(s.store.intents, t.store.intents, s.limit);
      RankBoundsChanges(t, events[1..]);
    }
  }

  lemma SameCount(s: State, e: Event)
    requires Inv(s) && Enabled(s, e) && !(e.Client? && e.client.Fill?)
    ensures |Do(s, e).store.intents| == |s.store.intents|
  {
    RowsKept(s, e);
  }

  lemma {:induction false} RankNonNegative(intents: seq<Intent>, limit: nat)
    requires forall i :: 0 <= i < |intents| ==> intents[i].attempts <= limit
    ensures Total(RankAt(limit), intents) >= 0.0
  {
    if intents != [] {
      RankNonNegative(intents[1..], limit);
    }
  }

  /** After any run, without new fills only finitely many hedge status changes are left. */
  lemma StatusChangesBounded(limit: nat, past: seq<Event>, future: seq<Event>)
    requires Feasible(Init(limit), past) && Feasible(After(Init(limit), past), future) && NoNewFills(future)
    ensures RunChanges(After(Init(limit), past), future) as real
         <= Total(RankAt(limit), After(Init(limit), past).store.intents)
  {
    InitInv(limit);
    RunStatusOk(Init(limit), past);
    RankBoundsChanges(After(Init(limit), past), future);
  }
}
