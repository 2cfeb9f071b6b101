/** What every reachable state of the hedge protocol satisfies, event by event. */
module HedgeInvariant {
  import opened Domain
  import opened Sums
  import opened Store
  import opened Allocation
  import opened Ledger
  import opened HedgeProtocol
  import OrphanMatch
  import OrphanSearch

  // ----- the invariant -----

  predicate Free(store: Tables, ids: seq<nat>)
  {
    forall k :: 0 <= k < |store.submissions| && store.submissions[k].Unresolved() ==>
      Disjoint(store.submissions[k].ids, ids)
  }

  predicate Holds(store: Tables, g: Group, k: nat)
  {
    && k < |store.submissions| && store.submissions[k].Unresolved()
    && store.submissions[k].ids == g.active && store.submissions[k].qty == g.need && g.active != []
    && forall j :: 0 <= j < |store.submissions| && j != k && store.submissions[j].Unresolved() ==>
         Disjoint(store.submissions[j].ids, g.ids)
  }

  predicate GroupRows(store: Tables, g: Group)
  {
    && Distinct(g.ids) && InTable(g.ids, |store.intents|)
    && (forall n :: 0 <= n < |g.ids| ==> store.intents[g.ids[n]].key == g.key)
    && Distinct(g.active) && InTable(g.active, |store.intents|)
    && (forall i :: i in g.active ==> i in g.ids)
  }

  predicate GroupOk(store: Tables, g: Group)
  {
    && GroupRows(store, g)
    && match g.stage
       case Inflight(_) => g.active == []
       case Attempting(next) =>
         && next <= |g.ids| && Free(store, g.ids) && g.need == RemainingOf(store.intents, g.active)
         && (forall i :: i in g.active ==> i in g.ids[..next])
       case Ready(_) => g.active != [] && Free(store, g.ids) && g.need == RemainingOf(store.intents, g.active)
       case Sending(k) => Holds(store, g, k) && store.submissions[k].orderId == None
       case Accepted(k, _) => Holds(store, g, k) && store.submissions[k].orderId == Some(OwnId(k))
       case Settling(_, _) => true
  }

  predicate TasksOk(s: State)
  {
    && (s.recovering ==> s.groups == map[])
    && (forall task :: task in s.groups ==> GroupOk(s.store, s.groups[task]))
    && (forall a, b :: a in s.groups && b in s.groups && a != b ==> Disjoint(s.groups[a].ids, s.groups[b].ids))
  }

  /** Answers are kept only while recovering, and executions that were found have a quantity. */
  predicate AnswersOk(s: State)
  {
    && (!s.recovering ==> s.found == map[])
    && (forall k :: k in s.found && s.found[k].Match? && s.found[k].execution.Some? ==>
          0.0 < s.found[k].execution.value.filled)
  }

  ghost predicate Inv(s: State)
  {
    StoreOk(s.store) && TasksOk(s) && |s.orders| == |s.store.submissions| && AnswersOk(s)
  }

  lemma InitInv(limit: nat)
    ensures Inv(Init(limit))
  {
  }

  // ----- frames -----

  /** Nothing a task with these intents relies on changed. */
  predicate Undisturbed(a: Tables, b: Tables, ids: seq<nat>)
  {
    && |a.intents| <= |b.intents| && |a.submissions| <= |b.submissions|
    && (forall i :: 0 <= i < |a.intents| ==> b.intents[i].key == a.intents[i].key)
    && (forall i :: 0 <= i < |a.intents| && i in ids ==> b.intents[i].Remaining() == a.intents[i].Remaining())
    && (forall k :: 0 <= k < |a.submissions| ==>
          && b.submissions[k].ids == a.submissions[k].ids && b.submissions[k].qty == a.submissions[k].qty
          && (Disjoint(a.submissions[k].ids, ids)
              || (&& b.submissions[k].Unresolved() == a.submissions[k].Unresolved()
                  && b.submissions[k].orderId == a.submissions[k].orderId)))
    && (forall k :: |a.submissions| <= k < |b.submissions| ==> Disjoint(b.submissions[k].ids, ids))
  }

  lemma GroupFrame(a: Tables, b: Tables, g: Group)
    requires GroupOk(a, g) && Undisturbed(a, b, g.ids)
    ensures GroupOk(b, g)
  {
    assert GroupRows(b, g);
    forall n | 0 <= n < |g.active| ensures b.intents[g.active[n]].Remaining() == a.intents[g.active[n]].Remaining() {
      assert g.active[n] in g.active;
    }
    RemainingFrame(a.intents, b.intents, g.active);
    if g.stage.Sending? || g.stage.Accepted? {
      var k := g.stage.sub;
      assert g.active[0] in a.submissions[k].ids && g.active[0] in g.ids;
      assert Holds(b, g, k);
    }
  }

  lemma TasksFrame(s: State, t: State)
    requires TasksOk(s) && t.groups == s.groups && t.recovering == s.recovering
    requires forall task :: task in s.groups ==> Undisturbed(s.store, t.store, s.groups[task].ids)
    ensures TasksOk(t)
  {
    forall task | task in t.groups ensures GroupOk(t.store, t.groups[task]) {
      GroupFrame(s.store, t.store, s.groups[task]);
    }
  }

  lemma TaskUpdate(s: State, t: State, task: nat, g: Group)
    requires TasksOk(s) && task in s.groups && t.groups == s.groups[task := g] && t.recovering == s.recovering
    requires g.ids == s.groups[task].ids && GroupOk(t.store, g)
    requires forall other :: other in s.groups && other != task ==> Undisturbed(s.store, t.store, s.groups[other].ids)
    ensures TasksOk(t)
  {
    forall other | other in t.groups ensures GroupOk(t.store, t.groups[other]) {
      if other != task {
        GroupFrame(s.store, t.store, s.groups[other]);
      }
    }
  }

  /** A submission row may change or appear if its intents are not the task's. */
  lemma SubmissionUndisturbed(a: Tables, b: Tables, k: nat, mine: seq<nat>, ids: seq<nat>)
    requires RowsOk(a) && Disjoint(mine, ids)
    requires |b.intents| == |a.intents| && k <= |a.submissions|
    requires forall i :: 0 <= i < |a.intents| ==> b.intents[i].key == a.intents[i].key
    requires forall i :: 0 <= i < |a.intents| && i !in mine ==> b.intents[i] == a.intents[i]
    requires k < |b.submissions| && |a.submissions| <= |b.submissions| && |b.submissions| <= |a.submissions| + 1
    requires forall j :: 0 <= j < |b.submissions| && j != k ==> j < |a.submissions| && b.submissions[j] == a.submissions[j]
    requires b.submissions[k].ids == mine
    requires k < |a.submissions| ==> a.submissions[k].ids == mine && a.submissions[k].qty == b.submissions[k].qty
    ensures Undisturbed(a, b, ids)
  {
  }

  // ----- events -----

  /** Events that move intents between statuses, and nothing else durable. */
  lemma TransitionEvent(s: State, store: Tables, i: nat, target: HedgeStatus, orderId: Option<nat>)
    requires StoreOk(s.store) && TransitionHedge(s.store, i, target, orderId) == Ok(store)
    requires target == Hedged ==> s.store.intents[i].filled == s.store.intents[i].qty
    ensures StoreOk(store) && store.submissions == s.store.submissions
    ensures forall ids :: Undisturbed(s.store, store, ids)
  {
    TransitionKeeps(s.store, i, target, orderId);
  }

  lemma {:induction false} RemainingAppend(intents: seq<Intent>, ids: seq<nat>, i: nat)
    requires InTable(ids, |intents|) && i < |intents|
    ensures RemainingOf(intents, ids + [i]) == RemainingOf(intents, ids) + intents[i].Remaining()
  {
    if ids == [] {
      assert ids + [i] == [i];
    } else {
      assert (ids + [i])[1..] == ids[1..] + [i];
      RemainingAppend(intents, ids[1..], i);
    }
  }

  lemma AttemptGroup(s: State, task: nat)
    requires Inv(s) && task in s.groups && TaskEnabled(s, s.groups[task], Attempt)
    ensures Inv(DoTask(s, task, Attempt))
  {
    var t := DoTask(s, task, Attempt);
    var g := s.groups[task];
    var i := g.ids[g.stage.next];
    TransitionEvent(s, t.store, i, AttemptTarget(s, i), None);
    hide StoreOk;
    GroupFrame(s.store, t.store, g);
    AttemptedGroup(t.store, g, i);
    TaskUpdate(s, t, task, t.groups[task]);
  }

  /** The next intent of a group joins its active ones, with what it still needs. */
  lemma AttemptedGroup(store: Tables, g: Group, i: nat)
    requires GroupOk(store, g) && g.stage.Attempting? && g.stage.next < |g.ids| && i == g.ids[g.stage.next]
    ensures var next := g.(stage := Attempting(g.stage.next + 1));
      && GroupOk(store, next)
      && GroupOk(store, next.(active := g.active + [i], need := g.need + store.intents[i].Remaining()))
  {
    assert g.ids[..g.stage.next + 1] == g.ids[..g.stage.next] + [i];
    assert i !in g.ids[..g.stage.next];
    RemainingAppend(store.intents, g.active, i);
  }

  lemma TransitionTask(s: State, task: nat, step: TaskStep)
    requires Inv(s) && task in s.groups && TaskEnabled(s, s.groups[task], step)
    requires step.EscalateInflight? || step.Mark? || step.Settle?
    ensures Inv(DoTask(s, task, step))
  {
    var t := DoTask(s, task, step);
    var g := s.groups[task];
    if step.EscalateInflight? {
      var i := g.ids[g.stage.next];
      if IsInflight(s.store.intents[i]) {
        TransitionEvent(s, t.store, i, Escalate, None);
      }
    } else if step.Mark? {
      TransitionEvent(s, t.store, g.active[g.stage.marked], Hedging, Some(OwnId(g.stage.sub)));
    } else {
      var i := g.active[g.stage.next];
      TransitionEvent(s, t.store, i, SettleTarget(s.store.intents[i], g.stage.outcome), SettleOrder(g.stage.outcome));
    }
    GroupFrame(s.store, t.store, g);
    TaskUpdate(s, t, task, t.groups[task]);
  }

  lemma ClientEvent(s: State, step: ClientStep)
    requires Inv(s) && ClientEnabled(s, step)
    ensures Inv(DoClient(s, step))
  {
    var t := DoClient(s, step);
    if step.Fill? {
      RecordKeeps(s.store, step.fill);
    } else {
      assert RowsOk(t.store) && Reserved(t.store);
      forall key ensures ExactAt(t.store, key) { assert ExactAt(s.store, key); }
    }
    forall task | task in s.groups ensures Undisturbed(s.store, t.store, s.groups[task].ids) {
    }
    TasksFrame(s, t);
  }

  lemma LoopEvent(s: State, step: LoopStep)
    requires Inv(s) && LoopEnabled(s, step)
    ensures Inv(DoLoop(s, step))
  {
    var t := DoLoop(s, step);
    if step.EscalateDust? {
      TransitionEvent(s, t.store, step.i, Escalate, None);
      TasksFrame(s, t);
    } else {
      StartedFree(s, step);
      assert GroupOk(t.store, t.groups[step.task]);
    }
  }

  /** A started group shares no intent with a running one or with an unresolved submission. */
  lemma StartedFree(s: State, step: LoopStep)
    requires Inv(s) && LoopEnabled(s, step) && step.StartGroup?
    ensures Free(s.store, step.ids)
    ensures forall other :: other in s.groups ==>
              Disjoint(s.groups[other].ids, step.ids) && Disjoint(step.ids, s.groups[other].ids)
  {
    forall other | other in s.groups
      ensures Disjoint(s.groups[other].ids, step.ids) && Disjoint(step.ids, s.groups[other].ids)
    {
      forall n | 0 <= n < |step.ids| ensures step.ids[n] !in s.groups[other].ids {
        assert !InSomeGroup(s, step.ids[n]);
      }
    }
    forall k | 0 <= k < |s.store.submissions| && s.store.submissions[k].Unresolved()
      ensures Disjoint(s.store.submissions[k].ids, step.ids)
    {
      if i :| i in s.store.submissions[k].ids && i in step.ids {
        assert Blocked(s.store.submissions, step.ids);
      }
    }
  }

  /** Purely volatile task steps, and the request leaving for the venue. */
  lemma VolatileTask(s: State, task: nat, step: TaskStep)
    requires Inv(s) && task in s.groups && TaskEnabled(s, s.groups[task], step)
    requires step.Begin? || step.ExecutorFailed? || step.ResponseLost? || step.EndTask? || step.Send?
    ensures Inv(DoTask(s, task, step))
  {
    var t := DoTask(s, task, step);
    if step.Begin? || step.ExecutorFailed? || step.ResponseLost? {
      TaskUpdate(s, t, task, t.groups[task]);
    } else if step.EndTask? {
      assert TasksOk(t);
    }
  }

  /** The new submission row holds exactly the preparing task's intents. */
  lemma PreparedStore(s: State, task: nat, submittedAt: int, store: Tables)
    requires Inv(s) && task in s.groups && s.groups[task].stage.Ready?
    requires var g := s.groups[task]; Prepare(s.store, g.active, g.key, g.need, g.stage.kind, submittedAt) == Ok(store)
    ensures StoreOk(store)
    ensures GroupOk(store, s.groups[task].(stage := Sending(|s.store.submissions|)))
    ensures forall other :: other in s.groups && other != task ==> Undisturbed(s.store, store, s.groups[other].ids)
  {
    var g := s.groups[task];
    DedupeIdentity(g.active);
    PrepareKeeps(s.store, g.active, g.key, g.need, g.stage.kind, submittedAt);
    forall other | other in s.groups && other != task ensures Undisturbed(s.store, store, s.groups[other].ids) {
      assert Disjoint(g.ids, s.groups[other].ids);
      SubmissionUndisturbed(s.store, store, |s.store.submissions|, g.active, s.groups[other].ids);
    }
    assert Holds(store, g, |s.store.submissions|);
  }

  lemma PrepareTask(s: State, task: nat, submittedAt: int)
    requires Inv(s) && task in s.groups && s.groups[task].stage.Ready?
    ensures Inv(DoTask(s, task, PrepareOrder(submittedAt)))
  {
    var t := DoTask(s, task, PrepareOrder(submittedAt));
    if t.store != s.store {
      PreparedStore(s, task, submittedAt, t.store);
    }
    TaskUpdate(s, t, task, t.groups[task]);
  }

  /** A task's own submission shares no intent with another task. */
  lemma OwnSubmission(s: State, t: State, task: nat, k: nat)
    requires RowsOk(s.store) && TasksOk(s) && task in s.groups
    requires (s.groups[task].stage.Sending? || s.groups[task].stage.Accepted?) && s.groups[task].stage.sub == k
    requires |t.store.intents| == |s.store.intents| && |t.store.submissions| == |s.store.submissions|
    requires forall i :: 0 <= i < |s.store.intents| ==> t.store.intents[i].key == s.store.intents[i].key
    requires forall i :: 0 <= i < |s.store.intents| && i !in s.store.submissions[k].ids ==> t.store.intents[i] == s.store.intents[i]
    requires forall j :: 0 <= j < |s.store.submissions| && j != k ==> t.store.submissions[j] == s.store.submissions[j]
    requires t.store.submissions[k].ids == s.store.submissions[k].ids && t.store.submissions[k].qty == s.store.submissions[k].qty
    ensures forall other :: other in s.groups && other != task ==> Undisturbed(s.store, t.store, s.groups[other].ids)
  {
    var g := s.groups[task];
    forall other | other in s.groups && other != task ensures Undisturbed(s.store, t.store, s.groups[other].ids) {
      assert Disjoint(g.ids, s.groups[other].ids);
      SubmissionUndisturbed(s.store, t.store, k, g.active, s.groups[other].ids);
    }
  }

  lemma StatusTask(s: State, task: nat, step: TaskStep)
    requires Inv(s) && task in s.groups && TaskEnabled(s, s.groups[task], step) && (step.Acked? || step.Rejected?)
    ensures Inv(DoTask(s, task, step))
  {
    var t := DoTask(s, task, step);
    var k := s.groups[task].stage.sub;
    StatusKeeps(s.store, k, t.store.submissions[k]);
    OwnSubmission(s, t, task, k);
    TaskUpdate(s, t, task, t.groups[task]);
  }

  /** A finished submission frees the task's intents, less what was executed. */
  lemma CompletedStore(s: State, task: nat, filled: real, notional: real, fee: real, store: Tables)
    requires Inv(s) && task in s.groups && s.groups[task].stage.Accepted?
    requires (filled == 0.0 ==> notional == 0.0 && fee == 0.0)
    requires Finish(s.store, s.groups[task].stage.sub, filled, notional, fee, Some(OwnId(s.groups[task].stage.sub))) == Ok(store)
    ensures StoreOk(store) && GroupRows(store, s.groups[task]) && Free(store, s.groups[task].ids)
    ensures RemainingOf(store.intents, s.groups[task].active) == s.groups[task].need - filled
    ensures filled <= s.groups[task].need
    ensures forall other :: other in s.groups && other != task ==> Undisturbed(s.store, store, s.groups[other].ids)
  {
    var g := s.groups[task];
    FinishKeeps(s.store, g.stage.sub, filled, notional, fee, Some(OwnId(g.stage.sub)));
    OwnSubmission(s, s.(store := store), task, g.stage.sub);
  }

  lemma CompleteTask(s: State, task: nat, filled: real, notional: real, fee: real)
    requires Inv(s) && task in s.groups && TaskEnabled(s, s.groups[task], Complete(filled, notional, fee))
    ensures Inv(DoTask(s, task, Complete(filled, notional, fee)))
  {
    var g := s.groups[task];
    var t := DoComplete(s, task, g, filled, notional, fee);
    CompletedStore(s, task, filled, notional, fee, t.store);
    TaskUpdate(s, t, task, t.groups[task]);
  }

  lemma TaskEvent(s: State, task: nat, step: TaskStep)
    requires Inv(s) && task in s.groups && TaskEnabled(s, s.groups[task], step)
    ensures Inv(DoTask(s, task, step))
  {
    match step
    case EscalateInflight => TransitionTask(s, task, step);
    case Mark => TransitionTask(s, task, step);
    case Settle => TransitionTask(s, task, step);
    case Attempt => AttemptGroup(s, task);
    case PrepareOrder(submittedAt) => PrepareTask(s, task, submittedAt);
    case Acked => StatusTask(s, task, step);
    case Rejected => StatusTask(s, task, step);
    case Complete(filled, notional, fee) => CompleteTask(s, task, filled, notional, fee);
    case _ => VolatileTask(s, task, step);
  }

  lemma VenueEvent(s: State, k: nat, step: VenueStep)
    requires Inv(s) && SubAt(s, k) && VenueEnabled(s, k, step)
    ensures Inv(DoVenue(s, k, step))
  {
  }

  lemma {:induction false} PositiveTotal(rows: seq<OrphanSearch.Row>)
    requires forall n :: 0 <= n < |rows| ==> rows[n].size > 0.0
    ensures Total(OrphanMatch.SizeOf, rows) >= 0.0 && (rows != [] ==> Total(OrphanMatch.SizeOf, rows) > 0.0)
  {
    if rows != [] {
      PositiveTotal(rows[1..]);
    }
  }

  /** Executions that were found add up to something. */
  lemma FoundPositive(s: State, k: nat, l: Listing, answer: OrphanMatch.Search)
    requires SubAt(s, k) && Shows(s, k, l)
    requires OrphanMatch.Decided(answer, l.executions, l.active, l.details, s.store.submissions[k], l.covered)
    ensures answer.Match? && answer.execution.Some? ==> 0.0 < answer.execution.value.filled
  {
    if answer.Match? {
      var own := OrphanMatch.RowsOf(l.executions, s.store.submissions[k], answer.orderId);
      OrphanMatch.RowsFrom(l.executions, s.store.submissions[k], answer.orderId);
      forall n | 0 <= n < |own| ensures own[n].size > 0.0 {
        assert own[n] in l.executions;
      }
      PositiveTotal(own);
    }
  }

  lemma FinishEvent(s: State, step: RestartStep)
    requires Inv(s) && s.recovering && RestartEnabled(s, step) && (step.RecoverKnown? || step.RecoverRows?)
    ensures Inv(DoRestart(s, step))
  {
    hide Finish;
    if step.RecoverKnown? {
      FinishKeeps(s.store, step.sub, step.filled, step.notional, step.fee, s.store.submissions[step.sub].orderId);
      FinishCount(s.store, step.sub, step.filled, step.notional, step.fee, s.store.submissions[step.sub].orderId);
    } else {
      var execution := s.found[step.sub].execution.value;
      FoundKeeps(s, step.sub);
      FinishCount(s.store, step.sub, execution.filled, execution.notional, execution.fee, Some(s.found[step.sub].orderId));
    }
    hide StoreOk;
  }

  lemma FinishCount(s: Tables, k: nat, filled: real, notional: real, fee: real, orderId: Option<nat>)
    requires ForeignKeys(s) && Finish(s, k, filled, notional, fee, orderId).Ok?
    ensures |Finish(s, k, filled, notional, fee, orderId).value.submissions| == |s.submissions|
  {
    hide ForeignKeys, Allocate;
  }

  lemma RestartEvent(s: State, step: RestartStep)
    requires Inv(s) && (step.Crash? || s.recovering) && RestartEnabled(s, step)
    ensures Inv(DoRestart(s, step))
  {
    hide OrphanMatch.Decided, Shows;
    var t := DoRestart(s, step);
    match step
    case Crash =>
    case Resume =>
    case ReadExecutions(_, _, _) =>
    case Find(k, l, answer) => FoundPositive(s, k, l, answer);
    case RecoverAbsent(k) => StatusKeeps(s.store, k, t.store.submissions[k]);
    case RecoverBind(k) => StatusKeeps(s.store, k, t.store.submissions[k]);
    case RecoverKnown(_, _, _, _) => FinishEvent(s, step);
    case RecoverRows(_) => FinishEvent(s, step);
    case RecoverSettle(k, i) =>
      TransitionEvent(s, t.store, i, RecoveredTarget(s.store.intents[i]),
        if s.store.submissions[k].status == Resolved then s.store.submissions[k].orderId else None);
    case RecoverInflight(i, latest) => TransitionEvent(s, t.store, i, InflightTarget(s.store, i, latest), None);
  }

  /** Writing the executions that were found is an ordinary finish. */
  lemma FoundKeeps(s: State, k: nat)
    requires Inv(s) && RestartEnabled(s, RecoverRows(k))
    ensures StoreOk(FinishFound(s, k).value) && SameRows(s.store, FinishFound(s, k).value)
    ensures forall i :: 0 <= i < |s.store.intents| ==> SameIdentity(FinishFound(s, k).value.intents[i], s.store.intents[i])
  {
    var execution := s.found[k].execution.value;
    FinishKeeps(s.store, k, execution.filled, execution.notional, execution.fee, Some(s.found[k].orderId));
  }

  lemma StepInv(s: State, e: Event)
    requires Inv(s) && Enabled(s, e)
    ensures Inv(Do(s, e))
  {
    match e
    case Client(step) => ClientEvent(s, step);
    case Loop(step) => LoopEvent(s, step);
    case Task(task, step) => TaskEvent(s, task, step);
    case Venue(k, step) => VenueEvent(s, k, step);
    case Outside(step) =>
    case Restart(step) => RestartEvent(s, step);
  }

  predicate SameRows(a: Tables, b: Tables)
  {
    && b.fills == a.fills && |b.intents| == |a.intents|
    && forall i :: 0 <= i < |a.intents| ==> b.intents[i].key == a.intents[i].key && b.intents[i].qty == a.intents[i].qty
  }

  /** Completing an order changes amounts of intents, and nothing else about them. */
  lemma CompleteRows(s: State, task: nat, filled: real, notional: real, fee: real)
    requires Inv(s) && task in s.groups && TaskEnabled(s, s.groups[task], Complete(filled, notional, fee))
    ensures var t := DoTask(s, task, Complete(filled, notional, fee));
      && t.store.fills == s.store.fills && |t.store.intents| == |s.store.intents|
      && (forall i :: 0 <= i < |s.store.intents| ==> SameIdentity(t.store.intents[i], s.store.intents[i]))
  {
    var k := s.groups[task].stage.sub;
    assert GroupOk(s.store, s.groups[task]);
    FinishKeeps(s.store, k, filled, notional, fee, Some(OwnId(k)));
    hide StoreOk, TasksOk, GroupOk;
  }

  lemma ElseRowsKept(s: State, task: nat, step: TaskStep)
    requires ForeignKeys(s.store) && task in s.groups && TaskEnabled(s, s.groups[task], step) && !step.Complete?
    ensures SameRows(s.store, DoTask(s, task, step).store)
  {
    hide ForeignKeys;
  }

  lemma TaskRowsKept(s: State, task: nat, step: TaskStep)
    requires Inv(s) && task in s.groups && TaskEnabled(s, s.groups[task], step)
    ensures SameRows(s.store, DoTask(s, task, step).store)
  {
    if step.Complete? {
      CompleteRows(s, task, step.filled, step.notional, step.fee);
      hide DoTask, TaskEnabled, Inv;
    } else {
      ElseRowsKept(s, task, step);
      hide *;
    }
  }

  lemma RestartRowsKept(s: State, step: RestartStep)
    requires Inv(s) && RestartEnabled(s, step)
    ensures SameRows(s.store, DoRestart(s, step).store)
  {
    match step
    case RecoverKnown(k, filled, notional, fee) =>
      FinishKeeps(s.store, k, filled, notional, fee, s.store.submissions[k].orderId);
    case RecoverRows(k) => FoundKeeps(s, k);
    case _ =>
  }

  /** Only a client fill adds a fill or an intent; nothing ever changes an intent's quantity or key. */
  lemma RowsKept(s: State, e: Event)
    requires Inv(s) && Enabled(s, e) && !(e.Client? && e.client.Fill?)
    ensures SameRows(s.store, Do(s, e).store)
  {
    match e
    case Client(_) =>
    case Loop(_) =>
    case Task(task, step) => TaskRowsKept(s, task, step);
    case Venue(_, _) =>
    case Outside(_) =>
    case Restart(step) => RestartRowsKept(s, step);
  }

  lemma {:induction false} RunInv(s: State, events: seq<Event>)
    requires Inv(s) && Feasible(s, events)
    ensures Inv(After(s, events))
    decreases |events|
  {
    if events != [] {
      StepInv(s, events[0]);
      RunInv(Do(s, events[0]), events[1..]);
    }
  }
}
