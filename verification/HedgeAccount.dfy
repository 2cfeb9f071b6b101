/**
 * What the submissions may claim of the account: every credited fill was executed by the order it is
 * credited from, and nothing is credited twice as long as no order id is bound twice.
 */
module HedgeAccount {
  import opened Domain
  import opened Sums
  import opened Store
  import opened Allocation
  import opened Ledger
  import opened HedgeProtocol
  import opened HedgeInvariant
  import OrphanMatch
  import OrphanSearch

  // ----- what a submission is bound to -----

  /** A bound submission names an order of the account under its key, and is credited no more than that executed. */
  predicate BoundOk(s: State, sub: Submission)
  {
    && (sub.status == Resolved ==> sub.orderId.Some?)
    && (sub.orderId.Some? ==>
          && Known(s, sub.orderId.value) && KeyOf(s, sub.orderId.value) == sub.key
          && (sub.status == Resolved ==> sub.filled <= ExecutedBy(s, sub.orderId.value)))
  }

  predicate FoundOk(s: State, answer: OrphanMatch.Search, key: Key)
  {
    answer.Match? ==>
      && Known(s, answer.orderId) && KeyOf(s, answer.orderId) == key
      && (answer.execution.Some? ==> answer.execution.value.filled <= ExecutedBy(s, answer.orderId))
  }

  predicate Unclaimed(s: State, k: nat, id: nat)
  {
    forall j :: 0 <= j < |s.store.submissions| && j != k ==> s.store.submissions[j].orderId != Some(id)
  }

  predicate AccountOk(s: State)
  {
    && |s.orders| == |s.store.submissions|
    && (forall k :: 0 <= k < |s.orders| ==> 0.0 <= s.orders[k].Seen() <= s.orders[k].Quantity())
    && (forall m :: 0 <= m < |s.outside| ==> 0.0 <= s.outside[m].executed)
    && (forall k :: 0 <= k < |s.store.submissions| ==> BoundOk(s, s.store.submissions[k]))
    && (forall k :: k in s.found ==> k < |s.store.submissions| && FoundOk(s, s.found[k], s.store.submissions[k].key))
    && (forall task :: task in s.groups && s.groups[task].stage.Sending? ==>
          Unclaimed(s, s.groups[task].stage.sub, OwnId(s.groups[task].stage.sub)))
  }

  lemma InitAccount(limit: nat)
    ensures AccountOk(Init(limit))
  {
  }

  /** Orders keep their key and never execute less. */
  predicate Grows(s: State, t: State)
  {
    && |s.orders| == |s.store.submissions| <= |t.orders| == |t.store.submissions| && |s.outside| <= |t.outside|
    && (forall k :: 0 <= k < |s.orders| ==>
          t.store.submissions[k].key == s.store.submissions[k].key && s.orders[k].Quantity() <= t.orders[k].Quantity())
    && (forall m :: 0 <= m < |s.outside| ==>
          t.outside[m].key == s.outside[m].key && s.outside[m].executed <= t.outside[m].executed)
  }

  lemma BoundGrows(s: State, t: State, sub: Submission)
    requires Grows(s, t) && BoundOk(s, sub)
    ensures BoundOk(t, sub)
  {
  }

  lemma FoundGrows(s: State, t: State, answer: OrphanMatch.Search, key: Key)
    requires Grows(s, t) && FoundOk(s, answer, key)
    ensures FoundOk(t, answer, key)
  {
  }

  // ----- events -----

  /** A step that writes at most submission `k`, without changing what it is bound to. */
  lemma AccountAt(s: State, t: State, k: nat)
    requires AccountOk(s) && Grows(s, t)
    requires forall j :: 0 <= j < |t.orders| ==> 0.0 <= t.orders[j].Seen() <= t.orders[j].Quantity()
    requires forall m :: 0 <= m < |t.outside| ==> 0.0 <= t.outside[m].executed
    requires |t.store.submissions| == |s.store.submissions| || (k == |s.store.submissions| && |t.store.submissions| == k + 1)
    requires forall j :: 0 <= j < |s.store.submissions| && j != k ==> t.store.submissions[j] == s.store.submissions[j]
    requires k < |t.store.submissions| ==> BoundOk(t, t.store.submissions[k])
    requires t.found == s.found || t.found == map[]
    requires forall task :: task in t.groups && t.groups[task].stage.Sending? ==>
               Unclaimed(t, t.groups[task].stage.sub, OwnId(t.groups[task].stage.sub))
    ensures AccountOk(t)
  {
    forall j | 0 <= j < |t.store.submissions| ensures BoundOk(t, t.store.submissions[j]) {
      if j != k {
        BoundGrows(s, t, s.store.submissions[j]);
      }
    }
    forall j | j in t.found ensures j < |t.store.submissions| && FoundOk(t, t.found[j], t.store.submissions[j].key) {
      FoundGrows(s, t, s.found[j], s.store.submissions[j].key);
    }
  }

  /** Task steps other than preparing and the four that touch the task's own submission leave both sides alone. */
  lemma TaskElse(s: State, task: nat, step: TaskStep)
    requires AccountOk(s) && ForeignKeys(s.store) && task in s.groups && TaskEnabled(s, s.groups[task], step)
    requires !step.PrepareOrder? && !step.Rejected? && !step.Acked? && !step.Complete?
    ensures AccountOk(DoTask(s, task, step))
  {
    var t := DoTask(s, task, step);
    assert t.store.submissions == s.store.submissions && t.outside == s.outside && t.found == s.found;
    forall other | other in t.groups && t.groups[other].stage.Sending?
      ensures Unclaimed(t, t.groups[other].stage.sub, OwnId(t.groups[other].stage.sub))
    {
      assert other in s.groups && s.groups[other].stage == t.groups[other].stage;
    }
    hide BoundOk, FoundOk, ForeignKeys;
    AccountAt(s, t, |t.store.submissions|);
  }

  /** No submission is bound to an order that does not exist yet. */
  lemma NewUnclaimed(s: State, k: nat)
    requires AccountOk(s) && k == |s.store.submissions|
    ensures Unclaimed(s, k, OwnId(k))
  {
    forall j | 0 <= j < |s.store.submissions| ensures s.store.submissions[j].orderId != Some(OwnId(k)) {
      assert BoundOk(s, s.store.submissions[j]);
    }
  }

  lemma PreparedAccount(s: State, task: nat, submittedAt: int)
    requires AccountOk(s) && task in s.groups && s.groups[task].stage.Ready?
    requires ForeignKeys(s.store)
    ensures AccountOk(DoTask(s, task, PrepareOrder(submittedAt)))
  {
    var k, t := |s.store.submissions|, DoTask(s, task, PrepareOrder(submittedAt));
    NewUnclaimed(s, k);
    forall other | other in t.groups && t.groups[other].stage.Sending?
      ensures Unclaimed(t, t.groups[other].stage.sub, OwnId(t.groups[other].stage.sub))
    {
      assert other != task ==> s.groups[other].stage == t.groups[other].stage;
    }
    assert k < |t.store.submissions| ==> BoundOk(t, t.store.submissions[k]);
    hide BoundOk, FoundOk, ForeignKeys;
    AccountAt(s, t, k);
  }

  /** No other task's order is claimed when this task's submission takes the id of its own order. */
  lemma OthersUnclaimed(s: State, t: State, task: nat, k: nat)
    requires Inv(s) && AccountOk(s) && task in s.groups && (s.groups[task].stage.Sending? || s.groups[task].stage.Accepted?)
    requires k == s.groups[task].stage.sub && k < |s.store.submissions|
    requires t.groups.Keys == s.groups.Keys && !t.groups[task].stage.Sending?
    requires forall other :: other in s.groups && other != task ==> t.groups[other] == s.groups[other]
    requires |t.store.submissions| == |s.store.submissions|
    requires t.store.submissions == s.store.submissions[k := t.store.submissions[k]]
    requires t.store.submissions[k].orderId == Some(OwnId(k)) || t.store.submissions[k].orderId == s.store.submissions[k].orderId
    ensures forall other :: other in t.groups && t.groups[other].stage.Sending? ==>
              Unclaimed(t, t.groups[other].stage.sub, OwnId(t.groups[other].stage.sub))
  {
    forall other | other in t.groups && t.groups[other].stage.Sending?
      ensures Unclaimed(t, t.groups[other].stage.sub, OwnId(t.groups[other].stage.sub))
    {
      OtherSending(s, task, other);
      OwnIdsDiffer(k, s.groups[other].stage.sub);
      assert Unclaimed(s, s.groups[other].stage.sub, OwnId(s.groups[other].stage.sub));
      hide Inv, AccountOk, OwnId;
    }
  }

  /** The steps that touch the task's own submission: only an acknowledgement binds it, to its own order. */
  lemma OwnAccount(s: State, task: nat, step: TaskStep)
    requires Inv(s) && AccountOk(s) && task in s.groups && TaskEnabled(s, s.groups[task], step)
    requires step.Rejected? || step.Acked? || step.Complete?
    ensures AccountOk(DoTask(s, task, step))
  {
    var k, t := s.groups[task].stage.sub, DoTask(s, task, step);
    OwnRow(s, task, step);
    OwnGroups(s, task, step);
    OwnIds(s, task, step);
    hide DoTask, TaskEnabled, Inv, BoundOk, FoundOk, OwnId, Unclaimed;
    OthersUnclaimed(s, t, task, k);
    OwnGrows(s, t, k);
  }

  lemma OwnGrows(s: State, t: State, k: nat)
    requires AccountOk(s) && SubAt(s, k)
    requires t.orders == s.orders && t.outside == s.outside && t.found == s.found
    requires |t.store.submissions| == |s.store.submissions|
    requires t.store.submissions == s.store.submissions[k := t.store.submissions[k]]
    requires t.store.submissions[k].key == s.store.submissions[k].key && BoundOk(t, t.store.submissions[k])
    requires forall task :: task in t.groups && t.groups[task].stage.Sending? ==>
               Unclaimed(t, t.groups[task].stage.sub, OwnId(t.groups[task].stage.sub))
    ensures AccountOk(t)
  {
    hide BoundOk, FoundOk, Unclaimed, OwnId;
    AccountAt(s, t, k);
  }

  lemma OwnIdsDiffer(j: nat, k: nat)
    requires j != k
    ensures OwnId(j) != OwnId(k)
  {
  }

  lemma OwnIds(s: State, task: nat, step: TaskStep)
    requires Inv(s) && task in s.groups && TaskEnabled(s, s.groups[task], step)
    requires step.Rejected? || step.Acked? || step.Complete?
    ensures var k, t := s.groups[task].stage.sub, DoTask(s, task, step);
      && k < |s.store.submissions| && k < |t.store.submissions|
      && (t.store.submissions[k].orderId == Some(OwnId(k)) || t.store.submissions[k].orderId == s.store.submissions[k].orderId)
  {
    assert GroupOk(s.store, s.groups[task]);
    hide Inv, ForeignKeys, GroupRows, OwnId;
  }

  lemma OtherSending(s: State, task: nat, other: nat)
    requires Inv(s) && task in s.groups && other in s.groups && other != task
    requires s.groups[task].stage.Sending? || s.groups[task].stage.Accepted?
    requires s.groups[other].stage.Sending?
    ensures s.groups[other].stage.sub != s.groups[task].stage.sub
  {
    var g, h := s.groups[task], s.groups[other];
    assert GroupOk(s.store, g) && GroupOk(s.store, h);
    assert g.active[0] in g.ids;
  }

  /** Of such a step's own submission only status, id and result change, and the id is its own order's. */
  lemma OwnRow(s: State, task: nat, step: TaskStep)
    requires Inv(s) && AccountOk(s) && task in s.groups && TaskEnabled(s, s.groups[task], step)
    requires step.Rejected? || step.Acked? || step.Complete?
    ensures var k, t := s.groups[task].stage.sub, DoTask(s, task, step);
      && SubAt(s, k) && t.orders == s.orders && t.outside == s.outside && t.found == s.found
      && t.store.submissions == s.store.submissions[k := t.store.submissions[k]]
      && t.store.submissions[k].key == s.store.submissions[k].key
      && BoundOk(t, t.store.submissions[k])
  {
    var k := s.groups[task].stage.sub;
    assert BoundOk(s, s.store.submissions[k]);
    OwnIdBack(k);
    hide Inv, ForeignKeys, Allocate, OwnId, AccountOk;
  }

  lemma OwnGroups(s: State, task: nat, step: TaskStep)
    requires ForeignKeys(s.store) && task in s.groups && TaskEnabled(s, s.groups[task], step)
    requires step.Rejected? || step.Acked? || step.Complete?
    ensures var t := DoTask(s, task, step);
      && t.groups.Keys == s.groups.Keys && !t.groups[task].stage.Sending?
      && (forall other :: other in s.groups && other != task ==> t.groups[other] == s.groups[other])
  {
    hide ForeignKeys, Finish, ReportedOn;
  }

  lemma AccountTask(s: State, task: nat, step: TaskStep)
    requires Inv(s) && AccountOk(s) && task in s.groups && TaskEnabled(s, s.groups[task], step)
    ensures AccountOk(DoTask(s, task, step))
  {
    hide AccountOk, DoTask, GroupOk;
    match step
    case PrepareOrder(submittedAt) => PreparedAccount(s, task, submittedAt);
    case Rejected => OwnAccount(s, task, step);
    case Acked => OwnAccount(s, task, step);
    case Complete(_, _, _) => OwnAccount(s, task, step);
    case _ => TaskElse(s, task, step);
  }

  lemma AccountVenue(s: State, k: nat, step: VenueStep)
    requires AccountOk(s) && SubAt(s, k) && VenueEnabled(s, k, step)
    ensures AccountOk(DoVenue(s, k, step))
  {
    var t := DoVenue(s, k, step);
    assert forall j :: 0 <= j < |t.orders| ==> 0.0 <= t.orders[j].Seen() <= t.orders[j].Quantity();
    hide BoundOk, FoundOk;
    AccountAt(s, t, |t.store.submissions|);
  }

  lemma AccountOutside(s: State, step: OutsideStep)
    requires AccountOk(s) && OutsideEnabled(s, step)
    ensures AccountOk(DoOutside(s, step))
  {
    hide BoundOk, FoundOk;
    AccountAt(s, DoOutside(s, step), |s.store.submissions|);
  }

  lemma FoundBelongs(s: State, k: nat, l: Listing, answer: OrphanMatch.Search)
    requires SubAt(s, k) && Shows(s, k, l)
    requires OrphanMatch.Decided(answer, l.executions, l.active, l.details, s.store.submissions[k], l.covered)
    ensures FoundOk(s, answer, s.store.submissions[k].key)
  {
    hide OrphanMatch.Candidate, OrphanMatch.RowsOf, ShowsOwn;
  }

  /** What a search answers belongs to the account. */
  lemma AccountFound(s: State, k: nat, l: Listing, answer: OrphanMatch.Search)
    requires ForeignKeys(s.store) && AccountOk(s) && RestartEnabled(s, Find(k, l, answer))
    ensures AccountOk(DoRestart(s, Find(k, l, answer)))
  {
    FoundBelongs(s, k, l, answer);
    var t := DoRestart(s, Find(k, l, answer));
    assert t == s.(search := None, found := s.found[k := answer]);
    hide BoundOk, FoundOk, RestartEnabled, DoRestart;
    AnswerAdded(s, t, k, answer);
  }

  lemma AnswerAdded(s: State, t: State, k: nat, answer: OrphanMatch.Search)
    requires AccountOk(s) && k < |s.store.submissions| && t == s.(search := None, found := s.found[k := answer])
    requires FoundOk(s, answer, s.store.submissions[k].key)
    ensures AccountOk(t)
  {
    hide BoundOk, FoundOk;
    forall j | j in t.found ensures j < |t.store.submissions| && FoundOk(t, t.found[j], t.store.submissions[j].key) {
      FoundGrows(s, t, t.found[j], s.store.submissions[j].key);
    }
    forall j | 0 <= j < |t.store.submissions| ensures BoundOk(t, t.store.submissions[j]) {
      BoundGrows(s, t, s.store.submissions[j]);
    }
  }

  lemma ActedAccount(s: State, step: RestartStep)
    requires Inv(s) && AccountOk(s) && s.recovering && RestartEnabled(s, step)
    requires step.RecoverAbsent? || step.RecoverBind? || step.RecoverKnown? || step.RecoverRows?
    ensures AccountOk(DoRestart(s, step))
  {
    ActedBound(s, step);
    hide BoundOk, FoundOk, RestartEnabled, DoRestart;
    AccountAt(s, DoRestart(s, step), step.sub);
  }

  lemma ActedBound(s: State, step: RestartStep)
    requires Inv(s) && AccountOk(s) && s.recovering && RestartEnabled(s, step)
    requires step.RecoverAbsent? || step.RecoverBind? || step.RecoverKnown? || step.RecoverRows?
    ensures var k, t := step.sub, DoRestart(s, step);
      && SubAt(s, k) && t.orders == s.orders && t.outside == s.outside && t.found == s.found && t.groups == map[]
      && t.store.submissions == s.store.submissions[k := t.store.submissions[k]]
      && t.store.submissions[k].key == s.store.submissions[k].key
      && (t.store.submissions[k].orderId == s.store.submissions[k].orderId
          || (step.RecoverBind? && s.store.submissions[k].orderId == None
              && t.store.submissions[k].orderId == Some(s.found[k].orderId)))
      && BoundOk(t, t.store.submissions[k])
  {
    assert BoundOk(s, s.store.submissions[step.sub]);
    assert s.groups == map[] && ForeignKeys(s.store);
    if step.RecoverKnown? {
      KnownBound(s, step);
    } else {
      assert step.sub in s.found && FoundOk(s, s.found[step.sub], s.store.submissions[step.sub].key);
      hide ForeignKeys, Inv, AccountOk, Allocate, ReportedOn;
    }
  }

  /** A report on the bound order credits no more than that executed. */
  lemma KnownBound(s: State, step: RestartStep)
    requires ForeignKeys(s.store) && step.RecoverKnown? && RestartEnabled(s, step)
    requires SubAt(s, step.sub) && BoundOk(s, s.store.submissions[step.sub])
    ensures var k, t := step.sub, DoRestart(s, step);
      && t.orders == s.orders && t.outside == s.outside && t.found == s.found && t.groups == s.groups
      && k < |t.store.submissions| && t.store.submissions == s.store.submissions[k := t.store.submissions[k]]
      && t.store.submissions[k].key == s.store.submissions[k].key
      && t.store.submissions[k].orderId == s.store.submissions[k].orderId && BoundOk(t, t.store.submissions[k])
  {
    hide ForeignKeys, Allocate;
  }

  lemma AccountRestart(s: State, step: RestartStep)
    requires Inv(s) && AccountOk(s) && (step.Crash? || s.recovering) && RestartEnabled(s, step)
    ensures AccountOk(DoRestart(s, step))
  {
    var t := DoRestart(s, step);
    match step
    case Find(k, l, answer) => AccountFound(s, k, l, answer);
    case RecoverAbsent(_) => ActedAccount(s, step);
    case RecoverBind(_) => ActedAccount(s, step);
    case RecoverKnown(_, _, _, _) => ActedAccount(s, step);
    case RecoverRows(_) => ActedAccount(s, step);
    case _ => AccountAt(s, t, |t.store.submissions|);
  }

  lemma AccountClient(s: State, step: ClientStep)
    requires AccountOk(s) && ClientEnabled(s, step)
    ensures AccountOk(DoClient(s, step))
  {
    hide BoundOk, FoundOk;
    AccountAt(s, DoClient(s, step), |s.store.submissions|);
  }

  lemma AccountLoop(s: State, step: LoopStep)
    requires AccountOk(s) && LoopEnabled(s, step)
    ensures AccountOk(DoLoop(s, step))
  {
    hide BoundOk, FoundOk;
    AccountAt(s, DoLoop(s, step), |s.store.submissions|);
  }

  lemma AccountStep(s: State, e: Event)
    requires Inv(s) && AccountOk(s) && Enabled(s, e)
    ensures AccountOk(Do(s, e))
  {
    hide AccountOk, Inv;
    match e
    case Client(step) => AccountClient(s, step);
    case Loop(step) => AccountLoop(s, step);
    case Task(task, step) => AccountTask(s, task, step);
    case Venue(k, step) => AccountVenue(s, k, step);
    case Outside(step) => AccountOutside(s, step);
    case Restart(step) => AccountRestart(s, step);
  }

  lemma {:induction false} RunAccount(s: State, events: seq<Event>)
    requires Inv(s) && AccountOk(s) && Feasible(s, events)
    ensures AccountOk(After(s, events))
    decreases |events|
  {
    if events != [] {
      StepInv(s, events[0]);
      AccountStep(s, events[0]);
      RunAccount(Do(s, events[0]), events[1..]);
    }
  }

  // ----- binding an order once -----

  predicate BoundOnce(s: State)
  {
    forall j, k :: 0 <= j < k < |s.store.submissions| && s.store.submissions[j].orderId.Some? ==>
      s.store.submissions[j].orderId != s.store.submissions[k].orderId
  }

  /** Before a lost order is bound, its id belongs to no other submission. The program does not check this. */
  predicate CheckedEvent(s: State, e: Event)
  {
    match e
    case Restart(RecoverBind(k)) => k in s.found && s.found[k].Match? ==> Unclaimed(s, k, s.found[k].orderId)
    case _ => true
  }

  /** At most submission `k` takes an id, and every other one keeps what it has. */
  predicate TakesId(s: State, t: State, k: nat, id: nat)
  {
    && |s.store.submissions| == |t.store.submissions|
    && (forall j :: 0 <= j < |s.store.submissions| && j != k ==>
          t.store.submissions[j].orderId == s.store.submissions[j].orderId)
    && k < |s.store.submissions| && s.store.submissions[k].orderId == None
    && t.store.submissions[k].orderId == Some(id)
  }

  predicate KeepsIds(s: State, t: State)
  {
    && |s.store.submissions| <= |t.store.submissions|
    && (forall j :: 0 <= j < |s.store.submissions| ==> t.store.submissions[j].orderId == s.store.submissions[j].orderId)
    && (forall j :: |s.store.submissions| <= j < |t.store.submissions| ==> t.store.submissions[j].orderId == None)
  }

  lemma TakenOnce(s: State, t: State, k: nat, id: nat)
    requires TakesId(s, t, k, id)
    ensures BoundOnce(t) <==> BoundOnce(s) && Unclaimed(s, k, id)
  {
    if BoundOnce(t) {
      forall j | 0 <= j < |s.store.submissions| && j != k ensures s.store.submissions[j].orderId != Some(id) {
        assert t.store.submissions[j].orderId == s.store.submissions[j].orderId;
      }
    }
  }

  lemma AckedOnce(s: State, task: nat)
    requires Inv(s) && AccountOk(s) && task in s.groups && TaskEnabled(s, s.groups[task], TaskStep.Acked)
    ensures BoundOnce(DoTask(s, task, TaskStep.Acked)) <==> BoundOnce(s)
  {
    var k, t := s.groups[task].stage.sub, DoTask(s, task, TaskStep.Acked);
    assert GroupOk(s.store, s.groups[task]);
    assert Unclaimed(s, k, OwnId(k));
    TakenOnce(s, t, k, OwnId(k));
  }

  lemma TaskIds(s: State, task: nat, step: TaskStep)
    requires Inv(s) && AccountOk(s) && task in s.groups && TaskEnabled(s, s.groups[task], step)
    ensures BoundOnce(DoTask(s, task, step)) <==> BoundOnce(s)
  {
    var t := DoTask(s, task, step);
    if step.Acked? {
      AckedOnce(s, task);
    } else {
      assert GroupOk(s.store, s.groups[task]);
      assert KeepsIds(s, t);
    }
  }

  lemma RestartIds(s: State, step: RestartStep)
    requires Inv(s) && AccountOk(s) && (step.Crash? || s.recovering) && RestartEnabled(s, step)
    ensures BoundOnce(DoRestart(s, step)) <==> BoundOnce(s) && CheckedEvent(s, Restart(step))
  {
    var t := DoRestart(s, step);
    if step.RecoverBind? {
      TakenOnce(s, t, step.sub, s.found[step.sub].orderId);
    } else if step.RecoverAbsent? || step.RecoverKnown? || step.RecoverRows? {
      ActedBound(s, step);
      hide DoRestart, RestartEnabled, AccountOk, Inv;
      assert KeepsIds(s, t);
    } else {
      assert KeepsIds(s, t);
    }
  }

  /** A step keeps ids bound once if and only if it binds no id that another submission has. */
  lemma StepIds(s: State, e: Event)
    requires Inv(s) && AccountOk(s) && Enabled(s, e)
    ensures BoundOnce(Do(s, e)) <==> BoundOnce(s) && CheckedEvent(s, e)
  {
    match e
    case Task(task, step) => TaskIds(s, task, step);
    case Restart(step) => RestartIds(s, step);
    case _ => assert KeepsIds(s, Do(s, e));
  }

  ghost predicate CheckedRun(s: State, events: seq<Event>)
    requires Feasible(s, events)
    decreases |events|
  {
    events == [] || (CheckedEvent(s, events[0]) && CheckedRun(Do(s, events[0]), events[1..]))
  }

  /** No order id is bound twice after a run if and only if every lost order was checked before it was bound. */
  lemma {:induction false} RunIds(s: State, events: seq<Event>)
    requires Inv(s) && AccountOk(s) && Feasible(s, events)
    ensures BoundOnce(After(s, events)) <==> BoundOnce(s) && CheckedRun(s, events)
    decreases |events|
  {
    if events != [] {
      StepInv(s, events[0]);
      AccountStep(s, events[0]);
      StepIds(s, events[0]);
      RunIds(Do(s, events[0]), events[1..]);
    }
  }
}
