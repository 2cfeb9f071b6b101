/**
 * The tables against the exchange: in runs whose answers are complete, a settled submission has
 * nothing left to execute beyond what it records.
 */
module HedgeVenue {
  import opened Domain
  import opened Sums
  import opened Store
  import opened Allocation
  import opened Ledger
  import opened HedgeProtocol
  import opened HedgeInvariant
  import OrphanMatch
  import OrphanSearch

  // ----- complete answers -----

  /**
   * What a run needs for its answers to be complete. An order whose id is not known yet is accepted
   * and executed inside its search window; a search is made once no request is under way and reads back
   * to the start of the window, its order does not execute between the reading of the executions and
   * that of the book, and executions are taken only of an order that is off the book; a report lists
   * every execution of the order.
   */
  predicate SafeEvent(s: State, e: Event)
  {
    match e
    case Venue(k, Accept(stamped)) => SubAt(s, k) && s.store.submissions[k].orderId == None ==> stamped
    case Venue(k, Execute(_, stamped)) => SubAt(s, k) && s.store.submissions[k].orderId == None ==> stamped
    case Task(task, Complete(filled, _, _)) =>
      task in s.groups && s.groups[task].stage.Accepted? && SubAt(s, s.groups[task].stage.sub) ==>
        filled == s.orders[s.groups[task].stage.sub].Quantity()
    case Restart(Find(k, l, answer)) =>
      && l.covered
      && (SubAt(s, k) ==>
            && s.orders[k] != InFlight
            && Total(OrphanMatch.SizeOf, OrphanMatch.RowsOf(l.executions, s.store.submissions[k], OwnId(k)))
               == s.orders[k].Seen()
            && (answer.Match? && answer.orderId == OwnId(k) && answer.execution.Some? ==>
                  Spent(s.orders[k], s.store.submissions[k].qty)))
    case Restart(RecoverKnown(k, filled, _, _)) =>
      SubAt(s, k) && s.store.submissions[k].orderId == Some(OwnId(k)) ==> filled == s.orders[k].Quantity()
    case _ => true
  }

  // ----- the invariant -----

  /** A resolved or absent submission has nothing left to execute beyond what it records. */
  predicate OrderOk(sub: Submission, order: XOrder, k: nat)
  {
    && 0.0 <= order.Seen() <= order.Quantity() <= sub.qty
    && sub.status != Escalated
    && (sub.status == Resolved ==>
          Spent(order, sub.qty) && order.Quantity() <= sub.filled
          && (sub.orderId == Some(OwnId(k)) ==> order.Quantity() == sub.filled))
    && (sub.status == Absent ==> Spent(order, sub.qty) && order.Quantity() == 0.0)
    && (sub.orderId.Some? && sub.orderId.value != OwnId(k) ==> Dead(order))
    && (sub.orderId == None ==> order.Seen() == order.Quantity() && order.Stamped())
  }

  /** An answer that names no order, or another one, is given only if there is nothing to find. */
  predicate AnswerOk(answer: OrphanMatch.Search, sub: Submission, order: XOrder, k: nat)
  {
    match answer
    case Refusal => true
    case NoOrder => Dead(order)
    case Match(id, execution) =>
      if id == OwnId(k)
      then execution.Some? ==> Spent(order, sub.qty) && execution.value.filled == order.Quantity()
      else Dead(order)
  }

  predicate VenueOk(s: State)
  {
    && |s.orders| == |s.store.submissions|
    && (forall k :: 0 <= k < |s.orders| ==> OrderOk(s.store.submissions[k], s.orders[k], k))
    && (forall k :: k in s.found ==> k < |s.orders| && AnswerOk(s.found[k], s.store.submissions[k], s.orders[k], k))
  }

  // ----- the search is right -----

  /** An order that was accepted in the window and is on the book or has executed is a candidate. */
  lemma OwnIsCandidate(order: XOrder, sub: Submission, id: nat, l: Listing)
    requires ShowsOwn(order, sub, id, l) && l.covered
    requires Total(OrphanMatch.SizeOf, OrphanMatch.RowsOf(l.executions, sub, id)) == order.Seen()
    requires order.Accepted() && order.stamped && order.seen == order.executed
    requires 0.0 <= order.executed <= sub.qty && 0.0 < sub.qty && !Dead(order)
    ensures OrphanMatch.Candidate(l.executions, l.active, l.details, sub, id)
  {
    if order.executed > 0.0 {
      assert OrphanMatch.RowsOf(l.executions, sub, id) != [];
    }
  }

  /** Decided on complete listings, the answer of a search is right. */
  lemma FoundRight(s: State, k: nat, l: Listing, answer: OrphanMatch.Search)
    requires Inv(s) && VenueOk(s) && s.recovering && RestartEnabled(s, Find(k, l, answer))
    requires SafeEvent(s, Restart(Find(k, l, answer)))
    ensures AnswerOk(answer, s.store.submissions[k], s.orders[k], k)
  {
    hide Inv, OrphanMatch.Candidate, OrphanMatch.RowsOf;
    var sub, order := s.store.submissions[k], s.orders[k];
    assert OrderOk(sub, order, k);
    assert 0.0 < sub.qty by {
      SubmissionQty(s, k);
    }
    if !Dead(order) {
      OwnIsCandidate(order, sub, OwnId(k), l);
    }
  }

  lemma SubmissionQty(s: State, k: nat)
    requires Inv(s) && k < |s.store.submissions|
    ensures 0.0 < s.store.submissions[k].qty
  {
    assert SubmissionOk(s.store.intents, s.store.submissions[k]);
  }

  // ----- events -----

  /** A step that touches at most one submission row or order keeps the rest in order. */
  lemma VenueAt(s: State, t: State, k: nat)
    requires VenueOk(s) && |t.orders| == |s.orders| && |t.store.submissions| == |s.store.submissions|
    requires forall j :: 0 <= j < |s.orders| && j != k ==>
               t.orders[j] == s.orders[j] && t.store.submissions[j] == s.store.submissions[j]
    requires k < |s.orders| ==> OrderOk(t.store.submissions[k], t.orders[k], k)
    requires t.found == s.found || t.found == map[]
    requires k < |s.orders| && k in t.found ==> AnswerOk(s.found[k], t.store.submissions[k], t.orders[k], k)
    ensures VenueOk(t)
  {
  }

  lemma PreparedVenue(s: State, task: nat, submittedAt: int)
    requires Inv(s) && VenueOk(s) && task in s.groups && s.groups[task].stage.Ready?
    ensures VenueOk(DoTask(s, task, PrepareOrder(submittedAt)))
  {
    var t := DoTask(s, task, PrepareOrder(submittedAt));
    forall k | 0 <= k < |t.orders| ensures OrderOk(t.store.submissions[k], t.orders[k], k) {
      if k < |s.orders| {
        assert OrderOk(s.store.submissions[k], s.orders[k], k);
      }
    }
  }

  /** Sending, rejecting, acknowledging and completing touch the task's own order. */
  lemma VenueOwn(s: State, task: nat, step: TaskStep)
    requires Inv(s) && VenueOk(s) && task in s.groups && TaskEnabled(s, s.groups[task], step)
    requires step.Send? || step.Rejected? || step.Acked? || step.Complete?
    requires SafeEvent(s, Task(task, step))
    ensures VenueOk(DoTask(s, task, step))
  {
    var k := s.groups[task].stage.sub;
    OwnBound(s, task);
    assert OrderOk(s.store.submissions[k], s.orders[k], k);
    OwnIdBack(k);
    hide Inv, GroupOk, VenueOk, ForeignKeys, Allocate, OwnId;
    VenueAt(s, DoTask(s, task, step), k);
  }

  /** Nothing was found yet while a task runs, and its submission carries its own order's id or none. */
  lemma OwnBound(s: State, task: nat)
    requires Inv(s) && VenueOk(s) && task in s.groups && (s.groups[task].stage.Sending? || s.groups[task].stage.Accepted?)
    ensures var k := s.groups[task].stage.sub;
      && SubAt(s, k) && s.store.submissions[k].Unresolved() && s.found == map[]
      && s.store.submissions[k].orderId == if s.groups[task].stage.Sending? then None else Some(OwnId(k))
  {
    assert GroupOk(s.store, s.groups[task]);
  }

  lemma VenueTask(s: State, task: nat, step: TaskStep)
    requires Inv(s) && VenueOk(s) && task in s.groups && TaskEnabled(s, s.groups[task], step)
    requires SafeEvent(s, Task(task, step))
    ensures VenueOk(DoTask(s, task, step))
  {
    var t := DoTask(s, task, step);
    hide Inv, OrderOk, AnswerOk, SafeEvent, GroupOk;
    match step
    case PrepareOrder(submittedAt) => PreparedVenue(s, task, submittedAt);
    case Send => VenueOwn(s, task, step);
    case Rejected => VenueOwn(s, task, step);
    case Acked => VenueOwn(s, task, step);
    case Complete(_, _, _) => VenueOwn(s, task, step);
    case _ => VenueAt(s, t, |s.orders|);
  }

  lemma VenueMoves(s: State, k: nat, step: VenueStep)
    requires Inv(s) && VenueOk(s) && SubAt(s, k) && VenueEnabled(s, k, step) && SafeEvent(s, Venue(k, step))
    ensures VenueOk(DoVenue(s, k, step))
  {
    hide Inv;
    assert OrderOk(s.store.submissions[k], s.orders[k], k);
    VenueAt(s, DoVenue(s, k, step), k);
  }

  lemma VenueFound(s: State, k: nat, l: Listing, answer: OrphanMatch.Search)
    requires Inv(s) && VenueOk(s) && s.recovering && RestartEnabled(s, Find(k, l, answer))
    requires SafeEvent(s, Restart(Find(k, l, answer)))
    ensures VenueOk(DoRestart(s, Find(k, l, answer)))
  {
    FoundRight(s, k, l, answer);
  }

  /** Acting on what was found: the submission takes the order's id, or its executions, or none. */
  lemma VenueActs(s: State, step: RestartStep)
    requires Inv(s) && VenueOk(s) && RestartEnabled(s, step) && SafeEvent(s, Restart(step))
    requires step.RecoverAbsent? || step.RecoverBind? || step.RecoverKnown? || step.RecoverRows?
    ensures VenueOk(DoRestart(s, step))
  {
    var k, t := step.sub, DoRestart(s, step);
    assert OrderOk(s.store.submissions[k], s.orders[k], k);
    ActedRow(s, step);
    hide Inv, RestartEnabled, DoRestart, SafeEvent;
    VenueAt(s, t, k);
  }

  /** The one row such a step writes, and that it stays within what the order can execute. */
  lemma ActedRow(s: State, step: RestartStep)
    requires Inv(s) && VenueOk(s) && RestartEnabled(s, step) && SafeEvent(s, Restart(step))
    requires step.RecoverAbsent? || step.RecoverBind? || step.RecoverKnown? || step.RecoverRows?
    ensures var k, t := step.sub, DoRestart(s, step);
      && SubAt(s, k) && t.orders == s.orders && t.found == s.found
      && t.store.submissions == s.store.submissions[k := t.store.submissions[k]]
      && t.store.submissions[k].qty == s.store.submissions[k].qty
      && OrderOk(t.store.submissions[k], s.orders[k], k)
  {
    var k := step.sub;
    assert OrderOk(s.store.submissions[k], s.orders[k], k);
    OwnIdBack(k);
    hide Inv, VenueOk, Allocate, OwnId;
    if step.RecoverKnown? {
      hide ForeignKeys;
    }
  }

  lemma VenueRestart(s: State, step: RestartStep)
    requires Inv(s) && VenueOk(s) && (step.Crash? || s.recovering) && RestartEnabled(s, step)
    requires SafeEvent(s, Restart(step))
    ensures VenueOk(DoRestart(s, step))
  {
    hide SafeEvent, OrphanMatch.Decided, Shows;
    match step
    case Find(k, l, answer) => VenueFound(s, k, l, answer);
    case RecoverAbsent(_) => VenueActs(s, step);
    case RecoverBind(_) => VenueActs(s, step);
    case RecoverKnown(_, _, _, _) => VenueActs(s, step);
    case RecoverRows(_) => VenueActs(s, step);
    case _ => VenueAt(s, DoRestart(s, step), |s.orders|);
  }

  lemma VenueStepOk(s: State, e: Event)
    requires Inv(s) && VenueOk(s) && Enabled(s, e) && SafeEvent(s, e)
    ensures VenueOk(Do(s, e))
  {
    match e
    case Client(step) =>
    case Loop(step) =>
    case Task(task, step) => VenueTask(s, task, step);
    case Venue(k, step) => VenueMoves(s, k, step);
    case Outside(step) =>
    case Restart(step) => VenueRestart(s, step);
  }

  // ----- runs -----

  ghost predicate SafeRun(s: State, events: seq<Event>)
    requires Feasible(s, events)
    decreases |events|
  {
    events == [] || (SafeEvent(s, events[0]) && SafeRun(Do(s, events[0]), events[1..]))
  }

  lemma {:induction false} RunVenue(s: State, events: seq<Event>)
    requires Inv(s) && VenueOk(s) && Feasible(s, events) && SafeRun(s, events)
    ensures VenueOk(After(s, events))
    decreases |events|
  {
    if events != [] {
      StepInv(s, events[0]);
      VenueStepOk(s, events[0]);
      RunVenue(Do(s, events[0]), events[1..]);
    }
  }
}
