/**
 * The hedge worker and executor as a state machine over the durable tables, the hedge account and
 * the worker's volatile tasks (backend/engine/hedge_worker.py). One event is one committed
 * transaction, one exchange event, one answer read from the exchange, or one volatile step; a crash
 * drops the tasks and the answers. The worker has no resolver, so in-flight intents it cannot match
 * are escalated.
 */
module HedgeProtocol {
  import opened Domain
  import opened Sums
  import opened Store
  import opened Allocation
  import opened Ledger
  import OrphanMatch
  import OrphanSearch

  /**
   * The venue order of one submission. NotSent and Refused orders were never accepted. `seen` is the
   * part of `executed` stamped inside the submission's search window, and `stamped` says that the
   * order itself is.
   */
  datatype XOrder =
    | NotSent
    | InFlight
    | Refused
    | Live(executed: real, seen: real, stamped: bool)
    | Closed(executed: real, seen: real, stamped: bool)
  {
    predicate Accepted() { Live? || Closed? }
    function Quantity(): real { if Accepted() then executed else 0.0 }
    function Seen(): real { if Accepted() then seen else 0.0 }
    predicate Stamped() { Accepted() ==> stamped }
  }

  /** Nothing can execute on the order any more. */
  predicate Spent(order: XOrder, qty: real)
  {
    match order
    case NotSent => true
    case InFlight => false
    case Refused => true
    case Live(executed, _, _) => executed >= qty
    case Closed(_, _, _) => true
  }

  /** An order of the account that no submission placed. */
  datatype Stranger = Stranger(key: Key, executed: real)

  /** Order ids on the account: even for the submissions' own orders, odd for all others. */
  function OwnId(k: nat): nat
  {
    2 * k
  }

  lemma OwnIdBack(k: nat)
    ensures OwnId(k) % 2 == 0 && OwnId(k) / 2 == k
  {
  }

  /** The executions read for a lost order, while its search goes on to read the book. */
  datatype Reading = Reading(sub: nat, executions: seq<OrphanSearch.Row>, covered: bool)

  /** All that a search has read about a lost order; `covered` says that both listings reach back far enough. */
  datatype Listing = Listing(
    executions: seq<OrphanSearch.Row>, active: seq<OrphanSearch.Row>,
    details: map<nat, OrphanSearch.Detail>, covered: bool)

  datatype Outcome = Done(orderId: nat) | Lost | Precondition | Checkpointed(orderId: nat) | Ambiguous

  datatype Stage =
    | Inflight(next: nat)
    | Attempting(next: nat)
    | Ready(kind: Kind)
    | Sending(sub: nat)
    | Accepted(sub: nat, marked: nat)
    | Settling(outcome: Outcome, next: nat)

  /** One `_execute_group` task; `need` is the quantity it still has to execute. */
  datatype Group = Group(
    key: Key, ids: seq<nat>, active: seq<nat>, need: real, checkpoint: Option<nat>, stage: Stage)

  datatype State = State(
    store: Tables, orders: seq<XOrder>, outside: seq<Stranger>, groups: map<nat, Group>,
    recovering: bool, search: Option<Reading>, found: map<nat, OrphanMatch.Search>, limit: nat)

  function Init(limit: nat): State
  {
    State(Empty, [], [], map[], true, None, map[], limit)
  }

  datatype ClientStep =
    | Fill(fill: FillEvent)
    | Create(client: string, symbol: string, side: Side, qty: real, price: real)
    | Move(client: string, target: OrderState, exchangeId: Option<string>)

  datatype LoopStep =
    | StartGroup(task: nat, ids: seq<nat>)
    | EscalateDust(i: nat)

  datatype TaskStep =
    | EscalateInflight
    | Attempt
    | Begin(kind: Kind)
    | PrepareOrder(submittedAt: int)
    | ExecutorFailed(outcome: Outcome)
    | Send
    | Rejected
    | ResponseLost
    | Acked
    | Mark
    | Complete(filled: real, notional: real, fee: real)
    | Settle
    | EndTask

  datatype VenueStep = Accept(stamped: bool) | Refuse | Execute(qty: real, stamped: bool) | Close

  datatype OutsideStep = Opened(key: Key) | Traded(m: nat, qty: real)

  datatype RestartStep =
    | Crash
    | ReadExecutions(sub: nat, executions: seq<OrphanSearch.Row>, covered: bool)
    | Find(sub: nat, listing: Listing, answer: OrphanMatch.Search)
    | RecoverAbsent(sub: nat)
    | RecoverBind(sub: nat)
    | RecoverKnown(sub: nat, filled: real, notional: real, fee: real)
    | RecoverRows(sub: nat)
    | RecoverSettle(sub: nat, i: nat)
    | RecoverInflight(i: nat, latest: Option<nat>)
    | Resume

  datatype Event =
    | Client(client: ClientStep)
    | Loop(loop: LoopStep)
    | Task(task: nat, step: TaskStep)
    | Venue(order: nat, venue: VenueStep)
    | Outside(outside: OutsideStep)
    | Restart(restart: RestartStep)

  predicate InSomeGroup(s: State, i: nat)
  {
    exists task :: task in s.groups && i in s.groups[task].ids
  }

  predicate Startable(s: State, ids: seq<nat>, key: Key)
  {
    && ids != [] && Distinct(ids) && InTable(ids, |s.store.intents|)
    && (forall k :: 0 <= k < |ids| ==>
          IsPending(s.store.intents[ids[k]].status) && s.store.intents[ids[k]].key == key && !InSomeGroup(s, ids[k]))
    && !Blocked(s.store.submissions, ids)
    && RemainingOf(s.store.intents, ids) > 0.0
  }

  predicate IsInflight(i: Intent)
  {
    i.status == Hedging && i.orderId != None
  }

  predicate SubAt(s: State, k: nat)
  {
    k < |s.store.submissions| && k < |s.orders|
  }

  /** The target of one settling step (hedge_worker.py:403-448). */
  function SettleTarget(i: Intent, outcome: Outcome): HedgeStatus
  {
    match outcome
    case Done(_) => if i.filled >= i.qty then Hedged else Retry
    case Lost => Hedging
    case Precondition => Retry
    case Checkpointed(_) => Hedging
    case Ambiguous => Escalate
  }

  function SettleOrder(outcome: Outcome): Option<nat>
  {
    match outcome
    case Done(id) => Some(id)
    case Checkpointed(id) => Some(id)
    case _ => None
  }

  /** An exception that is neither structured nor tied to a submission. */
  function FailureOutcome(g: Group): Outcome
  {
    if g.checkpoint == None then Ambiguous else Checkpointed(g.checkpoint.value)
  }

  // ----- what the exchange tells -----

  /**
   * What a finished order is reported to have executed. The record of a post-only order holds its
   * total (hedge_worker.py:977-1015); for an immediate order the executions are listed before the
   * status is read, so later ones are missing, unless none was listed (hedge_worker.py:1037-1090).
   */
  predicate Reported(order: XOrder, qty: real, kind: Kind, filled: real, notional: real, fee: real)
  {
    && order.Accepted() && Spent(order, qty)
    && (filled == order.Quantity() || (kind == FAK && 0.0 < filled < order.Quantity()))
    && (filled == 0.0 ==> notional == 0.0 && fee == 0.0)
  }

  /** The submission's own order was never accepted, or is closed with nothing executed. */
  predicate Dead(order: XOrder)
  {
    order == NotSent || order == Refused || (order.Closed? && order.executed == 0.0)
  }

  predicate Known(s: State, id: nat)
  {
    if id % 2 == 0 then SubAt(s, id / 2) else id / 2 < |s.outside|
  }

  function KeyOf(s: State, id: nat): Key
    requires Known(s, id)
  {
    if id % 2 == 0 then s.store.submissions[id / 2].key else s.outside[id / 2].key
  }

  function ExecutedBy(s: State, id: nat): real
    requires Known(s, id)
  {
    if id % 2 == 0 then s.orders[id / 2].Quantity() else s.outside[id / 2].executed
  }

  /** The report on the order a submission is bound to, whoever placed it. */
  predicate ReportedOn(s: State, id: nat, kind: Kind, filled: real, notional: real, fee: real)
  {
    && Known(s, id)
    && if id % 2 == 0
       then Reported(s.orders[id / 2], s.store.submissions[id / 2].qty, kind, filled, notional, fee)
       else 0.0 <= filled <= s.outside[id / 2].executed && (filled == 0.0 ==> notional == 0.0 && fee == 0.0)
  }

  /** The executions listed are of orders of the account, and of each order no more than it has executed. */
  ghost predicate ShowsExecutions(s: State, k: nat, executions: seq<OrphanSearch.Row>, covered: bool)
    requires SubAt(s, k)
  {
    var sub := s.store.submissions[k];
    && (forall n :: 0 <= n < |executions| ==> executions[n].size > 0.0)
    && (forall id :: OrphanMatch.RowsOf(executions, sub, id) != [] ==>
          && Known(s, id) && KeyOf(s, id) == sub.key
          && Total(OrphanMatch.SizeOf, OrphanMatch.RowsOf(executions, sub, id)) <= ExecutedBy(s, id))
    && ShowsRows(s.orders[k], sub, OwnId(k), executions, covered)
  }

  /** A listing that reaches back to the window's start shows every execution of the order stamped in it so far. */
  predicate ShowsRows(order: XOrder, sub: Submission, id: nat, executions: seq<OrphanSearch.Row>, covered: bool)
  {
    var total := Total(OrphanMatch.SizeOf, OrphanMatch.RowsOf(executions, sub, id));
    total <= order.Seen() && (covered ==> total == order.Seen())
  }

  /**
   * When the book is read, the orders it and the executions show are of the account. The executions
   * were read before: of each order they show no more than it has executed by now, and maybe less.
   */
  ghost predicate Shows(s: State, k: nat, l: Listing)
    requires SubAt(s, k)
  {
    var sub := s.store.submissions[k];
    && (forall n :: 0 <= n < |l.executions| ==> l.executions[n].size > 0.0)
    && (forall id :: OrphanMatch.Candidate(l.executions, l.active, l.details, sub, id) ==>
          && Known(s, id) && KeyOf(s, id) == sub.key
          && Total(OrphanMatch.SizeOf, OrphanMatch.RowsOf(l.executions, sub, id)) <= ExecutedBy(s, id))
    && ShowsOwn(s.orders[k], sub, OwnId(k), l)
  }

  /**
   * The submission's own order when the book is read: its record and its place on the book carry the
   * time of acceptance, and a book that reaches back to the window's start shows the order if it rests.
   */
  predicate ShowsOwn(order: XOrder, sub: Submission, id: nat, l: Listing)
  {
    var rows := OrphanMatch.RowsOf(l.executions, sub, id);
    && Total(OrphanMatch.SizeOf, rows) <= order.Seen()
    && (OrphanMatch.ActiveCandidate(l.active, sub, id) ==> order.Live? && order.stamped)
    && (rows != [] ==> (OrphanMatch.DetailFits(l.details, id, sub) <==> order.Accepted() && order.stamped))
    && (l.covered && order.Live? && order.executed < sub.qty && order.stamped ==>
          OrphanMatch.ActiveCandidate(l.active, sub, id))
  }

  // ----- which events can happen -----

  ghost predicate Enabled(s: State, e: Event)
    requires ForeignKeys(s.store)
  {
    match e
    case Client(step) => ClientEnabled(s, step)
    case Loop(step) => LoopEnabled(s, step)
    case Task(task, step) => task in s.groups && TaskEnabled(s, s.groups[task], step)
    case Venue(k, step) => SubAt(s, k) && VenueEnabled(s, k, step)
    case Outside(step) => OutsideEnabled(s, step)
    case Restart(step) => step.Crash? || (s.recovering && RestartEnabled(s, step))
  }

  predicate ClientEnabled(s: State, step: ClientStep)
  {
    match step
    case Fill(fill) => RecordFill(s.store, fill).Ok?
    case Create(_, _, _, _, _) => true
    case Move(client, target, id) => TransitionOrder(s.store, client, target, id).Ok?
  }

  predicate LoopEnabled(s: State, step: LoopStep)
  {
    !s.recovering && match step
    case StartGroup(task, ids) =>
      task !in s.groups && ids != [] && ids[0] < |s.store.intents| && Startable(s, ids, s.store.intents[ids[0]].key)
    case EscalateDust(i) =>
      && i < |s.store.intents| && IsPending(s.store.intents[i].status)
      && !InSomeGroup(s, i) && !Blocked(s.store.submissions, [i])
      && TransitionHedge(s.store, i, Escalate, None).Ok?
  }

  predicate TaskEnabled(s: State, g: Group, step: TaskStep)
    requires ForeignKeys(s.store)
  {
    match step
    case EscalateInflight =>
      g.stage.Inflight? && g.stage.next < |g.ids| && g.ids[g.stage.next] < |s.store.intents|
      && (IsInflight(s.store.intents[g.ids[g.stage.next]]) ==>
            TransitionHedge(s.store, g.ids[g.stage.next], Escalate, None).Ok?)
    case Attempt =>
      g.stage.Attempting? && g.stage.next < |g.ids| && g.ids[g.stage.next] < |s.store.intents|
      && TransitionHedge(s.store, g.ids[g.stage.next], AttemptTarget(s, g.ids[g.stage.next]), None).Ok?
    case Begin(_) => g.stage.Attempting? && g.stage.next == |g.ids| && g.active != [] && g.need > 0.0
    case PrepareOrder(_) => g.stage.Ready?
    case ExecutorFailed(outcome) =>
      (g.stage.Ready? || g.stage.Accepted?) && (outcome == Precondition || outcome == FailureOutcome(g))
    case Send => g.stage.Sending? && SubAt(s, g.stage.sub) && s.orders[g.stage.sub] == NotSent
    case Rejected =>
      g.stage.Sending? && SubAt(s, g.stage.sub)
      && (s.orders[g.stage.sub] == NotSent || s.orders[g.stage.sub] == Refused)
      && SetSubmissionStatus(s.store, g.stage.sub, Absent).Ok?
    case ResponseLost => g.stage.Sending?
    case Acked =>
      g.stage.Sending? && SubAt(s, g.stage.sub)
      && s.orders[g.stage.sub].Accepted()
      && Acknowledge(s.store, g.stage.sub, OwnId(g.stage.sub)).Ok?
    case Mark =>
      g.stage.Accepted? && g.stage.marked < |g.active|
      && TransitionHedge(s.store, g.active[g.stage.marked], Hedging, Some(OwnId(g.stage.sub))).Ok?
    case Complete(filled, notional, fee) =>
      g.stage.Accepted? && g.stage.marked == |g.active| && SubAt(s, g.stage.sub)
      && ReportedOn(s, OwnId(g.stage.sub), s.store.submissions[g.stage.sub].kind, filled, notional, fee)
      && Finish(s.store, g.stage.sub, filled, notional, fee, Some(OwnId(g.stage.sub))).Ok?
    case Settle =>
      g.stage.Settling? && g.stage.next < |g.active| && g.active[g.stage.next] < |s.store.intents|
      && TransitionHedge(s.store, g.active[g.stage.next],
           SettleTarget(s.store.intents[g.active[g.stage.next]], g.stage.outcome), SettleOrder(g.stage.outcome)).Ok?
    case EndTask => true
  }

  predicate VenueEnabled(s: State, k: nat, step: VenueStep)
    requires SubAt(s, k)
  {
    match step
    case Accept(_) => s.orders[k] == InFlight
    case Refuse => s.orders[k] == InFlight
    case Execute(qty, _) =>
      s.orders[k].Live? && 0.0 < qty && s.orders[k].executed + qty <= s.store.submissions[k].qty
    case Close => s.orders[k].Live?
  }

  predicate OutsideEnabled(s: State, step: OutsideStep)
  {
    match step
    case Opened(_) => true
    case Traded(m, qty) => m < |s.outside| && 0.0 < qty
  }

  /**
   * Lost orders are searched for one after the other, the executions first and then the book, in two
   * requests (hedge_worker.py:843-862); what was found is acted on later (hedge_worker.py:155-207).
   */
  ghost predicate RestartEnabled(s: State, step: RestartStep)
    requires ForeignKeys(s.store)
  {
    match step
    case Crash => true
    case ReadExecutions(k, executions, covered) =>
      && SubAt(s, k) && s.store.submissions[k].Unresolved() && s.store.submissions[k].orderId == None
      && ShowsExecutions(s, k, executions, covered)
    case Find(k, l, answer) =>
      && SubAt(s, k) && s.store.submissions[k].Unresolved() && s.store.submissions[k].orderId == None
      && s.search.Some? && s.search.value.sub == k && s.search.value.executions == l.executions
      && (l.covered ==> s.search.value.covered)
      && Shows(s, k, l)
      && OrphanMatch.Decided(answer, l.executions, l.active, l.details, s.store.submissions[k], l.covered)
    case RecoverAbsent(k) =>
      && k in s.found && s.found[k].NoOrder?
      && k < |s.store.submissions| && s.store.submissions[k].Unresolved()
    case RecoverBind(k) =>
      && k in s.found && s.found[k].Match? && k < |s.store.submissions| && s.store.submissions[k].orderId == None
      && Acknowledge(s.store, k, s.found[k].orderId).Ok?
    case RecoverKnown(k, filled, notional, fee) =>
      && k < |s.store.submissions| && s.store.submissions[k].Unresolved() && s.store.submissions[k].orderId.Some?
      && ReportedOn(s, s.store.submissions[k].orderId.value, s.store.submissions[k].kind, filled, notional, fee)
      && Finish(s.store, k, filled, notional, fee, s.store.submissions[k].orderId).Ok?
    case RecoverRows(k) =>
      && k in s.found && s.found[k].Match? && s.found[k].execution.Some?
      && k < |s.store.submissions| && s.store.submissions[k].Unresolved()
      && s.store.submissions[k].orderId == Some(s.found[k].orderId)
      && FinishFound(s, k).Ok?
    case RecoverSettle(k, i) =>
      && k < |s.store.submissions| && i in s.store.submissions[k].ids
      && (s.store.submissions[k].status == Resolved || s.store.submissions[k].status == Absent)
      && i < |s.store.intents| && s.store.intents[i].status == Hedging
    case RecoverInflight(i, latest) =>
      && i < |s.store.intents| && s.store.intents[i].status == Hedging
      && !Blocked(s.store.submissions, [i]) && Latest(s.store.submissions, i, latest)
    case Resume => true
  }

  /** The executions read for a lost order, written as its result (hedge_worker.py:183-194). */
  function FinishFound(s: State, k: nat): Result<Tables>
    requires ForeignKeys(s.store) && k in s.found && s.found[k].Match? && s.found[k].execution.Some?
  {
    var execution := s.found[k].execution.value;
    Finish(s.store, k, execution.filled, execution.notional, execution.fee, Some(s.found[k].orderId))
  }

  function AttemptTarget(s: State, i: nat): HedgeStatus
    requires i < |s.store.intents|
  {
    if s.store.intents[i].attempts >= s.limit then Escalate else Hedging
  }

  /** The last submission of an intent by submission time; equal times are in no fixed order. */
  predicate Latest(submissions: seq<Submission>, i: nat, latest: Option<nat>)
  {
    match latest
    case None => forall k :: 0 <= k < |submissions| ==> i !in submissions[k].ids
    case Some(m) =>
      && m < |submissions| && i in submissions[m].ids
      && forall k :: 0 <= k < |submissions| && i in submissions[k].ids ==>
           submissions[k].submittedAt <= submissions[m].submittedAt
  }

  /** hedge_worker.py:101-122 without a resolver. */
  function InflightTarget(store: Tables, i: nat, latest: Option<nat>): HedgeStatus
    requires i < |store.intents| && (latest.Some? ==> latest.value < |store.submissions|)
  {
    if latest.Some? && store.submissions[latest.value].status == Resolved
       && store.submissions[latest.value].orderId == store.intents[i].orderId
    then RecoveredTarget(store.intents[i])
    else Escalate
  }

  function With(s: State, task: nat, g: Group): State
  {
    s.(groups := s.groups[task := g])
  }

  function Do(s: State, e: Event): State
    requires ForeignKeys(s.store) && Enabled(s, e)
  {
    match e
    case Client(step) => DoClient(s, step)
    case Loop(step) => DoLoop(s, step)
    case Task(task, step) => DoTask(s, task, step)
    case Venue(k, step) => DoVenue(s, k, step)
    case Outside(step) => DoOutside(s, step)
    case Restart(step) => DoRestart(s, step)
  }

  function DoClient(s: State, step: ClientStep): State
    requires ClientEnabled(s, step)
  {
    s.(store :=
      match step
      case Fill(fill) => RecordFill(s.store, fill).value.store
      case Create(client, symbol, side, qty, price) => CreateOrder(s.store, client, symbol, side, qty, price)
      case Move(client, target, id) => TransitionOrder(s.store, client, target, id).value)
  }

  function DoLoop(s: State, step: LoopStep): State
    requires LoopEnabled(s, step)
  {
    match step
    case StartGroup(task, ids) =>
      var inflight := exists k :: 0 <= k < |ids| && IsInflight(s.store.intents[ids[k]]);
      With(s, task, Group(s.store.intents[ids[0]].key, ids, [], 0.0, None,
        if inflight then Inflight(0) else Attempting(0)))
    case EscalateDust(i) => s.(store := TransitionHedge(s.store, i, Escalate, None).value)
  }

  function DoTask(s: State, task: nat, step: TaskStep): State
    requires ForeignKeys(s.store) && task in s.groups && TaskEnabled(s, s.groups[task], step)
  {
    var g := s.groups[task];
    match step
    case EscalateInflight =>
      var i := g.ids[g.stage.next];
      With(s, task, g.(stage := Inflight(g.stage.next + 1))).(
        store := if IsInflight(s.store.intents[i]) then TransitionHedge(s.store, i, Escalate, None).value else s.store)
    case Attempt =>
      var i := g.ids[g.stage.next];
      var target := AttemptTarget(s, i);
      var store := TransitionHedge(s.store, i, target, None).value;
      var next := g.(stage := Attempting(g.stage.next + 1));
      With(s, task,
        if target == Escalate then next
        else next.(active := g.active + [i], need := g.need + store.intents[i].Remaining())).(store := store)
    case Begin(kind) => With(s, task, g.(stage := Ready(kind)))
    case PrepareOrder(submittedAt) =>
      var prepared := Prepare(s.store, g.active, g.key, g.need, g.stage.kind, submittedAt);
      if prepared.Err? then With(s, task, g.(stage := Settling(FailureOutcome(g), 0)))
      else With(s, task, g.(stage := Sending(|s.store.submissions|))).(
        store := prepared.value, orders := s.orders + [NotSent])
    case ExecutorFailed(outcome) => With(s, task, g.(stage := Settling(outcome, 0)))
    case Send => s.(orders := s.orders[g.stage.sub := InFlight])
    case Rejected =>
      With(s, task, g.(stage := Settling(Precondition, 0))).(
        store := SetSubmissionStatus(s.store, g.stage.sub, Absent).value)
    case ResponseLost => With(s, task, g.(stage := Settling(Lost, 0)))
    case Acked =>
      With(s, task, g.(checkpoint := Some(OwnId(g.stage.sub)), stage := Accepted(g.stage.sub, 0))).(
        store := Acknowledge(s.store, g.stage.sub, OwnId(g.stage.sub)).value)
    case Mark =>
      With(s, task, g.(stage := Accepted(g.stage.sub, g.stage.marked + 1))).(
        store := TransitionHedge(s.store, g.active[g.stage.marked], Hedging, Some(OwnId(g.stage.sub))).value)
    case Complete(filled, notional, fee) => DoComplete(s, task, g, filled, notional, fee)
    case Settle =>
      var i := g.active[g.stage.next];
      With(s, task, g.(stage := Settling(g.stage.outcome, g.stage.next + 1))).(
        store := TransitionHedge(s.store, i,
          SettleTarget(s.store.intents[i], g.stage.outcome), SettleOrder(g.stage.outcome)).value)
    case EndTask => s.(groups := s.groups - {task})
  }

  /** A terminal SOK order leaves its unexecuted remainder to a FAK order (hedge_worker.py:657-675). */
  function DoComplete(s: State, task: nat, g: Group, filled: real, notional: real, fee: real): State
    requires ForeignKeys(s.store) && TaskEnabled(s, g, Complete(filled, notional, fee))
  {
    var k := g.stage.sub;
    var rest := Max(0.0, g.need - filled);
    With(s, task,
      if s.store.submissions[k].kind == SOK && rest > 0.0 then g.(need := rest, stage := Ready(FAK))
      else g.(stage := Settling(Done(OwnId(k)), 0))).(
        store := Finish(s.store, k, filled, notional, fee, Some(OwnId(k))).value)
  }

  function DoVenue(s: State, k: nat, step: VenueStep): State
    requires SubAt(s, k) && VenueEnabled(s, k, step)
  {
    s.(orders := s.orders[k :=
      match step
      case Accept(stamped) => Live(0.0, 0.0, stamped)
      case Refuse => Refused
      case Execute(qty, stamped) =>
        Live(s.orders[k].executed + qty, s.orders[k].seen + (if stamped then qty else 0.0), s.orders[k].stamped)
      case Close => Closed(s.orders[k].executed, s.orders[k].seen, s.orders[k].stamped)])
  }

  function DoOutside(s: State, step: OutsideStep): State
    requires OutsideEnabled(s, step)
  {
    s.(outside :=
      match step
      case Opened(key) => s.outside + [Stranger(key, 0.0)]
      case Traded(m, qty) => s.outside[m := s.outside[m].(executed := s.outside[m].executed + qty)])
  }

  function DoRestart(s: State, step: RestartStep): State
    requires ForeignKeys(s.store) && RestartEnabled(s, step)
  {
    match step
    case Crash => s.(groups := map[], recovering := true, search := None, found := map[])
    case ReadExecutions(k, executions, covered) => s.(search := Some(Reading(k, executions, covered)))
    case Find(k, _, answer) => s.(search := None, found := s.found[k := answer])
    case RecoverAbsent(k) => s.(store := SetSubmissionStatus(s.store, k, Absent).value)
    case RecoverBind(k) => s.(store := Acknowledge(s.store, k, s.found[k].orderId).value)
    case RecoverKnown(k, filled, notional, fee) =>
      s.(store := Finish(s.store, k, filled, notional, fee, s.store.submissions[k].orderId).value)
    case RecoverRows(k) => s.(store := FinishFound(s, k).value)
    case RecoverSettle(k, i) =>
      s.(store := TransitionHedge(s.store, i, RecoveredTarget(s.store.intents[i]),
        if s.store.submissions[k].status == Resolved then s.store.submissions[k].orderId else None).value)
    case RecoverInflight(i, latest) =>
      s.(store := TransitionHedge(s.store, i, InflightTarget(s.store, i, latest), None).value)
    case Resume => s.(recovering := false, search := None, found := map[])
  }

  function RecoveredTarget(i: Intent): HedgeStatus
  {
    if i.filled >= i.qty then Hedged else Retry
  }

  // ----- runs -----

  /** Whether the events can happen one after the other from `s`. */
  ghost predicate Feasible(s: State, events: seq<Event>)
    decreases |events|
  {
    events == [] ||
    (ForeignKeys(s.store) && Enabled(s, events[0]) && Feasible(Do(s, events[0]), events[1..]))
  }

  function After(s: State, events: seq<Event>): State
    requires Feasible(s, events)
    decreases |events|
  {
    if events == [] then s else After(Do(s, events[0]), events[1..])
  }
}
