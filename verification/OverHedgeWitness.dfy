/**
 * Runs that hedge too much, for every quantity and every limit that leaves a second attempt, each
 * breaking one demand of a safe run. In all of them the client's fill of q is hedged once, the worker
 * credits only x < q of what that order executes, and hedges q - x again.
 */
module OverHedgeWitness {
  import opened Domain
  import opened Sums
  import opened Store
  import opened Allocation
  import opened Ledger
  import opened HedgeProtocol
  import opened HedgeInvariant
  import opened HedgeVenue
  import opened HedgeSafety
  import opened SingleAttempt
  import OrphanMatch
  import OrphanSearch

  // ----- runs, put together -----

  /** The events can happen from `s`, lead to `t`, and are safe if that is asked for. */
  ghost predicate Leads(s: State, events: seq<Event>, t: State, safe: bool)
  {
    Feasible(s, events) && After(s, events) == t && (safe ==> SafeRun(s, events))
  }

  ghost predicate Step(s: State, e: Event, t: State, safe: bool)
  {
    ForeignKeys(s.store) && Enabled(s, e) && Do(s, e) == t && (safe ==> SafeEvent(s, e))
  }

  lemma Cons(s: State, e: Event, m: State, rest: seq<Event>, t: State, safe: bool)
    requires Step(s, e, m, safe) && Leads(m, rest, t, safe)
    ensures Leads(s, [e] + rest, t, safe)
  {
    hide ForeignKeys, Enabled, Do, SafeEvent;
    assert ([e] + rest)[1..] == rest;
  }

  lemma {:induction false} Then(s: State, first: seq<Event>, m: State, second: seq<Event>, t: State, safe: bool)
    requires Leads(s, first, m, safe) && Leads(m, second, t, safe)
    ensures Leads(s, first + second, t, safe)
    decreases |first|
  {
    hide ForeignKeys, Enabled, Do, SafeEvent;
    if first == [] {
      assert first + second == second;
    } else {
      assert (first + second)[1..] == first[1..] + second;
      Then(Do(s, first[0]), first[1..], m, second, t, safe);
    }
  }

  /** A path is a list of states; its events lead from the first to the last. */
  ghost predicate Path(states: seq<State>, events: seq<Event>, safe: bool)
  {
    && |states| == |events| + 1
    && forall k :: 0 <= k < |events| ==> Step(states[k], events[k], states[k + 1], safe)
  }

  lemma {:induction false} PathLeads(states: seq<State>, events: seq<Event>, safe: bool)
    requires Path(states, events, safe)
    ensures Leads(states[0], events, states[|events|], safe)
    decreases |events|
  {
    if events != [] {
      hide Step, Leads;
      assert Path(states[1..], events[1..], safe) by {
        forall k | 0 <= k < |events[1..]| ensures Step(states[1..][k], events[1..][k], states[1..][k + 1], safe) {
          assert Step(states[k + 1], events[k + 1], states[k + 2], safe);
        }
      }
      PathLeads(states[1..], events[1..], safe);
      assert events == [events[0]] + events[1..];
      Cons(states[0], events[0], states[1], events[1..], states[|events|], safe);
    } else {
      assert Leads(states[0], [], states[0], safe);
    }
  }

  lemma OneStep(s: State, e: Event, t: State, safe: bool)
    requires Step(s, e, t, safe)
    ensures Leads(s, [e], t, safe)
  {
    hide Step, Leads;
    PathLeads([s, t], [e], safe);
  }

  lemma TwoSteps(s: State, e: Event, m: State, f: Event, t: State, safe: bool)
    requires Step(s, e, m, safe) && Step(m, f, t, safe)
    ensures Leads(s, [e, f], t, safe)
  {
    hide Step, Leads;
    PathLeads([s, m, t], [e, f], safe);
  }

  lemma ThreeSteps(s: State, e: Event, m: State, f: Event, n: State, g: Event, t: State, safe: bool)
    requires Step(s, e, m, safe) && Step(m, f, n, safe) && Step(n, g, t, safe)
    ensures Leads(s, [e, f, g], t, safe)
  {
    hide Step, Leads;
    PathLeads([s, m, n, t], [e, f, g], safe);
  }

  lemma FourSteps(s: State, e: Event, m: State, f: Event, n: State, g: Event, o: State, h: Event, t: State, safe: bool)
    requires Step(s, e, m, safe) && Step(m, f, n, safe) && Step(n, g, o, safe) && Step(o, h, t, safe)
    ensures Leads(s, [e, f, g, h], t, safe)
  {
    hide Step, Leads;
    PathLeads([s, m, n, o, t], [e, f, g, h], safe);
  }

  lemma FiveSteps(
      s: State, e: Event, m: State, f: Event, n: State, g: Event, o: State, h: Event, p: State, i: Event, t: State, safe: bool)
    requires Step(s, e, m, safe) && Step(m, f, n, safe) && Step(n, g, o, safe) && Step(o, h, p, safe) && Step(p, i, t, safe)
    ensures Leads(s, [e, f, g, h, i], t, safe)
  {
    hide Step, Leads;
    PathLeads([s, m, n, o, p, t], [e, f, g, h, i], safe);
  }

  // ----- one submission of one intent -----

  /** Intent `i` is pending, nothing is unresolved, and no task runs. */
  predicate Idle(s: State, i: nat, row: Intent)
  {
    && i < |s.store.intents| && s.store.intents[i] == row && s.groups == map[] && !s.recovering
    && |s.orders| == |s.store.submissions| && ForeignKeys(s.store) && (row.status == Pending || row.status == Retry)
    && row.attempts < s.limit && row.Remaining() > 0.0
    && forall k :: 0 <= k < |s.store.submissions| ==> !s.store.submissions[k].Unresolved()
  }

  function Started(s: State, task: nat, i: nat, row: Intent): State
  {
    s.(groups := map[task := Group(row.key, [i], [], 0.0, None, Attempting(0))])
  }

  function Attempted(s: State, task: nat, i: nat, row: Intent, stage: Stage): State
    requires i < |s.store.intents|
  {
    s.(store := s.store.(intents := s.store.intents[i := row.(status := Hedging, attempts := row.attempts + 1)]),
       groups := map[task := Group(row.key, [i], [i], row.Remaining(), None, stage)])
  }

  function Placed(s: State, task: nat, i: nat, row: Intent, kind: Kind, at: int, order: XOrder): State
    requires i < |s.store.intents|
  {
    var t := Attempted(s, task, i, row, Sending(|s.store.submissions|));
    t.(store := t.store.(submissions := t.store.submissions + [
         Submission(row.key, row.Remaining(), kind, Submitting, [i], at, None, 0.0, 0.0, 0.0)]),
       orders := t.orders + [order])
  }

  function SubmitEvents(task: nat, i: nat, kind: Kind, at: int): seq<Event>
  {
    [Loop(StartGroup(task, [i])), Task(task, Attempt), Task(task, Begin(kind)), Task(task, PrepareOrder(at)), Task(task, Send)]
  }

  lemma Starts(s: State, task: nat, i: nat, row: Intent)
    requires Idle(s, i, row)
    ensures Step(s, Loop(StartGroup(task, [i])), Started(s, task, i, row), true)
  {
    assert RemainingOf(s.store.intents, [i]) == row.Remaining();
  }

  lemma Attempts(s: State, task: nat, i: nat, row: Intent)
    requires Idle(s, i, row)
    ensures Step(Started(s, task, i, row), Task(task, Attempt), Attempted(s, task, i, row, Attempting(1)), true)
  {
    var t := Do(Started(s, task, i, row), Task(task, Attempt));
    assert [] + [i] == [i];
    assert t.groups == Attempted(s, task, i, row, Attempting(1)).groups;
  }

  lemma Begins(s: State, task: nat, i: nat, row: Intent, kind: Kind)
    requires Idle(s, i, row)
    ensures Step(Attempted(s, task, i, row, Attempting(1)), Task(task, Begin(kind)), Attempted(s, task, i, row, Ready(kind)), true)
  {
    var t := Attempted(s, task, i, row, Attempting(1));
    var next := Attempted(s, task, i, row, Ready(kind));
    assert t.groups[task := next.groups[task]] == next.groups;
  }

  lemma Prepares(s: State, task: nat, i: nat, row: Intent, kind: Kind, at: int)
    requires Idle(s, i, row)
    ensures Step(Attempted(s, task, i, row, Ready(kind)), Task(task, PrepareOrder(at)),
                 Placed(s, task, i, row, kind, at, NotSent), true)
  {
    var ready := Attempted(s, task, i, row, Ready(kind));
    assert Dedupe([i]) == [i];
    assert ready.groups[task := ready.groups[task].(stage := Sending(|s.store.submissions|))]
        == Placed(s, task, i, row, kind, at, NotSent).groups;
  }

  lemma Sends(s: State, task: nat, i: nat, row: Intent, kind: Kind, at: int)
    requires Idle(s, i, row)
    ensures Step(Placed(s, task, i, row, kind, at, NotSent), Task(task, Send), Placed(s, task, i, row, kind, at, InFlight), true)
  {
    var t := Placed(s, task, i, row, kind, at, NotSent);
    assert t.orders[|s.orders| := InFlight] == s.orders + [InFlight];
  }

  lemma Submits(s: State, task: nat, i: nat, row: Intent, kind: Kind, at: int)
    requires Idle(s, i, row)
    ensures Leads(s, SubmitEvents(task, i, kind, at), Placed(s, task, i, row, kind, at, InFlight), true)
  {
    Starts(s, task, i, row);
    Attempts(s, task, i, row);
    Begins(s, task, i, row, kind);
    Prepares(s, task, i, row, kind, at);
    Sends(s, task, i, row, kind, at);
    hide Step, Leads, Idle, Started, Attempted, Placed;
    FiveSteps(
      s, Loop(StartGroup(task, [i])), Started(s, task, i, row), Task(task, Attempt), Attempted(s, task, i, row, Attempting(1)),
      Task(task, Begin(kind)), Attempted(s, task, i, row, Ready(kind)), Task(task, PrepareOrder(at)),
      Placed(s, task, i, row, kind, at, NotSent), Task(task, Send), Placed(s, task, i, row, kind, at, InFlight), true);
  }

  // ----- the client's fill -----

  datatype Case = Case(client: string, order: string, trade: string, symbol: string, q: real, p: real, limit: nat) {
    function Key(): Domain.Key { Domain.Key(symbol, Sell) }
  }

  function FirstFill(c: Case): FillEvent
  {
    FillEvent(c.client, c.order, VenueTrade(c.trade), c.symbol, Buy, c.q, c.p, 0.0)
  }

  /** The client order asks for twice the quantity and has filled half. */
  function ClientOrder(c: Case, state: OrderState, cumulative: real): OrderRow
  {
    OrderRow(c.symbol, Buy, 2.0 * c.q, c.p, state, None, cumulative)
  }

  function Asked(c: Case, status: HedgeStatus, attempts: nat): Intent
  {
    Intent(0, c.Key(), c.q, 0.0, 0.0, 0.0, status, attempts, None)
  }

  function Base(c: Case, intent: Intent, submissions: seq<Submission>): Tables
  {
    Tables(map[c.client := ClientOrder(c, Partial, c.q)], [FillRow(FirstFill(c), c.q)], [intent], submissions)
  }

  function Opening(c: Case, state: OrderState): State
  {
    Init(c.limit).(store := Empty.(orders := map[c.client := ClientOrder(c, state, 0.0)]))
  }

  function OneFill(c: Case): State
  {
    State(Base(c, Asked(c, Pending, 0), []), [], [], map[], false, None, map[], c.limit)
  }

  function FillEvents(c: Case): seq<Event>
  {
    [Client(Create(c.client, c.symbol, Buy, 2.0 * c.q, c.p)), Client(Move(c.client, Placing, None)),
     Client(Move(c.client, Open, None)), Client(Fill(FirstFill(c))), Restart(Resume)]
  }

  lemma OpeningSteps(c: Case)
    requires c.q > 0.0
    ensures Step(Init(c.limit), FillEvents(c)[0], Opening(c, New), true)
    ensures Step(Opening(c, New), FillEvents(c)[1], Opening(c, Placing), true)
    ensures Step(Opening(c, Placing), FillEvents(c)[2], Opening(c, Open), true)
  {
    var orders := map[c.client := ClientOrder(c, New, 0.0)];
    assert orders[c.client := ClientOrder(c, Placing, 0.0)] == map[c.client := ClientOrder(c, Placing, 0.0)];
    assert map[c.client := ClientOrder(c, Placing, 0.0)][c.client := ClientOrder(c, Open, 0.0)]
        == map[c.client := ClientOrder(c, Open, 0.0)];
  }

  lemma FillStep(c: Case)
    requires c.q > 0.0
    ensures Step(Opening(c, Open), FillEvents(c)[3], OneFill(c).(recovering := true), true)
  {
    RecordsFill(c);
    hide RecordFill;
  }

  lemma RecordsFill(c: Case)
    requires c.q > 0.0
    ensures RecordFill(Opening(c, Open).store, FirstFill(c)).Ok?
    ensures RecordFill(Opening(c, Open).store, FirstFill(c)).value.store == OneFill(c).store
  {
    var s := Opening(c, Open).store;
    assert s.orders[c.client := ClientOrder(c, Partial, c.q)] == map[c.client := ClientOrder(c, Partial, c.q)];
    assert s.fills + [FillRow(FirstFill(c), c.q)] == [FillRow(FirstFill(c), c.q)];
    assert s.intents + [Asked(c, Pending, 0)] == [Asked(c, Pending, 0)];
  }

  lemma Fills(c: Case)
    requires c.q > 0.0
    ensures Leads(Init(c.limit), FillEvents(c), OneFill(c), true)
  {
    OpeningSteps(c);
    FillStep(c);
    assert Step(OneFill(c).(recovering := true), FillEvents(c)[4], OneFill(c), true);
    hide Step, Leads;
    PathLeads([Init(c.limit), Opening(c, New), Opening(c, Placing), Opening(c, Open), OneFill(c).(recovering := true), OneFill(c)],
              FillEvents(c), true);
  }

  /** The fill is submitted for hedging. */
  function Sent(c: Case, kind: Kind, status: SubmissionStatus, orderId: Option<nat>): Submission
  {
    Submission(c.Key(), c.q, kind, status, [0], 0, orderId, 0.0, 0.0, 0.0)
  }

  function During(c: Case, sub: Submission, order: XOrder, checkpoint: Option<nat>, stage: Stage): State
  {
    State(Base(c, Asked(c, Hedging, 1), [sub]), [order], [],
          map[0 := Group(c.Key(), [0], [0], c.q, checkpoint, stage)], false, None, map[], c.limit)
  }

  lemma FirstSubmit(c: Case, kind: Kind)
    requires c.q > 0.0 && c.limit >= 1
    ensures Leads(OneFill(c), SubmitEvents(0, 0, kind, 0),
                  During(c, Sent(c, kind, Submitting, None), InFlight, None, Sending(0)), true)
  {
    FirstPlaced(c, kind);
    var row := Asked(c, Pending, 0);
    assert Idle(OneFill(c), 0, row);
    hide Leads, Idle, Placed, OneFill, During, Sent;
    Submits(OneFill(c), 0, 0, row, kind, 0);
  }

  lemma FirstPlaced(c: Case, kind: Kind)
    requires c.q > 0.0
    ensures Placed(OneFill(c), 0, 0, Asked(c, Pending, 0), kind, 0, InFlight)
         == During(c, Sent(c, kind, Submitting, None), InFlight, None, Sending(0))
  {
    var row := Asked(c, Pending, 0);
    assert OneFill(c).store.intents[0 := row.(status := Hedging, attempts := 1)] == [Asked(c, Hedging, 1)];
    assert OneFill(c).store.submissions + [Sent(c, kind, Submitting, None)] == [Sent(c, kind, Submitting, None)];
    assert OneFill(c).orders + [InFlight] == [InFlight];
    assert Placed(OneFill(c), 0, 0, row, kind, 0, InFlight) == During(c, Sent(c, kind, Submitting, None), InFlight, None, Sending(0));
  }

  // ----- the response is lost -----

  function Lost(c: Case, order: XOrder): State
  {
    State(Base(c, Asked(c, Hedging, 1), [Sent(c, SOK, Submitting, None)]), [order], [], map[], true, None, map[], c.limit)
  }

  function Waiting(c: Case, order: XOrder): State
  {
    During(c, Sent(c, SOK, Submitting, None), order, None, Settling(HedgeProtocol.Lost, 0))
  }

  const LOSE := [Venue(0, Accept(true)), Task(0, ResponseLost)]

  lemma Loses(c: Case)
    ensures Leads(During(c, Sent(c, SOK, Submitting, None), InFlight, None, Sending(0)), LOSE,
                  Waiting(c, Live(0.0, 0.0, true)), true)
  {
    var s := During(c, Sent(c, SOK, Submitting, None), InFlight, None, Sending(0));
    var t := During(c, Sent(c, SOK, Submitting, None), Live(0.0, 0.0, true), None, Sending(0));
    assert s.orders[0 := Live(0.0, 0.0, true)] == t.orders;
    assert Step(s, LOSE[0], t, true);
    var g := t.groups[0].(stage := Settling(HedgeProtocol.Lost, 0));
    assert t.groups[0 := g] == map[0 := g];
    assert Step(t, LOSE[1], Waiting(c, Live(0.0, 0.0, true)), true);
    hide Step, Leads;
    PathLeads([s, t, Waiting(c, Live(0.0, 0.0, true))], LOSE, true);
  }

  /** The order executes while the worker waits; `late` executions are stamped after the search window. */
  lemma Executes(c: Case, order: XOrder, qty: real, late: bool, safe: bool)
    requires order.Live? && 0.0 < qty && order.executed + qty <= c.q && (safe ==> !late)
    ensures Step(Waiting(c, order), Venue(0, Execute(qty, !late)),
                 Waiting(c, Live(order.executed + qty, order.seen + (if late then 0.0 else qty), order.stamped)), safe)
  {
    var next := Live(order.executed + qty, order.seen + (if late then 0.0 else qty), order.stamped);
    assert Waiting(c, order).orders[0 := next] == [next];
  }

  lemma Crashes(c: Case, order: XOrder)
    ensures Step(Waiting(c, order), Restart(Crash), Lost(c, order), true)
  {
  }

  // ----- part of what the order executes is credited -----

  /** What executions of x at the case's price are worth. */
  function Worth(c: Case, x: real): real
  {
    x * c.p
  }

  /** What a settled submission writes for executions of x at price p. */
  function Settled(c: Case, kind: Kind, x: real): Submission
  {
    Sent(c, kind, Resolved, Some(0)).(filled := x, notional := Worth(c, x))
  }

  /** The intent after the allocation loop has credited x of q. */
  function Credited(c: Case, x: real): Intent
  {
    Credit(Asked(c, Hedging, 1), x, Rate(Worth(c, x), x), Rate(0.0, x), 0)
  }

  predicate Partly(c: Case, intent: Intent, x: real)
  {
    && intent.fillId == 0 && intent.key == c.Key() && intent.qty == c.q && intent.filled == x
    && intent.attempts == 1 && intent.orderId == Some(0)
  }

  lemma CreditedPartly(c: Case, x: real)
    requires 0.0 < x <= c.q
    ensures Partly(c, Credited(c, x), x) && Credited(c, x).status == Hedging
  {
  }

  lemma Credits(c: Case, kind: Kind, x: real, status: SubmissionStatus)
    requires 0.0 < x <= c.q && (status == Submitting || status == SubmissionStatus.Acked)
    ensures Finish(Base(c, Asked(c, Hedging, 1), [Sent(c, kind, status, Some(0))]), 0, x, Worth(c, x), 0.0, Some(0))
         == Ok(Base(c, Credited(c, x), [Settled(c, kind, x)]))
  {
    OneCredit(Asked(c, Hedging, 1), x, Rate(Worth(c, x), x), Rate(0.0, x), 0);
    var s := Base(c, Asked(c, Hedging, 1), [Sent(c, kind, status, Some(0))]);
    var r := Finish(s, 0, x, Worth(c, x), 0.0, Some(0));
    hide Credit, Rate, Allocate, Worth;
    assert r.value.submissions == [Settled(c, kind, x)];
    assert r.value.intents == [Credited(c, x)];
  }

  lemma OneCredit(row: Intent, x: real, price: real, rate: real, id: nat)
    ensures Allocate([row], [0], x, price, rate, id) == [Credit(row, x, price, rate, id)]
  {
    hide Credit;
    var ids: seq<nat> := [0];
    assert ids[1..] == [];
    assert [row][0 := Credit(row, x, price, rate, id)] == [Credit(row, x, price, rate, id)];
  }

  /** What the exchange lists: one execution, the order's record, and the order while it rests. */
  function ListedRow(c: Case, x: real): OrphanSearch.Row
  {
    OrphanSearch.Row(Some(0), 0, Sell, x, c.p, 0.0, None)
  }

  function Showing(c: Case, x: real, resting: bool): Listing
  {
    Listing([ListedRow(c, x)],
            if resting then [OrphanSearch.Row(Some(0), 0, Sell, c.q, c.p, 0.0, Some(SOK))] else [],
            map[0 := OrphanSearch.Detail(Some(0), c.symbol, Sell, c.q, Some(SOK))], true)
  }

  function Answer(c: Case, x: real): OrphanMatch.Search
  {
    OrphanMatch.Match(0, Some(OrphanMatch.Execution(x, Worth(c, x), 0.0)))
  }

  lemma OneCandidate(c: Case, x: real, resting: bool, id: nat)
    requires 0.0 < x < c.q
    ensures var l, sub := Showing(c, x, resting), Sent(c, SOK, Submitting, None);
      && (OrphanMatch.Candidate(l.executions, l.active, l.details, sub, id) <==> id == 0)
      && OrphanMatch.RowsOf(l.executions, sub, id) == (if id == 0 then [ListedRow(c, x)] else [])
      && (OrphanMatch.ActiveCandidate(l.active, sub, id) <==> resting && id == 0)
  {
    var l, sub := Showing(c, x, resting), Sent(c, SOK, Submitting, None);
    OrphanMatch.OneRow(ListedRow(c, x), sub, id);
    OrphanMatch.OneSum(ListedRow(c, x));
    if resting && id == 0 {
      assert l.active[0].orderId == 0 && OrphanMatch.OnBook(l.active[0], sub);
    }
  }

  /** The search has read the executions, and not yet the book. */
  function Searching(c: Case, order: XOrder, executions: seq<OrphanSearch.Row>): State
  {
    Lost(c, order).(search := Some(Reading(0, executions, true)))
  }

  /** The executions show what there is to see of an order that executed x inside the window. */
  lemma ReadsRows(c: Case, order: XOrder, x: real)
    requires order.Live? && order.seen == x && 0.0 < x < c.q && x <= order.executed
    ensures Step(Lost(c, order), Restart(ReadExecutions(0, [ListedRow(c, x)], true)), Searching(c, order, [ListedRow(c, x)]), false)
  {
    var s, rows, sub := Lost(c, order), [ListedRow(c, x)], Sent(c, SOK, Submitting, None);
    OrphanMatch.OneSum(ListedRow(c, x));
    OneCandidate(c, x, false, 0);
    hide OrphanMatch.RowsOf;
    forall id | OrphanMatch.RowsOf(rows, sub, id) != []
      ensures Known(s, id) && KeyOf(s, id) == sub.key && Total(OrphanMatch.SizeOf, OrphanMatch.RowsOf(rows, sub, id)) <= ExecutedBy(s, id)
    {
      OneCandidate(c, x, false, id);
    }
    assert ShowsExecutions(s, 0, rows, true);
  }

  /** The order executes while the search is between its two requests. */
  lemma ExecutesMeanwhile(c: Case, order: XOrder, executions: seq<OrphanSearch.Row>, qty: real)
    requires order.Live? && 0.0 < qty && order.executed + qty <= c.q
    ensures Step(Searching(c, order, executions), Venue(0, Execute(qty, true)),
                 Searching(c, Live(order.executed + qty, order.seen + qty, order.stamped), executions), false)
  {
    var next := Live(order.executed + qty, order.seen + qty, order.stamped);
    assert Searching(c, order, executions).orders[0 := next] == [next];
  }

  /** With the book, the executions show no more than there is to see of an order that executed x before. */
  lemma ShowsListed(c: Case, order: XOrder, x: real)
    requires order.Live? && order.stamped && x <= order.seen && 0.0 < x < c.q && x <= order.executed <= c.q
    ensures Shows(Searching(c, order, [ListedRow(c, x)]), 0, Showing(c, x, order.executed < c.q))
  {
    var resting := order.executed < c.q;
    var s, l, sub := Searching(c, order, [ListedRow(c, x)]), Showing(c, x, resting), Sent(c, SOK, Submitting, None);
    OrphanMatch.OneSum(ListedRow(c, x));
    OneCandidate(c, x, resting, 0);
    assert OrphanMatch.DetailFits(l.details, 0, sub);
    hide OrphanMatch.Candidate, OrphanMatch.ActiveCandidate, OrphanMatch.RowsOf, OrphanMatch.DetailFits;
    forall id | OrphanMatch.Candidate(l.executions, l.active, l.details, sub, id)
      ensures Known(s, id) && KeyOf(s, id) == sub.key
        && Total(OrphanMatch.SizeOf, OrphanMatch.RowsOf(l.executions, sub, id)) <= ExecutedBy(s, id)
    {
      OneCandidate(c, x, resting, id);
    }
  }

  lemma DecidesRows(c: Case, x: real, resting: bool)
    requires 0.0 < x < c.q
    ensures var l := Showing(c, x, resting);
      OrphanMatch.Decided(Answer(c, x), l.executions, l.active, l.details, Sent(c, SOK, Submitting, None), true)
  {
    var l, sub := Showing(c, x, resting), Sent(c, SOK, Submitting, None);
    OrphanMatch.OneSum(ListedRow(c, x));
    OneCandidate(c, x, resting, 0);
    hide OrphanMatch.Candidate, OrphanMatch.RowsOf;
    assert OrphanMatch.RowsOf(l.executions, sub, 0) == [ListedRow(c, x)];
    assert OrphanMatch.Summed([ListedRow(c, x)]) == OrphanMatch.Execution(x, Worth(c, x), 0.0);
    assert OrphanMatch.Candidate(l.executions, l.active, l.details, sub, 0);
    assert Answer(c, x).execution.value == OrphanMatch.Execution(x, Worth(c, x), 0.0);
    forall id | OrphanMatch.Candidate(l.executions, l.active, l.details, sub, id) ensures id == 0 {
      OneCandidate(c, x, resting, id);
    }
  }

  lemma FindsRows(c: Case, order: XOrder, x: real)
    requires order.Live? && order.stamped && x <= order.seen && 0.0 < x < c.q && x <= order.executed <= c.q
    ensures Step(Searching(c, order, [ListedRow(c, x)]), Restart(Find(0, Showing(c, x, order.executed < c.q), Answer(c, x))),
                 Lost(c, order).(found := map[0 := Answer(c, x)]), false)
  {
    ShowsListed(c, order, x);
    DecidesRows(c, x, order.executed < c.q);
    hide Shows, OrphanMatch.Decided;
  }

  /** Found, bound and credited with x; then the intent is left to be hedged again. */
  function Recovered(c: Case, sub: Submission, intent: Intent, order: XOrder): State
  {
    State(Base(c, intent, [sub]), [order], [], map[], false, None, map[], c.limit)
  }

  function ReadRows(c: Case, x: real): Event
  {
    Restart(ReadExecutions(0, [ListedRow(c, x)], true))
  }

  function RecoverEvents(c: Case, order: XOrder, x: real): seq<Event>
    requires order.Live?
  {
    [ReadRows(c, x)] + FindEvents(c, order, x)
  }

  function FindEvents(c: Case, order: XOrder, x: real): seq<Event>
    requires order.Live?
  {
    [Restart(Find(0, Showing(c, x, order.executed < c.q), Answer(c, x))), Restart(RecoverBind(0)), Restart(RecoverRows(0)),
     Restart(RecoverSettle(0, 0)), Restart(Resume)]
  }

  lemma BindsRows(c: Case, order: XOrder, x: real)
    requires 0.0 < x < c.q
    ensures Step(Lost(c, order).(found := map[0 := Answer(c, x)]), Restart(RecoverBind(0)),
                 Recovered(c, Sent(c, SOK, SubmissionStatus.Acked, Some(0)), Asked(c, Hedging, 1), order)
                   .(recovering := true, found := map[0 := Answer(c, x)]), false)
  {
    assert [Sent(c, SOK, Submitting, None)][0 := Sent(c, SOK, SubmissionStatus.Acked, Some(0))]
        == [Sent(c, SOK, SubmissionStatus.Acked, Some(0))];
  }

  lemma CreditsRows(c: Case, order: XOrder, x: real)
    requires 0.0 < x < c.q
    ensures Step(Recovered(c, Sent(c, SOK, SubmissionStatus.Acked, Some(0)), Asked(c, Hedging, 1), order)
                   .(recovering := true, found := map[0 := Answer(c, x)]), Restart(RecoverRows(0)),
                 Recovered(c, Settled(c, SOK, x), Credited(c, x), order)
                   .(recovering := true, found := map[0 := Answer(c, x)]), false)
  {
    Credits(c, SOK, x, SubmissionStatus.Acked);
    hide Finish, Credited, Settled;
  }

  lemma SettlesRows(c: Case, order: XOrder, sub: Submission, intent: Intent, found: map<nat, OrphanMatch.Search>)
    requires sub.status == Resolved && sub.ids == [0] && sub.orderId == intent.orderId
    requires intent.status == Hedging && intent.filled < intent.qty
    ensures Step(Recovered(c, sub, intent, order).(recovering := true, found := found), Restart(RecoverSettle(0, 0)),
                 Recovered(c, sub, intent.(status := Retry), order).(recovering := true, found := found), false)
  {
    assert [intent][0 := intent.(status := Retry)] == [intent.(status := Retry)];
  }

  lemma RecoversRows(c: Case, order: XOrder, x: real)
    requires order.Live? && order.stamped && order.seen == x && 0.0 < x < c.q && x <= order.executed <= c.q
    ensures Leads(Lost(c, order), RecoverEvents(c, order, x),
                  Recovered(c, Settled(c, SOK, x), Credited(c, x).(status := Retry), order), false)
  {
    ReadsRows(c, order, x);
    FindsAndSettles(c, order, x);
    hide Step, Leads, Lost, Searching, Recovered, Settled, Credited, FindEvents;
    OneStep(Lost(c, order), ReadRows(c, x), Searching(c, order, [ListedRow(c, x)]), false);
    Then(Lost(c, order), [ReadRows(c, x)], Searching(c, order, [ListedRow(c, x)]), FindEvents(c, order, x),
         Recovered(c, Settled(c, SOK, x), Credited(c, x).(status := Retry), order), false);
  }

  lemma FindsAndSettles(c: Case, order: XOrder, x: real)
    requires order.Live? && order.stamped && x <= order.seen && 0.0 < x < c.q && x <= order.executed <= c.q
    ensures Leads(Searching(c, order, [ListedRow(c, x)]), FindEvents(c, order, x),
                  Recovered(c, Settled(c, SOK, x), Credited(c, x).(status := Retry), order), false)
  {
    var start := Searching(c, order, [ListedRow(c, x)]);
    var found, sub, intent := map[0 := Answer(c, x)], Settled(c, SOK, x), Credited(c, x);
    var bound := Recovered(c, Sent(c, SOK, SubmissionStatus.Acked, Some(0)), Asked(c, Hedging, 1), order)
                   .(recovering := true, found := found);
    var credited := Recovered(c, sub, intent, order).(recovering := true, found := found);
    var settled := Recovered(c, sub, intent.(status := Retry), order).(recovering := true, found := found);
    var end := Recovered(c, sub, intent.(status := Retry), order);
    FindsRows(c, order, x);
    BindsRows(c, order, x);
    CreditsRows(c, order, x);
    CreditedPartly(c, x);
    SettlesRows(c, order, sub, intent, found);
    hide Credited, Settled;
    Resumes(settled, end);
    hide Step, Leads, Base, Showing, Answer, Sent, Asked, Searching;
    FiveSteps(start, Restart(Find(0, Showing(c, x, order.executed < c.q), Answer(c, x))), Lost(c, order).(found := found),
              Restart(RecoverBind(0)), bound, Restart(RecoverRows(0)), credited, Restart(RecoverSettle(0, 0)), settled,
              Restart(Resume), end, false);
  }

  lemma Resumes(s: State, t: State)
    requires ForeignKeys(s.store) && s.recovering && t == s.(recovering := false, search := None, found := map[])
    ensures Step(s, Restart(Resume), t, true)
  {
  }

  // ----- nothing is found -----

  const NOTHING := Listing([], [], map[], true)

  const READ_NOTHING := Restart(ReadExecutions(0, [], true))

  const FIND_NOTHING := [
    Restart(Find(0, NOTHING, OrphanMatch.NoOrder)), Restart(RecoverAbsent(0)), Restart(RecoverSettle(0, 0)), Restart(Resume)]

  const RECOVER_NOTHING := [READ_NOTHING] + FIND_NOTHING

  function Unhedged(c: Case, order: XOrder): State
  {
    Recovered(c, Sent(c, SOK, Absent, None), Asked(c, Retry, 1), order)
  }

  lemma ReadsNothing(c: Case, order: XOrder)
    requires order.Live? && order.seen == 0.0
    ensures Step(Lost(c, order), READ_NOTHING, Searching(c, order, []), false)
  {
    var s := Lost(c, order);
    var sub := s.store.submissions[0];
    assert forall id :: OrphanMatch.RowsOf([], sub, id) == [];
    assert ShowsExecutions(s, 0, [], true);
  }

  lemma FindsNothing(c: Case, order: XOrder)
    requires order.Live? && order.seen >= 0.0 && order.executed == c.q && c.q > 0.0
    ensures Step(Searching(c, order, []), FIND_NOTHING[0], Lost(c, order).(found := map[0 := OrphanMatch.NoOrder]), false)
  {
    var s := Searching(c, order, []);
    var sub := s.store.submissions[0];
    assert forall id :: OrphanMatch.RowsOf([], sub, id) == [];
    assert forall id :: !OrphanMatch.Candidate([], [], map[], sub, id);
    hide OrphanMatch.Candidate;
  }

  lemma SettlesNothing(c: Case, order: XOrder, found: map<nat, OrphanMatch.Search>)
    requires found == map[0 := OrphanMatch.NoOrder] && 0.0 < c.q
    ensures var absent := Recovered(c, Sent(c, SOK, Absent, None), Asked(c, Hedging, 1), order).(recovering := true, found := found);
      var settled := Unhedged(c, order).(recovering := true, found := found);
      && Step(Lost(c, order).(found := found), Restart(RecoverAbsent(0)), absent, false)
      && Step(absent, Restart(RecoverSettle(0, 0)), settled, false)
  {
    assert [Sent(c, SOK, Submitting, None)][0 := Sent(c, SOK, Absent, None)] == [Sent(c, SOK, Absent, None)];
    var absent := Recovered(c, Sent(c, SOK, Absent, None), Asked(c, Hedging, 1), order).(recovering := true, found := found);
    assert absent.store.intents[0 := Asked(c, Retry, 1)] == [Asked(c, Retry, 1)];
  }

  lemma RecoversNothing(c: Case, order: XOrder)
    requires order.Live? && order.seen == 0.0 && order.executed == c.q && c.q > 0.0
    ensures Leads(Lost(c, order), RECOVER_NOTHING, Unhedged(c, order), false)
  {
    ReadsNothing(c, order);
    FindsNothingAndRetries(c, order);
    hide Step, Leads, Lost, Searching, Unhedged, READ_NOTHING, FIND_NOTHING;
    OneStep(Lost(c, order), READ_NOTHING, Searching(c, order, []), false);
    Then(Lost(c, order), [READ_NOTHING], Searching(c, order, []), FIND_NOTHING, Unhedged(c, order), false);
  }

  lemma FindsNothingAndRetries(c: Case, order: XOrder)
    requires order.Live? && order.seen >= 0.0 && order.executed == c.q && c.q > 0.0
    ensures Leads(Searching(c, order, []), FIND_NOTHING, Unhedged(c, order), false)
  {
    var found := map[0 := OrphanMatch.NoOrder];
    var absent := Recovered(c, Sent(c, SOK, Absent, None), Asked(c, Hedging, 1), order).(recovering := true, found := found);
    var settled := Unhedged(c, order).(recovering := true, found := found);
    FindsNothing(c, order);
    SettlesNothing(c, order, found);
    Resumes(settled, Unhedged(c, order));
    Unsafely(settled, Restart(Resume), Unhedged(c, order), false);
    hide Step, Leads, Lost, Recovered, Searching;
    FourSteps(Searching(c, order, []), FIND_NOTHING[0], Lost(c, order).(found := found), Restart(RecoverAbsent(0)), absent,
              Restart(RecoverSettle(0, 0)), settled, Restart(Resume), Unhedged(c, order), false);
  }

  // ----- the response arrives, and the order is reported -----

  /** The intent carries the order's id once it is marked. */
  function Marked(c: Case, marked: nat): Intent
  {
    Asked(c, Hedging, 1).(orderId := if marked == 0 then None else Some(0))
  }

  function Working(c: Case, kind: Kind, order: XOrder, marked: nat): State
  {
    During(c, Sent(c, kind, SubmissionStatus.Acked, Some(0)), order, Some(0), Stage.Accepted(0, marked))
      .(store := Base(c, Marked(c, marked), [Sent(c, kind, SubmissionStatus.Acked, Some(0))]))
  }

  const ACKNOWLEDGE := [Venue(0, Accept(true)), Task(0, TaskStep.Acked), Task(0, Mark)]

  lemma Accepts(c: Case, kind: Kind)
    ensures Step(During(c, Sent(c, kind, Submitting, None), InFlight, None, Sending(0)), ACKNOWLEDGE[0],
                 During(c, Sent(c, kind, Submitting, None), Live(0.0, 0.0, true), None, Sending(0)), true)
  {
    assert During(c, Sent(c, kind, Submitting, None), InFlight, None, Sending(0)).orders[0 := Live(0.0, 0.0, true)]
        == [Live(0.0, 0.0, true)];
  }

  lemma AcksOrder(c: Case, kind: Kind, order: XOrder)
    requires order.Accepted()
    ensures Step(During(c, Sent(c, kind, Submitting, None), order, None, Sending(0)), ACKNOWLEDGE[1], Working(c, kind, order, 0), true)
  {
    var t, u := During(c, Sent(c, kind, Submitting, None), order, None, Sending(0)), Working(c, kind, order, 0);
    assert t.groups[0 := u.groups[0]] == u.groups;
    assert t.store.submissions[0 := Sent(c, kind, SubmissionStatus.Acked, Some(0))] == u.store.submissions;
  }

  lemma MarksOrder(c: Case, kind: Kind, order: XOrder)
    ensures Step(Working(c, kind, order, 0), ACKNOWLEDGE[2], Working(c, kind, order, 1), true)
  {
    var u, w := Working(c, kind, order, 0), Working(c, kind, order, 1);
    assert u.groups[0 := w.groups[0]] == w.groups;
    assert u.store.intents[0 := Marked(c, 1)] == w.store.intents;
  }

  lemma Acknowledges(c: Case, kind: Kind)
    ensures Leads(During(c, Sent(c, kind, Submitting, None), InFlight, None, Sending(0)), ACKNOWLEDGE,
                  Working(c, kind, Live(0.0, 0.0, true), 1), true)
  {
    var order := Live(0.0, 0.0, true);
    var s, t := During(c, Sent(c, kind, Submitting, None), InFlight, None, Sending(0)),
                During(c, Sent(c, kind, Submitting, None), order, None, Sending(0));
    Accepts(c, kind);
    AcksOrder(c, kind, order);
    MarksOrder(c, kind, order);
    hide Step, Leads, During, Working;
    ThreeSteps(s, ACKNOWLEDGE[0], t, ACKNOWLEDGE[1], Working(c, kind, order, 0), ACKNOWLEDGE[2], Working(c, kind, order, 1), true);
    assert [ACKNOWLEDGE[0], ACKNOWLEDGE[1], ACKNOWLEDGE[2]] == ACKNOWLEDGE;
  }

  lemma Works(c: Case, kind: Kind, order: XOrder, qty: real)
    requires order.Live? && 0.0 < qty && order.executed + qty <= c.q
    ensures Step(Working(c, kind, order, 1), Venue(0, Execute(qty, true)),
                 Working(c, kind, Live(order.executed + qty, order.seen + qty, order.stamped), 1), true)
  {
    var next := Live(order.executed + qty, order.seen + qty, order.stamped);
    assert Working(c, kind, order, 1).orders[0 := next] == [next];
  }

  function Reporting(c: Case, kind: Kind, x: real, status: HedgeStatus, next: nat): State
  {
    During(c, Settled(c, kind, x), Live(c.q, c.q, true), Some(0), Settling(Done(0), next))
      .(store := Base(c, Credited(c, x).(status := status), [Settled(c, kind, x)]))
  }

  function ReportEvents(c: Case, x: real): seq<Event>
  {
    [Task(0, Complete(x, Worth(c, x), 0.0)), Task(0, Settle), Task(0, EndTask)]
  }

  lemma MarkedCredits(c: Case, kind: Kind, x: real)
    requires 0.0 < x <= c.q
    ensures Finish(Base(c, Marked(c, 1), [Sent(c, kind, SubmissionStatus.Acked, Some(0))]), 0, x, Worth(c, x), 0.0, Some(0))
         == Ok(Base(c, Credited(c, x), [Settled(c, kind, x)]))
  {
    OneCredit(Marked(c, 1), x, Rate(Worth(c, x), x), Rate(0.0, x), 0);
    assert Credit(Marked(c, 1), x, Rate(Worth(c, x), x), Rate(0.0, x), 0) == Credited(c, x);
    var s := Base(c, Marked(c, 1), [Sent(c, kind, SubmissionStatus.Acked, Some(0))]);
    var r := Finish(s, 0, x, Worth(c, x), 0.0, Some(0));
    hide Credit, Rate, Allocate, Worth;
    assert r.value.submissions == [Settled(c, kind, x)];
    assert r.value.intents == [Credited(c, x)];
  }

  /** A terminal order that executed q is reported with x of it: all, or for a FAK order what was listed. */
  lemma Completes(c: Case, kind: Kind, x: real, safe: bool)
    requires 0.0 < x <= c.q && (x == c.q || (kind == FAK && !safe))
    ensures Step(Working(c, kind, Live(c.q, c.q, true), 1), ReportEvents(c, x)[0], Reporting(c, kind, x, Hedging, 0), safe)
  {
    var s := Working(c, kind, Live(c.q, c.q, true), 1);
    MarkedCredits(c, kind, x);
    CreditedPartly(c, x);
    hide Finish, Worth, Credited, Settled;
    assert s.groups[0 := Reporting(c, kind, x, Hedging, 0).groups[0]] == Reporting(c, kind, x, Hedging, 0).groups;
  }

  function ReportedStatus(c: Case, x: real): HedgeStatus
  {
    if x == c.q then Hedged else Retry
  }

  lemma ReportSettles(c: Case, kind: Kind, x: real)
    requires 0.0 < x <= c.q
    ensures Step(Reporting(c, kind, x, Hedging, 0), Task(0, Settle), Reporting(c, kind, x, ReportedStatus(c, x), 1), true)
  {
    var t, u := Reporting(c, kind, x, Hedging, 0), Reporting(c, kind, x, ReportedStatus(c, x), 1);
    CreditedPartly(c, x);
    hide Credited, Settled, Worth;
    assert t.store.intents[0 := Credited(c, x).(status := ReportedStatus(c, x))] == u.store.intents;
    assert t.groups[0 := u.groups[0]] == u.groups;
  }

  lemma ReportEnds(c: Case, kind: Kind, x: real, status: HedgeStatus)
    ensures Step(Reporting(c, kind, x, status, 1), Task(0, EndTask),
                 Recovered(c, Settled(c, kind, x), Credited(c, x).(status := status), Live(c.q, c.q, true)), true)
  {
    hide Credited, Worth;
  }

  lemma Reports(c: Case, kind: Kind, x: real, safe: bool)
    requires 0.0 < x <= c.q && (x == c.q || (kind == FAK && !safe))
    ensures Leads(Working(c, kind, Live(c.q, c.q, true), 1), ReportEvents(c, x),
                  Recovered(c, Settled(c, kind, x), Credited(c, x).(status := ReportedStatus(c, x)), Live(c.q, c.q, true)), safe)
  {
    var t, u := Reporting(c, kind, x, Hedging, 0), Reporting(c, kind, x, ReportedStatus(c, x), 1);
    var end := Recovered(c, Settled(c, kind, x), Credited(c, x).(status := ReportedStatus(c, x)), Live(c.q, c.q, true));
    Completes(c, kind, x, safe);
    ReportSettles(c, kind, x);
    ReportEnds(c, kind, x, ReportedStatus(c, x));
    Unsafely(t, Task(0, Settle), u, safe);
    Unsafely(u, Task(0, EndTask), end, safe);
    hide Step, Leads, Reporting, Recovered, Working, Settled, Credited, Worth, ReportedStatus;
    ThreeSteps(Working(c, kind, Live(c.q, c.q, true), 1), Task(0, Complete(x, Worth(c, x), 0.0)), t, Task(0, Settle), u,
               Task(0, EndTask), end, safe);
  }

  lemma Unsafely(s: State, e: Event, t: State, safe: bool)
    requires Step(s, e, t, true)
    ensures Step(s, e, t, safe)
  {
  }

  // ----- hedged again -----

  function AgainEvents(c: Case, x: real): seq<Event>
  {
    SubmitEvents(1, 0, FAK, 1) + [Venue(1, Accept(true)), Venue(1, Execute(c.q - x, true))]
  }

  /** The state in which the first order has executed q and the second one the q - x that was hedged again. */
  function Twice(c: Case, sub: Submission, intent: Intent, first: XOrder, second: XOrder): State
  {
    var s := Recovered(c, sub, intent, first);
    Placed(s, 1, 0, intent, FAK, 1, second)
  }

  lemma AgainSubmits(c: Case, sub: Submission, intent: Intent, order: XOrder)
    requires intent.status == Retry && intent.attempts < c.limit && intent.filled < intent.qty
    requires !sub.Unresolved() && sub.ids == [0]
    ensures Leads(Recovered(c, sub, intent, order), SubmitEvents(1, 0, FAK, 1), Twice(c, sub, intent, order, InFlight), true)
  {
    var s := Recovered(c, sub, intent, order);
    assert Idle(s, 0, intent);
    hide Leads, Step;
    Submits(s, 1, 0, intent, FAK, 1);
  }

  lemma TwiceStep(c: Case, sub: Submission, intent: Intent, first: XOrder, second: XOrder, k: nat, step: VenueStep,
                  first': XOrder, second': XOrder)
    requires sub.ids == [0] && k < 2
    requires var s := Twice(c, sub, intent, first, second);
      VenueEnabled(s, k, step) && DoVenue(s, k, step).orders == [first', second']
    ensures Step(Twice(c, sub, intent, first, second), Venue(k, step), Twice(c, sub, intent, first', second'), false)
  {
  }

  lemma AgainSteps(c: Case, sub: Submission, intent: Intent, order: XOrder, x: real)
    requires intent.qty == c.q && intent.filled == x && 0.0 <= x < c.q && sub.ids == [0]
    ensures var none, second := Live(0.0, 0.0, true), Live(c.q - x, c.q - x, true);
      && Step(Twice(c, sub, intent, order, InFlight), Venue(1, Accept(true)), Twice(c, sub, intent, order, none), false)
      && Step(Twice(c, sub, intent, order, none), Venue(1, Execute(c.q - x, true)), Twice(c, sub, intent, order, second), false)
  {
    var none, second := Live(0.0, 0.0, true), Live(c.q - x, c.q - x, true);
    hide Step;
    TwiceStep(c, sub, intent, order, InFlight, 1, Accept(true), order, none);
    TwiceStep(c, sub, intent, order, none, 1, Execute(c.q - x, true), order, second);
  }

  /** The q - x that was not credited is submitted and executed, whatever the first order is doing. */
  lemma HedgedAgain(c: Case, sub: Submission, intent: Intent, order: XOrder, x: real)
    requires intent.qty == c.q && intent.filled == x && 0.0 <= x < c.q && intent.status == Retry && intent.attempts < c.limit
    requires !sub.Unresolved() && sub.ids == [0]
    ensures Leads(Recovered(c, sub, intent, order), AgainEvents(c, x),
                  Twice(c, sub, intent, order, Live(c.q - x, c.q - x, true)), false)
  {
    var s, a := Recovered(c, sub, intent, order), Twice(c, sub, intent, order, InFlight);
    var b, d := Twice(c, sub, intent, order, Live(0.0, 0.0, true)), Twice(c, sub, intent, order, Live(c.q - x, c.q - x, true));
    AgainSubmits(c, sub, intent, order);
    AgainSteps(c, sub, intent, order, x);
    hide *;
    Unsafe(s, SubmitEvents(1, 0, FAK, 1), a);
    TwoSteps(a, Venue(1, Accept(true)), b, Venue(1, Execute(c.q - x, true)), d, false);
    Then(s, SubmitEvents(1, 0, FAK, 1), a, [Venue(1, Accept(true)), Venue(1, Execute(c.q - x, true))], d, false);
    AgainIs(c, x);
  }

  lemma AgainIs(c: Case, x: real)
    ensures AgainEvents(c, x) == SubmitEvents(1, 0, FAK, 1) + [Venue(1, Accept(true)), Venue(1, Execute(c.q - x, true))]
  {
  }

  lemma Unsafe(s: State, events: seq<Event>, t: State)
    requires Leads(s, events, t, true)
    ensures Leads(s, events, t, false)
  {
  }

  // ----- the runs -----

  /** The venue executed `total` for intents that ask for q, and no safe run does that. */
  ghost predicate Overhedges(c: Case, events: seq<Event>, total: real)
  {
    Feasible(Init(c.limit), events)
    && var s := After(Init(c.limit), events);
       && |s.orders| == |s.store.submissions|
       && Total(QtyAt(c.Key()), s.store.intents) == c.q
       && Total(ExecutedAt(c.Key()), Pairs(s)) == total
  }

  lemma TwiceTotals(c: Case, sub: Submission, intent: Intent, first: XOrder, second: XOrder)
    requires sub.key == c.Key() && intent.key == c.Key() && intent.qty == c.q
    ensures var s := Twice(c, sub, intent, first, second);
      && |s.orders| == |s.store.submissions|
      && Total(QtyAt(c.Key()), s.store.intents) == c.q
      && Total(ExecutedAt(c.Key()), Pairs(s)) == first.Quantity() + second.Quantity()
  {
    var s := Twice(c, sub, intent, first, second);
    assert s.orders == [first, second];
    assert s.store.intents[1..] == [];
    assert Pairs(s)[0] == (sub, first) && Pairs(s)[1].1 == second && Pairs(s)[1].0.key == c.Key();
    assert Pairs(s)[1..][1..] == [];
    assert Total(ExecutedAt(c.Key()), Pairs(s)[1..]) == second.Quantity();
  }

  /** The run so far is put together: the fill, its submission, what happens to it, and the second hedge. */
  lemma Whole(c: Case, kind: Kind, middle: seq<Event>, sub: Submission, intent: Intent, order: XOrder, x: real)
    requires 0.0 <= x < c.q && 2 <= c.limit
    requires Leads(During(c, Sent(c, kind, Submitting, None), InFlight, None, Sending(0)), middle,
                   Recovered(c, sub, intent, order), false)
    requires intent.qty == c.q && intent.filled == x && intent.status == Retry && intent.attempts == 1
    requires !sub.Unresolved() && sub.ids == [0]
    ensures Leads(Init(c.limit), FillEvents(c) + (SubmitEvents(0, 0, kind, 0) + (middle + AgainEvents(c, x))),
                  Twice(c, sub, intent, order, Live(c.q - x, c.q - x, true)), false)
  {
    var begin := During(c, Sent(c, kind, Submitting, None), InFlight, None, Sending(0));
    var end := Twice(c, sub, intent, order, Live(c.q - x, c.q - x, true));
    Fills(c);
    FirstSubmit(c, kind);
    HedgedAgain(c, sub, intent, order, x);
    hide Leads, Twice, Recovered, During, OneFill, FillEvents, SubmitEvents, AgainEvents;
    Unsafe(Init(c.limit), FillEvents(c), OneFill(c));
    Unsafe(OneFill(c), SubmitEvents(0, 0, kind, 0), begin);
    Then(begin, middle, Recovered(c, sub, intent, order), AgainEvents(c, x), end, false);
    Then(OneFill(c), SubmitEvents(0, 0, kind, 0), begin, middle + AgainEvents(c, x), end, false);
    Then(Init(c.limit), FillEvents(c), OneFill(c), SubmitEvents(0, 0, kind, 0) + (middle + AgainEvents(c, x)), end, false);
  }

  lemma Crashed(c: Case, order: XOrder)
    ensures Leads(Waiting(c, order), [Restart(Crash)], Lost(c, order), true)
  {
    Crashes(c, order);
    hide *;
    OneStep(Waiting(c, order), Restart(Crash), Lost(c, order), true);
  }

  /** Three runs put one after the other. */
  lemma Three(a: State, first: seq<Event>, b: State, second: seq<Event>, d: State, third: seq<Event>, e: State)
    requires Leads(a, first, b, false) && Leads(b, second, d, false) && Leads(d, third, e, false)
    ensures Leads(a, first + (second + third), e, false)
  {
    hide *;
    Then(b, second, d, third, e, false);
    Then(a, first, b, second + third, e, false);
  }

  function LostEvents(executions: seq<Event>, recovery: seq<Event>): seq<Event>
  {
    LOSE + (executions + ([Restart(Crash)] + recovery))
  }

  /** A response is lost, the order executes, the worker restarts and recovers. */
  lemma LostLeads(c: Case, executions: seq<Event>, order: XOrder, recovery: seq<Event>, end: State)
    requires Leads(Waiting(c, Live(0.0, 0.0, true)), executions, Waiting(c, order), false)
    requires Leads(Lost(c, order), recovery, end, false)
    ensures Leads(During(c, Sent(c, SOK, Submitting, None), InFlight, None, Sending(0)),
                  LostEvents(executions, recovery), end, false)
  {
    var begin := During(c, Sent(c, SOK, Submitting, None), InFlight, None, Sending(0));
    var waiting := Waiting(c, Live(0.0, 0.0, true));
    Loses(c);
    Crashed(c, order);
    hide Leads, Waiting, Lost, During, LOSE;
    Unsafe(begin, LOSE, waiting);
    Unsafe(Waiting(c, order), [Restart(Crash)], Lost(c, order));
    Three(waiting, executions, Waiting(c, order), [Restart(Crash)], Lost(c, order), recovery, end);
    Then(begin, LOSE, waiting, executions + ([Restart(Crash)] + recovery), end, false);
  }

  function WholeRun(c: Case, kind: Kind, middle: seq<Event>, x: real): seq<Event>
  {
    FillEvents(c) + (SubmitEvents(0, 0, kind, 0) + (middle + AgainEvents(c, x)))
  }

  /** From a run that leads to a state of two executed orders to what it executed. */
  lemma Counts(c: Case, events: seq<Event>, sub: Submission, intent: Intent, first: XOrder, second: XOrder)
    requires Leads(Init(c.limit), events, Twice(c, sub, intent, first, second), false)
    requires sub.key == c.Key() && intent.key == c.Key() && intent.qty == c.q
    ensures Overhedges(c, events, first.Quantity() + second.Quantity())
  {
    TwiceTotals(c, sub, intent, first, second);
    hide Twice, Total, Pairs;
  }

  /** A run that executes more than the intents ask for is not safe. */
  lemma NotSafe(c: Case, events: seq<Event>, total: real)
    requires Overhedges(c, events, total) && total > c.q
    ensures !SafeRun(Init(c.limit), events)
  {
    if SafeRun(Init(c.limit), events) {
      NeverOverHedged(c.limit, events, c.Key());
    }
  }

  // ----- six ways to hedge too much -----

  function RestingRun(c: Case, x: real): seq<Event>
  {
    WholeRun(c, SOK, LostEvents([Venue(0, Execute(x, true))], RecoverEvents(c, Live(x, x, true), x)), x)
    + [Venue(0, Execute(c.q - x, true))]
  }

  /**
   * The response is lost and the order executes x and rests. Recovery finds the execution and settles
   * the submission without canceling the order (hedge_worker.py:907-922); the rest is hedged again,
   * and the order executes it too.
   */
  lemma RestingOrderSettled(c: Case, x: real)
    requires 0.0 < x < c.q && 2 <= c.limit
    ensures Overhedges(c, RestingRun(c, x), 2.0 * c.q - x) && !SafeRun(Init(c.limit), RestingRun(c, x))
  {
    var order, second := Live(x, x, true), Live(c.q - x, c.q - x, true);
    var sub, intent := Settled(c, SOK, x), Credited(c, x).(status := Retry);
    RestingLeads(c, x);
    RestExecutes(c, x, sub, intent, second);
    Counts(c, RestingRun(c, x), sub, intent, Live(c.q, x + (c.q - x), true), second);
    NotSafe(c, RestingRun(c, x), 2.0 * c.q - x);
  }

  lemma RestingLeads(c: Case, x: real)
    requires 0.0 < x < c.q && 2 <= c.limit
    ensures Leads(Init(c.limit),
                  WholeRun(c, SOK, LostEvents([Venue(0, Execute(x, true))], RecoverEvents(c, Live(x, x, true), x)), x),
                  Twice(c, Settled(c, SOK, x), Credited(c, x).(status := Retry), Live(x, x, true),
                        Live(c.q - x, c.q - x, true)), false)
  {
    var order := Live(x, x, true);
    var recovery, sub, intent := RecoverEvents(c, order, x), Settled(c, SOK, x), Credited(c, x).(status := Retry);
    Executes(c, Live(0.0, 0.0, true), x, false, false);
    OneStep(Waiting(c, Live(0.0, 0.0, true)), Venue(0, Execute(x, true)), Waiting(c, order), false);
    RecoversRows(c, order, x);
    LostLeads(c, [Venue(0, Execute(x, true))], order, recovery, Recovered(c, sub, intent, order));
    CreditedPartly(c, x);
    hide Leads, Twice, Recovered, During, FillEvents, SubmitEvents, AgainEvents, RecoverEvents, LostEvents, Credited;
    Whole(c, SOK, LostEvents([Venue(0, Execute(x, true))], recovery), sub, intent, order, x);
  }

  lemma RestExecutes(c: Case, x: real, sub: Submission, intent: Intent, second: XOrder)
    requires 0.0 < x < c.q && sub.ids == [0] && sub.qty == c.q
    requires Leads(Init(c.limit),
                   WholeRun(c, SOK, LostEvents([Venue(0, Execute(x, true))], RecoverEvents(c, Live(x, x, true), x)), x),
                   Twice(c, sub, intent, Live(x, x, true), second), false)
    ensures Leads(Init(c.limit), RestingRun(c, x), Twice(c, sub, intent, Live(c.q, x + (c.q - x), true), second), false)
  {
    TwiceStep(c, sub, intent, Live(x, x, true), second, 0, Execute(c.q - x, true), Live(c.q, x + (c.q - x), true), second);
    hide Step, Leads, Twice, WholeRun, LostEvents;
    OneStep(Twice(c, sub, intent, Live(x, x, true), second), Venue(0, Execute(c.q - x, true)),
            Twice(c, sub, intent, Live(c.q, x + (c.q - x), true), second), false);
    Then(Init(c.limit), WholeRun(c, SOK, LostEvents([Venue(0, Execute(x, true))], RecoverEvents(c, Live(x, x, true), x)), x),
         Twice(c, sub, intent, Live(x, x, true), second), [Venue(0, Execute(c.q - x, true))],
         Twice(c, sub, intent, Live(c.q, x + (c.q - x), true), second), false);
  }

  function LateRun(c: Case): seq<Event>
  {
    WholeRun(c, SOK, LostEvents([Venue(0, Execute(c.q, false))], RECOVER_NOTHING), 0.0)
  }

  /**
   * The response is lost and the order executes after its search window, all of it. Recovery finds
   * neither the order nor an execution, and everything is hedged again (hedge_worker.py:841-872, 902-905).
   */
  lemma LateExecutionAbsent(c: Case)
    requires 0.0 < c.q && 2 <= c.limit
    ensures Overhedges(c, LateRun(c), 2.0 * c.q) && !SafeRun(Init(c.limit), LateRun(c))
  {
    var order := Live(c.q, 0.0, true);
    var sub, intent := Sent(c, SOK, Absent, None), Asked(c, Retry, 1);
    Executes(c, Live(0.0, 0.0, true), c.q, true, false);
    OneStep(Waiting(c, Live(0.0, 0.0, true)), Venue(0, Execute(c.q, false)), Waiting(c, order), false);
    RecoversNothing(c, order);
    LostLeads(c, [Venue(0, Execute(c.q, false))], order, RECOVER_NOTHING, Recovered(c, sub, intent, order));
    hide Leads, Twice, Recovered, During, FillEvents, SubmitEvents, AgainEvents, LostEvents, RECOVER_NOTHING;
    Whole(c, SOK, LostEvents([Venue(0, Execute(c.q, false))], RECOVER_NOTHING), sub, intent, order, 0.0);
    Counts(c, LateRun(c), sub, intent, order, Live(c.q - 0.0, c.q - 0.0, true));
    NotSafe(c, LateRun(c), 2.0 * c.q);
  }

  function LateRestEvents(c: Case, x: real): seq<Event>
  {
    LostEvents([Venue(0, Execute(x, true)), Venue(0, Execute(c.q - x, false))], RecoverEvents(c, Live(c.q, x, true), x))
  }

  /**
   * The response is lost; the order executes x inside its search window and the rest after it. Recovery
   * reads the x alone, settles the submission with it and hedges the rest again (hedge_worker.py:863-872).
   */
  lemma LateRestUncounted(c: Case, x: real)
    requires 0.0 < x < c.q && 2 <= c.limit
    ensures var events := WholeRun(c, SOK, LateRestEvents(c, x), x);
      Overhedges(c, events, 2.0 * c.q - x) && !SafeRun(Init(c.limit), events)
  {
    var order := Live(c.q, x, true);
    var sub, intent := Settled(c, SOK, x), Credited(c, x).(status := Retry);
    var events := WholeRun(c, SOK, LateRestEvents(c, x), x);
    LateRestLeads(c, x);
    CreditedPartly(c, x);
    hide Leads, Twice, Recovered, During, FillEvents, SubmitEvents, AgainEvents, LostEvents, RecoverEvents, Credited;
    Whole(c, SOK, LateRestEvents(c, x), sub, intent, order, x);
    Counts(c, events, sub, intent, order, Live(c.q - x, c.q - x, true));
    NotSafe(c, events, 2.0 * c.q - x);
  }

  lemma LateRestLeads(c: Case, x: real)
    requires 0.0 < x < c.q
    ensures Leads(During(c, Sent(c, SOK, Submitting, None), InFlight, None, Sending(0)), LateRestEvents(c, x),
                  Recovered(c, Settled(c, SOK, x), Credited(c, x).(status := Retry), Live(c.q, x, true)), false)
  {
    var order := Live(c.q, x, true);
    Executes(c, Live(0.0, 0.0, true), x, false, false);
    Executes(c, Live(x, x, true), c.q - x, true, false);
    RecoversRows(c, order, x);
    hide Step, Leads, Waiting, Recovered, Settled, Credited, RecoverEvents, LostEvents;
    TwoSteps(Waiting(c, Live(0.0, 0.0, true)), Venue(0, Execute(x, true)), Waiting(c, Live(x, x, true)),
             Venue(0, Execute(c.q - x, false)), Waiting(c, order), false);
    LostLeads(c, [Venue(0, Execute(x, true)), Venue(0, Execute(c.q - x, false))], order, RecoverEvents(c, order, x),
              Recovered(c, Settled(c, SOK, x), Credited(c, x).(status := Retry), order));
  }

  // The order executes between the two requests of one search.

  function MeanwhileEvents(c: Case, x: real): seq<Event>
  {
    LostEvents([Venue(0, Execute(x, true))],
               [ReadRows(c, x), Venue(0, Execute(c.q - x, true))] + FindEvents(c, Live(c.q, c.q, true), x))
  }

  /**
   * The response is lost. The order executes x, and the search reads that; before it reads the book the
   * order executes the rest and leaves the book. The submission is settled with x (hedge_worker.py:843-862,
   * 907-922) and the rest hedged again. All executions are inside the search window.
   */
  lemma RestExecutesMeanwhile(c: Case, x: real)
    requires 0.0 < x < c.q && 2 <= c.limit
    ensures var events := WholeRun(c, SOK, MeanwhileEvents(c, x), x);
      Overhedges(c, events, 2.0 * c.q - x) && !SafeRun(Init(c.limit), events)
  {
    var order := Live(c.q, c.q, true);
    var sub, intent := Settled(c, SOK, x), Credited(c, x).(status := Retry);
    var events := WholeRun(c, SOK, MeanwhileEvents(c, x), x);
    MeanwhileLeads(c, x);
    CreditedPartly(c, x);
    hide Leads, Twice, Recovered, During, FillEvents, SubmitEvents, AgainEvents, MeanwhileEvents, Credited;
    Whole(c, SOK, MeanwhileEvents(c, x), sub, intent, order, x);
    Counts(c, events, sub, intent, order, Live(c.q - x, c.q - x, true));
    NotSafe(c, events, 2.0 * c.q - x);
  }

  lemma MeanwhileLeads(c: Case, x: real)
    requires 0.0 < x < c.q
    ensures Leads(During(c, Sent(c, SOK, Submitting, None), InFlight, None, Sending(0)), MeanwhileEvents(c, x),
                  Recovered(c, Settled(c, SOK, x), Credited(c, x).(status := Retry), Live(c.q, c.q, true)), false)
  {
    var some, all, rows := Live(x, x, true), Live(c.q, c.q, true), [ListedRow(c, x)];
    var end := Recovered(c, Settled(c, SOK, x), Credited(c, x).(status := Retry), all);
    Executes(c, Live(0.0, 0.0, true), x, false, false);
    OneStep(Waiting(c, Live(0.0, 0.0, true)), Venue(0, Execute(x, true)), Waiting(c, some), false);
    ReadsRows(c, some, x);
    ExecutesMeanwhile(c, some, rows, c.q - x);
    FindsAndSettles(c, all, x);
    hide Step, Leads, Waiting, Lost, Searching, Recovered, Settled, Credited, FindEvents, LostEvents, ListedRow;
    TwoSteps(Lost(c, some), ReadRows(c, x), Searching(c, some, rows), Venue(0, Execute(c.q - x, true)), Searching(c, all, rows), false);
    Then(Lost(c, some), [ReadRows(c, x), Venue(0, Execute(c.q - x, true))], Searching(c, all, rows),
         FindEvents(c, all, x), end, false);
    LostLeads(c, [Venue(0, Execute(x, true))], some,
              [ReadRows(c, x), Venue(0, Execute(c.q - x, true))] + FindEvents(c, all, x), end);
  }

  function MissedEvents(c: Case): seq<Event>
  {
    LostEvents([], [READ_NOTHING, Venue(0, Execute(c.q, true))] + FIND_NOTHING)
  }

  /**
   * The response is lost and the order rests. The search reads the executions, of which there are none;
   * before it reads the book the order executes and leaves the book. The order is taken to be absent
   * (hedge_worker.py:902-905) and everything is hedged again, although both listings cover the window.
   */
  lemma ExecutionMissedMeanwhile(c: Case)
    requires 0.0 < c.q && 2 <= c.limit
    ensures var events := WholeRun(c, SOK, MissedEvents(c), 0.0);
      Overhedges(c, events, 2.0 * c.q) && !SafeRun(Init(c.limit), events)
  {
    var order := Live(c.q, c.q, true);
    var sub, intent := Sent(c, SOK, Absent, None), Asked(c, Retry, 1);
    var events := WholeRun(c, SOK, MissedEvents(c), 0.0);
    MissedLeads(c);
    hide Leads, Twice, Recovered, During, FillEvents, SubmitEvents, AgainEvents, MissedEvents;
    Whole(c, SOK, MissedEvents(c), sub, intent, order, 0.0);
    Counts(c, events, sub, intent, order, Live(c.q - 0.0, c.q - 0.0, true));
    NotSafe(c, events, 2.0 * c.q);
  }

  lemma MissedLeads(c: Case)
    requires 0.0 < c.q
    ensures Leads(During(c, Sent(c, SOK, Submitting, None), InFlight, None, Sending(0)), MissedEvents(c),
                  Recovered(c, Sent(c, SOK, Absent, None), Asked(c, Retry, 1), Live(c.q, c.q, true)), false)
  {
    var none, all := Live(0.0, 0.0, true), Live(c.q, c.q, true);
    ReadsNothing(c, none);
    ExecutesMeanwhile(c, none, [], c.q);
    FindsNothingAndRetries(c, all);
    assert Leads(Waiting(c, none), [], Waiting(c, none), false);
    assert Unhedged(c, all) == Recovered(c, Sent(c, SOK, Absent, None), Asked(c, Retry, 1), all);
    hide Step, Leads, Waiting, Lost, Searching, Recovered, Unhedged, LostEvents, READ_NOTHING, FIND_NOTHING;
    TwoSteps(Lost(c, none), READ_NOTHING, Searching(c, none, []), Venue(0, Execute(c.q, true)), Searching(c, all, []), false);
    Then(Lost(c, none), [READ_NOTHING, Venue(0, Execute(c.q, true))], Searching(c, all, []), FIND_NOTHING, Unhedged(c, all), false);
    LostLeads(c, [], none, [READ_NOTHING, Venue(0, Execute(c.q, true))] + FIND_NOTHING, Unhedged(c, all));
  }

  function StaleEvents(c: Case, x: real): seq<Event>
  {
    ACKNOWLEDGE + ([Venue(0, Execute(x, true)), Venue(0, Execute(c.q - x, true))] + ReportEvents(c, x))
  }

  /**
   * Nothing is lost. The executions of an immediate order are listed when x is executed, the rest
   * executes, and the status read next is terminal: the x is taken for the whole (hedge_worker.py:1044-1069),
   * and the rest is hedged again.
   */
  lemma StaleReport(c: Case, x: real)
    requires 0.0 < x < c.q && 2 <= c.limit
    ensures var events := WholeRun(c, FAK, StaleEvents(c, x), x);
      Overhedges(c, events, 2.0 * c.q - x) && !SafeRun(Init(c.limit), events)
  {
    var order := Live(c.q, c.q, true);
    var sub, intent := Settled(c, FAK, x), Credited(c, x).(status := Retry);
    var events := WholeRun(c, FAK, StaleEvents(c, x), x);
    StaleLeads(c, x);
    CreditedPartly(c, x);
    hide Leads, Twice, Recovered, During, FillEvents, SubmitEvents, AgainEvents, StaleEvents, Credited;
    Whole(c, FAK, StaleEvents(c, x), sub, intent, order, x);
    Counts(c, events, sub, intent, order, Live(c.q - x, c.q - x, true));
    NotSafe(c, events, 2.0 * c.q - x);
  }

  /** The order executes x, and then the rest. */
  lemma WorksInTwo(c: Case, kind: Kind, x: real)
    requires 0.0 < x < c.q
    ensures Leads(Working(c, kind, Live(0.0, 0.0, true), 1), [Venue(0, Execute(x, true)), Venue(0, Execute(c.q - x, true))],
                  Working(c, kind, Live(c.q, c.q, true), 1), false)
  {
    var none, half := Working(c, kind, Live(0.0, 0.0, true), 1), Working(c, kind, Live(x, x, true), 1);
    var full := Working(c, kind, Live(c.q, c.q, true), 1);
    Works(c, kind, Live(0.0, 0.0, true), x);
    Works(c, kind, Live(x, x, true), c.q - x);
    hide Step, Leads, Working;
    TwoSteps(none, Venue(0, Execute(x, true)), half, Venue(0, Execute(c.q - x, true)), full, true);
    Unsafe(none, [Venue(0, Execute(x, true)), Venue(0, Execute(c.q - x, true))], full);
  }

  lemma StaleIs(c: Case, x: real)
    requires 0.0 < x < c.q
    ensures ReportedStatus(c, x) == Retry
    ensures StaleEvents(c, x)
         == ACKNOWLEDGE + ([Venue(0, Execute(x, true)), Venue(0, Execute(c.q - x, true))] + ReportEvents(c, x))
  {
  }

  lemma StaleLeads(c: Case, x: real)
    requires 0.0 < x < c.q
    ensures Leads(During(c, Sent(c, FAK, Submitting, None), InFlight, None, Sending(0)), StaleEvents(c, x),
                  Recovered(c, Settled(c, FAK, x), Credited(c, x).(status := Retry), Live(c.q, c.q, true)), false)
  {
    var begin := During(c, Sent(c, FAK, Submitting, None), InFlight, None, Sending(0));
    var working, full := Working(c, FAK, Live(0.0, 0.0, true), 1), Working(c, FAK, Live(c.q, c.q, true), 1);
    var executions := [Venue(0, Execute(x, true)), Venue(0, Execute(c.q - x, true))];
    Acknowledges(c, FAK);
    WorksInTwo(c, FAK, x);
    Reports(c, FAK, x, false);
    hide *;
    StaleIs(c, x);
    Unsafe(begin, ACKNOWLEDGE, working);
    Three(begin, ACKNOWLEDGE, working, executions, full, ReportEvents(c, x),
          Recovered(c, Settled(c, FAK, x), Credited(c, x).(status := Retry), Live(c.q, c.q, true)));
  }

  // ----- when it is possible at all -----

  ghost predicate OverHedgesAt(limit: nat, events: seq<Event>, key: Key)
  {
    Feasible(Init(limit), events)
    && var s := After(Init(limit), events);
       |s.orders| == |s.store.submissions| && Total(ExecutedAt(key), Pairs(s)) > Total(QtyAt(key), s.store.intents)
  }

  /** Some run hedges too much if and only if an intent may be attempted twice. */
  lemma OverHedgeIff(limit: nat)
    ensures (exists events, key :: OverHedgesAt(limit, events, key)) <==> limit >= 2
  {
    if limit >= 2 {
      var c := Case("c", "o", "t", "s", 2.0, 1.0, limit);
      RestingOrderSettled(c, 1.0);
      assert OverHedgesAt(limit, RestingRun(c, 1.0), c.Key());
    } else {
      forall events, key | Feasible(Init(limit), events) ensures !OverHedgesAt(limit, events, key) {
        OneAttemptIsSafe(limit, events, key);
      }
    }
  }
}
