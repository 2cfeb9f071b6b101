/**
 * Client orders and their fills: the order machine, idempotent ingestion, and the meeting of
 * WebSocket and REST reports (state_store.py:265-382, fill_tracker.py:55-75 and 307-330).
 */
module Fills {
  import opened Domain
  import opened Sums
  import opened Store

  // ----- the order machine -----

  datatype OrderStep =
    | Create(client: string, symbol: string, side: Side, qty: real, price: real)
    | Move(client: string, target: OrderState, exchangeId: Option<string>)
    | Fill(event: FillEvent)

  /** One call on the store; a call that raises leaves the tables as they were. */
  function Apply(s: Tables, step: OrderStep): Tables
  {
    match step
    case Create(client, symbol, side, qty, price) => CreateOrder(s, client, symbol, side, qty, price)
    case Move(client, target, id) =>
      var r := TransitionOrder(s, client, target, id);
      if r.Ok? then r.value else s
    case Fill(event) =>
      var r := RecordFill(s, event);
      if r.Ok? then r.value.store else s
  }

  function ApplyAll(s: Tables, steps: seq<OrderStep>): Tables
    decreases |steps|
  {
    if steps == [] then s else ApplyAll(Apply(s, steps[0]), steps[1..])
  }

  predicate PositiveOrders(steps: seq<OrderStep>)
  {
    forall k :: 0 <= k < |steps| && steps[k].Create? ==> steps[k].qty > 0.0
  }

  predicate RowOk(row: OrderRow)
  {
    && row.qty > 0.0 && row.cumulative >= 0.0
    && (row.cumulative >= row.qty ==> row.state == Filled || row.state == Canceled)
    && (row.cumulative > 0.0 ==> row.state != New && row.state != Placing)
  }

  predicate OrdersOk(s: Tables)
  {
    forall c :: c in s.orders ==> RowOk(s.orders[c])
  }

  /** How one order may differ later: terminal states stay, and the filled quantity never shrinks. */
  predicate Later(a: OrderRow, b: OrderRow)
  {
    && b.symbol == a.symbol && b.side == a.side && b.qty == a.qty && b.price == a.price
    && a.cumulative <= b.cumulative
    && (Terminal(a.state) ==> b.state == a.state)
  }

  predicate OrdersLater(a: Tables, b: Tables)
  {
    forall c :: c in a.orders ==> c in b.orders && Later(a.orders[c], b.orders[c])
  }

  lemma StepOk(s: Tables, step: OrderStep, t: Tables)
    requires OrdersOk(s) && t == Apply(s, step) && (step.Create? ==> step.qty > 0.0)
    ensures OrdersOk(t) && OrdersLater(s, t)
  {
    match step
    case Create(client, symbol, side, qty, price) =>
    case Move(client, target, id) => MoveOk(s, client, target, id, t);
    case Fill(event) => FillOk(s, event, t);
  }

  lemma MoveOk(s: Tables, client: string, target: OrderState, id: Option<string>, t: Tables)
    requires OrdersOk(s)
    requires t == var r := TransitionOrder(s, client, target, id); if r.Ok? then r.value else s
    ensures OrdersOk(t) && OrdersLater(s, t)
  {
  }

  lemma FillOk(s: Tables, e: FillEvent, t: Tables)
    requires OrdersOk(s)
    requires t == var r := RecordFill(s, e); if r.Ok? then r.value.store else s
    ensures OrdersOk(t) && OrdersLater(s, t)
  {
    if t != s {
      var before, after := s.orders[e.client], t.orders[e.client];
      assert RowOk(before);
      assert RowOk(after) && Later(before, after);
    }
  }

  lemma LaterChains(a: Tables, b: Tables, c: Tables)
    requires OrdersLater(a, b) && OrdersLater(b, c)
    ensures OrdersLater(a, c)
  {
    forall k | k in a.orders ensures k in c.orders && Later(a.orders[k], c.orders[k]) {
      assert k in b.orders && Later(a.orders[k], b.orders[k]) && Later(b.orders[k], c.orders[k]);
    }
  }

  lemma {:induction false} OrderMachine(s: Tables, steps: seq<OrderStep>)
    requires OrdersOk(s) && PositiveOrders(steps)
    ensures OrdersOk(ApplyAll(s, steps)) && OrdersLater(s, ApplyAll(s, steps))
    decreases |steps|
  {
    if steps != [] {
      var t := Apply(s, steps[0]);
      StepOk(s, steps[0], t);
      OrderMachine(t, steps[1..]);
      LaterChains(s, t, ApplyAll(s, steps));
    }
  }

  // ----- what the fill tables keep -----

  function IncrementOf(client: string): FillRow -> real
  {
    (f: FillRow) => if f.event.client == client then f.incremental else 0.0
  }

  predicate FillRowOk(orders: map<string, OrderRow>, f: FillRow)
  {
    f.event.client in orders && f.event.cumulative <= orders[f.event.client].cumulative && 0.0 <= f.incremental
  }

  /** The hedge intent a fill calls for: the opposite side, the fill's own quantity. */
  predicate Mirrors(i: Intent, fills: seq<FillRow>)
  {
    && i.fillId < |fills| && fills[i.fillId].incremental > 0.0
    && i.qty == fills[i.fillId].incremental
    && i.key == Key(fills[i.fillId].event.symbol, fills[i.fillId].event.side.Opposite())
  }

  predicate HasIntent(intents: seq<Intent>, k: nat)
  {
    exists i :: 0 <= i < |intents| && intents[i].fillId == k
  }

  ghost predicate FillTableOk(s: Tables)
  {
    && (forall k :: 0 <= k < |s.fills| ==> FillRowOk(s.orders, s.fills[k]))
    && (forall j, k :: 0 <= j < k < |s.fills| ==> !SameTrade(s.fills[j].event, s.fills[k].event))
    && (forall c :: c in s.orders ==> s.orders[c].cumulative == Total(IncrementOf(c), s.fills))
  }

  /** Every positive fill has exactly one intent, and there are no others. */
  predicate IntentTableOk(intents: seq<Intent>, fills: seq<FillRow>)
  {
    && (forall i :: 0 <= i < |intents| ==> Mirrors(intents[i], fills))
    && (forall i, j :: 0 <= i < j < |intents| ==> intents[i].fillId != intents[j].fillId)
    && (forall k :: 0 <= k < |fills| && fills[k].incremental > 0.0 ==> HasIntent(intents, k))
  }

  ghost predicate FillsOk(s: Tables)
  {
    FillTableOk(s) && IntentTableOk(s.intents, s.fills)
  }

  /** A fill is refused exactly for an unknown order, or one that is NEW or FAILED. */
  lemma RefusedIff(s: Tables, e: FillEvent)
    ensures RecordFill(s, e).Ok? <==>
      Recorded(s.fills, e) || (e.client in s.orders && s.orders[e.client].state != New && s.orders[e.client].state != Failed)
  {
  }

  lemma RecordKeepsTable(s: Tables, e: FillEvent)
    requires FillTableOk(s) && RecordFill(s, e).Ok?
    ensures FillTableOk(RecordFill(s, e).value.store)
  {
    var t := RecordFill(s, e).value.store;
    if t.fills != s.fills {
      var row := FillRow(e, Max(0.0, e.cumulative - s.orders[e.client].cumulative));
      assert t.fills == s.fills + [row];
      forall c | c in t.orders ensures t.orders[c].cumulative == Total(IncrementOf(c), t.fills) {
        TotalAppend(IncrementOf(c), s.fills, row);
      }
    }
  }

  lemma IntentsFrame(intents: seq<Intent>, fills: seq<FillRow>, row: FillRow)
    requires IntentTableOk(intents, fills) && row.incremental <= 0.0
    ensures IntentTableOk(intents, fills + [row])
  {
    forall i | 0 <= i < |intents| ensures Mirrors(intents[i], fills + [row]) {
      assert Mirrors(intents[i], fills);
    }
    forall k | 0 <= k < |fills + [row]| && (fills + [row])[k].incremental > 0.0 ensures HasIntent(intents, k) {
      assert fills[k].incremental > 0.0;
    }
  }

  lemma IntentsGrow(intents: seq<Intent>, fills: seq<FillRow>, row: FillRow)
    requires IntentTableOk(intents, fills) && row.incremental > 0.0
    ensures IntentTableOk(intents + [NewIntent(|fills|, row.event, row.incremental)], fills + [row])
  {
    var next := intents + [NewIntent(|fills|, row.event, row.incremental)];
    forall i | 0 <= i < |next| ensures Mirrors(next[i], fills + [row]) {
      if i < |intents| {
        assert Mirrors(intents[i], fills);
      }
    }
    forall i, j | 0 <= i < j < |next| ensures next[i].fillId != next[j].fillId {
      assert Mirrors(intents[i], fills);
    }
    forall k | 0 <= k < |fills + [row]| && (fills + [row])[k].incremental > 0.0 ensures HasIntent(next, k) {
      if k < |fills| {
        assert HasIntent(intents, k);
        var i :| 0 <= i < |intents| && intents[i].fillId == k;
        assert next[i] == intents[i];
      } else {
        assert next[|intents|].fillId == k;
      }
    }
  }

  lemma RecordKeepsFills(s: Tables, e: FillEvent)
    requires FillsOk(s) && RecordFill(s, e).Ok?
    ensures FillsOk(RecordFill(s, e).value.store)
  {
    var t := RecordFill(s, e).value.store;
    RecordKeepsTable(s, e);
    if t.fills != s.fills {
      if t.intents == s.intents {
        IntentsFrame(s.intents, s.fills, t.fills[|s.fills|]);
      } else {
        IntentsGrow(s.intents, s.fills, t.fills[|s.fills|]);
      }
    }
  }

  /** Quantity the hedge side has been asked for on behalf of one client order. */
  function IntentQty(intents: seq<Intent>, fills: seq<FillRow>, client: string): real
  {
    if intents == [] then 0.0
    else
      var i := intents[|intents| - 1];
      IntentQty(intents[..|intents| - 1], fills, client)
      + if i.fillId < |fills| && fills[i.fillId].event.client == client then i.qty else 0.0
  }

  ghost predicate Covered(s: Tables)
  {
    forall c :: c in s.orders ==> IntentQty(s.intents, s.fills, c) == s.orders[c].cumulative
  }

  lemma {:induction false} IntentQtyFrame(intents: seq<Intent>, fills: seq<FillRow>, row: FillRow, client: string)
    requires forall i :: 0 <= i < |intents| ==> intents[i].fillId < |fills|
    ensures IntentQty(intents, fills + [row], client) == IntentQty(intents, fills, client)
    decreases |intents|
  {
    if intents != [] {
      IntentQtyFrame(intents[..|intents| - 1], fills, row, client);
    }
  }

  lemma RecordKeepsCover(s: Tables, e: FillEvent)
    requires FillsOk(s) && Covered(s) && RecordFill(s, e).Ok?
    ensures Covered(RecordFill(s, e).value.store)
  {
    var t := RecordFill(s, e).value.store;
    if t.fills != s.fills {
      var row := t.fills[|s.fills|];
      forall c | c in t.orders ensures IntentQty(t.intents, t.fills, c) == t.orders[c].cumulative {
        assert IntentQty(s.intents, s.fills, c) == s.orders[c].cumulative;
        forall i | 0 <= i < |s.intents| ensures s.intents[i].fillId < |s.fills| { assert Mirrors(s.intents[i], s.fills); }
        IntentQtyFrame(s.intents, s.fills, row, c);
        if t.intents != s.intents {
          assert t.intents[..|t.intents| - 1] == s.intents;
        }
      }
    }
  }

  // ----- ingestion -----

  /** A source's events, in order; the first one the store refuses ends the sweep. */
  function IngestAll(s: Tables, events: seq<FillEvent>): Tables
    decreases |events|
  {
    if events == [] then s
    else
      var r := RecordFill(s, events[0]);
      if r.Err? then s else IngestAll(r.value.store, events[1..])
  }

  predicate Accepts(s: Tables, client: string)
  {
    client in s.orders && s.orders[client].state != New && s.orders[client].state != Failed
  }

  predicate Ingestible(s: Tables, events: seq<FillEvent>)
  {
    forall k :: 0 <= k < |events| ==> Accepts(s, events[k].client)
  }

  /** Reports of one trade agree with each other and with what is already recorded. */
  predicate Consistent(s: Tables, events: seq<FillEvent>)
  {
    && (forall j, k :: 0 <= j < |events| && 0 <= k < |events| && SameTrade(events[j], events[k]) ==>
          events[j].client == events[k].client && events[j].cumulative == events[k].cumulative)
    && (forall j, k :: 0 <= j < |s.fills| && 0 <= k < |events| && SameTrade(s.fills[j].event, events[k]) ==>
          s.fills[j].event.client == events[k].client && s.fills[j].event.cumulative == events[k].cumulative)
  }

  /** The largest cumulative quantity reported for a client order, at least `base`. */
  function Highest(base: real, events: seq<FillEvent>, client: string): real
    decreases |events|
  {
    if events == [] then base
    else Highest(if events[0].client == client then Max(base, events[0].cumulative) else base, events[1..], client)
  }

  lemma {:induction false} HighestBounds(base: real, events: seq<FillEvent>, client: string)
    ensures var h := Highest(base, events, client);
      && base <= h
      && (forall k :: 0 <= k < |events| && events[k].client == client ==> events[k].cumulative <= h)
      && (h == base || exists k :: 0 <= k < |events| && events[k].client == client && events[k].cumulative == h)
    decreases |events|
  {
    if events != [] {
      var next := if events[0].client == client then Max(base, events[0].cumulative) else base;
      HighestBounds(next, events[1..], client);
      var h := Highest(base, events, client);
      forall k | 0 <= k < |events| && events[k].client == client ensures events[k].cumulative <= h {
        if k > 0 {
          assert events[1..][k - 1] == events[k];
        }
      }
      if h != next {
        var k :| 0 <= k < |events[1..]| && events[1..][k].client == client && events[1..][k].cumulative == h;
        assert events[k + 1] == events[1..][k];
      }
    }
  }

  /** What one accepted event does to any order's cumulative quantity. */
  lemma RecordCumulative(s: Tables, e: FillEvent, client: string)
    requires FillsOk(s) && Accepts(s, e.client) && client in s.orders
    requires forall j :: 0 <= j < |s.fills| && SameTrade(s.fills[j].event, e) ==>
               s.fills[j].event.client == e.client && s.fills[j].event.cumulative == e.cumulative
    ensures RecordFill(s, e).Ok?
    ensures var t := RecordFill(s, e).value.store;
      && client in t.orders
      && t.orders[client].cumulative
         == if e.client == client then Max(s.orders[client].cumulative, e.cumulative) else s.orders[client].cumulative
  {
    RefusedIff(s, e);
    if Recorded(s.fills, e) {
      var k :| 0 <= k < |s.fills| && SameTrade(s.fills[k].event, e);
      assert FillRowOk(s.orders, s.fills[k]);
    }
  }

  lemma RecordStays(s: Tables, events: seq<FillEvent>)
    requires events != [] && Ingestible(s, events) && Consistent(s, events)
    ensures RecordFill(s, events[0]).Ok?
    ensures var t := RecordFill(s, events[0]).value.store;
      Ingestible(t, events[1..]) && Consistent(t, events[1..]) && t.orders.Keys == s.orders.Keys
  {
    RefusedIff(s, events[0]);
    var t := RecordFill(s, events[0]).value.store;
    forall k | 0 <= k < |events[1..]| ensures Accepts(t, events[1..][k].client) {
      assert Accepts(s, events[k + 1].client);
    }
  }

  /** Ingestion leaves the maximum reported quantity, and that much has been asked of the hedge. */
  lemma {:induction false} IngestHighest(s: Tables, events: seq<FillEvent>, client: string)
    requires FillsOk(s) && Covered(s) && Ingestible(s, events) && Consistent(s, events) && client in s.orders
    ensures var t := IngestAll(s, events);
      && FillsOk(t) && client in t.orders
      && t.orders[client].cumulative == Highest(s.orders[client].cumulative, events, client)
      && Total(IncrementOf(client), t.fills) == t.orders[client].cumulative
      && IntentQty(t.intents, t.fills, client) == t.orders[client].cumulative
    decreases |events|
  {
    if events == [] {
      assert IntentQty(s.intents, s.fills, client) == s.orders[client].cumulative;
    } else {
      RecordCumulative(s, events[0], client);
      RecordStays(s, events);
      RecordKeepsFills(s, events[0]);
      RecordKeepsCover(s, events[0]);
      IngestHighest(RecordFill(s, events[0]).value.store, events[1..], client);
    }
  }

  predicate SameEvents(first: seq<FillEvent>, second: seq<FillEvent>)
  {
    && (forall k :: 0 <= k < |first| ==> first[k] in second)
    && (forall k :: 0 <= k < |second| ==> second[k] in first)
  }

  lemma HighestAtMost(base: real, first: seq<FillEvent>, second: seq<FillEvent>, client: string)
    requires forall k :: 0 <= k < |first| ==> first[k] in second
    ensures Highest(base, first, client) <= Highest(base, second, client)
  {
    HighestBounds(base, first, client);
    HighestBounds(base, second, client);
    var h := Highest(base, first, client);
    if h != base {
      var k :| 0 <= k < |first| && first[k].client == client && first[k].cumulative == h;
      var j :| 0 <= j < |second| && second[j] == first[k];
    }
  }

  lemma SameEventsOk(s: Tables, first: seq<FillEvent>, second: seq<FillEvent>)
    requires SameEvents(first, second) && Ingestible(s, first) && Consistent(s, first)
    ensures Ingestible(s, second) && Consistent(s, second)
  {
  }

  /** Order and repetition of reports do not matter: the same set of events leaves the same totals. */
  lemma IngestOrderIndependent(s: Tables, first: seq<FillEvent>, second: seq<FillEvent>, client: string)
    requires FillsOk(s) && Covered(s) && client in s.orders
    requires Ingestible(s, first) && Consistent(s, first) && SameEvents(first, second)
    ensures var a, b := IngestAll(s, first), IngestAll(s, second);
      && client in a.orders && client in b.orders
      && a.orders[client].cumulative == b.orders[client].cumulative
      && IntentQty(a.intents, a.fills, client) == IntentQty(b.intents, b.fills, client)
  {
    SameEventsOk(s, first, second);
    IngestHighest(s, first, client);
    IngestHighest(s, second, client);
    HighestAtMost(s.orders[client].cumulative, first, second, client);
    HighestAtMost(s.orders[client].cumulative, second, first, client);
  }

  /** Ingesting the same reports again changes nothing. */
  lemma {:induction false} IngestAgain(s: Tables, events: seq<FillEvent>)
    requires forall k :: 0 <= k < |events| ==> Recorded(s.fills, events[k])
    ensures IngestAll(s, events) == s
    decreases |events|
  {
    if events != [] {
      forall k | 0 <= k < |events[1..]| ensures Recorded(s.fills, events[1..][k]) {
        assert Recorded(s.fills, events[k + 1]);
      }
      IngestAgain(s, events[1..]);
    }
  }

  // ----- repairing legacy fills -----

  /** Intents all mirror fills, none twice; some positive fills may still lack theirs. */
  predicate IntentsPartial(intents: seq<Intent>, fills: seq<FillRow>)
  {
    && (forall i :: 0 <= i < |intents| ==> Mirrors(intents[i], fills))
    && (forall i, j :: 0 <= i < j < |intents| ==> intents[i].fillId != intents[j].fillId)
  }

  /** The startup repair completes the intent table, and touches nothing else. */
  lemma {:induction false} BackfillCompletes(s: Tables, k: nat)
    requires k <= |s.fills| && IntentsPartial(s.intents, s.fills)
    requires forall j :: 0 <= j < k && s.fills[j].incremental > 0.0 ==> HasIntent(s.intents, j)
    ensures IntentTableOk(Backfill(s, k).intents, s.fills)
    ensures var t := Backfill(s, k); t == s.(intents := t.intents) && s.intents <= t.intents
    decreases |s.fills| - k
  {
    hide Mirrors;
    if k < |s.fills| {
      if s.fills[k].incremental <= 0.0 || HasIntent(s.intents, k) {
        BackfillCompletes(s, k + 1);
      } else {
        BackfillOne(s.intents, s.fills, k);
        BackfillCompletes(s.(intents := s.intents + [NewIntent(k, s.fills[k].event, s.fills[k].incremental)]), k + 1);
      }
    }
  }

  /** A complete table is left alone, so a second repair does nothing. */
  lemma {:induction false} BackfillIdle(s: Tables, k: nat)
    requires k <= |s.fills| && IntentTableOk(s.intents, s.fills)
    ensures Backfill(s, k) == s
    decreases |s.fills| - k
  {
    if k < |s.fills| {
      assert s.fills[k].incremental > 0.0 ==> HasIntent(s.intents, k);
      BackfillIdle(s, k + 1);
    }
  }

  lemma BackfillOne(intents: seq<Intent>, fills: seq<FillRow>, k: nat)
    requires k < |fills| && IntentsPartial(intents, fills) && fills[k].incremental > 0.0 && !HasIntent(intents, k)
    requires forall j :: 0 <= j < k && fills[j].incremental > 0.0 ==> HasIntent(intents, j)
    ensures var next := intents + [NewIntent(k, fills[k].event, fills[k].incremental)];
      IntentsPartial(next, fills) && forall j :: 0 <= j <= k && fills[j].incremental > 0.0 ==> HasIntent(next, j)
  {
    var next := intents + [NewIntent(k, fills[k].event, fills[k].incremental)];
    forall i | 0 <= i < |next| ensures Mirrors(next[i], fills) {
      if i < |intents| {
        assert Mirrors(intents[i], fills);
      }
    }
    forall j | 0 <= j <= k && fills[j].incremental > 0.0 ensures HasIntent(next, j) {
      if j < k {
        assert HasIntent(intents, j);
        var i :| 0 <= i < |intents| && intents[i].fillId == j;
        assert next[i] == intents[i];
      } else {
        assert next[|intents|].fillId == j;
      }
    }
  }
}
