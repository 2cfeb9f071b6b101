/**
 * The REST fallback: each sweep replays an order's trades with running sums, and meets reports
 * that arrived earlier over the WebSocket or in earlier sweeps (fill_tracker.py:172-216, 307-330).
 */
module RestSweep {
  import opened Domain
  import opened Sums
  import opened Store
  import opened Fills
  import D = StateStore

  /** One matched trade of an order, in the sorted order of the sweep. */
  datatype Match = Match(tradeId: string, amount: real, price: real, fee: real)

  function AmountOf(): Match -> real { (m: Match) => m.amount }

  function Event(client: string, orderId: string, row: OrderRow, m: Match, cumulative: real): FillEvent
  {
    FillEvent(client, orderId, VenueTrade(m.tradeId), row.symbol, row.side, cumulative, m.price, m.fee)
  }

  /** Trade k is reported with the sum of the amounts up to and including its own. */
  function SweepEvents(client: string, orderId: string, row: OrderRow, matches: seq<Match>, before: real): (r: seq<FillEvent>)
    ensures |r| == |matches|
    decreases |matches|
  {
    if matches == [] then []
    else
      [Event(client, orderId, row, matches[0], before + matches[0].amount)]
      + SweepEvents(client, orderId, row, matches[1..], before + matches[0].amount)
  }

  function RunningSum(matches: seq<Match>, k: nat): real
    requires k < |matches|
  {
    Total(AmountOf(), matches[..k + 1])
  }

  method ForOrder(client: string, orderId: string, row: OrderRow, matches: seq<Match>) returns (events: seq<FillEvent>)
    ensures events == SweepEvents(client, orderId, row, matches, 0.0)
  {
    events := [];
    var cumulative := 0.0;
    for k := 0 to |matches|
      invariant SweepEvents(client, orderId, row, matches, 0.0)
             == events + SweepEvents(client, orderId, row, matches[k..], cumulative)
    {
      cumulative := cumulative + matches[k].amount;
      assert matches[k..][1..] == matches[k + 1..];
      events := events + [Event(client, orderId, row, matches[k], cumulative)];
    }
  }

  /** The polling loop's ingestion of one sweep. */
  method IngestSweep(store: D.StateStore, events: seq<FillEvent>)
    modifies store
    ensures store.Value() == IngestAll(old(store.Value()), events)
  {
    for k := 0 to |events|
      invariant IngestAll(store.Value(), events[k..]) == IngestAll(old(store.Value()), events)
    {
      assert events[k..][1..] == events[k + 1..];
      var r := store.RecordCumulativeFill(events[k]);
      if r.Err? {
        return;
      }
    }
  }

  lemma {:induction false} SweepAt(
      client: string, orderId: string, row: OrderRow, matches: seq<Match>, before: real, k: nat)
    requires k < |matches|
    ensures SweepEvents(client, orderId, row, matches, before)[k]
         == Event(client, orderId, row, matches[k], before + RunningSum(matches, k))
    decreases |matches|
  {
    if k == 0 {
      assert matches[..1][1..] == [];
      assert Total(AmountOf(), matches[..1]) == AmountOf()(matches[..1][0]) + Total(AmountOf(), matches[..1][1..]);
    } else {
      SweepAt(client, orderId, row, matches[1..], before + matches[0].amount, k - 1);
      assert matches[..k + 1][1..] == matches[1..][..k];
    }
  }

  predicate Sweepable(matches: seq<Match>)
  {
    && (forall k :: 0 <= k < |matches| ==> matches[k].amount > 0.0)
    && (forall j, k :: 0 <= j < k < |matches| ==> matches[j].tradeId != matches[k].tradeId)
  }

  predicate Known(s: Tables, orderId: string, m: Match)
  {
    exists k :: 0 <= k < |s.fills| && ReportOf(s.fills[k].event, orderId, m)
  }

  predicate ReportOf(e: FillEvent, orderId: string, m: Match)
  {
    e.orderId == orderId && e.tradeId == VenueTrade(m.tradeId)
  }

  /** One sweep event: ignored if its trade is known, otherwise a maximum. */
  lemma SweepStep(s: Tables, client: string, orderId: string, row: OrderRow, m: Match, cumulative: real)
    requires FillsOk(s) && Covered(s) && Accepts(s, client)
    ensures var e := Event(client, orderId, row, m, cumulative);
      && RecordFill(s, e).Ok?
      && var t := RecordFill(s, e).value.store;
         && FillsOk(t) && Covered(t) && Accepts(t, client)
         && t.orders[client].cumulative
            == (if Known(s, orderId, m) then s.orders[client].cumulative else Max(s.orders[client].cumulative, cumulative))
  {
    var e := Event(client, orderId, row, m, cumulative);
    RefusedIff(s, e);
    RecordKeepsFills(s, e);
    RecordKeepsCover(s, e);
    if Known(s, orderId, m) {
      var k :| 0 <= k < |s.fills| && ReportOf(s.fills[k].event, orderId, m);
      assert SameTrade(s.fills[k].event, e);
    }
  }

  lemma StillUnknown(s: Tables, client: string, orderId: string, row: OrderRow, m: Match, cumulative: real, other: Match)
    requires RecordFill(s, Event(client, orderId, row, m, cumulative)).Ok? && other.tradeId != m.tradeId
    ensures Known(RecordFill(s, Event(client, orderId, row, m, cumulative)).value.store, orderId, other) <==> Known(s, orderId, other)
  {
    var t := RecordFill(s, Event(client, orderId, row, m, cumulative)).value.store;
    if Known(s, orderId, other) {
      var k :| 0 <= k < |s.fills| && ReportOf(s.fills[k].event, orderId, other);
      assert t.fills[k] == s.fills[k];
    }
  }

  function Swept(s: Tables, client: string, orderId: string, row: OrderRow, matches: seq<Match>, before: real): Tables
  {
    IngestAll(s, SweepEvents(client, orderId, row, matches, before))
  }

  lemma SweepUnfold(s: Tables, client: string, orderId: string, row: OrderRow, matches: seq<Match>, before: real)
    requires matches != []
    requires RecordFill(s, Event(client, orderId, row, matches[0], before + matches[0].amount)).Ok?
    ensures var sum := before + matches[0].amount;
      Swept(s, client, orderId, row, matches, before)
      == Swept(RecordFill(s, Event(client, orderId, row, matches[0], sum)).value.store, client, orderId, row, matches[1..], sum)
  {
    var sum := before + matches[0].amount;
    assert SweepEvents(client, orderId, row, matches, before)[1..] == SweepEvents(client, orderId, row, matches[1..], sum);
  }

  /** Whether the order ends at `total`: it is there already, or the last trade is news. */
  predicate Reaches(s: Tables, client: string, orderId: string, matches: seq<Match>, total: real)
    requires client in s.orders && matches != []
  {
    s.orders[client].cumulative == total || !Known(s, orderId, matches[|matches| - 1])
  }

  lemma FirstSum(matches: seq<Match>, before: real, total: real, sum: real)
    requires Sweepable(matches) && matches != [] && sum == before + matches[0].amount
    requires total == before + Total(AmountOf(), matches)
    ensures total == sum + Total(AmountOf(), matches[1..]) && Sweepable(matches[1..])
    ensures if |matches| == 1 then sum == total else sum < total
  {
    assert AmountOf()(matches[0]) == matches[0].amount;
    if |matches| == 1 {
      assert Total(AmountOf(), matches[1..]) == 0.0;
    } else {
      TotalPositive(matches[1..]);
    }
  }

  lemma SweptNone(s: Tables, client: string, orderId: string, row: OrderRow, matches: seq<Match>, before: real)
    requires matches == []
    ensures Swept(s, client, orderId, row, matches, before) == s
  {
  }

  /** The state after a sweep's first event, and what its last trade being known means there. */
  lemma SweepFirst(
      s: Tables, client: string, orderId: string, row: OrderRow, matches: seq<Match>, before: real, total: real,
      sum: real, t: Tables)
    requires FillsOk(s) && Covered(s) && Accepts(s, client) && Sweepable(matches) && matches != []
    requires total == before + Total(AmountOf(), matches) && s.orders[client].cumulative <= total
    requires sum == before + matches[0].amount
    requires RecordFill(s, Event(client, orderId, row, matches[0], sum)).Ok? ==>
               t == RecordFill(s, Event(client, orderId, row, matches[0], sum)).value.store
    ensures Swept(s, client, orderId, row, matches, before) == Swept(t, client, orderId, row, matches[1..], sum)
    ensures FillsOk(t) && Covered(t) && Accepts(t, client) && t.orders[client].cumulative <= total
    ensures |matches| == 1 ==> (t.orders[client].cumulative == total <==> Reaches(s, client, orderId, matches, total))
    ensures |matches| > 1 ==> (Reaches(t, client, orderId, matches[1..], total) <==> Reaches(s, client, orderId, matches, total))
  {
    hide FillsOk, Covered, RecordFill, Known, Swept, Total, Event;
    FirstSum(matches, before, total, sum);
    SweepStep(s, client, orderId, row, matches[0], sum);
    SweepUnfold(s, client, orderId, row, matches, before);
    if |matches| > 1 {
      StillUnknown(s, client, orderId, row, matches[0], sum, matches[|matches| - 1]);
      assert matches[1..][|matches| - 2] == matches[|matches| - 1];
    }
  }

  lemma {:induction false} SweepResult(
      s: Tables, client: string, orderId: string, row: OrderRow, matches: seq<Match>, before: real, total: real)
    requires FillsOk(s) && Covered(s) && Accepts(s, client) && Sweepable(matches) && matches != []
    requires total == before + Total(AmountOf(), matches) && s.orders[client].cumulative <= total
    ensures FillsOk(Swept(s, client, orderId, row, matches, before))
    ensures Covered(Swept(s, client, orderId, row, matches, before))
    ensures client in Swept(s, client, orderId, row, matches, before).orders
    ensures Swept(s, client, orderId, row, matches, before).orders[client].cumulative == total
       <==> Reaches(s, client, orderId, matches, total)
    decreases |matches|
  {
    hide FillsOk, Covered, RecordFill, Known, Swept, Total, Reaches;
    var sum := before + matches[0].amount;
    SweepStep(s, client, orderId, row, matches[0], sum);
    var t := RecordFill(s, Event(client, orderId, row, matches[0], sum)).value.store;
    SweepFirst(s, client, orderId, row, matches, before, total, sum, t);
    FirstSum(matches, before, total, sum);
    if |matches| > 1 {
      SweepResult(t, client, orderId, row, matches[1..], sum, total);
    } else {
      SweptNone(t, client, orderId, row, matches[1..], sum);
    }
  }

  /**
   * A full sweep brings the order and its hedge intents to the sum of the matched amounts if and
   * only if the order is already there, or the sweep's last trade has not been reported before.
   */
  lemma SweepConvergesIff(s: Tables, client: string, orderId: string, row: OrderRow, matches: seq<Match>)
    requires FillsOk(s) && Covered(s) && Accepts(s, client) && Sweepable(matches) && matches != []
    requires s.orders[client].cumulative <= Total(AmountOf(), matches)
    ensures var t := Swept(s, client, orderId, row, matches, 0.0);
      var total := Total(AmountOf(), matches);
      && client in t.orders
      && IntentQty(t.intents, t.fills, client) == t.orders[client].cumulative
      && (t.orders[client].cumulative == total
          <==> s.orders[client].cumulative == total || !Known(s, orderId, matches[|matches| - 1]))
  {
    SweepResult(s, client, orderId, row, matches, 0.0, Total(AmountOf(), matches));
    assert Covered(Swept(s, client, orderId, row, matches, 0.0));
  }

  lemma {:induction false} TotalPositive(matches: seq<Match>)
    requires matches != [] && forall k :: 0 <= k < |matches| ==> matches[k].amount > 0.0
    ensures Total(AmountOf(), matches) > 0.0
  {
    if |matches| > 1 {
      TotalPositive(matches[1..]);
    } else {
      assert matches[1..] == [];
    }
  }

  /** Earlier reports of a sweep's trades claim at least the running sum through their own trade. */
  predicate ReportsCover(s: Tables, client: string, orderId: string, matches: seq<Match>)
  {
    forall j, k :: 0 <= j < |s.fills| && 0 <= k < |matches| && ReportOf(s.fills[j].event, orderId, matches[k]) ==>
      s.fills[j].event.client == client && RunningSum(matches, k) <= s.fills[j].event.cumulative
  }

  /** After any such mixture of reports, a full sweep leaves exactly the sum of the matched amounts. */
  lemma SweepConverges(s: Tables, client: string, orderId: string, row: OrderRow, matches: seq<Match>)
    requires FillsOk(s) && Covered(s) && Accepts(s, client) && Sweepable(matches) && matches != []
    requires s.orders[client].cumulative <= Total(AmountOf(), matches) && ReportsCover(s, client, orderId, matches)
    ensures var t := Swept(s, client, orderId, row, matches, 0.0);
      && client in t.orders
      && t.orders[client].cumulative == Total(AmountOf(), matches)
      && IntentQty(t.intents, t.fills, client) == Total(AmountOf(), matches)
  {
    SweepConvergesIff(s, client, orderId, row, matches);
    var last := |matches| - 1;
    if Known(s, orderId, matches[last]) {
      var j :| 0 <= j < |s.fills| && ReportOf(s.fills[j].event, orderId, matches[last]);
      assert matches[..last + 1] == matches;
      assert FillRowOk(s.orders, s.fills[j]);
      assert RunningSum(matches, last) <= s.fills[j].event.cumulative;
    }
  }

  /** A later sweep that extends an earlier one repeats its reports unchanged. */
  lemma ExtendedSweepRepeats(client: string, orderId: string, row: OrderRow, shorter: seq<Match>, longer: seq<Match>, k: nat)
    requires shorter <= longer && k < |shorter|
    ensures SweepEvents(client, orderId, row, shorter, 0.0)[k] == SweepEvents(client, orderId, row, longer, 0.0)[k]
  {
    SweepAt(client, orderId, row, shorter, 0.0, k);
    SweepAt(client, orderId, row, longer, 0.0, k);
    assert shorter[..k + 1] == longer[..k + 1];
  }

  // ----- pushed reports and sweeps, interleaved -----

  /** One report of the private stream, or one sweep that reads the first n of the order's trades. */
  datatype Report = Pushed(event: FillEvent) | Sweep(n: nat)

  /**
   * What a report says of the order whose trades these are: it names the order's client, claims at
   * least the running sum through its trade, and no more than all trades. Others name another client.
   */
  predicate Honest(e: FillEvent, client: string, orderId: string, trades: seq<Match>)
  {
    if e.orderId == orderId
    then e.client == client && e.cumulative <= Total(AmountOf(), trades)
         && forall k :: 0 <= k < |trades| && ReportOf(e, orderId, trades[k]) ==> RunningSum(trades, k) <= e.cumulative
    else e.client != client
  }

  predicate ReportOk(r: Report, client: string, orderId: string, trades: seq<Match>)
  {
    match r
    case Pushed(e) => Honest(e, client, orderId, trades)
    case Sweep(n) => n <= |trades|
  }

  function EventsOf(r: Report, client: string, orderId: string, row: OrderRow, trades: seq<Match>): seq<FillEvent>
    requires ReportOk(r, client, orderId, trades)
  {
    match r
    case Pushed(e) => [e]
    case Sweep(n) => SweepEvents(client, orderId, row, trades[..n], 0.0)
  }

  function AfterReports(
    s: Tables, client: string, orderId: string, row: OrderRow, trades: seq<Match>, reports: seq<Report>): Tables
    requires forall k :: 0 <= k < |reports| ==> ReportOk(reports[k], client, orderId, trades)
    decreases |reports|
  {
    if reports == [] then s
    else AfterReports(IngestAll(s, EventsOf(reports[0], client, orderId, row, trades)), client, orderId, row, trades, reports[1..])
  }

  ghost predicate OnTheWay(s: Tables, client: string, orderId: string, trades: seq<Match>)
  {
    && FillsOk(s) && Covered(s) && Accepts(s, client)
    && s.orders[client].cumulative <= Total(AmountOf(), trades) && ReportsCover(s, client, orderId, trades)
  }

  /** What one recorded event does: its row is added, if any, and its client's quantity moves up to it. */
  lemma Recording(s: Tables, e: FillEvent, client: string)
    requires RecordFill(s, e).Ok? && Accepts(s, client)
    ensures var t := RecordFill(s, e).value.store;
      && |t.fills| <= |s.fills| + 1 && s.fills <= t.fills && (|s.fills| < |t.fills| ==> t.fills[|s.fills|].event == e)
      && Accepts(t, client) && s.orders[client].cumulative <= t.orders[client].cumulative
      && (t.orders[client].cumulative == s.orders[client].cumulative
          || (e.client == client && t.orders[client].cumulative == e.cumulative))
  {
    RefusedIff(s, e);
  }

  lemma EventKeeps(s: Tables, client: string, orderId: string, trades: seq<Match>, e: FillEvent)
    requires OnTheWay(s, client, orderId, trades) && Honest(e, client, orderId, trades) && RecordFill(s, e).Ok?
    ensures OnTheWay(RecordFill(s, e).value.store, client, orderId, trades)
    ensures s.orders[client].cumulative <= RecordFill(s, e).value.store.orders[client].cumulative
  {
    RecordKeepsFills(s, e);
    RecordKeepsCover(s, e);
    Recording(s, e, client);
    CoverGrows(s, RecordFill(s, e).value.store, client, orderId, trades, e);
    hide *;
    StillOnTheWay(s, RecordFill(s, e).value.store, client, orderId, trades, e);
  }

  lemma CoverGrows(s: Tables, t: Tables, client: string, orderId: string, trades: seq<Match>, e: FillEvent)
    requires ReportsCover(s, client, orderId, trades) && Honest(e, client, orderId, trades)
    requires |t.fills| <= |s.fills| + 1 && s.fills <= t.fills && (|s.fills| < |t.fills| ==> t.fills[|s.fills|].event == e)
    ensures ReportsCover(t, client, orderId, trades)
  {
    hide Total, RunningSum, AmountOf;
    forall j, k | 0 <= j < |t.fills| && 0 <= k < |trades| && ReportOf(t.fills[j].event, orderId, trades[k])
      ensures t.fills[j].event.client == client && RunningSum(trades, k) <= t.fills[j].event.cumulative
    {
      if j < |s.fills| {
        assert t.fills[j] == s.fills[j];
      }
    }
  }

  lemma StillOnTheWay(s: Tables, t: Tables, client: string, orderId: string, trades: seq<Match>, e: FillEvent)
    requires OnTheWay(s, client, orderId, trades) && Honest(e, client, orderId, trades)
    requires FillsOk(t) && Covered(t) && Accepts(t, client) && ReportsCover(t, client, orderId, trades)
    requires t.orders[client].cumulative == s.orders[client].cumulative
             || (e.client == client && t.orders[client].cumulative == e.cumulative)
    ensures OnTheWay(t, client, orderId, trades)
  {
    hide FillsOk, Covered, Total, RunningSum, ReportsCover, AmountOf, ReportOf;
  }

  lemma {:induction false} EventsKeep(s: Tables, client: string, orderId: string, trades: seq<Match>, events: seq<FillEvent>)
    requires OnTheWay(s, client, orderId, trades)
    requires forall k :: 0 <= k < |events| ==> Honest(events[k], client, orderId, trades)
    ensures OnTheWay(IngestAll(s, events), client, orderId, trades)
    ensures s.orders[client].cumulative <= IngestAll(s, events).orders[client].cumulative
    decreases |events|
  {
    hide OnTheWay, Honest, RecordFill;
    if events != [] && RecordFill(s, events[0]).Ok? {
      EventKeeps(s, client, orderId, trades, events[0]);
      EventsKeep(RecordFill(s, events[0]).value.store, client, orderId, trades, events[1..]);
    }
  }

  lemma {:induction false} PrefixTotal(trades: seq<Match>, n: nat)
    requires n <= |trades| && forall k :: 0 <= k < |trades| ==> trades[k].amount > 0.0
    ensures Total(AmountOf(), trades[..n]) <= Total(AmountOf(), trades)
    decreases |trades|
  {
    if n < |trades| {
      var front := trades[..|trades| - 1];
      PrefixTotal(front, n);
      assert front[..n] == trades[..n] && trades == front + [trades[|trades| - 1]];
      TotalAppend(AmountOf(), front, trades[|trades| - 1]);
    } else {
      assert trades[..n] == trades;
    }
  }

  /** Every event of a sweep is an honest report. */
  lemma SweepHonest(client: string, orderId: string, row: OrderRow, trades: seq<Match>, n: nat, k: nat)
    requires Sweepable(trades) && n <= |trades| && k < n
    ensures Honest(SweepEvents(client, orderId, row, trades[..n], 0.0)[k], client, orderId, trades)
  {
    SweepAt(client, orderId, row, trades[..n], 0.0, k);
    assert trades[..n][..k + 1] == trades[..k + 1];
    PrefixTotal(trades, k + 1);
    hide Total;
    var e := SweepEvents(client, orderId, row, trades[..n], 0.0)[k];
    forall j | 0 <= j < |trades| && ReportOf(e, orderId, trades[j]) ensures j == k {
    }
  }

  lemma ReportKeeps(s: Tables, client: string, orderId: string, row: OrderRow, trades: seq<Match>, r: Report)
    requires OnTheWay(s, client, orderId, trades) && Sweepable(trades) && ReportOk(r, client, orderId, trades)
    ensures var t := IngestAll(s, EventsOf(r, client, orderId, row, trades));
      OnTheWay(t, client, orderId, trades) && s.orders[client].cumulative <= t.orders[client].cumulative
  {
    var events := EventsOf(r, client, orderId, row, trades);
    forall k | 0 <= k < |events| ensures Honest(events[k], client, orderId, trades) {
      if r.Sweep? {
        SweepHonest(client, orderId, row, trades, r.n, k);
      }
    }
    hide OnTheWay, Honest, SweepEvents;
    EventsKeep(s, client, orderId, trades, events);
  }

  /**
   * Pushed reports and sweeps of growing or shrinking parts of the list, in any order and any number: from
   * the first sweep that reads all trades on, the order and its hedge intents are at their sum and stay there.
   */
  lemma {:induction false} RunConverges(
      s: Tables, client: string, orderId: string, row: OrderRow, trades: seq<Match>, reports: seq<Report>)
    requires OnTheWay(s, client, orderId, trades) && Sweepable(trades) && trades != []
    requires forall k :: 0 <= k < |reports| ==> ReportOk(reports[k], client, orderId, trades)
    ensures var t := AfterReports(s, client, orderId, row, trades, reports);
      && OnTheWay(t, client, orderId, trades) && s.orders[client].cumulative <= t.orders[client].cumulative
      && (Sweep(|trades|) in reports ==>
            && t.orders[client].cumulative == Total(AmountOf(), trades)
            && IntentQty(t.intents, t.fills, client) == Total(AmountOf(), trades))
    decreases |reports|
  {
    if reports != [] {
      ReportKeeps(s, client, orderId, row, trades, reports[0]);
      var m := IngestAll(s, EventsOf(reports[0], client, orderId, row, trades));
      if reports[0] == Sweep(|trades|) {
        assert trades[..|trades|] == trades;
        SweepConverges(s, client, orderId, row, trades);
      }
      RunConverges(m, client, orderId, row, trades, reports[1..]);
      var t := AfterReports(s, client, orderId, row, trades, reports);
      assert IntentQty(t.intents, t.fills, client) == t.orders[client].cumulative;
    }
  }

  lemma SweptKnown(s: Tables, client: string, orderId: string, row: OrderRow, m: Match)
    requires Accepts(s, client)
    ensures Known(Swept(s, client, orderId, row, [m], 0.0), orderId, m)
  {
    var e := Event(client, orderId, row, m, 0.0 + m.amount);
    RefusedIff(s, e);
    assert SweepEvents(client, orderId, row, [m], 0.0) == [e];
    var t := RecordFill(s, e).value.store;
    assert Swept(s, client, orderId, row, [m], 0.0) == IngestAll(t, [e][1..]) == t;
    if Recorded(s.fills, e) {
      var k :| 0 <= k < |s.fills| && SameTrade(s.fills[k].event, e);
      assert ReportOf(t.fills[k].event, orderId, m);
    } else {
      assert ReportOf(t.fills[|s.fills|].event, orderId, m);
    }
  }

  /** A trade that turns up late, in front of one already swept, is never fully counted. */
  lemma LateTradeLost(s: Tables, client: string, orderId: string, row: OrderRow, late: Match, last: Match)
    requires FillsOk(s) && Covered(s) && Accepts(s, client) && s.orders[client].cumulative == 0.0
    requires Sweepable([late, last])
    ensures var t := Swept(s, client, orderId, row, [last], 0.0);
      var u := Swept(t, client, orderId, row, [late, last], 0.0);
      && client in u.orders
      && u.orders[client].cumulative != late.amount + last.amount
  {
    hide FillsOk, Covered, RecordFill, Swept, SweepEvents, Known;
    var one := [last];
    assert one[1..] == [] && [late, last][1..] == one;
    var t := Swept(s, client, orderId, row, one, 0.0);
    var sum := 0.0 + last.amount;
    SweepStep(s, client, orderId, row, last, sum);
    var first := RecordFill(s, Event(client, orderId, row, last, sum)).value.store;
    assert Total(AmountOf(), one) == sum;
    SweepFirst(s, client, orderId, row, one, 0.0, sum, sum, first);
    SweptNone(first, client, orderId, row, one[1..], sum);
    assert t == first;
    SweptKnown(s, client, orderId, row, last);
    assert Total(AmountOf(), [late, last]) == late.amount + last.amount;
    SweepConvergesIff(t, client, orderId, row, [late, last]);
  }
}
