/**
 * The exception in PaperLedger.CanceledIsFinal is real: a cancel-all that clears the matcher while
 * an order is still being placed can later write CANCELED over a live order
 * (execution_gateway.py:93-112, 176-184 and 251-270).
 */
module PaperOvertaken {
  import opened Domain
  import opened Store
  import opened PaperQueue
  import opened PaperMatcher
  import opened PaperLedger

  /** The witness works for every client order id, symbol and print id. */
  datatype Names = Names(c: string, symbol: string, tradeId: string) {
    function Resting(): PaperOrder { PaperOrder(c, symbol, Sell, 100.0, 2.0, Front, 0.0, 0, true, 1) }

    function Lift(): Trade { Trade(symbol, 101.0, 1.0, Buy, tradeId) }

    function Row(state: OrderState, id: Option<string>): OrderRow
    {
      OrderRow(symbol, Sell, 2.0, 100.0, state, id, 0.0)
    }

    function Requests(stage: Stage, state: OrderState, swept: set<string>, cleared: set<string>): State
    {
      State(Store.Empty.(orders := map[c := Row(state, None)]), map[], 0, map[c := stage], Idle, {}, {}, swept, cleared, cleared)
    }

    function Rests(stage: Stage, state: OrderState, id: Option<string>, active: bool, marked: set<string>): State
    {
      State(Store.Empty.(orders := map[c := Row(state, id)]), map[c := Resting().(active := active)], 1,
        map[c := stage], Idle, marked, {}, {c}, {c}, {c})
    }

    function Venue(): Option<string> { Some("PAPER-" + c) }
  }

  /** Placing starts; cancel-all marks the order UNKNOWN and clears the matcher before it is queued. */
  lemma Drafts(n: Names)
    ensures Enabled(Start, Create(n.c, n.symbol, Sell, 2.0, 100.0))
    ensures Do(Start, Create(n.c, n.symbol, Sell, 2.0, 100.0)) == n.Requests(Drafted, New, {}, {})
  {
    assert Do(Start, Create(n.c, n.symbol, Sell, 2.0, 100.0)).store.orders == map[n.c := n.Row(New, None)];
  }

  lemma Starts(n: Names, s: State)
    requires s == n.Requests(Drafted, New, {}, {})
    ensures Enabled(s, StartPlacing(n.c)) && Do(s, StartPlacing(n.c)) == n.Requests(Requested, OrderState.Placing, {}, {})
  {
    assert Do(s, StartPlacing(n.c)).store.orders == map[n.c := n.Row(OrderState.Placing, None)];
  }

  lemma Sweeps(n: Names, s: State)
    requires s == n.Requests(Requested, OrderState.Placing, {}, {})
    ensures Enabled(s, AllMark(n.c, OrderState.Unknown))
    ensures Do(s, AllMark(n.c, OrderState.Unknown)) == n.Requests(Requested, OrderState.Unknown, {n.c}, {})
  {
    assert Do(s, AllMark(n.c, OrderState.Unknown)).store.orders == map[n.c := n.Row(OrderState.Unknown, None)];
  }

  lemma Clears(n: Names, s: State)
    requires s == n.Requests(Requested, OrderState.Unknown, {n.c}, {})
    ensures Enabled(s, AllClear) && Do(s, AllClear) == n.Requests(Requested, OrderState.Unknown, {n.c}, {n.c})
  {
    assert Do(s, AllClear).overtaken == {n.c};
  }

  /** Placing goes on: the order is queued, opened and activated. */
  lemma Queues(n: Names, s: State)
    requires s == n.Requests(Requested, OrderState.Unknown, {n.c}, {n.c})
    ensures Enabled(s, Enqueue(n.c, []))
    ensures Do(s, Enqueue(n.c, [])) == n.Rests(Queued, OrderState.Unknown, None, false, {})
  {
    assert Do(s, Enqueue(n.c, [])).book == map[n.c := n.Resting().(active := false)];
  }

  lemma Opens(n: Names, s: State)
    requires s == n.Rests(Queued, OrderState.Unknown, None, false, {})
    ensures Enabled(s, OpenOrder(n.c)) && Do(s, OpenOrder(n.c)) == n.Rests(Opened, OrderState.Open, n.Venue(), false, {})
  {
    assert Do(s, OpenOrder(n.c)).store.orders == map[n.c := n.Row(OrderState.Open, n.Venue())];
  }

  lemma Activates(n: Names, s: State)
    requires s == n.Rests(Opened, OrderState.Open, n.Venue(), false, {})
    ensures Enabled(s, Activate(n.c)) && Do(s, Activate(n.c)) == n.Rests(Live, OrderState.Open, n.Venue(), true, {})
  {
    assert Do(s, Activate(n.c)).book == map[n.c := n.Resting()];
  }

  /** A cancel call marks it; cancel-all's last loop then writes CANCELED while the order still rests. */
  lemma Marks(n: Names, s: State)
    requires s == n.Rests(Live, OrderState.Open, n.Venue(), true, {})
    ensures Enabled(s, CancelMark(n.c)) && Do(s, CancelMark(n.c)) == n.Rests(Live, Canceling, n.Venue(), true, {n.c})
  {
    assert Do(s, CancelMark(n.c)).store.orders == map[n.c := n.Row(Canceling, n.Venue())];
  }

  lemma Finishes(n: Names, s: State)
    requires s == n.Rests(Live, Canceling, n.Venue(), true, {n.c})
    ensures Enabled(s, AllDone(n.c)) && Do(s, AllDone(n.c)) == n.Rests(Live, Canceled, n.Venue(), true, {n.c})
  {
    assert Do(s, AllDone(n.c)).store.orders == map[n.c := n.Row(Canceled, n.Venue())];
  }

  function OneUnit(n: Names): Touch { Touch(n.Resting().(filled := 1.0, number := 1), 0.0, 1.0) }

  lemma Touched(n: Names, o: PaperOrder, t: Trade)
    requires o == n.Resting() && t == n.Lift()
    ensures TouchBy(o, t, 1.0) == OneUnit(n)
  {
    SweptThrough(o, t, 1.0, 1.0);
  }

  lemma SweptThrough(o: PaperOrder, t: Trade, available: real, executed: real)
    requires Eligible(o, t) && Through(o, t) && 0.0 < available == executed && o.qty - o.filled >= available
    ensures TouchBy(o, t, available) ==
              Touch(o.(queue := Front, filled := o.filled + executed, number := o.number + 1), 0.0, executed)
  {
    AtFront(o, available, executed);
  }

  lemma AtFront(o: PaperOrder, available: real, executed: real)
    requires 0.0 < available && executed == available && o.qty - o.filled >= available
    ensures Match(o, Front, available) == Touch(o.(queue := Front, filled := o.filled + executed, number := o.number + 1), 0.0, executed)
  {
    assert Front.Taken(available) == 0.0 && Front.After(available) == Front;
    var room := o.qty - o.filled;
    assert Executed(Front, room, available) == executed;
  }

  function InSweep(n: Names): State
  {
    n.Rests(Live, Canceled, n.Venue(), true, {n.c}).(printing := Sweeping(n.Lift(), [n.Resting()], 0))
  }

  lemma Prints(n: Names, s: State)
    requires s == n.Rests(Live, Canceled, n.Venue(), true, {n.c})
    ensures Enabled(s, PrintStart(n.Lift(), [n.Resting()])) && Do(s, PrintStart(n.Lift(), [n.Resting()])) == InSweep(n)
  {
  }

  lemma Offers(n: Names, u: State)
    requires u == InSweep(n)
    ensures Enabled(u, PrintNext(0.0)) && Turn(u) == OneUnit(n)
  {
    assert [n.Resting()][..0] == [];
    assert Offered(u) == 1.0;
    Touched(n, n.Resting(), n.Lift());
  }

  lemma Commits(s: State, touch: Touch, fee: real)
    requires Inv(s) && s.printing.Sweeping? && TurnOk(s, touch) && touch.executed > 0.0
    ensures touch.order.client in DoPrint(s, touch, fee).store.orders
    ensures DoPrint(s, touch, fee).store.orders[touch.order.client].cumulative == touch.order.filled
  {
    FillWrites(s, touch, fee);
  }

  lemma FillsOneUnit(n: Names, u: State)
    requires u == InSweep(n) && Inv(u)
    ensures Enabled(u, PrintNext(0.0)) && Do(u, PrintNext(0.0)) == DoPrint(u, OneUnit(n), 0.0)
    ensures n.c in DoPrint(u, OneUnit(n), 0.0).store.orders
    ensures DoPrint(u, OneUnit(n), 0.0).store.orders[n.c].cumulative == 1.0
  {
    Offers(n, u);
    TurnFacts(u);
    Commits(u, OneUnit(n), 0.0);
  }

  // ----- the steps as one run -----

  ghost predicate Leads(s: State, events: seq<Event>, t: State)
  {
    Feasible(s, events) && After(s, events) == t
  }

  lemma Cons(s: State, e: Event, t: State, rest: seq<Event>, last: State)
    requires Enabled(s, e) && Do(s, e) == t && Leads(t, rest, last)
    ensures Leads(s, [e] + rest, last)
  {
    assert ([e] + rest)[1..] == rest;
  }

  function SetupEvents(n: Names): seq<Event>
  {
    [Create(n.c, n.symbol, Sell, 2.0, 100.0)]
    + ([StartPlacing(n.c)] + ([AllMark(n.c, OrderState.Unknown)] + ([AllClear] + PlaceEvents(n))))
  }

  function PlaceEvents(n: Names): seq<Event>
  {
    [Enqueue(n.c, [])] + ([OpenOrder(n.c)] + ([Activate(n.c)] + CancelEvents(n)))
  }

  function CancelEvents(n: Names): seq<Event>
  {
    [CancelMark(n.c)] + ([AllDone(n.c)] + [])
  }

  lemma CancelRun(n: Names, s: State, t: State)
    requires s == n.Rests(Live, OrderState.Open, n.Venue(), true, {}) && t == n.Rests(Live, Canceled, n.Venue(), true, {n.c})
    ensures Leads(s, CancelEvents(n), t)
  {
    Marks(n, s);
    var mid := Do(s, CancelMark(n.c));
    Finishes(n, mid);
    assert Leads(t, [], t);
    Cons(mid, AllDone(n.c), t, [], t);
    Cons(s, CancelMark(n.c), mid, [AllDone(n.c)] + [], t);
  }

  lemma PlacingRun(n: Names, s: State, t: State)
    requires s == n.Requests(Requested, OrderState.Unknown, {n.c}, {n.c}) && t == n.Rests(Live, Canceled, n.Venue(), true, {n.c})
    ensures Leads(s, PlaceEvents(n), t)
  {
    Queues(n, s);
    var queued := Do(s, Enqueue(n.c, []));
    Opens(n, queued);
    var afterOpen := Do(queued, OpenOrder(n.c));
    Activates(n, afterOpen);
    var live := Do(afterOpen, Activate(n.c));
    CancelRun(n, live, t);
    Cons(afterOpen, Activate(n.c), live, CancelEvents(n), t);
    Cons(queued, OpenOrder(n.c), afterOpen, [Activate(n.c)] + CancelEvents(n), t);
    Cons(s, Enqueue(n.c, []), queued, [OpenOrder(n.c)] + ([Activate(n.c)] + CancelEvents(n)), t);
  }

  lemma SetupRun(n: Names, t: State)
    requires t == n.Rests(Live, Canceled, n.Venue(), true, {n.c})
    ensures Leads(Start, SetupEvents(n), t)
  {
    Drafts(n);
    var drafted := Do(Start, Create(n.c, n.symbol, Sell, 2.0, 100.0));
    Starts(n, drafted);
    var placing := Do(drafted, StartPlacing(n.c));
    Sweeps(n, placing);
    var unknown := Do(placing, AllMark(n.c, OrderState.Unknown));
    Clears(n, unknown);
    var cleared := Do(unknown, AllClear);
    PlacingRun(n, cleared, t);
    Cons(unknown, AllClear, cleared, PlaceEvents(n), t);
    Cons(placing, AllMark(n.c, OrderState.Unknown), unknown, [AllClear] + PlaceEvents(n), t);
    Cons(drafted, StartPlacing(n.c), placing, [AllMark(n.c, OrderState.Unknown)] + ([AllClear] + PlaceEvents(n)), t);
    Cons(Start, Create(n.c, n.symbol, Sell, 2.0, 100.0), drafted,
      [StartPlacing(n.c)] + ([AllMark(n.c, OrderState.Unknown)] + ([AllClear] + PlaceEvents(n))), t);
  }

  lemma PrintRun(n: Names, s: State)
    requires Inv(s) && s == n.Rests(Live, Canceled, n.Venue(), true, {n.c})
    ensures exists t :: Leads(s, [PrintStart(n.Lift(), [n.Resting()])] + ([PrintNext(0.0)] + []), t)
                        && n.c in t.store.orders && t.store.orders[n.c].cumulative == 1.0
  {
    Prints(n, s);
    var u := InSweep(n);
    StepKeeps(s, PrintStart(n.Lift(), [n.Resting()]));
    FillsOneUnit(n, u);
    var t := DoPrint(u, OneUnit(n), 0.0);
    assert Leads(t, [], t);
    Cons(u, PrintNext(0.0), t, [], t);
    Cons(s, PrintStart(n.Lift(), [n.Resting()]), u, [PrintNext(0.0)] + [], t);
  }

  /** A reachable CANCELED order, for every name, that a later print still fills. */
  lemma CanceledThenFilled(n: Names)
    ensures exists s, events, t :: Leads(Start, SetupEvents(n), s) && Leads(s, events, t) && FilledAfterCancel(s, t, n.c)
  {
    var s := n.Rests(Live, Canceled, n.Venue(), true, {n.c});
    SetupRun(n, s);
    RunKeeps(Start, SetupEvents(n));
    PrintRun(n, s);
    var events := [PrintStart(n.Lift(), [n.Resting()])] + ([PrintNext(0.0)] + []);
    var t :| Leads(s, events, t) && n.c in t.store.orders && t.store.orders[n.c].cumulative == 1.0;
    assert FilledAfterCancel(s, t, n.c);
  }

  ghost predicate FilledAfterCancel(s: State, t: State, c: string)
  {
    && c in s.store.orders && s.store.orders[c].state == Canceled && s.store.orders[c].cumulative == 0.0
    && c in t.store.orders && t.store.orders[c].cumulative == 1.0
  }
}
