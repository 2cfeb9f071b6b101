/**
 * Paper trading as interleaved steps: the gateway places and cancels, prints are swept one order at
 * a time under the matcher's lock, and each fill is committed to the durable tables
 * (execution_gateway.py:88-119, 172-194 and 251-270, paper_matcher.py:309-408, state_store.py:265-330).
 */
module PaperLedger {
  import opened Domain
  import opened Store
  import opened PaperQueue
  import opened PaperMatcher
  import Fills

  /** How far the placing task of one client order has come; Dropped once it has raised or failed. */
  datatype Stage = Drafted | Requested | Queued | Opened | Live | Dropped

  datatype Printing = Idle | Sweeping(trade: Trade, row: seq<PaperOrder>, next: nat)

  /**
   * marked and removed: orders whose cancel call has written CANCELING, and has taken them out of the
   * matcher. swept and cleared: the same for cancel-all. overtaken: cleared before they were queued.
   */
  datatype State = State(
    store: Tables, book: Book, placed: nat, stages: map<string, Stage>, printing: Printing,
    marked: set<string>, removed: set<string>, swept: set<string>, cleared: set<string>, overtaken: set<string>)

  const Start := State(Store.Empty, map[], 0, map[], Idle, {}, {}, {}, {}, {})

  datatype Event =
    | Create(client: string, symbol: string, side: Side, qty: real, price: real)
    | StartPlacing(client: string)
    | Enqueue(client: string, levels: seq<Level>)
    | QueueFailed(client: string)
    | OpenOrder(client: string)
    | Activate(client: string)
    | CancelMark(client: string)
    | CancelRemove(client: string)
    | CancelDone(client: string)
    | AllMark(client: string, target: OrderState)
    | AllClear
    | AllDone(client: string)
    | PrintStart(trade: Trade, row: seq<PaperOrder>)
    | PrintNext(fee: real)
    | PrintEnd
    | Resync(depth: map<(string, Side), seq<Level>>)
    | Crash

  predicate At(s: State, c: string, stage: Stage)
  {
    c in s.stages && s.stages[c] == stage && c in s.store.orders
  }

  predicate Moves(s: State, c: string, target: OrderState)
  {
    TransitionOrder(s.store, c, target, None).Ok?
  }

  predicate Enabled(s: State, e: Event)
  {
    match e
    case Create(c, _, _, _, _) => c !in s.stages && c !in s.store.orders
    case StartPlacing(c) => At(s, c, Drafted)
    case Enqueue(c, levels) => At(s, c, Requested) && s.printing == Idle && LevelsOk(levels)
    case QueueFailed(c) => At(s, c, Requested)
    case OpenOrder(c) => At(s, c, Queued)
    case Activate(c) => At(s, c, Opened) && s.printing == Idle
    case CancelMark(c) => Moves(s, c, Canceling)
    case CancelRemove(c) => c in s.marked && s.printing == Idle
    case CancelDone(c) => c in s.removed
    case AllMark(c, target) => (target == Canceling || target == OrderState.Unknown) && Moves(s, c, target)
    case AllClear => s.printing == Idle
    case AllDone(c) =>
      c in s.cleared && c in s.store.orders
      && (s.store.orders[c].state == Canceling || s.store.orders[c].state == OrderState.Unknown)
    case PrintStart(t, row) => s.printing == Idle && t.qty >= 0.0 && Ranked(row, s.book, t)
    case PrintNext(_) => s.printing.Sweeping? && s.printing.next < |s.printing.row| && Offered(s) > 0.0
    case PrintEnd => s.printing.Sweeping? && (s.printing.next >= |s.printing.row| || Offered(s) <= 0.0)
    case Resync(depth) => s.printing == Idle && DepthOk(depth)
    case Crash => true
  }

  /** The volume the sweep in progress has left. */
  function Offered(s: State): real
    requires s.printing.Sweeping?
  {
    var p := s.printing;
    Left(if p.next <= |p.row| then p.row[..p.next] else p.row, p.trade, p.trade.qty)
  }

  function Moved(s: State, c: string, target: OrderState, id: Option<string>): Tables
  {
    var r := TransitionOrder(s.store, c, target, id);
    if r.Ok? then r.value else s.store
  }

  /** The event the matcher hands over for a fill (paper_matcher.py:376-389). */
  function EventOf(touch: Touch, t: Trade, fee: real): FillEvent
  {
    var o := touch.order;
    FillEvent(o.client, "PAPER-" + o.client, PaperTrade(t.id, o.client, o.number), o.symbol, o.side, o.filled, o.price, fee)
  }

  function Do(s: State, e: Event): State
    requires Enabled(s, e)
  {
    match e
    case Create(c, symbol, side, qty, price) =>
      s.(store := CreateOrder(s.store, c, symbol, side, qty, price), stages := s.stages[c := Drafted])
    case StartPlacing(c) => s.(store := Moved(s, c, OrderState.Placing, None), stages := s.stages[c := Requested])
    case Enqueue(c, levels) =>
      var row := s.store.orders[c];
      var order := PaperOrder(
        c, row.symbol, row.side, row.price, row.qty, FromLevels(levels, row.side, row.price), 0.0, 0, false, s.placed + 1);
      s.(book := s.book[c := order], placed := s.placed + 1, stages := s.stages[c := Queued])
    case QueueFailed(c) => s.(store := Moved(s, c, Failed, None), stages := s.stages[c := Dropped])
    case OpenOrder(c) =>
      s.(store := Moved(s, c, OrderState.Open, Some("PAPER-" + c)),
         stages := s.stages[c := if Moves(s, c, OrderState.Open) then Opened else Dropped])
    case Activate(c) =>
      s.(book := if c in s.book then s.book[c := s.book[c].(active := true)] else s.book, stages := s.stages[c := Live])
    case CancelMark(c) => s.(store := Moved(s, c, Canceling, None), marked := s.marked + {c})
    case CancelRemove(c) => s.(book := s.book - {c}, removed := s.removed + {c})
    case CancelDone(c) =>
      if c in s.store.orders && s.store.orders[c].state == Filled then s else s.(store := Moved(s, c, Canceled, None))
    case AllMark(c, target) => s.(store := Moved(s, c, target, None), swept := s.swept + {c})
    case AllClear =>
      s.(book := map[], cleared := s.cleared + s.swept,
         overtaken := s.overtaken + set c | c in s.swept && At(s, c, Requested))
    case AllDone(c) => s.(store := Moved(s, c, Canceled, None))
    case PrintStart(t, row) => s.(printing := Sweeping(t, row, 0))
    case PrintNext(fee) => DoPrint(s, TouchBy(s.printing.row[s.printing.next], s.printing.trade, Offered(s)), fee)
    case PrintEnd => s.(printing := Idle)
    case Resync(depth) => s.(book := ResyncBook(s.book, depth))
    case Crash =>
      s.(book := map[], stages := map c | c in s.stages :: Dropped, printing := Idle,
         marked := {}, removed := {}, swept := {}, cleared := {})
  }

  /** One order of the sweep: the matcher's own update, and the fill committed with it. */
  function DoPrint(s: State, touch: Touch, fee: real): State
    requires s.printing.Sweeping?
  {
    var t := s.(book := Settle(s.book, touch), printing := s.printing.(next := s.printing.next + 1));
    if touch.executed <= 0.0 then t
    else
      var r := RecordFill(s.store, EventOf(touch, s.printing.trade, fee));
      if r.Ok? then t.(store := r.value.store) else t.(printing := Idle)
  }

  predicate Feasible(s: State, events: seq<Event>)
    decreases |events|
  {
    events == [] || (Enabled(s, events[0]) && Feasible(Do(s, events[0]), events[1..]))
  }

  function After(s: State, events: seq<Event>): State
    requires Feasible(s, events)
    decreases |events|
  {
    if events == [] then s else After(Do(s, events[0]), events[1..])
  }

  // ----- the invariant -----

  predicate Fillable(state: OrderState)
  {
    state != New && state != OrderState.Placing && state != Failed && state != Filled
  }

  predicate Early(state: OrderState)
  {
    state == OrderState.Placing || state == OrderState.Unknown || state == Canceled
  }

  /** What the placing task knows about its durable row. */
  predicate StageOk(stage: Stage, row: OrderRow)
  {
    match stage
    case Drafted => row.state == New && row.cumulative == 0.0
    case Requested => Early(row.state) && row.cumulative == 0.0
    case Queued => Early(row.state) && row.cumulative == 0.0
    case Opened => Fillable(row.state) || row.state == Filled
    case Live => Fillable(row.state) || row.state == Filled
    case Dropped => true
  }

  /** A resting order and its durable row tell the same story. */
  predicate Agrees(o: PaperOrder, row: OrderRow, stage: Stage)
  {
    && o.filled == row.cumulative
    && o.symbol == row.symbol && o.side == row.side && o.qty == row.qty && o.price == row.price
    && stage != Drafted && stage != Requested
    && (o.active ==> stage == Live)
    && (stage == Opened || stage == Live ==> Fillable(row.state))
  }

  /** A canceled order is out of the matcher for good, unless a cancel-all overtook its placing. */
  predicate CanceledOk(s: State, c: string)
    requires c in s.store.orders && c in s.stages
  {
    s.store.orders[c].state == Canceled ==> c in s.overtaken || Gone(s, c)
  }

  predicate Gone(s: State, c: string)
  {
    c !in s.book && c in s.stages && s.stages[c] != Drafted && s.stages[c] != Requested
  }

  predicate ClientOk(s: State, c: string)
    requires c in s.stages && c in s.store.orders
  {
    && StageOk(s.stages[c], s.store.orders[c])
    && (c in s.book ==> Agrees(s.book[c], s.store.orders[c], s.stages[c]))
    && CanceledOk(s, c)
    && (c in s.marked + s.removed ==> s.stages[c] == Opened || s.stages[c] == Live || s.stages[c] == Dropped)
    && (c in s.removed ==> Gone(s, c))
    && (c in s.swept ==> s.stages[c] != Drafted)
    && (c in s.cleared ==> c in s.overtaken || Gone(s, c))
  }

  /** Recorded fills come from the matcher, numbered below the order's own counter. */
  predicate FillOk(s: State, f: FillRow)
  {
    && f.event.tradeId.PaperTrade?
    && f.event.tradeId.client in s.stages
    && (var c := f.event.tradeId.client;
        && s.stages[c] != Drafted && s.stages[c] != Requested
        && (c in s.book ==> f.event.tradeId.number <= s.book[c].number))
  }

  /** The part of the row still to be visited is untouched. */
  predicate SweepOk(s: State)
  {
    s.printing.Sweeping? ==>
      var p := s.printing;
      && RowOk(p.row) && p.trade.qty >= 0.0
      && (forall j, k :: 0 <= j < k < |p.row| ==> p.row[j].client != p.row[k].client)
      && (forall k :: p.next <= k < |p.row| ==> InBook(p.row[k], s.book))
  }

  predicate Inv(s: State)
  {
    && s.stages.Keys == s.store.orders.Keys && s.book.Keys <= s.stages.Keys
    && s.marked <= s.stages.Keys && s.removed <= s.stages.Keys && s.swept <= s.stages.Keys && s.cleared <= s.stages.Keys
    && (forall c :: c in s.stages ==> ClientOk(s, c))
    && BookOk(s.book, s.placed)
    && (forall k :: 0 <= k < |s.store.fills| ==> FillOk(s, s.store.fills[k]))
    && SweepOk(s)
  }

  // ----- every step keeps the invariant -----

  /** One client's part of the state, the same in both. */
  predicate SameClient(s: State, t: State, d: string)
  {
    && (d in s.stages <==> d in t.stages) && (d in s.stages && d in t.stages ==> s.stages[d] == t.stages[d])
    && (d in s.store.orders <==> d in t.store.orders)
    && (d in s.store.orders && d in t.store.orders ==> s.store.orders[d] == t.store.orders[d])
    && SameAt(s.book, t.book, d)
    && (d in s.marked <==> d in t.marked) && (d in s.removed <==> d in t.removed) && (d in s.swept <==> d in t.swept)
    && (d in s.cleared <==> d in t.cleared) && (d in s.overtaken <==> d in t.overtaken)
  }

  predicate KeysOk(s: State)
  {
    && s.stages.Keys == s.store.orders.Keys && s.book.Keys <= s.stages.Keys
    && s.marked <= s.stages.Keys && s.removed <= s.stages.Keys && s.swept <= s.stages.Keys && s.cleared <= s.stages.Keys
  }

  predicate AtMost(before: set<string>, after: set<string>, c: string)
  {
    after == before || after == before + {c}
  }

  /** A step that writes one client's row and task, and leaves the matcher and the fills alone. */
  predicate WritesOnly(s: State, t: State, c: string)
  {
    && c in s.stages && c in s.store.orders && c in t.stages && c in t.store.orders
    && t.store.orders == s.store.orders[c := t.store.orders[c]] && t.stages == s.stages[c := t.stages[c]]
    && AtMost(s.marked, t.marked, c) && AtMost(s.removed, t.removed, c) && AtMost(s.swept, t.swept, c)
    && t.cleared == s.cleared && t.overtaken == s.overtaken
    && t.book == s.book && t.placed == s.placed && t.store.fills == s.store.fills && t.printing == s.printing
    && (s.stages[c] == Drafted || t.stages[c] == s.stages[c] || (t.stages[c] != Drafted && t.stages[c] != Requested))
  }

  lemma OneClient(s: State, t: State, c: string)
    requires Inv(s) && WritesOnly(s, t, c) && ClientOk(t, c)
    ensures Inv(t)
  {
    forall d | d in t.stages ensures ClientOk(t, d) {
      if d != c { assert SameClient(s, t, d); assert ClientOk(s, d); }
    }
    forall k | 0 <= k < |t.store.fills| ensures FillOk(t, t.store.fills[k]) {
      assert FillOk(s, s.store.fills[k]);
    }
  }

  /** The row after a move, if the table allows it. */
  lemma MovedRow(s: State, c: string, target: OrderState, id: Option<string>)
    requires c in s.store.orders
    ensures var row := s.store.orders[c];
            var next := Moved(s, c, target, id).orders[c];
            && Moved(s, c, target, id) == s.store.(orders := s.store.orders[c := next])
            && next.cumulative == row.cumulative && next.symbol == row.symbol && next.side == row.side
            && next.qty == row.qty && next.price == row.price
            && (if OrderMove(row.state, target) then next.state == target else next == row)
  {
    assert s.store.orders[c := s.store.orders[c]] == s.store.orders;
  }

  lemma StartPlacingKeeps(s: State, c: string)
    requires Inv(s) && Enabled(s, StartPlacing(c))
    ensures Inv(Do(s, StartPlacing(c)))
  {
    hide BookOk, FillOk, SweepOk, Moved;
    assert ClientOk(s, c);
    MovedRow(s, c, OrderState.Placing, None);
    OneClient(s, Do(s, StartPlacing(c)), c);
  }

  lemma QueueFailedKeeps(s: State, c: string)
    requires Inv(s) && Enabled(s, QueueFailed(c))
    ensures Inv(Do(s, QueueFailed(c)))
  {
    hide BookOk, FillOk, SweepOk, Moved;
    assert ClientOk(s, c);
    MovedRow(s, c, Failed, None);
    OneClient(s, Do(s, QueueFailed(c)), c);
  }

  lemma OpenOrderKeeps(s: State, c: string)
    requires Inv(s) && Enabled(s, OpenOrder(c))
    ensures Inv(Do(s, OpenOrder(c)))
  {
    hide BookOk, FillOk, SweepOk, Moved;
    assert ClientOk(s, c);
    MovedRow(s, c, OrderState.Open, Some("PAPER-" + c));
    OneClient(s, Do(s, OpenOrder(c)), c);
  }

  /** A cancel or a cancel-all writes the state of an order that is past its drafting. */
  lemma MarkKeeps(s: State, c: string, target: OrderState, t: State)
    requires Inv(s) && Moves(s, c, target) && (target == Canceling || target == OrderState.Unknown)
    requires t == s.(store := Moved(s, c, target, None), marked := t.marked, swept := t.swept)
    requires || (t.marked == s.marked && t.swept == s.swept + {c})
             || (t.swept == s.swept && t.marked == s.marked + {c} && target == Canceling)
    ensures Inv(t)
  {
    hide BookOk, FillOk, SweepOk, Moved;
    assert c in s.stages && ClientOk(s, c);
    MovedRow(s, c, target, None);
    assert t.stages == s.stages[c := t.stages[c]];
    OneClient(s, t, c);
  }

  /** A cancel call or a cancel-all ends an order it has taken out of the matcher. */
  lemma EndKeeps(s: State, c: string, t: State)
    requires Inv(s) && t == s.(store := Moved(s, c, Canceled, None)) && c in s.store.orders
    requires || c in s.removed
             || (c in s.cleared && (s.store.orders[c].state == Canceling || s.store.orders[c].state == OrderState.Unknown))
    ensures Inv(t)
  {
    hide BookOk, FillOk, SweepOk, Moved;
    assert c in s.stages && ClientOk(s, c);
    MovedRow(s, c, Canceled, None);
    assert t.stages == s.stages[c := t.stages[c]];
    OneClient(s, t, c);
  }

  lemma DonesKeep(s: State, e: Event, c: string)
    requires Inv(s) && Enabled(s, e) && (e == CancelDone(c) || e == AllDone(c))
    ensures Inv(Do(s, e))
  {
    hide ClientOk, BookOk, FillOk, SweepOk, Moved;
    if Do(s, e) != s {
      EndKeeps(s, c, Do(s, e));
    }
  }

  lemma CreateKeeps(s: State, e: Event)
    requires Inv(s) && Enabled(s, e) && e.Create?
    ensures Inv(Do(s, e))
  {
    var t := Do(s, e);
    forall d | d in t.stages ensures ClientOk(t, d) {
      if d != e.client { assert SameClient(s, t, d); assert ClientOk(s, d); }
    }
    forall k | 0 <= k < |t.store.fills| ensures FillOk(t, t.store.fills[k]) {
      assert FillOk(s, s.store.fills[k]);
    }
  }

  lemma EnqueueKeeps(s: State, e: Event)
    requires Inv(s) && Enabled(s, e) && e.Enqueue?
    ensures Inv(Do(s, e))
  {
    var t := Do(s, e);
    assert ClientOk(s, e.client);
    forall d | d in t.stages ensures ClientOk(t, d) {
      if d != e.client { assert SameClient(s, t, d); assert ClientOk(s, d); }
    }
    forall k | 0 <= k < |t.store.fills| ensures FillOk(t, t.store.fills[k]) {
      assert FillOk(s, s.store.fills[k]);
    }
  }

  lemma ActivateKeeps(s: State, e: Event)
    requires Inv(s) && Enabled(s, e) && e.Activate?
    ensures Inv(Do(s, e))
  {
    var t := Do(s, e);
    assert ClientOk(s, e.client);
    forall d | d in t.stages ensures ClientOk(t, d) {
      if d != e.client { assert SameClient(s, t, d); assert ClientOk(s, d); }
    }
    forall k | 0 <= k < |t.store.fills| ensures FillOk(t, t.store.fills[k]) {
      assert FillOk(s, s.store.fills[k]);
    }
  }

  lemma RemovalsKeep(s: State, e: Event)
    requires Inv(s) && Enabled(s, e) && (e.CancelRemove? || e.AllClear? || e.Crash?)
    ensures Inv(Do(s, e))
  {
    var t := Do(s, e);
    forall d | d in t.stages ensures ClientOk(t, d) {
      assert ClientOk(s, d);
    }
    forall k | 0 <= k < |t.store.fills| ensures FillOk(t, t.store.fills[k]) {
      assert FillOk(s, s.store.fills[k]);
    }
  }

  lemma ResyncKeeps(s: State, e: Event)
    requires Inv(s) && Enabled(s, e) && e.Resync?
    ensures Inv(Do(s, e))
  {
    var t := Do(s, e);
    ResyncKeepsBook(s.book, s.placed, e.depth);
    forall d | d in t.stages ensures ClientOk(t, d) {
      assert ClientOk(s, d);
    }
    forall k | 0 <= k < |t.store.fills| ensures FillOk(t, t.store.fills[k]) {
      assert FillOk(s, s.store.fills[k]);
    }
  }

  lemma PrintBoundsKeep(s: State, e: Event)
    requires Inv(s) && Enabled(s, e) && (e.PrintStart? || e.PrintEnd?)
    ensures Inv(Do(s, e))
  {
    var t := Do(s, e);
    forall d | d in t.stages ensures ClientOk(t, d) {
      assert ClientOk(s, d);
    }
    forall k | 0 <= k < |t.store.fills| ensures FillOk(t, t.store.fills[k]) {
      assert FillOk(s, s.store.fills[k]);
    }
    if e.PrintStart? {
      RankedDistinct(e.row, s.book, e.trade);
      forall k | 0 <= k < |e.row| ensures OrderOk(e.row[k]) { assert InBook(e.row[k], s.book); }
    }
  }

  // ----- a fill inside a sweep -----

  /** The touch of the order whose turn it is. */
  function Turn(s: State): Touch
    requires s.printing.Sweeping? && s.printing.next < |s.printing.row|
  {
    TouchBy(s.printing.row[s.printing.next], s.printing.trade, Offered(s))
  }

  /** What is known about that touch before anything is written. */
  predicate TurnOk(s: State, touch: Touch)
  {
    && touch.order.client in s.book
    && (var o := s.book[touch.order.client];
        && PaperMatcher.Later(o, touch.order) && touch.order.filled == o.filled + touch.executed
        && touch.order.active == o.active && touch.executed >= 0.0
        && (touch.executed > 0.0 ==> o.active && touch.order.number == o.number + 1)
        && ((touch.executed > 0.0 && touch.order.filled >= touch.order.qty) || OrderOk(touch.order)))
  }

  lemma TurnFacts(s: State)
    requires Inv(s) && s.printing.Sweeping? && s.printing.next < |s.printing.row|
    ensures TurnOk(s, Turn(s))
  {
    var p := s.printing;
    LeftShrinks(p.row[..p.next], p.trade, p.trade.qty, 0);
    assert InBook(p.row[p.next], s.book);
    TouchLaw(p.row[p.next], p.trade, Offered(s));
  }

  /** The event of a fill has never been recorded, and its order can take it. */
  lemma FillAccepted(s: State, touch: Touch, fee: real)
    requires Inv(s) && s.printing.Sweeping? && TurnOk(s, touch) && touch.executed > 0.0
    ensures var e := EventOf(touch, s.printing.trade, fee);
            !Recorded(s.store.fills, e) && RecordFill(s.store, e).Ok?
  {
    var e := EventOf(touch, s.printing.trade, fee);
    var c := touch.order.client;
    assert ClientOk(s, c);
    forall k | 0 <= k < |s.store.fills| ensures !SameTrade(s.store.fills[k].event, e) {
      assert FillOk(s, s.store.fills[k]);
    }
    Fills.RefusedIff(s.store, e);
  }

  /** The durable row after the fill: the matcher's filled quantity, and the state it calls for. */
  lemma FillWrites(s: State, touch: Touch, fee: real)
    requires Inv(s) && s.printing.Sweeping? && TurnOk(s, touch) && touch.executed > 0.0
    ensures var e := EventOf(touch, s.printing.trade, fee);
            var row := s.store.orders[touch.order.client];
            && RecordFill(s.store, e).Ok?
            && RecordFill(s.store, e).value.store.orders ==
                 s.store.orders[touch.order.client := row.(
                   cumulative := touch.order.filled, state := FillState(row.state, touch.order.filled >= row.qty))]
            && RecordFill(s.store, e).value.store.fills == s.store.fills + [FillRow(e, touch.executed)]
            && RecordFill(s.store, e).value.published == Some(|s.store.fills|)
  {
    FillAccepted(s, touch, fee);
    assert ClientOk(s, touch.order.client);
  }

  lemma PrintNextClients(s: State, t: State, touch: Touch, fee: real)
    requires Inv(s) && s.printing.Sweeping? && TurnOk(s, touch) && t == DoPrint(s, touch, fee)
    ensures t.stages.Keys == t.store.orders.Keys && t.book.Keys <= t.stages.Keys
    ensures forall c :: c in t.stages ==> ClientOk(t, c)
  {
    var c := touch.order.client;
    assert ClientOk(s, c);
    if touch.executed > 0.0 {
      FillWrites(s, touch, fee);
    }
    ApplyOne(s.book, touch);
    forall d | d in t.stages ensures ClientOk(t, d) {
      assert ClientOk(s, d);
      if d != c { assert SameAt(t.book, s.book, d); }
    }
  }

  lemma PrintNextFills(s: State, t: State, touch: Touch, fee: real)
    requires Inv(s) && s.printing.Sweeping? && TurnOk(s, touch) && t == DoPrint(s, touch, fee)
    ensures forall k :: 0 <= k < |t.store.fills| ==> FillOk(t, t.store.fills[k])
  {
    var c := touch.order.client;
    assert ClientOk(s, c);
    if touch.executed > 0.0 {
      FillWrites(s, touch, fee);
    }
    ApplyOne(s.book, touch);
    forall k | 0 <= k < |t.store.fills| ensures FillOk(t, t.store.fills[k]) {
      if k < |s.store.fills| {
        assert FillOk(s, s.store.fills[k]);
        var d := s.store.fills[k].event.tradeId.client;
        if d != c { assert SameAt(t.book, s.book, d); }
      }
    }
  }

  lemma PrintNextBook(s: State, t: State, touch: Touch, fee: real)
    requires Inv(s) && s.printing.Sweeping? && TurnOk(s, touch) && t == DoPrint(s, touch, fee)
    ensures BookOk(t.book, t.placed)
  {
    hide ClientOk, FillOk, SweepOk, RecordFill;
    var c := touch.order.client;
    ApplyOne(s.book, touch);
    forall d | d in t.book ensures t.book[d].client == d && OrderOk(t.book[d]) && t.book[d].placed == s.book[d].placed {
      if d != c { assert SameAt(t.book, s.book, d); }
    }
  }

  lemma PrintNextSweep(s: State, t: State, touch: Touch, fee: real)
    requires Inv(s) && s.printing.Sweeping? && s.printing.next < |s.printing.row|
    requires touch == Turn(s) && t == DoPrint(s, touch, fee)
    ensures SweepOk(t)
  {
    hide ClientOk, FillOk, BookOk, RecordFill;
    var c, p := touch.order.client, s.printing;
    assert c == p.row[p.next].client;
    ApplyOne(s.book, touch);
    forall k | p.next < k < |p.row| ensures InBook(p.row[k], t.book) {
      assert InBook(p.row[k], s.book) && p.row[k].client != c;
      assert SameAt(t.book, s.book, p.row[k].client);
    }
  }

  lemma PrintNextKeeps(s: State, e: Event)
    requires Inv(s) && Enabled(s, e) && e.PrintNext?
    ensures Inv(Do(s, e))
  {
    TurnFacts(s);
    var t := Do(s, e);
    PrintNextClients(s, t, Turn(s), e.fee);
    PrintNextFills(s, t, Turn(s), e.fee);
    PrintNextBook(s, t, Turn(s), e.fee);
    PrintNextSweep(s, t, Turn(s), e.fee);
  }

  lemma StepKeeps(s: State, e: Event)
    requires Inv(s) && Enabled(s, e)
    ensures Inv(Do(s, e))
  {
    match e
    case Create(_, _, _, _, _) => CreateKeeps(s, e);
    case StartPlacing(c) => StartPlacingKeeps(s, c);
    case Enqueue(_, _) => EnqueueKeeps(s, e);
    case QueueFailed(c) => QueueFailedKeeps(s, c);
    case OpenOrder(c) => OpenOrderKeeps(s, c);
    case Activate(_) => ActivateKeeps(s, e);
    case CancelMark(c) => MarkKeeps(s, c, Canceling, Do(s, e));
    case CancelRemove(_) => RemovalsKeep(s, e);
    case CancelDone(c) => DonesKeep(s, e, c);
    case AllMark(c, target) => MarkKeeps(s, c, target, Do(s, e));
    case AllClear => RemovalsKeep(s, e);
    case AllDone(c) => DonesKeep(s, e, c);
    case PrintStart(_, _) => PrintBoundsKeep(s, e);
    case PrintNext(_) => PrintNextKeeps(s, e);
    case PrintEnd => PrintBoundsKeep(s, e);
    case Resync(_) => ResyncKeeps(s, e);
    case Crash => RemovalsKeep(s, e);
  }

  lemma {:induction false} RunKeeps(s: State, events: seq<Event>)
    requires Inv(s) && Feasible(s, events)
    ensures Inv(After(s, events))
    decreases |events|
  {
    if events != [] {
      StepKeeps(s, events[0]);
      RunKeeps(Do(s, events[0]), events[1..]);
    }
  }

  // ----- the results -----

  /** In every reachable state the matcher and the durable order agree on what has been filled. */
  lemma MatcherAgrees(events: seq<Event>, c: string)
    requires Feasible(Start, events) && c in After(Start, events).book
    ensures var s := After(Start, events);
            c in s.store.orders && s.book[c].filled == s.store.orders[c].cumulative && s.book[c].qty == s.store.orders[c].qty
  {
    RunKeeps(Start, events);
    assert ClientOk(After(Start, events), c);
  }

  /** No fill of a sweep is ever refused or taken for a duplicate: it is published with the executed quantity. */
  lemma EveryFillCommits(events: seq<Event>, fee: real)
    requires Feasible(Start, events) && Enabled(After(Start, events), PrintNext(fee))
    requires Turn(After(Start, events)).executed > 0.0
    ensures var s := After(Start, events);
            var r := RecordFill(s.store, EventOf(Turn(s), s.printing.trade, fee));
            && r.Ok? && r.value.published == Some(|s.store.fills|)
            && r.value.store.fills[|s.store.fills|].incremental == Turn(s).executed
  {
    RunKeeps(Start, events);
    var s := After(Start, events);
    TurnFacts(s);
    FillWrites(s, Turn(s), fee);
  }

  /** A durable order, unchanged but for its state. */
  predicate SameFilled(s: State, t: State, c: string)
  {
    c in s.store.orders && c in t.store.orders && s.store.orders[c].cumulative == t.store.orders[c].cumulative
  }

  lemma GoneAfterTurn(s: State, fee: real, c: string)
    requires Inv(s) && Enabled(s, PrintNext(fee)) && Gone(s, c)
    ensures Gone(Do(s, PrintNext(fee)), c) && Do(s, PrintNext(fee)).store.orders[c] == s.store.orders[c]
  {
    TurnFacts(s);
    ApplyOne(s.book, Turn(s));
    assert SameAt(Do(s, PrintNext(fee)).book, s.book, c);
    if Turn(s).executed > 0.0 { FillWrites(s, Turn(s), fee); }
  }

  /** Steps that write at most an order's state. */
  predicate SameOrBetter(s: Tables, t: Tables, c: string)
    requires c in s.orders
  {
    && c in t.orders && s.orders[c].cumulative == t.orders[c].cumulative
    && (s.orders[c].state == Canceled ==> t.orders[c].state == Canceled)
  }

  lemma MoveIsMild(s: State, d: string, target: OrderState, id: Option<string>, c: string)
    requires c in s.store.orders
    ensures SameOrBetter(s.store, Moved(s, d, target, id), c)
  {
  }

  lemma GoneStays(s: State, e: Event, c: string)
    requires Inv(s) && Enabled(s, e) && Gone(s, c)
    ensures Gone(Do(s, e), c) && SameOrBetter(s.store, Do(s, e).store, c)
  {
    hide BookOk, FillOk, SweepOk, ClientOk;
    match e
    case PrintNext(fee) => GoneAfterTurn(s, fee, c);
    case StartPlacing(d) => MoveIsMild(s, d, OrderState.Placing, None, c);
    case QueueFailed(d) => MoveIsMild(s, d, Failed, None, c);
    case OpenOrder(d) => MoveIsMild(s, d, OrderState.Open, Some("PAPER-" + d), c);
    case CancelMark(d) => MoveIsMild(s, d, Canceling, None, c);
    case CancelDone(d) => MoveIsMild(s, d, Canceled, None, c);
    case AllMark(d, target) => MoveIsMild(s, d, target, None, c);
    case AllDone(d) => MoveIsMild(s, d, Canceled, None, c);
    case Resync(depth) => assert ResyncBook(s.book, depth).Keys == s.book.Keys;
    case _ =>
  }

  lemma {:induction false} GoneForever(s: State, events: seq<Event>, c: string)
    requires Inv(s) && Feasible(s, events) && Gone(s, c)
    ensures Gone(After(s, events), c) && SameFilled(s, After(s, events), c)
    ensures s.store.orders[c].state == Canceled ==> After(s, events).store.orders[c].state == Canceled
    decreases |events|
  {
    if events != [] {
      StepKeeps(s, events[0]);
      GoneStays(s, events[0], c);
      GoneForever(Do(s, events[0]), events[1..], c);
    }
  }

  /**
   * Once an order is CANCELED, no later print changes what it has filled, whatever is done in between,
   * provided no cancel-all cleared the matcher while the order was still being placed.
   */
  lemma CanceledIsFinal(before: seq<Event>, events: seq<Event>, c: string)
    requires Feasible(Start, before) && Feasible(After(Start, before), events)
    requires c in After(Start, before).store.orders && After(Start, before).store.orders[c].state == Canceled
    requires c !in After(Start, before).overtaken
    ensures var s := After(Start, before);
            SameFilled(s, After(s, events), c) && After(s, events).store.orders[c].state == Canceled
  {
    RunKeeps(Start, before);
    var s := After(Start, before);
    assert ClientOk(s, c);
    GoneForever(s, events, c);
  }

  /** The same for an order a cancel call has itself taken out of the matcher, without exception. */
  lemma RemovedIsFinal(before: seq<Event>, events: seq<Event>, c: string)
    requires Feasible(Start, before) && Feasible(After(Start, before), events) && c in After(Start, before).removed
    ensures SameFilled(After(Start, before), After(After(Start, before), events), c)
  {
    RunKeeps(Start, before);
    var s := After(Start, before);
    assert ClientOk(s, c);
    GoneForever(s, events, c);
  }
}
