/**
 * Which canceled paper orders are final: exactly those that are not exposed, that is neither active in
 * the matcher nor about to be activated. For an exposed one a print can be named that fills it.
 */
module PaperExposure {
  import opened Domain
  import opened Store
  import opened PaperQueue
  import opened PaperMatcher
  import opened PaperLedger

  predicate CanceledAt(s: State, c: string)
  {
    c in s.store.orders && s.store.orders[c].state == Canceled
  }

  /** In the matcher, not complete, and active there or between opening and placing. */
  predicate Exposed(s: State, c: string)
  {
    c in s.book && c in s.stages && s.book[c].filled < s.book[c].qty && (s.book[c].active || s.stages[c] == Opened)
  }

  // ----- an order that is not exposed -----

  lemma UnexposedTurn(s: State, fee: real, c: string)
    requires Inv(s) && Enabled(s, PrintNext(fee)) && CanceledAt(s, c) && c in s.stages && !Exposed(s, c)
    ensures var t := Do(s, PrintNext(fee)); CanceledAt(t, c) && !Exposed(t, c) && SameFilled(s, t, c)
  {
    TurnFacts(s);
    var touch := Turn(s);
    var o := s.printing.row[s.printing.next];
    assert InBook(o, s.book);
    ApplyOne(s.book, touch);
    if touch.executed > 0.0 {
      assert o.client != c;
      FillWrites(s, touch, fee);
    }
    if o.client != c {
      assert SameAt(Do(s, PrintNext(fee)).book, s.book, c);
    }
  }

  predicate MovesState(e: Event)
  {
    e.StartPlacing? || e.QueueFailed? || e.OpenOrder? || e.CancelMark? || e.CancelDone? || e.AllMark? || e.AllDone?
  }

  /** Steps that write the state of one order: a canceled one stays canceled and is not opened. */
  lemma UnexposedMoves(s: State, e: Event, c: string)
    requires Enabled(s, e) && MovesState(e) && CanceledAt(s, c) && c in s.stages && !Exposed(s, c)
    ensures var t := Do(s, e); CanceledAt(t, c) && !Exposed(t, c) && SameFilled(s, t, c)
  {
    match e
    case StartPlacing(d) => MoveIsMild(s, d, OrderState.Placing, None, c);
    case QueueFailed(d) => MoveIsMild(s, d, Failed, None, c);
    case OpenOrder(d) => MoveIsMild(s, d, OrderState.Open, Some("PAPER-" + d), c);
    case CancelMark(d) => MoveIsMild(s, d, Canceling, None, c);
    case CancelDone(d) => MoveIsMild(s, d, Canceled, None, c);
    case AllMark(d, target) => MoveIsMild(s, d, target, None, c);
    case AllDone(d) => MoveIsMild(s, d, Canceled, None, c);
  }

  lemma UnexposedElse(s: State, e: Event, c: string)
    requires Enabled(s, e) && !MovesState(e) && !e.PrintNext? && CanceledAt(s, c) && c in s.stages && !Exposed(s, c)
    requires c in s.book ==> s.stages[c] != Requested
    ensures var t := Do(s, e); CanceledAt(t, c) && !Exposed(t, c) && SameFilled(s, t, c)
  {
    if e.Resync? {
      assert ResyncBook(s.book, e.depth).Keys == s.book.Keys;
      assert c in s.book ==> ResyncBook(s.book, e.depth)[c].filled == s.book[c].filled;
    }
  }

  lemma UnexposedStays(s: State, e: Event, c: string)
    requires Inv(s) && Enabled(s, e) && CanceledAt(s, c) && !Exposed(s, c)
    ensures var t := Do(s, e); CanceledAt(t, c) && !Exposed(t, c) && SameFilled(s, t, c)
  {
    assert c in s.stages && ClientOk(s, c);
    if e.PrintNext? {
      UnexposedTurn(s, e.fee, c);
    } else if MovesState(e) {
      UnexposedMoves(s, e, c);
    } else {
      hide Inv, Do, Enabled;
      UnexposedElse(s, e, c);
    }
  }

  lemma {:induction false} UnexposedForever(s: State, events: seq<Event>, c: string)
    requires Inv(s) && Feasible(s, events) && CanceledAt(s, c) && !Exposed(s, c)
    ensures SameFilled(s, After(s, events), c)
    decreases |events|
  {
    if events != [] {
      StepKeeps(s, events[0]);
      UnexposedStays(s, events[0], c);
      UnexposedForever(Do(s, events[0]), events[1..], c);
    }
  }

  // ----- an exposed order -----

  /** Every future leaves what the order has filled as it is. */
  ghost predicate Final(s: State, c: string)
  {
    forall events :: Feasible(s, events) ==> SameFilled(s, After(s, events), c)
  }

  /** Some future changes what the order has filled. */
  ghost predicate Changes(s: State, c: string)
  {
    exists events :: Feasible(s, events) && !SameFilled(s, After(s, events), c)
  }

  /** A step that leaves the order's filled quantity alone does not hide a later change. */
  lemma ChangesBefore(s: State, e: Event, c: string)
    requires Enabled(s, e) && SameFilled(s, Do(s, e), c) && Changes(Do(s, e), c)
    ensures Changes(s, c)
  {
    var rest :| Feasible(Do(s, e), rest) && !SameFilled(Do(s, e), After(Do(s, e), rest), c);
    var events := [e] + rest;
    assert events[1..] == rest;
    assert Feasible(s, events) && After(s, events) == After(Do(s, e), rest);
  }

  lemma ChangesNow(s: State, e: Event, c: string)
    requires Enabled(s, e) && !SameFilled(s, Do(s, e), c)
    ensures Changes(s, c)
  {
    var events := [e];
    assert events[1..] == [] && After(Do(s, e), events[1..]) == Do(s, e);
    assert Feasible(s, events) && After(s, events) == Do(s, e);
  }

  /** The order whose turn it is fills, or stays as it is; the others stay as they are. */
  lemma ExposedTurn(s: State, fee: real, c: string)
    requires Inv(s) && Enabled(s, PrintNext(fee)) && CanceledAt(s, c) && Exposed(s, c)
    requires Turn(s).order.client != c || Turn(s).executed == 0.0
    ensures var t := Do(s, PrintNext(fee)); CanceledAt(t, c) && Exposed(t, c) && SameFilled(s, t, c)
    ensures Do(s, PrintNext(fee)).printing == s.printing.(next := s.printing.next + 1)
  {
    TurnFacts(s);
    var touch := Turn(s);
    ApplyOne(s.book, touch);
    if touch.executed > 0.0 {
      FillWrites(s, touch, fee);
    }
    if touch.order.client != c {
      assert SameAt(Do(s, PrintNext(fee)).book, s.book, c);
    }
  }

  lemma TurnFills(s: State, fee: real, c: string)
    requires Inv(s) && Enabled(s, PrintNext(fee)) && Turn(s).order.client == c && Turn(s).executed > 0.0
    ensures !SameFilled(s, Do(s, PrintNext(fee)), c)
  {
    TurnFacts(s);
    FillWrites(s, Turn(s), fee);
    assert ClientOk(s, c);
  }

  // ----- the print that fills it -----

  /** At most what an order and the queue before it can take of a print. */
  function Demand(row: seq<PaperOrder>): real
  {
    if row == [] then 0.0
    else
      var o := row[|row| - 1];
      Demand(row[..|row| - 1]) + o.queue.Ahead() + Max(0.0, o.qty - o.filled)
  }

  lemma TouchTakes(o: PaperOrder, t: Trade, available: real)
    requires OrderOk(o) && available >= 0.0
    ensures var touch := TouchBy(o, t, available);
            touch.consumed + touch.executed <= o.queue.Ahead() + Max(0.0, o.qty - o.filled)
  {
    if available > 0.0 && Eligible(o, t) {
      var q := if Through(o, t) then Front else o.queue;
      assert q.Ok() && q.Ahead() <= o.queue.Ahead();
      var m := Match(o, q, available);
      assert m.consumed == q.Taken(available) && m.executed == Executed(q, o.qty - o.filled, available);
      TakesAtMost(q, available);
      ExecutesAtMost(q, o.qty - o.filled, available);
      assert TouchBy(o, t, available) == m;
      hide TouchBy, Match, Executed, Eligible, Through, Queue.Taken, OrderOk;
    }
  }

  lemma TakesAtMost(q: Queue, available: real)
    requires q.Ok() && available > 0.0
    ensures q.Taken(available) <= q.Ahead()
  {
    TakenLaw(q, available);
    hide Queue.Taken, Queue.After, Queue.Within;
  }

  lemma ExecutesAtMost(q: Queue, room: real, available: real)
    ensures Executed(q, room, available) <= Max(0.0, room)
  {
    hide Queue.Taken;
  }

  lemma {:induction false} LeftAtLeast(row: seq<PaperOrder>, t: Trade, available: real)
    requires RowOk(row) && available >= 0.0
    ensures Left(row, t, available) >= available - Demand(row)
  {
    if row != [] {
      var front := row[..|row| - 1];
      LeftAtLeast(front, t, available);
      LeftShrinks(front, t, available, 0);
      TouchTakes(row[|row| - 1], t, Left(front, t, available));
    }
  }

  lemma {:induction false} DemandNonNegative(row: seq<PaperOrder>)
    requires RowOk(row)
    ensures Demand(row) >= 0.0
  {
    if row != [] {
      DemandNonNegative(row[..|row| - 1]);
    }
  }

  /** A print beyond the order's price reaches it at once, whatever is queued before it. */
  lemma ThroughExecutes(o: PaperOrder, t: Trade, available: real)
    requires Eligible(o, t) && Through(o, t) && available > 0.0
    ensures TouchBy(o, t, available).executed > 0.0
  {
    assert Front.Taken(available) == 0.0;
  }

  lemma InsertRanked(row: seq<PaperOrder>, o: PaperOrder, taker: Side) returns (next: seq<PaperOrder>)
    requires forall j, k :: 0 <= j < k < |row| ==> Before(row[j], row[k], taker)
    requires forall k :: 0 <= k < |row| ==> row[k].placed != o.placed
    ensures forall p :: p in next <==> p == o || p in row
    ensures forall j, k :: 0 <= j < k < |next| ==> Before(next[j], next[k], taker)
  {
    if row == [] || Before(row[|row| - 1], o, taker) {
      next := row + [o];
    } else {
      var last := row[|row| - 1];
      var front := InsertRanked(row[..|row| - 1], o, taker);
      assert row == row[..|row| - 1] + [last];
      forall k | 0 <= k < |front| ensures Before(front[k], last, taker) {
        assert front[k] in front;
      }
      next := front + [last];
    }
  }

  /** The listed orders of these clients can be put in price-time order. */
  lemma RankedOf(book: Book, placed: nat, clients: set<string>, t: Trade) returns (row: seq<PaperOrder>)
    requires BookOk(book, placed) && clients <= book.Keys
    ensures forall o :: o in row <==> o.client in clients && book[o.client] == o && Considered(o, t)
    ensures forall j, k :: 0 <= j < k < |row| ==> Before(row[j], row[k], t.taker)
    decreases |clients|
  {
    if clients == {} {
      row := [];
    } else {
      var c :| c in clients;
      row := RankedOf(book, placed, clients - {c}, t);
      if Considered(book[c], t) {
        forall k | 0 <= k < |row| ensures row[k].placed != book[c].placed {
          assert row[k] in row;
        }
        row := InsertRanked(row, book[c], t.taker);
      }
    }
  }

  lemma RankedExists(book: Book, placed: nat, t: Trade) returns (row: seq<PaperOrder>)
    requires BookOk(book, placed)
    ensures Ranked(row, book, t)
  {
    row := RankedOf(book, placed, book.Keys, t);
    forall k | 0 <= k < |row| ensures InBook(row[k], book) && Considered(row[k], t) {
      assert row[k] in row;
    }
  }

  /** A sweep that reaches the order fills it. */
  lemma {:induction false} SweepFills(s: State, c: string, k: nat)
    requires Inv(s) && CanceledAt(s, c) && Exposed(s, c) && s.printing.Sweeping?
    requires var p := s.printing;
      && p.next <= k < |p.row| && p.row[k].client == c && Eligible(p.row[k], p.trade) && Through(p.row[k], p.trade)
      && Left(p.row[..k], p.trade, p.trade.qty) > 0.0
    ensures Changes(s, c)
    decreases k - s.printing.next
  {
    var p := s.printing;
    LeftShrinks(p.row[..k], p.trade, p.trade.qty, p.next);
    assert p.row[..k][..p.next] == p.row[..p.next];
    assert Enabled(s, PrintNext(0.0));
    TurnFacts(s);
    if p.next == k {
      ThroughExecutes(p.row[k], p.trade, Offered(s));
      TurnFills(s, 0.0, c);
      ChangesNow(s, PrintNext(0.0), c);
    } else {
      assert Turn(s).order.client == p.row[p.next].client;
      ExposedTurn(s, 0.0, c);
      StepKeeps(s, PrintNext(0.0));
      SweepFills(Do(s, PrintNext(0.0)), c, k);
      ChangesBefore(s, PrintNext(0.0), c);
    }
  }

  /** An active order that no sweep is working on is filled by a print one beyond its price. */
  lemma ActiveFills(s: State, c: string)
    requires Inv(s) && CanceledAt(s, c) && Exposed(s, c) && s.printing == Idle && s.book[c].active
    ensures Changes(s, c)
  {
    var o := s.book[c];
    assert o.client == c;
    var price := if o.side == Sell then o.price + 1.0 else o.price - 1.0;
    var probe := Trade(o.symbol, price, 0.0, o.side.Opposite(), "");
    var row := RankedExists(s.book, s.placed, probe);
    assert Considered(o, probe) && o in row;
    var k :| 0 <= k < |row| && row[k] == o;
    assert RowOk(row[..k]) by {
      forall j | 0 <= j < k ensures OrderOk(row[j]) { assert InBook(row[j], s.book); }
    }
    var t := probe.(qty := Demand(row[..k]) + 1.0);
    DemandNonNegative(row[..k]);
    LeftAtLeast(row[..k], t, t.qty);
    assert Ranked(row, s.book, t);
    StepKeeps(s, PrintStart(t, row));
    SweepFills(Do(s, PrintStart(t, row)), c, k);
    ChangesBefore(s, PrintStart(t, row), c);
  }

  /** An order between opening and placing is activated first. */
  lemma IdleFills(s: State, c: string)
    requires Inv(s) && CanceledAt(s, c) && Exposed(s, c) && s.printing == Idle
    ensures Changes(s, c)
  {
    if s.book[c].active {
      ActiveFills(s, c);
    } else {
      StepKeeps(s, Activate(c));
      ActiveFills(Do(s, Activate(c)), c);
      ChangesBefore(s, Activate(c), c);
    }
  }

  /** A sweep in progress is finished first, unless it already fills the order. */
  lemma {:induction false} ExposedFills(s: State, c: string)
    requires Inv(s) && CanceledAt(s, c) && Exposed(s, c)
    ensures Changes(s, c)
    decreases if s.printing.Sweeping? then |s.printing.row| - s.printing.next else -1
  {
    if s.printing == Idle {
      IdleFills(s, c);
    } else if Enabled(s, PrintNext(0.0)) {
      TurnFacts(s);
      if Turn(s).order.client == c && Turn(s).executed > 0.0 {
        TurnFills(s, 0.0, c);
        ChangesNow(s, PrintNext(0.0), c);
      } else {
        ExposedTurn(s, 0.0, c);
        StepKeeps(s, PrintNext(0.0));
        ExposedFills(Do(s, PrintNext(0.0)), c);
        ChangesBefore(s, PrintNext(0.0), c);
      }
    } else {
      StepKeeps(s, PrintEnd);
      IdleFills(Do(s, PrintEnd), c);
      ChangesBefore(s, PrintEnd, c);
    }
  }

  /**
   * What a canceled order has filled is final, whatever happens later, if and only if the order is
   * neither active in the matcher nor between opening and placing.
   */
  lemma CanceledFinalIff(before: seq<Event>, c: string)
    requires Feasible(Start, before) && CanceledAt(After(Start, before), c)
    ensures var s := After(Start, before);
      Final(s, c) <==> !Exposed(s, c)
  {
    RunKeeps(Start, before);
    FinalIff(After(Start, before), c);
    hide *;
  }

  lemma FinalIff(s: State, c: string)
    requires Inv(s) && CanceledAt(s, c)
    ensures Final(s, c) <==> !Exposed(s, c)
  {
    if Exposed(s, c) {
      ExposedFills(s, c);
      var events :| Feasible(s, events) && !SameFilled(s, After(s, events), c);
    } else {
      forall events | Feasible(s, events) ensures SameFilled(s, After(s, events), c) {
        UnexposedForever(s, events, c);
      }
    }
  }
}
