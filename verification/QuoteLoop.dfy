/**
 * The live quote loop as interleaved steps (backend/service.py:1344-1519 with
 * execution_gateway.py:61-211): which orders exist for a symbol and side at any moment. Everything
 * other tasks do to an order (fills, confirmations, cancels, cancel-all, lost responses) is a move of
 * its durable state; only the loop creates orders.
 */
module QuoteLoop {
  import opened Domain

  datatype Order = Order(key: Key, state: OrderState)

  /** Where the loop is: between passes, going through its keys, or inside the placing of one order. */
  datatype Loop =
    | Waiting
    | Quoting(open: map<Key, string>, todo: seq<Key>)
    | Creating(client: string, open: map<Key, string>, todo: seq<Key>)

  /** stale: orders a crash has left in NEW. */
  datatype State = State(orders: map<string, Order>, loop: Loop, stale: set<string>)

  const Start := State(map[], Waiting, {})

  predicate Live(state: OrderState) { !Terminal(state) }

  /** The bid and the ask of every symbol (core_fallback.py:46-51). */
  function Keys(symbols: seq<string>): seq<Key>
  {
    if symbols == [] then []
    else
      var last := symbols[|symbols| - 1];
      Keys(symbols[..|symbols| - 1]) + [Key(last, Buy), Key(last, Sell)]
  }

  lemma {:induction false} KeysDistinct(symbols: seq<string>)
    requires Distinct(symbols)
    ensures Distinct(Keys(symbols))
    ensures forall k :: 0 <= k < |Keys(symbols)| ==> Keys(symbols)[k].symbol in symbols
  {
    if symbols != [] {
      var front, last := symbols[..|symbols| - 1], symbols[|symbols| - 1];
      assert Distinct(front) by {
        forall j, k | 0 <= j < k < |front| ensures front[j] != front[k] { assert symbols[j] != symbols[k]; }
      }
      KeysDistinct(front);
      assert symbols == front + [last];
      assert last !in front by {
        forall k | 0 <= k < |front| ensures front[k] != last { assert symbols[k] == front[k]; }
      }
      forall k | 0 <= k < |Keys(front)| ensures Keys(front)[k].symbol != last {
        assert Keys(front)[k].symbol in front;
      }
    }
  }

  /** open_by_key: each listed order under its key. Equal keys would overwrite each other. */
  predicate Indexed(orders: map<string, Order>, open: map<Key, string>)
  {
    && (forall c :: c in orders && Listed(orders[c].state) ==> orders[c].key in open)
    && (forall key :: key in open ==> open[key] in orders && orders[open[key]].key == key && Listed(orders[open[key]].state))
  }

  datatype Event =
    | Begin(symbols: seq<string>, open: map<Key, string>)
    | Skip
    | Forget
    | Create(client: string)
    | FilledInstead
    | Placed
    | Abort
    | Move(client: string, target: OrderState)
    | Crash

  predicate AllCertain(orders: map<string, Order>)
  {
    forall c :: c in orders && Listed(orders[c].state) ==> orders[c].state == Open || orders[c].state == Partial
  }

  predicate AtKey(s: State)
  {
    s.loop.Quoting? && s.loop.todo != []
  }

  function CurrentOf(s: State): Option<string>
    requires AtKey(s)
  {
    if s.loop.todo[0] in s.loop.open then Some(s.loop.open[s.loop.todo[0]]) else None
  }

  predicate Enabled(s: State, e: Event)
  {
    match e
    // A pass starts only when no listed order is uncertain.
    case Begin(symbols, open) => s.loop == Waiting && Distinct(symbols) && AllCertain(s.orders) && Indexed(s.orders, open)
    // No price, too small, would cross (after cancelling, whatever came of it), or no need to requote.
    case Skip => AtKey(s)
    case Forget => AtKey(s) && CurrentOf(s).Some?
    // replace: the old order is confirmed CANCELED, or there was none.
    case Create(c) =>
      AtKey(s) && c !in s.orders
      && (CurrentOf(s).Some? ==> CurrentOf(s).value in s.orders && s.orders[CurrentOf(s).value].state == Canceled)
    case FilledInstead => AtKey(s) && CurrentOf(s).Some?
    case Placed => s.loop.Creating? && s.loop.client in s.orders && s.orders[s.loop.client].state != New
    case Abort => s.loop.Quoting? || (s.loop.Creating? && s.loop.client in s.orders && s.orders[s.loop.client].state != New)
    // Only the placing task itself moves a NEW order.
    case Move(c, target) =>
      c in s.orders && OrderMove(s.orders[c].state, target)
      && (s.orders[c].state == New && target != New ==> s.loop.Creating? && s.loop.client == c)
    case Crash => true
  }

  function Do(s: State, e: Event): State
    requires Enabled(s, e)
  {
    match e
    case Begin(symbols, open) => s.(loop := Quoting(open, Keys(symbols)))
    case Skip => s.(loop := Quoting(s.loop.open, s.loop.todo[1..]))
    case Forget => s.(loop := Quoting(s.loop.open - {s.loop.todo[0]}, s.loop.todo[1..]))
    case Create(c) =>
      s.(orders := s.orders[c := Order(s.loop.todo[0], New)], loop := Creating(c, s.loop.open, s.loop.todo[1..]))
    case FilledInstead => s.(loop := Quoting(s.loop.open - {s.loop.todo[0]}, s.loop.todo[1..]))
    case Placed => s.(loop := Quoting(s.loop.open[s.orders[s.loop.client].key := s.loop.client], s.loop.todo))
    case Abort => s.(loop := Waiting)
    case Move(c, target) => s.(orders := s.orders[c := s.orders[c].(state := target)])
    case Crash => s.(loop := Waiting, stale := s.stale + set c | c in s.orders && s.orders[c].state == New)
  }

  predicate Feasible(s: State, events: seq<Event>)
    decreases |events|
  {
    events == [] || (Enabled(s, events[0]) && Feasible(Do(s, events[0]), events[1..]))
  }

  function After(s: State, events: seq<Event>): State
    requires Feasible(s, events)
    decreases |events|
  {
    if events == [] then s else After(Do(s, events[0]), events[1..])
  }

  // ----- the invariant -----

  predicate Counts(s: State, c: string)
    requires c in s.orders
  {
    Live(s.orders[c].state) && c !in s.stale
  }

  predicate OneEach(s: State)
  {
    forall c, d :: c in s.orders && d in s.orders && Counts(s, c) && Counts(s, d) && s.orders[c].key == s.orders[d].key ==> c == d
  }

  /** A key still to be visited has no live order but the one the pass knows for it. */
  predicate Known(s: State, open: map<Key, string>, todo: seq<Key>)
  {
    && Distinct(todo)
    && forall c, k :: c in s.orders && 0 <= k < |todo| && Counts(s, c) && s.orders[c].key == todo[k] ==>
         todo[k] in open && open[todo[k]] == c
  }

  predicate Inv(s: State)
  {
    && OneEach(s)
    && (forall c :: c in s.stale ==> c in s.orders && s.orders[c].state == New)
    && (forall c :: c in s.orders && s.orders[c].state == New && c !in s.stale ==> s.loop.Creating? && s.loop.client == c)
    && (s.loop.Quoting? ==> Known(s, s.loop.open, s.loop.todo))
    && (s.loop.Creating? ==>
          && s.loop.client in s.orders && s.loop.client !in s.stale
          && s.orders[s.loop.client].key !in s.loop.todo && Known(s, s.loop.open, s.loop.todo))
  }

  lemma BeginKeeps(s: State, e: Event)
    requires Inv(s) && Enabled(s, e) && e.Begin?
    ensures Inv(Do(s, e))
  {
    KeysDistinct(e.symbols);
    var t := Do(s, e);
    forall c, k | c in t.orders && 0 <= k < |t.loop.todo| && Counts(t, c) && t.orders[c].key == t.loop.todo[k]
      ensures t.loop.todo[k] in t.loop.open && t.loop.open[t.loop.todo[k]] == c
    {
      assert Listed(t.orders[c].state);
      var d := e.open[t.orders[c].key];
      assert Counts(s, d) && s.orders[d].key == s.orders[c].key;
    }
  }

  lemma TailKnown(s: State, open: map<Key, string>, todo: seq<Key>)
    requires Known(s, open, todo) && todo != []
    ensures Known(s, open, todo[1..]) && Known(s, open - {todo[0]}, todo[1..]) && todo[0] !in todo[1..]
  {
    forall k | 0 <= k < |todo[1..]| ensures todo[1..][k] == todo[k + 1] != todo[0] {
    }
  }

  lemma NextKeyKeeps(s: State, e: Event)
    requires Inv(s) && Enabled(s, e) && (e.Skip? || e.Forget? || e.FilledInstead?)
    ensures Inv(Do(s, e))
  {
    TailKnown(s, s.loop.open, s.loop.todo);
  }

  /** The key's only live order, if it had one, is confirmed CANCELED: the new one is alone. */
  lemma CreateKeeps(s: State, e: Event)
    requires Inv(s) && Enabled(s, e) && e.Create?
    ensures Inv(Do(s, e))
  {
    TailKnown(s, s.loop.open, s.loop.todo);
    var t := Do(s, e);
    var key := s.loop.todo[0];
    forall d | d in s.orders && Counts(s, d) ensures s.orders[d].key != key {
    }
    forall c, d | c in t.orders && d in t.orders && Counts(t, c) && Counts(t, d) && t.orders[c].key == t.orders[d].key
      ensures c == d
    {
      if c != e.client { assert Counts(s, c); }
      if d != e.client { assert Counts(s, d); }
    }
    forall c, k | c in t.orders && 0 <= k < |t.loop.todo| && Counts(t, c) && t.orders[c].key == t.loop.todo[k]
      ensures t.loop.todo[k] in t.loop.open && t.loop.open[t.loop.todo[k]] == c
    {
      if c != e.client { assert Counts(s, c); }
    }
  }

  lemma PlacedKeeps(s: State, e: Event)
    requires Inv(s) && Enabled(s, e) && e.Placed?
    ensures Inv(Do(s, e))
  {
  }

  /** Other tasks can only take orders out of the live ones. */
  lemma MoveKeeps(s: State, e: Event)
    requires Inv(s) && Enabled(s, e) && e.Move?
    ensures Inv(Do(s, e))
  {
    var t := Do(s, e);
    forall c | c in t.orders && Counts(t, c) ensures c in s.orders && Counts(s, c) && s.orders[c].key == t.orders[c].key {
    }
  }

  lemma StepKeeps(s: State, e: Event)
    requires Inv(s) && Enabled(s, e)
    ensures Inv(Do(s, e))
  {
    match e
    case Begin(_, _) => BeginKeeps(s, e);
    case Skip => NextKeyKeeps(s, e);
    case Forget => NextKeyKeeps(s, e);
    case Create(_) => CreateKeeps(s, e);
    case FilledInstead => NextKeyKeeps(s, e);
    case Placed => PlacedKeeps(s, e);
    case Abort =>
    case Move(_, _) => MoveKeeps(s, e);
    case Crash =>
  }

  lemma {:induction false} RunKeeps(s: State, events: seq<Event>)
    requires Inv(s) && Feasible(s, events)
    ensures Inv(After(s, events))
    decreases |events|
  {
    if events != [] {
      StepKeeps(s, events[0]);
      RunKeeps(Do(s, events[0]), events[1..]);
    }
  }

  /** A NEW order that nobody is placing any more. */
  predicate Stranded(s: State, c: string)
  {
    c in s.orders && s.orders[c].state == New && !(s.loop.Creating? && s.loop.client == c)
  }

  lemma StrandedIsStale(s: State, c: string)
    requires Inv(s)
    ensures Stranded(s, c) <==> c in s.stale
  {
  }

  /**
   * In every run, whatever other tasks do to the orders in between, no symbol and side ever has two listed orders,
   * and two live ones only if one of them is stranded in NEW.
   */
  lemma AtMostOneLive(events: seq<Event>, c: string, d: string)
    requires Feasible(Start, events)
    requires var s := After(Start, events); c in s.orders && d in s.orders && c != d && s.orders[c].key == s.orders[d].key
    ensures var s := After(Start, events);
            && !(Listed(s.orders[c].state) && Listed(s.orders[d].state))
            && (Live(s.orders[c].state) && Live(s.orders[d].state) ==> Stranded(s, c) || Stranded(s, d))
  {
    RunKeeps(Start, events);
    var s := After(Start, events);
    StrandedIsStale(s, c);
    StrandedIsStale(s, d);
    if Live(s.orders[c].state) && Live(s.orders[d].state) && c !in s.stale && d !in s.stale {
      assert Counts(s, c) && Counts(s, d);
    }
  }

  // ----- futures without a further crash -----

  predicate NoCrash(events: seq<Event>)
  {
    Crash !in events
  }

  /** The events can happen from `s`, lead to `t`, and no crash is among them. */
  ghost predicate Reaches(s: State, events: seq<Event>, t: State)
  {
    Feasible(s, events) && After(s, events) == t && NoCrash(events)
  }

  lemma Stays(s: State)
    ensures Reaches(s, [], s)
  {
  }

  lemma First(s: State, e: Event, rest: seq<Event>, t: State)
    requires Enabled(s, e) && e != Crash && Reaches(Do(s, e), rest, t)
    ensures Reaches(s, [e] + rest, t)
  {
    assert ([e] + rest)[1..] == rest;
  }

  lemma {:induction false} Then(s: State, first: seq<Event>, m: State, second: seq<Event>, t: State)
    requires Reaches(s, first, m) && Reaches(m, second, t)
    ensures Reaches(s, first + second, t)
    decreases |first|
  {
    if first == [] {
      assert first + second == second;
    } else {
      assert Reaches(Do(s, first[0]), first[1..], m);
      Then(Do(s, first[0]), first[1..], m, second, t);
      assert first + second == [first[0]] + (first[1..] + second);
      First(s, first[0], first[1..] + second, t);
    }
  }

  /** Orders keep their key, and stranded ones all they are. */
  predicate Kept(s: State, t: State)
  {
    && t.stale == s.stale
    && (forall c :: c in s.stale ==> c in t.orders && c in s.orders && t.orders[c] == s.orders[c])
    && (forall c :: c in s.orders ==> c in t.orders && t.orders[c].key == s.orders[c].key)
  }

  lemma StepKept(s: State, e: Event)
    requires Inv(s) && Enabled(s, e) && e != Crash
    ensures Kept(s, Do(s, e))
  {
  }

  lemma {:induction false} ReachKeeps(s: State, events: seq<Event>, t: State)
    requires Inv(s) && Reaches(s, events, t)
    ensures Inv(t) && Kept(s, t)
    decreases |events|
  {
    if events == [] {
      assert Kept(s, s);
    } else {
      hide Inv, Enabled, Do;
      StepKeeps(s, events[0]);
      StepKept(s, events[0]);
      assert Reaches(Do(s, events[0]), events[1..], t);
      ReachKeeps(Do(s, events[0]), events[1..], t);
    }
  }

  /** The loop gives up its pass; an order it is creating goes to PLACING first. */
  lemma GivesUp(s: State) returns (events: seq<Event>, t: State)
    requires Inv(s)
    ensures Reaches(s, events, t) && t.loop == Waiting
  {
    events, t := [], s;
    Stays(s);
    if s.loop.Quoting? {
      events, t := [Abort], Do(s, Abort);
      Stays(t);
      First(s, Abort, [], t);
      assert [Abort] + [] == [Abort];
    } else if s.loop.Creating? {
      var move := Move(s.loop.client, if s.orders[s.loop.client].state == New then Placing else s.orders[s.loop.client].state);
      var m := Do(s, move);
      t := Do(m, Abort);
      Stays(t);
      First(m, Abort, [], t);
      First(s, move, [Abort] + [], t);
      events := [move] + ([Abort] + []);
    }
  }

  /** A final state that a listed order can move to at once. */
  function Ending(state: OrderState): OrderState
    requires Listed(state)
  {
    match state
    case Placing => Failed
    case Open => Filled
    case Partial => Filled
    case Canceling => Canceled
    case Unknown => Canceled
  }

  function Listing(orders: map<string, Order>): set<string>
  {
    set c | c in orders && Listed(orders[c].state)
  }

  /** Every listed order ends. */
  lemma {:induction false} AllEnd(s: State) returns (events: seq<Event>, t: State)
    requires s.loop == Waiting
    ensures Reaches(s, events, t) && t.loop == Waiting && Listing(t.orders) == {}
    decreases |Listing(s.orders)|
  {
    if Listing(s.orders) == {} {
      events, t := [], s;
      Stays(s);
    } else {
      var c :| c in Listing(s.orders);
      var move := Move(c, Ending(s.orders[c].state));
      var m := Do(s, move);
      assert Listing(m.orders) == Listing(s.orders) - {c};
      var rest;
      rest, t := AllEnd(m);
      First(s, move, rest, t);
      events := [move] + rest;
    }
  }

  lemma KeysOfOne(symbol: string)
    ensures Keys([symbol]) == [Key(symbol, Buy), Key(symbol, Sell)]
  {
    assert [symbol][..0] == [] && Keys([]) == [];
    assert Keys([symbol]) == Keys([symbol][..0]) + [Key(symbol, Buy), Key(symbol, Sell)];
  }

  /** With nothing listed, a pass over one symbol gets to either of its keys and creates an order for it. */
  lemma PassCreates(s: State, key: Key, d: string) returns (events: seq<Event>, t: State)
    requires s.loop == Waiting && Listing(s.orders) == {} && d !in s.orders
    ensures Reaches(s, events, t) && t.loop.Creating? && t.loop.client == d
    ensures d in t.orders && t.orders[d] == Order(key, New)
  {
    KeysOfOne(key.symbol);
    assert forall c :: c in s.orders && Listed(s.orders[c].state) ==> c in Listing(s.orders);
    var begin := Begin([key.symbol], map[]);
    var m := Do(s, begin);
    var n := if key.side == Buy then m else Do(m, Skip);
    assert AtKey(n) && n.loop.todo[0] == key;
    t := Do(n, Create(d));
    Stays(t);
    First(n, Create(d), [], t);
    events := [Create(d)] + [];
    if key.side == Sell {
      First(m, Skip, events, t);
      events := [Skip] + events;
    }
    First(s, begin, events, t);
    events := [begin] + events;
  }

  /** Some string is longer than all of finitely many. */
  lemma {:induction false} Longer(ids: set<string>) returns (n: nat)
    ensures forall c :: c in ids ==> |c| < n
    decreases |ids|
  {
    n := 0;
    if ids != {} {
      var c :| c in ids;
      var m := Longer(ids - {c});
      n := if |c| < m then m else |c| + 1;
    }
  }

  /** From any state of the loop, an order is created for any key, and stranded orders stay as they are. */
  lemma Creates(s: State, key: Key) returns (events: seq<Event>, t: State, d: string)
    requires Inv(s)
    ensures Reaches(s, events, t) && Inv(t) && t.loop.Creating? && t.loop.client == d && d !in s.orders
    ensures d in t.orders && t.orders[d] == Order(key, New)
    ensures forall c :: c in s.stale ==> c in t.orders && t.orders[c] == s.orders[c]
  {
    var first, m := GivesUp(s);
    var second, n := AllEnd(m);
    Then(s, first, m, second, n);
    var length := Longer(n.orders.Keys);
    d := seq(length, _ => 'x');
    assert |d| == length;
    var third;
    third, t := PassCreates(n, key, d);
    Then(s, first + second, n, third, t);
    events := first + second + third;
    ReachKeeps(s, first + second, n);
    ReachKeeps(s, events, t);
  }

  /** An order stranded in NEW stays there: nothing lists it, confirms it or cancels it. */
  lemma {:induction false} StrandedForever(s: State, events: seq<Event>, c: string)
    requires Inv(s) && Feasible(s, events) && Stranded(s, c)
    ensures Stranded(After(s, events), c) && After(s, events).orders[c] == s.orders[c]
    decreases |events|
  {
    if events != [] {
      StrandedIsStale(s, c);
      StepKeeps(s, events[0]);
      StrandedIsStale(Do(s, events[0]), c);
      StrandedForever(Do(s, events[0]), events[1..], c);
    }
  }

  lemma Opens(s: State, d: string) returns (t: State)
    requires d in s.orders && s.orders[d].state == New && s.loop.Creating? && s.loop.client == d
    ensures Reaches(s, [Move(d, Placing), Move(d, Open)], t)
    ensures t == s.(orders := s.orders[d := s.orders[d].(state := Open)])
  {
    var m := Do(s, Move(d, Placing));
    t := Do(m, Move(d, Open));
    Stays(t);
    First(m, Move(d, Open), [], t);
    First(s, Move(d, Placing), [Move(d, Open)] + [], t);
    assert [Move(d, Placing)] + ([Move(d, Open)] + []) == [Move(d, Placing), Move(d, Open)];
  }

  /** Beside an order stranded in NEW, whatever the loop is doing, some future without a crash opens another for its key. */
  lemma StrandedBesideLive(s: State, c: string) returns (events: seq<Event>, d: string)
    requires Inv(s) && Stranded(s, c)
    ensures Feasible(s, events) && NoCrash(events) && d != c
    ensures var t := After(s, events);
      c in t.orders && d in t.orders && t.orders[c] == s.orders[c] && t.orders[d] == Order(s.orders[c].key, Open)
  {
    StrandedIsStale(s, c);
    var first, m;
    first, m, d := Creates(s, s.orders[c].key);
    var t := Opens(m, d);
    Then(s, first, m, [Move(d, Placing), Move(d, Open)], t);
    events := first + [Move(d, Placing), Move(d, Open)];
  }

  predicate LiveAt(s: State, key: Key, c: string)
  {
    c in s.orders && s.orders[c].key == key && Live(s.orders[c].state)
  }

  ghost predicate TwoLive(s: State, key: Key)
  {
    exists c, d :: c != d && LiveAt(s, key, c) && LiveAt(s, key, d)
  }

  ghost predicate TwoLiveAfter(s: State, events: seq<Event>, key: Key)
  {
    Feasible(s, events) && NoCrash(events) && TwoLive(After(s, events), key)
  }

  lemma StrandedKept(s: State, events: seq<Event>, key: Key)
    requires Inv(s) && TwoLiveAfter(s, events, key)
    ensures exists c :: Stranded(s, c) && s.orders[c].key == key
  {
    var t := After(s, events);
    ReachKeeps(s, events, t);
    var c, d :| c != d && LiveAt(t, key, c) && LiveAt(t, key, d);
    var e := if c in t.stale then c else d;
    assert e in t.stale by {
      if c !in t.stale && d !in t.stale {
        assert Counts(t, c) && Counts(t, d);
      }
    }
    StrandedIsStale(s, e);
    assert Stranded(s, e) && s.orders[e].key == key;
  }

  /**
   * From any reachable state, some future without a further crash has two live orders for a symbol and
   * side if and only if one of its orders is in NEW and is not the one the loop is creating.
   */
  lemma TwoLiveIff(past: seq<Event>, key: Key)
    requires Feasible(Start, past)
    ensures var s := After(Start, past);
      (exists events :: TwoLiveAfter(s, events, key)) <==> exists c :: Stranded(s, c) && s.orders[c].key == key
  {
    RunKeeps(Start, past);
    var s := After(Start, past);
    if events :| TwoLiveAfter(s, events, key) {
      StrandedKept(s, events, key);
    }
    if c :| Stranded(s, c) && s.orders[c].key == key {
      var events, d := StrandedBesideLive(s, c);
      assert LiveAt(After(s, events), key, c) && LiveAt(After(s, events), key, d);
      assert TwoLiveAfter(s, events, key);
    }
  }

  /** A crash can leave such an order for any key at any time: from every reachable state, by events that end in the crash. */
  lemma CrashStrands(past: seq<Event>, key: Key) returns (events: seq<Event>, c: string)
    requires Feasible(Start, past)
    ensures var s := After(Start, past);
      && Feasible(s, events + [Crash]) && NoCrash(events)
      && Stranded(After(s, events + [Crash]), c) && After(s, events + [Crash]).orders[c] == Order(key, New)
  {
    RunKeeps(Start, past);
    var s, t := After(Start, past), Start;
    events, t, c := Creates(s, key);
    AddsCrash(s, events, t);
  }

  lemma {:induction false} AddsCrash(s: State, events: seq<Event>, t: State)
    requires Reaches(s, events, t)
    ensures Feasible(s, events + [Crash]) && After(s, events + [Crash]) == Do(t, Crash)
    decreases |events|
  {
    if events == [] {
      assert [] + [Crash] == [Crash] && [Crash][1..] == [];
      assert Feasible(Do(t, Crash), []) && After(Do(t, Crash), []) == Do(t, Crash);
    } else {
      assert (events + [Crash])[1..] == events[1..] + [Crash];
      assert Reaches(Do(s, events[0]), events[1..], t);
      AddsCrash(Do(s, events[0]), events[1..], t);
    }
  }
}
