/** What every run of the paper matching engine keeps (paper_matcher.py:309-436). */
module PaperRuns {
  import opened Domain
  import opened PaperQueue
  import opened PaperMatcher
  import opened PaperEngine

  datatype Matcher = Matcher(book: Book, placed: nat, seenOrder: seq<Scoped>)

  /** A print carries the order in which the engine visits its candidates, which the book determines. */
  datatype Event =
    | Place(client: string, symbol: string, side: Side, price: real, qty: real, levels: seq<Level>)
    | Activate(client: string)
    | Cancel(client: string)
    | CancelAll
    | Print(trade: Trade, row: seq<PaperOrder>)
    | Resync(depth: map<(string, Side), seq<Level>>)

  predicate Known(m: Matcher, t: Trade) { IdOf(t) in m.seenOrder }

  predicate Enabled(m: Matcher, e: Event)
  {
    match e
    case Place(_, _, _, _, _, levels) => LevelsOk(levels)
    case Print(t, row) => t.qty >= 0.0 && (Known(m, t) || Ranked(row, m.book, t))
    case Resync(depth) => DepthOk(depth)
    case _ => true
  }

  function Do(m: Matcher, e: Event): Matcher
  {
    match e
    case Place(client, symbol, side, price, qty, levels) =>
      var order := PaperOrder(client, symbol, side, price, qty, FromLevels(levels, side, price), 0.0, 0, false, m.placed + 1);
      m.(book := m.book[client := order], placed := m.placed + 1)
    case Activate(client) =>
      if client in m.book then m.(book := m.book[client := m.book[client].(active := true)]) else m
    case Cancel(client) => m.(book := m.book - {client})
    case CancelAll => m.(book := map[])
    case Print(t, row) =>
      if Known(m, t) then m
      else m.(book := Apply(m.book, Sweep(row, t, t.qty)), seenOrder := NextSeen(m.seenOrder, IdOf(t)))
    case Resync(depth) => m.(book := ResyncBook(m.book, depth))
  }

  predicate Feasible(m: Matcher, events: seq<Event>)
    decreases |events|
  {
    events == [] || (Enabled(m, events[0]) && Feasible(Do(m, events[0]), events[1..]))
  }

  function After(m: Matcher, events: seq<Event>): Matcher
    decreases |events|
  {
    if events == [] then m else After(Do(m, events[0]), events[1..])
  }

  /** An order number that is still in the book names the same order, only further along. */
  ghost predicate Aged(m: Matcher, n: Matcher)
  {
    && m.placed <= n.placed
    && forall c, d :: c in m.book && d in n.book && m.book[c].placed == n.book[d].placed ==>
         c == d && Later(m.book[c], n.book[d])
  }

  lemma StepAges(m: Matcher, e: Event)
    requires BookOk(m.book, m.placed) && Enabled(m, e)
    ensures BookOk(Do(m, e).book, Do(m, e).placed) && Aged(m, Do(m, e))
  {
    match e
    case Print(t, row) =>
      if !Known(m, t) { SweepKeepsBook(m.book, m.placed, row, t); }
      LaterAges(m, Do(m, e));
    case Resync(depth) =>
      ResyncKeepsBook(m.book, m.placed, depth);
      LaterAges(m, Do(m, e));
    case Place(_, _, _, _, _, _) => PlaceAges(m, e);
    case Activate(_) => LaterAges(m, Do(m, e));
    case Cancel(_) => LaterAges(m, Do(m, e));
    case CancelAll => LaterAges(m, Do(m, e));
  }

  lemma PlaceAges(m: Matcher, e: Event)
    requires BookOk(m.book, m.placed) && Enabled(m, e) && e.Place?
    ensures BookOk(Do(m, e).book, Do(m, e).placed) && Aged(m, Do(m, e))
  {
  }

  lemma LaterAges(m: Matcher, n: Matcher)
    requires BookOk(m.book, m.placed) && m.placed <= n.placed && n.book.Keys <= m.book.Keys
    requires forall c :: c in n.book ==> PaperMatcher.Later(m.book[c], n.book[c])
    ensures Aged(m, n)
  {
  }

  /** Every number the later book holds was either in the earlier book or given out since. */
  ghost predicate NoRevival(m: Matcher, n: Matcher)
  {
    forall d :: d in n.book && n.book[d].placed <= m.placed ==> d in m.book && m.book[d].placed == n.book[d].placed
  }

  lemma StepRevivesNothing(m: Matcher, e: Event)
    requires BookOk(m.book, m.placed) && Enabled(m, e)
    ensures NoRevival(m, Do(m, e))
  {
    match e
    case Print(t, row) =>
      if !Known(m, t) { SweepKeepsBook(m.book, m.placed, row, t); }
    case _ =>
  }

  /**
   * Over any run: the book stays in order, so an order with a fill has nothing ahead of it and is not
   * complete; an order that is still there has no more volume ahead than before and has not lost a
   * fill; and an order that has left never comes back under its number.
   */
  lemma {:induction false} RunAges(m: Matcher, events: seq<Event>)
    requires BookOk(m.book, m.placed) && Feasible(m, events)
    ensures BookOk(After(m, events).book, After(m, events).placed)
    ensures Aged(m, After(m, events)) && NoRevival(m, After(m, events))
    decreases |events|
  {
    if events != [] {
      var next := Do(m, events[0]);
      StepAges(m, events[0]);
      StepRevivesNothing(m, events[0]);
      RunAges(next, events[1..]);
      Chain(m, next, After(next, events[1..]));
    }
  }

  lemma Chain(m: Matcher, n: Matcher, last: Matcher)
    requires BookOk(m.book, m.placed)
    requires Aged(m, n) && NoRevival(m, n) && Aged(n, last) && NoRevival(n, last)
    ensures Aged(m, last) && NoRevival(m, last)
  {
    forall c, d | c in m.book && d in last.book && m.book[c].placed == last.book[d].placed
      ensures c == d && Later(m.book[c], last.book[d])
    {
      assert d in n.book;
    }
  }

  // ----- conservation over a run -----

  function Volumes(m: Matcher, events: seq<Event>): (total: (real, real))
    decreases |events|
  {
    if events == [] then (0.0, 0.0)
    else
      var rest := Volumes(Do(m, events[0]), events[1..]);
      match events[0]
      case Print(t, row) =>
        if Known(m, t) then rest else (rest.0 + Volume(Sweep(row, t, t.qty)), rest.1 + t.qty)
      case _ => rest
  }

  /** Queue consumption and executions of a whole run never exceed the volume printed, each print counted once. */
  lemma {:induction false} VolumeBounded(m: Matcher, events: seq<Event>)
    requires BookOk(m.book, m.placed) && Feasible(m, events)
    ensures Volumes(m, events).0 <= Volumes(m, events).1
    decreases |events|
  {
    if events != [] {
      StepAges(m, events[0]);
      VolumeBounded(Do(m, events[0]), events[1..]);
      match events[0]
      case Print(t, row) =>
        if !Known(m, t) {
          assert RowOk(row) by {
            forall k | 0 <= k < |row| ensures OrderOk(row[k]) { assert InBook(row[k], m.book); }
          }
          VolumeConserved(row, t, t.qty);
        }
      case _ =>
    }
  }

  // ----- repeated prints -----

  function Prints(events: seq<Event>): nat
  {
    if events == [] then 0 else (if events[0].Print? then 1 else 0) + Prints(events[1..])
  }

  /** The id is among the last `age` remembered. */
  ghost predicate Recent(seenOrder: seq<Scoped>, id: Scoped, age: nat)
  {
    exists k :: 0 <= k < |seenOrder| && |seenOrder| - age <= k && seenOrder[k] == id
  }

  lemma NextSeenKeeps(seenOrder: seq<Scoped>, id: Scoped, other: Scoped, age: nat)
    requires Recent(seenOrder, id, age) && age < SEEN_LIMIT && |seenOrder| <= SEEN_LIMIT
    ensures Recent(NextSeen(seenOrder, other), id, age + 1)
  {
    var k :| 0 <= k < |seenOrder| && |seenOrder| - age <= k && seenOrder[k] == id;
    var grown := seenOrder + [other];
    if |grown| > SEEN_LIMIT {
      assert grown[1..][k - 1] == id;
    } else {
      assert grown[k] == id;
    }
  }

  lemma {:induction false} StaysKnown(m: Matcher, events: seq<Event>, id: Scoped, age: nat)
    requires |m.seenOrder| <= SEEN_LIMIT && Recent(m.seenOrder, id, age) && age + Prints(events) <= SEEN_LIMIT
    ensures id in After(m, events).seenOrder
    decreases |events|
  {
    if events == [] {
      var k :| 0 <= k < |m.seenOrder| && |m.seenOrder| - age <= k && m.seenOrder[k] == id;
    } else {
      var e := events[0];
      if e.Print? && !Known(m, e.trade) {
        NextSeenKeeps(m.seenOrder, id, IdOf(e.trade), age);
        StaysKnown(Do(m, e), events[1..], id, age + 1);
      } else {
        StaysKnown(Do(m, e), events[1..], id, age);
      }
    }
  }

  /** A print delivered again, with fewer than 20 000 prints in between, changes nothing. */
  lemma RepeatIgnored(m: Matcher, t: Trade, row: seq<PaperOrder>, between: seq<Event>, again: seq<PaperOrder>)
    requires |m.seenOrder| <= SEEN_LIMIT && !Known(m, t) && Prints(between) < SEEN_LIMIT
    ensures var later := After(Do(m, Print(t, row)), between);
            Do(later, Print(t, again)) == later
  {
    var next := Do(m, Print(t, row));
    assert next.seenOrder == NextSeen(m.seenOrder, IdOf(t));
    assert next.seenOrder[|next.seenOrder| - 1] == IdOf(t);
    StaysKnown(next, between, IdOf(t), 1);
  }
}
