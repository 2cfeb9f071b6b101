/**
 * Queue-aware matching of paper orders against public prints
 * (backend/engine/paper_matcher.py:225-436). A print is swept over the resting orders in
 * price-time order; what each order makes of the volume offered to it is a `Touch`.
 */
module PaperMatcher {
  import opened Domain
  import opened PaperQueue

  datatype PaperOrder = PaperOrder(
    client: string, symbol: string, side: Side, price: real, qty: real,
    queue: Queue, filled: real, number: nat, active: bool, placed: nat)

  datatype Trade = Trade(symbol: string, price: real, qty: real, taker: Side, id: string)

  datatype Scoped = Scoped(symbol: string, id: string)

  /** A fill handed to the fill tracker: the new cumulative quantity and the order's own counter. */
  datatype PaperFill = PaperFill(client: string, number: nat, cumulative: real, price: real)

  type Book = map<string, PaperOrder>

  const SEEN_LIMIT := 20000

  // ----- one order, one print -----

  predicate Through(o: PaperOrder, t: Trade)
  {
    if o.side == Sell then t.price > o.price else t.price < o.price
  }

  /** The order is live, faces the taker, is not yet complete, and the print trades at or beyond its price. */
  predicate Eligible(o: PaperOrder, t: Trade)
  {
    && o.active && o.symbol == t.symbol && o.side == t.taker.Opposite()
    && (Through(o, t) || o.price == t.price) && o.filled < o.qty
  }

  datatype Touch = Touch(order: PaperOrder, consumed: real, executed: real)

  function TouchBy(o: PaperOrder, t: Trade, available: real): Touch
  {
    if available <= 0.0 || !Eligible(o, t) then Touch(o, 0.0, 0.0)
    else Match(o, if Through(o, t) then Front else o.queue, available)
  }

  /** Volume goes to the queue in front first, then to the order. */
  function Executed(q: Queue, room: real, available: real): real
  {
    Max(0.0, Min(room, available - q.Taken(available)))
  }

  function Match(o: PaperOrder, q: Queue, available: real): Touch
  {
    var executed := Executed(q, o.qty - o.filled, available);
    Touch(
      o.(queue := q.After(available), filled := o.filled + executed,
         number := if executed > 0.0 then o.number + 1 else o.number),
      q.Taken(available), executed)
  }

  function FillsOf(touch: Touch): seq<PaperFill>
  {
    if touch.executed > 0.0
    then [PaperFill(touch.order.client, touch.order.number, touch.order.filled, touch.order.price)]
    else []
  }

  function Settle(book: Book, touch: Touch): Book
  {
    if touch.executed > 0.0 && touch.order.filled >= touch.order.qty then book - {touch.order.client}
    else book[touch.order.client := touch.order]
  }

  /** What holds of every order that rests in the matcher. */
  predicate OrderOk(o: PaperOrder)
  {
    && o.queue.Ok() && o.filled >= 0.0
    && (o.filled > 0.0 ==> o.filled < o.qty && o.queue == Front)
  }

  /** How an order may look later on: more filled, less volume ahead, otherwise the same order. */
  predicate Later(o: PaperOrder, p: PaperOrder)
  {
    && p.client == o.client && p.symbol == o.symbol && p.side == o.side && p.price == o.price
    && p.qty == o.qty && p.placed == o.placed && (o.active ==> p.active)
    && o.filled <= p.filled && o.number <= p.number && p.queue.Within(o.queue)
  }

  /** What a touch makes of the volume offered, and of the order. */
  predicate Fair(o: PaperOrder, touch: Touch, available: real)
  {
    && touch.consumed >= 0.0 && touch.executed >= 0.0 && touch.consumed + touch.executed <= available
    && touch.order.filled == o.filled + touch.executed
    && Later(o, touch.order)
    && (touch.executed == 0.0 ==> OrderOk(touch.order))
    && (touch.executed > 0.0 ==> touch.order.queue == Front && touch.order.filled <= o.qty)
    && (touch.executed > 0.0 && touch.order.filled < o.qty ==> touch.consumed + touch.executed == available)
  }

  lemma ExecutedLaw(q: Queue, room: real, available: real)
    requires q.Ok() && available > 0.0 && room > 0.0
    ensures 0.0 <= Executed(q, room, available) <= room
    ensures 0.0 <= q.Taken(available) <= available - Executed(q, room, available)
    ensures Executed(q, room, available) > 0.0 ==> q.After(available) == Front
    ensures q.Taken(available) + Executed(q, room, available) < available ==> Executed(q, room, available) == room
  {
    TakenLaw(q, available);
  }

  lemma FairFacts(o: PaperOrder, m: Touch, available: real, q: Queue, number: nat)
    requires OrderOk(o) && o.filled < o.qty && available > 0.0 && number >= o.number
    requires q.Ok() && q.Within(o.queue) && (o.queue == Front ==> q == Front)
    requires m.order == o.(queue := q, filled := o.filled + m.executed, number := number)
    requires 0.0 <= m.executed <= o.qty - o.filled && 0.0 <= m.consumed <= available - m.executed
    requires m.executed > 0.0 ==> q == Front
    requires m.consumed + m.executed < available ==> m.executed == o.qty - o.filled
    ensures Fair(o, m, available)
    ensures m.consumed + m.executed < available ==> m.order.filled == o.qty
  {
  }

  lemma MatchLaw(o: PaperOrder, q: Queue, available: real)
    requires OrderOk(o) && o.filled < o.qty && q.Ok() && q.Within(o.queue) && available > 0.0
    ensures Fair(o, Match(o, q, available), available)
    ensures Match(o, q, available).consumed + Match(o, q, available).executed < available ==>
              Match(o, q, available).order.filled == o.qty
  {
    var m := Match(o, q, available);
    var after := q.After(available);
    assert m.order == o.(queue := after, filled := o.filled + m.executed, number := m.order.number);
    AfterFacts(q, available, o.qty - o.filled, m.consumed, m.executed, after);
    FairFacts(o, m, available, after, m.order.number);
  }

  lemma AfterFacts(q: Queue, available: real, room: real, consumed: real, executed: real, after: Queue)
    requires q.Ok() && available > 0.0 && room > 0.0
    requires consumed == q.Taken(available) && executed == Executed(q, room, available) && after == q.After(available)
    ensures after.Ok() && after.Within(q) && (q == Front ==> after == Front)
    ensures 0.0 <= executed <= room && 0.0 <= consumed <= available - executed
    ensures executed > 0.0 ==> after == Front
    ensures consumed + executed < available ==> executed == room
  {
    assert after.Ok() && after.Within(q) by {
      TakenLaw(q, available);
    }
    ExecutedLaw(q, room, available);
  }

  lemma TouchLaw(o: PaperOrder, t: Trade, available: real)
    requires OrderOk(o) && available >= 0.0
    ensures Fair(o, TouchBy(o, t, available), available)
    ensures var touch := TouchBy(o, t, available);
            Eligible(o, t) && touch.consumed + touch.executed < available ==> touch.order.filled == o.qty
  {
    if available > 0.0 && Eligible(o, t) {
      var q := if Through(o, t) then Front else o.queue;
      MatchLaw(o, q, available);
    }
  }

  // ----- one print over a row of orders -----

  /** The volume left after the orders of the row have been offered it in turn. */
  function Left(row: seq<PaperOrder>, t: Trade, available: real): real
  {
    if row == [] then available
    else
      var left := Left(row[..|row| - 1], t, available);
      var touch := TouchBy(row[|row| - 1], t, left);
      left - touch.consumed - touch.executed
  }

  function Sweep(row: seq<PaperOrder>, t: Trade, available: real): (touches: seq<Touch>)
    ensures |touches| == |row|
  {
    if row == [] then []
    else
      Sweep(row[..|row| - 1], t, available) +
      [TouchBy(row[|row| - 1], t, Left(row[..|row| - 1], t, available))]
  }

  function Apply(book: Book, touches: seq<Touch>): Book
  {
    if touches == [] then book
    else Settle(Apply(book, touches[..|touches| - 1]), touches[|touches| - 1])
  }

  function Fills(touches: seq<Touch>): seq<PaperFill>
  {
    if touches == [] then [] else Fills(touches[..|touches| - 1]) + FillsOf(touches[|touches| - 1])
  }

  function Volume(touches: seq<Touch>): real
  {
    if touches == [] then 0.0
    else
      var last := touches[|touches| - 1];
      Volume(touches[..|touches| - 1]) + last.consumed + last.executed
  }

  predicate RowOk(row: seq<PaperOrder>)
  {
    forall k :: 0 <= k < |row| ==> OrderOk(row[k])
  }

  lemma {:induction false} SweepAt(row: seq<PaperOrder>, t: Trade, available: real, k: nat)
    requires k < |row|
    ensures Sweep(row, t, available)[k] == TouchBy(row[k], t, Left(row[..k], t, available))
  {
    if k < |row| - 1 {
      SweepAt(row[..|row| - 1], t, available, k);
      assert row[..|row| - 1][..k] == row[..k];
    }
  }

  /** Volume conservation: queue consumed, quantity executed and volume left add up to the print. */
  lemma {:induction false} VolumeConserved(row: seq<PaperOrder>, t: Trade, available: real)
    requires RowOk(row) && available >= 0.0
    ensures Volume(Sweep(row, t, available)) + Left(row, t, available) == available
    ensures 0.0 <= Left(row, t, available) <= available
  {
    if row != [] {
      var front := row[..|row| - 1];
      VolumeConserved(front, t, available);
      TouchLaw(row[|row| - 1], t, Left(front, t, available));
      var touches := Sweep(row, t, available);
      assert touches[..|touches| - 1] == Sweep(front, t, available);
    }
  }

  lemma {:induction false} LeftShrinks(row: seq<PaperOrder>, t: Trade, available: real, j: nat)
    requires RowOk(row) && available >= 0.0 && j <= |row|
    ensures 0.0 <= Left(row, t, available) <= Left(row[..j], t, available)
  {
    VolumeConserved(row, t, available);
    if j == |row| {
      assert row[..j] == row;
    } else {
      var front := row[..|row| - 1];
      assert front[..j] == row[..j];
      LeftShrinks(front, t, available, j);
      TouchLaw(row[|row| - 1], t, Left(front, t, available));
    }
  }

  /**
   * Price-time priority: an order receives volume only if every eligible order in front of it ends
   * the print completely filled.
   */
  lemma Priority(row: seq<PaperOrder>, t: Trade, available: real, i: nat, j: nat)
    requires RowOk(row) && available >= 0.0 && i < j < |row|
    requires Eligible(row[i], t) && Sweep(row, t, available)[j].executed > 0.0
    ensures Sweep(row, t, available)[i].order.filled == row[i].qty
  {
    SweepAt(row, t, available, i);
    SweepAt(row, t, available, j);
    LeftShrinks(row[..j], t, available, i + 1);
    assert row[..j][..i + 1] == row[..i + 1];
    assert row[..i + 1][..i] == row[..i];
    LeftShrinks(row[..i], t, available, 0);
    TouchLaw(row[i], t, Left(row[..i], t, available));
  }

  // ----- the row is the book in price-time order -----

  function PriceRank(o: PaperOrder, taker: Side): real
  {
    if taker == Buy then o.price else -o.price
  }

  predicate Before(a: PaperOrder, b: PaperOrder, taker: Side)
  {
    PriceRank(a, taker) < PriceRank(b, taker) || (PriceRank(a, taker) == PriceRank(b, taker) && a.placed < b.placed)
  }

  predicate Considered(o: PaperOrder, t: Trade)
  {
    o.active && o.symbol == t.symbol
  }

  /** The row holds exactly the live orders of the symbol, in price-time order. */
  predicate Ranked(row: seq<PaperOrder>, book: Book, t: Trade)
  {
    && (forall k :: 0 <= k < |row| ==> InBook(row[k], book) && Considered(row[k], t))
    && (forall c :: c in book && Considered(book[c], t) ==> book[c] in row)
    && (forall j, k :: 0 <= j < k < |row| ==> Before(row[j], row[k], t.taker))
  }

  predicate InBook(o: PaperOrder, book: Book)
  {
    o.client in book && book[o.client] == o
  }

  predicate BookOk(book: Book, placed: nat)
  {
    && (forall c :: c in book ==> book[c].client == c && OrderOk(book[c]) && book[c].placed <= placed)
    && (forall c, d :: c in book && d in book && c != d ==> book[c].placed != book[d].placed)
  }

  /** The row is determined by the book: price-time order leaves no choice. */
  lemma {:induction false} RankedUnique(a: seq<PaperOrder>, b: seq<PaperOrder>, taker: Side)
    requires forall o :: o in a <==> o in b
    requires forall j, k :: 0 <= j < k < |a| ==> Before(a[j], a[k], taker)
    requires forall j, k :: 0 <= j < k < |b| ==> Before(b[j], b[k], taker)
    ensures a == b
  {
    assert |b| > 0 ==> b[0] in b;
    if a != [] {
      assert a[0] in b;
      var x, y := a[|a| - 1], b[|b| - 1];
      assert x in b && y in a;
      assert x == y;
      var fa, fb := a[..|a| - 1], b[..|b| - 1];
      forall o ensures o in fa <==> o in fb {
        if o in fa { assert o in a && o in b && o != x; }
        if o in fb { assert o in b && o in a && o != x; }
      }
      RankedUnique(fa, fb, taker);
    }
  }

  /** What a sweep does to the book: each row order is replaced or, when complete, removed; the rest stay. */
  lemma {:induction false} ApplyAt(book: Book, row: seq<PaperOrder>, t: Trade, available: real)
    requires forall k :: 0 <= k < |row| ==> InBook(row[k], book)
    requires forall j, k :: 0 <= j < k < |row| ==> row[j].client != row[k].client
    ensures forall k :: 0 <= k < |row| ==> Placed(Apply(book, Sweep(row, t, available)), Sweep(row, t, available)[k])
    ensures forall c :: (forall k :: 0 <= k < |row| ==> row[k].client != c) ==>
              SameAt(Apply(book, Sweep(row, t, available)), book, c)
    ensures Apply(book, Sweep(row, t, available)).Keys <= book.Keys
    decreases |row|
  {
    if row != [] {
      var front, last := row[..|row| - 1], row[|row| - 1];
      ApplyAt(book, front, t, available);
      var touches := Sweep(row, t, available);
      assert touches[..|touches| - 1] == Sweep(front, t, available);
      forall k | 0 <= k < |touches|
        ensures Placed(Apply(book, touches), touches[k])
      {
        ApplyOne(Apply(book, Sweep(front, t, available)), touches[|front|]);
        if k < |front| {
          assert front[k] == row[k];
          SweepAt(front, t, available, k);
          assert touches[k] == Sweep(front, t, available)[k];
        }
      }
      forall c | forall k :: 0 <= k < |row| ==> row[k].client != c
        ensures SameAt(Apply(book, touches), book, c)
      {
        assert forall k :: 0 <= k < |front| ==> front[k] == row[k];
        assert row[|front|].client != c;
        assert touches[|front|].order.client == last.client;
        ApplyOne(Apply(book, Sweep(front, t, available)), touches[|front|]);
        assert SameAt(Apply(book, Sweep(front, t, available)), book, c);
      }
      assert InBook(last, book);
    }
  }

  predicate SameAt(book: Book, other: Book, c: string)
  {
    (c in book <==> c in other) && (c in book && c in other ==> book[c] == other[c])
  }

  lemma ApplyOne(book: Book, touch: Touch)
    ensures Placed(Settle(book, touch), touch)
    ensures forall c :: c != touch.order.client ==> SameAt(Settle(book, touch), book, c)
  {
  }

  predicate Placed(book: Book, touch: Touch)
  {
    if touch.executed > 0.0 && touch.order.filled >= touch.order.qty then touch.order.client !in book
    else touch.order.client in book && book[touch.order.client] == touch.order
  }

  lemma RankedDistinct(row: seq<PaperOrder>, book: Book, t: Trade)
    requires Ranked(row, book, t)
    ensures forall j, k :: 0 <= j < k < |row| ==> row[j].client != row[k].client
  {
    forall j, k | 0 <= j < k < |row| ensures row[j].client != row[k].client {
      assert InBook(row[j], book) && InBook(row[k], book) && Before(row[j], row[k], t.taker);
    }
  }

  /** An order left in the book is in order. */
  predicate Settled(touch: Touch)
  {
    (touch.executed > 0.0 && touch.order.filled >= touch.order.qty) || OrderOk(touch.order)
  }

  lemma LaterAfterSweep(book: Book, row: seq<PaperOrder>, t: Trade, k: nat)
    requires RowOk(row) && t.qty >= 0.0 && k < |row|
    ensures var touch := Sweep(row, t, t.qty)[k];
            Later(row[k], touch.order) && Settled(touch)
  {
    SweepAt(row, t, t.qty, k);
    LeftShrinks(row[..k], t, t.qty, 0);
    TouchLaw(row[k], t, Left(row[..k], t, t.qty));
  }

  /** A print keeps the book in order, and every order left in it is a later version of itself. */
  lemma SweepKeepsBook(book: Book, placed: nat, row: seq<PaperOrder>, t: Trade)
    requires BookOk(book, placed) && Ranked(row, book, t) && t.qty >= 0.0
    ensures var next := Apply(book, Sweep(row, t, t.qty));
            && BookOk(next, placed) && next.Keys <= book.Keys
            && (forall c :: c in next ==> Later(book[c], next[c]))
  {
    RankedDistinct(row, book, t);
    ApplyAt(book, row, t, t.qty);
    assert RowOk(row) by {
      forall k | 0 <= k < |row| ensures OrderOk(row[k]) { assert InBook(row[k], book); }
    }
    var next := Apply(book, Sweep(row, t, t.qty));
    forall c | c in next
      ensures OrderOk(next[c]) && Later(book[c], next[c])
    {
      if k :| 0 <= k < |row| && row[k].client == c {
        LaterAfterSweep(book, row, t, k);
        assert InBook(row[k], book);
        assert Placed(next, Sweep(row, t, t.qty)[k]);
        assert next[c] == Sweep(row, t, t.qty)[k].order;
      } else {
        assert SameAt(next, book, c);
      }
    }
  }

  // ----- resynchronisation with the visible book -----

  function ResyncOrder(o: PaperOrder, depth: map<(string, Side), seq<Level>>): PaperOrder
  {
    if o.active && (o.symbol, o.side) in depth
    then o.(queue := o.queue.Resynced(FromLevels(depth[(o.symbol, o.side)], o.side, o.price)))
    else o
  }

  function ResyncBook(book: Book, depth: map<(string, Side), seq<Level>>): Book
  {
    map c | c in book :: ResyncOrder(book[c], depth)
  }

  predicate DepthOk(depth: map<(string, Side), seq<Level>>)
  {
    forall key :: key in depth ==> LevelsOk(depth[key])
  }

  lemma ResyncKeepsBook(book: Book, placed: nat, depth: map<(string, Side), seq<Level>>)
    requires BookOk(book, placed) && DepthOk(depth)
    ensures var next := ResyncBook(book, depth);
            && BookOk(next, placed) && next.Keys == book.Keys
            && (forall c :: c in next ==> Later(book[c], next[c]) && next[c].filled == book[c].filled)
  {
    var next := ResyncBook(book, depth);
    forall c | c in next
      ensures OrderOk(next[c]) && Later(book[c], next[c])
    {
      var o := book[c];
      if o.active && (o.symbol, o.side) in depth {
        var snapshot := FromLevels(depth[(o.symbol, o.side)], o.side, o.price);
        assert snapshot.Ok();
      }
    }
  }
}
