/** The paper matching engine as an object, and what its runs keep (paper_matcher.py:256-436). */
module PaperEngine {
  import opened Domain
  import opened PaperQueue
  import opened PaperMatcher

  // ----- prints are taken once -----

  /** The last 20 000 print ids, oldest first; the set is its membership index. */
  function NextSeen(seenOrder: seq<Scoped>, id: Scoped): seq<Scoped>
  {
    var grown := seenOrder + [id];
    if |grown| > SEEN_LIMIT then grown[1..] else grown
  }

  ghost predicate Indexes(seen: set<Scoped>, seenOrder: seq<Scoped>)
  {
    && |seenOrder| <= SEEN_LIMIT
    && (forall id :: id in seen <==> id in seenOrder)
    && (forall j, k :: 0 <= j < k < |seenOrder| ==> seenOrder[j] != seenOrder[k])
  }

  lemma IndexesNext(seen: set<Scoped>, seenOrder: seq<Scoped>, id: Scoped)
    requires Indexes(seen, seenOrder) && id !in seen
    ensures var grown := seenOrder + [id];
            Indexes(if |grown| > SEEN_LIMIT then seen + {id} - {grown[0]} else seen + {id}, NextSeen(seenOrder, id))
  {
    var grown := seenOrder + [id];
    if |grown| > SEEN_LIMIT {
      var rest := grown[1..];
      forall x ensures x in seen + {id} - {grown[0]} <==> x in rest {
        if x in rest {
          var k :| 0 <= k < |rest| && rest[k] == x;
          assert x == grown[k + 1] && grown[0] != x;
        }
        if x in seen + {id} - {grown[0]} {
          assert x in grown;
          var k :| 0 <= k < |grown| && grown[k] == x;
          assert k > 0 && rest[k - 1] == x;
        }
      }
    }
  }

  function IdOf(t: Trade): Scoped { Scoped(t.symbol, t.id) }

  /** Without volume a print touches nothing. */
  lemma {:induction false} NothingOffered(book: Book, row: seq<PaperOrder>, t: Trade, available: real)
    requires available <= 0.0 && forall k :: 0 <= k < |row| ==> InBook(row[k], book)
    ensures Left(row, t, available) == available
    ensures Apply(book, Sweep(row, t, available)) == book && Fills(Sweep(row, t, available)) == []
  {
    if row != [] {
      var front := row[..|row| - 1];
      NothingOffered(book, front, t, available);
      var touches := Sweep(row, t, available);
      assert touches[..|touches| - 1] == Sweep(front, t, available);
      assert InBook(row[|row| - 1], book);
    }
  }

  class PaperMatchingEngine {
    var orders: Book
    var placedSeq: nat
    var seen: set<Scoped>
    var seenOrder: seq<Scoped>

    ghost predicate Valid()
      reads this
    {
      BookOk(orders, placedSeq) && Indexes(seen, seenOrder)
    }

    constructor ()
      ensures Valid() && orders == map[] && seen == {} && placedSeq == 0
    {
      orders, placedSeq, seen, seenOrder := map[], 0, {}, [];
    }

    /** Without a fresh depth snapshot the order is refused before anything changes. */
    method OnPlace(client: string, symbol: string, side: Side, price: real, qty: real, levels: Option<seq<Level>>)
        returns (r: Result<PaperOrder>)
      requires Valid() && (levels.Some? ==> LevelsOk(levels.value))
      modifies this
      ensures Valid() && seen == old(seen) && seenOrder == old(seenOrder)
      ensures levels == None ==> r.Err? && orders == old(orders) && placedSeq == old(placedSeq)
      ensures levels.Some? ==>
                && placedSeq == old(placedSeq) + 1
                && r == Ok(PaperOrder(client, symbol, side, price, qty, FromLevels(levels.value, side, price), 0.0, 0, false, placedSeq))
                && orders == old(orders)[client := r.value]
    {
      if levels == None {
        return Err(ValueError);
      }
      var queue := FromLevels(levels.value, side, price);
      placedSeq := placedSeq + 1;
      var order := PaperOrder(client, symbol, side, price, qty, queue, 0.0, 0, false, placedSeq);
      orders := orders[client := order];
      r := Ok(order);
    }

    method OnActivate(client: string)
      requires Valid()
      modifies `orders
      ensures Valid()
      ensures orders == if client in old(orders) then old(orders)[client := old(orders)[client].(active := true)] else old(orders)
    {
      if client in orders {
        orders := orders[client := orders[client].(active := true)];
      }
    }

    method OnCancel(client: string)
      requires Valid()
      modifies `orders
      ensures Valid() && orders == old(orders) - {client}
    {
      orders := orders - {client};
    }

    method OnCancelAll()
      requires Valid()
      modifies `orders
      ensures Valid() && orders == map[]
    {
      orders := map[];
    }

    static method Insert(row: seq<PaperOrder>, o: PaperOrder, taker: Side) returns (next: seq<PaperOrder>)
      requires forall j, k :: 0 <= j < k < |row| ==> Before(row[j], row[k], taker)
      requires forall k :: 0 <= k < |row| ==> row[k].placed != o.placed
      ensures forall p :: p in next <==> p == o || p in row
      ensures forall j, k :: 0 <= j < k < |next| ==> Before(next[j], next[k], taker)
    {
      var at := 0;
      while at < |row| && Before(row[at], o, taker)
        invariant at <= |row|
        invariant forall k :: 0 <= k < at ==> Before(row[k], o, taker)
      {
        at := at + 1;
      }
      next := row[..at] + [o] + row[at..];
      forall p ensures p in next <==> p == o || p in row {
        assert row == row[..at] + row[at..];
      }
    }

    /** The live orders of the symbol, cheapest for the taker first and oldest first at one price. */
    method Candidates(t: Trade) returns (row: seq<PaperOrder>)
      requires Valid()
      ensures Ranked(row, orders, t)
    {
      row := [];
      var rest := orders.Keys;
      while rest != {}
        invariant rest <= orders.Keys
        invariant forall k :: 0 <= k < |row| ==> InBook(row[k], orders) && Considered(row[k], t) && row[k].client !in rest
        invariant forall c :: c in orders && c !in rest && Considered(orders[c], t) ==> orders[c] in row
        invariant forall j, k :: 0 <= j < k < |row| ==> Before(row[j], row[k], t.taker)
        decreases |rest|
      {
        var c :| c in rest;
        rest := rest - {c};
        if Considered(orders[c], t) {
          forall k | 0 <= k < |row| ensures row[k].placed != orders[c].placed {
            assert InBook(row[k], orders) && row[k].client != c;
          }
          var next := Insert(row, orders[c], t.taker);
          forall k | 0 <= k < |next|
            ensures InBook(next[k], orders) && Considered(next[k], t) && next[k].client !in rest
          {
            assert next[k] in next;
          }
          row := next;
        }
      }
    }

    /**
     * One public print. A print seen before changes nothing; otherwise it is swept over the ranked
     * orders, and the fills are handed over in that order.
     */
    method OnTrade(t: Trade) returns (fills: seq<PaperFill>, ghost row: seq<PaperOrder>)
      requires Valid()
      modifies this
      ensures Valid() && placedSeq == old(placedSeq)
      ensures IdOf(t) in old(seen) ==>
                fills == [] && orders == old(orders) && seen == old(seen) && seenOrder == old(seenOrder)
      ensures IdOf(t) !in old(seen) ==>
                && seenOrder == NextSeen(old(seenOrder), IdOf(t))
                && Ranked(row, old(orders), t)
                && orders == Apply(old(orders), Sweep(row, t, t.qty))
                && fills == Fills(Sweep(row, t, t.qty))
    {
      fills, row := [], [];
      if IdOf(t) in seen {
        return;
      }
      Remember(IdOf(t));
      var candidates := Candidates(t);
      row := candidates;
      fills := SweepCandidates(candidates, t);
    }

    /** The loop over the candidates, until the volume is used up. */
    method SweepCandidates(candidates: seq<PaperOrder>, t: Trade) returns (fills: seq<PaperFill>)
      requires BookOk(orders, placedSeq) && Ranked(candidates, orders, t)
      modifies `orders
      ensures BookOk(orders, placedSeq)
      ensures orders == Apply(old(orders), Sweep(candidates, t, t.qty))
      ensures fills == Fills(Sweep(candidates, t, t.qty))
    {
      hide TouchBy, Ranked, BookOk, Apply, Sweep, Left, Fills;
      SweepNone(orders, candidates[..0], t);
      fills := [];
      var available := t.qty;
      ghost var before := orders;
      var k := 0;
      while k < |candidates| && available > 0.0
        invariant k <= |candidates|
        invariant available == Left(candidates[..k], t, t.qty)
        invariant orders == Apply(before, Sweep(candidates[..k], t, t.qty))
        invariant fills == Fills(Sweep(candidates[..k], t, t.qty))
      {
        var touch := Offer(candidates[k], t, available);
        SweepOneMore(before, candidates, t, k);
        available := available - touch.consumed - touch.executed;
        fills := fills + FillsOf(touch);
        if touch.executed > 0.0 && touch.order.filled >= touch.order.qty {
          orders := orders - {touch.order.client};
        } else {
          orders := orders[touch.order.client := touch.order];
        }
        k := k + 1;
      }
      PrintDone(before, placedSeq, candidates, t, k);
    }

    /** What one order makes of the volume offered to it. */
    static method Offer(order: PaperOrder, t: Trade, available: real) returns (touch: Touch)
      requires available > 0.0
      ensures touch == TouchBy(order, t, available)
    {
      if !Eligible(order, t) {
        return Touch(order, 0.0, 0.0);
      }
      var queue := order.queue;
      if Through(order, t) {
        queue := Front;
      }
      var consumed := queue.Taken(available);
      queue := queue.After(available);
      var executed := Min(order.qty - order.filled, available - consumed);
      if executed <= 0.0 {
        touch := Touch(order.(queue := queue, filled := order.filled + 0.0), consumed, 0.0);
      } else {
        touch := Touch(
          order.(queue := queue, filled := order.filled + executed, number := order.number + 1), consumed, executed);
      }
    }

    method Remember(id: Scoped)
      requires Valid() && id !in seen
      modifies `seen, `seenOrder
      ensures Valid() && seenOrder == NextSeen(old(seenOrder), id)
    {
      IndexesNext(seen, seenOrder, id);
      seen := seen + {id};
      seenOrder := seenOrder + [id];
      if |seenOrder| > SEEN_LIMIT {
        seen := seen - {seenOrder[0]};
        seenOrder := seenOrder[1..];
      }
    }

    /**
     * Every live order shrinks its queue to the current snapshot. The first missing snapshot ends the
     * pass, so that a stale book never makes progress; orders reached before it keep their update.
     */
    method ResyncOnce(depth: map<(string, Side), seq<Level>>)
      requires Valid() && DepthOk(depth)
      modifies `orders
      ensures Valid() && Partly(old(orders), orders, depth)
      ensures AllQuoted(old(orders), depth) ==> orders == ResyncBook(old(orders), depth)
    {
      var rest := orders.Keys;
      ghost var before := orders;
      while rest != {}
        invariant Midway(before, orders, rest, depth, placedSeq)
        decreases rest
      {
        var c :| c in rest;
        if orders[c].active && (orders[c].symbol, orders[c].side) !in depth {
          MidwayIsPartly(before, orders, rest, depth, placedSeq);
          return;
        }
        ResyncOne(before, orders, rest, depth, placedSeq, c);
        rest := rest - {c};
        orders := orders[c := ResyncOrder(orders[c], depth)];
      }
      MidwayIsPartly(before, orders, rest, depth, placedSeq);
    }
  }

  ghost predicate AllQuoted(book: Book, depth: map<(string, Side), seq<Level>>)
  {
    forall c :: c in book && book[c].active ==> (book[c].symbol, book[c].side) in depth
  }

  /** Every order is either as before or resynchronised. */
  ghost predicate Partly(before: Book, now: Book, depth: map<(string, Side), seq<Level>>)
  {
    now.Keys == before.Keys && forall c :: c in now ==> now[c] == before[c] || now[c] == ResyncOrder(before[c], depth)
  }

  lemma MidwayIsPartly(
    before: Book, now: Book, rest: set<string>, depth: map<(string, Side), seq<Level>>, placed: nat)
    requires Midway(before, now, rest, depth, placed)
    ensures Partly(before, now, depth)
    ensures rest == {} ==> now == ResyncBook(before, depth)
  {
  }

  /** Orders still in `rest` are as before; the others are resynchronised. */
  ghost predicate Midway(
    before: Book, now: Book, rest: set<string>, depth: map<(string, Side), seq<Level>>, placed: nat)
  {
    && rest <= before.Keys && now.Keys == before.Keys && BookOk(now, placed)
    && (forall c :: c in rest ==> now[c] == before[c])
    && (forall c :: c in now && c !in rest ==> now[c] == ResyncOrder(before[c], depth))
  }

  lemma ResyncOne(
    before: Book, now: Book, rest: set<string>, depth: map<(string, Side), seq<Level>>, placed: nat, c: string)
    requires Midway(before, now, rest, depth, placed) && DepthOk(depth) && c in rest
    ensures Midway(before, now[c := ResyncOrder(now[c], depth)], rest - {c}, depth, placed)
  {
    hide ResyncOrder, OrderOk;
    ResyncKeepsBook(now, placed, depth);
    assert ResyncBook(now, depth)[c] == ResyncOrder(now[c], depth);
  }

  lemma SweepNone(book: Book, row: seq<PaperOrder>, t: Trade)
    requires row == []
    ensures Left(row, t, t.qty) == t.qty && Apply(book, Sweep(row, t, t.qty)) == book && Fills(Sweep(row, t, t.qty)) == []
  {
  }

  lemma SweepOneMore(book: Book, row: seq<PaperOrder>, t: Trade, k: nat)
    requires k < |row|
    ensures var touch := TouchBy(row[k], t, Left(row[..k], t, t.qty));
            && Left(row[..k + 1], t, t.qty) == Left(row[..k], t, t.qty) - touch.consumed - touch.executed
            && Apply(book, Sweep(row[..k + 1], t, t.qty)) == Settle(Apply(book, Sweep(row[..k], t, t.qty)), touch)
            && Fills(Sweep(row[..k + 1], t, t.qty)) == Fills(Sweep(row[..k], t, t.qty)) + FillsOf(touch)
  {
    assert row[..k + 1][..k] == row[..k];
    var touches := Sweep(row[..k + 1], t, t.qty);
    assert touches[..|touches| - 1] == Sweep(row[..k], t, t.qty);
  }

  lemma PrintDone(book: Book, placed: nat, row: seq<PaperOrder>, t: Trade, k: nat)
    requires BookOk(book, placed) && Ranked(row, book, t) && k <= |row|
    requires k == |row| || Left(row[..k], t, t.qty) <= 0.0
    ensures Apply(book, Sweep(row, t, t.qty)) == Apply(book, Sweep(row[..k], t, t.qty))
    ensures Fills(Sweep(row, t, t.qty)) == Fills(Sweep(row[..k], t, t.qty))
    ensures BookOk(Apply(book, Sweep(row, t, t.qty)), placed)
  {
    RankedDistinct(row, book, t);
    if k < |row| {
      Exhausted(book, row, t, k);
    } else {
      assert row[..k] == row;
    }
    if t.qty >= 0.0 {
      SweepKeepsBook(book, placed, row, t);
    } else {
      NothingOffered(book, row, t, t.qty);
    }
  }

  lemma UntouchedSettles(book: Book, row: seq<PaperOrder>, t: Trade, o: PaperOrder)
    requires forall k :: 0 <= k < |row| ==> InBook(row[k], book) && row[k].client != o.client
    requires forall j, k :: 0 <= j < k < |row| ==> row[j].client != row[k].client
    requires InBook(o, book)
    ensures var now := Apply(book, Sweep(row, t, t.qty)); Settle(now, Touch(o, 0.0, 0.0)) == now
  {
    ApplyAt(book, row, t, t.qty);
    var now := Apply(book, Sweep(row, t, t.qty));
    assert SameAt(now, book, o.client);
    assert now[o.client := o] == now;
  }

  /** Once the volume is used up, the rest of the row is left as it was. */
  lemma {:induction false} Exhausted(book: Book, row: seq<PaperOrder>, t: Trade, k: nat)
    requires k <= |row| && Left(row[..k], t, t.qty) <= 0.0
    requires forall i :: 0 <= i < |row| ==> InBook(row[i], book)
    requires forall i, j :: 0 <= i < j < |row| ==> row[i].client != row[j].client
    ensures Left(row, t, t.qty) <= 0.0
    ensures Apply(book, Sweep(row, t, t.qty)) == Apply(book, Sweep(row[..k], t, t.qty))
    ensures Fills(Sweep(row, t, t.qty)) == Fills(Sweep(row[..k], t, t.qty))
  {
    if k == |row| {
      assert row[..k] == row;
    } else {
      var front, last := row[..|row| - 1], row[|row| - 1];
      assert front[..k] == row[..k];
      Exhausted(book, front, t, k);
      UntouchedSettles(book, front, t, last);
      var touches := Sweep(row, t, t.qty);
      assert touches[..|touches| - 1] == Sweep(front, t, t.qty);
    }
  }
}
