/** The simulated hedge exchange as an object (backend/engine/paper_exchange.py:180-208 and 535-727). */
module FakeGmo {
  import opened Domain
  import opened Picks
  import opened PaperQueue
  import opened PaperVenue
  import opened BookWalk

  class FakeGmo {
    var rows: map<nat, GmoOrder>
    var listing: seq<nat>
    var index: map<Key, seq<nat>>
    var balances: map<Asset, real>
    var sequence: nat
    ghost var deals: seq<Deal>

    ghost function Value(): Venue
      reads this
    {
      Venue(rows, listing, index, balances, sequence, deals)
    }

    constructor (opening: map<Asset, real>)
      ensures Value() == Venue(map[], [], map[], opening, 0, [])
    {
      rows, listing, index, balances, sequence, deals := map[], [], map[], opening, 0, [];
    }

    /** The finished orders, in placement order. */
    method Finished() returns (removable: seq<nat>)
      ensures removable == Pick(listing, Removable(rows))
    {
      removable := [];
      for k := 0 to |listing|
        invariant removable == Pick(listing[..k], Removable(rows))
      {
        var id := listing[k];
        assert listing[..k + 1] == listing[..k] + [id];
        PickConcat(listing[..k], [id], Removable(rows));
        assert [id][1..] == [];
        if id in rows && (rows[id].canceled || rows[id].terminal || !rows[id].sok) {
          removable := removable + [id];
        }
      }
      assert listing[..|listing|] == listing;
    }

    method Prune(limit: nat)
      modifies `rows, `listing
      ensures Value() == Pruned(old(Value()), limit)
    {
      hide Pick, NotIn, Removable;
      var excess := |rows| - limit;
      if excess <= 0 {
        NothingDoomed(Value(), limit);
        return;
      }
      var removable := Finished();
      Drop(if excess < |removable| then removable[..excess] else removable);
    }

    method Drop(doomed: seq<nat>)
      modifies `rows, `listing
      ensures rows == map id | id in old(rows) && id !in doomed :: old(rows)[id]
      ensures listing == Pick(old(listing), NotIn(doomed))
    {
      rows := map id | id in rows && id !in doomed :: rows[id];
      listing := Pick(listing, NotIn(doomed));
    }

    method Index(id: nat, key: Key)
      modifies `index
      ensures Value() == old(Value()).(index := Indexed(old(index), id, key))
    {
      index := index[key := (if key in index then index[key] else []) + [id]];
    }

    method Deindex(id: nat, key: Key)
      modifies `index
      ensures Value() == old(Value()).(index := Deindexed(old(index), id, key))
    {
      if key in index {
        var bucket := Pick(index[key], (x: nat) => x != id);
        if bucket == [] {
          index := index - {key};
        } else {
          index := index[key := bucket];
        }
      }
    }

    /** Rebuilding the index from the table, as after a restart. */
    method RebuildIndex()
      requires ListingOk(Value())
      modifies `index
      ensures Value() == old(Value()).(index := index)
      ensures IndexOk(Value())
    {
      index := map[];
      for k := 0 to |listing|
        invariant Value() == old(Value()).(index := index)
        invariant Rebuilt(index, listing[..k], rows)
      {
        var id := listing[k];
        RebuiltOne(index, listing[..k], rows, id);
        assert listing[..k + 1] == listing[..k] + [id];
        if id in rows && rows[id].sok && !rows[id].canceled && !rows[id].terminal {
          Index(id, KeyOf(rows[id]));
        }
      }
      assert listing[..|listing|] == listing;
    }

    method Book(d: Deal)
      modifies `balances, `deals
      ensures Value() == Dealt(old(Value()), d)
    {
      if d.side == Buy {
        balances := Add(balances, Yen, -d.notional);
        balances := Add(balances, Base(d.symbol), d.qty);
      } else {
        balances := Add(balances, Base(d.symbol), -d.qty);
        balances := Add(balances, Yen, d.notional);
      }
      deals := deals + [d];
    }

    method Append(row: GmoOrder) returns (id: nat)
      modifies `rows, `listing, `sequence
      ensures Value() == PaperVenue.Insert(old(Value()), row) && id == sequence
    {
      sequence := sequence + 1;
      id := sequence;
      rows := rows[id := row];
      listing := listing + [id];
    }

    method PostOnlyOrder(
      symbol: string, side: Side, size: real, price: real, step: Step, levels: seq<Level>, version: int, availableAt: int)
      returns (id: nat)
      modifies this
      ensures id == old(sequence) + 1
      ensures Value() == PostOnly(old(Value()), PostOnlyRow(symbol, side, size, price, step, levels, version, availableAt))
    {
      var row := PostOnlyRow(symbol, side, size, price, step, levels, version, availableAt);
      id := Append(row);
      Index(id, KeyOf(row));
      Prune(LIMIT);
    }

    /** Only the given share of the size is executed, as far as the visible levels go. */
    method MarketOrder(
      symbol: string, side: Side, size: real, step: Step, ratio: real, levels: seq<Level>, top: Level, availableAt: int)
      returns (id: nat, filled: real, notional: real)
      requires size >= 0.0
      modifies this
      ensures id == old(sequence) + 1
      ensures var usable := Usable(levels, top);
              filled == StepDown(Min(Min(size, Max(0.0, StepDown(size * ratio, step))), Depth(usable)), step)
      ensures var usable := Usable(levels, top);
              var target := Min(size, Max(0.0, StepDown(size * ratio, step)));
              Depth(usable) >= target == StepDown(target, step) ==> notional == Cost(usable, target)
      ensures Value() == Market(old(Value()), MarketRow(symbol, side, size, step, filled, notional, availableAt), notional)
    {
      hide StepDown, Pruned, Depth;
      var target := Min(size, Max(0.0, StepDown(size * ratio, step)));
      var usable := Usable(levels, top);
      filled, notional := Walk(usable, target, step);
      id := Append(MarketRow(symbol, side, size, step, filled, notional, availableAt));
      Prune(LIMIT);
      if filled > 0.0 {
        Book(Deal(id, symbol, side, filled, notional));
      }
    }

    method CancelOrder(id: nat) returns (ok: bool)
      modifies this
      ensures ok == (id in old(rows))
      ensures Value() == if id in old(rows) then Cancel(old(Value()), id).value else old(Value())
    {
      if id !in rows {
        return false;
      }
      rows := rows[id := rows[id].(canceled := true)];
      Deindex(id, KeyOf(rows[id]));
      Prune(LIMIT);
      ok := true;
    }

    method ResyncPostOnly(id: nat, levels: seq<Level>, version: int, now: int) returns (changed: bool)
      requires id in rows
      modifies `rows
      ensures Value() == Resync(old(Value()), id, levels, version, now)
      ensures changed == (rows[id].queue != old(rows)[id].queue)
    {
      var row := rows[id];
      if row.canceled || row.terminal || now < row.availableAt || version <= row.version {
        return false;
      }
      var queue := row.queue.Resynced(FromLevels(levels, row.side, row.price));
      rows := rows[id := row.(version := version, queue := queue)];
      changed := queue != row.queue;
    }

    /** A fill is written, leaves the index when it completes the order, and is booked. */
    method Apply(id: nat, turn: Turn)
      requires id in rows
      modifies this
      ensures Value() == Written(old(Value()), id, turn)
    {
      rows := rows[id := turn.row];
      if turn.executed > 0.0 {
        if turn.row.terminal {
          Deindex(id, KeyOf(turn.row));
        }
        Book(Deal(id, turn.row.symbol, turn.row.side, turn.executed, Worth(turn.executed, turn.row.price)));
      }
    }

    method Match(row: GmoOrder, p: Print, available: real) returns (turn: Turn)
      ensures turn == TurnOf(row, p, available)
    {
      var queue := row.queue;
      if Beyond(row, p) {
        queue := Front;
      }
      var consumed := queue.Taken(available);
      queue := queue.After(available);
      var executed := StepDown(Min(row.requested - row.filled, available - consumed), row.step);
      if executed <= 0.0 {
        return Turn(row.(queue := queue), consumed, 0.0);
      }
      var filled := row.filled + executed;
      turn := Turn(row.(queue := queue, filled := filled, terminal := filled >= row.requested), consumed, executed);
    }

    /** The bucket is read once; orders that leave it during the loop are not visited twice. */
    method OnPublicTrade(p: Print, now: int)
      modifies this
      ensures Value() == if p.qty <= 0.0 then old(Value()) else OnPrint(old(Value()), p, now).venue
    {
      if p.qty <= 0.0 {
        return;
      }
      var key := Key(p.symbol, p.taker);
      var ids := if key in index then index[key] else [];
      var available := p.qty;
      ghost var start := Value();
      var k := 0;
      while k < |ids| && available > 0.0
        invariant k <= |ids|
        invariant VisitAll(Visited(Value(), available), ids[k..], p, now) == VisitAll(Visited(start, p.qty), ids, p, now)
      {
        var id := ids[k];
        ghost var x := Visited(Value(), available);
        assert ids[k..][0] == id && ids[k..][1..] == ids[k + 1..];
        if id in rows && Takes(rows[id], p, now) {
          var turn := Match(rows[id], p, available);
          Apply(id, turn);
          available := available - turn.consumed - turn.executed;
        }
        assert Visited(Value(), available) == Visit(x, id, p, now);
        k := k + 1;
      }
      UsedUp(Visited(Value(), available), ids[k..], p, now);
    }
  }

  /** The index of a part of the listing. */
  ghost predicate Rebuilt(index: map<Key, seq<nat>>, ids: seq<nat>, rows: map<nat, GmoOrder>)
  {
    && (forall key :: Bucket(index, key) == Pick(ids, Resting(rows, key)))
    && (forall key :: key in index ==> index[key] != [])
  }

  lemma RebuiltOne(index: map<Key, seq<nat>>, ids: seq<nat>, rows: map<nat, GmoOrder>, id: nat)
    requires Rebuilt(index, ids, rows)
    ensures Rebuilt(
      if id in rows && rows[id].sok && !rows[id].canceled && !rows[id].terminal
      then Indexed(index, id, KeyOf(rows[id])) else index, ids + [id], rows)
  {
    var next := if id in rows && rows[id].sok && !rows[id].canceled && !rows[id].terminal
                then Indexed(index, id, KeyOf(rows[id])) else index;
    forall key ensures Bucket(next, key) == Pick(ids + [id], Resting(rows, key)) {
      PickConcat(ids, [id], Resting(rows, key));
      assert [id][1..] == [];
    }
  }

  lemma NothingDoomed(v: Venue, limit: nat)
    requires |v.rows| <= limit
    ensures Pruned(v, limit) == v
  {
    PickAll(v.listing, NotIn([]));
    assert Pruned(v, limit).rows == v.rows;
  }

  lemma {:induction false} UsedUp(x: Visited, ids: seq<nat>, p: Print, now: int)
    requires x.available <= 0.0 || ids == []
    ensures VisitAll(x, ids, p, now) == x
    decreases |ids|
  {
    if ids != [] {
      UsedUp(x, ids[1..], p, now);
    }
  }

  /** Levels without size are ignored; an empty side falls back to the top of the book. */
  function Usable(levels: seq<Level>, top: Level): (usable: seq<Level>)
    ensures forall k :: 0 <= k < |usable| ==> usable[k].size > 0.0
  {
    var listed := Pick(levels, (l: Level) => l.size > 0.0);
    assert forall k :: 0 <= k < |listed| ==> listed[k] in listed;
    if listed != [] then listed else if top.size > 0.0 then [top] else []
  }
}
