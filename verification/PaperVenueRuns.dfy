/** What every call on the simulated hedge exchange keeps, and so what holds in every reachable state. */
module PaperVenueRuns {
  import opened Domain
  import opened Sums
  import opened Picks
  import opened PaperQueue
  import opened PaperVenue

  /** What a new order brings: nothing filled, or an execution on its grid that is booked at once. */
  ghost predicate NewRowOk(row: GmoOrder)
  {
    row.queue.Ok() && 0.0 <= row.filled <= row.requested && Multiple(row.filled, row.step) && !row.terminal
    && (row.filled > 0.0 ==> row.queue == Front)
  }

  /** Every part of the invariant but the index and the deals' sums of the order just written. */
  lemma InsertKeeps(v: Venue, row: GmoOrder, opening: map<Asset, real>)
    requires VenueOk(v, opening) && NewRowOk(row) && row.filled == 0.0
    ensures ListingOk(Insert(v, row)) && RowsOk(Insert(v, row)) && DealsOk(Insert(v, row)) && BalancesOk(Insert(v, row), opening)
  {
    InsertListed(v, row);
    NoDeals(v.deals, v.sequence + 1);
  }

  lemma PruneKeeps(v: Venue, limit: nat, opening: map<Asset, real>)
    requires VenueOk(v, opening)
    ensures VenueOk(Pruned(v, limit), opening)
  {
    PruneKeepsIndex(v, limit);
  }

  lemma InsertIndexed(v: Venue, row: GmoOrder, index: map<Key, seq<nat>>)
    requires IndexOk(v) && ListingOk(v)
    requires index == if Rests(row, KeyOf(row)) then Indexed(v.index, v.sequence + 1, KeyOf(row)) else v.index
    ensures IndexOk(Insert(v, row).(index := index))
  {
    var t := Insert(v, row).(index := index);
    forall key ensures Bucket(t.index, key) == Scan(t, key) {
      InsertScan(v, row, key);
      assert Scan(t, key) == Scan(Insert(v, row), key);
    }
  }

  /** Orders may go, or change without a fill; the books stay the same. */
  lemma SameBooks(v: Venue, w: Venue, opening: map<Asset, real>)
    requires RowsOk(v) && DealsOk(v) && BalancesOk(v, opening)
    requires w.deals == v.deals && w.balances == v.balances && w.sequence == v.sequence
    requires forall id :: id in w.rows ==> id in v.rows && RowOk(w.rows[id]) && w.rows[id].filled == v.rows[id].filled
    ensures RowsOk(w) && DealsOk(w) && BalancesOk(w, opening)
  {
  }

  lemma PostOnlyKeeps(v: Venue, row: GmoOrder, t: Venue, w: Venue, opening: map<Asset, real>)
    requires VenueOk(v, opening) && NewRowOk(row) && row.filled == 0.0 && row.sok && !row.canceled
    requires t == Insert(v, row).(index := Indexed(v.index, v.sequence + 1, KeyOf(row))) && w == Pruned(t, LIMIT)
    ensures VenueOk(w, opening)
  {
    hide IndexOk, BalancesOk, DealsOk, Pruned;
    InsertKeeps(v, row, opening);
    InsertIndexed(v, row, t.index);
    SameBooks(Insert(v, row), t, opening);
    PruneKeeps(t, LIMIT, opening);
  }

  /** A deal booked for an order whose filled quantity grows by the same amount. */
  lemma DealKeeps(v: Venue, w: Venue, d: Deal, opening: map<Asset, real>)
    requires RowsOk(v) && DealsOk(v) && BalancesOk(v, opening)
    requires w.deals == v.deals && w.balances == v.balances && v.sequence <= w.sequence && d.id <= w.sequence && d.qty > 0.0
    requires forall id :: id in w.rows && id != d.id ==> id in v.rows && w.rows[id] == v.rows[id]
    requires d.id in w.rows ==> RowOk(w.rows[d.id]) && w.rows[d.id].filled == Total(QtyOf(d.id), v.deals) + d.qty
    ensures RowsOk(Dealt(w, d)) && DealsOk(Dealt(w, d)) && BalancesOk(Dealt(w, d), opening)
  {
    forall id | id in w.rows ensures w.rows[id].filled == Total(QtyOf(id), w.deals + [d]) {
      TotalAppend(QtyOf(id), w.deals, d);
    }
    DealtKeepsBalances(w, d, opening);
  }

  lemma MarketIndexed(v: Venue, row: GmoOrder, w: Venue)
    requires IndexOk(v) && ListingOk(v) && !row.sok && w == Pruned(Insert(v, row), LIMIT)
    ensures IndexOk(w) && ListingOk(w)
    ensures w.deals == v.deals && w.balances == v.balances && w.sequence == v.sequence + 1
    ensures forall id :: id in w.rows && id != v.sequence + 1 ==> id in v.rows && w.rows[id] == v.rows[id]
    ensures v.sequence + 1 in w.rows ==> w.rows[v.sequence + 1] == row
  {
    hide IndexOk, ListingOk, Pruned;
    MarketInserted(v, row, Insert(v, row));
    PrunedRows(Insert(v, row), LIMIT);
  }

  lemma MarketInserted(v: Venue, row: GmoOrder, u: Venue)
    requires IndexOk(v) && ListingOk(v) && !row.sok && u == Insert(v, row)
    ensures IndexOk(u) && ListingOk(u)
  {
    InsertListed(v, row);
    InsertIndexed(v, row, v.index);
    assert u == u.(index := v.index);
  }

  lemma PrunedRows(v: Venue, limit: nat)
    requires IndexOk(v) && ListingOk(v)
    ensures var w := Pruned(v, limit);
            && IndexOk(w) && ListingOk(w) && w.deals == v.deals && w.balances == v.balances && w.sequence == v.sequence
            && forall id :: id in w.rows ==> id in v.rows && w.rows[id] == v.rows[id]
  {
    PruneKeepsIndex(v, limit);
  }

  lemma MarketKeeps(v: Venue, row: GmoOrder, d: Deal, w: Venue, t: Venue, opening: map<Asset, real>)
    requires VenueOk(v, opening) && NewRowOk(row) && !row.sok
    requires d.id == v.sequence + 1 && d.qty == row.filled && w == Pruned(Insert(v, row), LIMIT)
    requires t == if row.filled > 0.0 then Dealt(w, d) else w
    ensures VenueOk(t, opening)
  {
    MarketIndexed(v, row, w);
    NoDeals(v.deals, v.sequence + 1);
    if row.filled > 0.0 {
      DealKeeps(v, w, d, opening);
      ScanOfDealt(w, d);
    } else {
      InsertKeeps(v, row, opening);
      SameBooks(Insert(v, row), w, opening);
    }
  }

  lemma ScanOfDealt(v: Venue, d: Deal)
    requires IndexOk(v)
    ensures IndexOk(Dealt(v, d))
  {
    forall key ensures Bucket(Dealt(v, d).index, key) == Scan(Dealt(v, d), key) {
      assert Scan(Dealt(v, d), key) == Scan(v, key);
    }
  }

  lemma CancelKeeps(v: Venue, id: nat, opening: map<Asset, real>)
    requires VenueOk(v, opening) && id in v.rows
    ensures VenueOk(Cancel(v, id).value, opening)
  {
    var row := v.rows[id].(canceled := true);
    DeindexKeepsIndex(v, id, row);
    PruneKeeps(v.(rows := v.rows[id := row], index := Deindexed(v.index, id, KeyOf(row))), LIMIT, opening);
  }

  lemma ResyncKeeps(v: Venue, id: nat, levels: seq<Level>, version: int, now: int, opening: map<Asset, real>)
    requires VenueOk(v, opening) && id in v.rows && LevelsOk(levels)
    ensures VenueOk(Resync(v, id, levels, version, now), opening)
  {
    var w := Resync(v, id, levels, version, now);
    if w != v {
      assert w.rows[id].queue.Ok();
      RewriteKeepsIndex(v, id, w.rows[id]);
    }
  }

  lemma QueueOnlyKeeps(v: Venue, id: nat, row: GmoOrder, w: Venue, opening: map<Asset, real>)
    requires VenueOk(v, opening) && id in v.rows && w == v.(rows := v.rows[id := row])
    requires row == v.rows[id].(queue := row.queue) && RowOk(row)
    ensures VenueOk(w, opening)
  {
    RewriteKeepsIndex(v, id, row);
    SameBooks(v, w, opening);
    assert ListingOk(w);
  }

  lemma TerminalKeeps(v: Venue, id: nat, turn: Turn, available: real, w: Venue, d: Deal, t: Venue, opening: map<Asset, real>)
    requires VenueOk(v, opening) && id in v.rows
    requires TurnFair(v.rows[id], turn, available) && turn.executed > 0.0 && turn.row.terminal
    requires w == v.(rows := v.rows[id := turn.row], index := Deindexed(v.index, id, KeyOf(turn.row)))
    requires d == Deal(id, turn.row.symbol, turn.row.side, turn.executed, Worth(turn.executed, turn.row.price)) && t == Dealt(w, d)
    ensures VenueOk(t, opening)
  {
    DeindexKeepsIndex(v, id, turn.row);
    ExecutedKeeps(v, w, id, turn, available, d, t, opening);
  }

  lemma PartialKeeps(v: Venue, id: nat, turn: Turn, available: real, w: Venue, d: Deal, t: Venue, opening: map<Asset, real>)
    requires VenueOk(v, opening) && id in v.rows && !v.rows[id].terminal
    requires TurnFair(v.rows[id], turn, available) && turn.executed > 0.0 && !turn.row.terminal
    requires w == v.(rows := v.rows[id := turn.row])
    requires d == Deal(id, turn.row.symbol, turn.row.side, turn.executed, Worth(turn.executed, turn.row.price)) && t == Dealt(w, d)
    ensures VenueOk(t, opening)
  {
    RewriteKeepsIndex(v, id, turn.row);
    ExecutedKeeps(v, w, id, turn, available, d, t, opening);
  }

  lemma WrittenKeeps(v: Venue, id: nat, turn: Turn, available: real, t: Venue, opening: map<Asset, real>)
    requires VenueOk(v, opening) && id in v.rows && v.rows[id].sok && !v.rows[id].canceled && !v.rows[id].terminal
    requires TurnFair(v.rows[id], turn, available) && t == Written(v, id, turn)
    ensures VenueOk(t, opening)
  {
    var w := v.(rows := v.rows[id := turn.row]);
    var d := Deal(id, turn.row.symbol, turn.row.side, turn.executed, Worth(turn.executed, turn.row.price));
    if turn.executed <= 0.0 {
      assert t == w;
      QueueOnlyKeeps(v, id, turn.row, t, opening);
    } else if turn.row.terminal {
      var u := w.(index := Deindexed(w.index, id, KeyOf(turn.row)));
      assert t == Dealt(u, d);
      TerminalKeeps(v, id, turn, available, u, d, t, opening);
    } else {
      assert t == Dealt(w, d);
      PartialKeeps(v, id, turn, available, w, d, t, opening);
    }
  }

  lemma ExecutedKeeps(v: Venue, w: Venue, id: nat, turn: Turn, available: real, d: Deal, t: Venue, opening: map<Asset, real>)
    requires VenueOk(v, opening) && id in v.rows && TurnFair(v.rows[id], turn, available) && turn.executed > 0.0
    requires w == v.(rows := v.rows[id := turn.row], index := w.index) && IndexOk(w)
    requires d == Deal(id, turn.row.symbol, turn.row.side, turn.executed, Worth(turn.executed, turn.row.price)) && t == Dealt(w, d)
    ensures VenueOk(t, opening)
  {
    assert id in v.listing;
    DealKeeps(v, w, d, opening);
    ScanOfDealt(w, d);
  }

  ghost predicate SizesOk(v: Venue)
  {
    forall id :: id in v.rows ==> v.rows[id].filled <= v.rows[id].requested
  }

  lemma VisitKeeps(x: Visited, id: nat, p: Print, now: int, opening: map<Asset, real>)
    requires VenueOk(x.venue, opening) && SizesOk(x.venue) && x.available >= 0.0
    ensures var y := Visit(x, id, p, now);
            VenueOk(y.venue, opening) && SizesOk(y.venue) && 0.0 <= y.available <= x.available
  {
    var v := x.venue;
    if x.available > 0.0 && id in v.rows && Takes(v.rows[id], p, now) {
      var turn := TurnOf(v.rows[id], p, x.available);
      TurnLaw(v.rows[id], p, x.available);
      WrittenKeeps(v, id, turn, x.available, Written(v, id, turn), opening);
    }
  }

  /** A whole print keeps the invariant, and takes no more than it printed. */
  lemma {:induction false} VisitAllKeeps(x: Visited, ids: seq<nat>, p: Print, now: int, opening: map<Asset, real>)
    requires VenueOk(x.venue, opening) && SizesOk(x.venue) && x.available >= 0.0
    ensures var y := VisitAll(x, ids, p, now);
            VenueOk(y.venue, opening) && SizesOk(y.venue) && 0.0 <= y.available <= x.available
    decreases |ids|
  {
    if ids != [] {
      VisitKeeps(x, ids[0], p, now, opening);
      VisitAllKeeps(Visit(x, ids[0], p, now), ids[1..], p, now, opening);
    }
  }

  // ----- runs -----

  datatype Event =
    | PlacePostOnly(symbol: string, side: Side, size: real, price: real, step: Step, levels: seq<Level>, version: int, availableAt: int)
    | PlaceMarket(symbol: string, side: Side, size: real, step: Step, filled: real, notional: real, availableAt: int)
    | CancelOrder(id: nat)
    | Look(id: nat, levels: seq<Level>, version: int, now: int)
    | PublicPrint(trade: Print, now: int)

  /** Sizes are not negative, and a market order executes a multiple of its step within its size. */
  ghost predicate Enabled(v: Venue, e: Event)
  {
    match e
    case PlacePostOnly(_, _, size, _, _, levels, _, _) => size >= 0.0 && LevelsOk(levels)
    case PlaceMarket(_, _, size, step, filled, _, _) => 0.0 <= filled <= size && Multiple(filled, step)
    case CancelOrder(_) => true
    case Look(id, levels, _, _) => id in v.rows && LevelsOk(levels)
    case PublicPrint(_, _) => true
  }

  function Do(v: Venue, e: Event): Venue
  {
    match e
    case PlacePostOnly(symbol, side, size, price, step, levels, version, availableAt) =>
      PostOnly(v, PostOnlyRow(symbol, side, size, price, step, levels, version, availableAt))
    case PlaceMarket(symbol, side, size, step, filled, notional, availableAt) =>
      Market(v, MarketRow(symbol, side, size, step, filled, notional, availableAt), notional)
    case CancelOrder(id) => var r := Cancel(v, id); if r.Ok? then r.value else v
    case Look(id, levels, version, now) => if id in v.rows then Resync(v, id, levels, version, now) else v
    case PublicPrint(p, now) => if p.qty <= 0.0 then v else OnPrint(v, p, now).venue
  }

  ghost predicate Feasible(v: Venue, events: seq<Event>)
    decreases |events|
  {
    events == [] || (Enabled(v, events[0]) && Feasible(Do(v, events[0]), events[1..]))
  }

  function After(v: Venue, events: seq<Event>): Venue
    decreases |events|
  {
    if events == [] then v else After(Do(v, events[0]), events[1..])
  }

  lemma SizesAfter(v: Venue, row: GmoOrder, w: Venue)
    requires SizesOk(v) && row.filled <= row.requested
    requires forall id :: id in w.rows ==> w.rows[id] == row || (id in v.rows && w.rows[id] == v.rows[id])
    ensures SizesOk(w)
  {
  }

  lemma PlacePostOnlyKeeps(v: Venue, row: GmoOrder, w: Venue, opening: map<Asset, real>)
    requires VenueOk(v, opening) && NewRowOk(row) && row.filled == 0.0 && row.sok && !row.canceled
    requires w == PostOnly(v, row)
    ensures VenueOk(w, opening)
  {
    PostOnlyKeeps(v, row, Insert(v, row).(index := Indexed(v.index, v.sequence + 1, KeyOf(row))), w, opening);
  }

  lemma PlaceMarketKeeps(v: Venue, row: GmoOrder, notional: real, w: Venue, opening: map<Asset, real>)
    requires VenueOk(v, opening) && NewRowOk(row) && !row.sok
    requires w == Market(v, row, notional)
    ensures VenueOk(w, opening)
  {
    hide VenueOk, NewRowOk, Pruned;
    var d := Deal(v.sequence + 1, row.symbol, row.side, row.filled, notional);
    var u := Pruned(Insert(v, row), LIMIT);
    if row.filled > 0.0 {
      assert w == Dealt(u, d);
    } else {
      assert w == u;
    }
    MarketKeeps(v, row, d, u, w, opening);
  }

  lemma PostOnlyKeepsSizes(v: Venue, row: GmoOrder)
    requires SizesOk(v) && row.filled <= row.requested
    ensures SizesOk(PostOnly(v, row))
  {
    SizesAfter(v, row, PostOnly(v, row));
  }

  lemma MarketKeepsSizes(v: Venue, row: GmoOrder, notional: real)
    requires SizesOk(v) && row.filled <= row.requested
    ensures SizesOk(Market(v, row, notional))
  {
    SizesAfter(v, row, Market(v, row, notional));
  }

  lemma PostOnlyStep(v: Venue, e: Event, opening: map<Asset, real>)
    requires VenueOk(v, opening) && SizesOk(v) && Enabled(v, e) && e.PlacePostOnly?
    ensures VenueOk(Do(v, e), opening) && SizesOk(Do(v, e))
  {
    assert Multiple(0.0, e.step) by { assert Times(0, e.step) == 0.0; }
    var row := PostOnlyRow(e.symbol, e.side, e.size, e.price, e.step, e.levels, e.version, e.availableAt);
    var w := Do(v, e);
    PlacePostOnlyKeeps(v, row, w, opening);
    PostOnlyKeepsSizes(v, row);
  }

  lemma MarketStep(v: Venue, e: Event, opening: map<Asset, real>)
    requires VenueOk(v, opening) && SizesOk(v) && Enabled(v, e) && e.PlaceMarket?
    ensures VenueOk(Do(v, e), opening) && SizesOk(Do(v, e))
  {
    var row := MarketRow(e.symbol, e.side, e.size, e.step, e.filled, e.notional, e.availableAt);
    var w := Do(v, e);
    PlaceMarketKeeps(v, row, e.notional, w, opening);
    MarketKeepsSizes(v, row, e.notional);
  }

  lemma StepKeeps(v: Venue, e: Event, opening: map<Asset, real>)
    requires VenueOk(v, opening) && SizesOk(v) && Enabled(v, e)
    ensures VenueOk(Do(v, e), opening) && SizesOk(Do(v, e))
  {
    match e
    case PlacePostOnly(_, _, _, _, _, _, _, _) => PostOnlyStep(v, e, opening);
    case PlaceMarket(_, _, _, _, _, _, _) => MarketStep(v, e, opening);
    case CancelOrder(id) => if id in v.rows { CancelKeeps(v, id, opening); }
    case Look(id, levels, version, now) => ResyncKeeps(v, id, levels, version, now, opening);
    case PublicPrint(p, now) =>
      if p.qty > 0.0 { VisitAllKeeps(Visited(v, p.qty), Bucket(v.index, Key(p.symbol, p.taker)), p, now, opening); }
  }

  function Opened(balances: map<Asset, real>): Venue
  {
    Venue(map[], [], map[], balances, 0, [])
  }

  /**
   * In every reachable state each index bucket is exactly what a scan of the table finds, every fill is
   * on its step grid and within its order's size, and balances are the opening ones plus all deals.
   */
  lemma {:induction false} RunKeeps(v: Venue, events: seq<Event>, opening: map<Asset, real>)
    requires VenueOk(v, opening) && SizesOk(v) && Feasible(v, events)
    ensures VenueOk(After(v, events), opening) && SizesOk(After(v, events))
    decreases |events|
  {
    if events != [] {
      StepKeeps(v, events[0], opening);
      RunKeeps(Do(v, events[0]), events[1..], opening);
    }
  }

  lemma ReachableIndexed(opening: map<Asset, real>, events: seq<Event>, p: Print, now: int)
    requires Feasible(Opened(opening), events)
    ensures var v := After(Opened(opening), events);
            && (forall key :: Bucket(v.index, key) == Scan(v, key))
            && OnPrint(v, p, now) == VisitAll(Visited(v, p.qty), v.listing, p, now)
  {
    RunKeeps(Opened(opening), events, opening);
    IndexRefinesScan(After(Opened(opening), events), p, now);
  }

  lemma ReachableBalances(opening: map<Asset, real>, events: seq<Event>, asset: Asset)
    requires Feasible(Opened(opening), events)
    ensures var v := After(Opened(opening), events);
            Balance(v.balances, asset) == Balance(opening, asset) + Total(Delta(asset), v.deals)
  {
    RunKeeps(Opened(opening), events, opening);
  }

  lemma ReachableFills(opening: map<Asset, real>, events: seq<Event>, id: nat)
    requires Feasible(Opened(opening), events) && id in After(Opened(opening), events).rows
    ensures var v := After(Opened(opening), events);
            var row := v.rows[id];
            && row.filled == Total(QtyOf(id), v.deals) && row.filled <= row.requested
            && exists n: int :: Times(n, row.step) == row.filled
  {
    RunKeeps(Opened(opening), events, opening);
  }

  // ----- queues shrink once for each market version -----

  /** Looking twice at one market version changes nothing the second time. */
  lemma ResyncOnce(v: Venue, id: nat, levels: seq<Level>, again: seq<Level>, version: int, now: int, later: int)
    requires id in v.rows && now <= later
    requires Resync(v, id, levels, version, now) != v
    ensures var w := Resync(v, id, levels, version, now);
            && w.rows[id].queue.Within(v.rows[id].queue) && w.rows[id].filled == v.rows[id].filled
            && Resync(w, id, again, version, later) == w
  {
  }
}
