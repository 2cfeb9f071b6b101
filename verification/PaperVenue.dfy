/**
 * The simulated hedge exchange: its order table, the index of resting post-only orders, its
 * balances, and what each call makes of them (backend/engine/paper_exchange.py:180-208, 345-354,
 * 535-727). Orders are numbered by the broker's sequence; `listing` is the table's insertion order.
 */
module PaperVenue {
  import opened Domain
  import opened Sums
  import opened Picks
  import opened PaperQueue

  type Step = x: real | x > 0.0 witness 1.0

  datatype GmoOrder = GmoOrder(
    symbol: string, side: Side, requested: real, filled: real, price: real, availableAt: int,
    sok: bool, canceled: bool, terminal: bool, step: Step, queue: Queue, version: int)

  datatype Asset = Yen | Base(symbol: string)

  /** One execution, as the balances see it. */
  datatype Deal = Deal(id: nat, symbol: string, side: Side, qty: real, notional: real)

  datatype Venue = Venue(
    rows: map<nat, GmoOrder>, listing: seq<nat>, index: map<Key, seq<nat>>,
    balances: map<Asset, real>, sequence: nat, deals: seq<Deal>)

  datatype Print = Print(symbol: string, price: real, qty: real, taker: Side)

  const LIMIT := 2000

  // ----- the index and the scan it stands for -----

  predicate Rests(row: GmoOrder, key: Key)
  {
    row.sok && !row.canceled && !row.terminal && row.symbol == key.symbol && row.side.Opposite() == key.side
  }

  function Resting(rows: map<nat, GmoOrder>, key: Key): nat -> bool
  {
    (id: nat) => id in rows && Rests(rows[id], key)
  }

  /** What a full scan of the table finds, in placement order. */
  function Scan(v: Venue, key: Key): seq<nat>
  {
    Pick(v.listing, Resting(v.rows, key))
  }

  function Bucket(index: map<Key, seq<nat>>, key: Key): seq<nat>
  {
    if key in index then index[key] else []
  }

  function KeyOf(row: GmoOrder): Key { Key(row.symbol, row.side.Opposite()) }

  function Indexed(index: map<Key, seq<nat>>, id: nat, key: Key): map<Key, seq<nat>>
  {
    index[key := Bucket(index, key) + [id]]
  }

  function Deindexed(index: map<Key, seq<nat>>, id: nat, key: Key): map<Key, seq<nat>>
  {
    if key !in index then index
    else
      var rest := Pick(index[key], (x: nat) => x != id);
      if rest == [] then index - {key} else index[key := rest]
  }

  ghost predicate IndexOk(v: Venue)
  {
    && (forall key :: Bucket(v.index, key) == Scan(v, key))
    && (forall key :: key in v.index ==> v.index[key] != [])
  }

  ghost predicate ListingOk(v: Venue)
  {
    && Ascending(v.listing)
    && (forall id :: id in v.listing <==> id in v.rows)
    && (forall id :: id in v.listing ==> id <= v.sequence)
  }

  // ----- balances -----

  function Balance(balances: map<Asset, real>, asset: Asset): real
  {
    if asset in balances then balances[asset] else 0.0
  }

  function Add(balances: map<Asset, real>, asset: Asset, delta: real): map<Asset, real>
  {
    balances[asset := Balance(balances, asset) + delta]
  }

  /** A purchase pays notional for base, a sale the other way round. */
  function Booked(balances: map<Asset, real>, d: Deal): map<Asset, real>
  {
    if d.side == Buy then Add(Add(balances, Yen, -d.notional), Base(d.symbol), d.qty)
    else Add(Add(balances, Base(d.symbol), -d.qty), Yen, d.notional)
  }

  function Delta(asset: Asset): Deal -> real
  {
    (d: Deal) =>
      match asset
      case Yen => -d.side.Sign() * d.notional
      case Base(symbol) => if d.symbol == symbol then d.side.Sign() * d.qty else 0.0
  }

  function QtyOf(id: nat): Deal -> real
  {
    (d: Deal) => if d.id == id then d.qty else 0.0
  }

  /** Balances are the opening ones plus every deal, signed. */
  ghost predicate BalancesOk(v: Venue, opening: map<Asset, real>)
  {
    forall asset :: Balance(v.balances, asset) == Balance(opening, asset) + Total(Delta(asset), v.deals)
  }

  // ----- orders -----

  function Truncate(x: real): int
  {
    if x >= 0.0 then x.Floor else -(-x).Floor
  }

  function StepDown(x: real, step: Step): real
  {
    Truncate(x / step) as real * step
  }

  ghost predicate Multiple(x: real, step: Step)
  {
    exists n: int :: Times(n, step) == x
  }

  function Times(n: int, step: real): real { n as real * step }

  ghost predicate RowOk(row: GmoOrder)
  {
    && row.queue.Ok() && 0.0 <= row.filled && (row.filled > 0.0 ==> row.filled <= row.requested && row.queue == Front)
    && Multiple(row.filled, row.step)
    && (row.terminal ==> row.filled == row.requested)
  }

  ghost predicate RowsOk(v: Venue)
  {
    forall id :: id in v.rows ==> RowOk(v.rows[id]) && v.rows[id].filled == Total(QtyOf(id), v.deals)
  }

  ghost predicate DealsOk(v: Venue)
  {
    forall k :: 0 <= k < |v.deals| ==> v.deals[k].id <= v.sequence && v.deals[k].qty > 0.0
  }

  ghost predicate VenueOk(v: Venue, opening: map<Asset, real>)
  {
    IndexOk(v) && ListingOk(v) && RowsOk(v) && DealsOk(v) && BalancesOk(v, opening)
  }

  // ----- the calls -----

  function Removable(rows: map<nat, GmoOrder>): nat -> bool
  {
    (id: nat) => id in rows && (rows[id].canceled || rows[id].terminal || !rows[id].sok)
  }

  /** Above the limit, the oldest finished orders are dropped, as many as there are too many. */
  function Doomed(v: Venue, limit: nat): seq<nat>
  {
    var excess := |v.rows| - limit;
    var removable := Pick(v.listing, Removable(v.rows));
    if excess <= 0 then [] else if excess < |removable| then removable[..excess] else removable
  }

  function NotIn(doomed: seq<nat>): nat -> bool
  {
    (id: nat) => id !in doomed
  }

  function Pruned(v: Venue, limit: nat): Venue
  {
    var doomed := Doomed(v, limit);
    v.(rows := map id | id in v.rows && id !in doomed :: v.rows[id],
       listing := Pick(v.listing, NotIn(doomed)))
  }

  function Insert(v: Venue, row: GmoOrder): Venue
  {
    var id := v.sequence + 1;
    v.(rows := v.rows[id := row], listing := v.listing + [id], sequence := id)
  }

  function PostOnlyRow(
    symbol: string, side: Side, size: real, price: real, step: Step, levels: seq<Level>, version: int, availableAt: int): GmoOrder
  {
    GmoOrder(symbol, side, size, 0.0, price, availableAt, true, false, false, step, FromLevels(levels, side, price), version)
  }

  /** A post-only order rests at the end of the table and of its bucket. */
  function PostOnly(v: Venue, row: GmoOrder): Venue
  {
    Pruned(Insert(v, row).(index := Indexed(v.index, v.sequence + 1, KeyOf(row))), LIMIT)
  }

  function MarketRow(
    symbol: string, side: Side, size: real, step: Step, filled: real, notional: real, availableAt: int): GmoOrder
  {
    GmoOrder(symbol, side, size, filled, if filled > 0.0 then notional / filled else 0.0, availableAt,
             false, false, false, step, Front, -1)
  }

  /** An order that is executed at once; its fill may be empty. */
  function Market(v: Venue, row: GmoOrder, notional: real): Venue
  {
    var w := Pruned(Insert(v, row), LIMIT);
    if row.filled > 0.0 then Dealt(w, Deal(v.sequence + 1, row.symbol, row.side, row.filled, notional)) else w
  }

  function Dealt(v: Venue, d: Deal): Venue
  {
    v.(balances := Booked(v.balances, d), deals := v.deals + [d])
  }

  function Cancel(v: Venue, id: nat): Result<Venue>
  {
    if id !in v.rows then Err(KeyError)
    else
      var row := v.rows[id].(canceled := true);
      Ok(Pruned(v.(rows := v.rows[id := row], index := Deindexed(v.index, id, KeyOf(row))), LIMIT))
  }

  /** A look at an order; its queue shrinks once for each newer market version. */
  function Resync(v: Venue, id: nat, levels: seq<Level>, version: int, now: int): Venue
    requires id in v.rows
  {
    var row := v.rows[id];
    if row.canceled || row.terminal || now < row.availableAt || version <= row.version then v
    else v.(rows := v.rows[id := row.(version := version, queue := row.queue.Resynced(FromLevels(levels, row.side, row.price)))])
  }

  // ----- a public print -----

  predicate Crosses(row: GmoOrder, p: Print)
  {
    row.price == p.price || Beyond(row, p)
  }

  predicate Beyond(row: GmoOrder, p: Print)
  {
    if row.side == Sell then p.price > row.price else p.price < row.price
  }

  predicate Takes(row: GmoOrder, p: Print, now: int)
  {
    Rests(row, Key(p.symbol, p.taker)) && now >= row.availableAt && Crosses(row, p)
  }

  datatype Turn = Turn(row: GmoOrder, consumed: real, executed: real)

  /** What an order that takes part makes of the volume offered. */
  function TurnOf(row: GmoOrder, p: Print, available: real): Turn
  {
    var q := if Beyond(row, p) then Front else row.queue;
    var consumed := q.Taken(available);
    var executed := StepDown(Min(row.requested - row.filled, available - consumed), row.step);
    if executed <= 0.0 then Turn(row.(queue := q.After(available)), consumed, 0.0)
    else
      var filled := row.filled + executed;
      Turn(row.(queue := q.After(available), filled := filled, terminal := filled >= row.requested), consumed, executed)
  }

  function Worth(qty: real, price: real): real { qty * price }

  datatype Visited = Visited(venue: Venue, available: real)

  function Visit(x: Visited, id: nat, p: Print, now: int): Visited
  {
    var v := x.venue;
    if x.available <= 0.0 || id !in v.rows || !Takes(v.rows[id], p, now) then x
    else
      var turn := TurnOf(v.rows[id], p, x.available);
      Visited(Written(v, id, turn), x.available - turn.consumed - turn.executed)
  }

  function Written(v: Venue, id: nat, turn: Turn): Venue
    requires id in v.rows
  {
    var w := v.(rows := v.rows[id := turn.row]);
    if turn.executed <= 0.0 then w
    else
      Dealt(
        if turn.row.terminal then w.(index := Deindexed(w.index, id, KeyOf(turn.row))) else w,
        Deal(id, turn.row.symbol, turn.row.side, turn.executed, Worth(turn.executed, turn.row.price)))
  }

  /** The orders named are visited in turn. */
  function VisitAll(x: Visited, ids: seq<nat>, p: Print, now: int): Visited
    decreases |ids|
  {
    if ids == [] then x else VisitAll(Visit(x, ids[0], p, now), ids[1..], p, now)
  }

  /** A print is offered to the orders of its index bucket. */
  function OnPrint(v: Venue, p: Print, now: int): Visited
  {
    VisitAll(Visited(v, p.qty), Bucket(v.index, Key(p.symbol, p.taker)), p, now)
  }

  // ----- the index refines a scan of the whole table -----

  predicate Idle(v: Venue, id: nat, p: Print)
  {
    id !in v.rows || !Rests(v.rows[id], Key(p.symbol, p.taker))
  }

  /** Visiting one order leaves what cannot take part in the print as it is. */
  lemma IdleStays(x: Visited, id: nat, other: nat, p: Print, now: int)
    requires Idle(x.venue, other, p)
    ensures Idle(Visit(x, id, p, now).venue, other, p)
  {
  }

  /** Orders outside the bucket make no difference, so the scan and the bucket give the same result. */
  lemma {:induction false} VisitSkipsIdle(x: Visited, ids: seq<nat>, keep: nat -> bool, p: Print, now: int)
    requires forall id :: id in ids && !keep(id) ==> Idle(x.venue, id, p)
    ensures VisitAll(x, Pick(ids, keep), p, now) == VisitAll(x, ids, p, now)
    decreases |ids|
  {
    if ids != [] {
      var next := Visit(x, ids[0], p, now);
      forall id | id in ids[1..] && !keep(id) ensures Idle(next.venue, id, p) {
        IdleStays(x, ids[0], id, p, now);
      }
      VisitSkipsIdle(next, ids[1..], keep, p, now);
      if keep(ids[0]) {
        var picked := Pick(ids, keep);
        assert picked[0] == ids[0] && picked[1..] == Pick(ids[1..], keep);
      } else {
        assert next == x;
        assert Pick(ids, keep) == Pick(ids[1..], keep);
      }
    }
  }

  lemma IndexRefinesScan(v: Venue, p: Print, now: int)
    requires IndexOk(v)
    ensures OnPrint(v, p, now) == VisitAll(Visited(v, p.qty), v.listing, p, now)
  {
    var key := Key(p.symbol, p.taker);
    assert Bucket(v.index, key) == Scan(v, key);
    VisitSkipsIdle(Visited(v, p.qty), v.listing, Resting(v.rows, key), p, now);
  }

  // ----- what every call keeps -----

  lemma {:induction false} PickWithout(ids: seq<nat>, f: nat -> bool, g: nat -> bool, id: nat)
    requires forall x :: x in ids ==> g(x) == (f(x) && x != id)
    ensures Pick(Pick(ids, f), (x: nat) => x != id) == Pick(ids, g)
  {
    PickPick(ids, f, (x: nat) => x != id, g);
  }

  /** The order changes but goes on resting, or goes on not resting: the index stays right. */
  lemma RewriteKeepsIndex(v: Venue, id: nat, row: GmoOrder)
    requires IndexOk(v) && id in v.rows && KeyOf(row) == KeyOf(v.rows[id])
    requires Rests(row, KeyOf(row)) == Rests(v.rows[id], KeyOf(row))
    ensures IndexOk(v.(rows := v.rows[id := row]))
  {
    var w := v.(rows := v.rows[id := row]);
    forall key ensures Bucket(w.index, key) == Scan(w, key) {
      PickSame(v.listing, Resting(v.rows, key), Resting(w.rows, key));
    }
  }

  /** An order that stops resting leaves its bucket. */
  lemma DeindexKeepsIndex(v: Venue, id: nat, row: GmoOrder)
    requires IndexOk(v) && id in v.rows && KeyOf(row) == KeyOf(v.rows[id]) && !Rests(row, KeyOf(row))
    ensures IndexOk(v.(rows := v.rows[id := row], index := Deindexed(v.index, id, KeyOf(row))))
  {
    var w := v.(rows := v.rows[id := row], index := Deindexed(v.index, id, KeyOf(row)));
    forall key ensures Bucket(w.index, key) == Scan(w, key) {
      if key == KeyOf(row) {
        PickWithout(v.listing, Resting(v.rows, key), Resting(w.rows, key), id);
        assert Bucket(w.index, key) == Pick(Bucket(v.index, key), (x: nat) => x != id);
      } else {
        PickSame(v.listing, Resting(v.rows, key), Resting(w.rows, key));
      }
    }
  }

  lemma InsertListed(v: Venue, row: GmoOrder)
    requires ListingOk(v)
    ensures ListingOk(Insert(v, row))
  {
    var listing := v.listing + [v.sequence + 1];
    forall j, k | 0 <= j < k < |listing| ensures listing[j] < listing[k] {
      assert v.listing[j] in v.listing;
    }
    forall id ensures id in listing <==> id in v.rows || id == v.sequence + 1 {
    }
  }

  lemma InsertScan(v: Venue, row: GmoOrder, key: Key)
    requires ListingOk(v)
    ensures Scan(Insert(v, row), key) == Scan(v, key) + if Rests(row, key) then [v.sequence + 1] else []
  {
    hide Ascending, Rests;
    var w := Insert(v, row);
    PickConcat(v.listing, [w.sequence], Resting(w.rows, key));
    PickSame(v.listing, Resting(v.rows, key), Resting(w.rows, key));
    assert [w.sequence][1..] == [];
  }

  /** Pruning drops finished orders only, so what rests is what rested before, in the same order. */
  lemma PruneKeepsIndex(v: Venue, limit: nat)
    requires IndexOk(v) && ListingOk(v)
    ensures IndexOk(Pruned(v, limit)) && ListingOk(Pruned(v, limit))
  {
    var doomed := Doomed(v, limit);
    var w := Pruned(v, limit);
    assert forall id :: id in doomed ==> Removable(v.rows)(id) by {
      assert forall id :: id in doomed ==> id in Pick(v.listing, Removable(v.rows));
    }
    var kept := NotIn(doomed);
    PickAscending(v.listing, kept);
    forall key ensures Bucket(w.index, key) == Scan(w, key) {
      PickPick(v.listing, kept, Resting(w.rows, key), Resting(v.rows, key));
    }
  }

  /** How many orders pruning leaves: at most the limit, or only orders that still rest. */
  lemma PruneBounds(v: Venue, limit: nat)
    requires ListingOk(v)
    ensures |Pruned(v, limit).rows| <= limit
            || forall id :: id in Pruned(v, limit).rows ==> !Removable(v.rows)(id)
  {
    var removable := Pick(v.listing, Removable(v.rows));
    var excess := |v.rows| - limit;
    if 0 < excess < |removable| {
      PickAscending(v.listing, Removable(v.rows));
      DropSome(v, removable, removable[..excess], excess);
      KeysLeft(v, limit, removable[..excess]);
    } else if excess > 0 {
      assert Doomed(v, limit) == removable;
      AllDropped(v, limit, removable);
    } else {
      KeysLeft(v, limit, []);
    }
  }

  lemma KeysLeft(v: Venue, limit: nat, doomed: seq<nat>)
    requires doomed == Doomed(v, limit)
    ensures |Pruned(v, limit).rows| == |v.rows.Keys - Members(doomed)|
  {
    assert Pruned(v, limit).rows.Keys == v.rows.Keys - Members(doomed);
  }

  lemma AllDropped(v: Venue, limit: nat, removable: seq<nat>)
    requires ListingOk(v) && removable == Pick(v.listing, Removable(v.rows)) == Doomed(v, limit)
    ensures forall id :: id in Pruned(v, limit).rows ==> !Removable(v.rows)(id)
  {
    forall id | id in Pruned(v, limit).rows ensures !Removable(v.rows)(id) {
      assert id in v.listing && id !in removable;
    }
  }

  lemma DropSome(v: Venue, removable: seq<nat>, doomed: seq<nat>, excess: nat)
    requires Ascending(removable) && excess < |removable| && doomed == removable[..excess]
    requires forall id :: id in removable ==> id in v.rows
    ensures |v.rows.Keys - Members(doomed)| == |v.rows| - excess
  {
    var gone := Members(doomed);
    MembersCount(doomed);
    assert gone <= v.rows.Keys by {
      forall id | id in gone ensures id in v.rows.Keys { assert id in removable; }
    }
    assert |gone| == excess;
    assert |v.rows.Keys - gone| == |v.rows.Keys| - |gone|;
  }

  lemma BookedBalance(balances: map<Asset, real>, d: Deal, asset: Asset)
    ensures Balance(Booked(balances, d), asset) == Balance(balances, asset) + Delta(asset)(d)
  {
  }

  lemma DealtKeepsBalances(v: Venue, d: Deal, opening: map<Asset, real>)
    requires BalancesOk(v, opening)
    ensures BalancesOk(Dealt(v, d), opening)
  {
    forall asset ensures Balance(Dealt(v, d).balances, asset) == Balance(opening, asset) + Total(Delta(asset), v.deals + [d]) {
      BookedBalance(v.balances, d, asset);
      TotalAppend(Delta(asset), v.deals, d);
    }
  }

  /** An order number not given out yet has no deals. */
  lemma {:induction false} NoDeals(deals: seq<Deal>, id: nat)
    requires forall k :: 0 <= k < |deals| ==> deals[k].id != id
    ensures Total(QtyOf(id), deals) == 0.0
  {
    if deals != [] {
      NoDeals(deals[1..], id);
    }
  }

  /** Rounding down to the grid gives the largest multiple that fits. */
  lemma StepDownLaw(x: real, step: Step)
    requires x >= 0.0
    ensures 0.0 <= StepDown(x, step) <= x < StepDown(x, step) + step
  {
    var q := x / step;
    assert q * step == x;
    TimesNat(q, step, x);
    var n := q.Floor;
    assert n as real <= q < n as real + 1.0;
    TimesMono(n as real, q, step);
    TimesMono(0.0, n as real, step);
    NextStep(q, n as real, step, x);
    assert StepDown(x, step) == n as real * step;
  }

  lemma TimesNat(q: real, step: Step, x: real)
    requires x >= 0.0 && q * step == x
    ensures q >= 0.0
  {
  }

  lemma TimesMono(a: real, b: real, step: Step)
    requires a <= b
    ensures a * step <= b * step
  {
  }

  lemma NextStep(q: real, n: real, step: real, x: real)
    requires step > 0.0 && q * step == x && q < n + 1.0
    ensures x < n * step + step
  {
    var d := n + 1.0 - q;
    assert d * step > 0.0;
    assert d * step + q * step == (d + q) * step;
    assert (n + 1.0) * step == n * step + step;
  }

  lemma MultipleSum(a: real, b: real, step: Step)
    requires Multiple(a, step) && Multiple(b, step)
    ensures Multiple(a + b, step)
  {
    var m: int :| Times(m, step) == a;
    var n: int :| Times(n, step) == b;
    assert (m + n) as real == m as real + n as real;
    assert Times(m + n, step) == a + b;
  }

  lemma Volumes(q: Queue, room: real, available: real, step: Step, consumed: real, executed: real)
    requires q.Ok() && room >= 0.0 && available > 0.0
    requires consumed == q.Taken(available) && executed == StepDown(Min(room, available - consumed), step)
    ensures 0.0 <= consumed && 0.0 <= executed <= room && consumed + executed <= available
    ensures executed > 0.0 ==> q.After(available) == Front
    ensures q.After(available).Ok() && q.After(available).Within(q)
  {
    TakenLaw(q, available);
    StepDownLaw(Min(room, available - consumed), step);
  }

  /** The volume taken is consumed and executed volume together, and the order stays on its grid and within its size. */
  lemma TurnLaw(row: GmoOrder, p: Print, available: real)
    requires RowOk(row) && row.filled <= row.requested && available > 0.0
    ensures TurnFair(row, TurnOf(row, p, available), available)
  {
    var q := if Beyond(row, p) then Front else row.queue;
    var room := row.requested - row.filled;
    var consumed := q.Taken(available);
    var raw := Min(room, available - consumed);
    var executed := StepDown(raw, row.step);
    Volumes(q, room, available, row.step, consumed, executed);
    assert Multiple(executed, row.step) by {
      assert Times(Truncate(raw / row.step), row.step) == executed;
    }
    MultipleSum(row.filled, executed, row.step);
    TurnFacts(row, TurnOf(row, p, available), available, q.After(available), consumed, executed);
  }

  ghost predicate TurnFair(row: GmoOrder, turn: Turn, available: real)
  {
    && turn.consumed >= 0.0 && turn.executed >= 0.0 && turn.consumed + turn.executed <= available
    && turn.row.filled == row.filled + turn.executed && turn.row.filled <= row.requested
    && turn.row == row.(queue := turn.row.queue, filled := turn.row.filled, terminal := turn.row.terminal)
    && turn.row.queue.Within(row.queue) && RowOk(turn.row)
    && (turn.executed == 0.0 ==> turn.row.terminal == row.terminal)
  }

  lemma TurnFacts(row: GmoOrder, turn: Turn, available: real, q: Queue, consumed: real, executed: real)
    requires RowOk(row) && 0.0 <= consumed && 0.0 <= executed <= row.requested - row.filled
    requires consumed + executed <= available && (executed > 0.0 ==> q == Front)
    requires q.Ok() && q.Within(row.queue) && Multiple(row.filled + executed, row.step)
    requires turn == if executed <= 0.0 then Turn(row.(queue := q), consumed, 0.0)
                     else Turn(row.(queue := q, filled := row.filled + executed,
                                    terminal := row.filled + executed >= row.requested), consumed, executed)
    ensures TurnFair(row, turn, available)
  {
  }
}
