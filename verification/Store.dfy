/**
 * The durable tables and their transactions, as functions on table values
 * (backend/engine/state_store.py). A row's number is its primary key. One engine
 * database holds one trading mode; timestamps are kept only where a query orders by them.
 */
module Store {
  import opened Domain

  datatype OrderRow = OrderRow(
    symbol: string, side: Side, qty: real, price: real,
    state: OrderState, exchangeId: Option<string>, cumulative: real)

  /** Trade ids are unique strings; the two formats that occur never coincide. */
  datatype TradeId = VenueTrade(id: string) | PaperTrade(trade: string, client: string, number: nat)

  datatype FillEvent = FillEvent(
    client: string, orderId: string, tradeId: TradeId, symbol: string, side: Side,
    cumulative: real, price: real, fee: real)

  datatype FillRow = FillRow(event: FillEvent, incremental: real)

  datatype Intent = Intent(
    fillId: nat, key: Key, qty: real, filled: real, notional: real, fee: real,
    status: HedgeStatus, attempts: nat, orderId: Option<nat>)
  {
    function Remaining(): real { qty - filled }
  }

  datatype Kind = SOK | FAK

  datatype SubmissionStatus = Submitting | Acked | Resolved | Absent | Escalated

  datatype Submission = Submission(
    key: Key, qty: real, kind: Kind, status: SubmissionStatus, ids: seq<nat>, submittedAt: int,
    orderId: Option<nat>, filled: real, notional: real, fee: real)
  {
    predicate Unresolved() { status == Submitting || status == Acked }
  }

  datatype Tables = Tables(
    orders: map<string, OrderRow>, fills: seq<FillRow>,
    intents: seq<Intent>, submissions: seq<Submission>)

  const Empty := Tables(map[], [], [], [])

  // ----- client orders and fills -----

  function CreateOrder(s: Tables, client: string, symbol: string, side: Side, qty: real, price: real): Tables
  {
    if client in s.orders then s
    else s.(orders := s.orders[client := OrderRow(symbol, side, qty, price, New, None, 0.0)])
  }

  function TransitionOrder(s: Tables, client: string, target: OrderState, exchangeId: Option<string>): Result<Tables>
  {
    if client !in s.orders then Err(KeyError)
    else if !OrderMove(s.orders[client].state, target) then Err(ValueError)
    else
      var row := s.orders[client];
      Ok(s.(orders := s.orders[client := row.(
        state := target, exchangeId := if exchangeId == None then row.exchangeId else exchangeId)]))
  }

  predicate SameTrade(a: FillEvent, b: FillEvent)
  {
    a.orderId == b.orderId && a.tradeId == b.tradeId
  }

  predicate Recorded(fills: seq<FillRow>, e: FillEvent)
  {
    exists k :: 0 <= k < |fills| && SameTrade(fills[k].event, e)
  }

  function FillState(state: OrderState, complete: bool): OrderState
  {
    if state == Canceled || state == Filled then state
    else if complete then Filled
    else if state == Canceling then state
    else Partial
  }

  /** What a committed fill transaction leaves, and the fill it publishes, if any. */
  datatype Ingested = Ingested(store: Tables, published: Option<nat>)

  function RecordFill(s: Tables, e: FillEvent): Result<Ingested>
  {
    if Recorded(s.fills, e) then Ok(Ingested(s, None))
    else if e.client !in s.orders then Err(KeyError)
    else
      var row := s.orders[e.client];
      var incremental := Max(0.0, e.cumulative - row.cumulative);
      var cumulative := Max(row.cumulative, e.cumulative);
      var next := FillState(row.state, cumulative >= row.qty);
      if !OrderMove(row.state, next) then Err(ValueError)
      else
        var t := s.(
          orders := s.orders[e.client := row.(cumulative := cumulative, state := next)],
          fills := s.fills + [FillRow(e, incremental)]);
        if incremental == 0.0 then Ok(Ingested(t, None))
        else Ok(Ingested(
          t.(intents := t.intents + [NewIntent(|s.fills|, e, incremental)]), Some(|s.fills|)))
  }

  function NewIntent(fillId: nat, e: FillEvent, qty: real): Intent
  {
    Intent(fillId, Key(e.symbol, e.side.Opposite()), qty, 0.0, 0.0, 0.0, Pending, 0, None)
  }

  /** Fills without a hedge row, in row order, get the row they are missing. */
  function Backfill(s: Tables, k: nat): Tables
    requires k <= |s.fills|
    decreases |s.fills| - k
  {
    if k == |s.fills| then s
    else if s.fills[k].incremental <= 0.0 || (exists i :: 0 <= i < |s.intents| && s.intents[i].fillId == k)
      then Backfill(s, k + 1)
    else
      Backfill(s.(intents := s.intents + [NewIntent(k, s.fills[k].event, s.fills[k].incremental)]), k + 1)
  }

  // ----- hedge intents -----

  function TransitionHedge(s: Tables, i: nat, target: HedgeStatus, orderId: Option<nat>): Result<Tables>
  {
    if i >= |s.intents| then Err(KeyError)
    else if !HedgeMove(s.intents[i].status, target) then Err(ValueError)
    else
      var row := s.intents[i];
      Ok(s.(intents := s.intents[i := row.(
        status := target,
        attempts := if target == Hedging && row.status != Hedging then row.attempts + 1 else row.attempts,
        orderId := if orderId == None then row.orderId else orderId)]))
  }

  // ----- hedge submissions -----

  predicate InTable(ids: seq<nat>, size: nat)
  {
    forall k :: 0 <= k < |ids| ==> ids[k] < size
  }

  /** The join table only names existing intents; the database enforces it. */
  predicate ForeignKeys(s: Tables)
  {
    forall j :: 0 <= j < |s.submissions| ==> InTable(s.submissions[j].ids, |s.intents|)
  }

  /** list(dict.fromkeys(ids)): the first occurrence of each id, in order. */
  function Dedupe(ids: seq<nat>): seq<nat>
  {
    if ids == [] then []
    else
      var front := Dedupe(ids[..|ids| - 1]);
      if ids[|ids| - 1] in front then front else front + [ids[|ids| - 1]]
  }

  predicate OneHedgingGroup(s: Tables, ids: seq<nat>, key: Key)
  {
    forall i :: i in ids ==> i < |s.intents| && s.intents[i].status == Hedging && s.intents[i].key == key
  }

  /** Some unresolved submission already carries one of the intents. */
  predicate Blocked(submissions: seq<Submission>, ids: seq<nat>)
  {
    exists k, i :: 0 <= k < |submissions| && submissions[k].Unresolved() && i in submissions[k].ids && i in ids
  }

  function Prepare(s: Tables, ids: seq<nat>, key: Key, qty: real, kind: Kind, submittedAt: int): Result<Tables>
  {
    var unique := Dedupe(ids);
    if unique == [] || qty <= 0.0 then Err(ValueError)
    else if !OneHedgingGroup(s, unique, key) then Err(ValueError)
    else if Blocked(s.submissions, unique) then Err(ValueError)
    else Ok(s.(submissions := s.submissions + [
      Submission(key, qty, kind, Submitting, unique, submittedAt, None, 0.0, 0.0, 0.0)]))
  }

  function Acknowledge(s: Tables, k: nat, orderId: nat): Result<Tables>
  {
    if k >= |s.submissions| then Err(KeyError)
    else if !s.submissions[k].Unresolved() then Err(ValueError)
    else if s.submissions[k].orderId != None && s.submissions[k].orderId != Some(orderId) then Err(ValueError)
    else Ok(s.(submissions := s.submissions[k := s.submissions[k].(status := Acked, orderId := Some(orderId))]))
  }

  /** One intent's greedy share of `available`, with notional and fee at the submission's rates. */
  function Credit(row: Intent, available: real, price: real, feeRate: real, orderId: nat): Intent
  {
    var share := Share(row, available);
    row.(
      filled := row.filled + share,
      notional := row.notional + price * share,
      fee := row.fee + feeRate * share,
      orderId := Some(orderId))
  }

  function Share(row: Intent, available: real): real
  {
    Min(Max(0.0, row.Remaining()), available)
  }

  /** An amount per unit filled; a submission without fills has no rate. */
  function Rate(amount: real, filled: real): real
  {
    if filled > 0.0 then amount / filled else 0.0
  }

  /** The allocation loop of a finished submission over its intents, in listing order. */
  function Allocate(
    intents: seq<Intent>, ids: seq<nat>, available: real, price: real, feeRate: real, orderId: nat): (r: seq<Intent>)
    requires InTable(ids, |intents|)
    ensures |r| == |intents|
    decreases |ids|
  {
    if ids == [] then intents
    else
      var row := intents[ids[0]];
      Allocate(
        intents[ids[0] := Credit(row, available, price, feeRate, orderId)], ids[1..],
        available - Share(row, available), price, feeRate, orderId)
  }

  function Finish(
    s: Tables, k: nat, filled: real, notional: real, fee: real, orderId: Option<nat>): Result<Tables>
    requires ForeignKeys(s)
  {
    if k >= |s.submissions| then Err(KeyError)
    else
      var sub := s.submissions[k];
      if sub.status == Resolved then Ok(s)
      else if !sub.Unresolved() then Err(ValueError)
      else if filled < 0.0 || filled > sub.qty then Err(ValueError)
      else if orderId == None && sub.orderId == None then Err(ValueError)
      else
        var bound := if orderId == None then sub.orderId else orderId;
        Ok(s.(
          intents := Allocate(s.intents, sub.ids, filled, Rate(notional, filled), Rate(fee, filled), bound.value),
          submissions := s.submissions[k := sub.(
            status := Resolved, orderId := bound, filled := filled, notional := notional, fee := fee)]))
  }

  function SetSubmissionStatus(s: Tables, k: nat, status: SubmissionStatus): Result<Tables>
  {
    if status != Absent && status != Escalated then Err(ValueError)
    else if k >= |s.submissions| then Err(KeyError)
    else if !s.submissions[k].Unresolved() && s.submissions[k].status != status then Err(ValueError)
    else Ok(s.(submissions := s.submissions[k := s.submissions[k].(status := status)]))
  }

  /** Signed unhedged quantity of the intents still being worked on, for one symbol. */
  function PendingAt(symbol: string): Intent -> real
  {
    (i: Intent) => if i.key.symbol == symbol && IsPending(i.status) then i.Remaining() * i.key.side.Sign() else 0.0
  }
}
