/**
 * Cancelling, confirming, placing and replacing a maker order on the live exchange
 * (backend/engine/execution_gateway.py:90-148, 159-249 and 309-349). What the exchange answers is a
 * parameter: None stands for a lost or failed response.
 */
module ExecutionGateway {
  import opened Domain
  import S = Store
  import opened StateStore

  /** One look at an order: the state reported, and the fills the reconciler then reads, if it succeeds. */
  datatype Look = Look(report: Option<OrderState>, sweep: Option<seq<S.FillEvent>>)

  /** How the exchange takes a cancel request. */
  datatype CancelAnswer = Accepted | Lost | AlreadyDone | Rejected

  datatype PlaceAnswer = Acknowledged(id: string) | NoId | Timeout | Refused

  predicate SweepFor(sweep: Option<seq<S.FillEvent>>, client: string)
  {
    sweep.Some? ==> forall k :: 0 <= k < |sweep.value| ==> sweep.value[k].client == client
  }

  /** Where a reconciler is configured, its fills were read and are in the tables. */
  predicate Reconciled(sweep: Option<seq<S.FillEvent>>, fills: seq<S.FillRow>, reconciles: bool)
  {
    reconciles ==> sweep.Some? && AllRecorded(fills, sweep.value)
  }

  predicate Ended(state: OrderState) { state == Canceled || state == Filled }

  predicate AllRecorded(fills: seq<S.FillRow>, events: seq<S.FillEvent>)
  {
    forall k :: 0 <= k < |events| ==> S.Recorded(fills, events[k])
  }

  /** Only this order's row has changed; no fill has been lost. */
  ghost predicate OnlyOrder(before: S.Tables, after: S.Tables, client: string)
  {
    && before.orders.Keys == after.orders.Keys
    && (forall c :: c in before.orders && c != client ==> after.orders[c] == before.orders[c])
    && before.fills <= after.fills
  }

  lemma OnlyOrderChains(a: S.Tables, b: S.Tables, c: S.Tables, client: string)
    requires OnlyOrder(a, b, client) && OnlyOrder(b, c, client)
    ensures OnlyOrder(a, c, client)
  {
  }

  lemma RecordedStays(fills: seq<S.FillRow>, more: seq<S.FillRow>, events: seq<S.FillEvent>)
    requires fills <= more && AllRecorded(fills, events)
    ensures AllRecorded(more, events)
  {
    forall k | 0 <= k < |events| ensures S.Recorded(more, events[k]) {
      var j :| 0 <= j < |fills| && S.SameTrade(fills[j].event, events[k]);
      assert more[j] == fills[j];
    }
  }

  /**
   * Why an order may have ended: it had already, its fills completed it, or the exchange reported the
   * end and every fill the reconciler read is in the tables.
   */
  ghost predicate EndJustified(before: S.Tables, after: S.Tables, client: string, looks: seq<Look>, reconciles: bool)
  {
    client in before.orders && client in after.orders && Ended(after.orders[client].state) && !Ended(before.orders[client].state) ==>
      || (after.orders[client].state == Filled && after.orders[client].cumulative >= after.orders[client].qty)
      || exists k :: 0 <= k < |looks| && Witnesses(looks[k], after, client, reconciles)
  }

  ghost predicate Witnesses(look: Look, after: S.Tables, client: string, reconciles: bool)
    requires client in after.orders
  {
    && look.report == Some(after.orders[client].state)
    && (reconciles ==> look.sweep.Some? && AllRecorded(after.fills, look.sweep.value))
  }

  class ExecutionGateway {
    const store: StateStore
    const reconciles: bool

    constructor (store: StateStore, reconciles: bool)
      ensures this.store == store && this.reconciles == reconciles
    {
      this.store, this.reconciles := store, reconciles;
    }

    /** The reconciler's events, one after the other; the first refused one ends it. */
    method IngestSweep(client: string, events: seq<S.FillEvent>) returns (ok: bool)
      requires client in store.orders
      requires forall k :: 0 <= k < |events| ==> events[k].client == client
      modifies store
      ensures OnlyOrder(old(store.Value()), store.Value(), client)
      ensures ok ==> AllRecorded(store.fills, events)
      ensures Ended(store.orders[client].state) && !Ended(old(store.orders)[client].state) ==>
                store.orders[client].state == Filled && store.orders[client].cumulative >= store.orders[client].qty
      ensures Ended(old(store.orders)[client].state) ==> store.orders[client].state == old(store.orders)[client].state
    {
      ghost var before := store.Value();
      for k := 0 to |events|
        invariant OnlyOrder(before, store.Value(), client)
        invariant AllRecorded(store.fills, events[..k])
        invariant Ended(store.orders[client].state) && !Ended(before.orders[client].state) ==>
                    store.orders[client].state == Filled && store.orders[client].cumulative >= store.orders[client].qty
        invariant Ended(before.orders[client].state) ==> store.orders[client].state == before.orders[client].state
      {
        ghost var mid := store.Value();
        var r := store.RecordCumulativeFill(events[k]);
        if r.Err? {
          return false;
        }
        RecordLaw(mid, events[k], store.Value());
        OnlyOrderChains(before, mid, store.Value(), client);
        RecordedStays(mid.fills, store.fills, events[..k]);
        assert events[..k + 1] == events[..k] + [events[k]];
      }
      assert events[..|events|] == events;
      ok := true;
    }

    /** A look is turned into a state of the order; CANCELED and FILLED wait for the fills. */
    method Confirm(client: string, id: string, look: Look) returns (r: Result<S.OrderRow>)
      requires client in store.orders && SweepFor(look.sweep, client)
      modifies store
      ensures OnlyOrder(old(store.Value()), store.Value(), client)
      ensures r.Ok? ==> r.value == store.orders[client]
      ensures EndJustified(old(store.Value()), store.Value(), client, [look], reconciles)
      ensures Ended(old(store.orders)[client].state) ==> store.orders[client].state == old(store.orders)[client].state
    {
      ghost var before := store.Value();
      if look.report == None {
        r := store.TransitionOrder(client, OrderState.Unknown, Some(id));
        return;
      }
      var state := look.report.value;
      if Ended(state) && reconciles {
        var ok := false;
        if look.sweep.Some? {
          ok := IngestSweep(client, look.sweep.value);
        }
        if !ok {
          r := store.TransitionOrder(client, OrderState.Unknown, Some(id));
          return;
        }
        if Ended(store.orders[client].state) {
          return Ok(store.orders[client]);
        }
      }
      var current := store.orders[client].state;
      if current == Canceling && state == Open {
        return Ok(store.orders[client]);
      }
      if state == Canceled && current != OrderState.Unknown && current != Canceling {
        r := store.TransitionOrder(client, OrderState.Unknown, None);
        if r.Err? {
          return;
        }
      }
      r := store.TransitionOrder(client, state, Some(id));
      assert [look][0] == look;
    }

    /** Looks until the order has ended; when the time is up it is UNKNOWN. */
    method WaitTerminal(client: string, id: string, looks: seq<Look>) returns (r: Result<S.OrderRow>)
      requires client in store.orders && forall k :: 0 <= k < |looks| ==> SweepFor(looks[k].sweep, client)
      modifies store
      ensures OnlyOrder(old(store.Value()), store.Value(), client)
      ensures r.Ok? ==> r.value == store.orders[client]
      ensures EndJustified(old(store.Value()), store.Value(), client, looks, reconciles)
      ensures Ended(old(store.orders)[client].state) ==> store.orders[client].state == old(store.orders)[client].state
      ensures r.Ok? && !Ended(store.orders[client].state) ==> store.orders[client].state == OrderState.Unknown
    {
      ghost var before := store.Value();
      for k := 0 to |looks|
        invariant OnlyOrder(before, store.Value(), client)
        invariant Ended(store.orders[client].state) ==> Ended(before.orders[client].state)
        invariant Ended(before.orders[client].state) ==> store.orders[client].state == before.orders[client].state
      {
        ghost var mid := store.Value();
        r := Confirm(client, id, looks[k]);
        OnlyOrderChains(before, mid, store.Value(), client);
        JustifiedByOne(mid, store.Value(), before, client, looks, k, reconciles);
        if r.Err? || Ended(store.orders[client].state) {
          return;
        }
      }
      r := store.TransitionOrder(client, OrderState.Unknown, None);
    }

    /**
     * An order that has ended is returned as it is; otherwise it is CANCELING before the request is sent.
     * `requested` is what the tables hold when the request is sent, if it is.
     */
    method CancelOrder(client: string, answer: CancelAnswer, looks: seq<Look>)
        returns (r: Result<S.OrderRow>, ghost requested: Option<S.Tables>)
      requires client in store.orders && forall k :: 0 <= k < |looks| ==> SweepFor(looks[k].sweep, client)
      modifies store
      ensures OnlyOrder(old(store.Value()), store.Value(), client)
      ensures r.Ok? ==> r.value == store.orders[client]
      ensures EndJustified(old(store.Value()), store.Value(), client, looks, reconciles)
      ensures Ended(old(store.orders)[client].state) ==> r.Ok? && store.Value() == old(store.Value())
      ensures requested.Some? <==>
                var row := old(store.orders)[client];
                !Ended(row.state) && row.exchangeId.Some? && OrderMove(row.state, Canceling)
      ensures requested.Some? ==>
                requested.value == old(store.Value()).(
                  orders := old(store.orders)[client := old(store.orders)[client].(state := Canceling)])
      ensures requested.Some? && r.Ok? && answer != AlreadyDone ==>
                Ended(store.orders[client].state) || store.orders[client].state == OrderState.Unknown
    {
      requested := None;
      ghost var before := store.Value();
      var row := store.orders[client];
      if Ended(row.state) {
        r := Ok(row);
        return;
      }
      if row.exchangeId == None {
        r := store.TransitionOrder(client, OrderState.Unknown, None);
        return;
      }
      var id := row.exchangeId.value;
      r := store.TransitionOrder(client, Canceling, None);
      if r.Err? {
        return;
      }
      ghost var mid := store.Value();
      requested := Some(mid);
      match answer {
        case Lost => r := store.TransitionOrder(client, OrderState.Unknown, None);
        case Rejected => r := store.TransitionOrder(client, OrderState.Unknown, None);
        case AlreadyDone =>
          if looks == [] {
            r := Confirm(client, id, Look(None, None));
            JustifiedByOne(mid, store.Value(), before, client, [Look(None, None)], 0, reconciles);
          } else {
            r := Confirm(client, id, looks[0]);
            JustifiedByOne(mid, store.Value(), before, client, looks, 0, reconciles);
          }
          OnlyOrderChains(before, mid, store.Value(), client);
        case Accepted =>
          r := WaitTerminal(client, id, looks);
          OnlyOrderChains(before, mid, store.Value(), client);
      }
    }

    /**
     * A new order: durable before the request, and OPEN only with an exchange id. `requested` is what the
     * tables hold when the request is sent.
     */
    method PlaceOrder(client: string, symbol: string, side: Side, qty: real, price: real, answer: PlaceAnswer)
        returns (r: Result<S.OrderRow>, ghost requested: S.Tables)
      requires client !in store.orders
      modifies store
      ensures requested == old(store.Value()).(
                orders := old(store.orders)[client := S.OrderRow(symbol, side, qty, price, OrderState.Placing, None, 0.0)])
      ensures r.Ok? && client in store.orders && r.value == store.orders[client]
      ensures store.Value() == old(store.Value()).(orders := old(store.orders)[client := r.value])
      ensures r.value == S.OrderRow(symbol, side, qty, price,
                match answer case Acknowledged(_) => Open case Refused => Failed case _ => OrderState.Unknown,
                match answer case Acknowledged(id) => Some(id) case _ => None, 0.0)
    {
      var row := store.CreateOrder(client, symbol, side, qty, price);
      r := store.TransitionOrder(client, OrderState.Placing, None);
      requested := store.Value();
      match answer {
        case Acknowledged(id) => r := store.TransitionOrder(client, Open, Some(id));
        case NoId => r := store.TransitionOrder(client, OrderState.Unknown, None);
        case Timeout => r := store.TransitionOrder(client, OrderState.Unknown, None);
        case Refused => r := store.TransitionOrder(client, Failed, None);
      }
    }

    /**
     * The end of a cancel-all, once the exchange lists none of the orders: each listed order is closed
     * after its fills, and one without an exchange id stays open and is an error. `sweeps` is None for
     * an order whose fills could not be read, which ends the call.
     */
    method CloseListed(listed: seq<string>, sweeps: map<string, Option<seq<S.FillEvent>>>) returns (ok: bool)
      requires forall c :: c in listed <==> c in store.orders && Listed(store.orders[c].state)
      requires forall j, k :: 0 <= j < k < |listed| ==> listed[j] != listed[k]
      requires forall c :: c in listed ==> c in sweeps && SweepFor(sweeps[c], c)
      modifies store
      ensures store.orders.Keys == old(store.orders).Keys
      ensures ok ==> forall c :: c in store.orders ==> !Listed(store.orders[c].state)
      ensures ok ==> forall c :: c in listed ==> Ended(store.orders[c].state) && Reconciled(sweeps[c], store.fills, reconciles)
      ensures forall c :: c in store.orders && c !in listed ==> store.orders[c] == old(store.orders)[c]
    {
      ghost var before := store.Value();
      ok := true;
      for k := 0 to |listed|
        invariant store.orders.Keys == before.orders.Keys && before.fills <= store.fills
        invariant forall c :: c in store.orders && c !in listed[..k] ==> store.orders[c] == before.orders[c]
        invariant ok ==> forall j :: 0 <= j < k ==>
                    Ended(store.orders[listed[j]].state) && Reconciled(sweeps[listed[j]], store.fills, reconciles)
      {
        var c := listed[k];
        ghost var mid := store.Value();
        assert c in listed;
        assert c !in listed[..k];
        if store.orders[c].exchangeId == None {
          ok := false;
        } else {
          var closed := CloseOne(c, sweeps[c]);
          if !closed {
            return false;
          }
          forall j | 0 <= j < k && Reconciled(sweeps[listed[j]], mid.fills, reconciles)
            ensures Reconciled(sweeps[listed[j]], store.fills, reconciles)
          {
            if reconciles { RecordedStays(mid.fills, store.fills, sweeps[listed[j]].value); }
          }
        }
      }
      if ok {
        forall c | c in store.orders ensures !Listed(store.orders[c].state) {
          if c in listed {
            var j :| 0 <= j < |listed| && listed[j] == c;
          }
        }
      }
    }

    method CloseOne(client: string, sweep: Option<seq<S.FillEvent>>) returns (ok: bool)
      requires client in store.orders && Listed(store.orders[client].state) && SweepFor(sweep, client)
      modifies store
      ensures OnlyOrder(old(store.Value()), store.Value(), client)
      ensures ok ==> Ended(store.orders[client].state) && Reconciled(sweep, store.fills, reconciles)
    {
      if reconciles {
        if sweep == None {
          return false;
        }
        ok := IngestSweep(client, sweep.value);
        if !ok {
          return;
        }
      }
      ok := true;
      if store.orders[client].state == Filled {
        return;
      }
      if store.orders[client].state != Canceling {
        var r := store.TransitionOrder(client, OrderState.Unknown, None);
        if r.Err? {
          return false;
        }
      }
      var r := store.TransitionOrder(client, Canceled, None);
      ok := r.Ok?;
    }

    /**
     * A new order is placed only without an old one, or when the old one is CANCELED; a filled old one is
     * returned instead, and anything else is an error that places nothing. `allowed` is the risk gate's
     * answer, asked once the old order is gone.
     */
    method Replace(
      current: Option<string>, client: string, symbol: string, side: Side, qty: real, price: real,
      answer: CancelAnswer, looks: seq<Look>, allowed: bool, placing: PlaceAnswer) returns (r: Result<S.OrderRow>)
      requires client !in store.orders
      requires current.Some? ==> current.value in store.orders && forall k :: 0 <= k < |looks| ==> SweepFor(looks[k].sweep, current.value)
      modifies store
      ensures client in store.orders <==>
                allowed && (current == None || (current.value in store.orders && store.orders[current.value].state == Canceled && r.Ok?))
      ensures current.Some? && client in store.orders ==>
                EndJustified(old(store.Value()), store.Value(), current.value, looks, reconciles)
      ensures r.Ok? && client !in store.orders ==>
                current.Some? && current.value in store.orders && store.orders[current.value].state == Filled
      ensures forall c :: c in old(store.orders) && Some(c) != current ==> c in store.orders && store.orders[c] == old(store.orders)[c]
    {
      ghost var before := store.Value();
      if current.Some? {
        ghost var canceling;
        r, canceling := CancelOrder(current.value, answer, looks);
        if r.Err? {
          return;
        }
        if r.value.state == Filled {
          return;
        }
        if r.value.state != Canceled {
          return Err(ValueError);
        }
      }
      if !allowed {
        return Err(ValueError);
      }
      ghost var mid := store.Value();
      ghost var requested;
      r, requested := PlaceOrder(client, symbol, side, qty, price, placing);
      if current.Some? {
        StillJustified(before, mid, store.Value(), current.value, looks, reconciles);
      }
    }
  }

  lemma RecordLaw(before: S.Tables, e: S.FillEvent, after: S.Tables)
    requires S.RecordFill(before, e).Ok? && after == S.RecordFill(before, e).value.store && e.client in before.orders
    ensures OnlyOrder(before, after, e.client) && S.Recorded(after.fills, e)
    ensures !Ended(before.orders[e.client].state) && Ended(after.orders[e.client].state) ==>
              after.orders[e.client].state == Filled && after.orders[e.client].cumulative >= after.orders[e.client].qty
    ensures Ended(before.orders[e.client].state) ==> after.orders[e.client].state == before.orders[e.client].state
    ensures after.orders[e.client].cumulative >= before.orders[e.client].cumulative
    ensures after.orders[e.client].qty == before.orders[e.client].qty
  {
    if !S.Recorded(before.fills, e) {
      assert S.SameTrade(after.fills[|before.fills|].event, e);
    }
  }

  lemma JustifiedByOne(
    mid: S.Tables, after: S.Tables, before: S.Tables, client: string, looks: seq<Look>, k: nat, reconciles: bool)
    requires k < |looks| && EndJustified(mid, after, client, [looks[k]], reconciles)
    requires client in before.orders && client in mid.orders && client in after.orders
    requires Ended(mid.orders[client].state) ==> Ended(before.orders[client].state)
    ensures EndJustified(before, after, client, looks, reconciles)
  {
    if Ended(after.orders[client].state) && !Ended(before.orders[client].state)
       && !(after.orders[client].state == Filled && after.orders[client].cumulative >= after.orders[client].qty) {
      assert Witnesses([looks[k]][0], after, client, reconciles);
    }
  }

  lemma StillJustified(
    before: S.Tables, mid: S.Tables, after: S.Tables, client: string, looks: seq<Look>, reconciles: bool)
    requires EndJustified(before, mid, client, looks, reconciles)
    requires client in before.orders && client in mid.orders && client in after.orders
    requires after.orders[client] == mid.orders[client] && after.fills == mid.fills
    ensures EndJustified(before, after, client, looks, reconciles)
  {
    if Ended(mid.orders[client].state) && !Ended(before.orders[client].state)
       && !(mid.orders[client].state == Filled && mid.orders[client].cumulative >= mid.orders[client].qty) {
      var k :| 0 <= k < |looks| && Witnesses(looks[k], mid, client, reconciles);
      assert Witnesses(looks[k], after, client, reconciles);
    }
  }
}
