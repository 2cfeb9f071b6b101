/**
 * The store object itself (backend/engine/state_store.py): its tables are fields updated in
 * place, and every method is proved equal to the transaction of module Store it performs.
 */
module StateStore {
  import opened Domain
  import opened Sums
  import S = Store

  lemma MulDiv(a: real, b: real, c: real)
    requires c != 0.0
    ensures a * b / c == a / c * b
  {
  }

  function Splice(ids: seq<nat>, at: nat, k: nat): seq<nat>
    requires at <= |ids|
  {
    ids[..at] + [k] + ids[at..]
  }

  lemma SpliceMembers(ids: seq<nat>, at: nat, k: nat)
    requires at <= |ids|
    ensures forall j :: j in Splice(ids, at, k) <==> j in ids || j == k
  {
    assert ids == ids[..at] + ids[at..];
  }

  lemma SpliceDistinct(ids: seq<nat>, at: nat, k: nat)
    requires at <= |ids| && Distinct(ids) && k !in ids
    ensures Distinct(Splice(ids, at, k))
  {
    var next := Splice(ids, at, k);
    forall a, b | 0 <= a < b < |next| ensures next[a] != next[b] {
      assert a < at ==> next[a] == ids[a];
      assert b > at ==> next[b] == ids[b - 1];
      assert a > at ==> next[a] == ids[a - 1];
      assert b < at ==> next[b] == ids[b];
    }
  }

  /** By submission time; equal times are in no fixed order. */
  predicate BySubmission(submissions: seq<S.Submission>, ids: seq<nat>)
  {
    && (forall a :: 0 <= a < |ids| ==> ids[a] < |submissions|)
    && forall a, b :: 0 <= a < b < |ids| ==> submissions[ids[a]].submittedAt <= submissions[ids[b]].submittedAt
  }

  lemma SpliceOrdered(submissions: seq<S.Submission>, ids: seq<nat>, at: nat, k: nat)
    requires at <= |ids| && k < |submissions| && BySubmission(submissions, ids)
    requires at > 0 ==> submissions[ids[at - 1]].submittedAt <= submissions[k].submittedAt
    requires at < |ids| ==> submissions[k].submittedAt <= submissions[ids[at]].submittedAt
    ensures BySubmission(submissions, Splice(ids, at, k))
  {
    var next := Splice(ids, at, k);
    forall a | 0 <= a < |next| ensures next[a] == if a < at then ids[a] else if a == at then k else ids[a - 1] {
    }
    forall a, b | 0 <= a < b < |next| ensures submissions[next[a]].submittedAt <= submissions[next[b]].submittedAt {
      if a < at && at <= b {
        assert a == at - 1 || submissions[ids[a]].submittedAt <= submissions[ids[at - 1]].submittedAt;
        assert b == at || b == at + 1 || submissions[ids[at]].submittedAt <= submissions[ids[b - 1]].submittedAt;
      } else if a == at {
        assert b == at + 1 || submissions[ids[at]].submittedAt <= submissions[ids[b - 1]].submittedAt;
      }
    }
  }

  class StateStore {
    var orders: map<string, S.OrderRow>
    var fills: seq<S.FillRow>
    var intents: seq<S.Intent>
    var submissions: seq<S.Submission>

    constructor ()
      ensures Value() == S.Empty
    {
      orders, fills, intents, submissions := map[], [], [], [];
    }

    function Value(): S.Tables
      reads this
    {
      S.Tables(orders, fills, intents, submissions)
    }

    method CreateOrder(client: string, symbol: string, side: Side, qty: real, price: real) returns (row: S.OrderRow)
      modifies `orders
      ensures Value() == S.CreateOrder(old(Value()), client, symbol, side, qty, price)
      ensures client in orders && row == orders[client]
    {
      if client !in orders {
        orders := orders[client := S.OrderRow(symbol, side, qty, price, New, None, 0.0)];
      }
      row := orders[client];
    }

    method TransitionOrder(client: string, target: OrderState, exchangeId: Option<string>) returns (r: Result<S.OrderRow>)
      modifies `orders
      ensures match S.TransitionOrder(old(Value()), client, target, exchangeId)
              case Ok(after) => Value() == after && r == Ok(after.orders[client])
              case Err(e) => Value() == old(Value()) && r == Err(e)
    {
      if client !in orders {
        return Err(KeyError);
      }
      var row := orders[client];
      if target != row.state && target !in OrderTransitions(row.state) {
        return Err(ValueError);
      }
      row := row.(state := target, exchangeId := if exchangeId == None then row.exchangeId else exchangeId);
      orders := orders[client := row];
      r := Ok(row);
    }

    method FindFill(e: S.FillEvent) returns (found: bool)
      ensures found == S.Recorded(fills, e)
    {
      found := false;
      for k := 0 to |fills|
        invariant found == S.Recorded(fills[..k], e)
      {
        assert fills[..k + 1] == fills[..k] + [fills[k]];
        if S.SameTrade(fills[k].event, e) {
          found := true;
          assert S.SameTrade(fills[..k + 1][k].event, e);
        } else if found {
          var j :| 0 <= j < k && S.SameTrade(fills[..k][j].event, e);
          assert S.SameTrade(fills[..k + 1][j].event, e);
        }
      }
      assert fills[..|fills|] == fills;
    }

    method RecordCumulativeFill(e: S.FillEvent) returns (r: Result<Option<nat>>)
      modifies this
      ensures match S.RecordFill(old(Value()), e)
              case Ok(done) => Value() == done.store && r == Ok(done.published)
              case Err(error) => Value() == old(Value()) && r == Err(error)
    {
      var duplicate := FindFill(e);
      if duplicate {
        return Ok(None);
      }
      if e.client !in orders {
        return Err(KeyError);
      }
      var row := orders[e.client];
      var incremental := Max(0.0, e.cumulative - row.cumulative);
      var cumulative := Max(row.cumulative, e.cumulative);
      var next := row.state;
      if row.state != Canceled && row.state != Filled {
        if cumulative >= row.qty {
          next := Filled;
        } else if row.state != Canceling {
          next := Partial;
        }
      }
      if next != row.state && next !in OrderTransitions(row.state) {
        return Err(ValueError);
      }
      var fillId := |fills|;
      fills := fills + [S.FillRow(e, incremental)];
      orders := orders[e.client := row.(cumulative := cumulative, state := next)];
      if incremental == 0.0 {
        return Ok(None);
      }
      intents := intents + [S.NewIntent(fillId, e, incremental)];
      r := Ok(Some(fillId));
    }

    method BackfillMissingHedgeIntents() returns (created: nat)
      modifies `intents
      ensures Value() == S.Backfill(old(Value()), 0)
      ensures created == |intents| - |old(intents)|
    {
      created := 0;
      for k := 0 to |fills|
        invariant S.Backfill(Value(), k) == S.Backfill(old(Value()), 0)
        invariant created == |intents| - |old(intents)|
        invariant orders == old(orders) && fills == old(fills) && submissions == old(submissions)
      {
        if fills[k].incremental > 0.0 && !(exists i :: 0 <= i < |intents| && intents[i].fillId == k) {
          intents := intents + [S.NewIntent(k, fills[k].event, fills[k].incremental)];
          created := created + 1;
        }
      }
    }

    method TransitionHedge(i: nat, target: HedgeStatus, orderId: Option<nat>) returns (r: Result<S.Intent>)
      modifies `intents
      ensures match S.TransitionHedge(old(Value()), i, target, orderId)
              case Ok(after) => Value() == after && r == Ok(after.intents[i])
              case Err(e) => Value() == old(Value()) && r == Err(e)
    {
      if i >= |intents| {
        return Err(KeyError);
      }
      var row := intents[i];
      if target != row.status && target !in HedgeTransitions(row.status) {
        return Err(ValueError);
      }
      var attempts := row.attempts;
      if target == Hedging && target != row.status {
        attempts := attempts + 1;
      }
      row := row.(status := target, attempts := attempts, orderId := if orderId == None then row.orderId else orderId);
      intents := intents[i := row];
      r := Ok(row);
    }

    method UniqueIds(ids: seq<nat>) returns (unique: seq<nat>)
      ensures unique == S.Dedupe(ids)
    {
      unique := [];
      for k := 0 to |ids|
        invariant unique == S.Dedupe(ids[..k])
      {
        assert ids[..k + 1][..k] == ids[..k];
        if ids[k] !in unique {
          unique := unique + [ids[k]];
        }
      }
      assert ids[..|ids|] == ids;
    }

    method PrepareHedgeSubmission(
        ids: seq<nat>, key: Key, qty: real, kind: S.Kind, submittedAt: int) returns (r: Result<nat>)
      modifies `submissions
      ensures match S.Prepare(old(Value()), ids, key, qty, kind, submittedAt)
              case Ok(after) => Value() == after && r == Ok(|old(submissions)|)
              case Err(e) => Value() == old(Value()) && r == Err(e)
    {
      var unique := UniqueIds(ids);
      if unique == [] || qty <= 0.0 {
        return Err(ValueError);
      }
      if exists i :: i in unique && !(i < |intents| && intents[i].status == Hedging && intents[i].key == key) {
        return Err(ValueError);
      }
      if exists k :: 0 <= k < |submissions| && submissions[k].Unresolved()
           && exists i :: i in submissions[k].ids && i in unique {
        return Err(ValueError);
      }
      var id := |submissions|;
      submissions := submissions + [S.Submission(key, qty, kind, S.Submitting, unique, submittedAt, None, 0.0, 0.0, 0.0)];
      r := Ok(id);
    }

    method AcknowledgeHedgeSubmission(k: nat, orderId: nat) returns (r: Result<S.Submission>)
      modifies `submissions
      ensures match S.Acknowledge(old(Value()), k, orderId)
              case Ok(after) => Value() == after && r == Ok(after.submissions[k])
              case Err(e) => Value() == old(Value()) && r == Err(e)
    {
      if k >= |submissions| {
        return Err(KeyError);
      }
      var row := submissions[k];
      if row.status != S.Submitting && row.status != S.Acked {
        return Err(ValueError);
      }
      if row.orderId != None && row.orderId != Some(orderId) {
        return Err(ValueError);
      }
      row := row.(status := S.Acked, orderId := Some(orderId));
      submissions := submissions[k := row];
      r := Ok(row);
    }

    method AllocateFill(ids: seq<nat>, filled: real, notional: real, fee: real, bound: Option<nat>)
      requires S.InTable(ids, |intents|) && 0.0 <= filled && bound != None
      modifies `intents
      ensures intents == S.Allocate(old(intents), ids, filled, S.Rate(notional, filled), S.Rate(fee, filled), bound.value)
    {
      var available := Max(0.0, filled);
      var average := if filled > 0.0 then notional / filled else 0.0;
      for n := 0 to |ids|
        invariant |intents| == |old(intents)|
        invariant S.Allocate(intents, ids[n..], available, average, S.Rate(fee, filled), bound.value)
               == S.Allocate(old(intents), ids, filled, average, S.Rate(fee, filled), bound.value)
      {
        assert ids[n..][1..] == ids[n + 1..];
        var share := AllocateOne(ids[n], available, filled, average, fee, bound);
        available := available - share;
      }
    }

    method AllocateOne(i: nat, available: real, filled: real, average: real, fee: real, bound: Option<nat>)
        returns (share: real)
      requires i < |intents| && bound != None
      modifies `intents
      ensures share == S.Share(old(intents)[i], available)
      ensures intents == old(intents)[i :=
                S.Credit(old(intents)[i], available, average, S.Rate(fee, filled), bound.value)]
    {
      var row := intents[i];
      var required := Max(0.0, row.qty - row.filled);
      share := Min(required, available);
      var shareFee := if filled > 0.0 then fee * share / filled else 0.0;
      if filled > 0.0 {
        MulDiv(fee, share, filled);
      }
      ghost var credited := S.Credit(row, available, average, S.Rate(fee, filled), bound.value);
      assert share == S.Share(row, available);
      assert credited.fee == row.fee + shareFee;
      assert credited.notional == row.notional + share * average;
      row := row.(
        filled := row.filled + share, notional := row.notional + share * average,
        fee := row.fee + shareFee, orderId := bound);
      assert row == credited;
      intents := intents[i := row];
    }

    method FinishHedgeSubmission(k: nat, filled: real, notional: real, fee: real, orderId: Option<nat>)
        returns (r: Result<S.Submission>)
      requires S.ForeignKeys(Value())
      modifies `intents, `submissions
      ensures match S.Finish(old(Value()), k, filled, notional, fee, orderId)
              case Ok(after) => Value() == after && r == Ok(after.submissions[k])
              case Err(e) => Value() == old(Value()) && r == Err(e)
    {
      if k >= |submissions| {
        return Err(KeyError);
      }
      var row := submissions[k];
      if row.status == S.Resolved {
        return Ok(row);
      }
      if !row.Unresolved() || filled < 0.0 || filled > row.qty || (orderId == None && row.orderId == None) {
        return Err(ValueError);
      }
      var bound := if orderId == None then row.orderId else orderId;
      AllocateFill(row.ids, filled, notional, fee, bound);
      row := row.(status := S.Resolved, orderId := bound, filled := filled, notional := notional, fee := fee);
      submissions := submissions[k := row];
      r := Ok(row);
    }

    method SetHedgeSubmissionStatus(k: nat, status: S.SubmissionStatus) returns (r: Result<S.Submission>)
      modifies `submissions
      ensures match S.SetSubmissionStatus(old(Value()), k, status)
              case Ok(after) => Value() == after && r == Ok(after.submissions[k])
              case Err(e) => Value() == old(Value()) && r == Err(e)
    {
      if status != S.Absent && status != S.Escalated {
        return Err(ValueError);
      }
      if k >= |submissions| {
        return Err(KeyError);
      }
      var row := submissions[k];
      if !row.Unresolved() && row.status != status {
        return Err(ValueError);
      }
      row := row.(status := status);
      submissions := submissions[k := row];
      r := Ok(row);
    }

    /** The exposure report: a dictionary built up row by row. */
    method PendingHedgeExposure() returns (exposure: map<string, real>)
      ensures forall symbol :: (if symbol in exposure then exposure[symbol] else 0.0)
                            == Total(S.PendingAt(symbol), intents)
    {
      exposure := map[];
      for k := 0 to |intents|
        invariant forall symbol :: (if symbol in exposure then exposure[symbol] else 0.0)
                                == Total(S.PendingAt(symbol), intents[..k])
      {
        assert intents[..k + 1] == intents[..k] + [intents[k]];
        forall symbol {
          TotalAppend(S.PendingAt(symbol), intents[..k], intents[k]);
        }
        var row := intents[k];
        if IsPending(row.status) {
          var signed := (row.qty - row.filled) * (if row.key.side == Buy then 1.0 else -1.0);
          var before := if row.key.symbol in exposure then exposure[row.key.symbol] else 0.0;
          exposure := exposure[row.key.symbol := before + signed];
        }
      }
      assert intents[..|intents|] == intents;
    }

    method PendingHedgeSubmissions() returns (ids: seq<nat>)
      ensures forall k :: k in ids <==> 0 <= k < |submissions| && submissions[k].Unresolved()
      ensures Distinct(ids) && BySubmission(submissions, ids)
    {
      ids := [];
      for k := 0 to |submissions|
        invariant forall j :: j in ids <==> 0 <= j < k && submissions[j].Unresolved()
        invariant Distinct(ids) && BySubmission(submissions, ids)
      {
        if submissions[k].Unresolved() {
          ids := InsertBySubmission(ids, k);
        }
      }
    }

    method InsertBySubmission(ids: seq<nat>, k: nat) returns (next: seq<nat>)
      requires k < |submissions| && k !in ids && Distinct(ids) && BySubmission(submissions, ids)
      ensures forall j :: j in next <==> j in ids || j == k
      ensures Distinct(next) && BySubmission(submissions, next)
    {
      var at := |ids|;
      while at > 0 && submissions[ids[at - 1]].submittedAt > submissions[k].submittedAt
        invariant 0 <= at <= |ids|
        invariant at < |ids| ==> submissions[ids[at]].submittedAt > submissions[k].submittedAt
      {
        at := at - 1;
      }
      next := Splice(ids, at, k);
      SpliceMembers(ids, at, k);
      SpliceDistinct(ids, at, k);
      SpliceOrdered(submissions, ids, at, k);
    }

    /** Rows are appended as they are created, so their order is the order of creation. */
    method EscalatedHedges() returns (ids: seq<nat>)
      ensures forall i :: i in ids <==> 0 <= i < |intents| && intents[i].status == Escalate
      ensures forall a, b :: 0 <= a < b < |ids| ==> ids[a] < ids[b]
    {
      ids := [];
      for k := 0 to |intents|
        invariant forall j :: j in ids <==> 0 <= j < k && intents[j].status == Escalate
        invariant forall a, b :: 0 <= a < b < |ids| ==> ids[a] < ids[b]
      {
        if intents[k].status == Escalate {
          forall a | 0 <= a < |ids| ensures ids[a] < k {
            assert ids[a] in ids;
          }
          ids := ids + [k];
        }
      }
    }
  }
}
