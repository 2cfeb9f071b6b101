/**
 * What the hedge tables keep: reservations of unresolved submissions, and the equality of the
 * intent ledger with the submission ledger (backend/engine/state_store.py:464-629).
 */
module Ledger {
  import opened Domain
  import opened Sums
  import opened Store
  import opened Allocation

  function ResolvedFilledAt(key: Key): Submission -> real
  {
    (b: Submission) => if b.key == key && b.status == Resolved then b.filled else 0.0
  }
  function ResolvedNotionalAt(key: Key): Submission -> real
  {
    (b: Submission) => if b.key == key && b.status == Resolved then b.notional else 0.0
  }
  function ResolvedFeeAt(key: Key): Submission -> real
  {
    (b: Submission) => if b.key == key && b.status == Resolved then b.fee else 0.0
  }

  predicate SubmissionOk(intents: seq<Intent>, b: Submission)
  {
    && b.ids != [] && Distinct(b.ids) && InTable(b.ids, |intents|)
    && (forall k :: 0 <= k < |b.ids| ==> intents[b.ids[k]].key == b.key)
    && 0.0 < b.qty && 0.0 <= b.filled <= b.qty
  }

  predicate RowsOk(s: Tables)
  {
    && (forall i :: 0 <= i < |s.intents| ==> IntentOk(s.intents[i]))
    && (forall k :: 0 <= k < |s.submissions| ==> SubmissionOk(s.intents, s.submissions[k]))
  }

  /** Unresolved submissions own disjoint intents, each exactly the quantity those still need. */
  predicate Reserved(s: Tables)
    requires RowsOk(s)
  {
    && (forall k :: 0 <= k < |s.submissions| && s.submissions[k].Unresolved() ==>
          s.submissions[k].qty == RemainingOf(s.intents, s.submissions[k].ids))
    && (forall j, k :: 0 <= j < k < |s.submissions| && s.submissions[j].Unresolved() && s.submissions[k].Unresolved() ==>
          Disjoint(s.submissions[j].ids, s.submissions[k].ids))
  }

  predicate ExactAt(s: Tables, key: Key)
  {
    && Total(FilledAt(key), s.intents) == Total(ResolvedFilledAt(key), s.submissions)
    && Total(NotionalAt(key), s.intents) == Total(ResolvedNotionalAt(key), s.submissions)
    && Total(FeeAt(key), s.intents) == Total(ResolvedFeeAt(key), s.submissions)
  }

  ghost predicate Exact(s: Tables)
  {
    forall key :: ExactAt(s, key)
  }

  ghost predicate StoreOk(s: Tables)
  {
    RowsOk(s) && Reserved(s) && Exact(s)
  }

  // ----- what each transaction keeps -----

  /** A move along the status table keeps the tables in order precisely unless it declares an unfilled intent HEDGED. */
  lemma TransitionKeeps(s: Tables, i: nat, target: HedgeStatus, orderId: Option<nat>)
    requires StoreOk(s) && TransitionHedge(s, i, target, orderId).Ok?
    ensures StoreOk(TransitionHedge(s, i, target, orderId).value)
       <==> (target == Hedged ==> s.intents[i].filled == s.intents[i].qty)
  {
    var t := TransitionHedge(s, i, target, orderId).value;
    if target == Hedged && s.intents[i].filled != s.intents[i].qty {
      assert !IntentOk(t.intents[i]);
      return;
    }
    SameAmounts(s, t);
    forall key ensures ExactAt(t, key) {
      assert ExactAt(s, key);
      TotalUpdate(FilledAt(key), s.intents, i, t.intents[i]);
      TotalUpdate(NotionalAt(key), s.intents, i, t.intents[i]);
      TotalUpdate(FeeAt(key), s.intents, i, t.intents[i]);
    }
  }

  /** Reservations only depend on quantities, filled amounts and the submission rows. */
  lemma SameAmounts(s: Tables, t: Tables)
    requires RowsOk(s) && Reserved(s) && RowsOk(t)
    requires t.submissions == s.submissions && |s.intents| <= |t.intents|
    requires forall i :: 0 <= i < |s.intents| ==> t.intents[i].Remaining() == s.intents[i].Remaining()
    ensures Reserved(t)
  {
    forall k | 0 <= k < |t.submissions| && t.submissions[k].Unresolved()
      ensures t.submissions[k].qty == RemainingOf(t.intents, t.submissions[k].ids)
    {
      RemainingFrame(s.intents, t.intents, t.submissions[k].ids);
    }
  }

  lemma RecordKeeps(s: Tables, e: FillEvent)
    requires StoreOk(s) && RecordFill(s, e).Ok?
    ensures StoreOk(RecordFill(s, e).value.store)
  {
    var t := RecordFill(s, e).value.store;
    if t.intents != s.intents {
      var row := t.intents[|s.intents|];
      assert t.intents == s.intents + [row];
      SameAmounts(s, t);
      forall key ensures ExactAt(t, key) {
        assert ExactAt(s, key);
        TotalAppend(FilledAt(key), s.intents, row);
        TotalAppend(NotionalAt(key), s.intents, row);
        TotalAppend(FeeAt(key), s.intents, row);
      }
    } else {
      assert RowsOk(t);
      forall key ensures ExactAt(t, key) { assert ExactAt(s, key); }
    }
  }

  lemma {:induction false} DedupeDistinct(ids: seq<nat>)
    ensures Distinct(Dedupe(ids))
    ensures forall i :: i in Dedupe(ids) <==> i in ids
  {
    if ids != [] {
      DedupeDistinct(ids[..|ids| - 1]);
      assert ids == ids[..|ids| - 1] + [ids[|ids| - 1]];
    }
  }

  lemma {:induction false} DedupeIdentity(ids: seq<nat>)
    requires Distinct(ids)
    ensures Dedupe(ids) == ids
  {
    if ids != [] {
      DedupeIdentity(ids[..|ids| - 1]);
      assert ids == ids[..|ids| - 1] + [ids[|ids| - 1]];
    }
  }

  /** Adding a submission keeps the tables in order precisely if it asks for what its intents still need. */
  lemma PrepareKeeps(s: Tables, ids: seq<nat>, key: Key, qty: real, kind: Kind, submittedAt: int)
    requires StoreOk(s) && Prepare(s, ids, key, qty, kind, submittedAt).Ok?
    requires InTable(Dedupe(ids), |s.intents|)
    ensures StoreOk(Prepare(s, ids, key, qty, kind, submittedAt).value) <==> qty == RemainingOf(s.intents, Dedupe(ids))
  {
    var t := Prepare(s, ids, key, qty, kind, submittedAt).value;
    var row := t.submissions[|s.submissions|];
    assert t.submissions == s.submissions + [row];
    DedupeDistinct(ids);
    forall k | 0 <= k < |row.ids| ensures t.intents[row.ids[k]].key == row.key {
      assert row.ids[k] in row.ids;
    }
    assert RowsOk(t);
    if qty != RemainingOf(s.intents, row.ids) {
      assert !Reserved(t);
      return;
    }
    forall j | 0 <= j < |s.submissions| && s.submissions[j].Unresolved()
      ensures Disjoint(s.submissions[j].ids, row.ids)
    {
      if i :| i in s.submissions[j].ids && i in row.ids {
        assert Blocked(s.submissions, row.ids);
      }
    }
    forall key ensures ExactAt(t, key) {
      assert ExactAt(s, key);
      SubmissionAppended(s.submissions, row, key);
    }
  }

  lemma SubmissionAppended(rows: seq<Submission>, row: Submission, key: Key)
    requires row.status != Resolved
    ensures Total(ResolvedFilledAt(key), rows + [row]) == Total(ResolvedFilledAt(key), rows)
    ensures Total(ResolvedNotionalAt(key), rows + [row]) == Total(ResolvedNotionalAt(key), rows)
    ensures Total(ResolvedFeeAt(key), rows + [row]) == Total(ResolvedFeeAt(key), rows)
  {
    TotalAppend(ResolvedFilledAt(key), rows, row);
    TotalAppend(ResolvedNotionalAt(key), rows, row);
    TotalAppend(ResolvedFeeAt(key), rows, row);
  }

  lemma SubmissionUpdated(rows: seq<Submission>, k: nat, row: Submission, key: Key)
    requires k < |rows| && rows[k].status != Resolved && row.key == rows[k].key
    ensures Total(ResolvedFilledAt(key), rows[k := row])
         == Total(ResolvedFilledAt(key), rows) + if row.status == Resolved && row.key == key then row.filled else 0.0
    ensures Total(ResolvedNotionalAt(key), rows[k := row])
         == Total(ResolvedNotionalAt(key), rows) + if row.status == Resolved && row.key == key then row.notional else 0.0
    ensures Total(ResolvedFeeAt(key), rows[k := row])
         == Total(ResolvedFeeAt(key), rows) + if row.status == Resolved && row.key == key then row.fee else 0.0
  {
    TotalUpdate(ResolvedFilledAt(key), rows, k, row);
    TotalUpdate(ResolvedNotionalAt(key), rows, k, row);
    TotalUpdate(ResolvedFeeAt(key), rows, k, row);
  }

  /** Acknowledging, or giving up without a fill, moves no quantity. */
  lemma StatusKeeps(s: Tables, k: nat, row: Submission)
    requires StoreOk(s) && k < |s.submissions| && s.submissions[k].Unresolved() && row.status != Resolved
    requires row == s.submissions[k].(status := row.status, orderId := row.orderId)
    ensures StoreOk(s.(submissions := s.submissions[k := row]))
  {
    var t := s.(submissions := s.submissions[k := row]);
    assert RowsOk(t);
    forall key ensures ExactAt(t, key) {
      assert ExactAt(s, key);
      SubmissionUpdated(s.submissions, k, row, key);
    }
  }

  /** The store's own guard admits a fill; whether the ledger stays exact depends on two more facts. */
  predicate Allocatable(s: Tables, k: nat, filled: real, notional: real, fee: real)
    requires RowsOk(s) && k < |s.submissions|
  {
    && filled <= RemainingOf(s.intents, s.submissions[k].ids)
    && (filled == 0.0 ==> notional == 0.0 && fee == 0.0)
  }

  lemma RateBack(amount: real, filled: real)
    requires 0.0 <= filled
    ensures Rate(amount, filled) * filled == amount <==> (filled == 0.0 ==> amount == 0.0)
  {
  }

  /** Finishing keeps the ledger exact precisely when the fill is allocatable. */
  lemma FinishExactIff(s: Tables, k: nat, filled: real, notional: real, fee: real, orderId: Option<nat>)
    requires RowsOk(s) && Exact(s) && k < |s.submissions| && s.submissions[k].Unresolved()
    requires Finish(s, k, filled, notional, fee, orderId).Ok?
    ensures Exact(Finish(s, k, filled, notional, fee, orderId).value) <==> Allocatable(s, k, filled, notional, fee)
  {
    var t := Finish(s, k, filled, notional, fee, orderId).value;
    var sub := s.submissions[k];
    forall key | key != sub.key ensures ExactAt(t, key) {
      assert ExactAt(s, key);
      AllocateOtherKeys(
        sub.key, key, s.intents, sub.ids, filled, Rate(notional, filled), Rate(fee, filled), t.submissions[k].orderId.value);
      SubmissionUpdated(s.submissions, k, t.submissions[k], key);
    }
    FinishExactAtKey(s, k, filled, notional, fee, orderId);
  }

  lemma FinishExactAtKey(s: Tables, k: nat, filled: real, notional: real, fee: real, orderId: Option<nat>)
    requires RowsOk(s) && Exact(s) && k < |s.submissions| && s.submissions[k].Unresolved()
    requires Finish(s, k, filled, notional, fee, orderId).Ok?
    ensures ExactAt(Finish(s, k, filled, notional, fee, orderId).value, s.submissions[k].key)
       <==> Allocatable(s, k, filled, notional, fee)
  {
    var t := Finish(s, k, filled, notional, fee, orderId).value;
    var sub := s.submissions[k];
    assert ExactAt(s, sub.key);
    SubmissionUpdated(s.submissions, k, t.submissions[k], sub.key);
    RemainingNonNegative(s.intents, sub.ids);
    var id := t.submissions[k].orderId.value;
    var price, feeRate := Rate(notional, filled), Rate(fee, filled);
    var credited := Min(filled, RemainingOf(s.intents, sub.ids));
    AllocateFilled(sub.key, s.intents, sub.ids, filled, price, feeRate, id);
    if credited == filled {
      FinishNotional(s, sub, filled, notional, feeRate, id);
      FinishFee(s, sub, filled, price, fee, id);
    }
  }

  lemma FinishNotional(s: Tables, sub: Submission, filled: real, notional: real, feeRate: real, id: nat)
    requires RowsOk(s) && SubmissionOk(s.intents, sub) && 0.0 <= filled <= RemainingOf(s.intents, sub.ids)
    ensures var after := Allocate(s.intents, sub.ids, filled, Rate(notional, filled), feeRate, id);
      Total(NotionalAt(sub.key), after) == Total(NotionalAt(sub.key), s.intents) + notional
      <==> (filled == 0.0 ==> notional == 0.0)
  {
    AllocateNotional(sub.key, s.intents, sub.ids, filled, Rate(notional, filled), feeRate, id, filled);
    RateBack(notional, filled);
  }

  lemma FinishFee(s: Tables, sub: Submission, filled: real, price: real, fee: real, id: nat)
    requires RowsOk(s) && SubmissionOk(s.intents, sub) && 0.0 <= filled <= RemainingOf(s.intents, sub.ids)
    ensures var after := Allocate(s.intents, sub.ids, filled, price, Rate(fee, filled), id);
      Total(FeeAt(sub.key), after) == Total(FeeAt(sub.key), s.intents) + fee
      <==> (filled == 0.0 ==> fee == 0.0)
  {
    AllocateFee(sub.key, s.intents, sub.ids, filled, price, Rate(fee, filled), id, filled);
    RateBack(fee, filled);
  }

  lemma FinishKeeps(s: Tables, k: nat, filled: real, notional: real, fee: real, orderId: Option<nat>)
    requires StoreOk(s) && k < |s.submissions| && s.submissions[k].Unresolved()
    requires Finish(s, k, filled, notional, fee, orderId).Ok? && (filled == 0.0 ==> notional == 0.0 && fee == 0.0)
    ensures StoreOk(Finish(s, k, filled, notional, fee, orderId).value)
    ensures var t := Finish(s, k, filled, notional, fee, orderId).value;
      && |t.intents| == |s.intents|
      && RemainingOf(t.intents, s.submissions[k].ids) == s.submissions[k].qty - filled
      && (forall i :: 0 <= i < |s.intents| ==> SameIdentity(t.intents[i], s.intents[i]))
      && (forall i :: 0 <= i < |s.intents| && i !in s.submissions[k].ids ==> t.intents[i] == s.intents[i])
  {
    var t := Finish(s, k, filled, notional, fee, orderId).value;
    var sub := s.submissions[k];
    var id := t.submissions[k].orderId.value;
    AllocateRows(s.intents, sub.ids, filled, Rate(notional, filled), Rate(fee, filled), id);
    AllocateRemaining(s.intents, sub.ids, filled, Rate(notional, filled), Rate(fee, filled), id);
    assert RowsOk(t);
    forall j | 0 <= j < |t.submissions| && t.submissions[j].Unresolved()
      ensures t.submissions[j].qty == RemainingOf(t.intents, t.submissions[j].ids)
    {
      var ids := s.submissions[j].ids;
      assert Disjoint(ids, sub.ids);
      forall n | 0 <= n < |ids| ensures t.intents[ids[n]] == s.intents[ids[n]] {
        assert ids[n] in ids;
      }
      RemainingFrame(s.intents, t.intents, ids);
    }
    FinishExactIff(s, k, filled, notional, fee, orderId);
  }

  /** A second finish of a resolved submission is a no-op, whatever it reports. */
  lemma FinishIdempotent(
      s: Tables, k: nat, filled: real, notional: real, fee: real, orderId: Option<nat>,
      filled': real, notional': real, fee': real, orderId': Option<nat>)
    requires ForeignKeys(s) && Finish(s, k, filled, notional, fee, orderId).Ok?
    ensures var t := Finish(s, k, filled, notional, fee, orderId).value;
      && ForeignKeys(t)
      && Finish(t, k, filled', notional', fee', orderId') == Ok(t)
  {
  }
}
