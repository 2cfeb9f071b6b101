/** What the allocation loop of a finished submission does to the intents it lists. */
module Allocation {
  import opened Domain
  import opened Sums
  import opened Store

  // ----- definitions -----

  predicate Disjoint(a: seq<nat>, b: seq<nat>)
  {
    forall i :: i in a ==> i !in b
  }

  function RemainingOf(intents: seq<Intent>, ids: seq<nat>): real
    requires InTable(ids, |intents|)
  {
    if ids == [] then 0.0 else intents[ids[0]].Remaining() + RemainingOf(intents, ids[1..])
  }

  function FilledAt(key: Key): Intent -> real { (i: Intent) => if i.key == key then i.filled else 0.0 }
  function NotionalAt(key: Key): Intent -> real { (i: Intent) => if i.key == key then i.notional else 0.0 }
  function FeeAt(key: Key): Intent -> real { (i: Intent) => if i.key == key then i.fee else 0.0 }
  function QtyAt(key: Key): Intent -> real { (i: Intent) => if i.key == key then i.qty else 0.0 }
  function RemainingAt(key: Key): Intent -> real { (i: Intent) => if i.key == key then i.Remaining() else 0.0 }

  predicate IntentOk(i: Intent)
  {
    0.0 < i.qty && 0.0 <= i.filled <= i.qty && (i.status == Hedged ==> i.filled == i.qty)
  }

  // ----- greedy allocation -----

  lemma {:induction false} RemainingFrame(a: seq<Intent>, b: seq<Intent>, ids: seq<nat>)
    requires InTable(ids, |a|) && InTable(ids, |b|)
    requires forall k :: 0 <= k < |ids| ==> a[ids[k]].Remaining() == b[ids[k]].Remaining()
    ensures RemainingOf(a, ids) == RemainingOf(b, ids)
  {
    if ids != [] {
      RemainingFrame(a, b, ids[1..]);
    }
  }

  lemma {:induction false} RemainingNonNegative(intents: seq<Intent>, ids: seq<nat>)
    requires InTable(ids, |intents|)
    requires forall k :: 0 <= k < |ids| ==> IntentOk(intents[ids[k]])
    ensures 0.0 <= RemainingOf(intents, ids)
  {
    if ids != [] {
      RemainingNonNegative(intents, ids[1..]);
    }
  }

  predicate SameIdentity(a: Intent, b: Intent)
  {
    a.fillId == b.fillId && a.key == b.key && a.qty == b.qty && a.status == b.status && a.attempts == b.attempts
  }

  /** Only listed intents change, nothing but their amounts, and they stay within their quantity. */
  lemma {:induction false} AllocateRows(
      intents: seq<Intent>, ids: seq<nat>, available: real, price: real, feeRate: real, orderId: nat)
    requires InTable(ids, |intents|) && Distinct(ids) && 0.0 <= available
    requires forall i :: 0 <= i < |intents| ==> IntentOk(intents[i])
    ensures var r := Allocate(intents, ids, available, price, feeRate, orderId);
      && (forall i :: 0 <= i < |r| && i !in ids ==> r[i] == intents[i])
      && (forall i :: 0 <= i < |r| ==> SameIdentity(r[i], intents[i]) && IntentOk(r[i]) && intents[i].filled <= r[i].filled)
    decreases |ids|
  {
    if ids != [] {
      var row := intents[ids[0]];
      var credited := Credit(row, available, price, feeRate, orderId);
      assert SameIdentity(credited, row) && IntentOk(credited) && row.filled <= credited.filled;
      AllocateRows(intents[ids[0] := credited], ids[1..], available - Share(row, available), price, feeRate, orderId);
    }
  }

  /** The intents together receive exactly what was available, up to what they still needed. */
  lemma {:induction false} AllocateRemaining(
      intents: seq<Intent>, ids: seq<nat>, available: real, price: real, feeRate: real, orderId: nat)
    requires InTable(ids, |intents|) && Distinct(ids) && 0.0 <= available
    requires forall i :: 0 <= i < |intents| ==> IntentOk(intents[i])
    ensures RemainingOf(Allocate(intents, ids, available, price, feeRate, orderId), ids)
         == RemainingOf(intents, ids) - Min(available, RemainingOf(intents, ids))
    decreases |ids|
  {
    RemainingNonNegative(intents, ids);
    if ids != [] {
      var row := intents[ids[0]];
      var next := intents[ids[0] := Credit(row, available, price, feeRate, orderId)];
      var rest := available - Share(row, available);
      var r := Allocate(next, ids[1..], rest, price, feeRate, orderId);
      AllocateRemaining(next, ids[1..], rest, price, feeRate, orderId);
      RemainingFrame(intents, next, ids[1..]);
      AllocateRows(next, ids[1..], rest, price, feeRate, orderId);
      assert r[ids[0]] == next[ids[0]];
      RemainingNonNegative(intents, ids[1..]);
    }
  }

  /** First come, first served: an intent is credited only after every earlier one is complete. */
  lemma {:induction false} AllocateGreedy(
      intents: seq<Intent>, ids: seq<nat>, available: real, price: real, feeRate: real, orderId: nat,
      a: nat, b: nat)
    requires InTable(ids, |intents|) && Distinct(ids) && 0.0 <= available
    requires forall i :: 0 <= i < |intents| ==> IntentOk(intents[i])
    requires a < b < |ids|
    ensures var r := Allocate(intents, ids, available, price, feeRate, orderId);
      r[ids[b]].filled > intents[ids[b]].filled ==> r[ids[a]].filled == r[ids[a]].qty
    decreases |ids|
  {
    var row := intents[ids[0]];
    var next := intents[ids[0] := Credit(row, available, price, feeRate, orderId)];
    var rest := available - Share(row, available);
    AllocateRows(next, ids[1..], rest, price, feeRate, orderId);
    var r := Allocate(next, ids[1..], rest, price, feeRate, orderId);
    assert ids[1..][b - 1] == ids[b];
    if a > 0 {
      AllocateGreedy(next, ids[1..], rest, price, feeRate, orderId, a - 1, b - 1);
    } else {
      assert r[ids[0]] == next[ids[0]];
      if rest <= 0.0 {
        AllocateRemaining(next, ids[1..], rest, price, feeRate, orderId);
        RemainingNonNegative(next, ids[1..]);
        NothingLeft(next, ids[1..], price, feeRate, orderId, b - 1);
      }
    }
  }

  lemma {:induction false} NothingLeft(
      intents: seq<Intent>, ids: seq<nat>, price: real, feeRate: real, orderId: nat, b: nat)
    requires InTable(ids, |intents|) && Distinct(ids) && b < |ids|
    requires forall i :: 0 <= i < |intents| ==> IntentOk(intents[i])
    ensures Allocate(intents, ids, 0.0, price, feeRate, orderId)[ids[b]].filled == intents[ids[b]].filled
    decreases |ids|
  {
    var row := intents[ids[0]];
    var next := intents[ids[0] := Credit(row, 0.0, price, feeRate, orderId)];
    AllocateRows(next, ids[1..], 0.0, price, feeRate, orderId);
    if b > 0 {
      assert ids[1..][b - 1] == ids[b];
      NothingLeft(next, ids[1..], price, feeRate, orderId, b - 1);
    }
  }

  /** A column that crediting leaves alone has the same total before and after the loop. */
  lemma {:induction false} AllocateInvariant(
      column: Intent -> real, key: Key,
      intents: seq<Intent>, ids: seq<nat>, available: real, price: real, feeRate: real, orderId: nat)
    requires InTable(ids, |intents|)
    requires forall k :: 0 <= k < |ids| ==> intents[ids[k]].key == key
    requires forall row: Intent, a: real :: row.key == key ==> column(Credit(row, a, price, feeRate, orderId)) == column(row)
    ensures Total(column, Allocate(intents, ids, available, price, feeRate, orderId)) == Total(column, intents)
    decreases |ids|
  {
    if ids != [] {
      var row := intents[ids[0]];
      var credited := Credit(row, available, price, feeRate, orderId);
      TotalUpdate(column, intents, ids[0], credited);
      AllocateInvariant(column, key, intents[ids[0] := credited], ids[1..], available - Share(row, available), price, feeRate, orderId);
    }
  }

  lemma {:induction false} AllocateFilled(
      key: Key, intents: seq<Intent>, ids: seq<nat>, available: real, price: real, feeRate: real, orderId: nat)
    requires InTable(ids, |intents|) && Distinct(ids) && 0.0 <= available
    requires forall i :: 0 <= i < |intents| ==> IntentOk(intents[i])
    requires forall k :: 0 <= k < |ids| ==> intents[ids[k]].key == key
    ensures Total(FilledAt(key), Allocate(intents, ids, available, price, feeRate, orderId))
         == Total(FilledAt(key), intents) + Min(available, RemainingOf(intents, ids))
    decreases |ids|
  {
    RemainingNonNegative(intents, ids);
    if ids != [] {
      var row := intents[ids[0]];
      var credited := Credit(row, available, price, feeRate, orderId);
      var next := intents[ids[0] := credited];
      TotalUpdate(FilledAt(key), intents, ids[0], credited);
      AllocateFilled(key, next, ids[1..], available - Share(row, available), price, feeRate, orderId);
      RemainingFrame(intents, next, ids[1..]);
      RemainingNonNegative(intents, ids[1..]);
    }
  }

  function NotionalLess(key: Key, price: real): Intent -> real
  {
    (i: Intent) => if i.key == key then i.notional - price * i.filled else 0.0
  }

  function FeeLess(key: Key, feeRate: real): Intent -> real
  {
    (i: Intent) => if i.key == key then i.fee - feeRate * i.filled else 0.0
  }

  lemma CreditKeepsRates(key: Key, row: Intent, a: real, price: real, feeRate: real, orderId: nat)
    ensures var credited := Credit(row, a, price, feeRate, orderId);
      && NotionalLess(key, price)(credited) == NotionalLess(key, price)(row)
      && FeeLess(key, feeRate)(credited) == FeeLess(key, feeRate)(row)
  {
    Distribute(price, row.filled, Share(row, a));
    Distribute(feeRate, row.filled, Share(row, a));
  }

  lemma Distribute(rate: real, a: real, b: real)
    ensures rate * (a + b) == rate * a + rate * b
  {
  }

  // Notional and fee are credited at the submission's rates.

  lemma AllocateNotional(
      key: Key, intents: seq<Intent>, ids: seq<nat>, available: real, price: real, feeRate: real, orderId: nat,
      credited: real)
    requires InTable(ids, |intents|) && Distinct(ids) && 0.0 <= available
    requires forall i :: 0 <= i < |intents| ==> IntentOk(intents[i])
    requires forall k :: 0 <= k < |ids| ==> intents[ids[k]].key == key
    requires credited == Min(available, RemainingOf(intents, ids))
    ensures Total(NotionalAt(key), Allocate(intents, ids, available, price, feeRate, orderId))
         == Total(NotionalAt(key), intents) + price * credited
  {
    var r := Allocate(intents, ids, available, price, feeRate, orderId);
    AllocateFilled(key, intents, ids, available, price, feeRate, orderId);
    forall row: Intent, a: real
      ensures NotionalLess(key, price)(Credit(row, a, price, feeRate, orderId)) == NotionalLess(key, price)(row)
    {
      CreditKeepsRates(key, row, a, price, feeRate, orderId);
    }
    AllocateInvariant(NotionalLess(key, price), key, intents, ids, available, price, feeRate, orderId);
    AtRate(NotionalAt(key), price, FilledAt(key), NotionalLess(key, price), intents, r, credited);
  }

  lemma AllocateFee(
      key: Key, intents: seq<Intent>, ids: seq<nat>, available: real, price: real, feeRate: real, orderId: nat,
      credited: real)
    requires InTable(ids, |intents|) && Distinct(ids) && 0.0 <= available
    requires forall i :: 0 <= i < |intents| ==> IntentOk(intents[i])
    requires forall k :: 0 <= k < |ids| ==> intents[ids[k]].key == key
    requires credited == Min(available, RemainingOf(intents, ids))
    ensures Total(FeeAt(key), Allocate(intents, ids, available, price, feeRate, orderId))
         == Total(FeeAt(key), intents) + feeRate * credited
  {
    var r := Allocate(intents, ids, available, price, feeRate, orderId);
    AllocateFilled(key, intents, ids, available, price, feeRate, orderId);
    forall row: Intent, a: real
      ensures FeeLess(key, feeRate)(Credit(row, a, price, feeRate, orderId)) == FeeLess(key, feeRate)(row)
    {
      CreditKeepsRates(key, row, a, price, feeRate, orderId);
    }
    AllocateInvariant(FeeLess(key, feeRate), key, intents, ids, available, price, feeRate, orderId);
    AtRate(FeeAt(key), feeRate, FilledAt(key), FeeLess(key, feeRate), intents, r, credited);
  }

  lemma AtRate(
      column: Intent -> real, rate: real, base: Intent -> real, less: Intent -> real,
      before: seq<Intent>, after: seq<Intent>, credited: real)
    requires forall row: Intent :: less(row) == column(row) - rate * base(row)
    requires Total(less, after) == Total(less, before)
    requires Total(base, after) == Total(base, before) + credited
    ensures Total(column, after) == Total(column, before) + rate * credited
  {
    hide Total;
    TotalMinus(column, rate, base, less, before);
    TotalMinus(column, rate, base, less, after);
    Distribute(rate, Total(base, before), credited);
  }

  lemma AllocateOtherKeys(
      key: Key, other: Key, intents: seq<Intent>, ids: seq<nat>, available: real, price: real, feeRate: real, orderId: nat)
    requires InTable(ids, |intents|) && key != other
    requires forall k :: 0 <= k < |ids| ==> intents[ids[k]].key == key
    ensures
      var r := Allocate(intents, ids, available, price, feeRate, orderId);
      && Total(FilledAt(other), r) == Total(FilledAt(other), intents)
      && Total(NotionalAt(other), r) == Total(NotionalAt(other), intents)
      && Total(FeeAt(other), r) == Total(FeeAt(other), intents)
  {
    AllocateInvariant(FilledAt(other), key, intents, ids, available, price, feeRate, orderId);
    AllocateInvariant(NotionalAt(other), key, intents, ids, available, price, feeRate, orderId);
    AllocateInvariant(FeeAt(other), key, intents, ids, available, price, feeRate, orderId);
  }
}
