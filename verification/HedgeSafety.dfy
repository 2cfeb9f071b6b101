/** The hedge protocol's main results over every run. */
module HedgeSafety {
  import opened Domain
  import opened Sums
  import opened Store
  import opened Allocation
  import opened Ledger
  import opened HedgeProtocol
  import opened HedgeInvariant
  import opened HedgeVenue
  import opened HedgeAccount

  // ----- never over-hedged -----

  function Pairs(s: State): (r: seq<(Submission, XOrder)>)
    requires |s.orders| == |s.store.submissions|
    ensures |r| == |s.orders|
  {
    seq(|s.orders|, k requires 0 <= k < |s.orders| => (s.store.submissions[k], s.orders[k]))
  }

  function ExecutedAt(key: Key): ((Submission, XOrder)) -> real
  {
    (p: (Submission, XOrder)) => if p.0.key == key then p.1.Quantity() else 0.0
  }

  /** What a submission may still have executed on the venue: its fill, or all of it if unresolved. */
  function ClaimAt(key: Key): Submission -> real
  {
    (b: Submission) => if b.key != key then 0.0 else if b.status == Resolved then b.filled
                       else if b.Unresolved() then b.qty else 0.0
  }

  function OpenAt(key: Key): Submission -> real
  {
    (b: Submission) => if b.key == key && b.Unresolved() then b.qty else 0.0
  }

  /** The intents of the unresolved submissions for one key, one submission after the other. */
  function Held(submissions: seq<Submission>, key: Key): seq<nat>
  {
    if submissions == [] then []
    else
      var last := submissions[|submissions| - 1];
      Held(submissions[..|submissions| - 1], key) + if last.key == key && last.Unresolved() then last.ids else []
  }

  lemma {:induction false} RemainingConcat(intents: seq<Intent>, a: seq<nat>, b: seq<nat>)
    requires InTable(a, |intents|) && InTable(b, |intents|)
    ensures InTable(a + b, |intents|)
    ensures RemainingOf(intents, a + b) == RemainingOf(intents, a) + RemainingOf(intents, b)
  {
    if a == [] {
      assert a + b == b;
    } else {
      assert (a + b)[1..] == a[1..] + b;
      RemainingConcat(intents, a[1..], b);
    }
  }

  predicate HeldBy(submissions: seq<Submission>, i: nat)
  {
    exists k :: 0 <= k < |submissions| && submissions[k].Unresolved() && i in submissions[k].ids
  }

  predicate HeldFacts(intents: seq<Intent>, submissions: seq<Submission>, key: Key, held: seq<nat>)
  {
    && InTable(held, |intents|) && Distinct(held)
    && (forall n :: 0 <= n < |held| ==> intents[held[n]].key == key && HeldBy(submissions, held[n]))
  }

  lemma {:induction false} HeldOk(s: Tables, key: Key)
    requires RowsOk(s) && Reserved(s)
    ensures HeldFacts(s.intents, s.submissions, key, Held(s.submissions, key))
    decreases |s.submissions|
  {
    if s.submissions != [] {
      var n := |s.submissions| - 1;
      var front := s.submissions[..n];
      HeldOk(s.(submissions := front), key);
      assert s.submissions == front + [s.submissions[n]];
      if s.submissions[n].key == key && s.submissions[n].Unresolved() {
        HeldExtended(s.intents, front, s.submissions[n], key, Held(front, key));
      } else {
        HeldWider(s.intents, front, s.submissions[n], key, Held(front, key));
        assert Held(s.submissions, key) == Held(front, key);
      }
    }
  }

  lemma {:induction false} HeldRemaining(s: Tables, key: Key)
    requires RowsOk(s) && Reserved(s) && InTable(Held(s.submissions, key), |s.intents|)
    ensures RemainingOf(s.intents, Held(s.submissions, key)) == Total(OpenAt(key), s.submissions)
    decreases |s.submissions|
  {
    if s.submissions != [] {
      var n := |s.submissions| - 1;
      var front := s.submissions[..n];
      HeldOk(s.(submissions := front), key);
      HeldRemaining(s.(submissions := front), key);
      assert s.submissions == front + [s.submissions[n]];
      TotalAppend(OpenAt(key), front, s.submissions[n]);
      RemainingConcat(s.intents, Held(front, key),
        if s.submissions[n].key == key && s.submissions[n].Unresolved() then s.submissions[n].ids else []);
    }
  }

  lemma HeldWider(intents: seq<Intent>, front: seq<Submission>, row: Submission, key: Key, held: seq<nat>)
    requires HeldFacts(intents, front, key, held)
    ensures HeldFacts(intents, front + [row], key, held)
  {
    forall n | 0 <= n < |held| ensures HeldBy(front + [row], held[n]) {
      var k :| 0 <= k < |front| && front[k].Unresolved() && held[n] in front[k].ids;
      assert (front + [row])[k] == front[k];
    }
  }

  lemma HeldExtended(intents: seq<Intent>, front: seq<Submission>, row: Submission, key: Key, held: seq<nat>)
    requires HeldFacts(intents, front, key, held) && SubmissionOk(intents, row)
    requires row.key == key && row.Unresolved()
    requires forall j :: 0 <= j < |front| && front[j].Unresolved() ==> Disjoint(front[j].ids, row.ids)
    ensures HeldFacts(intents, front + [row], key, held + row.ids)
  {
    HeldWider(intents, front, row, key, held);
    forall n | 0 <= n < |row.ids| ensures HeldBy(front + [row], row.ids[n]) {
      assert (front + [row])[|front|] == row && row.ids[n] in row.ids;
    }
    forall a, b | 0 <= a < |held| && 0 <= b < |row.ids| ensures held[a] != row.ids[b] {
      assert HeldBy(front, held[a]) && row.ids[b] in row.ids;
    }
  }

  /** Distinct intents of one key need no more together than the whole key needs. */
  lemma {:induction false} DistinctRemaining(intents: seq<Intent>, ids: seq<nat>, key: Key)
    requires InTable(ids, |intents|) && Distinct(ids)
    requires forall i :: 0 <= i < |intents| ==> IntentOk(intents[i])
    requires forall n :: 0 <= n < |ids| ==> intents[ids[n]].key == key
    ensures RemainingOf(intents, ids) <= Total(RemainingAt(key), intents)
    decreases |ids|
  {
    if ids == [] {
      TotalNonNegative(RemainingAt(key), intents);
    } else {
      var done := intents[ids[0]].(filled := intents[ids[0]].qty);
      var next := intents[ids[0] := done];
      TotalUpdate(RemainingAt(key), intents, ids[0], done);
      RemainingFrame(intents, next, ids[1..]);
      DistinctRemaining(next, ids[1..], key);
    }
  }

  lemma {:induction false} TotalNonNegative<T>(f: T -> real, rows: seq<T>)
    requires forall k :: 0 <= k < |rows| ==> f(rows[k]) >= 0.0
    ensures Total(f, rows) >= 0.0
  {
    if rows != [] {
      TotalNonNegative(f, rows[1..]);
    }
  }

  lemma ExecutedWithinClaims(s: State, key: Key)
    requires VenueOk(s)
    ensures Total(ExecutedAt(key), Pairs(s)) <= Total(ClaimAt(key), s.store.submissions)
  {
    forall k | 0 <= k < |s.orders| ensures ExecutedAt(key)(Pairs(s)[k]) <= ClaimAt(key)(s.store.submissions[k]) {
      assert OrderOk(s.store.submissions[k], s.orders[k], k);
    }
    TotalLe(ExecutedAt(key), Pairs(s), ClaimAt(key), s.store.submissions);
  }

  lemma OpenWithinRemaining(t: Tables, key: Key)
    requires RowsOk(t) && Reserved(t)
    ensures Total(OpenAt(key), t.submissions) <= Total(RemainingAt(key), t.intents)
  {
    HeldOk(t, key);
    HeldRemaining(t, key);
    DistinctRemaining(t.intents, Held(t.submissions, key), key);
  }

  /** What submissions claim stays within what the intents ask for. */
  lemma ClaimsWithin(t: Tables, key: Key)
    requires StoreOk(t)
    ensures Total(ClaimAt(key), t.submissions) <= Total(QtyAt(key), t.intents)
  {
    assert ExactAt(t, key);
    TotalAdd(ResolvedFilledAt(key), OpenAt(key), ClaimAt(key), t.submissions);
    OpenWithinRemaining(t, key);
    TotalAdd(FilledAt(key), RemainingAt(key), QtyAt(key), t.intents);
  }

  lemma OverHedgeBound(s: State, key: Key)
    requires Inv(s) && VenueOk(s)
    ensures Total(ExecutedAt(key), Pairs(s)) <= Total(QtyAt(key), s.store.intents)
  {
    ExecutedWithinClaims(s, key);
    ClaimsWithin(s.store, key);
  }

  /** If every answer is complete, the venue never executes more, per symbol and side, than the intents ask for. */
  lemma NeverOverHedged(limit: nat, events: seq<Event>, key: Key)
    requires Feasible(Init(limit), events) && SafeRun(Init(limit), events)
    ensures var s := After(Init(limit), events);
      && |s.orders| == |s.store.submissions|
      && Total(ExecutedAt(key), Pairs(s)) <= Total(QtyAt(key), s.store.intents)
  {
    InitInv(limit);
    RunInv(Init(limit), events);
    RunVenue(Init(limit), events);
    OverHedgeBound(After(Init(limit), events), key);
  }

  // ----- ledger exactness -----

  /** The intent ledger equals the resolved submissions, and no intent is over-filled, in every run. */
  lemma LedgerExact(limit: nat, events: seq<Event>, key: Key)
    requires Feasible(Init(limit), events)
    ensures var t := After(Init(limit), events).store;
      && Total(FilledAt(key), t.intents) == Total(ResolvedFilledAt(key), t.submissions)
      && Total(NotionalAt(key), t.intents) == Total(ResolvedNotionalAt(key), t.submissions)
      && Total(FeeAt(key), t.intents) == Total(ResolvedFeeAt(key), t.submissions)
      && (forall i :: 0 <= i < |t.intents| ==> 0.0 <= t.intents[i].filled <= t.intents[i].qty)
      && (forall i :: 0 <= i < |t.intents| && t.intents[i].status == Hedged ==> t.intents[i].filled == t.intents[i].qty)
  {
    InitInv(limit);
    RunInv(Init(limit), events);
    assert ExactAt(After(Init(limit), events).store, key);
  }

  // ----- credited against executed -----

  function StrangerAt(key: Key): Stranger -> real
  {
    (x: Stranger) => if x.key == key then x.executed else 0.0
  }

  const Itself := (x: real) => x

  /** What each own order executed under the key, and what each other order of the account did. */
  function Capacities(s: State, key: Key): (r: seq<real>)
    requires |s.orders| == |s.store.submissions|
    ensures |r| == |s.orders|
  {
    seq(|s.orders|, k requires 0 <= k < |s.orders| =>
      if s.store.submissions[k].key == key then s.orders[k].Quantity() else 0.0)
  }

  function OutsideCapacities(s: State, key: Key): (r: seq<real>)
    ensures |r| == |s.outside|
  {
    seq(|s.outside|, m requires 0 <= m < |s.outside| => if s.outside[m].key == key then s.outside[m].executed else 0.0)
  }

  predicate Within(sub: Submission, own: seq<real>, outside: seq<real>)
  {
    && sub.orderId.Some?
    && var id := sub.orderId.value;
       if id % 2 == 0 then id / 2 < |own| && sub.filled <= own[id / 2]
       else id / 2 < |outside| && sub.filled <= outside[id / 2]
  }

  predicate Credits(sub: Submission, key: Key)
  {
    sub.key == key && sub.status == Resolved
  }

  /** Submissions that each stay within one order of their own stay, together, within all orders. */
  lemma {:induction false} CreditedWithin(subs: seq<Submission>, own: seq<real>, outside: seq<real>, key: Key)
    requires forall k :: 0 <= k < |own| ==> 0.0 <= own[k]
    requires forall m :: 0 <= m < |outside| ==> 0.0 <= outside[m]
    requires forall j :: 0 <= j < |subs| && Credits(subs[j], key) ==> Within(subs[j], own, outside)
    requires forall j, k :: 0 <= j < k < |subs| && Credits(subs[j], key) && Credits(subs[k], key) ==>
               subs[j].orderId != subs[k].orderId
    ensures Total(ResolvedFilledAt(key), subs) <= Total(Itself, own) + Total(Itself, outside)
    decreases |subs|
  {
    if subs == [] {
      TotalNonNegative(Itself, own);
      TotalNonNegative(Itself, outside);
    } else if !Credits(subs[0], key) {
      CreditedWithin(subs[1..], own, outside, key);
    } else {
      var id := subs[0].orderId.value;
      if id % 2 == 0 {
        TotalUpdate(Itself, own, id / 2, 0.0);
        CreditedWithin(subs[1..], own[id / 2 := 0.0], outside, key);
      } else {
        TotalUpdate(Itself, outside, id / 2, 0.0);
        CreditedWithin(subs[1..], own, outside[id / 2 := 0.0], key);
      }
    }
  }

  lemma BoundWithin(s: State, k: nat, key: Key)
    requires AccountOk(s) && k < |s.store.submissions| && Credits(s.store.submissions[k], key)
    ensures Within(s.store.submissions[k], Capacities(s, key), OutsideCapacities(s, key))
  {
    assert BoundOk(s, s.store.submissions[k]);
  }

  /** Bound once, the submissions are credited no more than the account executed. */
  lemma CreditBound(s: State, key: Key)
    requires AccountOk(s) && BoundOnce(s)
    ensures Total(ResolvedFilledAt(key), s.store.submissions)
         <= Total(ExecutedAt(key), Pairs(s)) + Total(StrangerAt(key), s.outside)
  {
    var own, outside := Capacities(s, key), OutsideCapacities(s, key);
    forall k | 0 <= k < |s.store.submissions| && Credits(s.store.submissions[k], key)
      ensures Within(s.store.submissions[k], own, outside)
    {
      BoundWithin(s, k, key);
    }
    forall k | 0 <= k < |s.store.submissions| && Credits(s.store.submissions[k], key)
      ensures s.store.submissions[k].orderId.Some?
    {
      assert BoundOk(s, s.store.submissions[k]);
    }
    CreditedWithin(s.store.submissions, own, outside, key);
    TotalEq(Itself, own, ExecutedAt(key), Pairs(s));
    TotalEq(Itself, outside, StrangerAt(key), s.outside);
  }

  /**
   * In every run, safe or not, in which a lost order is bound only if no other submission has its id,
   * the intents are credited no more than the account executed.
   */
  lemma NeverOverCredited(limit: nat, events: seq<Event>, key: Key)
    requires Feasible(Init(limit), events) && CheckedRun(Init(limit), events)
    ensures var s := After(Init(limit), events);
      && |s.orders| == |s.store.submissions| && BoundOnce(s)
      && Total(FilledAt(key), s.store.intents)
         <= Total(ExecutedAt(key), Pairs(s)) + Total(StrangerAt(key), s.outside)
  {
    InitInv(limit);
    InitAccount(limit);
    RunAccount(Init(limit), events);
    RunIds(Init(limit), events);
    CreditBound(After(Init(limit), events), key);
    LedgerExact(limit, events, key);
  }

  predicate NothingUnresolved(s: State)
  {
    forall k :: 0 <= k < |s.store.submissions| ==> !s.store.submissions[k].Unresolved()
  }

  /**
   * If every answer is complete and every lost order is checked before it is bound, then once nothing
   * is unresolved the intents are credited what the submissions' orders executed, up to what other
   * orders of the account did.
   */
  lemma VenueAgrees(limit: nat, events: seq<Event>, key: Key)
    requires Feasible(Init(limit), events) && SafeRun(Init(limit), events) && CheckedRun(Init(limit), events)
    requires NothingUnresolved(After(Init(limit), events))
    ensures var s := After(Init(limit), events);
      && |s.orders| == |s.store.submissions|
      && Total(ExecutedAt(key), Pairs(s))
         <= Total(FilledAt(key), s.store.intents)
         <= Total(ExecutedAt(key), Pairs(s)) + Total(StrangerAt(key), s.outside)
  {
    var s := After(Init(limit), events);
    NeverOverCredited(limit, events, key);
    LedgerExact(limit, events, key);
    InitInv(limit);
    RunVenue(Init(limit), events);
    forall k | 0 <= k < |s.orders|
      ensures ExecutedAt(key)(Pairs(s)[k]) <= ResolvedFilledAt(key)(s.store.submissions[k])
    {
      assert OrderOk(s.store.submissions[k], s.orders[k], k);
    }
    TotalLe(ExecutedAt(key), Pairs(s), ResolvedFilledAt(key), s.store.submissions);
  }

  // ----- delta identity -----

  function SignedFillAt(symbol: string): FillRow -> real
  {
    (f: FillRow) => if f.event.symbol == symbol then f.event.side.Sign() * f.incremental else 0.0
  }

  function SignedQtyAt(symbol: string): Intent -> real
  {
    (i: Intent) => if i.key.symbol == symbol then i.key.side.Sign() * i.qty else 0.0
  }

  function SignedFilledAt(symbol: string): Intent -> real
  {
    (i: Intent) => if i.key.symbol == symbol then i.key.side.Sign() * i.filled else 0.0
  }

  function EscalatedAt(symbol: string): Intent -> real
  {
    (i: Intent) => if i.key.symbol == symbol && i.status == Escalate then i.Remaining() * i.key.side.Sign() else 0.0
  }

  /** Signed remainder of every intent, whatever its status. */
  function UnhedgedAt(symbol: string): Intent -> real
  {
    (i: Intent) => if i.key.symbol == symbol then i.Remaining() * i.key.side.Sign() else 0.0
  }

  /** Intents mirror the client fills with the opposite sign. */
  ghost predicate Mirrored(t: Tables)
  {
    forall symbol :: Total(SignedFillAt(symbol), t.fills) + Total(SignedQtyAt(symbol), t.intents) == 0.0
  }

  lemma MirrorStep(s: State, e: Event)
    requires Inv(s) && Enabled(s, e) && Mirrored(s.store)
    ensures Mirrored(Do(s, e).store)
  {
    hide Mirrored;
    if e.Client? && e.client.Fill? {
      RecordMirrors(s.store, e.client.fill);
    } else {
      RowsKept(s, e);
      SameRowsMirror(s.store, Do(s, e).store);
    }
  }

  lemma SameRowsMirror(a: Tables, b: Tables)
    requires SameRows(a, b) && Mirrored(a)
    ensures Mirrored(b)
  {
    forall symbol ensures Total(SignedFillAt(symbol), b.fills) + Total(SignedQtyAt(symbol), b.intents) == 0.0 {
      TotalEq(SignedQtyAt(symbol), b.intents, SignedQtyAt(symbol), a.intents);
    }
  }

  lemma RecordMirrors(s: Tables, e: FillEvent)
    requires RecordFill(s, e).Ok? && Mirrored(s)
    ensures Mirrored(RecordFill(s, e).value.store)
  {
    var t := RecordFill(s, e).value.store;
    if t.fills != s.fills {
      var fill := t.fills[|s.fills|];
      forall symbol ensures Total(SignedFillAt(symbol), t.fills) + Total(SignedQtyAt(symbol), t.intents) == 0.0 {
        assert Total(SignedFillAt(symbol), s.fills) + Total(SignedQtyAt(symbol), s.intents) == 0.0;
        TotalAppend(SignedFillAt(symbol), s.fills, fill);
        TotalAppend(SignedQtyAt(symbol), s.intents, NewIntent(|s.fills|, e, fill.incremental));
      }
    }
  }

  lemma {:induction false} RunMirrored(s: State, events: seq<Event>)
    requires Inv(s) && Mirrored(s.store) && Feasible(s, events)
    ensures Mirrored(After(s, events).store)
    decreases |events|
  {
    if events != [] {
      StepInv(s, events[0]);
      MirrorStep(s, events[0]);
      RunMirrored(Do(s, events[0]), events[1..]);
    }
  }

  /** Client position plus hedge position is minus what is still pending or escalated. */
  lemma DeltaIdentity(limit: nat, events: seq<Event>, symbol: string)
    requires Feasible(Init(limit), events)
    ensures var t := After(Init(limit), events).store;
      Total(SignedFillAt(symbol), t.fills)
      + (Total(ResolvedFilledAt(Key(symbol, Buy)), t.submissions) - Total(ResolvedFilledAt(Key(symbol, Sell)), t.submissions))
      == -(Total(PendingAt(symbol), t.intents) + Total(EscalatedAt(symbol), t.intents))
  {
    var t := After(Init(limit), events).store;
    InitInv(limit);
    RunInv(Init(limit), events);
    RunMirrored(Init(limit), events);
    assert Total(SignedFillAt(symbol), t.fills) + Total(SignedQtyAt(symbol), t.intents) == 0.0;
    assert ExactAt(t, Key(symbol, Buy)) && ExactAt(t, Key(symbol, Sell));
    SidesSplit(symbol, t.intents);
    UnhedgedSplit(t, symbol);
    TotalAdd(SignedFilledAt(symbol), UnhedgedAt(symbol), SignedQtyAt(symbol), t.intents);
  }

  /** A hedged intent has no remainder, so the unhedged part is pending or escalated. */
  lemma UnhedgedSplit(t: Tables, symbol: string)
    requires RowsOk(t)
    ensures Total(UnhedgedAt(symbol), t.intents) == Total(PendingAt(symbol), t.intents) + Total(EscalatedAt(symbol), t.intents)
  {
    forall row | row in t.intents
      ensures UnhedgedAt(symbol)(row) == PendingAt(symbol)(row) + EscalatedAt(symbol)(row)
    {
      var i :| 0 <= i < |t.intents| && t.intents[i] == row;
      assert IntentOk(t.intents[i]);
    }
    TotalAdd(PendingAt(symbol), EscalatedAt(symbol), UnhedgedAt(symbol), t.intents);
  }

  lemma {:induction false} SidesSplit(symbol: string, intents: seq<Intent>)
    ensures Total(SignedFilledAt(symbol), intents)
         == Total(FilledAt(Key(symbol, Buy)), intents) - Total(FilledAt(Key(symbol, Sell)), intents)
  {
    if intents != [] {
      SidesSplit(symbol, intents[1..]);
      var row := intents[0];
      assert row.key.symbol == symbol ==> row.key == Key(symbol, Buy) || row.key == Key(symbol, Sell);
    }
  }
}
