/**
 * With at most one attempt for each intent no run over-hedges, whatever the exchange answers. The
 * proof keeps a second copy of the tables in which a submission that was settled on an answer that may
 * be wrong stays unresolved, and its intents stay as they were: it still claims all it may execute.
 */
module SingleAttempt {
  import opened Domain
  import opened Sums
  import opened Store
  import opened Allocation
  import opened Ledger
  import opened HedgeProtocol
  import opened HedgeInvariant
  import opened HedgeRetries
  import opened HedgeSafety
  import OrphanMatch

  // ----- the second copy -----

  /** Some submission settled on an uncertain answer carries the intent. */
  predicate Touched(submissions: seq<Submission>, lost: set<nat>, i: nat)
  {
    exists k :: k in lost && k < |submissions| && i in submissions[k].ids
  }

  predicate SameClaim(a: Submission, b: Submission)
  {
    a.ids == b.ids && a.key == b.key && a.qty == b.qty
  }

  predicate Twin(a: Tables, v: Tables, lost: set<nat>)
  {
    && |v.intents| == |a.intents| && |v.submissions| == |a.submissions| && v.fills == a.fills && v.orders == a.orders
    && (forall i :: 0 <= i < |a.intents| ==>
          && v.intents[i].key == a.intents[i].key && v.intents[i].qty == a.intents[i].qty
          && (Touched(a.submissions, lost, i) || v.intents[i] == a.intents[i]))
    && (forall k :: k in lost ==> k < |a.submissions| && !a.submissions[k].Unresolved())
    && (forall k :: 0 <= k < |a.submissions| ==>
          && SameClaim(v.submissions[k], a.submissions[k])
          && (if k in lost then v.submissions[k].Unresolved() else v.submissions[k] == a.submissions[k]))
  }

  lemma TwinTransition(a: Tables, v: Tables, lost: set<nat>, i: nat, target: HedgeStatus, orderId: Option<nat>, b: Tables)
      returns (w: Tables)
    requires Twin(a, v, lost) && StoreOk(v) && TransitionHedge(a, i, target, orderId) == Ok(b)
    requires target == Hedged ==> a.intents[i].filled == a.intents[i].qty
    ensures StoreOk(w) && Twin(b, w, lost)
  {
    hide StoreOk, HedgeMove;
    if Touched(a.submissions, lost, i) {
      w := v;
    } else {
      TransitionKeeps(v, i, target, orderId);
      w := TransitionHedge(v, i, target, orderId).value;
    }
  }

  /** A submission of the first copy is settled; the second copy does not follow. */
  lemma TwinLost(a: Tables, b: Tables, v: Tables, lost: set<nat>, k: nat)
    requires Twin(a, v, lost) && k < |a.submissions| && a.submissions[k].Unresolved()
    requires b.fills == a.fills && b.orders == a.orders
    requires |b.submissions| == |a.submissions| && |b.intents| == |a.intents|
    requires !b.submissions[k].Unresolved() && SameClaim(a.submissions[k], b.submissions[k])
    requires forall j :: 0 <= j < |a.submissions| && j != k ==> b.submissions[j] == a.submissions[j]
    requires forall i :: 0 <= i < |a.intents| ==> SameIdentity(b.intents[i], a.intents[i])
    requires forall i :: 0 <= i < |a.intents| && i !in a.submissions[k].ids ==> b.intents[i] == a.intents[i]
    ensures Twin(b, v, lost + {k})
  {
    forall i | 0 <= i < |b.intents| && !Touched(b.submissions, lost + {k}, i) ensures v.intents[i] == b.intents[i] {
      assert k in lost + {k};
    }
  }

  lemma TwinRow(a: Tables, v: Tables, lost: set<nat>, k: nat, row: Submission) returns (w: Tables)
    requires Twin(a, v, lost) && StoreOk(v) && k < |a.submissions| && a.submissions[k].Unresolved()
    requires row == a.submissions[k].(status := row.status, orderId := row.orderId) && row.status != Resolved
    ensures StoreOk(w) && Twin(a.(submissions := a.submissions[k := row]), w, lost)
  {
    StatusKeeps(v, k, row);
    w := v.(submissions := v.submissions[k := row]);
    hide StoreOk;
    SameTouched(a.submissions, a.submissions[k := row], lost, |a.intents|);
  }

  lemma SameTouched(a: seq<Submission>, b: seq<Submission>, lost: set<nat>, count: nat)
    requires |a| <= |b| && (forall k :: 0 <= k < |a| ==> a[k].ids == b[k].ids)
    requires forall k :: k in lost ==> k < |a|
    ensures forall i :: 0 <= i < count ==> Touched(a, lost, i) == Touched(b, lost, i)
  {
    forall i | 0 <= i < count ensures Touched(a, lost, i) == Touched(b, lost, i) {
      if k :| k in lost && k < |b| && i in b[k].ids {
        assert i in a[k].ids;
      }
    }
  }

  /** The allocation loop reads and writes nothing but the intents it lists. */
  lemma {:induction false} AllocateAgrees(
      a: seq<Intent>, v: seq<Intent>, ids: seq<nat>, available: real, price: real, feeRate: real, orderId: nat, i: nat)
    requires InTable(ids, |a|) && |v| == |a| && i < |a|
    requires forall n :: 0 <= n < |ids| ==> a[ids[n]] == v[ids[n]]
    requires a[i] == v[i]
    ensures Allocate(a, ids, available, price, feeRate, orderId)[i] == Allocate(v, ids, available, price, feeRate, orderId)[i]
    decreases |ids|
  {
    if ids != [] {
      var row := a[ids[0]];
      var credited := Credit(row, available, price, feeRate, orderId);
      AllocateAgrees(a[ids[0] := credited], v[ids[0] := credited], ids[1..], available - Share(row, available),
                     price, feeRate, orderId, i);
    }
  }

  lemma TwinFinish(a: Tables, v: Tables, lost: set<nat>, k: nat, filled: real, notional: real, fee: real, id: nat, b: Tables)
      returns (w: Tables)
    requires Twin(a, v, lost) && StoreOk(a) && StoreOk(v) && k < |a.submissions| && a.submissions[k].Unresolved()
    requires forall i :: i in a.submissions[k].ids ==> !Touched(a.submissions, lost, i)
    requires Finish(a, k, filled, notional, fee, Some(id)) == Ok(b) && (filled == 0.0 ==> notional == 0.0 && fee == 0.0)
    ensures StoreOk(w) && Twin(b, w, lost)
  {
    var ids := a.submissions[k].ids;
    FinishKeeps(v, k, filled, notional, fee, Some(id));
    FinishKeeps(a, k, filled, notional, fee, Some(id));
    w := Finish(v, k, filled, notional, fee, Some(id)).value;
    forall n | 0 <= n < |ids| ensures a.intents[ids[n]] == v.intents[ids[n]] {
      assert ids[n] in ids;
    }
    SameTouched(a.submissions, b.submissions, lost, |a.intents|);
    forall i | 0 <= i < |b.intents| && !Touched(b.submissions, lost, i) ensures w.intents[i] == b.intents[i] {
      AllocateAgrees(a.intents, v.intents, ids, filled, Rate(notional, filled), Rate(fee, filled), id, i);
    }
  }

  lemma TwinPrepare(a: Tables, v: Tables, lost: set<nat>, ids: seq<nat>, key: Key, qty: real, kind: Kind, at: int, b: Tables)
      returns (w: Tables)
    requires Twin(a, v, lost) && StoreOk(v) && Prepare(a, ids, key, qty, kind, at) == Ok(b)
    requires Distinct(ids) && InTable(ids, |a.intents|) && qty == RemainingOf(a.intents, ids)
    requires forall i :: i in ids ==> !Touched(a.submissions, lost, i)
    ensures StoreOk(w) && Twin(b, w, lost)
  {
    DedupeIdentity(ids);
    forall n | 0 <= n < |ids| ensures a.intents[ids[n]] == v.intents[ids[n]] {
      assert ids[n] in ids;
    }
    RemainingFrame(a.intents, v.intents, ids);
    TwinFree(a, v, lost, ids);
    assert OneHedgingGroup(v, ids, key) by {
      assert OneHedgingGroup(a, ids, key);
    }
    PrepareKeeps(v, ids, key, qty, kind, at);
    w := Prepare(v, ids, key, qty, kind, at).value;
    hide StoreOk, Blocked, OneHedgingGroup;
    SameTouched(a.submissions, b.submissions, lost, |a.intents|);
  }

  lemma TwinFree(a: Tables, v: Tables, lost: set<nat>, ids: seq<nat>)
    requires Twin(a, v, lost) && !Blocked(a.submissions, ids)
    requires forall i :: i in ids ==> !Touched(a.submissions, lost, i)
    ensures !Blocked(v.submissions, ids)
  {
    forall k, i | 0 <= k < |v.submissions| && v.submissions[k].Unresolved() && i in v.submissions[k].ids && i in ids
      ensures false
    {
      if k in lost {
        assert Touched(a.submissions, lost, i);
      }
    }
  }

  lemma TwinRecord(a: Tables, v: Tables, lost: set<nat>, e: FillEvent, b: Tables) returns (w: Tables)
    requires Twin(a, v, lost) && StoreOk(a) && StoreOk(v) && RecordFill(a, e).Ok? && RecordFill(a, e).value.store == b
    ensures StoreOk(w) && Twin(b, w, lost)
  {
    RecordKeeps(v, e);
    w := RecordFill(v, e).value.store;
    hide StoreOk;
  }

  // ----- the state -----

  /** Every intent that is being hedged, or was submitted, has used an attempt. */
  predicate Tried(a: Tables)
  {
    && (forall i :: 0 <= i < |a.intents| && a.intents[i].status == Hedging ==> a.intents[i].attempts >= 1)
    && (forall k :: 0 <= k < |a.submissions| ==> TriedRow(a.intents, a.submissions[k].ids))
  }

  predicate TriedRow(intents: seq<Intent>, ids: seq<nat>)
  {
    forall i :: i in ids ==> i < |intents| && intents[i].attempts >= 1
  }

  /** What a task may still submit is carried by no submission settled on an uncertain answer. */
  predicate ActiveFree(s: State, lost: set<nat>)
  {
    forall task, i :: task in s.groups && !s.groups[task].stage.Settling? && i in s.groups[task].active ==>
      !Touched(s.store.submissions, lost, i)
  }

  predicate ClaimOk(sub: Submission, order: XOrder, certain: bool)
  {
    && 0.0 <= order.Quantity() <= sub.qty && sub.status != Escalated
    && (certain && !sub.Unresolved() ==>
          Spent(order, sub.qty) && order.Quantity() <= if sub.status == Resolved then sub.filled else 0.0)
  }

  predicate Claimed(s: State, lost: set<nat>)
  {
    && |s.orders| == |s.store.submissions|
    && forall k :: 0 <= k < |s.orders| ==> ClaimOk(s.store.submissions[k], s.orders[k], k !in lost)
  }

  ghost predicate Sim(s: State, v: Tables, lost: set<nat>)
  {
    && Inv(s) && StatusOk(s) && s.limit <= 1 && StoreOk(v)
    && Twin(s.store, v, lost) && Tried(s.store) && ActiveFree(s, lost) && Claimed(s, lost)
  }

  lemma SimBound(s: State, v: Tables, lost: set<nat>, key: Key)
    requires Sim(s, v, lost)
    ensures Total(ExecutedAt(key), Pairs(s)) <= Total(QtyAt(key), s.store.intents)
  {
    forall k | 0 <= k < |s.orders| ensures ExecutedAt(key)(Pairs(s)[k]) <= ClaimAt(key)(v.submissions[k]) {
      assert ClaimOk(s.store.submissions[k], s.orders[k], k !in lost);
      assert SameClaim(v.submissions[k], s.store.submissions[k]);
    }
    TotalLe(ExecutedAt(key), Pairs(s), ClaimAt(key), v.submissions);
    ClaimsWithin(v, key);
    TotalEq(QtyAt(key), v.intents, QtyAt(key), s.store.intents);
  }

  lemma InitSim(limit: nat)
    requires limit <= 1
    ensures Sim(Init(limit), Empty, {})
  {
  }

  // ----- frames -----

  /** The submission rows a step leaves: the old ones for the same intents, and perhaps one more. */
  predicate SameIds(a: seq<Submission>, b: seq<Submission>)
  {
    |a| <= |b| && forall k :: 0 <= k < |a| ==> SameClaim(a[k], b[k])
  }

  lemma TriedFrame(s: State, t: State)
    requires Tried(s.store) && AllMoved(s.store.intents, t.store.intents, s.limit)
    requires SameIds(s.store.submissions, t.store.submissions)
    requires forall i :: |s.store.intents| <= i < |t.store.intents| ==> t.store.intents[i].status == Pending
    requires forall k, i :: |s.store.submissions| <= k < |t.store.submissions| && i in t.store.submissions[k].ids ==>
               i < |s.store.intents| && s.store.intents[i].status == Hedging
    ensures Tried(t.store)
  {
    forall i | 0 <= i < |s.store.intents|
      ensures t.store.intents[i].attempts >= s.store.intents[i].attempts
      ensures t.store.intents[i].status == Hedging ==> t.store.intents[i].attempts >= 1
    {
      assert Moved(s.store.intents[i], t.store.intents[i], s.limit);
    }
    forall k | 0 <= k < |t.store.submissions| ensures TriedRow(t.store.intents, t.store.submissions[k].ids) {
      if k < |s.store.submissions| {
        assert TriedRow(s.store.intents, s.store.submissions[k].ids) && SameClaim(s.store.submissions[k], t.store.submissions[k]);
      }
      forall i | i in t.store.submissions[k].ids ensures i < |t.store.intents| && t.store.intents[i].attempts >= 1 {
        assert i < |s.store.intents|;
      }
    }
  }

  /** Where the tables' intents that matter to the tasks stay untouched. */
  lemma ActiveFrame(s: State, v: Tables, t: State, lost: set<nat>)
    requires ActiveFree(s, lost) && SameIds(s.store.submissions, t.store.submissions) && Twin(s.store, v, lost)
    requires forall task :: task in t.groups && !t.groups[task].stage.Settling? ==>
               task in s.groups && !s.groups[task].stage.Settling? && t.groups[task].active == s.groups[task].active
    ensures ActiveFree(t, lost)
  {
    forall task, i | task in t.groups && !t.groups[task].stage.Settling? && i in t.groups[task].active
      ensures !Touched(t.store.submissions, lost, i)
    {
      if k :| k in lost && k < |t.store.submissions| && i in t.store.submissions[k].ids {
        assert SameClaim(s.store.submissions[k], t.store.submissions[k]);
        assert Touched(s.store.submissions, lost, i);
      }
    }
  }

  /** A step that writes at most order and submission `k`. */
  lemma ClaimedAt(s: State, t: State, k: nat, lost: set<nat>, more: set<nat>)
    requires Claimed(s, lost) && lost <= more && |t.orders| == |s.orders| == |t.store.submissions|
    requires forall j :: 0 <= j < |s.orders| && j != k ==>
               t.orders[j] == s.orders[j] && t.store.submissions[j] == s.store.submissions[j]
    requires k < |s.orders| ==> ClaimOk(t.store.submissions[k], t.orders[k], k !in more)
    ensures Claimed(t, more)
  {
    forall j | 0 <= j < |t.orders| ensures ClaimOk(t.store.submissions[j], t.orders[j], j !in more) {
      assert ClaimOk(s.store.submissions[j], s.orders[j], j !in lost);
    }
  }

  lemma SimParts(s: State, v: Tables, lost: set<nat>)
    requires Sim(s, v, lost)
    ensures Inv(s) && StatusOk(s) && s.limit <= 1 && Tried(s.store)
  {
  }

  /** What holds after every step, apart from the second copy and the claims. */
  lemma SimFrame(s: State, v: Tables, lost: set<nat>, e: Event, t: State)
    requires Sim(s, v, lost) && Enabled(s, e) && t == Do(s, e)
    requires SameIds(s.store.submissions, t.store.submissions)
    requires forall k, i :: |s.store.submissions| <= k < |t.store.submissions| && i in t.store.submissions[k].ids ==>
               i < |s.store.intents| && s.store.intents[i].status == Hedging
    ensures Inv(t) && StatusOk(t) && t.limit <= 1 && Tried(t.store)
  {
    SimParts(s, v, lost);
    hide Sim, Inv, StatusOk, Do, Enabled, Tried, Moved;
    StepStatusOk(s, e);
    StepMoves(s, e);
    NewIntents(s, e);
    var before, after := s.store.submissions, t.store.submissions;
    forall k, i | |before| <= k < |after| && i in after[k].ids ensures i < |s.store.intents| && s.store.intents[i].status == Hedging {
    }
    TriedFrame(s, t);
  }

  // ----- events -----

  lemma SimClient(s: State, v: Tables, lost: set<nat>, step: ClientStep) returns (w: Tables)
    requires Sim(s, v, lost) && ClientEnabled(s, step)
    ensures Sim(DoClient(s, step), w, lost)
  {
    var t := DoClient(s, step);
    SimFrame(s, v, lost, Client(step), t);
    ActiveFrame(s, v, t, lost);
    if step.Fill? {
      w := TwinRecord(s.store, v, lost, step.fill, t.store);
    } else {
      w := v.(orders := t.store.orders);
      assert RowsOk(w) && Reserved(w);
      forall key ensures ExactAt(w, key) { assert ExactAt(v, key); }
    }
    hide Inv, StatusOk, StoreOk;
    ClaimedAt(s, t, |s.orders|, lost, lost);
  }

  lemma SimLoop(s: State, v: Tables, lost: set<nat>, step: LoopStep) returns (w: Tables)
    requires Sim(s, v, lost) && LoopEnabled(s, step)
    ensures Sim(DoLoop(s, step), w, lost)
  {
    var t := DoLoop(s, step);
    SimFrame(s, v, lost, Loop(step), t);
    if step.EscalateDust? {
      w := TwinTransition(s.store, v, lost, step.i, Escalate, None, t.store);
      ActiveFrame(s, v, t, lost);
    } else {
      w := v;
    }
    hide Inv, StatusOk, StoreOk;
    ClaimedAt(s, t, |s.orders|, lost, lost);
  }

  lemma SimVenue(s: State, v: Tables, lost: set<nat>, k: nat, step: VenueStep)
    requires Sim(s, v, lost) && SubAt(s, k) && VenueEnabled(s, k, step)
    ensures Sim(DoVenue(s, k, step), v, lost)
  {
    var t := DoVenue(s, k, step);
    SimFrame(s, v, lost, Venue(k, step), t);
    hide Inv, StatusOk, StoreOk;
    ActiveFrame(s, v, t, lost);
    assert ClaimOk(s.store.submissions[k], s.orders[k], k !in lost);
    ClaimedAt(s, t, k, lost, lost);
  }

  lemma SimOutside(s: State, v: Tables, lost: set<nat>, step: OutsideStep)
    requires Sim(s, v, lost) && OutsideEnabled(s, step)
    ensures Sim(DoOutside(s, step), v, lost)
  {
    SimFrame(s, v, lost, Outside(step), DoOutside(s, step));
  }

  // ----- task events -----

  lemma TaskDoes(s: State, task: nat, step: TaskStep)
    requires Inv(s) && task in s.groups && TaskEnabled(s, s.groups[task], step)
    ensures ForeignKeys(s.store) && Enabled(s, Task(task, step)) && Do(s, Task(task, step)) == DoTask(s, task, step)
  {
    hide TaskEnabled, DoTask;
  }

  lemma RestartDoes(s: State, step: RestartStep)
    requires Inv(s) && s.recovering && RestartEnabled(s, step)
    ensures ForeignKeys(s.store) && Enabled(s, Restart(step)) && Do(s, Restart(step)) == DoRestart(s, step)
  {
    hide RestartEnabled, DoRestart;
  }

  /** An intent that still has its attempt was never submitted. */
  lemma FirstAttempt(s: State, v: Tables, lost: set<nat>, task: nat)
    requires Sim(s, v, lost) && task in s.groups && TaskEnabled(s, s.groups[task], Attempt)
    requires AttemptTarget(s, s.groups[task].ids[s.groups[task].stage.next]) == Hedging
    ensures !Touched(s.store.submissions, lost, s.groups[task].ids[s.groups[task].stage.next])
  {
    var i := s.groups[task].ids[s.groups[task].stage.next];
    assert forall k :: 0 <= k < |s.store.submissions| ==> TriedRow(s.store.intents, s.store.submissions[k].ids);
  }

  lemma AttemptedFree(s: State, v: Tables, lost: set<nat>, task: nat)
    requires Sim(s, v, lost) && task in s.groups && TaskEnabled(s, s.groups[task], Attempt)
    ensures var t := DoTask(s, task, Attempt);
      ActiveFree(t, lost) && t.orders == s.orders && t.store.submissions == s.store.submissions
  {
    if AttemptTarget(s, s.groups[task].ids[s.groups[task].stage.next]) == Hedging {
      FirstAttempt(s, v, lost, task);
    }
    hide Inv, StatusOk, StoreOk, Touched, Twin, Tried, Claimed;
  }

  lemma SimAttempt(s: State, v: Tables, lost: set<nat>, task: nat) returns (w: Tables)
    requires Sim(s, v, lost) && task in s.groups && TaskEnabled(s, s.groups[task], Attempt)
    ensures Sim(DoTask(s, task, Attempt), w, lost)
  {
    var t := DoTask(s, task, Attempt);
    var i := s.groups[task].ids[s.groups[task].stage.next];
    AttemptedFree(s, v, lost, task);
    SimFrame(s, v, lost, Task(task, Attempt), t);
    hide Inv, StatusOk, StoreOk, Touched, Twin, Tried, Claimed, ActiveFree;
    w := TwinTransition(s.store, v, lost, i, AttemptTarget(s, i), None, t.store);
    ClaimedAt(s, t, |s.orders|, lost, lost);
  }

  predicate Moving(step: TaskStep)
  {
    step.EscalateInflight? || step.Mark? || step.Settle? || step.Begin? || step.ExecutorFailed? || step.ResponseLost?
    || step.EndTask?
  }

  /** Steps that move one intent, or nothing durable, leave submissions and orders alone. */
  lemma MovesRows(s: State, task: nat, step: TaskStep)
    requires ForeignKeys(s.store) && task in s.groups && TaskEnabled(s, s.groups[task], step) && Moving(step)
    ensures var t := DoTask(s, task, step);
      && t.store.submissions == s.store.submissions && t.orders == s.orders
      && (forall other :: other in t.groups && !t.groups[other].stage.Settling? ==>
            other in s.groups && !s.groups[other].stage.Settling? && t.groups[other].active == s.groups[other].active)
  {
    hide ForeignKeys;
  }

  lemma MovesTwin(s: State, v: Tables, lost: set<nat>, task: nat, step: TaskStep) returns (w: Tables)
    requires Sim(s, v, lost) && task in s.groups && TaskEnabled(s, s.groups[task], step) && Moving(step)
    ensures StoreOk(w) && Twin(DoTask(s, task, step).store, w, lost)
  {
    var g, t := s.groups[task], DoTask(s, task, step);
    if step.Settle? {
      SettledFull(s, g.active[g.stage.next], g.stage.outcome);
    }
    hide Inv, StoreOk, StatusOk, Twin, Tried, ActiveFree, Claimed;
    if step.EscalateInflight? && IsInflight(s.store.intents[g.ids[g.stage.next]]) {
      w := TwinTransition(s.store, v, lost, g.ids[g.stage.next], Escalate, None, t.store);
    } else if step.Mark? {
      w := TwinTransition(s.store, v, lost, g.active[g.stage.marked], Hedging, Some(OwnId(g.stage.sub)), t.store);
    } else if step.Settle? {
      var i := g.active[g.stage.next];
      w := TwinTransition(s.store, v, lost, i, SettleTarget(s.store.intents[i], g.stage.outcome),
        SettleOrder(g.stage.outcome), t.store);
    } else {
      w := v;
    }
  }

  lemma SimMoves(s: State, v: Tables, lost: set<nat>, task: nat, step: TaskStep) returns (w: Tables)
    requires Sim(s, v, lost) && task in s.groups && TaskEnabled(s, s.groups[task], step) && Moving(step)
    ensures Sim(DoTask(s, task, step), w, lost)
  {
    var t := DoTask(s, task, step);
    MovesRows(s, task, step);
    w := MovesTwin(s, v, lost, task, step);
    SimFrame(s, v, lost, Task(task, step), t);
    hide DoTask, TaskEnabled, Inv, StatusOk, StoreOk;
    ActiveFrame(s, v, t, lost);
    ClaimedAt(s, t, |s.orders|, lost, lost);
  }

  lemma SettledFull(s: State, i: nat, outcome: Outcome)
    requires Inv(s) && i < |s.store.intents|
    ensures SettleTarget(s.store.intents[i], outcome) == Hedged ==> s.store.intents[i].filled == s.store.intents[i].qty
  {
    assert IntentOk(s.store.intents[i]);
  }

  lemma PreparedRows(s: State, task: nat, at: int)
    requires Inv(s) && task in s.groups && s.groups[task].stage.Ready?
    ensures var g, t := s.groups[task], DoTask(s, task, PrepareOrder(at));
      && Distinct(g.active) && InTable(g.active, |s.store.intents|) && g.need == RemainingOf(s.store.intents, g.active)
      && (forall other :: other in t.groups && !t.groups[other].stage.Settling? ==>
            other in s.groups && !s.groups[other].stage.Settling? && t.groups[other].active == s.groups[other].active)
      && ((t.store == s.store && t.orders == s.orders)
          || (&& t.orders == s.orders + [NotSent]
              && t.store.submissions == s.store.submissions + [
                   Submission(g.key, g.need, g.stage.kind, Submitting, g.active, at, None, 0.0, 0.0, 0.0)]
              && 0.0 < g.need && Prepare(s.store, g.active, g.key, g.need, g.stage.kind, at) == Ok(t.store)
              && OneHedgingGroup(s.store, g.active, g.key)))
  {
    assert GroupOk(s.store, s.groups[task]);
    DedupeIdentity(s.groups[task].active);
    hide ForeignKeys, StoreOk;
  }

  lemma PreparedFramed(s: State, v: Tables, lost: set<nat>, task: nat, at: int)
    requires Sim(s, v, lost) && task in s.groups && s.groups[task].stage.Ready?
    ensures var t := DoTask(s, task, PrepareOrder(at));
      && Inv(t) && StatusOk(t) && t.limit <= 1 && Tried(t.store) && SameIds(s.store.submissions, t.store.submissions)
      && (forall i :: i in s.groups[task].active ==> !Touched(s.store.submissions, lost, i))
  {
    PreparedRows(s, task, at);
    ActiveUntouched(s, lost, task);
    TaskDoes(s, task, PrepareOrder(at));
    var t := DoTask(s, task, PrepareOrder(at));
    assert SameIds(s.store.submissions, t.store.submissions);
    hide DoTask, Prepare, Sim, Do, Enabled;
    SimFrame(s, v, lost, Task(task, PrepareOrder(at)), t);
  }

  lemma SimPrepare(s: State, v: Tables, lost: set<nat>, task: nat, at: int) returns (w: Tables)
    requires Sim(s, v, lost) && task in s.groups && s.groups[task].stage.Ready?
    ensures Sim(DoTask(s, task, PrepareOrder(at)), w, lost)
  {
    var g, t := s.groups[task], DoTask(s, task, PrepareOrder(at));
    PreparedRows(s, task, at);
    PreparedFramed(s, v, lost, task, at);
    hide DoTask, Prepare, Inv, StatusOk, StoreOk, Touched, Tried, Twin, ActiveFree, Claimed, OneHedgingGroup, ForeignKeys;
    ActiveFrame(s, v, t, lost);
    if t.store == s.store {
      w := v;
      ClaimedAt(s, t, |s.orders|, lost, lost);
    } else {
      w := TwinPrepare(s.store, v, lost, g.active, g.key, g.need, g.stage.kind, at, t.store);
      PreparedClaim(s, t, lost);
    }
  }

  lemma PreparedClaim(s: State, t: State, lost: set<nat>)
    requires Claimed(s, lost) && t.orders == s.orders + [NotSent]
    requires |t.store.submissions| == |s.store.submissions| + 1
    requires forall k :: 0 <= k < |s.store.submissions| ==> t.store.submissions[k] == s.store.submissions[k]
    requires t.store.submissions[|s.orders|].Unresolved() && 0.0 <= t.store.submissions[|s.orders|].qty
    ensures Claimed(t, lost)
  {
    forall k | 0 <= k < |t.orders| ensures ClaimOk(t.store.submissions[k], t.orders[k], k !in lost) {
      if k < |s.orders| {
        assert ClaimOk(s.store.submissions[k], s.orders[k], k !in lost);
      }
    }
  }

  lemma OwnRows(s: State, lost: set<nat>, task: nat, step: TaskStep)
    requires Inv(s) && Claimed(s, lost) && task in s.groups && TaskEnabled(s, s.groups[task], step)
    requires step.Send? || step.Rejected? || step.Acked?
    ensures var g, t := s.groups[task], DoTask(s, task, step);
      && SubAt(s, g.stage.sub) && s.store.submissions[g.stage.sub].Unresolved()
      && |t.orders| == |s.orders| && |t.store.submissions| == |s.store.submissions|
      && (forall j :: 0 <= j < |s.orders| && j != g.stage.sub ==> t.orders[j] == s.orders[j])
      && var row := t.store.submissions[g.stage.sub];
      && t.store == s.store.(submissions := s.store.submissions[g.stage.sub := row])
      && row == s.store.submissions[g.stage.sub].(status := row.status, orderId := row.orderId) && row.status != Resolved
      && ClaimOk(row, t.orders[g.stage.sub], true)
      && (forall other :: other in t.groups && !t.groups[other].stage.Settling? ==>
            other in s.groups && !s.groups[other].stage.Settling? && t.groups[other].active == s.groups[other].active)
  {
    var g := s.groups[task];
    assert GroupOk(s.store, g) && Holds(s.store, g, g.stage.sub);
    assert ClaimOk(s.store.submissions[g.stage.sub], s.orders[g.stage.sub], g.stage.sub !in lost);
    hide Inv, StoreOk, ForeignKeys, Claimed, GroupOk;
  }

  lemma OwnFramed(s: State, v: Tables, lost: set<nat>, task: nat, step: TaskStep)
    requires Sim(s, v, lost) && task in s.groups && TaskEnabled(s, s.groups[task], step)
    requires step.Send? || step.Rejected? || step.Acked?
    ensures var t := DoTask(s, task, step);
      Inv(t) && StatusOk(t) && t.limit <= 1 && Tried(t.store) && SameIds(s.store.submissions, t.store.submissions)
  {
    OwnRows(s, lost, task, step);
    TaskDoes(s, task, step);
    var t := DoTask(s, task, step);
    assert SameIds(s.store.submissions, t.store.submissions);
    hide *;
    SimFrame(s, v, lost, Task(task, step), t);
  }

  /** Sending, rejecting and acknowledging touch the task's own submission, which is not settled. */
  lemma SimOwn(s: State, v: Tables, lost: set<nat>, task: nat, step: TaskStep) returns (w: Tables)
    requires Sim(s, v, lost) && task in s.groups && TaskEnabled(s, s.groups[task], step)
    requires step.Send? || step.Rejected? || step.Acked?
    ensures Sim(DoTask(s, task, step), w, lost)
  {
    var k, t := s.groups[task].stage.sub, DoTask(s, task, step);
    OwnRows(s, lost, task, step);
    OwnFramed(s, v, lost, task, step);
    hide DoTask, TaskEnabled, Inv, StatusOk, StoreOk, Tried, Twin, ActiveFree, Claimed, ForeignKeys;
    w := TwinRow(s.store, v, lost, k, t.store.submissions[k]);
    ActiveFrame(s, v, t, lost);
    ClaimedAt(s, t, k, lost, lost);
  }

  /** The table part of a completion: one settled row, and its intents' amounts. */
  predicate Completed(a: Tables, b: Tables, k: nat, filled: real)
  {
    && k < |a.submissions| && a.submissions[k].Unresolved()
    && b.fills == a.fills && b.orders == a.orders && |b.intents| == |a.intents| && |b.submissions| == |a.submissions|
    && (forall j :: 0 <= j < |a.submissions| && j != k ==> b.submissions[j] == a.submissions[j])
    && b.submissions[k].status == Resolved && b.submissions[k].filled == filled
    && SameClaim(a.submissions[k], b.submissions[k])
    && (forall i :: 0 <= i < |a.intents| ==> SameIdentity(b.intents[i], a.intents[i]))
    && (forall i :: 0 <= i < |a.intents| && i !in a.submissions[k].ids ==> b.intents[i] == a.intents[i])
  }

  lemma FinishCompletes(a: Tables, k: nat, filled: real, notional: real, fee: real, orderId: Option<nat>, b: Tables)
    requires StoreOk(a) && k < |a.submissions| && a.submissions[k].Unresolved()
    requires Finish(a, k, filled, notional, fee, orderId) == Ok(b) && (filled == 0.0 ==> notional == 0.0 && fee == 0.0)
    ensures Completed(a, b, k, filled)
  {
    FinishKeeps(a, k, filled, notional, fee, orderId);
  }

  lemma CompletedTables(s: State, task: nat, filled: real, notional: real, fee: real)
    requires Inv(s) && task in s.groups && TaskEnabled(s, s.groups[task], Complete(filled, notional, fee))
    ensures var k, t := s.groups[task].stage.sub, DoTask(s, task, Complete(filled, notional, fee));
      && (filled == 0.0 ==> notional == 0.0 && fee == 0.0)
      && Finish(s.store, k, filled, notional, fee, Some(OwnId(k))) == Ok(t.store)
      && Completed(s.store, t.store, k, filled) && s.store.submissions[k].ids == s.groups[task].active
  {
    var k, t := s.groups[task].stage.sub, DoTask(s, task, Complete(filled, notional, fee));
    assert GroupOk(s.store, s.groups[task]) && Holds(s.store, s.groups[task], k);
    hide Finish, GroupOk, Holds, StoreOk, TasksOk, Completed;
    FinishCompletes(s.store, k, filled, notional, fee, Some(OwnId(k)), t.store);
  }

  lemma CompletedGroups(s: State, task: nat, filled: real, notional: real, fee: real)
    requires Inv(s) && task in s.groups && TaskEnabled(s, s.groups[task], Complete(filled, notional, fee))
    ensures var k, t := s.groups[task].stage.sub, DoTask(s, task, Complete(filled, notional, fee));
      && SubAt(s, k) && s.groups[task].stage.Accepted? && t.orders == s.orders
      && task in t.groups && t.groups == s.groups[task := t.groups[task]]
      && (t.groups[task].stage.Settling? || t.groups[task].active == s.groups[task].active)
      && (filled != s.orders[k].Quantity() ==> t.groups[task].stage.Settling?)
  {
    hide Inv, Finish, ForeignKeys;
  }

  lemma CompletedClaim(s: State, lost: set<nat>, task: nat, filled: real, notional: real, fee: real)
    requires Inv(s) && Claimed(s, lost) && task in s.groups && TaskEnabled(s, s.groups[task], Complete(filled, notional, fee))
    ensures var k := s.groups[task].stage.sub;
      SubAt(s, k) && ClaimOk(s.store.submissions[k].(status := Resolved, filled := filled), s.orders[k], filled == s.orders[k].Quantity())
  {
    var k := s.groups[task].stage.sub;
    assert ClaimOk(s.store.submissions[k], s.orders[k], k !in lost);
    hide Inv, Finish, ForeignKeys;
  }

  lemma SimCompleted(s: State, v: Tables, lost: set<nat>, task: nat, filled: real, notional: real, fee: real, t: State)
    requires Sim(s, v, lost) && task in s.groups && TaskEnabled(s, s.groups[task], Complete(filled, notional, fee))
    requires t == DoTask(s, task, Complete(filled, notional, fee))
    requires Completed(s.store, t.store, s.groups[task].stage.sub, filled)
    ensures Inv(t) && StatusOk(t) && t.limit <= 1 && Tried(t.store) && SameIds(s.store.submissions, t.store.submissions)
  {
    hide DoTask, TaskEnabled, Sim, SameIdentity;
    assert SameIds(s.store.submissions, t.store.submissions);
    SimFrame(s, v, lost, Task(task, Complete(filled, notional, fee)), t);
  }

  lemma ActiveUntouched(s: State, lost: set<nat>, task: nat)
    requires ActiveFree(s, lost) && task in s.groups && !s.groups[task].stage.Settling?
    ensures forall i :: i in s.groups[task].active ==> !Touched(s.store.submissions, lost, i)
  {
  }

  /** The task that leaves a claim open submits nothing more, and no other task shares its intents. */
  lemma LostActive(s: State, v: Tables, t: State, lost: set<nat>, task: nat, k: nat)
    requires Inv(s) && ActiveFree(s, lost) && task in s.groups && s.groups[task].stage.Accepted? && s.groups[task].stage.sub == k
    requires SameIds(s.store.submissions, t.store.submissions) && Twin(s.store, v, lost)
    requires task in t.groups && t.groups == s.groups[task := t.groups[task]] && t.groups[task].stage.Settling?
    ensures ActiveFree(t, lost + {k})
  {
    ActiveFrame(s, v, t, lost);
    var g := s.groups[task];
    assert GroupOk(s.store, g) && Holds(s.store, g, k);
    forall other, i | other in t.groups && !t.groups[other].stage.Settling? && i in t.groups[other].active
      ensures !Touched(t.store.submissions, lost + {k}, i)
    {
      assert !Touched(t.store.submissions, lost, i);
      assert GroupOk(s.store, s.groups[other]);
      assert i in s.groups[other].ids && i !in g.ids;
      assert SameClaim(s.store.submissions[k], t.store.submissions[k]);
    }
  }

  lemma CertainCompletion(s: State, v: Tables, lost: set<nat>, task: nat, filled: real, notional: real, fee: real, t: State)
      returns (w: Tables)
    requires Sim(s, v, lost) && task in s.groups && TaskEnabled(s, s.groups[task], Complete(filled, notional, fee))
    requires t == DoTask(s, task, Complete(filled, notional, fee)) && filled == s.orders[s.groups[task].stage.sub].Quantity()
    ensures StoreOk(w) && Twin(t.store, w, lost) && ActiveFree(t, lost) && Claimed(t, lost)
  {
    var k := s.groups[task].stage.sub;
    CompletedClaim(s, lost, task, filled, notional, fee);
    CompletedTables(s, task, filled, notional, fee);
    CompletedGroups(s, task, filled, notional, fee);
    ActiveUntouched(s, lost, task);
    hide DoTask, TaskEnabled, StatusOk, StoreOk, Tried, Touched, Finish, TasksOk;
    w := TwinFinish(s.store, v, lost, k, filled, notional, fee, OwnId(k), t.store);
    ActiveFrame(s, v, t, lost);
    hide Inv;
    ClaimedAt(s, t, k, lost, lost);
  }

  lemma LostCompletion(s: State, v: Tables, lost: set<nat>, task: nat, filled: real, notional: real, fee: real, t: State)
    requires Sim(s, v, lost) && task in s.groups && TaskEnabled(s, s.groups[task], Complete(filled, notional, fee))
    requires t == DoTask(s, task, Complete(filled, notional, fee)) && filled != s.orders[s.groups[task].stage.sub].Quantity()
    ensures var more := lost + {s.groups[task].stage.sub}; Twin(t.store, v, more) && ActiveFree(t, more) && Claimed(t, more)
  {
    var k := s.groups[task].stage.sub;
    CompletedClaim(s, lost, task, filled, notional, fee);
    CompletedTables(s, task, filled, notional, fee);
    CompletedGroups(s, task, filled, notional, fee);
    hide DoTask, TaskEnabled, StatusOk, StoreOk, Tried, Touched, Finish, TasksOk;
    TwinLost(s.store, t.store, v, lost, k);
    LostActive(s, v, t, lost, task, k);
    hide Inv;
    ClaimedAt(s, t, k, lost, lost + {k});
  }

  /** A report that lists every execution is certain; one that misses some leaves the claim open. */
  lemma SimComplete(s: State, v: Tables, lost: set<nat>, task: nat, filled: real, notional: real, fee: real)
      returns (w: Tables, more: set<nat>)
    requires Sim(s, v, lost) && task in s.groups && TaskEnabled(s, s.groups[task], Complete(filled, notional, fee))
    ensures Sim(DoTask(s, task, Complete(filled, notional, fee)), w, more)
  {
    var t := DoTask(s, task, Complete(filled, notional, fee));
    var k := s.groups[task].stage.sub;
    CompletedTables(s, task, filled, notional, fee);
    SimCompleted(s, v, lost, task, filled, notional, fee, t);
    hide DoTask, Inv, StatusOk, StoreOk, Twin, Tried, ActiveFree, Claimed;
    if filled == s.orders[k].Quantity() {
      more := lost;
      w := CertainCompletion(s, v, lost, task, filled, notional, fee, t);
    } else {
      more := lost + {k};
      w := v;
      LostCompletion(s, v, lost, task, filled, notional, fee, t);
    }
  }

  lemma SimTask(s: State, v: Tables, lost: set<nat>, task: nat, step: TaskStep) returns (w: Tables, more: set<nat>)
    requires Sim(s, v, lost) && task in s.groups && TaskEnabled(s, s.groups[task], step)
    ensures Sim(DoTask(s, task, step), w, more)
  {
    hide Sim, DoTask;
    more := lost;
    match step
    case Attempt => w := SimAttempt(s, v, lost, task);
    case PrepareOrder(at) => w := SimPrepare(s, v, lost, task, at);
    case Send => w := SimOwn(s, v, lost, task, step);
    case Rejected => w := SimOwn(s, v, lost, task, step);
    case Acked => w := SimOwn(s, v, lost, task, step);
    case Complete(filled, notional, fee) => w, more := SimComplete(s, v, lost, task, filled, notional, fee);
    case _ => w := SimMoves(s, v, lost, task, step);
  }

  // ----- restart events -----

  /** What a settling step of the recovery writes. */
  lemma RecoveredTables(s: State, step: RestartStep)
    requires Inv(s) && RestartEnabled(s, step) && (step.RecoverKnown? || step.RecoverRows?)
    ensures var t := DoRestart(s, step); Completed(s.store, t.store, step.sub, t.store.submissions[step.sub].filled)
  {
    var k, t := step.sub, DoRestart(s, step);
    if step.RecoverRows? {
      var execution := s.found[k].execution.value;
      FinishCompletes(s.store, k, execution.filled, execution.notional, execution.fee, Some(s.found[k].orderId), t.store);
    } else {
      FinishCompletes(s.store, k, step.filled, step.notional, step.fee, s.store.submissions[k].orderId, t.store);
    }
  }

  /** A settled submission goes on claiming all it may execute. */
  lemma LostClaim(s: State, t: State, lost: set<nat>, k: nat)
    requires Inv(s) && s.recovering && Claimed(s, lost) && k < |s.store.submissions|
    requires t.orders == s.orders && |t.store.submissions| == |s.store.submissions|
    requires forall j :: 0 <= j < |s.orders| && j != k ==> t.store.submissions[j] == s.store.submissions[j]
    requires t.store.submissions[k].qty == s.store.submissions[k].qty && t.store.submissions[k].status != Escalated
    ensures Claimed(t, lost + {k})
  {
    assert ClaimOk(s.store.submissions[k], s.orders[k], k !in lost);
    hide Inv;
    ClaimedAt(s, t, k, lost, lost + {k});
  }

  lemma SimSettled(s: State, v: Tables, lost: set<nat>, step: RestartStep)
    requires Sim(s, v, lost) && s.recovering && RestartEnabled(s, step)
    requires step.RecoverAbsent? || step.RecoverKnown? || step.RecoverRows?
    ensures Sim(DoRestart(s, step), v, lost + {step.sub})
  {
    var k, t := step.sub, DoRestart(s, step);
    SettledTables(s, step);
    hide DoRestart, RestartEnabled, StoreOk, StatusOk, Tried, Touched, TasksOk, AnswersOk;
    TwinLost(s.store, t.store, v, lost, k);
    LostClaim(s, t, lost, k);
    SimFrame(s, v, lost, Restart(step), t);
  }

  /** The one row that the recovery settles, whichever way. */
  lemma SettledTables(s: State, step: RestartStep)
    requires Inv(s) && s.recovering && RestartEnabled(s, step)
    requires step.RecoverAbsent? || step.RecoverKnown? || step.RecoverRows?
    ensures var k, t := step.sub, DoRestart(s, step);
      && t.groups == map[] && t.orders == s.orders && k < |s.store.submissions| && s.store.submissions[k].Unresolved()
      && t.store.fills == s.store.fills && t.store.orders == s.store.orders
      && |t.store.intents| == |s.store.intents| && |t.store.submissions| == |s.store.submissions|
      && (forall j :: 0 <= j < |s.store.submissions| && j != k ==> t.store.submissions[j] == s.store.submissions[j])
      && !t.store.submissions[k].Unresolved() && t.store.submissions[k].status != Escalated
      && SameClaim(s.store.submissions[k], t.store.submissions[k])
      && (forall i :: 0 <= i < |s.store.intents| ==> SameIdentity(t.store.intents[i], s.store.intents[i]))
      && (forall i :: 0 <= i < |s.store.intents| && i !in s.store.submissions[k].ids ==> t.store.intents[i] == s.store.intents[i])
  {
    if !step.RecoverAbsent? {
      RecoveredTables(s, step);
      hide Finish, ReportedOn;
    }
    hide StoreOk;
  }

  lemma BindRows(s: State, lost: set<nat>, step: RestartStep)
    requires Inv(s) && Claimed(s, lost) && s.recovering && RestartEnabled(s, step) && step.RecoverBind?
    ensures var k, t := step.sub, DoRestart(s, step);
      && t.groups == map[] && t.orders == s.orders && SubAt(s, k) && s.store.submissions[k].Unresolved()
      && |t.store.submissions| == |s.store.submissions|
      && var row := t.store.submissions[k];
      && t.store == s.store.(submissions := s.store.submissions[k := row])
      && row == s.store.submissions[k].(status := row.status, orderId := row.orderId) && row.status != Resolved
      && ClaimOk(row, s.orders[k], true)
  {
    assert ClaimOk(s.store.submissions[step.sub], s.orders[step.sub], step.sub !in lost);
    hide StoreOk, Claimed;
  }

  lemma SimBind(s: State, v: Tables, lost: set<nat>, step: RestartStep) returns (w: Tables)
    requires Sim(s, v, lost) && s.recovering && RestartEnabled(s, step) && step.RecoverBind?
    ensures Sim(DoRestart(s, step), w, lost)
  {
    var k, t := step.sub, DoRestart(s, step);
    BindRows(s, lost, step);
    RestartDoes(s, step);
    hide DoRestart, RestartEnabled, Do, Enabled, Inv, StoreOk, StatusOk, Tried, Touched, Twin, Claimed;
    w := TwinRow(s.store, v, lost, k, t.store.submissions[k]);
    ClaimedAt(s, t, k, lost, lost);
    SimFrame(s, v, lost, Restart(step), t);
  }

  predicate Plain(step: RestartStep)
  {
    step.Crash? || step.ReadExecutions? || step.Find? || step.RecoverSettle? || step.RecoverInflight? || step.Resume?
  }

  lemma RecoversTwin(s: State, v: Tables, lost: set<nat>, step: RestartStep) returns (w: Tables)
    requires Sim(s, v, lost) && RestartEnabled(s, step) && Plain(step)
    ensures StoreOk(w) && Twin(DoRestart(s, step).store, w, lost)
  {
    var t := DoRestart(s, step);
    assert forall i :: 0 <= i < |s.store.intents| ==> IntentOk(s.store.intents[i]);
    hide StoreOk, Inv, StatusOk, Tried, ActiveFree, Claimed, Twin, Shows, OrphanMatch.Decided;
    w := v;
    if step.RecoverSettle? {
      w := TwinTransition(s.store, v, lost, step.i, RecoveredTarget(s.store.intents[step.i]),
        if s.store.submissions[step.sub].status == Resolved then s.store.submissions[step.sub].orderId else None, t.store);
    } else if step.RecoverInflight? {
      w := TwinTransition(s.store, v, lost, step.i, InflightTarget(s.store, step.i, step.latest), None, t.store);
    }
  }

  lemma PlainRows(s: State, step: RestartStep)
    requires Inv(s) && (step.Crash? || s.recovering) && RestartEnabled(s, step) && Plain(step)
    ensures var t := DoRestart(s, step);
      t.groups == map[] && t.orders == s.orders && t.store.submissions == s.store.submissions
  {
    hide StoreOk, Shows, OrphanMatch.Decided;
  }

  /** The other restart steps move one intent, or nothing durable. */
  lemma SimRecovers(s: State, v: Tables, lost: set<nat>, step: RestartStep) returns (w: Tables)
    requires Sim(s, v, lost) && (step.Crash? || s.recovering) && RestartEnabled(s, step) && Plain(step)
    ensures Sim(DoRestart(s, step), w, lost)
  {
    var t := DoRestart(s, step);
    PlainRows(s, step);
    w := RecoversTwin(s, v, lost, step);
    hide DoRestart, RestartEnabled, StoreOk, StatusOk, Tried, Touched, Inv, Twin;
    ClaimedAt(s, t, |s.orders|, lost, lost);
    SimFrame(s, v, lost, Restart(step), t);
  }

  lemma SimRestart(s: State, v: Tables, lost: set<nat>, step: RestartStep) returns (w: Tables, more: set<nat>)
    requires Sim(s, v, lost) && (step.Crash? || s.recovering) && RestartEnabled(s, step)
    ensures Sim(DoRestart(s, step), w, more)
  {
    hide Sim, DoRestart, RestartEnabled;
    w, more := v, lost;
    match step
    case RecoverAbsent(k) => more := lost + {k}; SimSettled(s, v, lost, step);
    case RecoverKnown(k, _, _, _) => more := lost + {k}; SimSettled(s, v, lost, step);
    case RecoverRows(k) => more := lost + {k}; SimSettled(s, v, lost, step);
    case RecoverBind(_) => w := SimBind(s, v, lost, step);
    case _ => w := SimRecovers(s, v, lost, step);
  }

  // ----- runs -----

  lemma SimStep(s: State, v: Tables, lost: set<nat>, e: Event) returns (w: Tables, more: set<nat>)
    requires Sim(s, v, lost) && Enabled(s, e)
    ensures Sim(Do(s, e), w, more)
  {
    hide Sim;
    w, more := v, lost;
    match e
    case Client(step) => w := SimClient(s, v, lost, step);
    case Loop(step) => w := SimLoop(s, v, lost, step);
    case Task(task, step) => w, more := SimTask(s, v, lost, task, step);
    case Venue(k, step) => SimVenue(s, v, lost, k, step);
    case Outside(step) => SimOutside(s, v, lost, step);
    case Restart(step) => w, more := SimRestart(s, v, lost, step);
  }

  lemma {:induction false} SimRun(s: State, v: Tables, lost: set<nat>, events: seq<Event>) returns (w: Tables, more: set<nat>)
    requires Sim(s, v, lost) && Feasible(s, events)
    ensures Sim(After(s, events), w, more)
    decreases |events|
  {
    if events == [] {
      w, more := v, lost;
    } else {
      w, more := SimStep(s, v, lost, events[0]);
      w, more := SimRun(Do(s, events[0]), w, more, events[1..]);
    }
  }

  /** One attempt for each intent is enough: no run, whatever its answers, executes more than the intents ask for. */
  lemma OneAttemptIsSafe(limit: nat, events: seq<Event>, key: Key)
    requires limit <= 1 && Feasible(Init(limit), events)
    ensures var s := After(Init(limit), events);
      && |s.orders| == |s.store.submissions|
      && Total(ExecutedAt(key), Pairs(s)) <= Total(QtyAt(key), s.store.intents)
  {
    InitSim(limit);
    var v, lost := SimRun(Init(limit), Empty, {}, events);
    SimBound(After(Init(limit), events), v, lost, key);
  }
}
