/**
 * What must have happened before the gate is armed, over every history of calls (risk.py:59-167). A
 * recovery run is two calls, its opening disarm and its last line with everything it has read; other
 * calls may come between them (recovery.py:25-84).
 */
module ArmingHistory {
  import opened Domain
  import opened RiskGate
  import opened Recovery

  datatype Call =
    | TryArm(phrase: string, actor: string, now: nat, later: nat)
    | Disarm
    | Kill
    | ResetKill(sentinel: bool)
    | Restore(sentinel: bool)
    | RecoveryStarts
    | RecoveryEnds(findings: Findings)
    | Evaluate(now: nat, sentinel: bool, limit: bool, enforce: bool)

  function Do(p: Policy, g: Gate, c: Call): Gate
  {
    match c
    case TryArm(phrase, actor, now, later) => Arm(p, g, phrase, actor, now, later).gate
    case Disarm => Disarmed(g)
    case Kill => Killed(g)
    case ResetKill(sentinel) => if sentinel then g else Reset(g)
    case Restore(sentinel) => Restored(g, sentinel)
    case RecoveryStarts => Disarmed(g)
    case RecoveryEnds(findings) => if findings.Clear() then Recovered(g) else g
    case Evaluate(now, sentinel, limit, enforce) => Evaluated(g, now, sentinel, limit, enforce)
  }

  /** The gate after a history of calls, from a gate that has just been built. */
  function After(p: Policy, start: Gate, calls: seq<Call>): Gate
  {
    if calls == [] then start else Do(p, After(p, start, calls[..|calls| - 1]), calls[|calls| - 1])
  }

  predicate Fresh(g: Gate)
  {
    g.pending == None && !g.active && !g.recovered
  }

  /** A call that takes the gate out of any arming: it disarms, kills, resets, restores or starts a recovery. */
  predicate Interrupts(g: Gate, c: Call)
  {
    match c
    case Disarm => true
    case Kill => true
    case ResetKill(sentinel) => !sentinel
    case Restore(_) => true
    case RecoveryStarts => true
    case Evaluate(now, sentinel, limit, enforce) => Evaluated(g, now, sentinel, limit, enforce) != g
    case _ => false
  }

  function Before(p: Policy, start: Gate, calls: seq<Call>, k: nat): Gate
    requires k <= |calls|
  {
    After(p, start, calls[..k])
  }

  /** Nothing after call i has interrupted. */
  ghost predicate Uninterrupted(p: Policy, start: Gate, calls: seq<Call>, i: nat)
  {
    forall k: nat :: i < k < |calls| ==> !Interrupts(Before(p, start, calls, k), calls[k])
  }

  /** Call i is an approval with the right phrase, by this actor, of a gate that may be armed. */
  ghost predicate Approval(p: Policy, start: Gate, calls: seq<Call>, i: nat, actor: string)
  {
    && i < |calls| && calls[i].TryArm? && calls[i].actor == actor
    && MayArm(p, Before(p, start, calls, i), calls[i].phrase) && Uninterrupted(p, start, calls, i)
  }

  /** The pending approval was given by that actor and not interrupted since. */
  ghost predicate PendingOk(p: Policy, start: Gate, calls: seq<Call>, g: Gate)
  {
    g.pending.Some? ==> exists i: nat ::
      Approval(p, start, calls, i, g.pending.value) && g.pendingUntil == calls[i].now + p.approvalTtl
  }

  /** Two different actors approved, the second within the approval time, and the lease runs from there. */
  ghost predicate Pair(p: Policy, start: Gate, calls: seq<Call>, i: nat, j: nat)
  {
    && i < j < |calls| && calls[i].TryArm? && calls[j].TryArm?
    && Approval(p, start, calls, i, calls[i].actor) && Approval(p, start, calls, j, calls[j].actor)
    && calls[i].actor != calls[j].actor && calls[j].now < calls[i].now + p.approvalTtl
  }

  function LeaseEnd(p: Policy, c: Call): nat
    requires c.TryArm?
  {
    if p.armTtl == 0 then 0 else c.later + p.armTtl
  }

  ghost predicate ActiveOk(p: Policy, start: Gate, calls: seq<Call>, g: Gate)
  {
    g.active ==> exists i: nat, j: nat :: Pair(p, start, calls, i, j) && g.armedUntil == LeaseEnd(p, calls[j])
  }

  /** One more call that does not interrupt leaves every earlier approval standing. */
  lemma ApprovalStays(p: Policy, start: Gate, calls: seq<Call>, c: Call, i: nat, actor: string)
    requires Approval(p, start, calls, i, actor) && !Interrupts(After(p, start, calls), c)
    ensures Approval(p, start, calls + [c], i, actor)
  {
    var more := calls + [c];
    assert more[..i] == calls[..i];
    forall k: nat | i < k < |more| ensures !Interrupts(Before(p, start, more, k), more[k]) {
      if k < |calls| {
        assert more[..k] == calls[..k] && more[k] == calls[k];
      } else {
        assert more[..k] == calls;
      }
    }
  }

  lemma PairStays(p: Policy, start: Gate, calls: seq<Call>, c: Call, i: nat, j: nat)
    requires Pair(p, start, calls, i, j) && !Interrupts(After(p, start, calls), c)
    ensures Pair(p, start, calls + [c], i, j)
  {
    ApprovalStays(p, start, calls, c, i, calls[i].actor);
    ApprovalStays(p, start, calls, c, j, calls[j].actor);
  }

  lemma FirstApproval(p: Policy, start: Gate, calls: seq<Call>, c: Call)
    requires c.TryArm? && MayArm(p, After(p, start, calls), c.phrase)
    ensures Approval(p, start, calls + [c], |calls|, c.actor)
  {
    assert (calls + [c])[..|calls|] == calls;
  }

  /** An interruption leaves nothing pending and nothing active. */
  lemma InterruptedIsIdle(p: Policy, g: Gate, c: Call)
    requires Interrupts(g, c)
    ensures !Do(p, g, c).active && Do(p, g, c).pending == None
  {
  }

  /** A call that neither interrupts nor arms keeps the approvals it does not drop. */
  lemma MildCall(p: Policy, g: Gate, c: Call)
    requires !Interrupts(g, c) && !c.TryArm?
    ensures var n := Do(p, g, c);
            && (n.pending == None || (n.pending == g.pending && n.pendingUntil == g.pendingUntil))
            && (n.active ==> g.active && n.armedUntil == g.armedUntil)
  {
  }

  lemma {:induction false} HistoryOk(p: Policy, start: Gate, calls: seq<Call>)
    requires p.dual && Fresh(start)
    ensures PendingOk(p, start, calls, After(p, start, calls)) && ActiveOk(p, start, calls, After(p, start, calls))
    decreases |calls|
  {
    if calls != [] {
      var front, c := calls[..|calls| - 1], calls[|calls| - 1];
      HistoryOk(p, start, front);
      assert calls == front + [c];
      var g := After(p, start, front);
      if Interrupts(g, c) {
        InterruptedIsIdle(p, g, c);
      } else if c.TryArm? {
        ArmStep(p, start, front, c, g);
      } else {
        MildCall(p, g, c);
        KeepPending(p, start, front, c, g);
        KeepActive(p, start, front, c, g);
      }
    }
  }

  lemma KeepPending(p: Policy, start: Gate, calls: seq<Call>, c: Call, g: Gate)
    requires g == After(p, start, calls) && PendingOk(p, start, calls, g) && !Interrupts(g, c)
    ensures PendingOk(p, start, calls + [c], g)
  {
    if g.pending.Some? {
      var i: nat :| Approval(p, start, calls, i, g.pending.value) && g.pendingUntil == calls[i].now + p.approvalTtl;
      ApprovalStays(p, start, calls, c, i, g.pending.value);
      assert (calls + [c])[i] == calls[i];
    }
  }

  lemma KeepActive(p: Policy, start: Gate, calls: seq<Call>, c: Call, g: Gate)
    requires g == After(p, start, calls) && ActiveOk(p, start, calls, g) && !Interrupts(g, c)
    ensures ActiveOk(p, start, calls + [c], g)
  {
    if g.active {
      var i: nat, j: nat :| Pair(p, start, calls, i, j) && g.armedUntil == LeaseEnd(p, calls[j]);
      PairStays(p, start, calls, c, i, j);
      assert (calls + [c])[j] == calls[j];
    }
  }

  lemma ArmStep(p: Policy, start: Gate, calls: seq<Call>, c: Call, g: Gate)
    requires p.dual && c.TryArm? && g == After(p, start, calls)
    requires PendingOk(p, start, calls, g) && ActiveOk(p, start, calls, g)
    ensures PendingOk(p, start, calls + [c], Do(p, g, c)) && ActiveOk(p, start, calls + [c], Do(p, g, c))
  {
    var n := Do(p, g, c);
    KeepPending(p, start, calls, c, g);
    KeepActive(p, start, calls, c, g);
    if MayArm(p, g, c.phrase) {
      FirstApproval(p, start, calls, c);
      var now := Current(g, c.now);
      if now.pending.Some? && now.pending != Some(c.actor) {
        var i: nat :| Approval(p, start, calls, i, g.pending.value) && g.pendingUntil == calls[i].now + p.approvalTtl;
        ApprovalStays(p, start, calls, c, i, g.pending.value);
        assert (calls + [c])[i] == calls[i] && (calls + [c])[|calls|] == c;
        assert Pair(p, start, calls + [c], i, |calls|);
      } else if now.pending == None {
        assert (calls + [c])[|calls|] == c;
      }
    }
  }

  /**
   * Whenever the gate is armed under dual approval, two different actors have approved it with the
   * right phrase, the second before the first approval ran out; the lease given then has not run out;
   * and since the first of the two nothing has disarmed, killed, reset or restored the gate.
   */
  lemma ArmedNeedsTwo(p: Policy, start: Gate, calls: seq<Call>, now: nat)
    requires p.dual && Fresh(start) && Armed(After(p, start, calls), now)
    ensures exists i: nat, j: nat ::
              Pair(p, start, calls, i, j) && (p.armTtl == 0 || now < calls[j].later + p.armTtl)
  {
    HistoryOk(p, start, calls);
    var g := After(p, start, calls);
    var i: nat, j: nat :| Pair(p, start, calls, i, j) && g.armedUntil == LeaseEnd(p, calls[j]);
  }

  // ----- after a kill -----

  predicate IsReset(c: Call) { c.ResetKill? && !c.sentinel }

  /** After call k the gate is killed, and the store knows it. */
  ghost predicate KilledAt(p: Policy, start: Gate, calls: seq<Call>, k: nat)
  {
    k < |calls| && var g := After(p, start, calls[..k + 1]); g.killed && g.durableKilled
  }

  lemma BeforeAfter(p: Policy, start: Gate, calls: seq<Call>, k: nat)
    requires k < |calls|
    ensures After(p, start, calls[..k + 1]) == Do(p, Before(p, start, calls, k), calls[k])
  {
    assert calls[..k + 1][..k] == calls[..k];
  }

  /** A kill, and an evaluation that finds the sentinel first, kill the gate and are stored. */
  lemma KillLands(p: Policy, start: Gate, calls: seq<Call>, k: nat)
    requires k < |calls|
    requires calls[k].Kill? || (calls[k].Evaluate? && calls[k].sentinel && !Before(p, start, calls, k).killed)
    ensures KilledAt(p, start, calls, k)
  {
    BeforeAfter(p, start, calls, k);
  }

  /** A restart that finds the sentinel is followed by a recovery, whose first act stores the kill. */
  lemma StartupStoresKill(p: Policy, start: Gate, calls: seq<Call>, k: nat)
    requires k + 1 < |calls| && calls[k] == Restore(true) && calls[k + 1] == RecoveryStarts
    ensures KilledAt(p, start, calls, k + 1)
  {
    BeforeAfter(p, start, calls, k);
    BeforeAfter(p, start, calls, k + 1);
  }

  lemma KillStays(p: Policy, g: Gate, c: Call)
    requires g.killed && g.durableKilled && !IsReset(c)
    ensures Do(p, g, c).killed && Do(p, g, c).durableKilled
  {
  }

  /** A stored kill holds, across restarts too, until a reset that the sentinel does not block. */
  lemma {:induction false} KillSurvives(p: Policy, start: Gate, calls: seq<Call>, k: nat)
    requires KilledAt(p, start, calls, k)
    requires forall r: nat :: k < r < |calls| ==> !IsReset(calls[r])
    ensures After(p, start, calls).killed && After(p, start, calls).durableKilled
    decreases |calls|
  {
    if k == |calls| - 1 {
      assert calls[..k + 1] == calls;
    } else {
      var front, c := calls[..|calls| - 1], calls[|calls| - 1];
      assert front[..k + 1] == calls[..k + 1];
      assert forall r: nat :: k < r < |front| ==> front[r] == calls[r];
      KillSurvives(p, start, front, k);
      KillStays(p, After(p, start, front), c);
    }
  }

  // ----- the mark of a completed recovery -----

  /** A run that passed every check marked the gate, and no reset or restart came after it. */
  ghost predicate MarkedAt(calls: seq<Call>, m: nat)
  {
    && m < |calls| && calls[m].RecoveryEnds? && calls[m].findings.Clear()
    && forall r: nat :: m < r < |calls| ==> !IsReset(calls[r]) && !calls[r].Restore?
  }

  lemma MarkStays(calls: seq<Call>, c: Call, m: nat)
    requires MarkedAt(calls, m) && !IsReset(c) && !c.Restore?
    ensures MarkedAt(calls + [c], m)
  {
    forall r: nat | m < r < |calls + [c]| ensures !IsReset((calls + [c])[r]) && !(calls + [c])[r].Restore? {
      if r < |calls| { assert (calls + [c])[r] == calls[r]; }
    }
  }

  /** Whether a gate counts as recovered is decided by the runs since the last reset or restart. */
  lemma {:induction false} RecoveredIff(p: Policy, start: Gate, calls: seq<Call>)
    requires Fresh(start)
    ensures After(p, start, calls).recovered <==> exists m: nat :: MarkedAt(calls, m)
    decreases |calls|
  {
    if calls != [] {
      var front, c := calls[..|calls| - 1], calls[|calls| - 1];
      RecoveredIff(p, start, front);
      assert calls == front + [c];
      if c.RecoveryEnds? && c.findings.Clear() {
        assert MarkedAt(calls, |calls| - 1);
      } else if !IsReset(c) && !c.Restore? {
        if m: nat :| MarkedAt(front, m) {
          MarkStays(front, c, m);
        }
        if m: nat :| MarkedAt(calls, m) {
          MarkedEarlier(front, c, m);
        }
      } else {
        assert forall m: nat :: m < |front| ==> !MarkedAt(calls, m);
      }
    }
  }

  lemma MarkedEarlier(calls: seq<Call>, c: Call, m: nat)
    requires MarkedAt(calls + [c], m) && !(c.RecoveryEnds? && c.findings.Clear())
    ensures MarkedAt(calls, m)
  {
    assert (calls + [c])[m] == if m < |calls| then calls[m] else c;
    forall r: nat | m < r < |calls| ensures !IsReset(calls[r]) && !calls[r].Restore? {
      assert (calls + [c])[r] == calls[r];
    }
  }

  // ----- from a kill back to an armed gate -----

  /**
   * The calls on the one path that leads from a kill back to an armed gate: a reset, a recovery run
   * that read no ESCALATE intent and no unresolved submission, and two approvals.
   */
  ghost predicate Rearming(p: Policy, start: Gate, calls: seq<Call>, k: nat, r: nat, m: nat, i: nat, j: nat)
  {
    && k < r < m < i < |calls| && IsReset(calls[r]) && Pair(p, start, calls, i, j)
    && calls[m].RecoveryEnds? && calls[m].findings.Clear()
    && !AnyEscalated(calls[m].findings.atEscalated) && !AnyUnresolved(calls[m].findings.atSubmissions)
  }

  /** A gate that is not killed is killed only by a call that interrupts. */
  lemma {:induction false} NotKilledSince(p: Policy, start: Gate, calls: seq<Call>, i: nat, n: nat)
    requires i <= n < |calls| && !Before(p, start, calls, i).killed && !Interrupts(Before(p, start, calls, i), calls[i])
    requires Uninterrupted(p, start, calls, i)
    ensures !After(p, start, calls[..n + 1]).killed
    decreases n
  {
    BeforeAfter(p, start, calls, n);
    if n > i {
      NotKilledSince(p, start, calls, i, n - 1);
      assert calls[..n - 1 + 1] == calls[..n];
    }
  }

  /** The kill came before the first of the two approvals, since nothing interrupted afterwards. */
  lemma KilledEarlier(p: Policy, start: Gate, calls: seq<Call>, k: nat, i: nat, actor: string)
    requires KilledAt(p, start, calls, k) && Approval(p, start, calls, i, actor)
    ensures k < i
  {
    if i <= k {
      NotKilledSince(p, start, calls, i, k);
    }
  }

  lemma ApprovedAfterKill(p: Policy, start: Gate, calls: seq<Call>, k: nat, i: nat, actor: string)
    requires KilledAt(p, start, calls, k) && Approval(p, start, calls, i, actor)
    ensures k < i && KilledAt(p, start, calls[..i], k)
    ensures !After(p, start, calls[..i]).killed && After(p, start, calls[..i]).recovered
  {
    KilledEarlier(p, start, calls, k, i, actor);
    assert calls[..i][..k + 1] == calls[..k + 1];
  }

  lemma ResetBetween(p: Policy, start: Gate, calls: seq<Call>, k: nat)
    requires KilledAt(p, start, calls, k) && !After(p, start, calls).killed
    ensures exists r: nat :: k < r < |calls| && IsReset(calls[r])
  {
    if forall r: nat :: k < r < |calls| ==> !IsReset(calls[r]) {
      KillSurvives(p, start, calls, k);
    }
  }

  /**
   * After a stored kill the gate is armed again only along one path: a reset, then the end of a recovery
   * run that found no ESCALATE intent and no unresolved submission, then two approvals by different
   * actors. The run may have begun, and read its tables, before the reset.
   */
  lemma RearmedAfterKill(p: Policy, start: Gate, calls: seq<Call>, k: nat, now: nat)
    requires p.dual && Fresh(start) && KilledAt(p, start, calls, k) && Armed(After(p, start, calls), now)
    ensures exists r: nat, m: nat, i: nat, j: nat :: Rearming(p, start, calls, k, r, m, i, j)
  {
    hide Uninterrupted, Interrupts, MayArm, Armed, Do, After, KilledAt, Approval;
    ArmedNeedsTwo(p, start, calls, now);
    var i: nat, j: nat :| Pair(p, start, calls, i, j);
    ApprovedAfterKill(p, start, calls, k, i, calls[i].actor);
    var before := calls[..i];
    ResetBetween(p, start, before, k);
    RecoveredIff(p, start, before);
    var m: nat :| MarkedAt(before, m);
    LastReset(before, k, m);
    var last: nat :| k < last < m && IsReset(before[last]);
    assert calls[last] == before[last] && calls[m] == before[m];
    assert Rearming(p, start, calls, k, last, m, i, j);
  }

  lemma LastReset(calls: seq<Call>, k: nat, m: nat)
    requires MarkedAt(calls, m) && exists r: nat :: k < r < |calls| && IsReset(calls[r])
    ensures exists r: nat :: k < r < m && IsReset(calls[r])
  {
    var r: nat :| k < r < |calls| && IsReset(calls[r]);
    assert r != m;
  }

  // ----- a recovery that fails -----

  ghost predicate OnlyApprovals(calls: seq<Call>)
  {
    forall k :: 0 <= k < |calls| ==> calls[k].TryArm?
  }

  lemma {:induction false} ApprovalsKeep(p: Policy, g: Gate, calls: seq<Call>)
    requires OnlyApprovals(calls)
    ensures After(p, g, calls).recovered == g.recovered && After(p, g, calls).killed == g.killed
    ensures p.phrase == "" || g.killed || !g.recovered ==> After(p, g, calls) == g
    decreases |calls|
  {
    if calls != [] {
      ApprovalsKeep(p, g, calls[..|calls| - 1]);
    }
  }

  /** These approvals alone arm the gate. */
  ghost predicate ArmedBy(p: Policy, g: Gate, calls: seq<Call>, now: nat)
  {
    OnlyApprovals(calls) && Armed(After(p, g, calls), now)
  }

  /** What is left after a recovery run that failed. */
  function Failed(p: Policy, g: Gate, f: Findings): Gate
  {
    Do(p, Do(p, g, RecoveryStarts), RecoveryEnds(f))
  }

  /** Two actors, or one where one is enough. */
  function Approvals(p: Policy): seq<Call>
  {
    if p.dual then [TryArm(p.phrase, "first", 1, 0), TryArm(p.phrase, "second", 0, 0)] else [TryArm(p.phrase, "first", 0, 0)]
  }

  lemma ApprovalsArm(p: Policy, g: Gate)
    requires p.phrase != "" && g.recovered && !g.killed && !g.active && g.pending == None
    ensures Armed(After(p, g, Approvals(p)), 0) && OnlyApprovals(Approvals(p))
  {
    var calls := Approvals(p);
    assert calls[..|calls| - 1][..0] == [];
    if p.dual {
      assert calls[..1] == [TryArm(p.phrase, "first", 1, 0)];
      assert After(p, g, calls[..1]) == Do(p, g, calls[0]);
    } else {
      assert calls[..0] == [];
    }
  }

  /**
   * A run that fails does not withdraw an earlier completion. After it the gate can be armed by
   * approvals alone, single or dual, if and only if it had recovered before and is not killed.
   */
  lemma FailedRunArmableIff(p: Policy, start: Gate, calls: seq<Call>, f: Findings)
    requires !f.Clear()
    ensures var g := After(p, start, calls);
      (exists more, now :: ArmedBy(p, Failed(p, g, f), more, now))
      <==> p.phrase != "" && g.recovered && !g.killed
  {
    var g := After(p, start, calls);
    FailedArmableIff(p, g, f);
  }

  lemma FailedArmableIff(p: Policy, g: Gate, f: Findings)
    requires !f.Clear()
    ensures (exists more, now :: ArmedBy(p, Failed(p, g, f), more, now))
       <==> p.phrase != "" && g.recovered && !g.killed
  {
    var h := Failed(p, g, f);
    assert h == Disarmed(g);
    if p.phrase != "" && g.recovered && !g.killed {
      ApprovalsArm(p, h);
      assert ArmedBy(p, h, Approvals(p), 0);
    } else {
      forall more, now: nat | OnlyApprovals(more) ensures !ArmedBy(p, h, more, now) {
        ApprovalsKeep(p, h, more);
      }
    }
  }

  // ----- a kill that a restart finds -----

  /** The call stores the gate's state (risk.py:83-86, 114-141, 143-167, 170-172, 186). */
  predicate Writes(p: Policy, g: Gate, c: Call)
  {
    match c
    case TryArm(phrase, actor, now, later) => !Arm(p, g, phrase, actor, now, later).Refused?
    case Disarm => true
    case Kill => true
    case ResetKill(sentinel) => !sentinel
    case Restore(_) => false
    case RecoveryStarts => true
    case RecoveryEnds(findings) => findings.Clear()
    case Evaluate(now, sentinel, limit, enforce) => EvaluateWrites(g, now, sentinel, limit, enforce)
  }

  predicate EvaluateWrites(g: Gate, now: nat, sentinel: bool, limit: bool, enforce: bool)
  {
    var expired := g.active && g.armedUntil > 0 && now >= g.armedUntil;
    var a := if expired then Disarmed(g) else g;
    var b := if sentinel && !a.killed then Killed(a) else a;
    expired || (sentinel && !a.killed) || (limit && enforce && Armed(b, now))
  }

  /** What a write leaves in the store is the gate's own flag; nothing else touches the store. */
  lemma WritesStore(p: Policy, g: Gate, c: Call)
    ensures Do(p, g, c).durableKilled == if Writes(p, g, c) then Do(p, g, c).killed else g.durableKilled
  {
  }

  /** Some call of the history stores the gate's state. */
  ghost predicate Stored(p: Policy, start: Gate, calls: seq<Call>)
  {
    exists k :: 0 <= k < |calls| && Writes(p, Before(p, start, calls, k), calls[k])
  }

  ghost predicate NoRestoreOrReset(calls: seq<Call>)
  {
    forall k :: 0 <= k < |calls| ==> !calls[k].Restore? && !IsReset(calls[k])
  }

  /** From a killed gate whose kill is not stored: killed throughout, and stored by the first write. */
  lemma {:induction false} KillIsStoredIff(p: Policy, start: Gate, calls: seq<Call>)
    requires start.killed && !start.durableKilled && NoRestoreOrReset(calls)
    ensures After(p, start, calls).killed && (After(p, start, calls).durableKilled <==> Stored(p, start, calls))
    decreases |calls|
  {
    if calls != [] {
      var front, c := calls[..|calls| - 1], calls[|calls| - 1];
      KillIsStoredIff(p, start, front);
      assert calls == front + [c];
      WritesStore(p, After(p, start, front), c);
      StoredAppend(p, start, front, c);
    }
  }

  lemma StoredAppend(p: Policy, start: Gate, calls: seq<Call>, c: Call)
    ensures Stored(p, start, calls + [c]) <==> Stored(p, start, calls) || Writes(p, After(p, start, calls), c)
  {
    var more := calls + [c];
    assert more[..|calls|] == calls && more[|calls|] == c;
    forall k | 0 <= k < |calls| ensures Before(p, start, more, k) == Before(p, start, calls, k) && more[k] == calls[k] {
      assert more[..k] == calls[..k];
    }
  }

  /**
   * A kill that a restart finds only by its sentinel holds after the next restart without the sentinel
   * if and only if some call in between, with no reset among them, stores the gate's state.
   */
  lemma SentinelKillIff(p: Policy, g: Gate, between: seq<Call>)
    requires !g.durableKilled && NoRestoreOrReset(between)
    ensures var found := Restored(g, true);
      Do(p, After(p, found, between), Restore(false)).killed <==> Stored(p, found, between)
  {
    KillIsStoredIff(p, Restored(g, true), between);
  }
}
