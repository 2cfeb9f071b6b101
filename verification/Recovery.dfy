/** The checks between a start and a gate that may be armed (backend/engine/recovery.py:25-84). */
module Recovery {
  import opened Domain
  import opened Sums
  import S = Store
  import opened RiskGate
  import Ledger
  import HedgeProtocol
  import HedgeInvariant
  import HedgeRetries
  import HedgeSafety

  predicate AnyEscalated(t: S.Tables)
  {
    exists i :: 0 <= i < |t.intents| && t.intents[i].status == Escalate
  }

  predicate AnyUnresolved(t: S.Tables)
  {
    exists k :: 0 <= k < |t.submissions| && t.submissions[k].Unresolved()
  }

  predicate AnyPending(t: S.Tables)
  {
    exists i :: 0 <= i < |t.intents| && IsPending(t.intents[i].status)
  }

  predicate AnyOpen(t: S.Tables)
  {
    exists c :: c in t.orders && Listed(t.orders[c].state)
  }

  /** An order the exchange lists that is one of the open orders in the tables. */
  predicate Managed(t: S.Tables, id: string)
  {
    exists c :: c in t.orders && Listed(t.orders[c].state) && t.orders[c].exchangeId == Some(id)
  }

  const POLLS := 300

  /** The first look that finds nothing pending, or the last look before the wait is given up. */
  function FirstIdle(looks: nat -> S.Tables, k: nat): (n: nat)
    requires k <= POLLS
    ensures k <= n <= POLLS && (n < POLLS ==> !AnyPending(looks(n))) && forall j :: k <= j < n ==> AnyPending(looks(j))
    decreases POLLS - k
  {
    if k == POLLS || !AnyPending(looks(k)) then k else FirstIdle(looks, k + 1)
  }

  /** After the wait the hedges are looked at once more. */
  function LastLook(looks: nat -> S.Tables): S.Tables
  {
    var n := FirstIdle(looks, 0);
    looks(if n == POLLS then POLLS else n + 1)
  }

  /**
   * What one run reads. `remote` is the exchange's listing, None when it could not be read and empty
   * when there is no live exchange. `cancelExisting` says that cancel-all is allowed and went through,
   * `reconciles` whether a fill source is configured, `reconciled` whether it went through. The tables
   * are read at the start, at each look at the pending hedges, and for the last two checks; the
   * program awaits between all of these.
   */
  datatype Findings = Findings(
    atStart: S.Tables, remote: Option<seq<string>>, cancelExisting: bool, reconciles: bool, reconciled: bool,
    looks: nat -> S.Tables, atEscalated: S.Tables, atSubmissions: S.Tables)
  {
    predicate Unmanaged()
    {
      remote.Some? && exists k :: 0 <= k < |remote.value| && !Managed(atStart, remote.value[k])
    }

    predicate Clear()
    {
      && remote.Some? && !Unmanaged() && (AnyOpen(atStart) ==> cancelExisting)
      && (reconciles ==> reconciled && !AnyPending(LastLook(looks)))
      && !AnyEscalated(atEscalated) && !AnyUnresolved(atSubmissions)
    }
  }

  class RecoveryCoordinator {
    const risk: RiskGate

    constructor (risk: RiskGate)
      ensures this.risk == risk
    {
      this.risk := risk;
    }

    /** The gate is marked exactly when every check passes; a run that stops early has only disarmed it. */
    method Run(f: Findings) returns (complete: bool)
      modifies risk
      ensures complete <==> f.Clear()
      ensures risk.Value() == if complete then Recovered(Disarmed(old(risk.Value()))) else Disarmed(old(risk.Value()))
    {
      risk.Disarm();
      if f.remote == None {
        return false;
      }
      var managed := AllManaged(f.remote.value, f.atStart);
      if !managed {
        return false;
      }
      if AnyOpen(f.atStart) && !f.cancelExisting {
        return false;
      }
      if f.reconciles {
        if !f.reconciled {
          return false;
        }
        var idle := Wait(f.looks);
        if !idle {
          return false;
        }
      }
      if AnyEscalated(f.atEscalated) {
        return false;
      }
      if AnyUnresolved(f.atSubmissions) {
        return false;
      }
      risk.MarkRecoveryComplete();
      complete := true;
    }
  }

  method AllManaged(remote: seq<string>, t: S.Tables) returns (managed: bool)
    ensures managed <==> forall k :: 0 <= k < |remote| ==> Managed(t, remote[k])
  {
    for k := 0 to |remote|
      invariant forall j :: 0 <= j < k ==> Managed(t, remote[j])
    {
      if !Managed(t, remote[k]) {
        return false;
      }
    }
    managed := true;
  }

  /** recovery.py:68-74. */
  method Wait(looks: nat -> S.Tables) returns (idle: bool)
    ensures idle == !AnyPending(LastLook(looks))
  {
    var n := 0;
    while n < POLLS && AnyPending(looks(n))
      invariant n <= POLLS && FirstIdle(looks, 0) == FirstIdle(looks, n)
      decreases POLLS - n
    {
      n := n + 1;
    }
    idle := !AnyPending(looks(if n == POLLS then POLLS else n + 1));
  }

  // ----- what completion means for the position -----

  lemma {:induction false} TotalZero<T>(f: T -> real, rows: seq<T>)
    requires forall k :: 0 <= k < |rows| ==> f(rows[k]) == 0.0
    ensures Total(f, rows) == 0.0
  {
    if rows != [] {
      TotalZero(f, rows[1..]);
    }
  }

  /** Client position and credited hedges of one symbol. */
  function Exposure(t: S.Tables, symbol: string): real
  {
    Total(HedgeSafety.SignedFillAt(symbol), t.fills)
    + (Total(Ledger.ResolvedFilledAt(Key(symbol, Buy)), t.submissions)
       - Total(Ledger.ResolvedFilledAt(Key(symbol, Sell)), t.submissions))
  }

  predicate AllHedged(intents: seq<S.Intent>)
  {
    forall i :: 0 <= i < |intents| ==> intents[i].status == Hedged
  }

  /** Nothing pending then and nothing escalated later: everything was hedged then, and still is. */
  lemma HedgedThen(s: HedgeProtocol.State, between: seq<HedgeProtocol.Event>)
    requires HedgeInvariant.Inv(s) && HedgeRetries.StatusOk(s) && HedgeProtocol.Feasible(s, between)
    requires !AnyPending(s.store) && !AnyEscalated(HedgeProtocol.After(s, between).store)
    ensures var t := HedgeProtocol.After(s, between).store;
      AllHedged(s.store.intents) && |s.store.intents| <= |t.intents| && AllHedged(t.intents[..|s.store.intents|])
  {
    var t := HedgeProtocol.After(s, between).store;
    hide HedgeInvariant.Inv, HedgeRetries.StatusOk;
    forall i | 0 <= i < |s.store.intents|
      ensures s.store.intents[i].status == Hedged && i < |t.intents| && t.intents[i].status == Hedged
    {
      HedgeRetries.EndedStays(s, between, i);
    }
    if s.store.intents != [] {
      assert s.store.intents[|s.store.intents| - 1].status == Hedged;
    }
  }

  lemma ExposureIs(limit: nat, events: seq<HedgeProtocol.Event>, symbol: string)
    requires HedgeProtocol.Feasible(HedgeProtocol.Init(limit), events)
    ensures var t := HedgeProtocol.After(HedgeProtocol.Init(limit), events).store;
      Exposure(t, symbol) == -(Total(S.PendingAt(symbol), t.intents) + Total(HedgeSafety.EscalatedAt(symbol), t.intents))
  {
    HedgeSafety.DeltaIdentity(limit, events, symbol);
  }

  lemma NothingPending(intents: seq<S.Intent>, symbol: string)
    requires AllHedged(intents)
    ensures Total(S.PendingAt(symbol), intents) == 0.0 && Total(HedgeSafety.EscalatedAt(symbol), intents) == 0.0
  {
    TotalZero(S.PendingAt(symbol), intents);
    TotalZero(HedgeSafety.EscalatedAt(symbol), intents);
  }

  lemma OnlyNewPending(intents: seq<S.Intent>, n: nat, symbol: string)
    requires n <= |intents| && AllHedged(intents[..n])
    requires forall i :: 0 <= i < |intents| ==> intents[i].status != Escalate
    ensures Total(S.PendingAt(symbol), intents) == Total(S.PendingAt(symbol), intents[n..])
    ensures Total(HedgeSafety.EscalatedAt(symbol), intents) == 0.0
  {
    TotalZero(HedgeSafety.EscalatedAt(symbol), intents);
    NothingPending(intents[..n], symbol);
    assert intents == intents[..n] + intents[n..];
    TotalConcat(S.PendingAt(symbol), intents[..n], intents[n..]);
  }

  /**
   * A run that waited for the hedges and passes every check: at its last look nothing was left to hedge,
   * so that for every symbol the client fills and the credited hedge fills added up to zero. Whatever
   * happened between that look and the check for escalated intents, the exposure left at that check is
   * what fills committed in between still ask for.
   */
  lemma CompletionIsFlat(
      f: Findings, limit: nat, past: seq<HedgeProtocol.Event>, between: seq<HedgeProtocol.Event>, symbol: string)
    requires f.Clear() && f.reconciles
    requires HedgeProtocol.Feasible(HedgeProtocol.Init(limit), past)
    requires var s := HedgeProtocol.After(HedgeProtocol.Init(limit), past);
      && LastLook(f.looks) == s.store && HedgeProtocol.Feasible(s, between)
      && f.atEscalated == HedgeProtocol.After(s, between).store
    ensures var looked, checked := LastLook(f.looks), f.atEscalated;
      && AllHedged(looked.intents) && Exposure(looked, symbol) == 0.0
      && |looked.intents| <= |checked.intents| && AllHedged(checked.intents[..|looked.intents|])
      && Exposure(checked, symbol) == -Total(S.PendingAt(symbol), checked.intents[|looked.intents|..])
  {
    var init := HedgeProtocol.Init(limit);
    var s := HedgeProtocol.After(init, past);
    var looked, checked := s.store, f.atEscalated;
    assert !AnyPending(looked) && !AnyEscalated(checked);
    HedgeInvariant.InitInv(limit);
    HedgeRetries.RunStatusOk(init, past);
    HedgedThen(s, between);
    HedgeRetries.Joined(init, past, between);
    hide HedgeProtocol.Feasible, HedgeProtocol.After, HedgeInvariant.Inv, HedgeRetries.StatusOk, Total, Exposure;
    hide S.PendingAt, HedgeSafety.EscalatedAt;
    ExposureIs(limit, past, symbol);
    ExposureIs(limit, past + between, symbol);
    NothingPending(looked.intents, symbol);
    OnlyNewPending(checked.intents, |looked.intents|, symbol);
  }
}
