/**
 * The gate that arms live trading (backend/engine/risk.py:67-194). Times are whole seconds after
 * the epoch; a lease of 0 never runs out.
 */
module RiskGate {
  import opened Domain

  datatype Policy = Policy(phrase: string, dual: bool, approvalTtl: nat, armTtl: nat)

  /** The gate's fields, and the kill flag its last write left in the store. */
  datatype Gate = Gate(
    pending: Option<string>, pendingUntil: nat, armedUntil: nat, active: bool,
    recovered: bool, killed: bool, durableKilled: bool)

  function Armed(g: Gate, now: nat): bool
  {
    !g.killed && g.recovered && g.active && (g.armedUntil == 0 || now < g.armedUntil)
  }

  function Disarmed(g: Gate): Gate
  {
    g.(pending := None, pendingUntil := 0, armedUntil := 0, active := false, durableKilled := g.killed)
  }

  function Killed(g: Gate): Gate
  {
    Disarmed(g.(killed := true))
  }

  function Reset(g: Gate): Gate
  {
    Disarmed(g.(killed := false)).(recovered := false)
  }

  /** A restart reads the kill flag back and looks for the sentinel; nothing is written yet. */
  function Restored(g: Gate, sentinel: bool): Gate
  {
    Gate(None, 0, 0, false, false, g.durableKilled || sentinel, g.durableKilled)
  }

  function Recovered(g: Gate): Gate
  {
    g.(recovered := true, durableKilled := g.killed)
  }

  // ----- arming -----

  predicate MayArm(p: Policy, g: Gate, phrase: string)
  {
    p.phrase != "" && phrase == p.phrase && !g.killed && g.recovered
  }

  /** An approval that has run out is forgotten. */
  function Current(g: Gate, now: nat): Gate
  {
    if g.pendingUntil <= now then g.(pending := None, pendingUntil := 0) else g
  }

  function Leased(p: Policy, g: Gate, later: nat): Gate
  {
    g.(pending := None, pendingUntil := 0, armedUntil := if p.armTtl == 0 then 0 else later + p.armTtl,
       active := true, durableKilled := g.killed)
  }

  datatype Arming = Refused(gate: Gate) | Recorded(gate: Gate) | Complete(gate: Gate)

  /** `now` is read for the approvals, `later` for the lease. */
  function Arm(p: Policy, g: Gate, phrase: string, actor: string, now: nat, later: nat): Arming
  {
    if !MayArm(p, g, phrase) then Refused(g)
    else if !p.dual then Complete(Leased(p, g, later).(pending := g.pending, pendingUntil := g.pendingUntil))
    else
      var c := Current(g, now);
      if c.pending == None then
        Recorded(c.(pending := Some(actor), pendingUntil := now + p.approvalTtl, durableKilled := c.killed))
      else if c.pending == Some(actor) then Refused(c)
      else Complete(Leased(p, c, later))
  }

  /** What an evaluation does to the gate before it answers. */
  function Evaluated(g: Gate, now: nat, sentinel: bool, limit: bool, enforce: bool): Gate
  {
    var a := if g.active && g.armedUntil > 0 && now >= g.armedUntil then Disarmed(g) else g;
    var b := if sentinel && !a.killed then Killed(a) else a;
    if limit && enforce && Armed(b, now) then Disarmed(b) else b
  }

  class RiskGate {
    const policy: Policy
    var pendingArmActor: Option<string>
    var pendingArmUntil: nat
    var armedUntil: nat
    var armActive: bool
    var recoveryComplete: bool
    var killed: bool
    /** The stored state this process reads back at a restart. */
    var storedKilled: bool

    ghost function Value(): Gate
      reads this
    {
      Gate(pendingArmActor, pendingArmUntil, armedUntil, armActive, recoveryComplete, killed, storedKilled)
    }

    constructor (policy: Policy, storedKilled: bool)
      ensures this.policy == policy && Value() == Gate(None, 0, 0, false, false, false, storedKilled)
    {
      this.policy := policy;
      pendingArmActor, pendingArmUntil, armedUntil, armActive, recoveryComplete, killed := None, 0, 0, false, false, false;
      this.storedKilled := storedKilled;
    }

    method IsArmed(now: nat) returns (armed: bool)
      ensures armed == Armed(Value(), now)
    {
      if killed || !recoveryComplete || !armActive {
        return false;
      }
      armed := armedUntil == 0 || now < armedUntil;
    }

    method Persist()
      modifies `storedKilled
      ensures storedKilled == killed
    {
      storedKilled := killed;
    }

    method Restore(sentinel: bool)
      modifies this
      ensures Value() == Restored(old(Value()), sentinel)
    {
      armedUntil := 0;
      armActive := false;
      killed := storedKilled || sentinel;
      recoveryComplete := false;
      pendingArmActor := None;
      pendingArmUntil := 0;
    }

    method MarkRecoveryComplete()
      modifies this
      ensures Value() == Recovered(old(Value()))
    {
      recoveryComplete := true;
      Persist();
    }

    method TryArm(phrase: string, actor: string, now: nat, later: nat) returns (r: Result<bool>)
      modifies this
      ensures var a := Arm(policy, old(Value()), phrase, actor, now, later);
              && Value() == a.gate
              && r == (match a case Refused(_) => Err(ValueError) case Recorded(_) => Ok(false) case Complete(_) => Ok(true))
    {
      if policy.phrase == "" || phrase != policy.phrase || killed || !recoveryComplete {
        return Err(ValueError);
      }
      if policy.dual {
        if pendingArmUntil <= now {
          pendingArmActor := None;
          pendingArmUntil := 0;
        }
        if pendingArmActor == None {
          pendingArmActor := Some(actor);
          pendingArmUntil := now + policy.approvalTtl;
          Persist();
          return Ok(false);
        }
        if pendingArmActor == Some(actor) {
          return Err(ValueError);
        }
        pendingArmActor := None;
        pendingArmUntil := 0;
      }
      armedUntil := if policy.armTtl == 0 then 0 else later + policy.armTtl;
      armActive := true;
      Persist();
      r := Ok(true);
    }

    method Disarm()
      modifies this
      ensures Value() == Disarmed(old(Value()))
    {
      armedUntil := 0;
      armActive := false;
      pendingArmActor := None;
      pendingArmUntil := 0;
      Persist();
    }

    method Kill()
      modifies this
      ensures Value() == Killed(old(Value()))
    {
      killed := true;
      Disarm();
    }

    /** Refused while the external sentinel is there. */
    method ResetKill(sentinel: bool) returns (ok: bool)
      modifies this
      ensures ok == !sentinel
      ensures Value() == if sentinel then old(Value()) else Reset(old(Value()))
    {
      if sentinel {
        return false;
      }
      killed := false;
      recoveryComplete := false;
      Disarm();
      ok := true;
    }

    /** `limit` says that one of the snapshot's limits is exceeded. */
    method Evaluate(now: nat, sentinel: bool, limit: bool, enforce: bool) returns (allowed: bool)
      modifies this
      ensures Value() == Evaluated(old(Value()), now, sentinel, limit, enforce)
      ensures allowed == (!limit && Armed(Value(), now))
    {
      if armActive && armedUntil > 0 && now >= armedUntil {
        Disarm();
      }
      if sentinel && !killed {
        Kill();
      }
      var armed := IsArmed(now);
      if limit {
        if enforce && armed {
          Disarm();
        }
        return false;
      }
      allowed := armed;
    }
  }
}
