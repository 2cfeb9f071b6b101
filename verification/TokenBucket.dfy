/** One endpoint group's token bucket (backend/engine/rate_limit.py:28-45). */
module TokenBucket {
  import opened Domain

  datatype Bucket = Bucket(rate: real, capacity: real, tokens: real, updatedAt: real)

  function Full(rate: real, capacity: real, now: real): Bucket
  {
    Bucket(rate, capacity, capacity, now)
  }

  function Earned(rate: real, elapsed: real): real { elapsed * rate }

  function Refilled(b: Bucket, now: real): Bucket
  {
    b.(tokens := Min(b.capacity, b.tokens + Earned(b.rate, now - b.updatedAt)), updatedAt := now)
  }

  function Granted(b: Bucket, now: real): bool { Refilled(b, now).tokens >= 1.0 }

  function Taken(b: Bucket, now: real): Bucket
  {
    var r := Refilled(b, now);
    if r.tokens >= 1.0 then r.(tokens := r.tokens - 1.0) else r
  }

  class TokenBucket {
    var rate: real
    var capacity: real
    var tokens: real
    var updatedAt: real

    ghost function Value(): Bucket
      reads this
    {
      Bucket(rate, capacity, tokens, updatedAt)
    }

    constructor (rate: real, capacity: real, now: real)
      ensures Value() == Full(rate, capacity, now)
    {
      this.rate, this.capacity, tokens, updatedAt := rate, capacity, capacity, now;
    }

    method Take(now: real) returns (granted: bool)
      modifies `tokens, `updatedAt
      ensures granted == Granted(old(Value()), now) && Value() == Taken(old(Value()), now)
    {
      tokens := Min(capacity, tokens + Earned(rate, now - updatedAt));
      updatedAt := now;
      if tokens >= 1.0 {
        tokens := tokens - 1.0;
        return true;
      }
      granted := false;
    }
  }

  // ----- grants in a window -----

  /** The times of the grants among a sequence of attempts. */
  function Grants(b: Bucket, times: seq<real>): seq<real>
  {
    if times == [] then []
    else
      Grants(b, times[..|times| - 1]) +
      if Granted(After(b, times[..|times| - 1]), times[|times| - 1]) then [times[|times| - 1]] else []
  }

  function After(b: Bucket, times: seq<real>): Bucket
  {
    if times == [] then b else Taken(After(b, times[..|times| - 1]), times[|times| - 1])
  }

  function CountIn(times: seq<real>, a: real, z: real): nat
  {
    if times == [] then 0
    else CountIn(times[..|times| - 1], a, z) + if a <= times[|times| - 1] <= z then 1 else 0
  }

  predicate Clocked(b: Bucket, times: seq<real>)
  {
    && (forall k :: 0 <= k < |times| ==> b.updatedAt <= times[k])
    && (forall j, k :: 0 <= j < k < |times| ==> times[j] <= times[k])
  }

  predicate BucketOk(b: Bucket)
  {
    b.rate >= 0.0 && b.capacity >= 0.0 && 0.0 <= b.tokens <= b.capacity
  }

  lemma EarnedSum(rate: real, x: real, y: real)
    ensures Earned(rate, x) + Earned(rate, y) == Earned(rate, x + y)
  {
  }

  lemma EarnedMono(rate: real, x: real, y: real)
    requires rate >= 0.0 && x <= y
    ensures Earned(rate, x) <= Earned(rate, y)
  {
  }

  lemma TakeLaw(b: Bucket, now: real)
    requires BucketOk(b) && b.updatedAt <= now
    ensures BucketOk(Taken(b, now)) && Taken(b, now).updatedAt == now
    ensures Taken(b, now).rate == b.rate && Taken(b, now).capacity == b.capacity
    ensures var spent := if Granted(b, now) then 1.0 else 0.0;
            Taken(b, now).tokens + spent <= b.capacity
            && Taken(b, now).tokens + spent <= b.tokens + Earned(b.rate, now - b.updatedAt)
  {
    EarnedMono(b.rate, 0.0, now - b.updatedAt);
  }

  lemma {:induction false} AfterOk(b: Bucket, times: seq<real>)
    requires BucketOk(b) && Clocked(b, times)
    ensures var e := After(b, times);
            && BucketOk(e) && e.rate == b.rate && e.capacity == b.capacity
            && e.updatedAt == (if times == [] then b.updatedAt else times[|times| - 1])
  {
    if times != [] {
      var front := times[..|times| - 1];
      assert forall k :: 0 <= k < |front| ==> front[k] == times[k];
      AfterOk(b, front);
      TakeLaw(After(b, front), times[|times| - 1]);
    }
  }

  /** Grants since `a`, and the tokens still there, are paid for by one capacity and the time since `a`. */
  lemma {:induction false} Potential(b: Bucket, times: seq<real>, a: real, z: real)
    requires BucketOk(b) && Clocked(b, times)
    requires forall k :: 0 <= k < |times| ==> times[k] <= z
    requires times != [] ==> a <= times[|times| - 1]
    ensures times != [] ==>
              CountIn(Grants(b, times), a, z) as real + After(b, times).tokens
              <= b.capacity + Earned(b.rate, times[|times| - 1] - a)
    decreases |times|
  {
    if times != [] {
      var front, now := times[..|times| - 1], times[|times| - 1];
      assert forall k :: 0 <= k < |front| ==> front[k] == times[k];
      AfterOk(b, front);
      var e := After(b, front);
      TakeLaw(e, now);
      GrantsCount(b, times, a, z);
      if front == [] || front[|front| - 1] < a {
        NoneBefore(b, front, a, z);
        EarnedMono(b.rate, 0.0, now - a);
      } else {
        Potential(b, front, a, z);
        EarnedSum(b.rate, e.updatedAt - a, now - e.updatedAt);
      }
    }
  }

  lemma GrantsCount(b: Bucket, times: seq<real>, a: real, z: real)
    requires times != [] && a <= times[|times| - 1] <= z
    ensures CountIn(Grants(b, times), a, z) == CountIn(Grants(b, times[..|times| - 1]), a, z)
              + if Granted(After(b, times[..|times| - 1]), times[|times| - 1]) then 1 else 0
  {
    var g := Grants(b, times);
    var front := Grants(b, times[..|times| - 1]);
    if Granted(After(b, times[..|times| - 1]), times[|times| - 1]) {
      assert g[..|g| - 1] == front;
    } else {
      assert g == front;
    }
  }

  lemma {:induction false} NoneBefore(b: Bucket, times: seq<real>, a: real, z: real)
    requires forall k :: 0 <= k < |times| ==> times[k] < a
    ensures CountIn(Grants(b, times), a, z) == 0
  {
    if times != [] {
      var front := times[..|times| - 1];
      assert forall k :: 0 <= k < |front| ==> front[k] == times[k];
      NoneBefore(b, front, a, z);
      var g := Grants(b, times);
      if Granted(After(b, front), times[|times| - 1]) {
        assert g[..|g| - 1] == Grants(b, front);
      } else {
        assert g == Grants(b, front);
      }
    }
  }

  /**
   * On a clock that does not run backwards, the takes granted in any window from `a` to `z` are at
   * most the capacity plus the rate times the length of the window.
   */
  lemma {:induction false} WindowBound(b: Bucket, times: seq<real>, a: real, z: real)
    requires BucketOk(b) && Clocked(b, times) && a <= z
    ensures CountIn(Grants(b, times), a, z) as real <= b.capacity + Earned(b.rate, z - a)
    decreases |times|
  {
    if times == [] {
      EarnedMono(b.rate, 0.0, z - a);
    } else {
      var front, last := times[..|times| - 1], times[|times| - 1];
      assert forall k :: 0 <= k < |front| ==> front[k] == times[k];
      if a <= last <= z {
        Potential(b, times, a, z);
        AfterOk(b, times);
        EarnedMono(b.rate, last - a, z - a);
      } else {
        WindowBound(b, front, a, z);
        OutsideCount(b, times, a, z);
      }
    }
  }

  lemma OutsideCount(b: Bucket, times: seq<real>, a: real, z: real)
    requires times != [] && !(a <= times[|times| - 1] <= z)
    ensures CountIn(Grants(b, times), a, z) == CountIn(Grants(b, times[..|times| - 1]), a, z)
  {
    var g := Grants(b, times);
    var front := Grants(b, times[..|times| - 1]);
    if Granted(After(b, times[..|times| - 1]), times[|times| - 1]) {
      assert g[..|g| - 1] == front;
    } else {
      assert g == front;
    }
  }
}
