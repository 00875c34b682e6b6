/** `RequestLimiter` and `LimitLease` in their own imperative form: the pruning, checking and
    committing loops, proved against module Limits. The limiter's lock is never held across an
    await, so each method is one atomic stretch. */
module LimiterService {
  import opened Common
  import S = Limits

  /** One turn of the committing loop. */
  lemma CommitOne(b: S.Buckets, specs: seq<S.Spec>, i: nat, now: real, acquired: seq<string>)
    requires i < |specs|
    ensures var s := specs[i];
      && S.Commit(b, specs[i..], now) ==
         S.Commit(b[s.key := S.Admit(S.At(b, s.key), s.limit, now)], specs[i + 1..], now)
      && acquired + S.LeasedKeys(specs[i..]) ==
         (if s.limit.maxConcurrent.Some? then acquired + [s.key] else acquired) + S.LeasedKeys(specs[i + 1..])
  {
    assert specs[i..][0] == specs[i] && specs[i..][1..] == specs[i + 1..];
  }

  class RequestLimiter {
    var buckets: S.Buckets
    ghost var history: S.History
    ghost var clock: real
    ghost var leases: seq<S.Lease>

    ghost function Value(): S.Limiter
      reads this
    {
      S.Limiter(buckets, history, clock, leases)
    }

    constructor ()
      ensures Value() == S.NewLimiter && S.Safe(Value())
    {
      buckets, history, clock, leases := map[], map[], 0.0, [];
    }

    /** The request's limits, then those among them that limit anything. */
    method ListSpecs(e: S.Endpoint, tool: Option<string>) returns (active: seq<S.Spec>)
      ensures active == S.ActiveSpecs(e, tool)
      ensures forall s :: s in active <==>
        || (s == S.Spec("endpoint:" + e.path, e.limits) && (s.limit.maxConcurrent.Some? || s.limit.perMinute.Some?))
        || (tool.Some? && tool.value in e.toolLimits
            && s == S.Spec("tool:" + e.path + ":" + tool.value, e.toolLimits[tool.value])
            && (s.limit.maxConcurrent.Some? || s.limit.perMinute.Some?))
    {
      S.SpecsMean(e, tool);
      var specs := [S.Spec(S.EndpointKey(e.path), e.limits)];
      if tool.Some? && tool.value in e.toolLimits {
        specs := specs + [S.Spec(S.ToolKey(e.path, tool.value), e.toolLimits[tool.value])];
      }
      active := [];
      for i := 0 to |specs|
        invariant active == (if i >= 1 && S.IsLimited(specs[0].limit) then [specs[0]] else [])
                            + (if i >= 2 && S.IsLimited(specs[1].limit) then [specs[1]] else [])
      {
        if S.IsLimited(specs[i].limit) {
          active := active + [specs[i]];
        }
      }
    }

    /** setdefault, and the popleft loop. */
    method PruneBucket(key: string, now: real)
      modifies `buckets
      ensures buckets == S.PruneAt(old(buckets), key, now)
    {
      var bucket := S.At(buckets, key);
      var timestamps := bucket.timestamps;
      while timestamps != [] && timestamps[0] <= now - S.WINDOW
        invariant S.Prune(timestamps, now - S.WINDOW) == S.Prune(bucket.timestamps, now - S.WINDOW)
        decreases |timestamps|
      {
        timestamps := timestamps[1..];
      }
      buckets := buckets[key := bucket.(timestamps := timestamps)];
    }

    method CheckSpecs(specs: seq<S.Spec>, now: real) returns (refusal: Option<S.Rejection>)
      modifies `buckets
      ensures (buckets, refusal) == S.Check(old(buckets), specs, now)
    {
      for i := 0 to |specs|
        invariant S.Check(buckets, specs[i..], now) == S.Check(old(buckets), specs, now)
      {
        var key, limit := specs[i].key, specs[i].limit;
        PruneBucket(key, now);
        assert specs[i..][0] == specs[i] && specs[i..][1..] == specs[i + 1..];
        if limit.maxConcurrent.Some? && buckets[key].active >= limit.maxConcurrent.value {
          return Some(S.Rejection(key, S.ConcurrencyExceeded));
        }
        if limit.perMinute.Some? && |buckets[key].timestamps| >= limit.perMinute.value {
          return Some(S.Rejection(key, S.RateExceeded));
        }
      }
      refusal := None;
    }

    method CommitSpecs(specs: seq<S.Spec>, now: real) returns (acquired: seq<string>)
      modifies `buckets
      ensures buckets == S.Commit(old(buckets), specs, now) && acquired == S.LeasedKeys(specs)
    {
      acquired := [];
      for i := 0 to |specs|
        invariant S.Commit(buckets, specs[i..], now) == S.Commit(old(buckets), specs, now)
        invariant acquired + S.LeasedKeys(specs[i..]) == S.LeasedKeys(specs)
      {
        CommitOne(buckets, specs, i, now, acquired);
        CommitSpec(specs[i].key, specs[i].limit, now);
        if specs[i].limit.maxConcurrent.Some? {
          acquired := acquired + [specs[i].key];
        }
      }
    }

    method CommitSpec(key: string, limit: S.Limit, now: real)
      modifies `buckets
      ensures buckets == old(buckets)[key := S.Admit(S.At(old(buckets), key), limit, now)]
    {
      var bucket := S.At(buckets, key);
      if limit.maxConcurrent.Some? {
        bucket := bucket.(active := bucket.active + 1);
      }
      if limit.perMinute.Some? {
        bucket := bucket.(timestamps := bucket.timestamps + [now]);
      }
      buckets := buckets[key := bucket];
    }

    /** A lease is granted exactly when a limiter that keeps the whole history and counts afresh has no
        objection, and refused with that limiter's key and reason. */
    method Acquire(e: S.Endpoint, tool: Option<string>, now: real) returns (outcome: S.Outcome, lease: LimitLease?)
      requires S.Safe(Value()) && now >= clock
      modifies this
      ensures S.Safe(Value()) && clock == now
      ensures var specs := S.ActiveSpecs(e, tool);
        && Value() == S.Acquire(old(Value()), specs, now).0
        && (specs == [] ==> outcome == S.Unlimited)
        && (specs != [] ==> outcome == S.Answer(S.Verdict(old(Value()), specs, now)))
        && (outcome.Unlimited? <==> specs == [])
        && (outcome.Granted? <==> specs != [] && forall s <- specs :: S.HasRoom(old(Value()), s, now))
      ensures outcome.Granted? <==> lease != null
      ensures lease != null ==> fresh(lease) && lease.Valid() && lease.limiter == this
                                && lease.id == |old(leases)| && !lease.released
    {
      S.SpecsDistinct(e, tool);
      S.AcquireIs(Value(), S.ActiveSpecs(e, tool), now);
      S.AcquireKeeps(Value(), S.ActiveSpecs(e, tool), now);
      if S.ActiveSpecs(e, tool) != [] {
        S.AcquireMeans(Value(), S.ActiveSpecs(e, tool), now);
      }
      outcome, lease := Decide(e, tool, now);
    }

    method Decide(e: S.Endpoint, tool: Option<string>, now: real) returns (outcome: S.Outcome, lease: LimitLease?)
      modifies this
      ensures (Value(), outcome) == S.Acquire(old(Value()), S.ActiveSpecs(e, tool), now)
      ensures outcome.Granted? <==> lease != null
      ensures lease != null ==> fresh(lease) && lease.Valid() && lease.limiter == this
                                && lease.id == |old(leases)| && !lease.released
    {
      lease := null;
      var specs := ListSpecs(e, tool);
      clock := now;
      if specs == [] {
        return S.Unlimited, null;
      }
      var refusal := CheckSpecs(specs, now);
      if refusal.Some? {
        return S.Refused(refusal.value), null;
      }
      var acquired := CommitSpecs(specs, now);
      history := S.Record(history, specs, now);
      outcome := S.Granted;
      leases := leases + [S.Lease(acquired, false)];
      lease := new LimitLease(this, acquired, |leases| - 1);
    }

    /** `_release`. */
    method GiveBack(keys: seq<string>)
      modifies `buckets
      ensures buckets == S.GiveBack(old(buckets), keys)
    {
      for i := 0 to |keys|
        invariant S.GiveBack(buckets, keys[i..]) == S.GiveBack(old(buckets), keys)
      {
        var key := keys[i];
        assert keys[i..][0] == key && keys[i..][1..] == keys[i + 1..];
        if key in buckets && buckets[key].active > 0 {
          buckets := buckets[key := buckets[key].(active := buckets[key].active - 1)];
        }
      }
    }
  }

  class LimitLease {
    const limiter: RequestLimiter
    const keys: seq<string>
    ghost const id: nat
    var released: bool

    ghost predicate Valid()
      reads this, limiter
    {
      id < |limiter.leases| && limiter.leases[id] == S.Lease(keys, released)
    }

    constructor (limiter: RequestLimiter, keys: seq<string>, ghost id: nat)
      requires id < |limiter.leases| && limiter.leases[id] == S.Lease(keys, false)
      ensures this.limiter == limiter && this.id == id && !released && Valid()
    {
      this.limiter, this.keys, this.id := limiter, keys, id;
      released := false;
    }

    /** Idempotent. */
    method Release()
      requires Valid() && S.Safe(limiter.Value())
      modifies this, limiter
      ensures Valid() && released && S.Safe(limiter.Value())
      ensures limiter.Value() == S.Release(old(limiter.Value()), id)
      ensures old(released) ==> limiter.Value() == old(limiter.Value())
    {
      S.ReleaseKeeps(limiter.Value(), id);
      if released {
        return;
      }
      released := true;
      limiter.GiveBack(keys);
      limiter.leases := limiter.leases[id := S.Lease(keys, true)];
    }
  }
}
