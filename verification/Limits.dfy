/** The per-key concurrency and one-minute rate limiter (mcp_router/core/limits.py). The buckets
    hold counters and pruned deques; the specification beside them is the full history of accepted
    requests and the list of every lease handed out. */
module Limits {
  import opened Common

  datatype Limit = Limit(maxConcurrent: Option<nat>, perMinute: Option<nat>)

  datatype Endpoint = Endpoint(path: string, limits: Limit, toolLimits: map<string, Limit>)

  datatype Spec = Spec(key: string, limit: Limit)

  datatype Bucket = Bucket(active: nat, timestamps: seq<real>)

  datatype Reason = ConcurrencyExceeded | RateExceeded

  datatype Rejection = Rejection(key: string, reason: Reason)

  const WINDOW := 60.0

  const EMPTY_BUCKET := Bucket(0, [])

  // ------------------------------------------------------------ which buckets

  function EndpointKey(path: string): string {
    "endpoint:" + path
  }

  function ToolKey(path: string, tool: string): string {
    "tool:" + path + ":" + tool
  }

  predicate IsLimited(limit: Limit) {
    limit.maxConcurrent.Some? || limit.perMinute.Some?
  }

  /** The buckets a request is checked against, endpoint first. */
  function ActiveSpecs(e: Endpoint, tool: Option<string>): seq<Spec> {
    (if IsLimited(e.limits) then [Spec(EndpointKey(e.path), e.limits)] else [])
    + (if tool.Some? && tool.value in e.toolLimits && IsLimited(e.toolLimits[tool.value])
       then [Spec(ToolKey(e.path, tool.value), e.toolLimits[tool.value])] else [])
  }

  predicate Distinct(specs: seq<Spec>) {
    forall i, j :: 0 <= i < j < |specs| ==> specs[i].key != specs[j].key
  }

  lemma SpecsDistinct(e: Endpoint, tool: Option<string>)
    ensures Distinct(ActiveSpecs(e, tool))
  {
    if tool.Some? {
      assert EndpointKey(e.path)[0] == 'e' && ToolKey(e.path, tool.value)[0] == 't';
    }
  }

  /** Paths hold no colon, so a tool bucket belongs to one endpoint and one tool. */
  lemma ToolKeysApart(p: string, t: string, q: string, u: string)
    requires ':' !in p && ':' !in q && ToolKey(p, t) == ToolKey(q, u)
    ensures p == q && t == u
  {
    var rest, rest' := p + ":" + t, q + ":" + u;
    assert ToolKey(p, t) == "tool:" + rest && ToolKey(q, u) == "tool:" + rest';
    assert rest == ToolKey(p, t)[5..] == rest';
    assert rest[|p|] == ':' && rest'[|q|] == ':';
    assert forall i :: 0 <= i < |p| ==> rest[i] == p[i];
    assert forall i :: 0 <= i < |q| ==> rest'[i] == q[i];
    assert p == rest[..|p|] && t == rest[|p| + 1..] && u == rest'[|q| + 1..];
  }

  // ------------------------------------------------- the limiter as a function

  type Buckets = map<string, Bucket>

  function At(b: Buckets, key: string): Bucket {
    if key in b then b[key] else EMPTY_BUCKET
  }

  function Prune(timestamps: seq<real>, cutoff: real): seq<real> {
    if timestamps != [] && timestamps[0] <= cutoff then Prune(timestamps[1..], cutoff) else timestamps
  }

  function PruneAt(b: Buckets, key: string, now: real): Buckets {
    b[key := At(b, key).(timestamps := Prune(At(b, key).timestamps, now - WINDOW))]
  }

  /** Does a bucket with these counts refuse the request? */
  function Violation(s: Spec, active: nat, recent: nat): Option<Rejection> {
    if s.limit.maxConcurrent.Some? && active >= s.limit.maxConcurrent.value
      then Some(Rejection(s.key, ConcurrencyExceeded))
    else if s.limit.perMinute.Some? && recent >= s.limit.perMinute.value
      then Some(Rejection(s.key, RateExceeded))
    else None
  }

  /** The checking loop: each bucket is pruned before it is asked, and the first refusal ends it. */
  function Check(b: Buckets, specs: seq<Spec>, now: real): (Buckets, Option<Rejection>)
    decreases |specs|
  {
    if specs == [] then (b, None)
    else
      var pruned := PruneAt(b, specs[0].key, now);
      var bucket := pruned[specs[0].key];
      var refusal := Violation(specs[0], bucket.active, |bucket.timestamps|);
      if refusal.Some? then (pruned, refusal) else Check(pruned, specs[1..], now)
  }

  function Admit(bucket: Bucket, limit: Limit, now: real): Bucket {
    Bucket(if limit.maxConcurrent.Some? then bucket.active + 1 else bucket.active,
           if limit.perMinute.Some? then bucket.timestamps + [now] else bucket.timestamps)
  }

  function Commit(b: Buckets, specs: seq<Spec>, now: real): Buckets
    decreases |specs|
  {
    if specs == [] then b
    else Commit(b[specs[0].key := Admit(At(b, specs[0].key), specs[0].limit, now)], specs[1..], now)
  }

  /** The keys a lease will give back. */
  function LeasedKeys(specs: seq<Spec>): seq<string> {
    if specs == [] then []
    else (if specs[0].limit.maxConcurrent.Some? then [specs[0].key] else []) + LeasedKeys(specs[1..])
  }

  function GiveBack(b: Buckets, keys: seq<string>): Buckets {
    if keys == [] then b
    else
      var k := keys[0];
      GiveBack(if k in b && b[k].active > 0 then b[k := b[k].(active := b[k].active - 1)] else b, keys[1..])
  }

  // -------------------------------------------------- history and leases beside it

  datatype Lease = Lease(keys: seq<string>, released: bool)

  type History = map<string, seq<real>>

  datatype Limiter = Limiter(buckets: Buckets, history: History, clock: real, leases: seq<Lease>)

  const NewLimiter := Limiter(map[], map[], 0.0, [])

  function HistoryAt(h: History, key: string): seq<real> {
    if key in h then h[key] else []
  }

  function Record(h: History, specs: seq<Spec>, now: real): History
    decreases |specs|
  {
    if specs == [] then h
    else
      var key := specs[0].key;
      var next := if specs[0].limit.perMinute.Some? then h[key := HistoryAt(h, key) + [now]] else h;
      Record(next, specs[1..], now)
  }

  datatype Outcome = Unlimited | Granted | Refused(rejection: Rejection)

  function Grant(l: Limiter, checked: Buckets, specs: seq<Spec>, now: real): Limiter {
    Limiter(Commit(checked, specs, now), Record(l.history, specs, now), now,
            l.leases + [Lease(LeasedKeys(specs), false)])
  }

  function Acquire(l: Limiter, specs: seq<Spec>, now: real): (Limiter, Outcome) {
    if specs == [] then (l.(clock := now), Unlimited)
    else
      var (checked, refusal) := Check(l.buckets, specs, now);
      if refusal.Some? then (l.(buckets := checked, clock := now), Refused(refusal.value))
      else (Grant(l, checked, specs, now), Granted)
  }

  function Release(l: Limiter, lease: nat): Limiter {
    if lease >= |l.leases| || l.leases[lease].released then l
    else l.(buckets := GiveBack(l.buckets, l.leases[lease].keys),
            leases := l.leases[lease := l.leases[lease].(released := true)])
  }

  // -------------------------------------------- the simple form: count the history

  /** Accepted requests in (now - 60, now]. */
  function Recent(history: seq<real>, now: real): nat {
    if history == [] then 0
    else (if now - WINDOW < history[0] <= now then 1 else 0) + Recent(history[1..], now)
  }

  /** Unreleased leases that list the key. */
  function Held(leases: seq<Lease>, key: string): nat {
    if leases == [] then 0
    else
      var last := leases[|leases| - 1];
      Held(leases[..|leases| - 1], key) + if !last.released && key in last.keys then 1 else 0
  }

  /** The verdict of a limiter that keeps everything and counts afresh each time. */
  function Verdict(l: Limiter, specs: seq<Spec>, now: real): Option<Rejection> {
    if specs == [] then None
    else
      var refusal := Violation(specs[0], Held(l.leases, specs[0].key), Recent(HistoryAt(l.history, specs[0].key), now));
      if refusal.Some? then refusal else Verdict(l, specs[1..], now)
  }

  function Answer(verdict: Option<Rejection>): Outcome {
    match verdict
    case None => Granted
    case Some(rejection) => Refused(rejection)
  }

  predicate Sorted(s: seq<real>) {
    forall i, j :: 0 <= i < j < |s| ==> s[i] <= s[j]
  }

  /** Both deques hold the same for every cutoff that can still matter. */
  ghost predicate SamePruned(timestamps: seq<real>, history: seq<real>, clock: real) {
    forall cutoff: real :: cutoff >= clock - WINDOW ==> Prune(timestamps, cutoff) == Prune(history, cutoff)
  }

  predicate InOrder(history: seq<real>, clock: real) {
    Sorted(history) && forall i :: 0 <= i < |history| ==> history[i] <= clock
  }

  ghost predicate Refines(l: Limiter, key: string) {
    && At(l.buckets, key).active == Held(l.leases, key)
    && InOrder(HistoryAt(l.history, key), l.clock)
    && SamePruned(At(l.buckets, key).timestamps, HistoryAt(l.history, key), l.clock)
  }

  predicate LeaseShaped(lease: Lease) {
    forall i, j :: 0 <= i < j < |lease.keys| ==> lease.keys[i] != lease.keys[j]
  }

  ghost predicate Safe(l: Limiter) {
    (forall key: string :: Refines(l, key)) && forall lease <- l.leases :: LeaseShaped(lease)
  }

  // ------------------------------------------------------------------ pruning

  lemma {:induction false} PruneIsSuffix(s: seq<real>, cutoff: real)
    ensures |Prune(s, cutoff)| <= |s| && Prune(s, cutoff) == s[|s| - |Prune(s, cutoff)|..]
    ensures forall i :: 0 <= i < |s| - |Prune(s, cutoff)| ==> s[i] <= cutoff
    ensures Prune(s, cutoff) != [] ==> Prune(s, cutoff)[0] > cutoff
  {
    if s != [] && s[0] <= cutoff {
      PruneIsSuffix(s[1..], cutoff);
    }
  }

  lemma {:induction false} PruneTwice(s: seq<real>, c: real, d: real)
    requires c <= d
    ensures Prune(Prune(s, c), d) == Prune(s, d)
  {
    if s != [] && s[0] <= c {
      PruneTwice(s[1..], c, d);
    }
  }

  lemma {:induction false} PruneAppend(s: seq<real>, t: real, cutoff: real)
    ensures Prune(s + [t], cutoff) == if Prune(s, cutoff) != [] || t > cutoff then Prune(s, cutoff) + [t] else []
  {
    if s == [] {
      assert s + [t] == [t];
    } else {
      assert (s + [t])[1..] == s[1..] + [t];
      if s[0] <= cutoff {
        PruneAppend(s[1..], t, cutoff);
      }
    }
  }

  /** On a history in order, what pruning leaves is what the window holds. */
  lemma {:induction false} PruneCounts(s: seq<real>, now: real)
    requires Sorted(s) && forall i :: 0 <= i < |s| ==> s[i] <= now
    ensures |Prune(s, now - WINDOW)| == Recent(s, now)
  {
    if s != [] {
      if s[0] <= now - WINDOW {
        PruneCounts(s[1..], now);
      } else {
        AllRecent(s, now);
      }
    }
  }

  lemma {:induction false} AllRecent(s: seq<real>, now: real)
    requires forall i :: 0 <= i < |s| ==> now - WINDOW < s[i] <= now
    ensures Recent(s, now) == |s|
  {
    if s != [] {
      AllRecent(s[1..], now);
    }
  }

  // ---------------------------------------------------------------- one bucket

  /** Checking prunes some buckets and counts nothing. */
  lemma {:induction false} CheckOnlyPrunes(b: Buckets, specs: seq<Spec>, now: real, key: string)
    ensures var after := At(Check(b, specs, now).0, key);
      && after.active == At(b, key).active
      && (after.timestamps == At(b, key).timestamps || after.timestamps == Prune(At(b, key).timestamps, now - WINDOW))
    decreases |specs|
  {
    if specs != [] {
      var pruned := PruneAt(b, specs[0].key, now);
      CheckOnlyPrunes(pruned, specs[1..], now, key);
      PruneTwice(At(b, key).timestamps, now - WINDOW, now - WINDOW);
    }
  }

  function Applies(specs: seq<Spec>, key: string): Option<Limit> {
    if specs == [] then None
    else if specs[0].key == key then Some(specs[0].limit) else Applies(specs[1..], key)
  }

  lemma {:induction false} NotApplied(specs: seq<Spec>, key: string)
    requires forall s <- specs :: s.key != key
    ensures Applies(specs, key) == None
  {
    if specs != [] {
      NotApplied(specs[1..], key);
    }
  }

  lemma {:induction false} CommitAt(b: Buckets, specs: seq<Spec>, now: real, key: string)
    requires Distinct(specs)
    ensures At(Commit(b, specs, now), key) ==
      if Applies(specs, key).Some? then Admit(At(b, key), Applies(specs, key).value, now) else At(b, key)
    decreases |specs|
  {
    if specs != [] {
      var s := specs[0];
      CommitAt(b[s.key := Admit(At(b, s.key), s.limit, now)], specs[1..], now, key);
      if s.key == key {
        NotApplied(specs[1..], key);
      }
    }
  }

  lemma {:induction false} RecordAt(h: History, specs: seq<Spec>, now: real, key: string)
    requires Distinct(specs)
    ensures HistoryAt(Record(h, specs, now), key) ==
      HistoryAt(h, key) + if Applies(specs, key).Some? && Applies(specs, key).value.perMinute.Some? then [now] else []
    decreases |specs|
  {
    if specs == [] {
      assert HistoryAt(h, key) + [] == HistoryAt(h, key);
    } else {
      var s := specs[0];
      var next := if s.limit.perMinute.Some? then h[s.key := HistoryAt(h, s.key) + [now]] else h;
      RecordAt(next, specs[1..], now, key);
      if s.key == key {
        NotApplied(specs[1..], key);
      }
    }
  }

  lemma {:induction false} LeasedAt(specs: seq<Spec>, key: string)
    requires Distinct(specs)
    ensures key in LeasedKeys(specs) <==> Applies(specs, key).Some? && Applies(specs, key).value.maxConcurrent.Some?
  {
    if specs != [] {
      LeasedAt(specs[1..], key);
      if specs[0].key == key {
        NotApplied(specs[1..], key);
      }
    }
  }

  lemma {:induction false} LeasedShape(specs: seq<Spec>)
    requires Distinct(specs)
    ensures LeaseShaped(Lease(LeasedKeys(specs), false))
  {
    if specs != [] {
      LeasedShape(specs[1..]);
      LeasedAt(specs[1..], specs[0].key);
      NotApplied(specs[1..], specs[0].key);
    }
  }

  /** Releasing takes one from every listed key that has something to give. */
  lemma {:induction false} GiveBackAt(b: Buckets, keys: seq<string>, key: string)
    requires forall i, j :: 0 <= i < j < |keys| ==> keys[i] != keys[j]
    ensures At(GiveBack(b, keys), key) ==
      if key in keys && At(b, key).active > 0 then At(b, key).(active := At(b, key).active - 1) else At(b, key)
  {
    if keys != [] {
      var k := keys[0];
      var next := if k in b && b[k].active > 0 then b[k := b[k].(active := b[k].active - 1)] else b;
      GiveBackAt(next, keys[1..], key);
      assert key in keys <==> key == k || key in keys[1..];
    }
  }

  lemma HeldAppend(leases: seq<Lease>, lease: Lease, key: string)
    ensures Held(leases + [lease], key) == Held(leases, key) + if !lease.released && key in lease.keys then 1 else 0
  {
    assert (leases + [lease])[..|leases|] == leases;
  }

  lemma {:induction false} HeldRelease(leases: seq<Lease>, i: nat, key: string)
    requires i < |leases| && !leases[i].released
    ensures Held(leases, key) ==
      Held(leases[i := leases[i].(released := true)], key) + if key in leases[i].keys then 1 else 0
  {
    var n, after := |leases| - 1, leases[i := leases[i].(released := true)];
    if i == n {
      assert after[..n] == leases[..n];
    } else {
      HeldRelease(leases[..n], i, key);
      assert after[..n] == leases[..n][i := leases[i].(released := true)];
    }
  }

  // --------------------------------------------------------------- refinement

  /** The buckets answer exactly as counting the full history and the open leases would. */
  lemma {:induction false} CheckIsVerdict(l: Limiter, b: Buckets, specs: seq<Spec>, now: real)
    requires Safe(l) && now >= l.clock
    requires forall key: string :: At(b, key).active == At(l.buckets, key).active
    requires forall key: string ::
      Prune(At(b, key).timestamps, now - WINDOW) == Prune(At(l.buckets, key).timestamps, now - WINDOW)
    ensures Check(b, specs, now).1 == Verdict(l, specs, now)
    decreases |specs|
  {
    if specs != [] {
      var key := specs[0].key;
      var pruned := PruneAt(b, key, now);
      assert Refines(l, key);
      PruneCounts(HistoryAt(l.history, key), now);
      PruneTwice(At(b, key).timestamps, now - WINDOW, now - WINDOW);
      CheckIsVerdict(l, pruned, specs[1..], now);
    }
  }

  /** In every reachable state: a request is granted exactly when the simple form has no objection,
      and refused with the same key and reason. */
  lemma AcquireMeans(l: Limiter, specs: seq<Spec>, now: real)
    requires Safe(l) && now >= l.clock && specs != []
    ensures Acquire(l, specs, now).1 == Answer(Verdict(l, specs, now))
  {
    CheckIsVerdict(l, l.buckets, specs, now);
  }

  // ------------------------------------------------------------- preservation

  lemma PruneRefines(l: Limiter, l': Limiter, key: string)
    requires Refines(l, key) && l'.clock >= l.clock && l'.history == l.history && l'.leases == l.leases
    requires At(l'.buckets, key).active == At(l.buckets, key).active
    requires At(l'.buckets, key).timestamps == At(l.buckets, key).timestamps
             || At(l'.buckets, key).timestamps == Prune(At(l.buckets, key).timestamps, l'.clock - WINDOW)
    ensures Refines(l', key)
  {
    PrunedSame(At(l.buckets, key).timestamps, HistoryAt(l.history, key), l.clock, l'.clock);
  }

  lemma PrunedSame(timestamps: seq<real>, history: seq<real>, clock: real, later: real)
    requires SamePruned(timestamps, history, clock) && clock <= later
    ensures SamePruned(timestamps, history, later)
    ensures SamePruned(Prune(timestamps, later - WINDOW), history, later)
  {
    forall cutoff: real | cutoff >= later - WINDOW
      ensures Prune(Prune(timestamps, later - WINDOW), cutoff) == Prune(history, cutoff)
    {
      PruneTwice(timestamps, later - WINDOW, cutoff);
    }
  }

  /** Recording the same moment in the bucket and in the history. */
  lemma RecordSame(timestamps: seq<real>, history: seq<real>, clock: real, t: real)
    requires SamePruned(timestamps, history, clock)
    ensures SamePruned(timestamps + [t], history + [t], clock)
  {
    forall cutoff: real | cutoff >= clock - WINDOW
      ensures Prune(timestamps + [t], cutoff) == Prune(history + [t], cutoff)
    {
      PruneAppend(timestamps, t, cutoff);
      PruneAppend(history, t, cutoff);
    }
  }

  predicate Recorded(specs: seq<Spec>, key: string) {
    Applies(specs, key).Some? && Applies(specs, key).value.perMinute.Some?
  }

  lemma GrantCounts(l: Limiter, specs: seq<Spec>, now: real, key: string)
    requires Distinct(specs) && At(l.buckets, key).active == Held(l.leases, key)
    ensures var l' := Grant(l, l.buckets, specs, now); At(l'.buckets, key).active == Held(l'.leases, key)
  {
    CommitAt(l.buckets, specs, now, key);
    LeasedAt(specs, key);
    HeldAppend(l.leases, Lease(LeasedKeys(specs), false), key);
  }

  lemma GrantRecords(l: Limiter, specs: seq<Spec>, now: real, key: string)
    requires Distinct(specs)
    ensures var l' := Grant(l, l.buckets, specs, now);
      && At(l'.buckets, key).timestamps == At(l.buckets, key).timestamps + (if Recorded(specs, key) then [now] else [])
      && HistoryAt(l'.history, key) == HistoryAt(l.history, key) + (if Recorded(specs, key) then [now] else [])
  {
    CommitAt(l.buckets, specs, now, key);
    RecordAt(l.history, specs, now, key);
    assert At(l.buckets, key).timestamps + [] == At(l.buckets, key).timestamps;
  }

  lemma GrantRefines(l: Limiter, specs: seq<Spec>, now: real, key: string)
    requires Refines(l, key) && l.clock == now && Distinct(specs)
    ensures Refines(Grant(l, l.buckets, specs, now), key)
  {
    GrantCounts(l, specs, now, key);
    GrantRecords(l, specs, now, key);
    var timestamps, history := At(l.buckets, key).timestamps, HistoryAt(l.history, key);
    assert timestamps + [] == timestamps && history + [] == history;
    RecordSame(timestamps, history, now, now);
  }

  lemma AcquireKeeps(l: Limiter, specs: seq<Spec>, now: real)
    requires Safe(l) && now >= l.clock && Distinct(specs)
    ensures Safe(Acquire(l, specs, now).0)
  {
    var (checked, refusal) := Check(l.buckets, specs, now);
    var l' := l.(buckets := checked, clock := now);
    forall key: string ensures Refines(l', key) && Refines(Grant(l', checked, specs, now), key) {
      assert Refines(l, key);
      CheckOnlyPrunes(l.buckets, specs, now, key);
      PruneRefines(l, l', key);
      GrantRefines(l', specs, now, key);
    }
    LeasedShape(specs);
    assert Acquire(l, specs, now).0 == l' || Acquire(l, specs, now).0 == Grant(l', checked, specs, now);
  }

  /** A release always has something to give back. */
  lemma ReleaseAt(l: Limiter, lease: nat, key: string)
    requires Safe(l) && lease < |l.leases| && !l.leases[lease].released
    ensures At(Release(l, lease).buckets, key).timestamps == At(l.buckets, key).timestamps
    ensures At(Release(l, lease).buckets, key).active + (if key in l.leases[lease].keys then 1 else 0) ==
      At(l.buckets, key).active
    ensures Refines(Release(l, lease), key)
  {
    assert Refines(l, key) && LeaseShaped(l.leases[lease]);
    HeldRelease(l.leases, lease, key);
    GiveBackAt(l.buckets, l.leases[lease].keys, key);
  }

  lemma ReleaseKeeps(l: Limiter, lease: nat)
    requires Safe(l)
    ensures Safe(Release(l, lease))
  {
    if lease < |l.leases| && !l.leases[lease].released {
      forall key: string ensures Refines(Release(l, lease), key) {
        ReleaseAt(l, lease, key);
      }
      assert LeaseShaped(l.leases[lease]);
    }
  }

  // ----------------------------------------------------------------- all runs

  datatype Step = Request(endpoint: Endpoint, tool: Option<string>, now: real) | GiveUp(lease: nat)

  function Apply(l: Limiter, s: Step): Limiter {
    match s
    case Request(e, tool, now) => Acquire(l, ActiveSpecs(e, tool), now).0
    case GiveUp(lease) => Release(l, lease)
  }

  /** A run whose clock never goes back. */
  ghost predicate Reaches(l: Limiter, steps: seq<Step>, l': Limiter)
    decreases |steps|
  {
    if steps == [] then l == l'
    else (steps[0].Request? ==> steps[0].now >= l.clock) && Reaches(Apply(l, steps[0]), steps[1..], l')
  }

  lemma StepKeeps(l: Limiter, s: Step)
    requires Safe(l) && (s.Request? ==> s.now >= l.clock)
    ensures Safe(Apply(l, s))
  {
    match s
    case Request(e, tool, now) =>
      SpecsDistinct(e, tool);
      AcquireKeeps(l, ActiveSpecs(e, tool), now);
    case GiveUp(lease) => ReleaseKeeps(l, lease);
  }

  lemma {:induction false} RunKeeps(l: Limiter, steps: seq<Step>, l': Limiter)
    requires Safe(l) && Reaches(l, steps, l')
    ensures Safe(l')
    decreases |steps|
  {
    if steps != [] {
      StepKeeps(l, steps[0]);
      RunKeeps(Apply(l, steps[0]), steps[1..], l');
    }
  }

  /** In every run each bucket's counter is the number of unreleased leases that list its key. */
  lemma ActiveIsHeld(steps: seq<Step>, l: Limiter, key: string)
    requires Reaches(NewLimiter, steps, l)
    ensures At(l.buckets, key).active == Held(l.leases, key)
  {
    RunKeeps(NewLimiter, steps, l);
    assert Refines(l, key);
  }

  /** In every run the pruned deques and counters decide as the full history would. */
  lemma DecidesLikeHistory(steps: seq<Step>, l: Limiter, e: Endpoint, tool: Option<string>, now: real)
    requires Reaches(NewLimiter, steps, l) && now >= l.clock && ActiveSpecs(e, tool) != []
    ensures var specs := ActiveSpecs(e, tool); Acquire(l, specs, now).1 == Answer(Verdict(l, specs, now))
  {
    RunKeeps(NewLimiter, steps, l);
    AcquireMeans(l, ActiveSpecs(e, tool), now);
  }

  lemma {:induction false} GrantedMeans(l: Limiter, specs: seq<Spec>, now: real, key: string)
    requires Verdict(l, specs, now) == None && Applies(specs, key).Some?
    ensures var limit := Applies(specs, key).value;
      Violation(Spec(key, limit), Held(l.leases, key), Recent(HistoryAt(l.history, key), now)) == None
    decreases |specs|
  {
    if specs[0].key != key {
      GrantedMeans(l, specs[1..], now, key);
    }
  }

  /** No acquire pushes a counter above the cap in force. */
  lemma CapKept(l: Limiter, specs: seq<Spec>, now: real, key: string)
    requires Safe(l) && now >= l.clock && Distinct(specs) && Acquire(l, specs, now).1.Granted?
    requires Applies(specs, key).Some? && Applies(specs, key).value.maxConcurrent.Some?
    ensures At(Acquire(l, specs, now).0.buckets, key).active <= Applies(specs, key).value.maxConcurrent.value
  {
    AcquireMeans(l, specs, now);
    GrantedMeans(l, specs, now, key);
    CheckOnlyPrunes(l.buckets, specs, now, key);
    CommitAt(Check(l.buckets, specs, now).0, specs, now, key);
    assert Refines(l, key);
  }

  /** A refusal on any key leaves every counter, every count in the window, the history and the
      leases as they were. */
  lemma RefusalChangesNothing(l: Limiter, specs: seq<Spec>, now: real, key: string, later: real)
    requires Acquire(l, specs, now).1.Refused? && later >= now
    ensures var l' := Acquire(l, specs, now).0;
      && l'.history == l.history && l'.leases == l.leases
      && At(l'.buckets, key).active == At(l.buckets, key).active
      && Prune(At(l'.buckets, key).timestamps, later - WINDOW) == Prune(At(l.buckets, key).timestamps, later - WINDOW)
  {
    CheckOnlyPrunes(l.buckets, specs, now, key);
    PruneTwice(At(l.buckets, key).timestamps, now - WINDOW, later - WINDOW);
  }

  lemma ReleasedTwice(l: Limiter, lease: nat)
    ensures Release(Release(l, lease), lease) == Release(l, lease)
  {
  }

  // ------------------------------------------------------------ sliding window

  /** Accepted requests `r` apart are at least a window apart. */
  ghost predicate Spaced(history: seq<real>, r: nat) {
    forall i, j :: 0 <= i && i + r <= j < |history| ==> history[j] - history[i] >= WINDOW
  }

  lemma SpacedAppend(history: seq<real>, r: nat, now: real)
    requires Spaced(history, r) && Sorted(history) && (forall i :: 0 <= i < |history| ==> history[i] <= now)
    requires Recent(history, now) < r
    ensures Spaced(history + [now], r)
  {
    PruneCounts(history, now);
    PruneIsSuffix(history, now - WINDOW);
  }

  /** Every request that is counted on the key is held to `r` a minute. */
  predicate HeldTo(s: Step, key: string, r: nat) {
    s.Request? && Applies(ActiveSpecs(s.endpoint, s.tool), key).Some?
    ==> Applies(ActiveSpecs(s.endpoint, s.tool), key).value.perMinute == Some(r)
  }

  lemma AcquireSpaced(l: Limiter, specs: seq<Spec>, now: real, key: string, r: nat)
    requires Safe(l) && now >= l.clock && Distinct(specs) && Spaced(HistoryAt(l.history, key), r)
    requires Applies(specs, key).Some? ==> Applies(specs, key).value.perMinute == Some(r)
    ensures Spaced(HistoryAt(Acquire(l, specs, now).0.history, key), r)
  {
    var history := HistoryAt(l.history, key);
    RecordAt(l.history, specs, now, key);
    assert history + [] == history;
    if Applies(specs, key).Some? && Acquire(l, specs, now).1.Granted? {
      AcquireMeans(l, specs, now);
      GrantedMeans(l, specs, now, key);
      assert Refines(l, key);
      SpacedAppend(history, r, now);
    }
  }

  lemma StepSpaced(l: Limiter, s: Step, key: string, r: nat)
    requires Safe(l) && (s.Request? ==> s.now >= l.clock) && HeldTo(s, key, r) && Spaced(HistoryAt(l.history, key), r)
    ensures Spaced(HistoryAt(Apply(l, s).history, key), r)
  {
    if s.Request? {
      SpecsDistinct(s.endpoint, s.tool);
      AcquireSpaced(l, ActiveSpecs(s.endpoint, s.tool), s.now, key, r);
    }
  }

  /** While a key is held to a fixed `r` a minute, any two accepted requests `r` apart on it are at
      least 60 seconds apart, in every run. */
  lemma {:induction false} SlidingWindow(l: Limiter, steps: seq<Step>, l': Limiter, key: string, r: nat)
    requires Safe(l) && Reaches(l, steps, l') && Spaced(HistoryAt(l.history, key), r)
    requires forall s <- steps :: HeldTo(s, key, r)
    ensures Spaced(HistoryAt(l'.history, key), r)
    decreases |steps|
  {
    if steps != [] {
      assert steps[0] in steps && HeldTo(steps[0], key, r);
      StepKeeps(l, steps[0]);
      StepSpaced(l, steps[0], key, r);
      SlidingWindow(Apply(l, steps[0]), steps[1..], l', key, r);
    }
  }

  // --------------------------------------------- which limits, and what they do

  /** A request is held to the limits of its endpoint, and of its tool if the endpoint limits that, each
      under its own key and only if it limits anything; the endpoint comes first. */
  lemma SpecsMean(e: Endpoint, tool: Option<string>)
    ensures forall s: Spec :: s in ActiveSpecs(e, tool) <==>
      || (s == Spec("endpoint:" + e.path, e.limits) && (s.limit.maxConcurrent.Some? || s.limit.perMinute.Some?))
      || (tool.Some? && tool.value in e.toolLimits
          && s == Spec("tool:" + e.path + ":" + tool.value, e.toolLimits[tool.value])
          && (s.limit.maxConcurrent.Some? || s.limit.perMinute.Some?))
    ensures |ActiveSpecs(e, tool)| <= 2
    ensures |ActiveSpecs(e, tool)| == 2 ==> ActiveSpecs(e, tool)[0].key == "endpoint:" + e.path
  {
  }

  /** The limit has room for one more request on its key. */
  ghost predicate HasRoom(l: Limiter, s: Spec, now: real) {
    && (s.limit.maxConcurrent.Some? ==> Held(l.leases, s.key) < s.limit.maxConcurrent.value)
    && (s.limit.perMinute.Some? ==> Recent(HistoryAt(l.history, s.key), now) < s.limit.perMinute.value)
  }

  lemma {:induction false} VerdictIs(l: Limiter, specs: seq<Spec>, now: real)
    ensures Verdict(l, specs, now) == None <==> forall s <- specs :: HasRoom(l, s, now)
    ensures Verdict(l, specs, now).Some? ==> exists i :: RefusedAt(l, specs, now, Verdict(l, specs, now).value, i)
    decreases |specs|
  {
    if specs != [] {
      VerdictIs(l, specs[1..], now);
      assert specs == [specs[0]] + specs[1..];
      var verdict := Verdict(l, specs, now);
      if !HasRoom(l, specs[0], now) {
        assert RefusedAt(l, specs, now, verdict.value, 0);
      } else if verdict.Some? {
        var i :| RefusedAt(l, specs[1..], now, verdict.value, i);
        assert RefusedAt(l, specs, now, verdict.value, i + 1);
      }
    }
  }

  /** The refusal is for the first limit that has no room, and for concurrency if that is exceeded. */
  ghost predicate RefusedAt(l: Limiter, specs: seq<Spec>, now: real, refusal: Rejection, i: int) {
    && 0 <= i < |specs| && !HasRoom(l, specs[i], now) && (forall j :: 0 <= j < i ==> HasRoom(l, specs[j], now))
    && refusal.key == specs[i].key && (refusal.reason == ConcurrencyExceeded <==> Crowded(l, specs[i]))
  }

  ghost predicate Crowded(l: Limiter, s: Spec) {
    s.limit.maxConcurrent.Some? && Held(l.leases, s.key) >= s.limit.maxConcurrent.value
  }

  /** A limited request is granted exactly when each of its limits has room, both for one more open request
      and for one more in the last minute; otherwise it is refused for the first limit that has not, for
      concurrency if that is exceeded and else for rate. An unlimited one is let through. */
  lemma AcquireIs(l: Limiter, specs: seq<Spec>, now: real)
    requires Safe(l) && now >= l.clock
    ensures var outcome := Acquire(l, specs, now).1;
      && (outcome.Unlimited? <==> specs == [])
      && (outcome.Granted? <==> specs != [] && forall s <- specs :: HasRoom(l, s, now))
      && (outcome.Refused? ==> exists i :: RefusedAt(l, specs, now, outcome.rejection, i))
  {
    if specs != [] {
      AcquireMeans(l, specs, now);
      VerdictIs(l, specs, now);
    }
  }

  /** The counts are what they say: unreleased leases that list the key, and accepted requests of the last
      60 seconds. */
  lemma {:induction false} HeldIs(leases: seq<Lease>, key: string)
    ensures Held(leases, key) == |Holding(leases, key)|
  {
    if leases == [] {
      assert Holding(leases, key) == {};
    } else {
      var n := |leases| - 1;
      HeldIs(leases[..n], key);
      assert Holding(leases, key) ==
        Holding(leases[..n], key) + if !leases[n].released && key in leases[n].keys then {n} else {};
    }
  }

  function Holding(leases: seq<Lease>, key: string): set<nat> {
    set k: nat | k < |leases| && !leases[k].released && key in leases[k].keys
  }

  function LastMinute(history: seq<real>, now: real): set<nat> {
    set i: nat | i < |history| && now - 60.0 < history[i] <= now
  }

  lemma {:induction false} RecentIs(history: seq<real>, now: real)
    ensures Recent(history, now) == |LastMinute(history, now)|
  {
    if history == [] {
      assert LastMinute(history, now) == {};
    } else {
      RecentIs(history[1..], now);
      var shifted: set<nat> := set i | i in LastMinute(history[1..], now) :: i + 1;
      ShiftedSize(LastMinute(history[1..], now), shifted);
      forall i: nat | i in LastMinute(history, now) && i > 0 ensures i in shifted {
        assert i - 1 in LastMinute(history[1..], now);
      }
      assert LastMinute(history, now) == shifted + if now - 60.0 < history[0] <= now then {0} else {};
    }
  }

  lemma {:induction false} ShiftedSize(a: set<nat>, b: set<nat>)
    requires b == set i | i in a :: i + 1
    ensures |b| == |a|
  {
    if a == {} {
      assert b == {};
    } else {
      var x :| x in a;
      var rest: set<nat> := set i | i in a - {x} :: i + 1;
      ShiftedSize(a - {x}, rest);
      forall y | y in b ensures y in rest + {x + 1} {
        assert y != x + 1 ==> y - 1 in a - {x};
      }
      assert x + 1 !in rest && b == rest + {x + 1};
    }
  }

  // --------------------------------------------------------- a limit over whole runs

  /** Every request that is counted on the key may have `c` at once. */
  predicate CappedAt(s: Step, key: string, c: nat) {
    s.Request? && Applies(ActiveSpecs(s.endpoint, s.tool), key).Some?
    ==> Applies(ActiveSpecs(s.endpoint, s.tool), key).value.maxConcurrent == Some(c)
  }

  lemma AcquireCapped(l: Limiter, specs: seq<Spec>, now: real, key: string, c: nat)
    requires Safe(l) && now >= l.clock && Distinct(specs) && Held(l.leases, key) <= c
    requires Applies(specs, key).Some? ==> Applies(specs, key).value.maxConcurrent == Some(c)
    ensures Held(Acquire(l, specs, now).0.leases, key) <= c
  {
    if Acquire(l, specs, now).1.Granted? {
      AcquireMeans(l, specs, now);
      LeasedAt(specs, key);
      HeldAppend(l.leases, Lease(LeasedKeys(specs), false), key);
      if Applies(specs, key).Some? {
        GrantedMeans(l, specs, now, key);
      }
    }
  }

  lemma StepCapped(l: Limiter, s: Step, key: string, c: nat)
    requires Safe(l) && (s.Request? ==> s.now >= l.clock) && CappedAt(s, key, c) && Held(l.leases, key) <= c
    ensures Held(Apply(l, s).leases, key) <= c
  {
    match s
    case Request(e, tool, now) =>
      SpecsDistinct(e, tool);
      AcquireCapped(l, ActiveSpecs(e, tool), now, key, c);
    case GiveUp(lease) =>
      if lease < |l.leases| && !l.leases[lease].released {
        HeldRelease(l.leases, lease, key);
      }
  }

  /** While a key is held to `c` at once, at most `c` unreleased leases list it, in every run. */
  lemma {:induction false} ConcurrencyKept(l: Limiter, steps: seq<Step>, l': Limiter, key: string, c: nat)
    requires Safe(l) && Reaches(l, steps, l') && Held(l.leases, key) <= c
    requires forall s <- steps :: CappedAt(s, key, c)
    ensures Held(l'.leases, key) <= c
    decreases |steps|
  {
    if steps != [] {
      assert steps[0] in steps && CappedAt(steps[0], key, c);
      StepKeeps(l, steps[0]);
      StepCapped(l, steps[0], key, c);
      ConcurrencyKept(Apply(l, steps[0]), steps[1..], l', key, c);
    }
  }

  /** The request is to a path without colons; if it calls tool `t` of path `p`, its endpoint limits that
      tool to `c` at once and `r` a minute. */
  predicate ToolHeldTo(s: Step, p: string, t: string, c: nat, r: nat) {
    s.Request? ==>
      && ':' !in s.endpoint.path
      && (s.endpoint.path == p && s.tool == Some(t) ==>
            t in s.endpoint.toolLimits && s.endpoint.toolLimits[t] == Limit(Some(c), Some(r)))
  }

  predicate EndpointHeldTo(s: Step, p: string, c: nat, r: nat) {
    s.Request? && s.endpoint.path == p ==> s.endpoint.limits == Limit(Some(c), Some(r))
  }

  lemma {:induction false} AppliesMeans(specs: seq<Spec>, key: string)
    ensures Applies(specs, key).Some? ==> Spec(key, Applies(specs, key).value) in specs
    ensures Applies(specs, key).None? ==> forall s <- specs :: s.key != key
  {
    if specs != [] {
      AppliesMeans(specs[1..], key);
      assert specs == [specs[0]] + specs[1..];
    }
  }

  lemma ToolStepHeld(s: Step, p: string, t: string, c: nat, r: nat)
    requires ToolHeldTo(s, p, t, c, r) && ':' !in p
    ensures CappedAt(s, "tool:" + p + ":" + t, c) && HeldTo(s, "tool:" + p + ":" + t, r)
  {
    if s.Request? {
      var key := "tool:" + p + ":" + t;
      AppliesMeans(ActiveSpecs(s.endpoint, s.tool), key);
      SpecsMean(s.endpoint, s.tool);
      assert key[0] == 't' && ("endpoint:" + s.endpoint.path)[0] == 'e';
      if s.tool.Some? && ToolKey(s.endpoint.path, s.tool.value) == ToolKey(p, t) {
        ToolKeysApart(s.endpoint.path, s.tool.value, p, t);
      }
    }
  }

  /** While a tool of a path is limited to `c` at once and `r` a minute, at most `c` of its calls are open, and
      accepted calls of it `r` apart are at least 60 seconds apart, in every run. */
  lemma ToolLimitKept(steps: seq<Step>, l: Limiter, p: string, t: string, c: nat, r: nat)
    requires Reaches(NewLimiter, steps, l) && ':' !in p && forall s <- steps :: ToolHeldTo(s, p, t, c, r)
    ensures var key := "tool:" + p + ":" + t;
      Held(l.leases, key) <= c && Spaced(HistoryAt(l.history, key), r)
  {
    var key := "tool:" + p + ":" + t;
    forall s | s in steps ensures CappedAt(s, key, c) && HeldTo(s, key, r) {
      ToolStepHeld(s, p, t, c, r);
    }
    ConcurrencyKept(NewLimiter, steps, l, key, c);
    SlidingWindow(NewLimiter, steps, l, key, r);
  }

  lemma EndpointStepHeld(s: Step, p: string, c: nat, r: nat)
    requires EndpointHeldTo(s, p, c, r)
    ensures CappedAt(s, "endpoint:" + p, c) && HeldTo(s, "endpoint:" + p, r)
  {
    if s.Request? {
      var key := "endpoint:" + p;
      AppliesMeans(ActiveSpecs(s.endpoint, s.tool), key);
      SpecsMean(s.endpoint, s.tool);
      if s.tool.Some? {
        assert ("tool:" + s.endpoint.path + ":" + s.tool.value)[0] == 't' && key[0] == 'e';
      }
      assert ("endpoint:" + s.endpoint.path)[9..] == s.endpoint.path && key[9..] == p;
    }
  }

  /** The same of an endpoint's own limit. */
  lemma EndpointLimitKept(steps: seq<Step>, l: Limiter, p: string, c: nat, r: nat)
    requires Reaches(NewLimiter, steps, l) && forall s <- steps :: EndpointHeldTo(s, p, c, r)
    ensures Held(l.leases, "endpoint:" + p) <= c && Spaced(HistoryAt(l.history, "endpoint:" + p), r)
  {
    var key := "endpoint:" + p;
    forall s | s in steps ensures CappedAt(s, key, c) && HeldTo(s, key, r) {
      EndpointStepHeld(s, p, c, r);
    }
    ConcurrencyKept(NewLimiter, steps, l, key, c);
    SlidingWindow(NewLimiter, steps, l, key, r);
  }

  lemma {:induction false} AppliesOnly(specs: seq<Spec>, s: Spec)
    requires Distinct(specs) && s in specs
    ensures Applies(specs, s.key) == Some(s.limit)
  {
    if specs[0] != s {
      var i :| 0 <= i < |specs| && specs[i] == s;
      assert specs[1..][i - 1] == s && specs[0].key != specs[i].key;
      AppliesOnly(specs[1..], s);
    }
  }

  /** A granted request is counted under each of its limits: its new lease lists the key of every limit on
      concurrency, and the history of every limit on rate has it as its last entry. */
  lemma GrantIsCounted(l: Limiter, e: Endpoint, tool: Option<string>, now: real, s: Spec)
    requires Acquire(l, ActiveSpecs(e, tool), now).1.Granted? && s in ActiveSpecs(e, tool)
    ensures var l' := Acquire(l, ActiveSpecs(e, tool), now).0;
      && |l'.leases| == |l.leases| + 1 && !l'.leases[|l.leases|].released
      && (s.limit.maxConcurrent.Some? ==> s.key in l'.leases[|l.leases|].keys)
      && (s.limit.perMinute.Some? ==> HistoryAt(l'.history, s.key) == HistoryAt(l.history, s.key) + [now])
  {
    var specs := ActiveSpecs(e, tool);
    SpecsDistinct(e, tool);
    AppliesOnly(specs, s);
    LeasedAt(specs, s.key);
    RecordAt(l.history, specs, now, s.key);
  }
}
