/** The streaming redactor: text arrives in chunks, a carry is held back so that no
    secret is split (mcp_router/core/redaction.py, class StreamingSecretRedactor). */
module StreamingRedaction {
  import opened Redaction

  function MaxLength(values: Secrets): (n: nat)
    ensures forall v <- values :: |v| <= n
  {
    if values == [] then 0
    else
      var n := MaxLength(values[1..]);
      if |values[0]| > n then |values[0]| else n
  }

  /** `s.find(v, from)`. */
  function Find(s: string, v: string, from: nat): (r: int)
    requires from <= |s|
    ensures r < 0 ==> forall i :: from <= i ==> !OccursAt(s, v, i)
    ensures r >= 0 ==> from <= r && OccursAt(s, v, r) && forall i :: from <= i < r ==> !OccursAt(s, v, i)
    decreases |s| - from
  {
    if OccursAt(s, v, from) then from
    else if from == |s| then -1
    else Find(s, v, from + 1)
  }

  /** No secret occurrence of `s` has characters on both sides of position `c`. */
  ghost predicate SafeCut(values: Secrets, s: string, c: int) {
    forall w, i :: w in values && i < c < i + |w| ==> !OccursAt(s, w, i)
  }

  ghost function GreatestSafeCut(values: Secrets, s: string, c: nat): (r: nat)
    ensures r <= c && SafeCut(values, s, r)
    ensures forall c' :: c' <= c && SafeCut(values, s, c') ==> c' <= r
  {
    if SafeCut(values, s, c) then c
    else
      assert c != 0;
      GreatestSafeCut(values, s, c - 1)
  }

  /** Redact what comes before the greatest safe cut and carry the rest; carry all of
      a text shorter than the longest secret. */
  ghost function CutAndCarry(values: Secrets, combined: string): (string, string)
    requires MaxLength(values) > 1
  {
    var keep := MaxLength(values) - 1;
    if |combined| <= keep then ("", combined)
    else
      var cut := GreatestSafeCut(values, combined, |combined| - keep);
      (Redact(values, combined[..cut]), combined[cut..])
  }

  /** What one `feed` returns, and the carry it leaves. */
  ghost function FeedSpec(values: Secrets, carry: string, text: string): (string, string) {
    if text == "" then ("", carry)
    else if MaxLength(values) <= 1 then (Redact(values, text), carry)
    else CutAndCarry(values, carry + text)
  }

  class StreamingSecretRedactor {
    const values: Secrets
    const maxLiteralLength: nat
    var carry: string

    ghost predicate Valid() {
      maxLiteralLength == MaxLength(values)
    }

    constructor (values: Secrets)
      ensures Valid() && this.values == values && carry == ""
    {
      this.values := values;
      maxLiteralLength := MaxLength(values);
      carry := "";
    }

    /** `redact_known_secrets` of the redactor this stream was made from. */
    method RedactKnownSecrets(text: string) returns (output: string)
      ensures output == Redact(values, text)
    {
      output := text;
      for i := 0 to |values|
        invariant Redact(values[i..], output) == Redact(values, text)
      {
        output := Replace(output, values[i], PLACEHOLDER);
        assert values[i..][1..] == values[i + 1..];
      }
    }

    /** The start of the leftmost secret occurrence across `cutoff`, or `cutoff` itself. */
    method Lowered(combined: string, cutoff: nat) returns (adjusted: nat)
      requires cutoff <= |combined|
      ensures adjusted <= cutoff
      ensures forall w, i :: w in values && i < cutoff < i + |w| && OccursAt(combined, w, i) ==> adjusted <= i
      ensures adjusted == cutoff || exists w ::
        w in values && adjusted < cutoff < adjusted + |w| && OccursAt(combined, w, adjusted)
    {
      adjusted := cutoff;
      for k := 0 to |values|
        invariant adjusted <= cutoff
        invariant forall w, i :: w in values[..k] && i < cutoff < i + |w| && OccursAt(combined, w, i) ==> adjusted <= i
        invariant adjusted == cutoff || exists w ::
          w in values && adjusted < cutoff < adjusted + |w| && OccursAt(combined, w, adjusted)
      {
        var value := values[k];
        var start := Find(combined, value, 0);
        while start >= 0
          invariant start >= 0 ==> OccursAt(combined, value, start)
          invariant adjusted <= cutoff
          invariant forall w, i ::
            w in values[..k] && i < cutoff < i + |w| && OccursAt(combined, w, i) ==> adjusted <= i
          invariant forall i :: i < cutoff < i + |value| && OccursAt(combined, value, i) ==>
            adjusted <= i || (0 <= start <= i)
          invariant adjusted == cutoff || exists w ::
            w in values && adjusted < cutoff < adjusted + |w| && OccursAt(combined, w, adjusted)
          decreases if start < 0 then 0 else |combined| - start
        {
          if start < cutoff < start + |value| && start < adjusted {
            adjusted := start;
          }
          start := Find(combined, value, start + 1);
        }
        assert values[..k + 1] == values[..k] + [value];
      }
    }

    method ChooseCutoff(combined: string, keep: nat) returns (cutoff: nat)
      requires keep <= |combined|
      ensures cutoff == GreatestSafeCut(values, combined, |combined| - keep)
    {
      cutoff := |combined| - keep;
      while true
        invariant cutoff <= |combined| - keep
        invariant forall c :: c <= |combined| - keep && SafeCut(values, combined, c) ==> c <= cutoff
        decreases cutoff
      {
        var adjusted := Lowered(combined, cutoff);
        if adjusted == cutoff {
          break;
        }
        cutoff := adjusted;
      }
      assert SafeCut(values, combined, cutoff);
    }

    method Feed(text: string) returns (output: string)
      requires Valid()
      modifies `carry
      ensures (output, carry) == FeedSpec(values, old(carry), text)
    {
      if text == "" {
        output := "";
      } else if maxLiteralLength <= 1 {
        output := RedactKnownSecrets(text);
      } else {
        output := FeedCombined(carry + text);
      }
    }

    method FeedCombined(combined: string) returns (output: string)
      requires Valid() && maxLiteralLength > 1
      modifies `carry
      ensures (output, carry) == CutAndCarry(values, combined)
    {
      var keep := maxLiteralLength - 1;
      if |combined| <= keep {
        carry := combined;
        return "";
      }
      var cutoff := ChooseCutoff(combined, keep);
      output := RedactKnownSecrets(combined[..cutoff]);
      carry := combined[cutoff..];
    }

    method Finish() returns (output: string)
      modifies `carry
      ensures output == Redact(values, old(carry)) && carry == ""
    {
      output := RedactKnownSecrets(carry);
      carry := "";
    }
  }

  // ------------------------------------------- streaming agrees with whole text

  function Concat(chunks: seq<string>): string {
    if chunks == [] then "" else chunks[0] + Concat(chunks[1..])
  }

  /** Everything a stream emits from the given carry on: the feeds, then `finish`. */
  ghost function StreamOutput(values: Secrets, carry: string, chunks: seq<string>): string
    decreases |chunks|
  {
    if chunks == [] then Redact(values, carry)
    else
      var (out, carry') := FeedSpec(values, carry, chunks[0]);
      out + StreamOutput(values, carry', chunks[1..])
  }

  /** `done` has been emitted for good: whatever follows, no secret crosses from it into the carry. */
  ghost predicate Settled(values: Secrets, done: string, carry: string) {
    if MaxLength(values) <= 1 then carry == ""
    else
      && (done != "" ==> |carry| >= MaxLength(values) - 1)
      && forall w <- values :: NoStraddle(done, carry, w)
  }

  lemma SettledWhateverFollows(values: Secrets, done: string, carry: string, more: string)
    requires Settled(values, done, carry)
    ensures forall w <- values :: NoStraddle(done, carry + more, w)
  {
    forall w, i | w in values && 0 <= i < |done| < i + |w| ensures !OccursAt(done + (carry + more), w, i) {
      if |done + carry| >= i + |w| {
        assert !OccursAt(done + carry, w, i);
        assert (done + (carry + more))[i..i + |w|] == (done + carry)[i..i + |w|];
      }
    }
  }

  lemma SettledAfterCut(values: Secrets, done: string, combined: string, cut: nat)
    requires MaxLength(values) > 1 && cut + MaxLength(values) - 1 <= |combined|
    requires forall w <- values :: NoStraddle(done, combined, w)
    requires SafeCut(values, combined, cut)
    ensures Settled(values, done + combined[..cut], combined[cut..])
    ensures forall w <- values :: NoStraddle(done, combined[..cut], w)
  {
    forall w | w in values
      ensures NoStraddle(done + combined[..cut], combined[cut..], w) && NoStraddle(done, combined[..cut], w)
    {
      SafeAfterCut(done, combined, cut, w);
    }
  }

  lemma SafeAfterCut(done: string, combined: string, cut: nat, w: string)
    requires cut <= |combined| && NoStraddle(done, combined, w)
    requires forall i :: i < cut < i + |w| ==> !OccursAt(combined, w, i)
    ensures NoStraddle(done + combined[..cut], combined[cut..], w)
    ensures NoStraddle(done, combined[..cut], w)
  {
    var whole, left := done + combined, done + combined[..cut];
    assert left + combined[cut..] == whole && whole[|done|..] == combined && whole[..|left|] == left;
    forall i | 0 <= i < |left| < i + |w| ensures !OccursAt(whole, w, i) {
      if |done| <= i {
        assert !OccursAt(combined, w, i - |done|);
        OccursInEnd(whole, w, |done|, i - |done|);
      }
    }
    forall i | 0 <= i < |done| < i + |w| ensures !OccursAt(left, w, i) {
      assert !OccursAt(whole, w, i);
      assert whole[0..|left|] == left;
      OccursInPart(whole, w, 0, |left|, i);
    }
  }

  /** One feed: what has been emitted stays the redaction of what has been settled. */
  lemma FeedSettles(values: Secrets, done: string, carry: string, text: string) returns (part: string)
    requires NoneReachesOut(values) && Settled(values, done, carry)
    ensures part + FeedSpec(values, carry, text).1 == carry + text
    ensures Settled(values, done + part, FeedSpec(values, carry, text).1)
    ensures Redact(values, done + part) == Redact(values, done) + FeedSpec(values, carry, text).0
  {
    SettledWhateverFollows(values, done, carry, text);
    if text == "" {
      part := "";
      assert done + part == done && part + carry == carry + text;
    } else if MaxLength(values) <= 1 {
      part := text;
      RedactSplits(values, done, text);
    } else {
      part := CutSettles(values, done, carry, carry + text);
    }
  }

  lemma CutSettles(values: Secrets, done: string, carry: string, combined: string) returns (part: string)
    requires MaxLength(values) > 1 && |carry| <= |combined| && Settled(values, done, carry)
    requires NoneReachesOut(values) && forall w <- values :: NoStraddle(done, combined, w)
    ensures part + CutAndCarry(values, combined).1 == combined
    ensures Settled(values, done + part, CutAndCarry(values, combined).1)
    ensures Redact(values, done + part) == Redact(values, done) + CutAndCarry(values, combined).0
  {
    var keep := MaxLength(values) - 1;
    if |combined| <= keep {
      part := "";
      assert CutAndCarry(values, combined) == ("", combined);
      NothingAdded(done, combined, Redact(values, done));
    } else {
      var cut := GreatestSafeCut(values, combined, |combined| - keep);
      part := combined[..cut];
      assert CutAndCarry(values, combined) == (Redact(values, part), combined[cut..]);
      SettledAfterCut(values, done, combined, cut);
      CutPointRedacts(values, done, combined, cut);
    }
  }

  lemma NothingAdded(a: string, b: string, c: string)
    ensures a + "" == a && "" + b == b && c + "" == c
  {
  }

  lemma CutPointRedacts(values: Secrets, done: string, combined: string, cut: nat)
    requires cut <= |combined| && NoneReachesOut(values)
    requires forall w <- values :: NoStraddle(done, combined[..cut], w)
    ensures Redact(values, done + combined[..cut]) == Redact(values, done) + Redact(values, combined[..cut])
    ensures combined[..cut] + combined[cut..] == combined
  {
    RedactSplits(values, done, combined[..cut]);
  }

  lemma {:induction false} StreamFromSettled(values: Secrets, done: string, carry: string, chunks: seq<string>)
    requires NoneReachesOut(values) && Settled(values, done, carry)
    ensures Redact(values, done) + StreamOutput(values, carry, chunks) == Redact(values, done + carry + Concat(chunks))
    decreases |chunks|
  {
    if chunks == [] {
      RedactSplits(values, done, carry);
      assert done + carry + "" == done + carry;
    } else {
      var part := FeedSettles(values, done, carry, chunks[0]);
      var (out, carry') := FeedSpec(values, carry, chunks[0]);
      var rest, later := Concat(chunks[1..]), StreamOutput(values, carry', chunks[1..]);
      StreamFromSettled(values, done + part, carry', chunks[1..]);
      Reassociate(Redact(values, done), out, later);
      Regroup(done, part, carry', carry, chunks[0], rest);
    }
  }

  lemma Reassociate(a: string, b: string, c: string)
    ensures a + (b + c) == (a + b) + c
  {
  }

  lemma Regroup(done: string, part: string, carry': string, carry: string, text: string, rest: string)
    requires part + carry' == carry + text
    ensures done + part + carry' + rest == done + carry + (text + rest)
  {
    assert done + part + carry' == done + (part + carry') == done + carry + text;
    assert done + carry + text + rest == done + carry + (text + rest);
  }

  /** For every chunking, the stream emits the redaction of the whole text. */
  lemma {:induction false} StreamingAgrees(values: Secrets, chunks: seq<string>)
    requires NoneReachesOut(values)
    ensures StreamOutput(values, "", chunks) == Redact(values, Concat(chunks))
  {
    assert Redact(values, "") == "" by { RedactEmpty(values); }
    StreamFromSettled(values, "", "", chunks);
    assert "" + "" + Concat(chunks) == Concat(chunks);
  }

  /** In particular for every list of secrets without brackets. */
  lemma {:induction false} BracketFreeAgrees(values: Secrets, chunks: seq<string>)
    requires forall v <- values :: BracketFree(v)
    ensures StreamOutput(values, "", chunks) == Redact(values, Concat(chunks))
  {
    forall i | 1 <= i < |values| ensures !ReachesOut(PLACEHOLDER, values[i]) {
      assert BracketFree(values[i]);
      OuterBracketsStay(values[i]);
    }
    StreamingAgrees(values, chunks);
  }

  lemma {:induction false} RedactEmpty(values: Secrets)
    ensures Redact(values, "") == ""
    decreases |values|
  {
    if values != [] {
      RedactEmpty(values[1..]);
    }
  }

  lemma StreamStep(values: Secrets, carry: string, chunks: seq<string>, i: nat)
    requires i < |chunks|
    ensures StreamOutput(values, carry, chunks[i..]) ==
      FeedSpec(values, carry, chunks[i]).0 + StreamOutput(values, FeedSpec(values, carry, chunks[i]).1, chunks[i + 1..])
  {
    assert chunks[i..][0] == chunks[i] && chunks[i..][1..] == chunks[i + 1..];
  }

  /** The text branch of a proxied streaming body: feed every chunk, then finish. */
  method RedactedBody(values: Secrets, chunks: seq<string>) returns (body: string)
    ensures body == StreamOutput(values, "", chunks)
    ensures NoneReachesOut(values) ==> body == Redact(values, Concat(chunks))
  {
    var stream := new StreamingSecretRedactor(values);
    body := "";
    for i := 0 to |chunks|
      invariant stream.Valid() && stream.values == values && fresh(stream)
      invariant body + StreamOutput(values, stream.carry, chunks[i..]) == StreamOutput(values, "", chunks)
    {
      StreamStep(values, stream.carry, chunks, i);
      var redacted := stream.Feed(chunks[i]);
      Reassociate(body, redacted, StreamOutput(values, stream.carry, chunks[i + 1..]));
      body := body + redacted;
    }
    var tail := stream.Finish();
    body := body + tail;
    if NoneReachesOut(values) { StreamingAgrees(values, chunks); }
  }

  // ------------------------------------------ the condition is exact for a secret

  /** `c` occurs in neither a secret nor the placeholder. */
  predicate Unused(c: char, w: string) {
    c !in w && c !in PLACEHOLDER
  }

  /** A secret streams well behind every secret that is at least as long, in every chunking,
      exactly when it cannot reach out of a placeholder. */
  lemma {:induction false} StreamsBehindAnyIff(w: Secret, c: char, d: char)
    requires Unused(c, w) && Unused(d, w) && c != d
    ensures (forall v: Secret, chunks: seq<string> :: |v| >= |w| && v != w ==>
               StreamOutput([v, w], "", chunks) == Redact([v, w], Concat(chunks)))
      <==> !ReachesOut(PLACEHOLDER, w)
  {
    if ReachesOut(PLACEHOLDER, w) {
      var v, chunks := ReachingOutDiverges(w, c, d);
      assert |v| >= |w| && v != w;
    } else {
      forall v: Secret, chunks: seq<string>
        ensures StreamOutput([v, w], "", chunks) == Redact([v, w], Concat(chunks))
      {
        StreamingAgrees([v, w], chunks);
      }
    }
  }

  lemma {:induction false} ReachingOutDiverges(w: Secret, c: char, d: char) returns (v: Secret, chunks: seq<string>)
    requires Unused(c, w) && Unused(d, w) && c != d && ReachesOut(PLACEHOLDER, w)
    ensures |v| >= |w| && v != w
    ensures StreamOutput([v, w], "", chunks) != Redact([v, w], Concat(chunks))
  {
    var p :| 0 < p < |w| && (FitsEnd(PLACEHOLDER, w[..p]) || FitsStart(PLACEHOLDER, w[p..]));
    v := Fill(c, |w|);
    assert v[0] == c;
    if FitsEnd(PLACEHOLDER, w[..p]) {
      chunks := EndDiverges(w, p, v, c, d);
    } else {
      chunks := StartDiverges(w, p, v, c);
    }
  }

  function Fill(c: char, n: nat): string {
    seq(n, i => c)
  }

  /** The placeholder of `v` and what follows it hold `w`; the stream is cut between the two. */
  lemma {:induction false} EndDiverges(w: Secret, p: nat, v: Secret, c: char, d: char) returns (chunks: seq<string>)
    requires Unused(c, w) && Unused(d, w) && c != d && 0 < p < |w| && FitsEnd(PLACEHOLDER, w[..p]) && v == Fill(c, |w|)
    ensures StreamOutput([v, w], "", chunks) != Redact([v, w], Concat(chunks))
  {
    var x, y := Before(w, p, 10), w[p..];
    var z := y + Fill(d, p - 1);
    assert c !in x && c !in z;
    PlaceholderBrackets();
    FillerIsPlain(w, y, d, p - 1);
    FrontIsPlain(w, p, PLACEHOLDER);
    chunks := [x + v + z];
    StreamOfOne(v, w, x, z, c);
    WholeText(v, w, x, z, c);
    assert Concat(chunks) == x + v + z;
    assert Occurs(x + PLACEHOLDER + z, w) by { EndHolds(w, p, PLACEHOLDER, Fill(d, p - 1)); }
    ReplaceChanges(x + PLACEHOLDER + z, w, PLACEHOLDER);
  }

  /** What precedes the placeholder of `v` and the placeholder hold `w`; the stream is cut between the two. */
  lemma {:induction false} StartDiverges(w: Secret, p: nat, v: Secret, c: char) returns (chunks: seq<string>)
    requires Unused(c, w) && 0 < p < |w| && FitsStart(PLACEHOLDER, w[p..]) && v == Fill(c, |w|)
    ensures StreamOutput([v, w], "", chunks) != Redact([v, w], Concat(chunks))
  {
    var x, z := w[..p], Behind(w, p, 10);
    assert c !in x && c !in z;
    PlaceholderBrackets();
    BackIsPlain(w, p, PLACEHOLDER);
    StartHolds(w, p, PLACEHOLDER);
    chunks := [x + v[..|v| - 1], [c] + z];
    CutBeforeDiverges(v, w, x, z, c, x + v[..|v| - 1], [c] + z);
  }

  lemma CutBeforeDiverges(v: Secret, w: Secret, x: string, z: string, c: char, a: string, b: string)
    requires v == Fill(c, |w|) && c !in x && c !in z && c !in w && 0 < |x| < |w| && |z| + 1 < |w|
    requires !Occurs(PLACEHOLDER + z, w) && Occurs(x + PLACEHOLDER + z, w) && w != PLACEHOLDER
    requires a == x + v[..|v| - 1] && b == [c] + z
    ensures StreamOutput([v, w], "", [a, b]) != Redact([v, w], Concat([a, b]))
  {
    CutBeforeStream(v, w, x, z, c, a, b);
    CutBeforeWhole(v, w, x, z, c, a, b);
    ReplaceChanges(x + PLACEHOLDER + z, w, PLACEHOLDER);
  }

  lemma CutBeforeStream(v: Secret, w: Secret, x: string, z: string, c: char, a: string, b: string)
    requires v == Fill(c, |w|) && c !in x && c !in z && c !in w && 0 < |x| < |w| && |z| + 1 < |w|
    requires !Occurs(PLACEHOLDER + z, w) && a == x + v[..|v| - 1] && b == [c] + z
    ensures StreamOutput([v, w], "", [a, b]) == x + PLACEHOLDER + z
  {
    StreamOfTwo(v, w, x, z, c, a, b);
    WholeBehind(v, w, z, c);
    PutTogether(x, PLACEHOLDER, z);
  }

  lemma PutTogether(x: string, r: string, z: string)
    ensures x + ("" + (r + z)) == x + r + z
  {
  }

  lemma CutBeforeWhole(v: Secret, w: Secret, x: string, z: string, c: char, a: string, b: string)
    requires v == Fill(c, |w|) && c !in x && c !in z && a == x + v[..|v| - 1] && b == [c] + z
    ensures Redact([v, w], Concat([a, b])) == Replace(x + PLACEHOLDER + z, w, PLACEHOLDER)
  {
    ConcatTwo(a, b);
    LastOfFill(v, w, x, z, c);
    WholeText(v, w, x, z, c);
  }

  lemma LastOfFill(v: string, w: Secret, x: string, z: string, c: char)
    requires v == Fill(c, |w|)
    ensures x + v[..|v| - 1] + ([c] + z) == x + v + z
  {
    assert v == v[..|v| - 1] + [c];
  }

  /** Brackets only at the two ends. */
  predicate Shaped(r: string) {
    |r| == 10 && forall k :: 0 <= k < |r| ==> (r[k] == '[' <==> k == 0) && (r[k] == ']' <==> k == |r| - 1)
  }

  lemma PlaceholderBrackets()
    ensures Shaped(PLACEHOLDER)
  {
  }

  /** What of `w[..p]` precedes a replacement of length `n` at its end. */
  function Before(w: string, p: nat, n: nat): string
    requires p <= |w|
  {
    if p <= n then "" else w[..p - n]
  }

  /** What of `w[p..]` follows a replacement of length `n` at its start. */
  function Behind(w: string, p: nat, n: nat): string
    requires p <= |w|
  {
    if |w| - p <= n then "" else w[p + n..]
  }

  lemma FrontIsPlain(w: string, p: nat, r: string)
    requires Shaped(r) && 0 < p < |w| && FitsEnd(r, w[..p])
    ensures w != r && !Occurs(Before(w, p, |r|) + r, w)
  {
    assert w[..p][p - 1] == w[p - 1] == ']';
    if p <= |r| {
      assert "" + r == r;
      forall i | OccursAt(r, w, i) ensures false { AroundCut(r, w, i, i + p); }
    }
  }

  lemma EndHolds(w: string, p: nat, r: string, pad: string)
    requires Shaped(r) && 0 < p < |w| && FitsEnd(r, w[..p])
    ensures Occurs(Before(w, p, |r|) + r + (w[p..] + pad), w)
  {
    var s := Before(w, p, |r|) + r + (w[p..] + pad);
    var at := if p <= |r| then |r| - p else 0;
    assert w == w[..p] + w[p..];
    if p > |r| {
      assert w[..p] == w[..p][..p - |r|] + w[..p][p - |r|..] == Before(w, p, |r|) + r;
    } else {
      assert s == r + (w[p..] + pad) && w[..p] == r[at..];
    }
    assert s[at..at + |w|] == w;
    assert OccursAt(s, w, at);
  }

  lemma BackIsPlain(w: string, p: nat, r: string)
    requires Shaped(r) && 0 < p < |w| && FitsStart(r, w[p..])
    ensures w != r && !Occurs(r + Behind(w, p, |r|), w)
  {
    assert w[p..][0] == w[p] == '[';
    if |w| - p <= |r| {
      assert r + "" == r;
      forall i | OccursAt(r, w, i) ensures false { AroundCut(r, w, i, i + p); }
    }
  }

  lemma StartHolds(w: string, p: nat, r: string)
    requires Shaped(r) && 0 < p < |w| && FitsStart(r, w[p..])
    ensures Occurs(w[..p] + r + Behind(w, p, |r|), w)
  {
    var s := w[..p] + r + Behind(w, p, |r|);
    assert w == w[..p] + w[p..];
    if |w| - p > |r| {
      assert w[p..] == w[p..][..|r|] + w[p..][|r|..] == r + Behind(w, p, |r|);
    } else {
      assert s == w[..p] + r;
    }
    assert s[0..|w|] == w;
    assert OccursAt(s, w, 0);
  }

  lemma FillerIsPlain(w: string, y: string, d: char, k: nat)
    requires |y| < |w| && d !in w
    ensures !Occurs(y + Fill(d, k), w)
  {
    var s := y + Fill(d, k);
    assert forall j :: |y| <= j < |s| ==> s[j] == d;
    forall i | OccursAt(s, w, i) ensures false { LastCharacter(s, w, i); }
  }

  /** The two characters of an occurrence beside a cut through it. */
  lemma AroundCut(s: string, u: string, i: int, cut: int)
    requires OccursAt(s, u, i) && i < cut < i + |u|
    ensures u[cut - i] == s[cut] && u[cut - 1 - i] == s[cut - 1] && u[cut - i] in u && u[cut - 1 - i] in u
  {
    assert s[i..i + |u|][cut - i] == s[cut] && s[i..i + |u|][cut - 1 - i] == s[cut - 1];
  }

  lemma LastCharacter(s: string, u: string, i: int)
    requires OccursAt(s, u, i) && u != ""
    ensures u[|u| - 1] == s[i + |u| - 1] && u[|u| - 1] in u
  {
    assert s[i..i + |u|][|u| - 1] == s[i + |u| - 1];
  }

  lemma TwoSecrets(v: string, w: string, s: string)
    requires v != "" && w != ""
    ensures Redact([v, w], s) == Replace(Replace(s, v, PLACEHOLDER), w, PLACEHOLDER)
  {
    var values: Secrets, t := [v, w], Replace(s, v, PLACEHOLDER);
    assert values[1..] == [w] && [w][1..] == [];
    assert Redact([], Replace(t, w, PLACEHOLDER)) == Replace(t, w, PLACEHOLDER);
    assert Redact([w], t) == Replace(t, w, PLACEHOLDER);
  }

  lemma NoneWithout(s: string, v: string)
    requires v != "" && v[0] !in s
    ensures !Occurs(s, v)
  {
    forall i | OccursAt(s, v, i) ensures false {
      OccursChars(s, v, i);
    }
  }

  lemma ReplaceAtStart(v: string, z: string, r: string)
    requires v != "" && v[0] !in z
    ensures Replace(v + z, v, r) == r + z
  {
    assert (v + z)[0..|v|] == v && (v + z)[|v|..] == z;
    NoneWithout(z, v);
    ReplaceAbsent(z, v, r);
  }

  lemma SkipOne(a: char, s: string, v: string, r: string)
    requires v != "" && v[0] != a
    ensures Replace([a] + s, v, r) == [a] + Replace(s, v, r)
  {
    assert ([a] + s)[1..] == s;
    assert 0 + |v| <= |[a] + s| ==> ([a] + s)[0..|v|][0] == a;
  }

  lemma HeadOfThree(x: string, v: string, z: string)
    requires x != ""
    ensures x + v + z == [x[0]] + (x[1..] + v + z)
  {
  }

  /** The only occurrence of `v` is the one that was put there. */
  lemma {:induction false} ReplaceOne(x: string, v: string, z: string, r: string)
    requires v != "" && v[0] !in x && v[0] !in z
    ensures Replace(x + v + z, v, r) == x + r + z
    decreases |x|
  {
    if x == "" {
      ReplaceAtStart(v, z, r);
      assert x + v + z == v + z && x + r + z == r + z;
    } else {
      SkipOne(x[0], x[1..] + v + z, v, r);
      ReplaceOne(x[1..], v, z, r);
      HeadOfThree(x, v, z);
      HeadOfThree(x, r, z);
    }
  }

  lemma WholeText(v: Secret, w: Secret, x: string, z: string, c: char)
    requires v == Fill(c, |w|) && c !in x && c !in z
    ensures Redact([v, w], x + v + z) == Replace(x + PLACEHOLDER + z, w, PLACEHOLDER)
  {
    TwoSecrets(v, w, x + v + z);
    ReplaceOne(x, v, z, PLACEHOLDER);
  }

  lemma PlainStays(v: Secret, w: Secret, s: string)
    requires v[0] !in s && !Occurs(s, w)
    ensures Redact([v, w], s) == s
  {
    TwoSecrets(v, w, s);
    NoneWithout(s, v);
    ReplaceAbsent(s, v, PLACEHOLDER);
    ReplaceAbsent(s, w, PLACEHOLDER);
  }

  lemma LongestOfTwo(v: Secret, w: Secret)
    requires |v| == |w|
    ensures MaxLength([v, w]) == |v|
  {
    var values: Secrets := [v, w];
    assert values[1..] == [w] && MaxLength([w]) == |w|;
  }

  /** A cut beside the one occurrence of `v` crosses neither secret. */
  lemma CutBeside(v: Secret, w: Secret, x: string, z: string, c: char)
    requires v == Fill(c, |w|) && c !in x && c !in z && c !in w
    ensures SafeCut([v, w], x + v + z, |x| + |v|)
  {
    var s, cut := x + v + z, |x| + |v|;
    assert s[cut - 1] == c && (z != "" ==> s[cut] == z[0] && z[0] in z);
    forall u, i | u in [v, w] && i < cut < i + |u| && OccursAt(s, u, i) ensures false { AroundCut(s, u, i, cut); }
  }

  lemma StreamOfOne(v: Secret, w: Secret, x: string, z: string, c: char)
    requires v == Fill(c, |w|) && c !in x && c !in z && c !in w && |w| > 1 && |z| == |w| - 1
    requires !Occurs(z, w) && !Occurs(x + PLACEHOLDER, w)
    ensures StreamOutput([v, w], "", [x + v + z]) == x + PLACEHOLDER + z
  {
    var values: Secrets, s, cut := [v, w], x + v + z, |x| + |v|;
    LongestOfTwo(v, w);
    CutBeside(v, w, x, z, c);
    var chunks := [s];
    assert "" + s == s && chunks[1..] == [];
    assert s[..cut] == x + v && s[cut..] == z;
    assert FeedSpec(values, "", s) == (Redact(values, x + v), z);
    WholeText(v, w, x, "", c);
    assert x + v + "" == x + v && x + PLACEHOLDER + "" == x + PLACEHOLDER;
    ReplaceAbsent(x + PLACEHOLDER, w, PLACEHOLDER);
    PlainStays(v, w, z);
    assert StreamOutput(values, z, []) == Redact(values, z);
  }

  lemma OneFeed(values: Secrets, carry: string, b: string, out: string, carry': string)
    requires FeedSpec(values, carry, b) == (out, carry')
    ensures StreamOutput(values, carry, [b]) == out + Redact(values, carry')
  {
    var chunks := [b];
    assert chunks[1..] == [];
    assert StreamOutput(values, carry', chunks[1..]) == Redact(values, carry');
  }

  lemma TwoFeeds(values: Secrets, a: string, b: string, out: string, carry: string, out': string, carry': string)
    requires FeedSpec(values, "", a) == (out, carry) && FeedSpec(values, carry, b) == (out', carry')
    ensures StreamOutput(values, "", [a, b]) == out + (out' + Redact(values, carry'))
  {
    var chunks := [a, b];
    assert chunks[1..] == [b];
    OneFeed(values, carry, b, out', carry');
  }

  lemma ConcatTwo(a: string, b: string)
    ensures Concat([a, b]) == a + b
  {
    var chunks := [a, b];
    var later := chunks[1..];
    assert later == [b] && later[1..] == [];
    assert Concat(later) == b + "" == b;
  }

  lemma StreamOfTwo(v: Secret, w: Secret, x: string, z: string, c: char, a: string, b: string)
    requires v == Fill(c, |w|) && c !in x && c !in z && c !in w && 0 < |x| < |w| && |z| + 1 < |w|
    requires a == x + v[..|v| - 1] && b == [c] + z
    ensures StreamOutput([v, w], "", [a, b]) == x + ("" + Redact([v, w], v + z))
  {
    FirstFeed(v, w, x, c);
    SecondFeed(v, w, z, c);
    TwoFeeds([v, w], a, b, x, v[..|v| - 1], "", v + z);
  }

  lemma WholeBehind(v: Secret, w: Secret, z: string, c: char)
    requires v == Fill(c, |w|) && c !in z && !Occurs(PLACEHOLDER + z, w)
    ensures Redact([v, w], v + z) == PLACEHOLDER + z
  {
    WholeText(v, w, "", z, c);
    assert "" + v + z == v + z && "" + PLACEHOLDER + z == PLACEHOLDER + z;
    ReplaceAbsent(PLACEHOLDER + z, w, PLACEHOLDER);
  }

  /** The start of `v` is held back and nothing else. */
  lemma FirstFeed(v: Secret, w: Secret, x: string, c: char)
    requires v == Fill(c, |w|) && c !in x && c !in w && 0 < |x| < |w|
    ensures FeedSpec([v, w], "", x + v[..|v| - 1]) == (x, v[..|v| - 1])
  {
    var values: Secrets, most := [v, w], v[..|v| - 1];
    var s := x + most;
    LongestOfTwo(v, w);
    assert "" + s == s && s[..|x|] == x && s[|x|..] == most;
    assert SafeCut(values, s, |x|) by {
      assert s[|x| - 1] == x[|x| - 1] && x[|x| - 1] in x && s[|x|] == c;
      forall u, i | u in [v, w] && i < |x| < i + |u| && OccursAt(s, u, i) ensures false { AroundCut(s, u, i, |x|); }
    }
    PlainStays(v, w, x);
  }

  /** Then all of `v` and what follows it: every cut would cross `v`. */
  lemma SecondFeed(v: Secret, w: Secret, z: string, c: char)
    requires v == Fill(c, |w|) && |z| + 1 < |w|
    ensures FeedSpec([v, w], v[..|v| - 1], [c] + z) == ("", v + z)
  {
    var values: Secrets, s := [v, w], v[..|v| - 1] + ([c] + z);
    LongestOfTwo(v, w);
    assert s == v + z;
    forall k | 0 < k <= |z| + 1 ensures !SafeCut(values, s, k) {
      assert OccursAt(s, v, 0) && v in values;
    }
    assert GreatestSafeCut(values, s, |z| + 1) == 0;
    RedactEmpty(values);
    assert s[..0] == "" && s[0..] == s;
  }

  lemma {:induction false} ReplaceLength(s: string, w: string, r: string)
    requires w != ""
    ensures |w| < |r| ==> |Replace(s, w, r)| >= |s| && (Occurs(s, w) ==> |Replace(s, w, r)| > |s|)
    ensures |w| > |r| ==> |Replace(s, w, r)| <= |s| && (Occurs(s, w) ==> |Replace(s, w, r)| < |s|)
    decreases |s|
  {
    if s != "" {
      ReplaceLength(s[Stride(s, w)..], w, r);
      if !OccursAt(s, w, 0) && Occurs(s, w) {
        var i :| OccursAt(s, w, i);
        OccursInEnd(s, w, 1, i - 1);
      }
    }
  }

  /** Replacing a word that occurs changes the text, unless it is replaced by itself. */
  lemma {:induction false} ReplaceChanges(s: string, w: string, r: string)
    requires w != "" && w != r && Occurs(s, w)
    ensures Replace(s, w, r) != s
    decreases |s|
  {
    ReplaceLength(s, w, r);
    if |w| == |r| {
      var out := Replace(s, w, r);
      if OccursAt(s, w, 0) {
        assert out[..|r|] == r && s[..|w|] == w;
      } else {
        var i :| OccursAt(s, w, i);
        OccursInEnd(s, w, 1, i - 1);
        ReplaceChanges(s[1..], w, r);
        assert out[1..] == Replace(s[1..], w, r);
      }
    }
  }

  // -------------------------------------------------------- how much is held back

  /** Overlapping secret occurrences of `s` contain one another. */
  ghost predicate NestedOnly(values: Secrets, s: string) {
    forall v, w, i, j :: v in values && w in values && OccursAt(s, v, i) && OccursAt(s, w, j) ==>
      i < j < i + |v| ==> j + |w| <= i + |v|
  }

  ghost predicate Crosses(values: Secrets, s: string, c: int, i: int) {
    exists w :: w in values && i < c < i + |w| && OccursAt(s, w, i)
  }

  /** With nested overlaps only, the cut moves down by less than one secret. */
  lemma CutStaysClose(values: Secrets, s: string, c: nat)
    requires NestedOnly(values, s)
    ensures c < GreatestSafeCut(values, s, c) + MaxLength(values) || c == GreatestSafeCut(values, s, c)
  {
    if !SafeCut(values, s, c) {
      var i := LeastCrossing(values, s, c, 0);
      var v :| v in values && i < c < i + |v| && OccursAt(s, v, i);
      forall w, j | w in values && j < i < j + |w| && OccursAt(s, w, j) ensures Crosses(values, s, c, j) {
        assert i + |v| <= j + |w|;
      }
      assert SafeCut(values, s, i);
    }
  }

  lemma {:induction false} LeastCrossing(values: Secrets, s: string, c: nat, from: nat) returns (i: nat)
    requires !SafeCut(values, s, c) && from <= c
    requires forall j :: j < from ==> !Crosses(values, s, c, j)
    ensures Crosses(values, s, c, i) && forall j :: j < i ==> !Crosses(values, s, c, j)
    decreases c - from
  {
    if Crosses(values, s, c, from) {
      i := from;
    } else {
      assert from < c by {
        if from == c {
          var w, j :| w in values && j < c < j + |w| && OccursAt(s, w, j);
          assert Crosses(values, s, c, j);
        }
      }
      i := LeastCrossing(values, s, c, from + 1);
    }
  }

  /** Few enough characters are held back: less than two secrets' worth. */
  ghost predicate HeldShort(values: Secrets, carry: string) {
    if MaxLength(values) <= 1 then carry == "" else |carry| <= 2 * (MaxLength(values) - 1)
  }

  lemma FeedHoldsShort(values: Secrets, carry: string, text: string)
    requires HeldShort(values, carry) && NestedOnly(values, carry + text)
    ensures HeldShort(values, FeedSpec(values, carry, text).1)
  {
    var combined, keep := carry + text, MaxLength(values) - 1;
    if MaxLength(values) > 1 && |combined| > keep {
      CutStaysClose(values, combined, |combined| - keep);
    }
  }

  /** What the chunks leave in the carry. */
  ghost function CarryAfter(values: Secrets, carry: string, chunks: seq<string>): string
    decreases |chunks|
  {
    if chunks == [] then carry else CarryAfter(values, FeedSpec(values, carry, chunks[0]).1, chunks[1..])
  }

  lemma NestedInside(values: Secrets, a: string, b: string, c: string)
    requires NestedOnly(values, a + b + c)
    ensures NestedOnly(values, b)
  {
    forall v, w, i, j | v in values && w in values && OccursAt(b, v, i) && OccursAt(b, w, j) && i < j < i + |v|
      ensures j + |w| <= i + |v|
    {
      OccursInside(a, b, c, v, i);
      OccursInside(a, b, c, w, j);
    }
  }

  lemma OccursInside(a: string, b: string, c: string, w: string, i: int)
    requires OccursAt(b, w, i)
    ensures OccursAt(a + b + c, w, |a| + i)
  {
    assert (a + b + c)[|a| + i..|a| + i + |w|] == b[i..i + |w|];
  }

  /** What is carried is the end of what has been fed. */
  lemma FeedKeepsEnd(values: Secrets, carry: string, text: string) returns (gone: string)
    requires MaxLength(values) <= 1 ==> carry == ""
    ensures gone + FeedSpec(values, carry, text).1 == carry + text
  {
    gone := (carry + text)[..|carry + text| - |FeedSpec(values, carry, text).1|];
    assert text == "" ==> carry + text == carry;
  }

  lemma {:induction false} CarryStaysShort(values: Secrets, carry: string, chunks: seq<string>)
    requires HeldShort(values, carry) && NestedOnly(values, carry + Concat(chunks))
    ensures HeldShort(values, CarryAfter(values, carry, chunks))
    decreases |chunks|
  {
    if chunks != [] {
      FeedOfRun(values, carry, chunks[0], Concat(chunks[1..]));
      CarryStaysShort(values, FeedSpec(values, carry, chunks[0]).1, chunks[1..]);
    }
  }

  lemma FeedOfRun(values: Secrets, carry: string, text: string, rest: string)
    requires HeldShort(values, carry) && NestedOnly(values, carry + (text + rest))
    ensures HeldShort(values, FeedSpec(values, carry, text).1)
    ensures NestedOnly(values, FeedSpec(values, carry, text).1 + rest)
  {
    hide NestedOnly, FeedSpec;
    var carry', whole := FeedSpec(values, carry, text).1, carry + (text + rest);
    var gone := FeedKeepsEnd(values, carry, text);
    assert whole == "" + (carry + text) + rest;
    NestedInside(values, "", carry + text, rest);
    FeedHoldsShort(values, carry, text);
    assert whole == gone + (carry' + rest) + "";
    NestedInside(values, gone, carry' + rest, "");
  }

  /** At every moment of a stream, whatever the chunks: while overlapping occurrences in the text so far
      contain one another, at most 2 * (longest - 1) characters are held back. */
  lemma HeldBackBound(values: Secrets, chunks: seq<string>)
    requires NestedOnly(values, Concat(chunks))
    ensures MaxLength(values) <= 1 ==> CarryAfter(values, "", chunks) == ""
    ensures MaxLength(values) > 1 ==> |CarryAfter(values, "", chunks)| <= 2 * (MaxLength(values) - 1)
  {
    assert "" + Concat(chunks) == Concat(chunks);
    CarryStaysShort(values, "", chunks);
  }

  /** Without that condition there is no bound: of "abab...a" nothing is released. */
  lemma ChainedOverlapsHeldBack(n: nat)
    requires n > 0
    ensures FeedSpec(["aba"], "", Chain(n)) == ("", Chain(n))
  {
    var values: Secrets, text := ["aba"], Chain(n);
    assert MaxLength(values[1..]) == 0 && MaxLength(values) == 3 && "" + text == text;
    forall c | 0 < c <= 2 * n - 1 ensures !SafeCut(values, text, c) {
      ChainCutCrossed(n, c);
    }
    assert GreatestSafeCut(values, text, 2 * n - 1) == 0;
    RedactEmpty(values);
    assert text[..0] == "" && text[0..] == text;
  }

  function Chain(n: nat): string {
    seq(2 * n + 1, i => if i % 2 == 0 then 'a' else 'b')
  }

  lemma ChainCutCrossed(n: nat, c: int)
    requires 0 < c <= 2 * n - 1
    ensures !SafeCut(["aba"], Chain(n), c)
  {
    var k := (c - 1) / 2;
    var text := Chain(n);
    assert text[2 * k] == 'a' && text[2 * k + 1] == 'b' && text[2 * k + 2] == 'a';
    assert text[2 * k..2 * k + 3] == "aba";
    assert OccursAt(text, "aba", 2 * k);
    assert "aba" in ["aba"];
  }
}
