/** Known-secret redaction, on whole texts and on text that arrives in chunks
    (mcp_router/core/redaction.py). */
module Redaction {

  const PLACEHOLDER := "[REDACTED]"

  /** The word between the brackets of the placeholder. */
  const MARK := "REDACTED"

  /** A configured literal; empty values are dropped when a redactor is made. */
  type Secret = v: string | v != "" witness "x"

  type Secrets = seq<Secret>

  ghost predicate BracketFree(v: string) {
    '[' !in v && ']' !in v
  }

  predicate OccursAt(s: string, v: string, i: int) {
    0 <= i && i + |v| <= |s| && s[i..i + |v|] == v
  }

  ghost predicate Occurs(s: string, v: string) {
    exists i :: OccursAt(s, v, i)
  }

  // ---------------------------------------------------------------- replacing

  /** How far a left-to-right scan for `v` moves from the start of `s`. */
  function Stride(s: string, v: string): (n: nat)
    requires s != "" && v != ""
    ensures 1 <= n <= |s|
  {
    if OccursAt(s, v, 0) then |v| else 1
  }

  /** What that move writes. */
  function Written(s: string, v: string, r: string): string
    requires s != "" && v != ""
  {
    if OccursAt(s, v, 0) then r else [s[0]]
  }

  /** `s.replace(v, r)`: leftmost, non-overlapping. */
  function Replace(s: string, v: string, r: string): string
    requires v != ""
    decreases |s|
  {
    if s == "" then "" else Written(s, v, r) + Replace(s[Stride(s, v)..], v, r)
  }

  /** What `redact_known_secrets` computes: one replacement per literal, in list order. */
  function Redact(values: Secrets, s: string): string
    decreases |values|
  {
    if values == [] then s else Redact(values[1..], Replace(s, values[0], PLACEHOLDER))
  }

  /** No occurrence of `w` in `a + b` crosses the boundary between the two. */
  ghost predicate NoStraddle(a: string, b: string, w: string) {
    forall i :: 0 <= i < |a| < i + |w| ==> !OccursAt(a + b, w, i)
  }

  lemma OccursInFront(a: string, b: string, v: string)
    requires a != "" && NoStraddle(a, b, v)
    ensures OccursAt(a, v, 0) <==> OccursAt(a + b, v, 0)
  {
    if |v| <= |a| {
      assert (a + b)[0..|v|] == a[0..|v|];
    }
  }

  lemma SuffixKeepsNoStraddle(a: string, b: string, w: string, n: nat)
    requires n <= |a| && NoStraddle(a, b, w)
    ensures NoStraddle(a[n..], b, w)
  {
    forall i | 0 <= i < |a[n..]| < i + |w| ensures !OccursAt(a[n..] + b, w, i) {
      assert !OccursAt(a + b, w, i + n);
      assert a[n..] + b == (a + b)[n..];
    }
  }

  lemma {:induction false} ReplaceSplits(a: string, b: string, v: string, r: string)
    requires v != "" && NoStraddle(a, b, v)
    ensures Replace(a + b, v, r) == Replace(a, v, r) + Replace(b, v, r)
    decreases |a|
  {
    if a == "" {
      assert a + b == b;
    } else {
      OccursInFront(a, b, v);
      var n := Stride(a, v);
      assert (a + b)[n..] == a[n..] + b;
      SuffixKeepsNoStraddle(a, b, v, n);
      ReplaceSplits(a[n..], b, v, r);
    }
  }

  /** The replacement text: it opens and closes with a bracket. */
  ghost predicate Bracketed(r: string) {
    |r| >= 2 && r[0] == '[' && r[|r| - 1] == ']'
  }

  /** `u` fits the end of `r`: the shorter of the two is a suffix of the other. */
  predicate FitsEnd(r: string, u: string) {
    u != "" && if |u| <= |r| then u == r[|r| - |u|..] else u[|u| - |r|..] == r
  }

  predicate FitsStart(r: string, u: string) {
    u != "" && if |u| <= |r| then u == r[..|u|] else u[..|r|] == r
  }

  /** `w` can reach out of a replacement `r`: some part of it, not the whole, fits the end of `r` in
      front of the rest of it, or the start of `r` behind the rest. */
  predicate ReachesOut(r: string, w: string) {
    exists p :: 0 < p < |w| && (FitsEnd(r, w[..p]) || FitsStart(r, w[p..]))
  }

  /** No part of the first `k` characters, up to their end, fits the start of `r`. */
  ghost predicate NoStart(out: string, r: string, k: nat)
    requires k <= |out|
  {
    forall q :: 0 <= q < k ==> !StartBetween(out, r, q, k)
  }

  predicate StartBetween(out: string, r: string, lo: nat, hi: nat)
    requires lo <= hi <= |out|
  {
    FitsStart(r, out[lo..hi])
  }

  predicate EndBetween(out: string, r: string, lo: nat, hi: nat)
    requires lo <= hi <= |out|
  {
    FitsEnd(r, out[lo..hi])
  }

  /** No part of what follows `lo`, from there on, fits the end of `r`. */
  ghost predicate NoEnd(out: string, r: string, lo: nat)
    requires lo <= |out|
  {
    forall q :: lo < q <= |out| ==> !EndBetween(out, r, lo, q)
  }

  /** A stretch at the front of a redacted text that fits no replacement was there before. */
  lemma {:induction false} PrefixKept(s: string, v: string, r: string, out: string, k: nat)
    requires v != "" && r != "" && out == Replace(s, v, r)
    requires k <= |out| && NoStart(out, r, k)
    ensures k <= |s| && s[..k] == out[..k]
    decreases |s|
  {
    if k > 0 {
      var front, rest := Written(s, v, r), Replace(s[Stride(s, v)..], v, r);
      assert out[0..k] == out[..k] && !StartBetween(out, r, 0, k);
      FrontFits(front, rest, k);
      assert !OccursAt(s, v, 0);
      FrontOfRest(front, rest, r, k);
      PrefixKept(s[1..], v, r, rest, k - 1);
      assert out[..k] == front + rest[..k - 1];
    }
  }

  lemma FrontOfRest(front: string, rest: string, r: string, k: nat)
    requires |front| == 1 && 0 < k <= |front + rest| && NoStart(front + rest, r, k)
    ensures NoStart(rest, r, k - 1)
  {
    var m := k - 1;
    forall q | 0 <= q < m ensures !StartBetween(rest, r, q, m) {
      assert rest[q..m] == (front + rest)[q + 1..k] && !StartBetween(front + rest, r, q + 1, k);
    }
  }

  lemma FrontFits(front: string, rest: string, k: nat)
    requires front != "" && 0 < k <= |front + rest|
    ensures FitsStart(front, (front + rest)[..k])
  {
  }

  /** A text that holds no whole replacement was not changed. */
  lemma {:induction false} Untouched(s: string, v: string, r: string, out: string)
    requires v != "" && r != "" && out == Replace(s, v, r) && !Occurs(out, r)
    ensures out == s
    decreases |s|
  {
    if s != "" {
      var front, rest := Written(s, v, r), Replace(s[Stride(s, v)..], v, r);
      assert OccursAt(s, v, 0) ==> OccursAt(out, r, 0);
      assert out[|front|..] == rest;
      NoneInSuffix(out, r, |front|);
      Untouched(s[Stride(s, v)..], v, r, rest);
    }
  }

  lemma NoEndNoneWhole(out: string, r: string)
    requires r != "" && NoEnd(out, r, 0)
    ensures !Occurs(out, r)
  {
    forall i ensures !OccursAt(out, r, i) {
      if 0 <= i && i + |r| <= |out| {
        assert out[0..i + |r|][i..] == out[i..i + |r|];
        assert !EndBetween(out, r, 0, i + |r|);
      }
    }
  }

  /** What lies behind a replacement or a copied character lies wholly behind it. */
  lemma BackIsBehind(front: string, rest: string, r: string, lo: nat)
    requires front == r || |front| == 1
    requires 0 < lo <= |front + rest| && NoEnd(front + rest, r, lo)
    ensures |front| <= lo
  {
    if lo < |front| {
      TailFits(front, rest, lo);
    }
  }

  lemma TailFits(front: string, rest: string, lo: nat)
    requires lo < |front|
    ensures EndBetween(front + rest, front, lo, |front|)
  {
    assert (front + rest)[lo..|front|] == front[lo..];
  }

  lemma BackOfRest(front: string, rest: string, r: string, lo: nat)
    requires |front| <= lo <= |front + rest| && NoEnd(front + rest, r, lo)
    ensures NoEnd(rest, r, lo - |front|) && rest[lo - |front|..] == (front + rest)[lo..]
  {
    var from, n := lo - |front|, |front|;
    forall q | from < q <= |rest| ensures !EndBetween(rest, r, from, q) {
      assert rest[from..q] == (front + rest)[lo..q + n] && !EndBetween(front + rest, r, lo, q + n);
    }
  }

  /** A stretch at the end of a redacted text that fits no replacement was there before. */
  lemma {:induction false} SuffixKept(s: string, v: string, r: string, out: string, lo: nat)
    requires v != "" && r != "" && out == Replace(s, v, r)
    requires lo <= |out| && NoEnd(out, r, lo)
    ensures |out| - lo <= |s| && s[|s| - (|out| - lo)..] == out[lo..]
    decreases |s|
  {
    if lo == 0 {
      NoEndNoneWhole(out, r);
      Untouched(s, v, r, out);
    } else if s != "" {
      var n := Stride(s, v);
      var front, rest := Written(s, v, r), Replace(s[n..], v, r);
      BackIsBehind(front, rest, r, lo);
      BackOfRest(front, rest, r, lo);
      SuffixKept(s[n..], v, r, rest, lo - |front|);
    }
  }

  /** Replacing one literal on both sides of a cut creates no occurrence of another across it. */
  lemma StraddleKept(a: string, b: string, v: string, w: string, r: string)
    requires v != "" && r != "" && !ReachesOut(r, w) && NoStraddle(a, b, w)
    ensures NoStraddle(Replace(a, v, r), Replace(b, v, r), w)
  {
    var a', b' := Replace(a, v, r), Replace(b, v, r);
    forall i | 0 <= i < |a'| < i + |w| && OccursAt(a' + b', w, i)
      ensures false
    {
      StraddleTracesBack(a, b, v, w, r, a', b', i);
    }
  }

  lemma StraddleTracesBack(a: string, b: string, v: string, w: string, r: string, a': string, b': string, i: int)
    requires v != "" && r != "" && !ReachesOut(r, w) && a' == Replace(a, v, r) && b' == Replace(b, v, r)
    requires 0 <= i < |a'| < i + |w| && OccursAt(a' + b', w, i)
    ensures !NoStraddle(a, b, w)
  {
    OccursAcross(a', b', w, i);
    AcrossFitsNone(a', b', w, r, i);
    SuffixKept(a, v, r, a', i);
    PrefixKept(b, v, r, b', i + |w| - |a'|);
    AcrossAnyway(a, b, a', b', w, i);
  }

  lemma OccursAcross(a: string, b: string, w: string, i: int)
    requires 0 <= i < |a| < i + |w| && OccursAt(a + b, w, i)
    ensures a[i..] == w[..|a| - i] && b[..i + |w| - |a|] == w[|a| - i..]
  {
    assert forall j :: 0 <= j < |w| ==> w[j] == (a + b)[i + j];
    assert forall j :: i <= j < |a| ==> a[j] == w[j - i];
    assert forall j :: 0 <= j < i + |w| - |a| ==> b[j] == w[j + |a| - i];
  }

  lemma AcrossFitsNone(a: string, b: string, w: string, r: string, i: int)
    requires 0 <= i < |a| < i + |w| <= |a| + |b| && !ReachesOut(r, w)
    requires a[i..] == w[..|a| - i] && b[..i + |w| - |a|] == w[|a| - i..]
    ensures NoEnd(a, r, i) && NoStart(b, r, i + |w| - |a|)
  {
    var k := i + |w| - |a|;
    forall q | i < q <= |a| ensures !EndBetween(a, r, i, q) {
      assert a[i..q] == a[i..][..q - i] == w[..q - i];
    }
    forall q | 0 <= q < k ensures !StartBetween(b, r, q, k) {
      assert b[q..k] == b[..k][q..] == w[|a| - i + q..];
    }
  }

  lemma AcrossAnyway(a: string, b: string, a': string, b': string, w: string, i: int)
    requires 0 <= i < |a'| < i + |w| <= |a'| + |b'| && |a'| - i <= |a| && i + |w| - |a'| <= |b|
    requires a'[i..] == w[..|a'| - i] && b'[..i + |w| - |a'|] == w[|a'| - i..]
    requires a[|a| - (|a'| - i)..] == a'[i..] && b[..i + |w| - |a'|] == b'[..i + |w| - |a'|]
    ensures !NoStraddle(a, b, w)
  {
    var at := |a| - (|a'| - i);
    assert (a + b)[at..at + |w|] == a[at..] + b[..at + |w| - |a|];
    assert w == w[..|a'| - i] + w[|a'| - i..];
    assert OccursAt(a + b, w, at);
  }

  /** No secret but the first can reach out of a placeholder. */
  ghost predicate NoneReachesOut(values: Secrets) {
    forall i :: 1 <= i < |values| ==> !ReachesOut(PLACEHOLDER, values[i])
  }

  /** Brackets at the ends of a secret, opening at the start and closing at the end, do no harm. */
  lemma OuterBracketsStay(w: string)
    requires forall k :: 0 <= k < |w| ==> (w[k] == '[' ==> k == 0) && (w[k] == ']' ==> k == |w| - 1)
    ensures !ReachesOut(PLACEHOLDER, w)
  {
    PlaceholderShape();
    forall p | 0 < p < |w| ensures !FitsEnd(PLACEHOLDER, w[..p]) && !FitsStart(PLACEHOLDER, w[p..]) {
      assert w[..p][p - 1] == w[p - 1] && w[p..][0] == w[p];
    }
  }

  lemma PlaceholderShape()
    ensures Bracketed(PLACEHOLDER) && PLACEHOLDER[1..|PLACEHOLDER| - 1] == MARK
  {
  }

  /** The cut-point law: where no literal crosses the cut, the two sides can be redacted apart. */
  lemma {:induction false} RedactSplits(values: Secrets, a: string, b: string)
    requires NoneReachesOut(values)
    requires forall w <- values :: NoStraddle(a, b, w)
    ensures Redact(values, a + b) == Redact(values, a) + Redact(values, b)
    decreases |values|
  {
    if values != [] {
      var v, rest: Secrets, r := values[0], values[1..], PLACEHOLDER;
      PlaceholderShape();
      ReplaceSplits(a, b, v, r);
      forall w <- rest ensures NoStraddle(Replace(a, v, r), Replace(b, v, r), w) {
        StraddleKept(a, b, v, w, r);
      }
      RedactSplits(rest, Replace(a, v, r), Replace(b, v, r));
    }
  }

  // ------------------------------------------------------------ cleanness

  ghost predicate Clean(values: Secrets, s: string) {
    forall v <- values :: !Occurs(s, v)
  }

  lemma OccursChars(s: string, w: string, i: int)
    requires OccursAt(s, w, i)
    ensures forall j :: i <= j < i + |w| ==> s[j] in w
    ensures forall k :: 0 <= k < |w| ==> w[k] in s
  {
    assert forall k :: 0 <= k < |w| ==> w[k] == s[i + k];
    forall j | i <= j < i + |w| ensures s[j] in w {
      assert s[j] == w[j - i];
    }
  }

  /** An occurrence in a part of `s` is one in `s`, shifted. */
  lemma OccursInPart(s: string, w: string, lo: int, hi: int, i: int)
    requires 0 <= lo <= hi <= |s|
    ensures OccursAt(s[lo..hi], w, i) <==> lo <= i + lo && i + lo + |w| <= hi && OccursAt(s, w, i + lo)
  {
    if 0 <= i && i + |w| <= hi - lo {
      var t := s[lo..hi];
      assert forall k :: i <= k < i + |w| ==> t[k] == s[k + lo];
      assert t[i..i + |w|] == s[i + lo..i + lo + |w|];
    }
  }

  /** An occurrence in an end of `s` is one in `s`, shifted. */
  lemma OccursInEnd(s: string, w: string, n: nat, i: int)
    requires n <= |s|
    ensures OccursAt(s[n..], w, i) <==> 0 <= i && OccursAt(s, w, i + n)
  {
    assert s[n..|s|] == s[n..];
    OccursInPart(s, w, n, |s|, i);
  }

  /** A bracket-free word inside a bracketed text is inside what the brackets enclose. */
  lemma OccursBetweenBrackets(r: string, w: string, i: int)
    requires w != "" && BracketFree(w) && Bracketed(r) && OccursAt(r, w, i)
    ensures OccursAt(r[1..|r| - 1], w, i - 1)
  {
    OccursChars(r, w, i);
    OccursInPart(r, w, 1, |r| - 1, i - 1);
  }

  /** An occurrence of a bracket-free word cannot reach into a replacement in front. */
  lemma OccursBehind(r: string, t: string, w: string, i: int)
    requires w != "" && BracketFree(w) && Bracketed(r) && !Occurs(r[1..|r| - 1], w)
    requires OccursAt(r + t, w, i)
    ensures OccursAt(t, w, i - |r|)
  {
    OccursChars(r + t, w, i);
    assert (r + t)[|r| - 1] == ']';
    if i + |w| < |r| {
      assert r[i..i + |w|] == (r + t)[i..i + |w|];
      OccursBetweenBrackets(r, w, i);
    } else {
      assert t[i - |r|..i - |r| + |w|] == (r + t)[i..i + |w|];
    }
  }

  /** Every occurrence of a word after replacing `v` goes back to one before;
      `v` itself has none. */
  lemma {:induction false} OccurrenceTracesBack(s: string, v: string, w: string, r: string, i: int) returns (j: int)
    requires v != "" && w != "" && BracketFree(w) && Bracketed(r) && !Occurs(r[1..|r| - 1], w)
    requires OccursAt(Replace(s, v, r), w, i)
    ensures OccursAt(s, w, j) && w != v
    decreases |s|
  {
    var n := Stride(s, v);
    var front, rest := Written(s, v, r), Replace(s[n..], v, r);
    if OccursAt(s, v, 0) || i > 0 {
      if OccursAt(s, v, 0) {
        OccursBehind(r, rest, w, i);
      } else {
        OccursInEnd(front + rest, w, 1, i - 1);
        assert (front + rest)[1..] == rest;
      }
      j := OccurrenceTracesBack(s[n..], v, w, r, i - |front|);
      OccursInEnd(s, w, n, j);
      j := j + n;
    } else {
      OccursChars(front + rest, w, i);
      forall q | 0 <= q < |w| ensures !StartBetween(front + rest, r, q, |w|) {
        assert (front + rest)[q..|w|][0] == (front + rest)[q];
      }
      PrefixKept(s, v, r, front + rest, |w|);
      j := 0;
    }
  }

  lemma ReplaceIntroducesNone(s: string, v: string, w: string, r: string)
    requires v != "" && w != "" && BracketFree(w) && Bracketed(r) && !Occurs(r[1..|r| - 1], w)
    requires w == v || !Occurs(s, w)
    ensures !Occurs(Replace(s, v, r), w)
  {
    forall i | OccursAt(Replace(s, v, r), w, i) ensures false {
      var j := OccurrenceTracesBack(s, v, w, r, i);
    }
  }

  lemma NoneInSuffix(s: string, w: string, n: nat)
    requires n <= |s| && !Occurs(s, w)
    ensures !Occurs(s[n..], w)
  {
    forall i ensures !OccursAt(s[n..], w, i) {
      OccursInEnd(s, w, n, i);
    }
  }

  lemma {:induction false} ReplaceAbsent(s: string, v: string, r: string)
    requires v != "" && !Occurs(s, v)
    ensures Replace(s, v, r) == s
    decreases |s|
  {
    if s != "" {
      NoneInSuffix(s, v, 1);
      ReplaceAbsent(s[1..], v, r);
    }
  }

  lemma {:induction false} RedactCleans(values: Secrets, s: string, done: Secrets)
    requires forall v <- values + done :: BracketFree(v) && !Occurs(MARK, v)
    requires Clean(done, s)
    ensures Clean(values + done, Redact(values, s))
    decreases |values|
  {
    if values == [] {
      assert values + done == done;
    } else {
      var v, s' := values[0], Replace(s, values[0], PLACEHOLDER);
      var done': Secrets := [v] + done;
      PlaceholderShape();
      forall w <- done' ensures !Occurs(s', w) {
        assert w in values + done;
        ReplaceIntroducesNone(s, v, w, PLACEHOLDER);
      }
      assert values[1..] + done' == values[1..] + [v] + done;
      RedactCleans(values[1..], s', done');
      forall w <- values + done ensures w in values[1..] + done' {
        assert values == [v] + values[1..];
      }
    }
  }

  lemma {:induction false} RedactAbsent(values: Secrets, s: string)
    requires Clean(values, s)
    ensures Redact(values, s) == s
    decreases |values|
  {
    if values != [] {
      ReplaceAbsent(s, values[0], PLACEHOLDER);
      RedactAbsent(values[1..], s);
    }
  }

  /** The order `__init__` puts the literals in: longest first, no duplicates. */
  ghost predicate LongestFirst(values: Secrets) {
    forall i, j :: 0 <= i < j < |values| ==> |values[i]| >= |values[j]| && values[i] != values[j]
  }

  /** Bracket-free secrets are removed from every text exactly when none of them
      is part of the word inside the placeholder. */
  lemma SecretsRemovedIff(values: Secrets)
    requires LongestFirst(values) && forall v <- values :: BracketFree(v)
    ensures (forall s :: Clean(values, Redact(values, s))) <==> (forall v <- values :: !Occurs(MARK, v))
  {
    if forall v <- values :: !Occurs(MARK, v) {
      forall s ensures Clean(values, Redact(values, s)) {
        assert values + [] == values;
        RedactCleans(values, s, []);
      }
    } else {
      var v := SecretThatStays(values);
      assert !Clean(values, Redact(values, v));
    }
  }

  lemma SecretThatStays(values: Secrets) returns (v: string)
    requires LongestFirst(values) && forall v <- values :: BracketFree(v)
    requires exists v <- values :: Occurs(MARK, v)
    ensures v in values && Redact(values, v) == PLACEHOLDER && Occurs(PLACEHOLDER, v)
  {
    var k := LastInMark(values, |values|);
    v := values[k];
    RedactLeavesEarlier(values, k);
    ReplaceItself(v, PLACEHOLDER);
    RedactKeepsPlaceholder(values[k + 1..]);
    var i :| OccursAt(MARK, v, i);
    PlaceholderShape();
    OccursInPart(PLACEHOLDER, v, 1, |PLACEHOLDER| - 1, i);
  }

  /** Redacting a redacted text changes nothing. */
  lemma RedactIdempotent(values: Secrets, s: string)
    requires forall v <- values :: BracketFree(v) && !Occurs(MARK, v)
    ensures Redact(values, Redact(values, s)) == Redact(values, s)
  {
    assert values + [] == values;
    RedactCleans(values, s, []);
    RedactAbsent(values, Redact(values, s));
  }

  lemma {:induction false} LastInMark(values: Secrets, n: nat) returns (k: nat)
    requires n <= |values| && exists v <- values[..n] :: Occurs(MARK, v)
    requires forall i :: n <= i < |values| ==> !Occurs(MARK, values[i])
    ensures k < |values| && Occurs(MARK, values[k])
    ensures forall i :: k < i < |values| ==> !Occurs(MARK, values[i])
  {
    if Occurs(MARK, values[n - 1]) {
      k := n - 1;
    } else {
      k := LastInMark(values, n - 1);
    }
  }

  lemma {:induction false} RedactLeavesEarlier(values: Secrets, k: nat)
    requires k < |values| && LongestFirst(values)
    ensures Redact(values, values[k]) == Redact(values[k + 1..], Replace(values[k], values[k], PLACEHOLDER))
    decreases k
  {
    if k > 0 {
      var rest: Secrets := values[1..];
      NotInside(values[0], values[k]);
      ReplaceAbsent(values[k], values[0], PLACEHOLDER);
      assert rest[k - 1] == values[k] && rest[k..] == values[k + 1..];
      RedactLeavesEarlier(rest, k - 1);
    }
  }

  lemma NotInside(longer: string, v: string)
    requires |longer| >= |v| && longer != v
    ensures !Occurs(v, longer)
  {
    assert v[0..|v|] == v;
  }

  lemma ReplaceItself(v: string, r: string)
    requires v != ""
    ensures Replace(v, v, r) == r
  {
    assert OccursAt(v, v, 0) && v[|v|..] == "";
    assert Replace("", v, r) == "";
  }

  lemma RedactKeepsPlaceholder(values: Secrets)
    requires forall v <- values :: BracketFree(v) && !Occurs(MARK, v)
    ensures Redact(values, PLACEHOLDER) == PLACEHOLDER
  {
    PlaceholderShape();
    forall v <- values ensures !Occurs(PLACEHOLDER, v) {
      if i :| OccursAt(PLACEHOLDER, v, i) { OccursBetweenBrackets(PLACEHOLDER, v, i); }
    }
    RedactAbsent(values, PLACEHOLDER);
  }
}
