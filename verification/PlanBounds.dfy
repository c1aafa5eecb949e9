/** What always holds of the parser's buffer and of the plans it reports. */
module PlanBounds {
  import opened Wrappers
  import opened Strings
  import opened Utf8
  import opened PlanScan
  import opened PlanSpec

  // ---- the buffer stays well-formed text ----

  /** A block's ends are character boundaries, so cutting it out keeps both sides well-formed. */
  lemma BlockCutsAtBoundaries(t: Tag, s: string)
    requires Valid(s) && FindBlock(t, s).Some?
    ensures var b := FindBlock(t, s).value; Valid(s[..b.start]) && Valid(s[b.end..])
  {
    hide FindBlock;
    hide Valid;
    hide At;
    var b := FindBlock(t, s).value;
    BlockEnds(t, s);
    AsciiBoundaries(s, b.start);
    AsciiBoundaries(s, b.end - 1);
    ValidSplit(s, b.start);
    ValidSplit(s, b.end);
  }

  lemma {:induction false} DrainKeepsUtf8(u: Unescape, t: Tag, s: string)
    requires Valid(s)
    ensures Valid(Drain(u, t, s).rest)
    decreases |s|
  {
    hide FindBlock;
    hide Drain;
    hide Valid;
    hide BlockPlan;
    if FindBlock(t, s).None? {
      DrainNothing(u, t, s);
    } else {
      var b := FindBlock(t, s).value;
      DrainFirst(u, t, s, b);
      BlockCutsAtBoundaries(t, s);
      DrainKeepsUtf8(u, t, s[b.end..]);
      ValidConcat(s[..b.start], Drain(u, t, s[b.end..]).rest);
    }
  }

  lemma {:induction false} LinesKeepUtf8(s: string)
    requires Valid(s)
    ensures forall l :: l in Lines(s) ==> Valid(l)
    decreases |s|
  {
    hide Valid;
    if s != [] && Find(s, "\n").Some? {
      var i := Find(s, "\n").value;
      AtFirst(s, i, "\n");
      AsciiBoundaries(s, i);
      ValidSplit(s, i);
      ValidSplit(s, i + 1);
      if i > 0 && s[i - 1] == '\r' {
        AsciiBoundaries(s, i - 1);
        ValidSplit(s, i - 1);
      }
      LinesKeepUtf8(s[i + 1..]);
    }
  }

  lemma {:induction false} KeptKeepUtf8(kept: string, lines: seq<string>)
    requires Valid(kept) && forall l :: l in lines ==> Valid(l)
    ensures Valid(KeepLines(kept, lines))
    decreases |lines|
  {
    hide Valid;
    hide LineBox;
    if lines != [] {
      assert lines[0] in lines && forall l :: l in lines[1..] ==> l in lines;
      Separator(kept);
      ValidConcat(kept, if kept == "" then "" else "\n");
      ValidConcat(kept + (if kept == "" then "" else "\n"), lines[0]);
      KeptKeepUtf8(if LineBox(lines[0]).Some? then kept else KeepLine(kept, lines[0]), lines[1..]);
    }
  }

  lemma Separator(kept: string)
    ensures Valid("") && Valid("\n")
  {
    assert ScalarLen("\n") == 1 && "\n"[1..] == "";
  }

  /**
   The kept text starts at a character, holds the last 64 KiB, and is at most three bytes longer
   unless it reaches back to a `<` whose tag is still open at the cut.
   */
  ghost predicate WellBounded(s: string, from: nat) {
    && from <= |s| && Boundary(s, from)
    && |s| - from >= (if |s| <= MAX_KEEP then |s| else MAX_KEEP)
    && |s| - from <= 2 * MAX_KEEP
    && (|s| - from <= MAX_KEEP + 3
        || (from <= FloorBoundary(s, |s| - MAX_KEEP) && s[from] == '<'
            && '>' !in s[from..FloorBoundary(s, |s| - MAX_KEEP)]))
  }

  lemma BoundKeepsUtf8(s: string)
    requires Valid(s)
    ensures WellBounded(s, KeepFrom(s)) && Valid(TrimBuffer(s))
  {
    hide Valid;
    var from := KeepFrom(s);
    if |s| > MAX_KEEP {
      var start := FloorBoundary(s, |s| - MAX_KEEP);
      BackUpAtMostThree(s, |s| - MAX_KEEP);
      var lt := LastIndex(s[..start], '<');
      if lt.Some? {
        assert s[lt.value] == s[..start][lt.value] == '<';
        AsciiBoundaries(s, lt.value);
      }
    }
    ValidSplit(s, from);
  }

  /** What a call has not taken as a plan: the text between blocks, without any checkbox lines it took. */
  function Unconsumed(u: Unescape, buffer: string, text: string): string {
    var p := Drain(u, PROPOSED, buffer + text);
    var q := Drain(u, UPDATE, p.rest);
    if p.plans + q.plans == [] && HasCheckbox(q.rest) && BoxSteps(Lines(q.rest)) != []
    then KeepLines("", Lines(q.rest)) else q.rest
  }

  lemma UnconsumedIsUtf8(u: Unescape, buffer: string, text: string)
    requires Valid(buffer) && Valid(text)
    ensures Valid(Unconsumed(u, buffer, text))
  {
    hide Drain;
    hide Valid;
    hide HasCheckbox;
    hide BoxSteps;
    hide KeepLines;
    hide Lines;
    ValidConcat(buffer, text);
    DrainKeepsUtf8(u, PROPOSED, buffer + text);
    var p := Drain(u, PROPOSED, buffer + text);
    DrainKeepsUtf8(u, UPDATE, p.rest);
    LinesKeepUtf8(Drain(u, UPDATE, p.rest).rest);
    Separator("");
    KeptKeepUtf8("", Lines(Drain(u, UPDATE, p.rest).rest));
  }

  lemma FeedTrims(u: Unescape, buffer: string, text: string)
    ensures PlanSpec.Feed(u, buffer, text).rest == TrimBuffer(Unconsumed(u, buffer, text))
  {
    hide Drain;
    hide HasCheckbox;
    hide BoxSteps;
    hide KeepLines;
    hide Lines;
    hide TrimBuffer;
  }

  /** After every call the buffer is a well-formed end of the unconsumed text, within its bounds. */
  lemma FeedKeepsBuffer(u: Unescape, buffer: string, text: string)
    requires Valid(buffer) && Valid(text)
    ensures var b, w := PlanSpec.Feed(u, buffer, text).rest, Unconsumed(u, buffer, text);
            && |b| <= |w| && b == w[|w| - |b|..] && WellBounded(w, |w| - |b|)
            && Valid(b) && |b| <= 2 * MAX_KEEP && (|b| <= MAX_KEEP + 3 || b[0] == '<')
  {
    hide PlanSpec.Feed;
    hide Unconsumed;
    hide Valid;
    hide KeepFrom;
    UnconsumedIsUtf8(u, buffer, text);
    FeedTrims(u, buffer, text);
    BoundKeepsUtf8(Unconsumed(u, buffer, text));
  }

  /** Feeding one chunk more. */
  lemma {:induction false} LastChunk(u: Unescape, buffer: string, chunks: seq<string>, last: string)
    ensures FeedAll(u, buffer, chunks + [last]).rest == PlanSpec.Feed(u, FeedAll(u, buffer, chunks).rest, last).rest
    decreases |chunks|
  {
    hide PlanSpec.Feed;
    if chunks == [] {
      assert ([] + [last])[0] == last && ([] + [last])[1..] == [];
    } else {
      assert (chunks + [last])[0] == chunks[0] && (chunks + [last])[1..] == chunks[1..] + [last];
      LastChunk(u, PlanSpec.Feed(u, buffer, chunks[0]).rest, chunks[1..], last);
    }
  }

  /** The buffer is the end of the text a call has not consumed, from where it was cut. */
  ghost predicate EndOf(w: string, b: string) {
    |b| <= |w| && b == w[|w| - |b|..] && WellBounded(w, |w| - |b|)
  }

  lemma {:induction false} StreamKeepsBounds(u: Unescape, buffer: string, chunks: seq<string>)
    requires Valid(buffer) && forall c :: c in chunks ==> Valid(c)
    requires |buffer| <= 2 * MAX_KEEP && (|buffer| <= MAX_KEEP + 3 || buffer[0] == '<')
    ensures var b := FeedAll(u, buffer, chunks).rest;
            Valid(b) && |b| <= 2 * MAX_KEEP && (|b| <= MAX_KEEP + 3 || b[0] == '<')
    ensures forall p :: p in FeedAll(u, buffer, chunks).plans ==> Bounded(p)
    decreases |chunks|
  {
    hide PlanSpec.Feed;
    hide Valid;
    hide Bounded;
    if chunks != [] {
      assert chunks[0] in chunks && forall c :: c in chunks[1..] ==> c in chunks;
      FeedKeepsBuffer(u, buffer, chunks[0]);
      FeedPlansBounded(u, buffer, chunks[0]);
      StreamKeepsBounds(u, PlanSpec.Feed(u, buffer, chunks[0]).rest, chunks[1..]);
    }
  }

  lemma BehindChunk(u: Unescape, buffer: string, chunks: seq<string>, n: nat)
    requires Valid(buffer) && n < |chunks| && forall c :: c in chunks ==> Valid(c)
    requires |buffer| <= 2 * MAX_KEEP && (|buffer| <= MAX_KEEP + 3 || buffer[0] == '<')
    ensures EndOf(Unconsumed(u, FeedAll(u, buffer, chunks[..n]).rest, chunks[n]), FeedAll(u, buffer, chunks[..n + 1]).rest)
  {
    hide FeedAll;
    hide Valid;
    hide Bounded;
    hide Unconsumed;
    hide PlanSpec.Feed;
    hide WellBounded;
    assert chunks[n] in chunks && forall c :: c in chunks[..n] ==> c in chunks;
    StreamKeepsBounds(u, buffer, chunks[..n]);
    assert chunks[..n + 1] == chunks[..n] + [chunks[n]];
    LastChunk(u, buffer, chunks[..n], chunks[n]);
    FeedKeepsBuffer(u, FeedAll(u, buffer, chunks[..n]).rest, chunks[n]);
  }

  /**
   Through any chunks of well-formed text: the buffer is well-formed and bounded at the end, and so
   are all plans; and behind every single chunk it is the end of the text not consumed by then.
   */
  lemma StreamKeepsBuffer(u: Unescape, buffer: string, chunks: seq<string>)
    requires Valid(buffer) && forall c :: c in chunks ==> Valid(c)
    requires |buffer| <= 2 * MAX_KEEP && (|buffer| <= MAX_KEEP + 3 || buffer[0] == '<')
    ensures var b := FeedAll(u, buffer, chunks).rest;
            Valid(b) && |b| <= 2 * MAX_KEEP && (|b| <= MAX_KEEP + 3 || b[0] == '<')
    ensures forall p :: p in FeedAll(u, buffer, chunks).plans ==> Bounded(p)
    ensures forall n :: 0 <= n < |chunks| ==>
              EndOf(Unconsumed(u, FeedAll(u, buffer, chunks[..n]).rest, chunks[n]), FeedAll(u, buffer, chunks[..n + 1]).rest)
  {
    hide FeedAll;
    hide Valid;
    hide Bounded;
    hide Unconsumed;
    hide EndOf;
    StreamKeepsBounds(u, buffer, chunks);
    forall n | 0 <= n < |chunks|
      ensures EndOf(Unconsumed(u, FeedAll(u, buffer, chunks[..n]).rest, chunks[n]), FeedAll(u, buffer, chunks[..n + 1]).rest)
    {
      BehindChunk(u, buffer, chunks, n);
    }
  }

  // ---- the plans ----

  /** 1 to 100 steps of at most 500 bytes, an explanation of at most 2000. */
  predicate Bounded(p: Plan) {
    && 1 <= |p.steps| <= 100
    && (forall s :: s in p.steps ==> |s.step| <= 500)
    && (p.explanation.Some? ==> 0 < |p.explanation.value| <= 2000)
  }

  lemma ParseBodyBounded(u: Unescape, text: string, explanation: Option<string>)
    ensures ParseBody(u, text, explanation).Some? ==> Bounded(ParseBody(u, text, explanation).value)
  {
    hide BodySteps;
    hide Truncated;
    hide CutSteps;
    hide SkipWs;
    hide TrimEnd;
    assert Trim("") == "";
  }

  lemma {:induction false} DrainBounded(u: Unescape, t: Tag, s: string)
    ensures forall p :: p in Drain(u, t, s).plans ==> Bounded(p)
    decreases |s|
  {
    hide FindBlock;
    hide Drain;
    hide ParseBody;
    hide Bounded;
    if FindBlock(t, s).None? {
      DrainNothing(u, t, s);
    } else {
      var b := FindBlock(t, s).value;
      DrainFirst(u, t, s, b);
      ParseBodyBounded(u, s[b.open..b.close], if b.value.Some? then Some(u(b.value.value)) else None);
      DrainBounded(u, t, s[b.end..]);
    }
  }

  lemma {:induction false} BoxStepsBounded(lines: seq<string>)
    ensures forall s :: s in BoxSteps(lines) ==> |s.step| <= MAX_STEP_LEN
  {
    hide LineBox;
    hide Truncated;
    hide TrimEnd;
    hide SkipWs;
    hide ParseStatus;
    if lines != [] {
      BoxStepsBounded(lines[1..]);
    }
  }

  /** Every plan the parser reports is bounded. */
  lemma FeedPlansBounded(u: Unescape, buffer: string, text: string)
    ensures forall p :: p in PlanSpec.Feed(u, buffer, text).plans ==> Bounded(p)
  {
    hide Drain;
    hide HasCheckbox;
    hide BoxSteps;
    hide KeepLines;
    hide Lines;
    hide KeepFrom;
    DrainBounded(u, PROPOSED, buffer + text);
    var rest := Drain(u, PROPOSED, buffer + text).rest;
    DrainBounded(u, UPDATE, rest);
    BoxStepsBounded(Lines(Drain(u, UPDATE, rest).rest));
  }

  // ---- progress ----

  function Completed(steps: seq<PlanStep>): (n: nat)
    ensures n <= |steps|
  {
    if steps == [] then 0
    else (if steps[0].status == StepStatus.Completed then 1 else 0) + Completed(steps[1..])
  }

  /** `f64::round` over the reals: halves away from zero, for a non-negative argument. */
  function Round(x: real): int
    requires x >= 0.0
  {
    (x + 0.5).Floor
  }

  /** `Plan::progress_percent`. */
  function ProgressPercent(p: Plan): int {
    if p.steps == [] then 0
    else
      var r := Round(Completed(p.steps) as real / |p.steps| as real * 100.0);
      if r > 100 then 100 else r
  }

  lemma ProductSign(a: real, b: real)
    requires b > 0.0
    ensures a * b >= 0.0 <==> a >= 0.0
  {
  }

  /** Comparing a quotient with a bound, without dividing. */
  lemma QuotientAtLeast(c: real, n: real, q: real, k: real)
    requires n > 0.0 && q * n == c
    ensures q >= k <==> c >= k * n
  {
    ProductSign(q - k, n);
    assert (q - k) * n == q * n - k * n;
  }

  lemma Quotient(c: real, n: real)
    requires n > 0.0
    ensures c / n * n == c
  {
  }

  /** The percentage by integer arithmetic: 100 and 0 are reached within half a percent. */
  lemma ProgressExtremes(p: Plan)
    requires p.steps != []
    ensures 0 <= ProgressPercent(p) <= 100
    ensures ProgressPercent(p) == 100 <==> 200 * (|p.steps| - Completed(p.steps)) <= |p.steps|
    ensures ProgressPercent(p) == 0 <==> 200 * Completed(p.steps) < |p.steps|
  {
    var c, n := Completed(p.steps) as real, |p.steps| as real;
    var q := c / n;
    Quotient(c, n);
    QuotientAtLeast(c, n, q, 0.0);
    QuotientAtLeast(c, n, q, 0.995);
    QuotientAtLeast(c, n, q, 0.005);
    RoundedExtremes(q);
  }

  lemma RoundedExtremes(q: real)
    requires q >= 0.0
    ensures Round(q * 100.0) >= 0
    ensures Round(q * 100.0) >= 100 <==> q >= 0.995
    ensures Round(q * 100.0) == 0 <==> q < 0.005
  {
  }

  lemma TimesAtMost(a: real, b: real, n: real)
    requires n > 0.0 && a <= b
    ensures a * n <= b * n
  {
  }

  /** The percentage is the nearest whole number to the true one: it is off by half at most. */
  lemma ProgressIsNearest(p: Plan)
    requires p.steps != []
    ensures var c, n, r := Completed(p.steps), |p.steps|, ProgressPercent(p);
            -n <= 2 * (100 * c - r * n) <= n
  {
    hide Completed;
    hide Round;
    var c, n := Completed(p.steps), |p.steps|;
    var q := c as real / n as real;
    Quotient(c as real, n as real);
    NotAboveHundred(q, c as real, n as real);
    RoundIsNear(q * 100.0);
    NearTimes(Round(q * 100.0), q, c, n);
  }

  lemma RoundIsNear(x: real)
    requires x >= 0.0
    ensures x - 0.5 <= Round(x) as real <= x + 0.5
  {
  }

  lemma NearTimes(r: int, q: real, c: int, n: int)
    requires n > 0 && q * n as real == c as real && q * 100.0 - 0.5 <= r as real <= q * 100.0 + 0.5
    ensures -n <= 2 * (100 * c - r * n) <= n
  {
    TimesAtMost(r as real, q * 100.0 + 0.5, n as real);
    TimesAtMost(q * 100.0 - 0.5, r as real, n as real);
    Scaled(q, n as real, c as real);
    ProductAsReal(r, n);
    WholeBounds(r * n, c, n);
  }

  lemma WholeBounds(m: int, c: int, n: int)
    requires 100.0 * c as real - 0.5 * n as real <= m as real <= 100.0 * c as real + 0.5 * n as real
    ensures -n <= 2 * (100 * c - m) <= n
  {
  }

  lemma ProductAsReal(a: int, b: int)
    ensures (a * b) as real == a as real * b as real
  {
  }

  lemma NotAboveHundred(q: real, c: real, n: real)
    requires n > 0.0 && q * n == c && 0.0 <= c <= n
    ensures 0.0 <= q <= 1.0 && Round(q * 100.0) <= 100
  {
    QuotientAtLeast(c, n, q, 0.0);
    ProductSign(1.0 - q, n);
    assert (1.0 - q) * n == n - c;
  }

  lemma Scaled(q: real, n: real, c: real)
    requires q * n == c
    ensures (q * 100.0 + 0.5) * n == 100.0 * c + 0.5 * n
    ensures (q * 100.0 - 0.5) * n == 100.0 * c - 0.5 * n
  {
    assert q * 100.0 * n == 100.0 * (q * n);
  }

  /** All completed is the same as no step being open. */
  lemma {:induction false} CompletedCounts(steps: seq<PlanStep>)
    ensures Completed(steps) == |steps| <==> forall s :: s in steps ==> s.status == StepStatus.Completed
    ensures Completed(steps) == 0 <==> forall s :: s in steps ==> s.status != StepStatus.Completed
  {
    if steps != [] {
      CompletedCounts(steps[1..]);
      assert steps == [steps[0]] + steps[1..];
    }
  }

  /** For the plans the parser reports the percentage is exact at both ends. */
  lemma ProgressOfBoundedPlans(p: Plan)
    requires Bounded(p)
    ensures ProgressPercent(p) == 100 <==> forall s :: s in p.steps ==> s.status == StepStatus.Completed
    ensures ProgressPercent(p) == 0 <==> forall s :: s in p.steps ==> s.status != StepStatus.Completed
  {
    ProgressExtremes(p);
    CompletedCounts(p.steps);
  }

  function Steps(done: nat, open: nat): seq<PlanStep> {
    seq(done + open, i => PlanStep("", if i < done then StepStatus.Completed else Pending))
  }

  lemma {:induction false} StepsCompleted(done: nat, open: nat)
    ensures Completed(Steps(done, open)) == done
    decreases done + open
  {
    var s := Steps(done, open);
    if done > 0 {
      assert s[1..] == Steps(done - 1, open);
      StepsCompleted(done - 1, open);
    } else if open > 0 {
      assert s[1..] == Steps(0, open - 1);
      StepsCompleted(0, open - 1);
    }
  }

  /**
   For plans of any size: with `n` steps, 100 means that all are completed exactly when there
   are fewer than 200 of them, and 0 that none is when there are no more than 200. 199 of 200
   completed steps already show 100, and 1 of 201 still shows 0.
   */
  lemma ProgressExactBelow200(n: nat)
    requires n > 0
    ensures n < 200 <==>
            forall p: Plan :: |p.steps| == n ==> (ProgressPercent(p) == 100 <==> Completed(p.steps) == n)
    ensures n <= 200 <==>
            forall p: Plan :: |p.steps| == n ==> (ProgressPercent(p) == 0 <==> Completed(p.steps) == 0)
  {
    forall p: Plan | |p.steps| == n
      ensures n < 200 ==> (ProgressPercent(p) == 100 <==> Completed(p.steps) == n)
      ensures n <= 200 ==> (ProgressPercent(p) == 0 <==> Completed(p.steps) == 0)
    {
      ProgressExtremes(p);
    }
    if n > 200 {
      var p := Plan(None, Steps(1, n - 1));
      StepsCompleted(1, n - 1);
      ProgressExtremes(p);
      assert |p.steps| == n && ProgressPercent(p) == 0 && Completed(p.steps) != 0;
    }
    if n >= 200 {
      var p := Plan(None, Steps(n - 1, 1));
      StepsCompleted(n - 1, 1);
      ProgressExtremes(p);
      assert |p.steps| == n && ProgressPercent(p) == 100 && Completed(p.steps) != n;
    }
  }
}
