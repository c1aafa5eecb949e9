/**
 What one call of the plan parser computes, as functions of the buffered text. Text holds one
 `char` per UTF-8 byte. Entity decoding is a parameter: nothing below depends on what it does.
 */
module PlanSpec {
  import opened Wrappers
  import opened Strings
  import opened Utf8
  import opened PlanScan

  const MAX_EXPLANATION_LEN := 2000
  const MAX_STEP_LEN := 500
  const MAX_STEPS := 100
  const MAX_KEEP := 64 * 1024

  type Unescape = string -> string

  datatype StepStatus = Pending | InProgress | Completed

  datatype PlanStep = PlanStep(step: string, status: StepStatus)

  datatype Plan = Plan(explanation: Option<string>, steps: seq<PlanStep>)

  // ---- trimming and lines ----

  function TrimEnd(s: string): (r: string)
    ensures r <= s
    decreases |s|
  {
    if |s| >= 1 && WsLen(s[|s| - 1..]) == 1 then TrimEnd(s[..|s| - 1])
    else if |s| >= 2 && WsLen(s[|s| - 2..]) == 2 then TrimEnd(s[..|s| - 2])
    else if |s| >= 3 && WsLen(s[|s| - 3..]) == 3 then TrimEnd(s[..|s| - 3])
    else s
  }

  function Trim(s: string): (r: string)
    ensures |r| <= |s|
  {
    TrimEnd(s[SkipWs(s)..])
  }

  /** `str::lines`: split at newlines, a carriage return before the newline dropped. */
  function Lines(s: string): seq<string>
    decreases |s|
  {
    if s == [] then [] else
      match Find(s, "\n")
      case None => [s]
      case Some(i) =>
        [if i > 0 && s[i - 1] == '\r' then s[..i - 1] else s[..i]] + Lines(s[i + 1..])
  }

  function Lower(c: char): char {
    if 'A' <= c <= 'Z' then (c as int + 32) as char else c
  }

  function ParseStatus(s: string): StepStatus {
    var t := Trim(s);
    var l := seq(|t|, i requires 0 <= i < |t| => Lower(t[i]));
    if l in ["in_progress", "inprogress", "in-progress", "active", "[-]", "[/]"] then InProgress
    else if l in ["completed", "done", "complete", "[x]"] then Completed
    else Pending
  }

  function NewStep(step: string, status: StepStatus): PlanStep {
    PlanStep(Trim(step), status)
  }

  function NewPlan(explanation: Option<string>, steps: seq<PlanStep>): Plan {
    Plan(if explanation.Some? && Trim(explanation.value) == "" then None else explanation, steps)
  }

  // ---- the body of a plan block ----

  /** The `<step>` children, blank ones skipped. */
  function XmlSteps(u: Unescape, text: string): seq<PlanStep>
    decreases |text|
  {
    match FindBlock(STEP, text)
    case None => []
    case Some(b) => XmlStep(u, text, b) + XmlSteps(u, text[b.end..])
  }

  function XmlStep(u: Unescape, text: string, b: Block): seq<PlanStep>
    requires InBounds(text, b)
  {
    var step := Trim(text[b.open..b.close]);
    var status := if b.value.Some? then ParseStatus(b.value.value) else Pending;
    if step == "" then [] else [NewStep(u(step), status)]
  }

  /** Drop a short leading `[...]` marker. */
  function TrimCheckbox(line: string): string {
    var l := Trim(line);
    match Find(l, "]")
    case Some(pos) => if l[0] == '[' && pos + 1 <= 4 then Trim(l[pos + 1..]) else l
    case None => l
  }

  /** The fallback: one pending step per non-blank line. */
  function LineSteps(lines: seq<string>): seq<PlanStep> {
    if lines == [] then []
    else
      (if Trim(lines[0]) == "" then [] else [NewStep(TrimCheckbox(Trim(lines[0])), Pending)])
      + LineSteps(lines[1..])
  }

  function Capped(steps: seq<PlanStep>): seq<PlanStep> {
    if |steps| <= MAX_STEPS then steps else steps[..MAX_STEPS]
  }

  function CutStep(s: PlanStep): PlanStep {
    s.(step := Truncated(s.step, MAX_STEP_LEN))
  }

  function CutSteps(steps: seq<PlanStep>): (r: seq<PlanStep>)
    ensures |r| == |steps|
    ensures forall i :: 0 <= i < |r| ==> r[i] == CutStep(steps[i])
  {
    if steps == [] then [] else [CutStep(steps[0])] + CutSteps(steps[1..])
  }

  function BodySteps(u: Unescape, text: string): seq<PlanStep> {
    var steps := XmlSteps(u, text);
    if steps == [] then LineSteps(Lines(text)) else steps
  }

  function ParseBody(u: Unescape, text: string, explanation: Option<string>): Option<Plan> {
    var steps := BodySteps(u, text);
    if steps == [] then None
    else
      var e := if explanation.Some? then Some(Truncated(explanation.value, MAX_EXPLANATION_LEN)) else None;
      Some(NewPlan(e, CutSteps(Capped(steps))))
  }

  /** The plans of one matched block: at most one. */
  function BlockPlan(u: Unescape, s: string, b: Block): seq<Plan>
    requires InBounds(s, b)
  {
    var e := if b.value.Some? then Some(u(b.value.value)) else None;
    match ParseBody(u, s[b.open..b.close], e)
    case None => []
    case Some(p) => [p]
  }

  // ---- draining ----

  datatype Drained = Drained(plans: seq<Plan>, rest: string)

  /** All blocks of one kind, left to right: their plans, and the text between them. */
  function Drain(u: Unescape, t: Tag, s: string): Drained
    decreases |s|
  {
    match FindBlock(t, s)
    case None => Drained([], s)
    case Some(b) =>
      var d := Drain(u, t, s[b.end..]);
      Drained(BlockPlan(u, s, b) + d.plans, s[..b.start] + d.rest)
  }

  lemma DrainNothing(u: Unescape, t: Tag, s: string)
    requires FindBlock(t, s).None?
    ensures Drain(u, t, s) == Drained([], s)
  {
    hide FindBlock;
  }

  lemma DrainFirst(u: Unescape, t: Tag, s: string, b: Block)
    requires FindBlock(t, s) == Some(b)
    ensures Drain(u, t, s) ==
            Drained(BlockPlan(u, s, b) + Drain(u, t, s[b.end..]).plans, s[..b.start] + Drain(u, t, s[b.end..]).rest)
  {
    hide FindBlock;
    hide BlockPlan;
  }

  /** `\s*[-*]\s*\[(\s|x|X|/|-)\]` at the start of `s`: the marker and the length matched. */
  function BoxHead(s: string): (r: Option<(string, nat)>)
    ensures r.Some? ==> r.value.1 <= |s| && '[' in s
  {
    var w := SkipWs(s);
    if !(w < |s| && (s[w] == '-' || s[w] == '*')) then None
    else
      var x := w + 1 + SkipWs(s[w + 1..]);
      if !(x < |s| && s[x] == '[') then None
      else
        var r := s[x + 1..];
        var m := if r != [] && r[0] in "xX/-" then 1 else WsLen(r);
        if m > 0 && m < |r| && r[m] == ']' then Some((r[..m], x + 1 + m + 1)) else None
  }

  /** The checkbox regex matches at the start of `s`: some character other than a newline must follow. */
  predicate BoxAtStart(s: string) {
    match BoxHead(s)
    case None => false
    case Some((_, n)) => exists i :: n <= i < |s| && s[i] != '\n'
  }

  /** The checkbox regex matches somewhere in `s`. */
  predicate HasCheckbox(s: string)
    decreases |s|
  {
    BoxAtStart(s) || match Find(s, "\n") case None => false case Some(i) => HasCheckbox(s[i + 1..])
  }

  /** A checkbox line: its marker and trimmed step text. */
  function LineBox(line: string): Option<(string, string)> {
    match BoxHead(line)
    case None => None
    case Some((m, n)) => if n == |line| then None else Some((m, Trim(line[n..])))
  }

  function BoxStep(b: (string, string)): seq<PlanStep> {
    if b.1 == "" then []
    else [NewStep(Truncated(b.1, MAX_STEP_LEN), ParseStatus("[" + b.0 + "]"))]
  }

  function BoxSteps(lines: seq<string>): seq<PlanStep> {
    if lines == [] then []
    else
      (match LineBox(lines[0]) case None => [] case Some(b) => BoxStep(b)) + BoxSteps(lines[1..])
  }

  /** The other lines appended to `kept`; leading empty lines disappear. */
  function KeepLine(kept: string, line: string): string {
    kept + (if kept == "" then "" else "\n") + line
  }

  function KeepLines(kept: string, lines: seq<string>): string
    decreases |lines|
  {
    if lines == [] then kept
    else KeepLines(if LineBox(lines[0]).Some? then kept else KeepLine(kept, lines[0]), lines[1..])
  }

  // ---- bounding the buffer ----

  function LastIndex(s: string, c: char): (r: Option<nat>)
    ensures r.Some? ==> r.value < |s| && s[r.value] == c && c !in s[r.value + 1..]
    ensures r.None? ==> c !in s
    decreases |s|
  {
    if s == [] then None
    else if s[|s| - 1] == c then Some(|s| - 1)
    else LastIndex(s[..|s| - 1], c)
  }

  function KeepFrom(s: string): (r: nat)
    ensures r <= |s|
  {
    if |s| <= MAX_KEEP then 0
    else
      var start := FloorBoundary(s, |s| - MAX_KEEP);
      match LastIndex(s[..start], '<')
      case None => start
      case Some(lt) => if '>' !in s[lt..start] && |s| - lt <= 2 * MAX_KEEP then lt else start
  }

  function TrimBuffer(s: string): string {
    s[KeepFrom(s)..]
  }

  // ---- one call ----

  /** Proposed blocks first, then update blocks; checkboxes only when neither gave a plan. */
  function Feed(u: Unescape, buffer: string, text: string): Drained {
    var p := Drain(u, PROPOSED, buffer + text);
    var q := Drain(u, UPDATE, p.rest);
    var plans := p.plans + q.plans;
    var steps := BoxSteps(Lines(q.rest));
    if plans == [] && HasCheckbox(q.rest) && steps != [] then
      Drained([NewPlan(None, Capped(steps))], TrimBuffer(KeepLines("", Lines(q.rest))))
    else
      Drained(plans, TrimBuffer(q.rest))
  }

  /** A whole stream of chunks. */
  function FeedAll(u: Unescape, buffer: string, chunks: seq<string>): Drained
    decreases |chunks|
  {
    if chunks == [] then Drained([], buffer)
    else
      var d := Feed(u, buffer, chunks[0]);
      var r := FeedAll(u, d.rest, chunks[1..]);
      Drained(d.plans + r.plans, r.rest)
  }
}
