/** The plan parser and accumulator objects, each method tied to what `PlanSpec` computes. */
module PlanParsing {
  import opened Wrappers
  import opened Utf8
  import opened PlanScan
  import opened PlanSpec

  /** The steps of a block body: `<step>` children, else one step per non-blank line. */
  method ParseStepsText(u: Unescape, text: string, explanation: Option<string>) returns (plan: Option<Plan>)
    ensures plan == ParseBody(u, text, explanation)
  {
    hide FindBlock;
    hide XmlSteps;
    hide LineSteps;
    hide Lines;
    hide Trim;
    hide CutSteps;
    var steps := CollectXml(u, text);
    if steps == [] {
      steps := CollectLines(Lines(text));
    }
    if steps == [] {
      plan := None;
    } else {
      var e := None;
      if explanation.Some? {
        var cut := Truncate(explanation.value, MAX_EXPLANATION_LEN);
        e := Some(cut);
      }
      if |steps| > MAX_STEPS {
        steps := steps[..MAX_STEPS];
      }
      var i := 0;
      ghost var was := steps;
      while i < |steps|
        invariant |steps| == |was| && 0 <= i <= |was|
        invariant forall k :: 0 <= k < i ==> steps[k] == CutStep(was[k])
        invariant forall k :: i <= k < |was| ==> steps[k] == was[k]
      {
        var cut := Truncate(steps[i].step, MAX_STEP_LEN);
        steps := steps[i := steps[i].(step := cut)];
        i := i + 1;
      }
      assert steps == CutSteps(was);
      plan := Some(NewPlan(e, steps));
    }
  }

  method CollectXml(u: Unescape, text: string) returns (steps: seq<PlanStep>)
    ensures steps == XmlSteps(u, text)
  {
    hide FindBlock;
    hide XmlStep;
    steps := [];
    var at := 0;
    var m := FindBlock(STEP, text);
    assert text[0..] == text;
    while m.Some?
      invariant at <= |text| && m == FindBlock(STEP, text[at..])
      invariant XmlSteps(u, text) == steps + XmlSteps(u, text[at..])
      decreases |text| - at
    {
      var rest := text[at..];
      steps := steps + XmlStep(u, rest, m.value);
      assert rest[m.value.end..] == text[at + m.value.end..];
      at := at + m.value.end;
      m := FindBlock(STEP, text[at..]);
    }
  }

  method CollectLines(lines: seq<string>) returns (steps: seq<PlanStep>)
    ensures steps == LineSteps(lines)
  {
    hide Trim;
    hide TrimCheckbox;
    hide LineSteps;
    steps := [];
    var i := 0;
    assert lines[0..] == lines;
    while i < |lines|
      invariant i <= |lines|
      invariant LineSteps(lines) == steps + LineSteps(lines[i..])
    {
      var line := Trim(lines[i]);
      NextLine(lines, i);
      if line != "" {
        steps := steps + [NewStep(TrimCheckbox(line), Pending)];
      }
      i := i + 1;
    }
    NoLines(lines[i..]);
  }

  lemma NextLine(lines: seq<string>, i: nat)
    requires i < |lines|
    ensures LineSteps(lines[i..]) ==
            (if Trim(lines[i]) == "" then [] else [NewStep(TrimCheckbox(Trim(lines[i])), Pending)])
            + LineSteps(lines[i + 1..])
  {
    hide Trim;
    hide TrimCheckbox;
    assert lines[i..][1..] == lines[i + 1..];
  }

  lemma NoLines(lines: seq<string>)
    requires lines == []
    ensures LineSteps(lines) == [] && BoxSteps(lines) == [] && forall k :: KeepLines(k, lines) == k
  {
  }

  lemma NextBox(lines: seq<string>, i: nat, kept: string)
    requires i < |lines|
    ensures BoxSteps(lines[i..]) ==
            (match LineBox(lines[i]) case None => [] case Some(b) => BoxStep(b)) + BoxSteps(lines[i + 1..])
    ensures KeepLines(kept, lines[i..]) ==
            KeepLines(if LineBox(lines[i]).Some? then kept else KeepLine(kept, lines[i]), lines[i + 1..])
  {
    hide LineBox;
    hide BoxStep;
    assert lines[i..][1..] == lines[i + 1..];
  }

  class PlanParser {
    var buffer: string
    const unescape: Unescape

    constructor (unescape: Unescape)
      ensures buffer == "" && this.unescape == unescape
    {
      buffer := "";
      this.unescape := unescape;
    }

    /** Append `text`, report the plans now complete, and keep what may still become one. */
    method Feed(text: string) returns (plans: seq<Plan>)
      modifies this
      ensures Drained(plans, buffer) == PlanSpec.Feed(unescape, old(buffer), text)
    {
      hide Drain;
      hide HasCheckbox;
      hide BoxSteps;
      hide KeepLines;
      hide Lines;
      hide KeepFrom;
      buffer := buffer + text;
      var p := DrainBlocks(PROPOSED);
      var q := DrainBlocks(UPDATE);
      plans := p + q;
      if plans == [] && HasCheckbox(buffer) {
        var boxes := DrainCheckboxes();
        if boxes.Some? {
          plans := [boxes.value];
        }
      }
      Bound();
    }

    method DrainBlocks(t: Tag) returns (plans: seq<Plan>)
      modifies this
      ensures Drained(plans, buffer) == Drain(unescape, t, old(buffer))
    {
      hide FindBlock;
      hide ParseBody;
      hide Drain;
      plans := [];
      var lastEnd := 0;
      var text := buffer;
      var nextBuffer := "";
      var m := FindBlock(t, text);
      assert text[0..] == text;
      while m.Some?
        invariant buffer == text
        invariant lastEnd <= |text| && m == FindBlock(t, text[lastEnd..])
        invariant lastEnd == 0 ==> nextBuffer == "" && plans == []
        invariant Drain(unescape, t, text).plans == plans + Drain(unescape, t, text[lastEnd..]).plans
        invariant Drain(unescape, t, text).rest == nextBuffer + Drain(unescape, t, text[lastEnd..]).rest
        decreases |text| - lastEnd
      {
        var rest := text[lastEnd..];
        var b := m.value;
        DrainFirst(unescape, t, rest, b);
        var e := if b.value.Some? then Some(unescape(b.value.value)) else None;
        var plan := ParseStepsText(unescape, rest[b.open..b.close], e);
        if plan.Some? {
          plans := plans + [plan.value];
        }
        nextBuffer := nextBuffer + rest[..b.start];
        assert rest[b.end..] == text[lastEnd + b.end..];
        lastEnd := lastEnd + b.end;
        m := FindBlock(t, text[lastEnd..]);
      }
      DrainNothing(unescape, t, text[lastEnd..]);
      if lastEnd > 0 {
        buffer := nextBuffer + text[lastEnd..];
      }
    }

    method DrainCheckboxes() returns (plan: Option<Plan>)
      modifies this
      ensures var lines := Lines(old(buffer));
              var steps := BoxSteps(lines);
              if steps == [] then plan == None && buffer == old(buffer)
              else plan == Some(NewPlan(None, Capped(steps))) && buffer == KeepLines("", lines)
    {
      hide LineBox;
      hide BoxStep;
      hide BoxSteps;
      hide KeepLines;
      var lines := Lines(buffer);
      var steps := [];
      var kept := "";
      var i := 0;
      assert lines[0..] == lines;
      while i < |lines|
        invariant buffer == old(buffer) && i <= |lines|
        invariant BoxSteps(lines) == steps + BoxSteps(lines[i..])
        invariant KeepLines("", lines) == KeepLines(kept, lines[i..])
      {
        var line := lines[i];
        NextBox(lines, i, kept);
        var box := LineBox(line);
        if box.Some? {
          steps := steps + BoxStep(box.value);
        } else {
          kept := KeepLine(kept, line);
        }
        i := i + 1;
      }
      NoLines(lines[i..]);
      assert steps == BoxSteps(lines);
      if steps == [] {
        plan := None;
      } else {
        buffer := kept;
        plan := Some(NewPlan(None, Capped(steps)));
      }
    }

    /** `trim_buffer`: keep the last 64 KiB, extended back to a character start and an open tag. */
    method Bound()
      modifies this
      ensures buffer == TrimBuffer(old(buffer))
    {
      if |buffer| <= MAX_KEEP {
        assert buffer[0..] == buffer;
        return;
      }
      var start := |buffer| - MAX_KEEP;
      while start > 0 && !Boundary(buffer, start)
        invariant 0 <= start <= |buffer| - MAX_KEEP
        invariant FloorBoundary(buffer, start) == FloorBoundary(buffer, |buffer| - MAX_KEEP)
      {
        start := start - 1;
      }
      var lt := LastIndex(buffer[..start], '<');
      if lt.Some? && '>' !in buffer[lt.value..start] && |buffer| - lt.value <= 2 * MAX_KEEP {
        start := lt.value;
      }
      buffer := buffer[start..];
    }
  }

  /** The active plan: every reported plan replaces the one before it. */
  class PlanAccumulator {
    const parser: PlanParser
    var current: Option<Plan>

    constructor (unescape: Unescape)
      ensures current == None && fresh(parser) && parser.buffer == "" && parser.unescape == unescape
    {
      parser := new PlanParser(unescape);
      current := None;
    }

    method Feed(text: string) returns (changed: bool)
      modifies this, parser
      ensures var d := PlanSpec.Feed(parser.unescape, old(parser.buffer), text);
              && parser.buffer == d.rest
              && changed == (d.plans != [])
              && current == if d.plans == [] then old(current) else Some(d.plans[|d.plans| - 1])
    {
      hide PlanSpec.Feed;
      changed := false;
      var plans := parser.Feed(text);
      for i := 0 to |plans|
        invariant changed == (i > 0)
        invariant current == if i == 0 then old(current) else Some(plans[i - 1])
        invariant parser.buffer == PlanSpec.Feed(parser.unescape, old(parser.buffer), text).rest
      {
        current := Some(plans[i]);
        changed := true;
      }
    }
  }
}
