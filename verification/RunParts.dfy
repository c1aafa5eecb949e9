/**
 The parts of a streamed answer. `apply_part` folds the stream as it arrives; here that fold is
 shown to equal merging the runs of a log that never merged anything.
 */
module RunParts {
  import opened Wrappers

  /** A tool call is identified by its id; the rest of it is `payload`. */
  datatype Part = Text(content: string) | Thinking(content: string) | ToolCall(id: string, payload: string) {
    function ToolId(): Option<string> { if ToolCall? then Some(id) else None }
  }

  /** One call of `apply_part`. */
  datatype Delta = Delta(part: Part, isUpdate: bool)

  predicate SameKind(a: Part, b: Part) {
    (a.Text? && b.Text?) || (a.Thinking? && b.Thinking?)
  }

  function Merge(a: Part, b: Part): Part
    requires SameKind(a, b)
  {
    if a.Text? then Text(a.content + b.content) else Thinking(a.content + b.content)
  }

  /** Where the part with tool id `id` sits. */
  function Slot(parts: seq<Part>, id: string): (r: Option<nat>)
    ensures r.Some? ==> r.value < |parts| && parts[r.value].ToolId() == Some(id)
    ensures r.Some? ==> forall i :: 0 <= i < r.value ==> parts[i].ToolId() != Some(id)
    ensures r.None? ==> forall i :: 0 <= i < |parts| ==> parts[i].ToolId() != Some(id)
  {
    if parts == [] then None
    else if parts[0].ToolId() == Some(id) then Some(0)
    else
      match Slot(parts[1..], id)
      case None => None
      case Some(i) => Some(i + 1)
  }

  // ---- the log that keeps every delta apart ----

  function LogDelta(log: seq<Part>, d: Delta): seq<Part> {
    var at := if d.part.ToolCall? then Slot(log, d.part.id) else None;
    if at.Some? then log[at.value := d.part]
    else if d.isUpdate then log
    else log + [d.part]
  }

  function Log(deltas: seq<Delta>): seq<Part> {
    if deltas == [] then [] else LogDelta(Log(deltas[..|deltas| - 1]), deltas[|deltas| - 1])
  }

  /** How many leading parts form one run: a tool call stands alone. */
  function RunLength(log: seq<Part>): (n: nat)
    requires log != []
    ensures 1 <= n <= |log|
  {
    if |log| > 1 && SameKind(log[0], log[1]) then 1 + RunLength(log[1..]) else 1
  }

  function RunText(log: seq<Part>, n: nat): string
    requires n <= |log| && forall i :: 0 <= i < n ==> !log[i].ToolCall?
  {
    if n == 0 then "" else RunText(log, n - 1) + log[n - 1].content
  }

  lemma {:induction false} RunIsOneKind(log: seq<Part>)
    requires log != []
    ensures var n := RunLength(log);
            && (n > 1 ==> forall i :: 0 <= i < n ==> SameKind(log[0], log[i]))
            && (n < |log| ==> !SameKind(log[n - 1], log[n]))
  {
    if |log| > 1 && SameKind(log[0], log[1]) {
      RunIsOneKind(log[1..]);
      var n := RunLength(log);
      forall i | 0 <= i < n ensures SameKind(log[0], log[i]) {
        if i > 0 {
          assert log[i] == log[1..][i - 1];
        }
      }
    }
  }

  /** The part that a run amounts to. */
  function RunPart(log: seq<Part>): Part
    requires log != []
  {
    if log[0].ToolCall? then log[0]
    else
      RunIsOneKind(log);
      var text := RunText(log, RunLength(log));
      if log[0].Text? then Text(text) else Thinking(text)
  }

  /** The log with each maximal run of text, and each of thinking, made one part. */
  function Coalesce(log: seq<Part>): seq<Part>
    decreases |log|
  {
    if log == [] then [] else [RunPart(log)] + Coalesce(log[RunLength(log)..])
  }

  // ---- the fold the program does ----

  function ApplyDelta(parts: seq<Part>, d: Delta): seq<Part> {
    var at := if d.part.ToolCall? then Slot(parts, d.part.id) else None;
    if at.Some? then parts[at.value := d.part]
    else if d.isUpdate then parts
    else Push(parts, d.part)
  }

  function Push(parts: seq<Part>, p: Part): seq<Part> {
    if parts != [] && SameKind(parts[|parts| - 1], p)
    then parts[|parts| - 1 := Merge(parts[|parts| - 1], p)]
    else parts + [p]
  }

  function Apply(deltas: seq<Delta>): seq<Part> {
    if deltas == [] then [] else ApplyDelta(Apply(deltas[..|deltas| - 1]), deltas[|deltas| - 1])
  }

  // ---- they agree ----

  lemma {:induction false} RunOfAppended(log: seq<Part>, p: Part)
    requires log != []
    ensures RunLength(log + [p]) ==
            if RunLength(log) == |log| && SameKind(log[|log| - 1], p) then |log| + 1 else RunLength(log)
  {
    assert (log + [p])[1..] == log[1..] + [p];
    if |log| > 1 && SameKind(log[0], log[1]) {
      RunOfAppended(log[1..], p);
    }
  }

  lemma {:induction false} RunTextPrefix(log: seq<Part>, p: Part, n: nat)
    requires n <= |log| && forall i :: 0 <= i < n ==> !log[i].ToolCall?
    ensures RunText(log + [p], n) == RunText(log, n)
  {
    if n > 0 {
      RunTextPrefix(log, p, n - 1);
    }
  }

  lemma CoalesceFirst(log: seq<Part>)
    requires log != []
    ensures Coalesce(log) == [RunPart(log)] + Coalesce(log[RunLength(log)..])
  {
  }

  lemma CoalesceOne(p: Part)
    ensures Coalesce([p]) == [p]
  {
    assert [p][1..] == [];
    if !p.ToolCall? {
      assert RunText([p], 1) == "" + p.content == p.content;
    }
  }

  /** A log that is a single run. */
  lemma CoalesceRun(log: seq<Part>)
    requires log != [] && RunLength(log) == |log|
    ensures Coalesce(log) == [RunPart(log)]
    ensures forall p :: SameKind(RunPart(log), p) == SameKind(log[|log| - 1], p)
  {
    hide RunText;
    hide RunLength;
    RunIsOneKind(log);
    assert log[|log|..] == [];
    CoalesceFirst(log);
  }

  lemma RunPartGrows(log: seq<Part>, p: Part)
    requires log != [] && RunLength(log) == |log| && SameKind(log[|log| - 1], p)
    requires RunLength(log + [p]) == |log| + 1
    ensures SameKind(RunPart(log), p) && RunPart(log + [p]) == Merge(RunPart(log), p)
  {
    hide RunLength;
    RunIsOneKind(log);
    RunIsOneKind(log + [p]);
    RunTextPrefix(log, p, |log|);
  }

  lemma WholeRunAppended(log: seq<Part>, p: Part)
    requires log != [] && RunLength(log) == |log| && SameKind(log[|log| - 1], p)
    ensures Coalesce(log + [p]) == Push(Coalesce(log), p)
  {
    hide RunLength;
    hide RunText;
    hide Coalesce;
    hide RunPart;
    hide Merge;
    RunOfAppended(log, p);
    RunPartGrows(log, p);
    CoalesceRun(log);
    CoalesceRun(log + [p]);
  }

  lemma FirstRunAppended(log: seq<Part>, p: Part)
    requires log != [] && RunLength(log + [p]) == RunLength(log)
    ensures RunPart(log + [p]) == RunPart(log)
  {
    hide RunLength;
    hide RunText;
    RunIsOneKind(log);
    RunIsOneKind(log + [p]);
    if !log[0].ToolCall? {
      RunTextPrefix(log, p, RunLength(log));
    }
  }

  lemma PushAfter(first: Part, rest: seq<Part>, p: Part)
    requires rest == [] ==> !SameKind(first, p)
    ensures Push([first] + rest, p) == [first] + Push(rest, p)
  {
    hide Merge;
    if rest == [] {
      assert [first] + [p] == [first] + ([] + [p]);
    }
  }

  /** Appending one delta to the log pushes it onto the merged parts. */
  lemma {:induction false} CoalesceAppend(log: seq<Part>, p: Part)
    ensures Coalesce(log + [p]) == Push(Coalesce(log), p)
    decreases |log|, 1
  {
    hide RunLength;
    hide RunPart;
    hide Merge;
    hide Push;
    if log == [] {
      assert [] + [p] == [p];
      CoalesceOne(p);
      assert Push([], p) == [p] by { PushNothing(p); }
    } else if RunLength(log) == |log| && SameKind(log[|log| - 1], p) {
      WholeRunAppended(log, p);
    } else {
      CoalesceAppendLater(log, p);
    }
  }

  lemma PushNothing(p: Part)
    ensures Push([], p) == [p]
  {
    assert [] + [p] == [p];
  }

  lemma CoalesceAppendLater(log: seq<Part>, p: Part)
    requires log != [] && !(RunLength(log) == |log| && SameKind(log[|log| - 1], p))
    ensures Coalesce(log + [p]) == Push(Coalesce(log), p)
    decreases |log|, 0
  {
    hide RunLength;
    hide RunPart;
    hide Merge;
    hide Push;
    hide Coalesce;
    var n := RunLength(log);
    RunOfAppended(log, p);
    FirstRunAppended(log, p);
    assert (log + [p])[n..] == log[n..] + [p];
    CoalesceFirst(log);
    CoalesceFirst(log + [p]);
    CoalesceAppend(log[n..], p);
    if Coalesce(log[n..]) == [] {
      CoalesceEmpty(log[n..]);
      CoalesceRun(log);
    }
    PushAfter(RunPart(log), Coalesce(log[n..]), p);
  }

  lemma CoalesceEmpty(log: seq<Part>)
    requires Coalesce(log) == []
    ensures log == []
  {
  }

  // ---- replacing a tool call ----

  /** Leaving out a prefix that has no such tool moves the slot down. */
  lemma SlotDrop(parts: seq<Part>, id: string, n: nat)
    requires n <= |parts| && forall i :: 0 <= i < n ==> parts[i].ToolId() != Some(id)
    ensures Slot(parts, id) == match Slot(parts[n..], id) case None => None case Some(i) => Some(i + n)
  {
    hide Slot;
    var a, b := Slot(parts, id), Slot(parts[n..], id);
    if a.Some? {
      assert parts[n..][a.value - n].ToolId() == Some(id);
    }
    if b.Some? {
      assert parts[b.value + n].ToolId() == Some(id);
      assert a.Some? && a.value <= b.value + n;
    }
  }

  /** A first run that is not the tool call `id` has no part with that id. */
  lemma FirstRunIsOther(log: seq<Part>, id: string)
    requires log != [] && log[0].ToolId() != Some(id)
    ensures forall i :: 0 <= i < RunLength(log) ==> log[i].ToolId() != Some(id)
    ensures RunPart(log).ToolId() != Some(id)
  {
    hide RunLength;
    hide RunText;
    RunIsOneKind(log);
  }

  lemma FirstRunIsTool(log: seq<Part>)
    requires log != [] && log[0].ToolCall?
    ensures RunLength(log) == 1 && RunPart(log) == log[0]
  {
    hide RunText;
  }

  /** Merging runs neither loses nor invents a tool call. */
  lemma {:induction false} SlotMerged(log: seq<Part>, id: string)
    ensures Slot(Coalesce(log), id).Some? == Slot(log, id).Some?
    decreases |log|
  {
    hide Slot;
    hide RunLength;
    hide RunPart;
    if log != [] {
      var rest := Coalesce(log[RunLength(log)..]);
      assert Coalesce(log)[0] == RunPart(log) && Coalesce(log)[1..] == rest;
      if log[0].ToolId() == Some(id) {
        FirstRunIsTool(log);
      } else {
        FirstRunIsOther(log, id);
        SlotDrop(log, id, RunLength(log));
        SlotDrop(Coalesce(log), id, 1);
        SlotMerged(log[RunLength(log)..], id);
      }
    }
  }

  /** A tool call behind the first run does not change that run. */
  lemma RunBeforeTool(log: seq<Part>, i: nat, t: Part)
    requires i < |log| && log[i].ToolCall? && t.ToolCall? && RunLength(log) <= i
    ensures RunLength(log[i := t]) == RunLength(log) && RunPart(log[i := t]) == RunPart(log)
  {
    RunLengthBeforeTool(log, i, t);
    hide RunLength;
    RunIsOneKind(log);
    RunIsOneKind(log[i := t]);
    if !log[0].ToolCall? {
      RunTextBefore(log, i, t, RunLength(log));
    }
  }

  lemma {:induction false} RunLengthBeforeTool(log: seq<Part>, i: nat, t: Part)
    requires i < |log| && log[i].ToolCall? && t.ToolCall? && RunLength(log) <= i
    ensures RunLength(log[i := t]) == RunLength(log)
  {
    assert i > 0 ==> log[i := t][1..] == log[1..][i - 1 := t];
    if |log| > 1 && SameKind(log[0], log[1]) {
      RunLengthBeforeTool(log[1..], i - 1, t);
    }
  }

  lemma {:induction false} RunTextBefore(log: seq<Part>, i: nat, t: Part, n: nat)
    requires n <= i < |log| && forall k :: 0 <= k < n ==> !log[k].ToolCall?
    ensures RunText(log[i := t], n) == RunText(log, n)
  {
    if n > 0 {
      RunTextBefore(log, i, t, n - 1);
    }
  }

  /** Replacing a tool call in the log replaces it at its slot among the merged parts. */
  lemma {:induction false} CoalesceReplace(log: seq<Part>, t: Part)
    requires t.ToolCall? && Slot(log, t.id).Some?
    ensures Slot(Coalesce(log), t.id).Some?
    ensures Coalesce(log[Slot(log, t.id).value := t]) == Coalesce(log)[Slot(Coalesce(log), t.id).value := t]
    decreases |log|
  {
    hide Slot;
    hide RunLength;
    hide RunPart;
    hide Coalesce;
    SlotMerged(log, t.id);
    CoalesceFirst(log);
    var i := Slot(log, t.id).value;
    var n := RunLength(log);
    CoalesceFirst(log[i := t]);
    if i == 0 {
      FirstRunIsTool(log);
      FirstRunIsTool(log[0 := t]);
      assert log[0 := t][1..] == log[1..];
      assert Slot(Coalesce(log), t.id) == Some(0) by { assert Coalesce(log)[0].ToolId() == Some(t.id); }
    } else {
      CoalesceReplaceLater(log, t);
    }
  }

  lemma CoalesceReplaceLater(log: seq<Part>, t: Part)
    requires t.ToolCall? && Slot(log, t.id).Some? && Slot(log, t.id).value > 0 && Slot(Coalesce(log), t.id).Some?
    ensures Coalesce(log[Slot(log, t.id).value := t]) == Coalesce(log)[Slot(Coalesce(log), t.id).value := t]
    decreases |log|, 0
  {
    hide Slot;
    hide RunLength;
    hide RunPart;
    hide Coalesce;
    var i := Slot(log, t.id).value;
    var n := RunLength(log);
    FirstRunIsOther(log, t.id);
    SlotDrop(log, t.id, n);
    RunBeforeTool(log, i, t);
    CoalesceFirst(log);
    CoalesceFirst(log[i := t]);
    assert log[i := t][n..] == log[n..][i - n := t];
    SlotDrop(Coalesce(log), t.id, 1);
    assert Coalesce(log)[1..] == Coalesce(log[n..]);
    CoalesceReplace(log[n..], t);
  }

  // ---- the main results ----

  lemma DeltaAgrees(log: seq<Part>, d: Delta)
    ensures ApplyDelta(Coalesce(log), d) == Coalesce(LogDelta(log, d))
  {
    hide Slot;
    hide Coalesce;
    hide Push;
    if d.part.ToolCall? {
      SlotMerged(log, d.part.id);
      if Slot(log, d.part.id).Some? {
        CoalesceReplace(log, d.part);
      }
    }
    CoalesceAppend(log, d.part);
  }

  /** Folding deltas as they arrive equals merging the runs of the log that kept them apart. */
  lemma {:induction false} ApplyIsMergedLog(deltas: seq<Delta>)
    ensures Apply(deltas) == Coalesce(Log(deltas))
  {
    hide ApplyDelta;
    hide LogDelta;
    hide Coalesce;
    if deltas == [] {
      CoalesceNothing();
    } else {
      var front := deltas[..|deltas| - 1];
      ApplyIsMergedLog(front);
      DeltaAgrees(Log(front), deltas[|deltas| - 1]);
    }
  }

  lemma CoalesceNothing()
    ensures Coalesce([]) == []
  {
  }

  /** What a reader sees: the characters of text and thinking, and the tool calls, in order. */
  datatype Atom = Shown(text: bool, c: char) | Called(call: Part)

  function Atoms(p: Part): seq<Atom> {
    if p.ToolCall? then [Called(p)] else seq(|p.content|, i requires 0 <= i < |p.content| => Shown(p.Text?, p.content[i]))
  }

  function Flatten(parts: seq<Part>): seq<Atom> {
    if parts == [] then [] else Flatten(parts[..|parts| - 1]) + Atoms(parts[|parts| - 1])
  }

  predicate NoAdjacentRuns(parts: seq<Part>) {
    forall i :: 0 < i < |parts| ==> !SameKind(parts[i - 1], parts[i])
  }

  lemma FlattenPush(parts: seq<Part>, p: Part)
    ensures Flatten(Push(parts, p)) == Flatten(parts) + Atoms(p)
  {
    hide Atoms;
    hide Merge;
    var q := Push(parts, p);
    if parts != [] && SameKind(parts[|parts| - 1], p) {
      var front, last := parts[..|parts| - 1], parts[|parts| - 1];
      assert q[..|q| - 1] == front && q[|q| - 1] == Merge(last, p);
      MergeAtoms(last, p);
      assert Flatten(q) == Flatten(front) + (Atoms(last) + Atoms(p));
    } else {
      assert q[..|q| - 1] == parts;
    }
  }

  lemma MergeAtoms(a: Part, b: Part)
    requires SameKind(a, b)
    ensures Atoms(Merge(a, b)) == Atoms(a) + Atoms(b)
  {
  }

  /** Merging changes nothing a reader sees, and leaves no two neighbours to merge. */
  lemma {:induction false} MergedLogReadsTheSame(log: seq<Part>)
    ensures Flatten(Coalesce(log)) == Flatten(log) && NoAdjacentRuns(Coalesce(log))
  {
    hide Atoms;
    hide Coalesce;
    hide Push;
    if log == [] {
      CoalesceNothing();
    } else {
      var front, p := log[..|log| - 1], log[|log| - 1];
      assert front + [p] == log;
      MergedLogReadsTheSame(front);
      CoalesceAppend(front, p);
      FlattenPush(Coalesce(front), p);
      PushKeepsApart(Coalesce(front), p);
    }
  }

  lemma PushKeepsApart(parts: seq<Part>, p: Part)
    requires NoAdjacentRuns(parts)
    ensures NoAdjacentRuns(Push(parts, p))
  {
  }

  /** So the fold loses and reorders nothing either. */
  lemma NothingLostOrReordered(deltas: seq<Delta>)
    ensures Flatten(Apply(deltas)) == Flatten(Log(deltas)) && NoAdjacentRuns(Apply(deltas))
  {
    hide Flatten;
    hide Apply;
    hide Log;
    hide NoAdjacentRuns;
    hide Coalesce;
    ApplyIsMergedLog(deltas);
    MergedLogReadsTheSame(Log(deltas));
  }

  predicate UniqueTools(parts: seq<Part>) {
    forall i, j :: 0 <= i < j < |parts| && parts[i].ToolCall? ==> parts[i].ToolId() != parts[j].ToolId()
  }

  /** A delta adds at most one tool call, at the end and with a new id. */
  lemma SameTools(parts: seq<Part>, d: Delta)
    ensures var after := ApplyDelta(parts, d);
            && |parts| <= |after| <= |parts| + 1
            && (forall k :: 0 <= k < |parts| ==> after[k].ToolId() == parts[k].ToolId())
            && (|after| > |parts| && after[|parts|].ToolCall? ==>
                  forall k :: 0 <= k < |parts| ==> parts[k].ToolId() != after[|parts|].ToolId())
  {
    hide Slot;
  }

  /** Tool ids stay unique, and a tool call keeps the slot it first got. */
  lemma SlotsAreStable(parts: seq<Part>, d: Delta, id: string)
    requires UniqueTools(parts)
    ensures UniqueTools(ApplyDelta(parts, d))
    ensures Slot(parts, id).Some? ==> Slot(ApplyDelta(parts, d), id) == Slot(parts, id)
  {
    hide Slot;
    hide ApplyDelta;
    var after := ApplyDelta(parts, d);
    SameTools(parts, d);
    if Slot(parts, id).Some? {
      var i := Slot(parts, id).value;
      assert after[i].ToolId() == Some(id);
    }
  }

  lemma {:induction false} ToolsAreUnique(deltas: seq<Delta>)
    ensures UniqueTools(Apply(deltas))
  {
    hide ApplyDelta;
    hide UniqueTools;
    if deltas == [] {
      assert UniqueTools([]) by { NoTools(); }
    } else {
      ToolsAreUnique(deltas[..|deltas| - 1]);
      SlotsAreStable(Apply(deltas[..|deltas| - 1]), deltas[|deltas| - 1], "");
    }
  }

  lemma NoTools()
    ensures UniqueTools([])
  {
  }

  /** However the stream goes on, a tool call stays where it first appeared. */
  lemma {:induction false} ToolsKeepTheirSlot(early: seq<Delta>, later: seq<Delta>, id: string)
    requires Slot(Apply(early), id).Some?
    ensures Slot(Apply(early + later), id) == Slot(Apply(early), id)
  {
    hide ApplyDelta;
    hide Slot;
    hide UniqueTools;
    var all := early + later;
    if later == [] {
      assert all == early;
    } else {
      var n := |later| - 1;
      assert all[..|all| - 1] == early + later[..n] && all[|all| - 1] == later[n];
      ToolsKeepTheirSlot(early, later[..n], id);
      ToolsAreUnique(early + later[..n]);
      SlotsAreStable(Apply(early + later[..n]), later[n], id);
    }
  }
}
