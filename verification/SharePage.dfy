/** The page of a shared conversation: how a message is rendered, and that its folds nest. */
module SharePage {
  import opened Wrappers
  import opened Strings
  import opened Escaping

  datatype ToolCall = ToolCall(
    title: string,
    kind: string,
    status: string,
    command: Option<string>,
    output: Option<string>,
    outputPreview: Option<string>)

  datatype Part = Text(content: string) | Thinking(content: string) | Tool(payload: ToolCall)

  /** `timestamp` and `attachments` are what is left of the stored ones after shortening. */
  datatype Message = Message(
    role: string,
    timestamp: string,
    attachments: seq<string>,
    parts: seq<Part>,
    thinking: Option<string>,
    content: string,
    truncated: bool)

  type Markdown = string -> string

  function Tag(name: string): string { "<" + name + ">" }

  const THOUGHTS := Tag("details class=\"thinking\"") + Tag("summary") + "Thinking" + Tag("/summary") + Tag("pre")
  const END_THOUGHTS := Tag("/pre") + Tag("/details")

  // ---- the pieces ----

  /** `name` around escaped text; nothing for no text. */
  function Boxed(open: string, text: string, close: string): string {
    if text == "" then "" else Tag(open) + EscapeHtml(text) + Tag(close)
  }

  function OrEmpty(o: Option<string>): string { if o.Some? then o.value else "" }

  function ToolOutput(t: ToolCall): string {
    if t.output.Some? then t.output.value else OrEmpty(t.outputPreview)
  }

  function StatusBadge(status: string): string {
    if status == "" then ""
    else Tag("span class=\"tool-status status-" + EscapeHtml(status) + "\"") + EscapeHtml(status) + Tag("/span")
  }

  function RenderToolCall(t: ToolCall): string {
    Tag("details class=\"tool\"")
    + (Tag("summary")
       + (Tag("span class=\"tool-name\"") + EscapeHtml(t.title) + Tag("/span"))
       + Boxed("span class=\"tool-kind\"", t.kind, "/span")
       + StatusBadge(t.status)
       + Tag("/summary")
       + Boxed("pre class=\"tool-command\"", OrEmpty(t.command), "/pre")
       + Boxed("pre class=\"tool-output\"", ToolOutput(t), "/pre"))
    + Tag("/details")
  }

  function RenderThinking(text: string): string { THOUGHTS + EscapeHtml(text) + END_THOUGHTS }

  function RenderBody(text: string, md: Markdown): string {
    if text == "" then "" else Tag("div class=\"body\"") + md(text) + Tag("/div")
  }

  // ---- parts: maximal groups of thinking, each rendered on its own ----

  /** How many leading parts are thinking. */
  function ThinkingRun(parts: seq<Part>): (n: nat)
    ensures n <= |parts| && forall i :: 0 <= i < n ==> parts[i].Thinking?
    ensures n < |parts| ==> !parts[n].Thinking?
  {
    if parts == [] || !parts[0].Thinking? then 0 else 1 + ThinkingRun(parts[1..])
  }

  /** What the group's non-empty parts say, with a blank line between them. */
  function Thoughts(run: seq<Part>): seq<string>
    requires forall i :: 0 <= i < |run| ==> run[i].Thinking?
  {
    if run == [] then []
    else (if run[0].content == "" then [] else [EscapeHtml(run[0].content)]) + Thoughts(run[1..])
  }

  function Join(texts: seq<string>): string {
    if texts == [] then "" else if |texts| == 1 then texts[0] else texts[0] + "\n\n" + Join(texts[1..])
  }

  function RenderGroup(run: seq<Part>): string
    requires forall i :: 0 <= i < |run| ==> run[i].Thinking?
  {
    if Thoughts(run) == [] then "" else THOUGHTS + Join(Thoughts(run)) + END_THOUGHTS
  }

  function RenderParts(parts: seq<Part>, md: Markdown): string
    decreases |parts|
  {
    if parts == [] then ""
    else
      match parts[0]
      case Text(content) => RenderBody(content, md) + RenderParts(parts[1..], md)
      case Tool(payload) => RenderToolCall(payload) + RenderParts(parts[1..], md)
      case Thinking(_) =>
        var n := ThinkingRun(parts);
        RenderGroup(parts[..n]) + RenderParts(parts[n..], md)
  }

  // ---- the automaton with its `thinking_open` flag ----

  /** What is still to be written when a fold is open. */
  function Continue(parts: seq<Part>, md: Markdown): string {
    var n := ThinkingRun(parts);
    More(Thoughts(parts[..n])) + END_THOUGHTS + RenderParts(parts[n..], md)
  }

  function More(texts: seq<string>): string {
    if texts == [] then "" else "\n\n" + texts[0] + More(texts[1..])
  }

  /** What is still to be written. */
  function Rest(parts: seq<Part>, md: Markdown, open: bool): string {
    if open then Continue(parts, md) else RenderParts(parts, md)
  }

  lemma {:induction false} JoinMore(text: string, texts: seq<string>)
    ensures Join([text] + texts) == text + More(texts)
    decreases |texts|
  {
    assert ([text] + texts)[1..] == texts;
    if texts == [] {
      assert text + "" == text;
    } else {
      JoinMore(texts[0], texts[1..]);
      assert [texts[0]] + texts[1..] == texts;
    }
  }

  lemma FirstThinking(parts: seq<Part>)
    requires parts != [] && parts[0].Thinking?
    ensures var n, m := ThinkingRun(parts), ThinkingRun(parts[1..]);
            && n == 1 + m && parts[n..] == parts[1..][m..]
            && Thoughts(parts[..n]) ==
               (if parts[0].content == "" then [] else [EscapeHtml(parts[0].content)]) + Thoughts(parts[1..][..m])
  {
    hide Thoughts;
    var n := ThinkingRun(parts);
    assert parts[..n][1..] == parts[1..][..n - 1];
    ThoughtsFirst(parts[..n]);
  }

  lemma ThoughtsFirst(run: seq<Part>)
    requires run != [] && forall i :: 0 <= i < |run| ==> run[i].Thinking?
    ensures Thoughts(run) == (if run[0].content == "" then [] else [EscapeHtml(run[0].content)]) + Thoughts(run[1..])
  {
  }

  /** A thinking part opens a fold, or goes on in the open one, or says nothing. */
  lemma ThinkingStep(parts: seq<Part>, md: Markdown, open: bool)
    requires parts != [] && parts[0].Thinking?
    ensures var c := parts[0].content;
            Rest(parts, md, open) ==
            if c == "" then Rest(parts[1..], md, open)
            else (if open then "\n\n" else THOUGHTS) + EscapeHtml(c) + Rest(parts[1..], md, true)
  {
    hide Thoughts;
    hide Join;
    hide More;
    hide RenderParts;
    hide ThinkingRun;
    FirstThinking(parts);
    var m := ThinkingRun(parts[1..]);
    var later := Thoughts(parts[1..][..m]);
    var c := parts[0].content;
    RenderThinkingFirst(parts, md);
    if c == "" {
      assert [] + later == later;
      RenderAnyRun(parts[1..], md);
    } else {
      JoinMore(EscapeHtml(c), later);
      MoreFirst(EscapeHtml(c), later);
      Associate(open, EscapeHtml(c), More(later), RenderParts(parts[1..][m..], md));
    }
  }

  lemma MoreFirst(text: string, texts: seq<string>)
    ensures More([text] + texts) == "\n\n" + text + More(texts)
  {
    assert ([text] + texts)[1..] == texts;
  }

  lemma Associate(open: bool, text: string, more: string, rest: string)
    ensures THOUGHTS + (text + more) + END_THOUGHTS + rest == THOUGHTS + text + (more + END_THOUGHTS + rest)
    ensures "\n\n" + text + more + END_THOUGHTS + rest == "\n\n" + text + (more + END_THOUGHTS + rest)
  {
  }

  lemma RenderThinkingFirst(parts: seq<Part>, md: Markdown)
    requires parts != [] && parts[0].Thinking?
    ensures var n := ThinkingRun(parts); RenderParts(parts, md) == RenderGroup(parts[..n]) + RenderParts(parts[n..], md)
  {
  }

  /** Splitting off a group works for an empty one too. */
  lemma RenderAnyRun(parts: seq<Part>, md: Markdown)
    ensures var n := ThinkingRun(parts); RenderParts(parts, md) == RenderGroup(parts[..n]) + RenderParts(parts[n..], md)
  {
    var n := ThinkingRun(parts);
    if n == 0 {
      assert parts[..0] == [] && parts[0..] == parts;
      assert "" + RenderParts(parts, md) == RenderParts(parts, md);
    } else {
      RenderThinkingFirst(parts, md);
    }
  }

  /** Anything else ends an open fold first. */
  lemma OtherStep(parts: seq<Part>, md: Markdown, open: bool)
    requires parts == [] || !parts[0].Thinking?
    ensures Rest(parts, md, open) == (if open then END_THOUGHTS else "") + RenderParts(parts, md)
  {
    hide RenderParts;
    assert ThinkingRun(parts) == 0;
    assert parts[..0] == [] && parts[0..] == parts;
    assert Thoughts([]) == [] && More([]) == "";
    assert "" + END_THOUGHTS == END_THOUGHTS;
    assert "" + RenderParts(parts, md) == RenderParts(parts, md);
  }

  lemma TextStep(parts: seq<Part>, md: Markdown)
    requires parts != [] && !parts[0].Thinking?
    ensures RenderParts(parts, md) ==
            (if parts[0].Text? then RenderBody(parts[0].content, md) else RenderToolCall(parts[0].payload))
            + RenderParts(parts[1..], md)
  {
    hide RenderToolCall;
    hide RenderBody;
  }

  method RenderPartsLoop(parts: seq<Part>, md: Markdown) returns (out: string)
    ensures out == RenderParts(parts, md)
  {
    hide RenderParts;
    hide RenderToolCall;
    hide RenderBody;
    hide Rest;
    out := "";
    var open := false;
    NothingOpen(parts, md);
    for i := 0 to |parts|
      invariant out + Rest(parts[i..], md, open) == RenderParts(parts, md)
    {
      out, open := RenderOne(parts, md, i, out, open);
    }
    assert parts[|parts|..] == [];
    OtherStep([], md, open);
    NoParts(md);
    if open {
      out := out + END_THOUGHTS;
    }
  }

  lemma NothingOpen(parts: seq<Part>, md: Markdown)
    ensures "" + Rest(parts[0..], md, false) == RenderParts(parts, md)
  {
    assert parts[0..] == parts;
  }

  lemma NoParts(md: Markdown)
    ensures RenderParts([], md) == ""
  {
  }

  lemma Assoc(a: string, b: string, c: string, d: string)
    ensures a + (b + c + d) == a + b + c + d
    ensures a + (b + (c + d)) == a + b + c + d
  {
  }

  lemma ClosedRest(parts: seq<Part>, md: Markdown)
    ensures Rest(parts, md, false) == RenderParts(parts, md)
  {
  }

  /** One turn of the loop. */
  method RenderOne(parts: seq<Part>, md: Markdown, i: nat, out0: string, open0: bool) returns (out: string, open: bool)
    requires i < |parts| && out0 + Rest(parts[i..], md, open0) == RenderParts(parts, md)
    ensures out + Rest(parts[i + 1..], md, open) == RenderParts(parts, md)
  {
    hide RenderParts;
    hide RenderToolCall;
    hide RenderBody;
    hide Rest;
    hide EscapeHtml;
    hide Tag;
    out, open := out0, open0;
    var part := parts[i];
    assert parts[i..][1..] == parts[i + 1..];
    if part.Thinking? {
      ThinkingStep(parts[i..], md, open);
      if part.content != "" {
        var start := if open then "\n\n" else THOUGHTS;
        open := true;
        out := out + start + EscapeHtml(part.content);
        Assoc(out0, start, EscapeHtml(part.content), Rest(parts[i + 1..], md, true));
      }
    } else {
      OtherStep(parts[i..], md, open);
      TextStep(parts[i..], md);
      var end := if open then END_THOUGHTS else "";
      var shown := if part.Text? then RenderBody(part.content, md) else RenderToolCall(part.payload);
      out := out + end + shown;
      open := false;
      Assoc(out0, end, shown, RenderParts(parts[i + 1..], md));
      ClosedRest(parts[i + 1..], md);
    }
  }

  // ---- the whole message ----

  function RoleClass(role: string): string {
    if role == "user" || role == "error" || role == "system" then role else "assistant"
  }

  function RoleLabel(role: string, agent: string): string {
    if role == "user" then "You" else if role == "error" then "Error" else if role == "system" then "System" else agent
  }

  function Names(names: seq<string>): string {
    if names == [] then "" else if |names| == 1 then names[0] else names[0] + ", " + Names(names[1..])
  }

  function RenderHead(m: Message, agent: string): string {
    Tag("section class=\"msg " + RoleClass(m.role) + "\"") + Tag("header")
    + Tag("span class=\"role\"") + RoleLabel(m.role, agent) + Tag("/span")
    + Boxed("time", m.timestamp, "/time") + Tag("/header")
    + (if m.attachments == [] then "" else Tag("p class=\"attachments\"") + "Attachments: " + EscapeHtml(Names(m.attachments)) + Tag("/p"))
  }

  function ToolCalls(parts: seq<Part>): string {
    if parts == [] then ""
    else ToolCalls(parts[..|parts| - 1])
         + (if parts[|parts| - 1].Tool? then RenderToolCall(parts[|parts| - 1].payload) else "")
  }

  predicate HasTextParts(parts: seq<Part>) { exists i :: 0 <= i < |parts| && !parts[i].Tool? }

  /** Without text among its parts the message's own text is shown, then its tool calls. */
  function RenderPlain(m: Message, md: Markdown): string {
    (if OrEmpty(m.thinking) == "" then "" else RenderThinking(m.thinking.value))
    + (if m.role == "error" then Tag("pre class=\"error-body\"") + EscapeHtml(m.content) + Tag("/pre")
       else RenderBody(m.content, md))
    + ToolCalls(m.parts)
  }

  function RenderMessage(m: Message, agent: string, md: Markdown): string {
    RenderHead(m, agent)
    + (if HasTextParts(m.parts) then RenderParts(m.parts, md) else RenderPlain(m, md))
    + (if m.truncated then Tag("p class=\"truncated\"") + "Message truncated." + Tag("/p") else "")
    + Tag("/section")
  }

  // ---- nesting of folds ----

  /** Depth of open `<details>` after `s`, or none if one is closed that was not open. */
  function Scan(s: string, depth: nat): Option<nat>
    decreases |s|
  {
    if s == [] then Some(depth)
    else if At(s, 0, "<details") then Scan(s[8..], depth + 1)
    else if At(s, 0, "</details>") then if depth == 0 then None else Scan(s[10..], depth - 1)
    else Scan(s[1..], depth)
  }

  /** No tag is left unfinished. */
  predicate Closed(s: string) {
    forall i :: 0 <= i < |s| && s[i] == '<' ==> exists j :: i < j < |s| && s[j] == '>'
  }

  /** Whatever is open before stays open, and nothing else does. */
  predicate Balanced(s: string) {
    Closed(s) && Scan(s, 0) == Some(0)
  }

  /** What `s` does to every depth: `up` opens one fold, `down` closes one. */
  ghost predicate Shifts(s: string, up: nat, down: nat) {
    Closed(s) && forall d: nat :: d >= down ==> Scan(s, d) == Some(d + up - down)
  }

  lemma ClosedAt(a: string, b: string, pat: string)
    requires a != [] && Closed(a) && (pat == "<details" || pat == "</details>")
    ensures At(a + b, 0, pat) == At(a, 0, pat)
  {
    if |pat| <= |a| {
      AtPrefix(a, b, 0, pat);
    } else if a[0] != '<' {
      NotAt(a + b, 0, pat, 0);
    } else {
      var j :| 0 < j < |a| && a[j] == '>';
      NotAt(a + b, 0, pat, j);
    }
  }

  lemma ClosedDrop(s: string, n: nat)
    requires Closed(s) && n <= |s|
    ensures Closed(s[n..])
  {
    forall i | 0 <= i < |s[n..]| && s[n..][i] == '<' ensures exists j :: i < j < |s[n..]| && s[n..][j] == '>' {
      assert s[n + i] == '<';
      var j :| n + i < j < |s| && s[j] == '>';
      assert s[n..][j - n] == '>';
    }
  }

  lemma {:induction false} ScanConcat(a: string, b: string, d: nat)
    requires Closed(a)
    ensures Scan(a + b, d) == (match Scan(a, d) case None => None case Some(e) => Scan(b, e))
    decreases |a|
  {
    hide At;
    hide Closed;
    var s := a + b;
    if a == [] {
      assert s == b;
    } else {
      ClosedAt(a, b, "<details");
      ClosedAt(a, b, "</details>");
      var n := if At(a, 0, "<details") then 8 else if At(a, 0, "</details>") then 10 else 1;
      assert n <= |a| by { AtLength(a); }
      assert s[n..] == a[n..] + b;
      ClosedDrop(a, n);
      if At(a, 0, "<details") {
        ScanConcat(a[8..], b, d + 1);
      } else if At(a, 0, "</details>") {
        if d > 0 { ScanConcat(a[10..], b, d - 1); }
      } else {
        ScanConcat(a[1..], b, d);
      }
    }
  }

  lemma AtLength(a: string)
    ensures At(a, 0, "<details") ==> |a| >= 8
    ensures At(a, 0, "</details>") ==> |a| >= 10
  {
  }

  lemma ClosedConcat(a: string, b: string)
    requires Closed(a) && Closed(b)
    ensures Closed(a + b)
  {
    var s := a + b;
    forall i | 0 <= i < |s| && s[i] == '<' ensures exists j :: i < j < |s| && s[j] == '>' {
      if i < |a| {
        var j :| i < j < |a| && a[j] == '>';
        assert s[j] == '>';
      } else {
        assert b[i - |a|] == '<';
        var j :| i - |a| < j < |b| && b[j] == '>';
        assert s[|a| + j] == '>';
      }
    }
  }

  /** Starting deeper changes nothing but the depth. */
  lemma {:induction false} ScanDeeper(s: string, d: nat, more: nat)
    requires Scan(s, d).Some?
    ensures Scan(s, d + more) == Some(Scan(s, d).value + more)
    decreases |s|
  {
    hide At;
    if s != [] {
      AtLength(s);
      if At(s, 0, "<details") {
        ScanDeeper(s[8..], d + 1, more);
      } else if At(s, 0, "</details>") {
        ScanDeeper(s[10..], d - 1, more);
      } else {
        ScanDeeper(s[1..], d, more);
      }
    }
  }

  lemma BalancedConcat(a: string, b: string)
    requires Balanced(a) && Balanced(b)
    ensures Balanced(a + b)
  {
    hide Scan;
    hide Closed;
    ClosedConcat(a, b);
    ScanConcat(a, b, 0);
  }

  /** A fold around balanced text. */
  lemma Fold(open: string, s: string, close: string)
    requires Shifts(open, 1, 0) && Balanced(s) && Shifts(close, 0, 1)
    ensures Balanced(open + s + close)
  {
    hide Scan;
    hide Closed;
    ClosedConcat(open, s);
    ClosedConcat(open + s, close);
    ScanConcat(open + s, close, 0);
    ScanConcat(open, s, 0);
    ScanDeeper(s, 0, 1);
  }

  // ---- what the pieces do ----

  lemma {:induction false} PlainScan(s: string, d: nat)
    requires '<' !in s
    ensures Closed(s) && Scan(s, d) == Some(d)
  {
    if s != [] {
      assert s[0] in s;
      NotAt(s, 0, "<details", 0);
      NotAt(s, 0, "</details>", 0);
      PlainScan(s[1..], d);
      assert forall i :: 0 <= i < |s| ==> s[i] in s;
    }
  }

  lemma PlainBalanced(s: string)
    requires '<' !in s
    ensures Balanced(s)
  {
    hide Scan;
    hide Closed;
    PlainScan(s, 0);
  }

  lemma EscapedBalanced(s: string)
    ensures Balanced(EscapeHtml(s))
  {
    hide EscapeHtml;
    hide Balanced;
    NoMarkup(s, '<');
    PlainBalanced(EscapeHtml(s));
  }

  /** The name of a tag that is not the fold's. */
  predicate OtherTag(name: string) {
    && '<' !in name && name != []
    && (name[0] == 'd' ==> |name| > 1 && name[1] != 'e')
    && (name[0] == '/' && |name| > 1 && name[1] == 'd' ==> |name| > 2 && name[2] != 'e')
  }

  lemma TagClosed(name: string)
    requires '<' !in name
    ensures Closed(Tag(name))
  {
    var s := Tag(name);
    forall i | 0 < i < |s| - 1 ensures s[i] != '<' {
      assert s[i] == name[i - 1] && name[i - 1] in name;
    }
    assert s[|s| - 1] == '>';
  }

  lemma OtherTagBalanced(name: string)
    requires OtherTag(name)
    ensures Balanced(Tag(name))
  {
    hide Closed;
    var s := Tag(name);
    TagClosed(name);
    OtherTagNot(name);
    assert s[1..] == name + ">";
    PlainScan(name + ">", 0);
  }

  lemma OtherTagNot(name: string)
    requires OtherTag(name)
    ensures !At(Tag(name), 0, "<details") && !At(Tag(name), 0, "</details>")
  {
    var s := Tag(name);
    assert s[1] == name[0];
    assert |name| > 1 ==> s[2] == name[1];
    assert |name| > 2 ==> s[3] == name[2];
    assert |name| == 1 ==> s[2] == '>';
    if name[0] == 'd' {
      NotAt(s, 0, "<details", 2);
      NotAt(s, 0, "</details>", 1);
    } else {
      NotAt(s, 0, "<details", 1);
      if name[0] != '/' {
        NotAt(s, 0, "</details>", 1);
      } else if |name| == 1 || name[1] != 'd' {
        NotAt(s, 0, "</details>", 2);
      } else {
        NotAt(s, 0, "</details>", 3);
      }
    }
  }

  /** A tag that opens a fold. */
  lemma OpenTagShifts(attributes: string)
    requires '<' !in attributes
    ensures Shifts(Tag("details" + attributes), 1, 0)
  {
    hide Closed;
    var name := "details" + attributes;
    var s := Tag(name);
    TagClosed(name);
    assert At(s, 0, "<details");
    assert s[8..] == attributes + ">";
    forall d: nat ensures Scan(s, d) == Some(d + 1) {
      PlainScan(attributes + ">", d + 1);
    }
  }

  lemma CloseTagShifts()
    ensures Shifts(Tag("/details"), 0, 1)
  {
    hide Closed;
    var s := Tag("/details");
    TagClosed("/details");
    assert s == "</details>";
    NotAt(s, 0, "<details", 1);
    assert At(s, 0, "</details>") && s[10..] == [];
  }

  /** `<name>` around balanced text. */
  lemma TagPair(open: string, s: string, close: string)
    requires OtherTag(open) && OtherTag(close) && Balanced(s)
    ensures Balanced(Tag(open) + s + Tag(close))
  {
    hide Balanced;
    hide OtherTag;
    hide Tag;
    OtherTagBalanced(open);
    OtherTagBalanced(close);
    BalancedConcat(Tag(open), s);
    BalancedConcat(Tag(open) + s, Tag(close));
  }

  lemma BoxedBalanced(open: string, text: string, close: string)
    requires OtherTag(open) && OtherTag(close)
    ensures Balanced(Boxed(open, text, close))
    ensures Balanced(Tag(open) + EscapeHtml(text) + Tag(close))
  {
    hide Balanced;
    hide OtherTag;
    hide Tag;
    hide EscapeHtml;
    EscapedBalanced(text);
    TagPair(open, EscapeHtml(text), close);
    PlainBalanced("");
  }

  lemma BadgeBalanced(status: string)
    ensures Balanced(StatusBadge(status))
  {
    hide Balanced;
    hide Tag;
    hide EscapeHtml;
    PlainBalanced("");
    NoMarkup(status, '<');
    var name := "span class=\"tool-status status-" + EscapeHtml(status) + "\"";
    assert OtherTag(name) by { BadgeTag(EscapeHtml(status)); }
    EscapedBalanced(status);
    TagPair(name, EscapeHtml(status), "/span");
  }

  lemma BadgeTag(status: string)
    requires '<' !in status
    ensures OtherTag("span class=\"tool-status status-" + status + "\"")
  {
    var front := "span class=\"tool-status status-";
    assert '<' !in front;
    assert (front + status + "\"")[0] == 's';
  }

  /** What stands between the fold's tags of a tool call. */
  lemma ToolInsideBalanced(t: ToolCall)
    ensures Balanced(
      Tag("summary")
      + (Tag("span class=\"tool-name\"") + EscapeHtml(t.title) + Tag("/span"))
      + Boxed("span class=\"tool-kind\"", t.kind, "/span")
      + StatusBadge(t.status)
      + Tag("/summary")
      + Boxed("pre class=\"tool-command\"", OrEmpty(t.command), "/pre")
      + Boxed("pre class=\"tool-output\"", ToolOutput(t), "/pre"))
  {
    hide Balanced;
    hide Tag;
    hide EscapeHtml;
    hide Boxed;
    hide StatusBadge;
    OtherTagBalanced("summary");
    OtherTagBalanced("/summary");
    BoxedBalanced("span class=\"tool-name\"", t.title, "/span");
    BoxedBalanced("span class=\"tool-kind\"", t.kind, "/span");
    BadgeBalanced(t.status);
    BoxedBalanced("pre class=\"tool-command\"", OrEmpty(t.command), "/pre");
    BoxedBalanced("pre class=\"tool-output\"", ToolOutput(t), "/pre");
    var a := Tag("summary");
    var b := Tag("span class=\"tool-name\"") + EscapeHtml(t.title) + Tag("/span");
    var c := Boxed("span class=\"tool-kind\"", t.kind, "/span");
    var d := StatusBadge(t.status);
    var e := Tag("/summary");
    var f := Boxed("pre class=\"tool-command\"", OrEmpty(t.command), "/pre");
    BalancedConcat(a, b);
    BalancedConcat(a + b, c);
    BalancedConcat(a + b + c, d);
    BalancedConcat(a + b + c + d, e);
    BalancedConcat(a + b + c + d + e, f);
    BalancedConcat(a + b + c + d + e + f, Boxed("pre class=\"tool-output\"", ToolOutput(t), "/pre"));
  }

  lemma ToolCallBalanced(t: ToolCall)
    ensures Balanced(RenderToolCall(t))
  {
    hide Balanced;
    hide Tag;
    hide EscapeHtml;
    hide Boxed;
    hide StatusBadge;
    hide Shifts;
    var attributes := " class=\"tool\"";
    assert "details" + attributes == "details class=\"tool\"";
    OpenTagShifts(attributes);
    CloseTagShifts();
    ToolInsideBalanced(t);
    Fold(Tag("details class=\"tool\""),
      Tag("summary")
      + (Tag("span class=\"tool-name\"") + EscapeHtml(t.title) + Tag("/span"))
      + Boxed("span class=\"tool-kind\"", t.kind, "/span")
      + StatusBadge(t.status)
      + Tag("/summary")
      + Boxed("pre class=\"tool-command\"", OrEmpty(t.command), "/pre")
      + Boxed("pre class=\"tool-output\"", ToolOutput(t), "/pre"),
      Tag("/details"));
  }

  lemma {:induction false} ThoughtsBalanced(run: seq<Part>)
    requires forall i :: 0 <= i < |run| ==> run[i].Thinking?
    ensures forall i :: 0 <= i < |Thoughts(run)| ==> Balanced(Thoughts(run)[i])
  {
    hide Balanced;
    hide EscapeHtml;
    if run != [] {
      ThoughtsBalanced(run[1..]);
      EscapedBalanced(run[0].content);
    }
  }

  lemma {:induction false} JoinBalanced(texts: seq<string>)
    requires forall i :: 0 <= i < |texts| ==> Balanced(texts[i])
    ensures Balanced(Join(texts))
  {
    hide Balanced;
    PlainBalanced("");
    PlainBalanced("\n\n");
    if |texts| > 1 {
      JoinBalanced(texts[1..]);
      BalancedConcat(texts[0], "\n\n");
      BalancedConcat(texts[0] + "\n\n", Join(texts[1..]));
    }
  }

  /** The fold of a group, opened with its heading and closed behind its text. */
  lemma GroupFold(text: string)
    requires Balanced(text)
    ensures Balanced(THOUGHTS + text + END_THOUGHTS)
  {
    hide Balanced;
    hide Tag;
    hide Shifts;
    var attributes := " class=\"thinking\"";
    var open, close := Tag("details class=\"thinking\""), Tag("/details");
    assert "details" + attributes == "details class=\"thinking\"";
    OpenTagShifts(attributes);
    CloseTagShifts();
    PlainBalanced("Thinking");
    TagPair("summary", "Thinking", "/summary");
    TagPair("pre", text, "/pre");
    var heading := Tag("summary") + "Thinking" + Tag("/summary");
    BalancedConcat(heading, Tag("pre") + text + Tag("/pre"));
    Fold(open, heading + (Tag("pre") + text + Tag("/pre")), close);
    GroupPieces(open, Tag("summary"), "Thinking", Tag("/summary"), Tag("pre"), text, Tag("/pre"), close);
  }

  lemma GroupPieces(a: string, b: string, c: string, d: string, e: string, text: string, f: string, g: string)
    ensures a + ((b + c + d) + (e + text + f)) + g == (a + b + c + d + e) + text + (f + g)
  {
  }

  lemma GroupBalanced(run: seq<Part>)
    requires forall i :: 0 <= i < |run| ==> run[i].Thinking?
    ensures Balanced(RenderGroup(run))
  {
    hide Balanced;
    hide Thoughts;
    hide Join;
    PlainBalanced("");
    ThoughtsBalanced(run);
    JoinBalanced(Thoughts(run));
    GroupFold(Join(Thoughts(run)));
  }

  lemma BodyBalanced(text: string, md: Markdown)
    requires Balanced(md(text))
    ensures Balanced(RenderBody(text, md))
  {
    hide Balanced;
    PlainBalanced("");
    TagPair("div class=\"body\"", md(text), "/div");
  }

  lemma {:induction false} PartsBalanced(parts: seq<Part>, md: Markdown)
    requires forall t :: Balanced(md(t))
    ensures Balanced(RenderParts(parts, md))
    decreases |parts|
  {
    hide Balanced;
    hide RenderToolCall;
    hide RenderBody;
    hide RenderGroup;
    if parts == [] {
      PlainBalanced("");
    } else if parts[0].Thinking? {
      var n := ThinkingRun(parts);
      GroupBalanced(parts[..n]);
      PartsBalanced(parts[n..], md);
      BalancedConcat(RenderGroup(parts[..n]), RenderParts(parts[n..], md));
    } else {
      PartsBalanced(parts[1..], md);
      if parts[0].Text? {
        BodyBalanced(parts[0].content, md);
        BalancedConcat(RenderBody(parts[0].content, md), RenderParts(parts[1..], md));
      } else {
        ToolCallBalanced(parts[0].payload);
        BalancedConcat(RenderToolCall(parts[0].payload), RenderParts(parts[1..], md));
      }
    }
  }

  lemma {:induction false} ToolCallsBalanced(parts: seq<Part>)
    ensures Balanced(ToolCalls(parts))
  {
    hide Balanced;
    hide RenderToolCall;
    PlainBalanced("");
    if parts != [] {
      var n := |parts| - 1;
      ToolCallsBalanced(parts[..n]);
      if parts[n].Tool? { ToolCallBalanced(parts[n].payload); }
      BalancedConcat(ToolCalls(parts[..n]), if parts[n].Tool? then RenderToolCall(parts[n].payload) else "");
    }
  }

  lemma WithoutPartsBalanced(m: Message, md: Markdown)
    requires Balanced(md(m.content))
    ensures Balanced(RenderPlain(m, md))
  {
    hide Balanced;
    hide Tag;
    hide EscapeHtml;
    hide RenderBody;
    hide ToolCalls;
    PlainBalanced("");
    EscapedBalanced(OrEmpty(m.thinking));
    GroupFold(EscapeHtml(OrEmpty(m.thinking)));
    var thinking := if OrEmpty(m.thinking) == "" then "" else RenderThinking(m.thinking.value);
    var body := if m.role == "error" then Tag("pre class=\"error-body\"") + EscapeHtml(m.content) + Tag("/pre")
                else RenderBody(m.content, md);
    BoxedBalanced("pre class=\"error-body\"", m.content, "/pre");
    BodyBalanced(m.content, md);
    ToolCallsBalanced(m.parts);
    BalancedConcat(thinking, body);
    BalancedConcat(thinking + body, ToolCalls(m.parts));
  }

  lemma SectionTag(role: string)
    ensures OtherTag("section class=\"msg " + RoleClass(role) + "\"")
  {
    var c := RoleClass(role);
    assert '<' !in c && '<' !in "section class=\"msg ";
    assert ("section class=\"msg " + c + "\"")[0] == 's';
  }

  lemma AttachmentsBalanced(names: seq<string>)
    ensures Balanced(if names == [] then "" else Tag("p class=\"attachments\"") + "Attachments: " + EscapeHtml(Names(names)) + Tag("/p"))
  {
    hide Balanced;
    hide Tag;
    hide EscapeHtml;
    hide Names;
    PlainBalanced("");
    PlainBalanced("Attachments: ");
    EscapedBalanced(Names(names));
    BalancedConcat("Attachments: ", EscapeHtml(Names(names)));
    TagPair("p class=\"attachments\"", "Attachments: " + EscapeHtml(Names(names)), "/p");
    assert Tag("p class=\"attachments\"") + ("Attachments: " + EscapeHtml(Names(names))) ==
           Tag("p class=\"attachments\"") + "Attachments: " + EscapeHtml(Names(names));
  }

  lemma HeadBalanced(m: Message, agent: string)
    requires '<' !in agent
    ensures Balanced(RenderHead(m, agent))
  {
    hide Balanced;
    hide Tag;
    hide EscapeHtml;
    hide Boxed;
    hide RoleClass;
    hide Names;
    SectionTag(m.role);
    OtherTagBalanced("section class=\"msg " + RoleClass(m.role) + "\"");
    OtherTagBalanced("header");
    OtherTagBalanced("/header");
    PlainBalanced(RoleLabel(m.role, agent));
    OtherTagBalanced("span class=\"role\"");
    OtherTagBalanced("/span");
    BoxedBalanced("time", m.timestamp, "/time");
    AttachmentsBalanced(m.attachments);
    HeadPieces(Tag("section class=\"msg " + RoleClass(m.role) + "\""), Tag("header"), Tag("span class=\"role\""),
      RoleLabel(m.role, agent), Tag("/span"), Boxed("time", m.timestamp, "/time"), Tag("/header"),
      if m.attachments == [] then ""
      else Tag("p class=\"attachments\"") + "Attachments: " + EscapeHtml(Names(m.attachments)) + Tag("/p"));
  }

  lemma HeadPieces(a: string, b: string, c: string, d: string, e: string, f: string, g: string, h: string)
    requires Balanced(a) && Balanced(b) && Balanced(c) && Balanced(d)
    requires Balanced(e) && Balanced(f) && Balanced(g) && Balanced(h)
    ensures Balanced(a + b + c + d + e + f + g + h)
  {
    hide Balanced;
    BalancedConcat(a, b);
    BalancedConcat(a + b, c);
    BalancedConcat(a + b + c, d);
    BalancedConcat(a + b + c + d, e);
    BalancedConcat(a + b + c + d + e, f);
    BalancedConcat(a + b + c + d + e + f, g);
    BalancedConcat(a + b + c + d + e + f + g, h);
  }

  /** Whatever its parts and texts, a rendered message closes every fold it opens and no other. */
  lemma MessageBalanced(m: Message, agent: string, md: Markdown)
    requires '<' !in agent && forall t :: Balanced(md(t))
    ensures Balanced(RenderMessage(m, agent, md))
  {
    hide Balanced;
    hide Tag;
    hide RenderHead;
    hide RenderParts;
    hide RenderPlain;
    HeadBalanced(m, agent);
    PartsBalanced(m.parts, md);
    WithoutPartsBalanced(m, md);
    PlainBalanced("");
    PlainBalanced("Message truncated.");
    TagPair("p class=\"truncated\"", "Message truncated.", "/p");
    OtherTagBalanced("/section");
    var head := RenderHead(m, agent);
    var body := if HasTextParts(m.parts) then RenderParts(m.parts, md) else RenderPlain(m, md);
    var note := if m.truncated then Tag("p class=\"truncated\"") + "Message truncated." + Tag("/p") else "";
    BalancedConcat(head, body);
    BalancedConcat(head + body, note);
    BalancedConcat(head + body + note, Tag("/section"));
  }

  // ---- the message as it is appended piece by piece ----

  method AppendMessage(m: Message, agent: string, md: Markdown) returns (out: string)
    ensures out == RenderMessage(m, agent, md)
  {
    hide Tag;
    hide RenderParts;
    hide RenderHead;
    hide RenderToolCall;
    hide RenderBody;
    hide EscapeHtml;
    var head := RenderHead(m, agent);
    var body := "";
    if HasTextParts(m.parts) {
      body := RenderPartsLoop(m.parts, md);
    } else {
      if OrEmpty(m.thinking) != "" {
        body := RenderThinking(m.thinking.value);
      }
      if m.role == "error" {
        body := body + (Tag("pre class=\"error-body\"") + EscapeHtml(m.content) + Tag("/pre"));
      } else {
        body := body + RenderBody(m.content, md);
      }
      var tools := "";
      for i := 0 to |m.parts|
        invariant tools == ToolCalls(m.parts[..i])
      {
        assert m.parts[..i + 1][..i] == m.parts[..i];
        assert tools + "" == tools;
        if m.parts[i].Tool? {
          tools := tools + RenderToolCall(m.parts[i].payload);
        }
      }
      assert m.parts[..|m.parts|] == m.parts;
      body := body + tools;
    }
    out := head + body;
    out := out + (if m.truncated then Tag("p class=\"truncated\"") + "Message truncated." + Tag("/p") else "");
    out := out + Tag("/section");
  }
}
