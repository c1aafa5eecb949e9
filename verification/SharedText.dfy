/** What a reader of a shared conversation sees: the text of the page without its tags. */
module SharedText {
  import opened Wrappers
  import opened Escaping
  import opened SharePage

  /** The text outside tags, from outside a tag or from within one. */
  function Visible(s: string, inTag: bool): string {
    if s == [] then ""
    else if inTag then Visible(s[1..], s[0] != '>')
    else if s[0] == '<' then Visible(s[1..], true)
    else [s[0]] + Visible(s[1..], false)
  }

  predicate EndsInTag(s: string, inTag: bool) {
    if s == [] then inTag
    else EndsInTag(s[1..], if inTag then s[0] != '>' else s[0] == '<')
  }

  /** The text shows as `text`, and what follows it is outside its tags. */
  predicate Shows(s: string, text: string) {
    !EndsInTag(s, false) && Visible(s, false) == text
  }

  lemma {:induction false} VisibleConcat(a: string, b: string, inTag: bool)
    ensures Visible(a + b, inTag) == Visible(a, inTag) + Visible(b, EndsInTag(a, inTag))
    ensures EndsInTag(a + b, inTag) == EndsInTag(b, EndsInTag(a, inTag))
  {
    if a == [] {
      assert a + b == b;
    } else {
      assert (a + b)[1..] == a[1..] + b;
      VisibleConcat(a[1..], b, if inTag then a[0] != '>' else a[0] == '<');
    }
  }

  lemma ShowsConcat(a: string, x: string, b: string, y: string)
    requires Shows(a, x) && Shows(b, y)
    ensures Shows(a + b, x + y)
  {
    VisibleConcat(a, b, false);
  }

  lemma {:induction false} InsideTag(name: string)
    requires '>' !in name
    ensures Visible(name + ">", true) == "" && !EndsInTag(name + ">", true)
  {
    if name == [] {
      assert (name + ">")[1..] == [];
    } else {
      assert name[0] in name && (name + ">")[1..] == name[1..] + ">";
      InsideTag(name[1..]);
    }
  }

  lemma TagShows(name: string)
    requires '>' !in name
    ensures Shows(Tag(name), "")
  {
    assert Tag(name)[1..] == name + ">";
    InsideTag(name);
  }

  lemma {:induction false} PlainShows(s: string)
    requires '<' !in s
    ensures Shows(s, s)
  {
    if s != [] {
      assert s[0] in s;
      PlainShows(s[1..]);
    }
  }

  lemma EscapedShows(s: string)
    ensures Shows(EscapeHtml(s), EscapeHtml(s))
  {
    hide EscapeHtml;
    hide Shows;
    NoMarkup(s, '<');
    PlainShows(EscapeHtml(s));
  }

  lemma EscapeNothing()
    ensures EscapeHtml("") == ""
  {
    EscapeIsPerChar("");
  }

  lemma TagPairShows(open: string, s: string, text: string, close: string)
    requires '>' !in open && '>' !in close && Shows(s, text)
    ensures Shows(Tag(open) + s + Tag(close), text)
  {
    hide Shows;
    hide Tag;
    TagShows(open);
    TagShows(close);
    ShowsConcat(Tag(open), "", s, text);
    ShowsConcat(Tag(open) + s, "" + text, Tag(close), "");
    assert "" + text + "" == text;
  }

  lemma BoxedShows(open: string, text: string, close: string)
    requires '>' !in open && '>' !in close
    ensures Shows(Boxed(open, text, close), EscapeHtml(text))
  {
    hide Shows;
    hide EscapeHtml;
    hide Tag;
    EscapeNothing();
    EscapedShows(text);
    TagPairShows(open, EscapeHtml(text), EscapeHtml(text), close);
    PlainShows("");
  }

  lemma BadgeShows(status: string)
    ensures Shows(StatusBadge(status), EscapeHtml(status))
  {
    hide Shows;
    hide EscapeHtml;
    hide Tag;
    EscapeNothing();
    NoMarkup(status, '>');
    var name := "span class=\"tool-status status-" + EscapeHtml(status) + "\"";
    assert '>' !in "span class=\"tool-status status-" && '>' !in "\"";
    EscapedShows(status);
    TagPairShows(name, EscapeHtml(status), EscapeHtml(status), "/span");
    PlainShows("");
  }

  // ---- tool calls ----

  /** Title, kind, status, command, and the output or else its preview. */
  function ToolText(t: ToolCall): string {
    EscapeHtml(t.title) + EscapeHtml(t.kind) + EscapeHtml(t.status)
    + EscapeHtml(if t.command.Some? then t.command.value else "")
    + EscapeHtml(if t.output.Some? then t.output.value
                 else if t.outputPreview.Some? then t.outputPreview.value else "")
  }

  lemma ToolCallShows(t: ToolCall)
    ensures Shows(RenderToolCall(t), ToolText(t))
  {
    hide Shows;
    hide EscapeHtml;
    hide Tag;
    hide Boxed;
    hide StatusBadge;
    var name := Tag("span class=\"tool-name\"") + EscapeHtml(t.title) + Tag("/span");
    EscapedShows(t.title);
    TagPairShows("span class=\"tool-name\"", EscapeHtml(t.title), EscapeHtml(t.title), "/span");
    BoxedShows("span class=\"tool-kind\"", t.kind, "/span");
    BadgeShows(t.status);
    BoxedShows("pre class=\"tool-command\"", OrEmpty(t.command), "/pre");
    BoxedShows("pre class=\"tool-output\"", ToolOutput(t), "/pre");
    TagShows("summary");
    TagShows("/summary");
    TagShows("details class=\"tool\"");
    TagShows("/details");
    ToolPieces(Tag("details class=\"tool\""), Tag("summary"), name, Boxed("span class=\"tool-kind\"", t.kind, "/span"),
      StatusBadge(t.status), Tag("/summary"), Boxed("pre class=\"tool-command\"", OrEmpty(t.command), "/pre"),
      Boxed("pre class=\"tool-output\"", ToolOutput(t), "/pre"), Tag("/details"),
      EscapeHtml(t.title), EscapeHtml(t.kind), EscapeHtml(t.status), EscapeHtml(OrEmpty(t.command)), EscapeHtml(ToolOutput(t)));
  }

  lemma ToolPieces(a: string, b: string, c: string, d: string, e: string, f: string, g: string, h: string, i: string,
                   x: string, y: string, z: string, v: string, w: string)
    requires Shows(a, "") && Shows(b, "") && Shows(c, x) && Shows(d, y) && Shows(e, z) && Shows(f, "")
    requires Shows(g, v) && Shows(h, w) && Shows(i, "")
    ensures Shows(a + (b + c + d + e + f + g + h) + i, x + y + z + v + w)
  {
    hide Shows;
    ShowsConcat(b, "", c, x);
    assert "" + x == x;
    ShowsConcat(b + c, x, d, y);
    ShowsConcat(b + c + d, x + y, e, z);
    ShowsConcat(b + c + d + e, x + y + z, f, "");
    assert x + y + z + "" == x + y + z;
    ShowsConcat(b + c + d + e + f, x + y + z, g, v);
    ShowsConcat(b + c + d + e + f + g, x + y + z + v, h, w);
    var all := x + y + z + v + w;
    ShowsConcat(a, "", b + c + d + e + f + g + h, all);
    assert "" + all == all && all + "" == all;
    ShowsConcat(a + (b + c + d + e + f + g + h), all, i, "");
  }

  // ---- parts ----

  /** What Markdown output shows is given. */
  ghost predicate ShowsMarkdown(md: Markdown, text: string -> string) {
    forall t :: Shows(md(t), text(t))
  }

  /** The parts in order; a stretch of thinking is headed once, and a blank line stands between its parts. */
  function PartsText(parts: seq<Part>, open: bool, text: string -> string): string {
    if parts == [] then ""
    else
      match parts[0]
      case Thinking(c) =>
        if c == "" then PartsText(parts[1..], open, text)
        else (if open then "\n\n" else "Thinking") + EscapeHtml(c) + PartsText(parts[1..], true, text)
      case Text(c) => (if c == "" then "" else text(c)) + PartsText(parts[1..], false, text)
      case Tool(t) => ToolText(t) + PartsText(parts[1..], false, text)
  }

  lemma HeadingShows()
    ensures Shows(THOUGHTS, "Thinking") && Shows(END_THOUGHTS, "")
  {
    hide Shows;
    hide Tag;
    PlainShows("Thinking");
    TagPairShows("summary", "Thinking", "Thinking", "/summary");
    TagShows("details class=\"thinking\"");
    TagShows("pre");
    TagShows("/pre");
    TagShows("/details");
    var heading := Tag("summary") + "Thinking" + Tag("/summary");
    ShowsConcat(Tag("details class=\"thinking\""), "", heading, "Thinking");
    assert "" + "Thinking" == "Thinking" && "Thinking" + "" == "Thinking" && "" + "" == "";
    ShowsConcat(Tag("details class=\"thinking\"") + heading, "Thinking", Tag("pre"), "");
    assert THOUGHTS == Tag("details class=\"thinking\"") + heading + Tag("pre");
    ShowsConcat(Tag("/pre"), "", Tag("/details"), "");
  }

  lemma BodyShows(c: string, md: Markdown, text: string -> string)
    requires ShowsMarkdown(md, text)
    ensures Shows(RenderBody(c, md), if c == "" then "" else text(c))
  {
    hide Shows;
    hide Tag;
    PlainShows("");
    TagPairShows("div class=\"body\"", md(c), text(c), "/div");
  }

  lemma {:induction false} RestShows(parts: seq<Part>, open: bool, md: Markdown, text: string -> string)
    requires ShowsMarkdown(md, text)
    ensures Shows(Rest(parts, md, open), PartsText(parts, open, text))
    decreases |parts|
  {
    hide Shows;
    hide ShowsMarkdown;
    hide Rest;
    hide RenderParts;
    hide RenderToolCall;
    hide RenderBody;
    hide EscapeHtml;
    hide ToolText;
    HeadingShows();
    PlainShows("");
    if parts == [] {
      OtherStep(parts, md, open);
      NoParts(md);
      assert END_THOUGHTS + "" == END_THOUGHTS && "" + "" == "";
    } else if parts[0].Thinking? {
      ThinkingRest(parts, open, md, text);
    } else {
      OtherStep(parts, md, open);
      TextStep(parts, md);
      RestShows(parts[1..], false, md, text);
      ClosedRest(parts[1..], md);
      OtherRest(parts, open, md, text);
    }
  }

  lemma ThinkingRest(parts: seq<Part>, open: bool, md: Markdown, text: string -> string)
    requires ShowsMarkdown(md, text) && parts != [] && parts[0].Thinking?
    ensures Shows(Rest(parts, md, open), PartsText(parts, open, text))
    decreases |parts|, 0
  {
    hide Shows;
    hide ShowsMarkdown;
    hide Rest;
    hide EscapeHtml;
    HeadingShows();
    ThinkingStep(parts, md, open);
    var c := parts[0].content;
    if c == "" {
      RestShows(parts[1..], open, md, text);
    } else {
      RestShows(parts[1..], true, md, text);
      PlainShows("\n\n");
      EscapedShows(c);
      var start, shown := if open then "\n\n" else THOUGHTS, if open then "\n\n" else "Thinking";
      ShowsConcat(start, shown, EscapeHtml(c), EscapeHtml(c));
      ShowsConcat(start + EscapeHtml(c), shown + EscapeHtml(c), Rest(parts[1..], md, true), PartsText(parts[1..], true, text));
    }
  }

  lemma OtherRest(parts: seq<Part>, open: bool, md: Markdown, text: string -> string)
    requires ShowsMarkdown(md, text) && parts != [] && !parts[0].Thinking?
    requires Shows(RenderParts(parts[1..], md), PartsText(parts[1..], false, text))
    requires Rest(parts, md, open) ==
             (if open then END_THOUGHTS else "")
             + ((if parts[0].Text? then RenderBody(parts[0].content, md) else RenderToolCall(parts[0].payload))
                + RenderParts(parts[1..], md))
    ensures Shows(Rest(parts, md, open), PartsText(parts, open, text))
  {
    hide Shows;
    hide ShowsMarkdown;
    hide Rest;
    hide RenderParts;
    hide RenderToolCall;
    hide RenderBody;
    hide ToolText;
    HeadingShows();
    PlainShows("");
    var first := if parts[0].Text? then RenderBody(parts[0].content, md) else RenderToolCall(parts[0].payload);
    var shown := if parts[0].Tool? then ToolText(parts[0].payload) else if parts[0].content == "" then "" else text(parts[0].content);
    if parts[0].Text? { BodyShows(parts[0].content, md, text); } else { ToolCallShows(parts[0].payload); }
    var more := PartsText(parts[1..], false, text);
    ShowsConcat(first, shown, RenderParts(parts[1..], md), more);
    ShowsConcat(if open then END_THOUGHTS else "", "", first + RenderParts(parts[1..], md), shown + more);
    assert "" + (shown + more) == shown + more;
  }

  // ---- messages ----

  function ToolsText(parts: seq<Part>): string {
    if parts == [] then ""
    else ToolsText(parts[..|parts| - 1]) + (if parts[|parts| - 1].Tool? then ToolText(parts[|parts| - 1].payload) else "")
  }

  lemma {:induction false} ToolCallsShow(parts: seq<Part>)
    ensures Shows(ToolCalls(parts), ToolsText(parts))
  {
    hide Shows;
    hide RenderToolCall;
    hide ToolText;
    PlainShows("");
    if parts != [] {
      var n := |parts| - 1;
      ToolCallsShow(parts[..n]);
      if parts[n].Tool? { ToolCallShows(parts[n].payload); }
      ShowsConcat(ToolCalls(parts[..n]), ToolsText(parts[..n]),
        if parts[n].Tool? then RenderToolCall(parts[n].payload) else "",
        if parts[n].Tool? then ToolText(parts[n].payload) else "");
    }
  }

  function Label(role: string, agent: string): string {
    match role case "user" => "You" case "error" => "Error" case "system" => "System" case _ => agent
  }

  /** Without text among the parts: the thinking, the message's own text, then its tool calls. */
  function PlainText(m: Message, text: string -> string): string {
    (if m.thinking.Some? && m.thinking.value != "" then "Thinking" + EscapeHtml(m.thinking.value) else "")
    + (if m.role == "error" then EscapeHtml(m.content) else if m.content == "" then "" else text(m.content))
    + ToolsText(m.parts)
  }

  function HeadText(m: Message, agent: string): string {
    Label(m.role, agent) + EscapeHtml(m.timestamp)
    + (if m.attachments == [] then "" else "Attachments: " + EscapeHtml(Names(m.attachments)))
  }

  lemma HeadShows(m: Message, agent: string)
    requires '<' !in agent
    ensures Shows(RenderHead(m, agent), HeadText(m, agent))
  {
    hide Shows;
    hide Tag;
    hide EscapeHtml;
    hide Boxed;
    hide Names;
    var section := "section class=\"msg " + RoleClass(m.role) + "\"";
    assert '>' !in section by { assert '>' !in RoleClass(m.role) && '>' !in "section class=\"msg " && '>' !in "\""; }
    TagShows(section);
    TagShows("header");
    TagShows("/header");
    LabelIs(m.role, agent);
    PlainShows(RoleLabel(m.role, agent));
    TagShows("span class=\"role\"");
    TagShows("/span");
    BoxedShows("time", m.timestamp, "/time");
    AttachmentsShow(m.attachments);
    HeadPieces(Tag(section), Tag("header"), Tag("span class=\"role\""), RoleLabel(m.role, agent), Tag("/span"),
      Boxed("time", m.timestamp, "/time"), Tag("/header"),
      if m.attachments == [] then ""
      else Tag("p class=\"attachments\"") + "Attachments: " + EscapeHtml(Names(m.attachments)) + Tag("/p"),
      RoleLabel(m.role, agent), EscapeHtml(m.timestamp),
      if m.attachments == [] then "" else "Attachments: " + EscapeHtml(Names(m.attachments)));
  }

  lemma LabelIs(role: string, agent: string)
    requires '<' !in agent
    ensures RoleLabel(role, agent) == Label(role, agent) && '<' !in Label(role, agent)
  {
  }

  lemma AttachmentsShow(names: seq<string>)
    ensures Shows(if names == [] then "" else Tag("p class=\"attachments\"") + "Attachments: " + EscapeHtml(Names(names)) + Tag("/p"),
                  if names == [] then "" else "Attachments: " + EscapeHtml(Names(names)))
  {
    hide Shows;
    hide Tag;
    hide EscapeHtml;
    hide Names;
    PlainShows("");
    var e := EscapeHtml(Names(names));
    EscapedShows(Names(names));
    PlainShows("Attachments: ");
    ShowsConcat("Attachments: ", "Attachments: ", e, e);
    TagPairShows("p class=\"attachments\"", "Attachments: " + e, "Attachments: " + e, "/p");
    assert Tag("p class=\"attachments\"") + ("Attachments: " + e) + Tag("/p") ==
           Tag("p class=\"attachments\"") + "Attachments: " + e + Tag("/p");
  }

  lemma HeadPieces(a: string, b: string, c: string, d: string, e: string, f: string, g: string, h: string,
                   x: string, y: string, z: string)
    requires Shows(a, "") && Shows(b, "") && Shows(c, "") && Shows(d, x) && Shows(e, "") && Shows(f, y)
    requires Shows(g, "") && Shows(h, z)
    ensures Shows(a + b + c + d + e + f + g + h, x + y + z)
  {
    hide Shows;
    assert "" + "" == "" && "" + x == x && x + "" == x && x + y + "" == x + y;
    ShowsConcat(a, "", b, "");
    ShowsConcat(a + b, "", c, "");
    ShowsConcat(a + b + c, "", d, x);
    ShowsConcat(a + b + c + d, x, e, "");
    ShowsConcat(a + b + c + d + e, x, f, y);
    ShowsConcat(a + b + c + d + e + f, x + y, g, "");
    ShowsConcat(a + b + c + d + e + f + g, x + y, h, z);
  }

  lemma PlainMessageShows(m: Message, md: Markdown, text: string -> string)
    requires ShowsMarkdown(md, text)
    ensures Shows(RenderPlain(m, md), PlainText(m, text))
  {
    hide Shows;
    hide ShowsMarkdown;
    hide Tag;
    hide EscapeHtml;
    hide RenderBody;
    hide ToolCalls;
    hide ToolsText;
    PlainShows("");
    var t := OrEmpty(m.thinking);
    var thinking := if t == "" then "" else RenderThinking(m.thinking.value);
    var thought := if t == "" then "" else "Thinking" + EscapeHtml(t);
    ThinkingShows(t);
    var body := if m.role == "error" then Tag("pre class=\"error-body\"") + EscapeHtml(m.content) + Tag("/pre")
                else RenderBody(m.content, md);
    var shown := if m.role == "error" then EscapeHtml(m.content) else if m.content == "" then "" else text(m.content);
    EscapedShows(m.content);
    TagPairShows("pre class=\"error-body\"", EscapeHtml(m.content), EscapeHtml(m.content), "/pre");
    BodyShows(m.content, md, text);
    ToolCallsShow(m.parts);
    ShowsConcat(thinking, thought, body, shown);
    ShowsConcat(thinking + body, thought + shown, ToolCalls(m.parts), ToolsText(m.parts));
  }

  lemma ThinkingShows(t: string)
    ensures Shows(RenderThinking(t), "Thinking" + EscapeHtml(t))
  {
    hide Shows;
    hide EscapeHtml;
    HeadingShows();
    EscapedShows(t);
    ShowsConcat(THOUGHTS, "Thinking", EscapeHtml(t), EscapeHtml(t));
    ShowsConcat(THOUGHTS + EscapeHtml(t), "Thinking" + EscapeHtml(t), END_THOUGHTS, "");
    assert "Thinking" + EscapeHtml(t) + "" == "Thinking" + EscapeHtml(t);
  }

  /**
   What a reader sees of a message: who wrote it and when, the attachments, then its parts in order,
   or without text parts its thinking, its own text and its tool calls, and the note on truncation.
   */
  lemma MessageShows(m: Message, agent: string, md: Markdown, text: string -> string)
    requires '<' !in agent && ShowsMarkdown(md, text)
    ensures var told := exists i :: 0 <= i < |m.parts| && (m.parts[i].Text? || m.parts[i].Thinking?);
            Shows(RenderMessage(m, agent, md),
                  HeadText(m, agent)
                  + (if told then PartsText(m.parts, false, text) else PlainText(m, text))
                  + (if m.truncated then "Message truncated." else ""))
  {
    hide Shows;
    hide ShowsMarkdown;
    hide Tag;
    hide RenderHead;
    hide HeadText;
    hide RenderParts;
    hide PartsText;
    hide RenderPlain;
    hide PlainText;
    HeadShows(m, agent);
    RestShows(m.parts, false, md, text);
    ClosedRest(m.parts, md);
    PlainMessageShows(m, md, text);
    PlainShows("");
    PlainShows("Message truncated.");
    TagPairShows("p class=\"truncated\"", "Message truncated.", "Message truncated.", "/p");
    TagShows("/section");
    var head, shown := RenderHead(m, agent), HeadText(m, agent);
    var body := if HasTextParts(m.parts) then RenderParts(m.parts, md) else RenderPlain(m, md);
    var told := if HasTextParts(m.parts) then PartsText(m.parts, false, text) else PlainText(m, text);
    var note := if m.truncated then Tag("p class=\"truncated\"") + "Message truncated." + Tag("/p") else "";
    var noted := if m.truncated then "Message truncated." else "";
    ShowsConcat(head, shown, body, told);
    ShowsConcat(head + body, shown + told, note, noted);
    ShowsConcat(head + body + note, shown + told + noted, Tag("/section"), "");
    assert shown + told + noted + "" == shown + told + noted;
    ToldIs(m.parts);
  }

  lemma ToldIs(parts: seq<Part>)
    ensures HasTextParts(parts) <==> exists i :: 0 <= i < |parts| && (parts[i].Text? || parts[i].Thinking?)
  {
  }

  /** Attachments are listed with commas. */
  lemma {:induction false} NamesAre(names: seq<string>, last: string)
    ensures Names([last]) == last
    ensures names != [] ==> Names(names + [last]) == Names(names) + ", " + last
  {
    if |names| > 1 {
      NamesAre(names[1..], last);
      assert (names + [last])[1..] == names[1..] + [last];
    } else if |names| == 1 {
      assert (names + [last])[1..] == [last];
    }
  }

  /** How a message starts: its section by role, and who wrote it. */
  lemma MessageOpens(m: Message, agent: string, md: Markdown)
    ensures var css := if m.role == "user" then "user" else if m.role == "error" then "error"
                       else if m.role == "system" then "system" else "assistant";
            ("<section class=\"msg " + css + "\">") + "<header><span class=\"role\">" + Label(m.role, agent) + "</span>"
            <= RenderMessage(m, agent, md)
  {
    hide Boxed;
    hide EscapeHtml;
    hide Names;
    hide RenderParts;
    hide RenderPlain;
    hide Tag;
    OpeningTags(RoleClass(m.role));
    var a, b, c := Tag("section class=\"msg " + RoleClass(m.role) + "\""), Tag("header"), Tag("span class=\"role\"");
    var d, e := RoleLabel(m.role, agent), Tag("/span");
    var f, g := Boxed("time", m.timestamp, "/time"), Tag("/header");
    var h := if m.attachments == [] then ""
             else Tag("p class=\"attachments\"") + "Attachments: " + EscapeHtml(Names(m.attachments)) + Tag("/p");
    var x := if HasTextParts(m.parts) then RenderParts(m.parts, md) else RenderPlain(m, md);
    var y := if m.truncated then Tag("p class=\"truncated\"") + "Message truncated." + Tag("/p") else "";
    FirstFive(a, b, c, d, e, f, g, h, x, y, Tag("/section"));
    assert RenderMessage(m, agent, md) == a + b + c + d + e + f + g + h + x + y + Tag("/section");
    Openings("<section class=\"msg " + RoleClass(m.role) + "\">", d);
  }

  lemma OpeningTags(css: string)
    ensures Tag("header") == "<header>" && Tag("span class=\"role\"") == "<span class=\"role\">" && Tag("/span") == "</span>"
    ensures Tag("section class=\"msg " + css + "\"") == "<section class=\"msg " + css + "\">"
  {
  }

  lemma FirstFive(a: string, b: string, c: string, d: string, e: string, f: string, g: string, h: string,
                  x: string, y: string, z: string)
    ensures a + b + c + d + e <= a + b + c + d + e + f + g + h + x + y + z
  {
  }

  lemma Openings(section: string, who: string)
    ensures section + "<header>" + "<span class=\"role\">" + who + "</span>" ==
            section + "<header><span class=\"role\">" + who + "</span>"
  {
    assert "<header>" + "<span class=\"role\">" == "<header><span class=\"role\">";
    assert section + "<header>" + "<span class=\"role\">" == section + ("<header>" + "<span class=\"role\">");
  }
}
