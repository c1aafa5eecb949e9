/**
 Plans read back: what is printed as a plan block, with its statuses in words, or as a list of
 checkboxes, is what the parser reports.
 */
module PlanPrinting {
  import opened Wrappers
  import opened Strings
  import opened Utf8
  import opened PlanScan
  import opened PlanSpec
  import opened PlanChunking

  // ---- white space and words ----

  predicate Blank(p: string) { forall i :: 0 <= i < |p| ==> p[i] in " \t\r\n" }

  /** Neither end of the text is white space. */
  predicate Trimmed(s: string) { s != "" && Trim(s) == s }

  predicate Ink(c: char) { 0x20 < c as int < 0x80 }

  lemma TrimInk(w: string)
    requires w == "" || (Ink(w[0]) && Ink(w[|w| - 1]))
    ensures Trim(w) == w
  {
    hide TrimEnd;
    assert WsLen(w) == 0;
    assert w[0..] == w;
    InkAtEnd(w);
  }

  /** No white space character at the end, of one byte, two or three. */
  predicate EndsBlack(s: string) {
    && (|s| >= 1 ==> WsLen(s[|s| - 1..]) != 1)
    && (|s| >= 2 ==> WsLen(s[|s| - 2..]) != 2)
    && (|s| >= 3 ==> WsLen(s[|s| - 3..]) != 3)
  }

  lemma EndsBlackMeans(s: string)
    ensures TrimEnd(s) == s <==> EndsBlack(s)
  {
    hide WsLen;
  }

  lemma InkAtEnd(w: string)
    requires w == "" || Ink(w[|w| - 1])
    ensures TrimEnd(w) == w
  {
    hide EndsBlack;
    hide TrimEnd;
    InkIsBlack(w);
    EndsBlackMeans(w);
  }

  lemma InkIsBlack(w: string)
    requires w == "" || Ink(w[|w| - 1])
    ensures EndsBlack(w)
  {
    hide WsLen;
    if |w| >= 1 { InkIsLast(w[|w| - 1..]); }
    if |w| >= 2 { InkIsLast(w[|w| - 2..]); }
    if |w| >= 3 { InkIsLast(w[|w| - 3..]); }
  }

  lemma InkIsLast(s: string)
    requires 1 <= |s| <= 3 && Ink(s[|s| - 1])
    ensures WsLen(s) != |s|
  {
  }

  lemma {:induction false} SkipBlank(p: string, s: string)
    requires Blank(p)
    ensures SkipWs(p + s) == |p| + SkipWs(s)
  {
    if p == "" {
      assert "" + s == s;
    } else {
      assert WsLen(p + s) == 1;
      assert (p + s)[1..] == p[1..] + s;
      SkipBlank(p[1..], s);
    }
  }

  lemma {:induction false} TrimEndBlank(s: string, p: string)
    requires Blank(p)
    ensures TrimEnd(s + p) == TrimEnd(s)
    decreases |p|
  {
    if p == "" {
      assert s + "" == s;
    } else {
      hide Blank;
      hide TrimEnd;
      var t := s + p;
      assert t[|t| - 1..] == [p[|p| - 1]];
      assert t[..|t| - 1] == s + p[..|p| - 1];
      LastBlank(p);
      TrimEndBlank(s, p[..|p| - 1]);
      TrimLast(t);
    }
  }

  lemma LastBlank(p: string)
    requires Blank(p) && p != ""
    ensures WsLen([p[|p| - 1]]) == 1 && Blank(p[..|p| - 1])
  {
  }

  lemma TrimLast(t: string)
    requires t != "" && WsLen(t[|t| - 1..]) == 1
    ensures TrimEnd(t) == TrimEnd(t[..|t| - 1])
  {
    hide WsLen;
  }

  /** Bytes that are no ASCII never combine with a blank into white space. */
  lemma TrimmedStartsWithInk(s: string, p: string)
    requires Trimmed(s) && Blank(p)
    ensures SkipWs(s) == 0 && TrimEnd(s) == s && SkipWs(s + p) == 0
  {
    hide TrimEnd;
    hide Trimmed;
    hide WsLen;
    TrimmedEnds(s);
    NoBlankInTheMiddle(s, p);
  }

  lemma NoBlankInTheMiddle(s: string, p: string)
    requires s != "" && WsLen(s) == 0 && Blank(p)
    ensures WsLen(s + p) == 0
  {
  }

  lemma TrimmedEnds(s: string)
    requires Trimmed(s)
    ensures s != "" && SkipWs(s) == 0 && WsLen(s) == 0 && TrimEnd(s) == s
  {
    hide TrimEnd;
    assert |TrimEnd(s[SkipWs(s)..])| <= |s| - SkipWs(s);
    assert s[0..] == s;
  }

  lemma TrimPadded(p: string, s: string, q: string)
    requires Trimmed(s) && Blank(p) && Blank(q)
    ensures Trim(p + s + q) == s
  {
    hide SkipWs;
    hide TrimEnd;
    hide Blank;
    hide Trimmed;
    assert p + s + q == p + (s + q);
    SkipBlank(p, s + q);
    TrimmedStartsWithInk(s, q);
    assert (p + (s + q))[|p|..] == s + q;
    TrimEndBlank(s, q);
  }

  lemma TrimBlank(p: string)
    requires Blank(p)
    ensures Trim(p) == ""
  {
    hide TrimEnd;
    SkipBlank(p, "");
    assert p + "" == p;
    assert p[|p|..] == "";
    NothingToTrim();
  }

  lemma NothingToTrim()
    ensures TrimEnd("") == "" && SkipWs("") == 0
  {
  }

  /** What models write for a status. */
  predicate Says(word: string, status: StepStatus) {
    match status
    case Completed =>
      || word == "completed" || word == "complete" || word == "done" || word == "[x]"
      || word == "Completed" || word == "DONE" || word == "[X]"
    case InProgress =>
      || word == "in_progress" || word == "inprogress" || word == "in-progress" || word == "active"
      || word == "[-]" || word == "[/]" || word == "Active"
    case Pending => word == "pending" || word == "todo" || word == "" || word == "[ ]"
  }

  function Lowered(t: string): string { seq(|t|, i requires 0 <= i < |t| => Lower(t[i])) }

  lemma StatusOf(s: string, l: string, status: StepStatus)
    requires s == "" || (Ink(s[0]) && Ink(s[|s| - 1]))
    requires Lowered(s) == l
    requires match status
             case Completed => l == "completed" || l == "done" || l == "complete" || l == "[x]"
             case InProgress =>
               l == "in_progress" || l == "inprogress" || l == "in-progress" || l == "active" || l == "[-]" || l == "[/]"
             case Pending => l == "pending" || l == "todo" || l == "" || l == "[ ]"
    ensures ParseStatus(s) == status
  {
    hide Trim;
    TrimInk(s);
    if l == "[x]" || l == "[ ]" { assert l[1] != '-' && l[1] != '/'; }
    assert status == InProgress <==>
           l in ["in_progress", "inprogress", "in-progress", "active", "[-]", "[/]"];
    assert status == Completed ==> l in ["completed", "done", "complete", "[x]"];
    if status == Pending {
      if |l| == 4 { assert l[0] == 't'; }
      if l == "[ ]" { assert l[1] == ' '; }
      assert l !in ["completed", "done", "complete", "[x]"];
    }
  }

  predicate Folds(word: string) { word == "Completed" || word == "DONE" || word == "[X]" || word == "Active" }

  lemma CapitalWord(word: string, status: StepStatus)
    requires Says(word, status) && Folds(word)
    ensures ParseStatus(word) == status
  {
    hide ParseStatus;
    if word == "Completed" {
      assert Lowered(word) == "completed";
      StatusOf(word, "completed", status);
    } else if word == "DONE" {
      assert Lowered(word) == "done";
      StatusOf(word, "done", status);
    } else if word == "[X]" {
      assert Lowered(word) == "[x]";
      StatusOf(word, "[x]", status);
    } else {
      assert Lowered(word) == "active";
      StatusOf(word, "active", status);
    }
  }

  lemma SmallWord(word: string, status: StepStatus)
    requires Says(word, status) && !Folds(word)
    ensures word == "" || (Ink(word[0]) && Ink(word[|word| - 1]))
    ensures forall i :: 0 <= i < |word| ==> !('A' <= word[i] <= 'Z')
  {
  }

  lemma WordMeans(word: string, status: StepStatus)
    requires Says(word, status)
    ensures ParseStatus(word) == status
  {
    hide ParseStatus;
    if Folds(word) {
      CapitalWord(word, status);
    } else {
      SmallWord(word, status);
      assert Lowered(word) == word;
      StatusOf(word, word, status);
    }
  }

  // ---- opening tags ----

  lemma TailOf(rest: string)
    ensures MatchTail(">" + rest) == Some(1)
  {
    assert WsLen(">" + rest) == 0;
  }

  lemma PlainHead(t: Tag, rest: string)
    ensures MatchHead(t, t.open + ">" + rest) == Head(|t.open| + 1, None)
  {
    hide MatchTail;
    var s := t.open + ">" + rest;
    assert At(s, 0, t.open);
    var r := s[|t.open|..];
    assert r == ">" + rest;
    assert WsLen(r) == 0 && SkipWs(r) == 0;
    TailOf(rest);
  }

  lemma QuotedOf(value: string, rest: string)
    requires '"' !in value
    ensures MatchQuoted(value + "\">" + rest) == Some((|value|, |value| + 2))
  {
    hide MatchTail;
    hide Find;
    var r := value + "\">" + rest;
    assert At(r, |value|, "\"");
    forall j | 0 <= j < |value| ensures !At(r, j, "\"") {
      assert r[j] == value[j];
      NotAt(r, j, "\"", 0);
    }
    assert Find(r, "\"") == Some(|value|);
    assert r[|value| + 1..] == ">" + rest;
    TailOf(rest);
  }

  lemma OneSpace(s: string)
    requires s != "" && Ink(s[0])
    ensures SkipWs(" " + s) == 1
  {
    assert (" " + s)[1..] == s;
    assert WsLen(s) == 0;
    assert SkipWs(s) == 0;
  }

  lemma ValuedAttrs(t: Tag, value: string, rest: string)
    requires '"' !in value
    ensures var r := " " + t.attr + value + "\">" + rest;
            MatchAttrs(t, r) == Head(1 + |t.attr| + |value| + 2, Some(value))
  {
    hide MatchQuoted;
    hide SkipWs;
    var more := value + "\">" + rest;
    var r := " " + t.attr + value + "\">" + rest;
    assert r == " " + (t.attr + more);
    OneSpace(t.attr + more);
    assert At(r, 1, t.attr);
    assert r[1 + |t.attr|..] == more;
    QuotedOf(value, rest);
    assert r[1 + |t.attr|..1 + |t.attr| + |value|] == value;
  }

  lemma ValuedHead(t: Tag, value: string, rest: string)
    requires '"' !in value
    ensures var s := t.open + " " + t.attr + value + "\">" + rest;
            MatchHead(t, s) == Head(|t.open| + 1 + |t.attr| + |value| + 2, Some(value))
  {
    hide MatchAttrs;
    var s := t.open + " " + t.attr + value + "\">" + rest;
    assert At(s, 0, t.open);
    assert s[|t.open|..] == " " + t.attr + value + "\">" + rest;
    ValuedAttrs(t, value, rest);
  }

  /** An opening tag with or without its attribute. */
  function Opening(t: Tag, value: Option<string>): string {
    match value
    case None => t.open + ">"
    case Some(v) => t.open + " " + t.attr + v + "\">"
  }

  lemma OpeningMatches(t: Tag, value: Option<string>, rest: string)
    requires value.Some? ==> '"' !in value.value
    ensures MatchHead(t, Opening(t, value) + rest) == Head(|Opening(t, value)|, value)
  {
    hide MatchHead;
    match value {
      case None => PlainHead(t, rest);
      case Some(v) => ValuedHead(t, v, rest);
    }
  }

  // ---- elements ----

  function Written(t: Tag, value: Option<string>, body: string): string {
    Opening(t, value) + body + t.close
  }

  /** What is written as an element, without its closing tag inside, is matched as that element. */
  lemma WrittenMatches(t: Tag, value: Option<string>, body: string)
    requires value.Some? ==> '"' !in value.value
    requires var x := Written(t, value, body);
             forall j :: 0 <= j < |Opening(t, value)| + |body| ==> !At(x, j, t.close)
    ensures var x, h := Written(t, value, body), |Opening(t, value)|;
            OneElement(t, x) && MatchBlock(t, x) == Some(Block(0, value, h, h + |body|, |x|))
  {
    hide MatchHead;
    hide Opening;
    hide At;
    hide Find;
    var x, h := Written(t, value, body), |Opening(t, value)|;
    assert x == Opening(t, value) + (body + t.close);
    OpeningMatches(t, value, body + t.close);
    ClosesAt(x, |x| - |t.close|, t.close);
    FoundAt(x, |x| - |t.close|, t.close);
    CloseAfterHead(t, x);
  }

  lemma FoundAt(x: string, n: nat, pat: string)
    requires At(x, n, pat) && forall j :: 0 <= j < n ==> !At(x, j, pat)
    ensures Find(x, pat) == Some(n)
  {
    hide At;
    hide Find;
    var r := Find(x, pat);
    assert r.None? ==> !At(x, n, pat);
  }

  lemma ClosesAt(x: string, n: nat, c: string)
    requires n + |c| == |x| && x[n..] == c
    ensures At(x, n, c)
  {
    assert forall k :: 0 <= k < |c| ==> x[n + k] == x[n..][k];
  }

  // ---- the children of a block ----

  /** One step as a model writes it: white space before and around it, its status in a word, or none. */
  datatype Child = Child(gap: string, word: Option<string>, before: string, raw: string, after: string, status: StepStatus)

  /** The text has no tags and is trimmed, as decoded too; the word is one for the status. */
  predicate ChildOk(u: Unescape, c: Child) {
    && Blank(c.gap) && Blank(c.before) && Blank(c.after)
    && Trimmed(c.raw) && '<' !in c.raw && Trim(u(c.raw)) == u(c.raw)
    && (if c.word.Some? then Says(c.word.value, c.status) else c.status == Pending)
  }

  predicate ChildrenOk(u: Unescape, cs: seq<Child>) { forall c :: c in cs ==> ChildOk(u, c) }

  function Padded(c: Child): string { c.before + c.raw + c.after }

  function Tagged(c: Child): string { Written(STEP, c.word, Padded(c)) }

  function Children(cs: seq<Child>, tail: string): string {
    if cs == [] then tail else cs[0].gap + Tagged(cs[0]) + Children(cs[1..], tail)
  }

  /** Every `<` in the text starts `<step` or `</step`, as far as three characters tell. */
  predicate StepTagsOnly(s: string) {
    forall j :: 0 <= j < |s| && s[j] == '<' ==> StepTagAt(s, j)
  }

  predicate StepTagAt(s: string, j: nat) {
    (j + 1 < |s| && s[j + 1] == 's') || (j + 2 < |s| && s[j + 1] == '/' && s[j + 2] == 's')
  }

  lemma JoinStepTags(a: string, b: string)
    requires StepTagsOnly(a) && StepTagsOnly(b)
    ensures StepTagsOnly(a + b)
  {
    var s := a + b;
    forall j | 0 <= j < |s| && s[j] == '<' ensures StepTagAt(s, j) {
      if j < |a| {
        assert a[j] == '<' && StepTagAt(a, j);
      } else {
        var k := j - |a|;
        assert b[k] == '<' && StepTagAt(b, k);
        assert j + 1 < |s| ==> s[j + 1] == b[k + 1];
        assert j + 2 < |s| ==> s[j + 2] == b[k + 2];
      }
    }
  }

  lemma NoTags(s: string)
    requires '<' !in s
    ensures StepTagsOnly(s)
  {
  }

  lemma BlankHasNoTags(p: string)
    requires Blank(p)
    ensures '<' !in p
  {
  }

  lemma WordIsPlain(word: string, status: StepStatus)
    requires Says(word, status)
    ensures '"' !in word && '<' !in word
  {
  }

  lemma OpeningOfStep(word: Option<string>)
    requires word.Some? ==> '<' !in word.value
    ensures StepTagsOnly(Opening(STEP, word)) && |Opening(STEP, word)| > 5
    ensures Opening(STEP, word)[0] == '<' && '<' !in Opening(STEP, word)[1..] && Opening(STEP, word)[1] == 's'
  {
    var o := Opening(STEP, word);
    var more := if word.None? then ">" else " status=\"" + word.value + "\">";
    assert o == "<step" + more && '<' !in more;
    assert o[1..] == "step" + more;
    assert StepTagsOnly(o) by { hide Opening; TagAtStart(o); }
  }

  lemma TagAtStart(o: string)
    requires |o| > 1 && o[0] == '<' && o[1] == 's' && '<' !in o[1..]
    ensures StepTagsOnly(o)
  {
    assert forall j :: 0 < j < |o| ==> o[j] == o[1..][j - 1];
  }

  lemma ClosingOfStep()
    ensures StepTagsOnly(STEP.close) && STEP.close[1] == '/'
  {
  }

  lemma PaddedHasNoTags(u: Unescape, c: Child)
    requires ChildOk(u, c)
    ensures '<' !in Padded(c)
  {
    hide Says;
    hide Trim;
    BlankHasNoTags(c.before);
    BlankHasNoTags(c.after);
  }

  lemma TaggedIsStep(u: Unescape, c: Child)
    requires ChildOk(u, c)
    ensures StepTagsOnly(Tagged(c))
    ensures var x, h := Tagged(c), |Opening(STEP, c.word)|;
            OneElement(STEP, x) && MatchBlock(STEP, x) == Some(Block(0, c.word, h, h + |Padded(c)|, |x|))
  {
    hide Opening;
    hide StepTagsOnly;
    hide OneElement;
    hide MatchBlock;
    hide Padded;
    hide At;
    hide ChildOk;
    PaddedHasNoTags(u, c);
    ChildWordIsPlain(u, c);
    WrittenHasStepTags(c.word, Padded(c));
    NoCloseInside(c.word, Padded(c));
    WrittenMatches(STEP, c.word, Padded(c));
  }

  lemma ChildWordIsPlain(u: Unescape, c: Child)
    requires ChildOk(u, c)
    ensures c.word.Some? ==> '"' !in c.word.value && '<' !in c.word.value
  {
    hide Says;
    hide Blank;
    hide Trim;
    if c.word.Some? { WordIsPlain(c.word.value, c.status); }
  }

  lemma WrittenHasStepTags(word: Option<string>, body: string)
    requires '<' !in body && (word.Some? ==> '<' !in word.value)
    ensures StepTagsOnly(Written(STEP, word, body))
  {
    hide Opening;
    hide StepTagsOnly;
    OpeningOfStep(word);
    ClosingOfStep();
    NoTags(body);
    JoinStepTags(Opening(STEP, word), body);
    JoinStepTags(Opening(STEP, word) + body, STEP.close);
  }

  lemma NoCloseInside(word: Option<string>, body: string)
    requires '<' !in body && (word.Some? ==> '<' !in word.value)
    ensures var x := Written(STEP, word, body);
            forall j :: 0 <= j < |Opening(STEP, word)| + |body| ==> !At(x, j, STEP.close)
  {
    hide Opening;
    var x, o := Written(STEP, word, body), Opening(STEP, word);
    OpeningOfStep(word);
    ClosingOfStep();
    forall j | 0 <= j < |o| + |body| ensures !At(x, j, STEP.close) {
      if j == 0 {
        assert x[1] == o[1];
        NotAt(x, 0, STEP.close, 1);
      } else {
        assert x[j] == if j < |o| then o[1..][j - 1] else body[j - |o|];
        NotAt(x, j, STEP.close, 0);
      }
    }
  }

  /** The step a child stands for. */
  function StepOf(u: Unescape, c: Child): PlanStep { PlanStep(u(c.raw), c.status) }

  lemma TaggedStep(u: Unescape, c: Child, y: string)
    requires ChildOk(u, c)
    ensures XmlSteps(u, Tagged(c) + y) == [StepOf(u, c)] + XmlSteps(u, y)
  {
    hide MatchBlock;
    hide FindBlock;
    hide OneElement;
    hide ParseStatus;
    hide Trim;
    hide StepTagsOnly;
    hide Opening;
    hide Says;
    TaggedIsStep(u, c);
    ElementMatches(STEP, Tagged(c), y);
    var s, h := Tagged(c) + y, |Opening(STEP, c.word)|;
    var b := MatchBlock(STEP, Tagged(c)).value;
    assert s[b.open..b.close] == Padded(c);
    TrimPadded(c.before, c.raw, c.after);
    if c.word.Some? { WordMeans(c.word.value, c.status); }
    assert s[b.end..] == y;
    assert XmlStep(u, s, b) == [StepOf(u, c)];
  }

  lemma GapStep(u: Unescape, gap: string, y: string)
    requires Blank(gap)
    ensures XmlSteps(u, gap + y) == XmlSteps(u, y)
  {
    hide FindBlock;
    hide Inert;
    hide ParseStatus;
    hide Trim;
    BlankHasNoTags(gap);
    GapInert(STEP, gap);
    FindBlockAfterInert(STEP, gap, y);
    match FindBlock(STEP, y) {
      case None =>
      case Some(b) =>
        var s := gap + y;
        var c := b.Shift(|gap|);
        assert s[c.open..c.close] == y[b.open..b.close];
        assert s[c.end..] == y[b.end..];
    }
  }

  function StepsOf(u: Unescape, cs: seq<Child>): (r: seq<PlanStep>)
  {
    seq(|cs|, i requires 0 <= i < |cs| => StepOf(u, cs[i]))
  }

  lemma {:induction false} ChildrenSteps(u: Unescape, cs: seq<Child>, tail: string)
    requires ChildrenOk(u, cs) && Blank(tail)
    ensures XmlSteps(u, Children(cs, tail)) == StepsOf(u, cs)
    ensures StepTagsOnly(Children(cs, tail))
  {
    hide XmlSteps;
    hide StepTagsOnly;
    hide ChildOk;
    hide Blank;
    hide Tagged;
    hide StepOf;
    hide StepsOf;
    if cs == [] {
      assert StepsOf(u, cs) == [] by { NoStepsOf(u, cs); }
      assert tail + "" == tail;
      GapStep(u, tail, "");
      NoSteps(u);
      BlankHasNoTags(tail);
      NoTags(tail);
    } else {
      var c, y := cs[0], Children(cs[1..], tail);
      assert c in cs && forall d :: d in cs[1..] ==> d in cs;
      ChildrenSteps(u, cs[1..], tail);
      GapOk(u, c);
      assert c.gap + Tagged(c) + y == c.gap + (Tagged(c) + y);
      GapStep(u, c.gap, Tagged(c) + y);
      TaggedStep(u, c, y);
      TaggedIsStep(u, c);
      JoinStepTags(c.gap, Tagged(c));
      JoinStepTags(c.gap + Tagged(c), y);
      StepsCons(u, cs);
    }
  }

  lemma NoStepsOf(u: Unescape, cs: seq<Child>)
    requires cs == []
    ensures StepsOf(u, cs) == []
  {
  }

  lemma StepsCons(u: Unescape, cs: seq<Child>)
    requires cs != []
    ensures [StepOf(u, cs[0])] + StepsOf(u, cs[1..]) == StepsOf(u, cs)
  {
    hide StepOf;
  }

  lemma GapOk(u: Unescape, c: Child)
    requires ChildOk(u, c)
    ensures Blank(c.gap) && StepTagsOnly(c.gap)
  {
    hide Trim;
    hide Says;
    BlankHasNoTags(c.gap);
  }

  lemma NoSteps(u: Unescape)
    ensures XmlSteps(u, "") == []
  {
  }

  // ---- a whole block ----

  /** A plan as a model writes it, as a block of either kind. */
  function PlanText(k: Kind, explanation: Option<string>, cs: seq<Child>, tail: string): string {
    Written(k.Tag(), explanation, Children(cs, tail))
  }

  predicate ExplanationOk(u: Unescape, e: Option<string>) {
    e.Some? ==>
      '"' !in e.value && '<' !in e.value && (u(e.value) == "" || Trim(Truncated(u(e.value), MAX_EXPLANATION_LEN)) != "")
  }

  /** The plan that was meant: at most 100 steps, and texts cut at their limits. */
  predicate Meant(u: Unescape, explanation: Option<string>, cs: seq<Child>, p: Plan) {
    && |p.steps| == (if |cs| <= 100 then |cs| else 100)
    && (forall i :: 0 <= i < |p.steps| ==>
          p.steps[i].status == cs[i].status && p.steps[i].step == Truncated(u(cs[i].raw), 500))
    && p.explanation ==
       if explanation.Some? && u(explanation.value) != "" then Some(Truncated(u(explanation.value), 2000)) else None
  }

  lemma BodyIsParsed(u: Unescape, explanation: Option<string>, cs: seq<Child>, body: string) returns (p: Plan)
    requires cs != [] && XmlSteps(u, body) == StepsOf(u, cs) && ExplanationOk(u, explanation)
    ensures ParseBody(u, body, if explanation.Some? then Some(u(explanation.value)) else None) == Some(p)
    ensures Meant(u, explanation, cs, p)
  {
    hide XmlSteps;
    hide Trim;
    hide Truncated;
    hide LineSteps;
    hide Lines;
    hide CutSteps;
    p := ParseBody(u, body, if explanation.Some? then Some(u(explanation.value)) else None).value;
    NothingToTruncate();
    TrimBlank("");
  }

  lemma NothingToTruncate()
    ensures Truncated("", MAX_EXPLANATION_LEN) == ""
  {
  }

  predicate KindTagsOk(o: string, c: string, attr: string) {
    && |o| > 2 && o[0] == '<' && o[1] in "pu" && '<' !in o[1..]
    && |c| > 2 && c[0] == '<' && c[1] == '/' && c[2] in "pu" && '<' !in c[1..]
    && '<' !in attr
  }

  lemma ProposedTags()
    ensures KindTagsOk("<proposed_plan", "</proposed_plan>", "explanation=\"")
  {
    assert "<proposed_plan"[1..] == "proposed_plan" && "</proposed_plan>"[1..] == "/proposed_plan>";
  }

  lemma UpdateTags()
    ensures KindTagsOk("<update_plan", "</update_plan>", "explanation=\"")
  {
    assert "<update_plan"[1..] == "update_plan" && "</update_plan>"[1..] == "/update_plan>";
  }

  lemma KindTags(k: Kind)
    ensures KindTagsOk(k.Tag().open, k.Tag().close, k.Tag().attr)
    ensures |k.Tag().open| > 2 && |k.Other().Tag().open| > 2 && k.Tag().open[1] != k.Other().Tag().open[1]
  {
    hide KindTagsOk;
    ProposedTags();
    UpdateTags();
  }

  lemma OpeningHasOneLess(t: Tag, e: Option<string>)
    requires '<' !in t.open[1..] && '<' !in t.attr && (e.Some? ==> '<' !in e.value)
    ensures var o := Opening(t, e); |o| > |t.open| && o[..|t.open|] == t.open && '<' !in o[1..]
  {
    var o := Opening(t, e);
    match e {
      case None => assert o == t.open + ">" && o[1..] == t.open[1..] + ">";
      case Some(v) =>
        assert o == t.open + (" " + t.attr + v + "\">");
        assert o[1..] == t.open[1..] + (" " + t.attr + v + "\">");
    }
  }

  lemma OpeningOfBlock(k: Kind, e: Option<string>)
    requires e.Some? ==> '<' !in e.value
    ensures var o := Opening(k.Tag(), e);
            |o| > |k.Tag().open| && o[..|k.Tag().open|] == k.Tag().open && '<' !in o[1..]
  {
    hide Kind.Tag;
    hide Opening;
    KindTags(k);
    OpeningHasOneLess(k.Tag(), e);
  }

  lemma NotAtStepTag(body: string, j: nat, s: string, d: nat, pat: string)
    requires StepTagsOnly(body) && j < |body| && d + |body| <= |s| && s[d..d + |body|] == body
    requires |pat| > 2 && pat[0] == '<' && (pat[1] in "pu" || (pat[1] == '/' && pat[2] in "pu"))
    ensures !At(s, d + j, pat)
  {
    var x := s[d..d + |body|];
    assert s[d + j] == x[j];
    if body[j] != '<' {
      NotAt(s, d + j, pat, 0);
      return;
    }
    assert StepTagAt(body, j);
    if body[j + 1] == 's' {
      assert s[d + j + 1] == x[j + 1];
      NotAt(s, d + j, pat, 1);
    } else {
      assert s[d + j + 1] == x[j + 1] && s[d + j + 2] == x[j + 2];
      if pat[1] == '/' { NotAt(s, d + j, pat, 2); } else { NotAt(s, d + j, pat, 1); }
    }
  }

  /** Neither the closing tag nor the other kind's opening tag occurs within the block. */
  lemma NothingInside(k: Kind, e: Option<string>, body: string)
    requires StepTagsOnly(body) && (e.Some? ==> '<' !in e.value)
    ensures var x := Written(k.Tag(), e, body);
            && (forall j :: 0 <= j < |Opening(k.Tag(), e)| + |body| ==> !At(x, j, k.Tag().close))
            && (forall j :: !At(x, j, k.Other().Tag().open))
  {
    hide Opening;
    hide Kind.Tag;
    hide StepTagsOnly;
    hide At;
    var t := k.Tag();
    var x, o := Written(t, e, body), Opening(t, e);
    KindTags(k);
    KindTags(k.Other());
    OpeningOfBlock(k, e);
    assert x[|o|..|o| + |body|] == body;
    forall j | 0 <= j < |o| + |body| ensures !At(x, j, t.close) {
      if j < |o| { NotAtOpening(k, e, body, j); } else { NotAtStepTag(body, j - |o|, x, |o|, t.close); }
    }
    forall j ensures !At(x, j, k.Other().Tag().open) {
      if 0 <= j < |o| {
        NotAtOpening(k, e, body, j);
      } else if |o| <= j < |o| + |body| {
        NotAtStepTag(body, j - |o|, x, |o|, k.Other().Tag().open);
      } else {
        NotAtClosing(k, x, |o| + |body|, j);
      }
    }
  }

  lemma NotAtOpening(k: Kind, e: Option<string>, body: string, j: nat)
    requires (e.Some? ==> '<' !in e.value) && j < |Opening(k.Tag(), e)|
    ensures !At(Written(k.Tag(), e, body), j, k.Tag().close)
    ensures !At(Written(k.Tag(), e, body), j, k.Other().Tag().open)
  {
    hide Opening;
    hide Kind.Tag;
    var t := k.Tag();
    var x, o := Written(t, e, body), Opening(t, e);
    KindTags(k);
    KindTags(k.Other());
    OpeningOfBlock(k, e);
    assert x[j] == o[j];
    if j == 0 {
      assert o[1] == o[..|t.open|][1] == t.open[1] && x[1] == o[1];
      NotAt(x, 0, t.close, 1);
      NotAt(x, 0, k.Other().Tag().open, 1);
    } else {
      assert o[j] == o[1..][j - 1];
      NotAt(x, j, t.close, 0);
      NotAt(x, j, k.Other().Tag().open, 0);
    }
  }

  lemma NotAtClosing(k: Kind, x: string, d: nat, j: int)
    requires d <= |x| && x[d..] == k.Tag().close && !(0 <= j < d)
    ensures !At(x, j, k.Other().Tag().open)
  {
    hide Kind.Tag;
    KindTags(k);
    KindTags(k.Other());
    var c := k.Tag().close;
    if j == d {
      assert c[1] == x[d..][1] == x[d + 1];
      NotAt(x, j, k.Other().Tag().open, 1);
    } else if d < j < |x| {
      assert x[j] == c[j - d] == c[1..][j - d - 1];
      NotAt(x, j, k.Other().Tag().open, 0);
    }
  }

  lemma OtherKindFindsNothing(u: Unescape, k: Kind, x: string)
    requires forall j :: !At(x, j, k.Other().Tag().open)
    ensures Drain(u, k.Other().Tag(), x) == Drained([], x)
  {
    hide Drain;
    hide At;
    NoOpenNoBlock(k.Other().Tag(), x);
    DrainNothing(u, k.Other().Tag(), x);
  }

  lemma NothingToDrain(u: Unescape, t: Tag)
    ensures Drain(u, t, "") == Drained([], "") && TrimBuffer("") == ""
  {
  }

  /** One block and its plan: the block is the element it was written as, and one call takes all of it. */
  lemma BlockIsReported(u: Unescape, k: Kind, explanation: Option<string>, body: string, p: Plan)
    requires StepTagsOnly(body) && ExplanationOk(u, explanation)
    requires ParseBody(u, body, if explanation.Some? then Some(u(explanation.value)) else None) == Some(p)
    ensures ItemPlan(u, Element(k, Written(k.Tag(), explanation, body))) == [p]
    ensures PlanSpec.Feed(u, "", Written(k.Tag(), explanation, body)) == Drained([p], "")
  {
    hide StepTagsOnly;
    hide Trim;
    hide Truncated;
    hide ParseBody;
    hide Opening;
    hide MatchBlock;
    hide OneElement;
    hide At;
    hide Drain;
    hide TrimBuffer;
    hide HasCheckbox;
    hide BoxSteps;
    hide Lines;
    hide KeepLines;
    var x, t := Written(k.Tag(), explanation, body), k.Tag();
    NothingInside(k, explanation, body);
    WrittenMatches(t, explanation, body);
    var b := MatchBlock(t, x).value;
    assert x[b.open..b.close] == body;
    assert ItemPlan(u, Element(k, x)) == [p];
    DrainElement(u, k, x, "");
    OtherKindFindsNothing(u, k, x);
    FeedOneBlock(u, k, x, p);
  }

  lemma FeedOneBlock(u: Unescape, k: Kind, x: string, p: Plan)
    requires Drain(u, k.Tag(), x + "") == Drained([p] + Drain(u, k.Tag(), "").plans, Drain(u, k.Tag(), "").rest)
    requires Drain(u, k.Other().Tag(), x) == Drained([], x)
    ensures PlanSpec.Feed(u, "", x) == Drained([p], "")
  {
    hide Drain;
    hide TrimBuffer;
    hide HasCheckbox;
    hide BoxSteps;
    hide Lines;
    hide KeepLines;
    NothingToDrain(u, k.Tag());
    NothingToDrain(u, k.Other().Tag());
    assert x + "" == x && "" + x == x && [p] + [] == [p];
  }

  /**
   A written plan is reported as what was meant: its steps in order, at most 100, each with the
   status its word stands for, and its explanation. Nothing of it stays in the buffer.
   */
  lemma WrittenPlanIsReported(u: Unescape, k: Kind, explanation: Option<string>, cs: seq<Child>, tail: string)
    returns (p: Plan)
    requires cs != [] && ChildrenOk(u, cs) && Blank(tail) && ExplanationOk(u, explanation)
    ensures Meant(u, explanation, cs, p)
    ensures ItemPlan(u, Element(k, PlanText(k, explanation, cs, tail))) == [p]
    ensures PlanSpec.Feed(u, "", PlanText(k, explanation, cs, tail)) == Drained([p], "")
  {
    hide XmlSteps;
    hide StepTagsOnly;
    hide ChildOk;
    hide Blank;
    hide ExplanationOk;
    hide ParseBody;
    hide Meant;
    hide ItemPlan;
    hide PlanSpec.Feed;
    hide Written;
    ChildrenSteps(u, cs, tail);
    p := BodyIsParsed(u, explanation, cs, Children(cs, tail));
    BlockIsReported(u, k, explanation, Children(cs, tail), p);
  }

  // ---- lists of lines ----

  predicate LineOk(l: string) { '\n' !in l && (l != "" ==> l[|l| - 1] != '\r') }

  /** One line after the other, each ended by a newline. */
  function OnLines(lines: seq<string>): string {
    if lines == [] then "" else lines[0] + "\n" + OnLines(lines[1..])
  }

  lemma NewlineAt(l: string, y: string)
    requires '\n' !in l
    ensures Find(l + "\n" + y, "\n") == Some(|l|)
  {
    hide Find;
    var s := l + "\n" + y;
    assert At(s, |l|, "\n");
    forall j | 0 <= j < |l| ensures !At(s, j, "\n") {
      assert s[j] == l[j];
      NotAt(s, j, "\n", 0);
    }
    assert Find(s, "\n") == Some(|l|);
  }

  lemma {:induction false} LinesOf(lines: seq<string>)
    requires forall l :: l in lines ==> LineOk(l)
    ensures Lines(OnLines(lines)) == lines
  {
    hide Find;
    hide Lines;
    if lines == [] {
      assert Lines("") == [] by { NoLine(); }
    } else {
      var l, y := lines[0], OnLines(lines[1..]);
      assert l in lines && forall m :: m in lines[1..] ==> m in lines;
      LinesOf(lines[1..]);
      FirstLine(l, y);
      assert [l] + lines[1..] == lines;
    }
  }

  lemma NoLine()
    ensures Lines("") == []
  {
  }

  lemma FirstLine(l: string, y: string)
    requires LineOk(l)
    ensures Lines(l + "\n" + y) == [l] + Lines(y)
  {
    hide Find;
    NewlineAt(l, y);
    var s := l + "\n" + y;
    assert s[..|l|] == l && s[|l| + 1..] == y;
    assert |l| > 0 ==> s[|l| - 1] == l[|l| - 1];
  }

  lemma {:induction false} OnLinesPlain(lines: seq<string>)
    requires forall l :: l in lines ==> '<' !in l
    ensures '<' !in OnLines(lines)
  {
    if lines != [] {
      assert lines[0] in lines && forall m :: m in lines[1..] ==> m in lines;
      OnLinesPlain(lines[1..]);
    }
  }

  lemma TrimmedLine(text: string)
    requires Trimmed(text)
    ensures text != "" && text[|text| - 1] != '\r'
  {
    hide TrimEnd;
    TrimmedEnds(text);
    ShorterTrim(text);
  }

  lemma ShorterTrim(text: string)
    requires text != ""
    ensures text[|text| - 1] == '\r' ==> TrimEnd(text) != text
  {
    assert text[|text| - 1] == '\r' ==> WsLen(text[|text| - 1..]) == 1;
  }

  // ---- checkboxes ----

  /** A line with a checkbox, or any other that is not empty: it has no square bracket, or no bullet in front. */
  datatype Line =
    | Box(indent: string, bullet: char, mark: char, text: string, status: StepStatus)
    | Other(text: string)

  predicate Indent(p: string) { forall i :: 0 <= i < |p| ==> p[i] == ' ' || p[i] == '\t' }

  predicate ListLineOk(l: Line) {
    match l
    case Box(indent, bullet, mark, text, status) =>
      && Indent(indent) && (bullet == '-' || bullet == '*')
      && (match status
          case Completed => mark == 'x' || mark == 'X'
          case InProgress => mark == '-' || mark == '/'
          case Pending => mark == ' ')
      && Trimmed(text) && '\n' !in text && '<' !in text && |text| <= 500
    case Other(text) =>
      && text != "" && LineOk(text) && '<' !in text
      && ('[' !in text || (Ink(text[0]) && text[0] != '-' && text[0] != '*'))
  }

  function Shown(l: Line): string {
    match l
    case Box(indent, bullet, mark, text, _) => indent + [bullet] + " [" + [mark] + "] " + text
    case Other(text) => text
  }

  function Checklist(lines: seq<Line>): string { OnLines(seq(|lines|, i requires 0 <= i < |lines| => Shown(lines[i]))) }

  lemma MarkAt(mark: char, rest: string)
    requires mark in " xX/-"
    ensures var r := [mark] + "]" + rest; (if r[0] in "xX/-" then 1 else WsLen(r)) == 1
  {
  }

  lemma BoxHeadAt(s: string, w: nat, m: char)
    requires w + 4 < |s| && SkipWs(s) == w && (s[w] == '-' || s[w] == '*') && SkipWs(s[w + 1..]) == 1 && s[w + 2] == '['
    requires m in " xX/-" && s[w + 3] == m && s[w + 4] == ']'
    ensures BoxHead(s) == Some(([m], w + 5))
  {
    hide SkipWs;
    hide WsLen;
    var r := s[w + 3..];
    MarkAt(m, s[w + 5..]);
    assert r == [m] + "]" + s[w + 5..];
    assert r[..1] == [m];
  }

  lemma BoxSpacing(l: Line, y: string)
    requires l.Box? && ListLineOk(l)
    ensures var s, w := Shown(l) + y, |l.indent|;
            && w + 5 < |s| && SkipWs(s) == w && s[w] == l.bullet && SkipWs(s[w + 1..]) == 1 && s[w + 2] == '['
            && s[w + 3] == l.mark && s[w + 4] == ']' && s[w + 5] == ' '
  {
    hide SkipWs;
    hide Trimmed;
    var s, w := Shown(l) + y, |l.indent|;
    var after := "[" + [l.mark] + "] " + l.text + y;
    var more := [l.bullet] + " " + after;
    assert s == l.indent + more;
    IndentIsBlank(l.indent);
    SkipBlank(l.indent, more);
    NoSkip(more);
    assert s[w + 1..] == " " + after;
    OneSpace(after);
  }

  /** The marker of a checkbox, whatever follows its line. */
  lemma BoxHeadOf(l: Line, y: string)
    requires l.Box? && ListLineOk(l)
    ensures BoxHead(Shown(l) + y) == Some(([l.mark], |l.indent| + 5))
  {
    hide SkipWs;
    hide BoxHead;
    hide Shown;
    hide Trimmed;
    BoxSpacing(l, y);
    BoxHeadAt(Shown(l) + y, |l.indent|, l.mark);
  }

  lemma IndentIsBlank(p: string)
    requires Indent(p)
    ensures Blank(p) && '\n' !in p && '<' !in p
  {
  }

  lemma NoSkip(s: string)
    requires s != "" && Ink(s[0])
    ensures SkipWs(s) == 0
  {
    assert WsLen(s) == 0;
  }

  lemma BoxOf(l: Line)
    requires l.Box? && ListLineOk(l)
    ensures LineBox(Shown(l)) == Some(([l.mark], l.text))
  {
    hide BoxHead;
    hide Trimmed;
    hide Blank;
    BoxHeadOf(l, "");
    assert Shown(l) + "" == Shown(l);
    var s, n := Shown(l), |l.indent| + 5;
    assert s[n..] == " " + l.text + "";
    assert Blank(" ") && Blank("") by { OneBlank(); }
    TrimPadded(" ", l.text, "");
    assert l.text != "" by { TrimmedEnds(l.text); }
  }

  lemma OneBlank()
    ensures Blank(" ") && Blank("")
  {
  }

  lemma OtherIsNoBox(l: Line)
    requires l.Other? && ListLineOk(l)
    ensures LineBox(Shown(l)) == None
  {
    if '[' in l.text { NoSkip(l.text); }
  }

  lemma MarkMeans(mark: char, status: StepStatus)
    requires match status
             case Completed => mark == 'x' || mark == 'X'
             case InProgress => mark == '-' || mark == '/'
             case Pending => mark == ' '
    ensures ParseStatus("[" + [mark] + "]") == status
  {
    hide ParseStatus;
    assert "[" + ['x'] + "]" == "[x]" && "[" + ['X'] + "]" == "[X]" && "[" + [' '] + "]" == "[ ]";
    assert "[" + ['-'] + "]" == "[-]" && "[" + ['/'] + "]" == "[/]";
    WordMeans("[" + [mark] + "]", status);
  }

  function BoxesOf(lines: seq<Line>): seq<PlanStep> {
    if lines == [] then []
    else (if lines[0].Box? then [PlanStep(lines[0].text, lines[0].status)] else []) + BoxesOf(lines[1..])
  }

  /** The other lines, a newline between any two. */
  function OthersOf(kept: string, lines: seq<Line>): string
    decreases |lines|
  {
    if lines == [] then kept
    else OthersOf(if lines[0].Box? then kept else if kept == "" then lines[0].text else kept + "\n" + lines[0].text, lines[1..])
  }

  predicate ListOk(lines: seq<Line>) { forall l :: l in lines ==> ListLineOk(l) }

  function Texts(lines: seq<Line>): seq<string> { seq(|lines|, i requires 0 <= i < |lines| => Shown(lines[i])) }

  lemma TextsCons(lines: seq<Line>)
    requires lines != []
    ensures Texts(lines)[0] == Shown(lines[0]) && Texts(lines)[1..] == Texts(lines[1..])
  {
  }

  lemma ShortText(text: string)
    requires |text| <= 500
    ensures Truncated(text, MAX_STEP_LEN) == text
  {
  }

  lemma OneLine(l: Line)
    requires ListLineOk(l)
    ensures (match LineBox(Shown(l)) case None => [] case Some(b) => BoxStep(b)) ==
            if l.Box? then [PlanStep(l.text, l.status)] else []
    ensures LineBox(Shown(l)).Some? <==> l.Box?
  {
    hide LineBox;
    hide ParseStatus;
    hide Trim;
    hide Truncated;
    hide Shown;
    if l.Box? {
      BoxOf(l);
      MarkMeans(l.mark, l.status);
      ShortText(l.text);
    } else {
      OtherIsNoBox(l);
    }
  }

  lemma {:induction false} BoxLines(lines: seq<Line>, kept: string)
    requires ListOk(lines)
    ensures BoxSteps(Texts(lines)) == BoxesOf(lines)
    ensures KeepLines(kept, Texts(lines)) == OthersOf(kept, lines)
    decreases |lines|
  {
    hide LineBox;
    hide BoxStep;
    hide ListLineOk;
    hide Shown;
    hide Texts;
    if lines == [] {
      assert Texts(lines) == [] by { NoTexts(lines); }
    } else {
      var l := lines[0];
      assert l in lines && forall m :: m in lines[1..] ==> m in lines;
      TextsCons(lines);
      TextsNotEmpty(lines);
      OneLine(l);
      OtherText(l);
      var next := if l.Box? then kept else KeepLine(kept, Shown(l));
      BoxLines(lines[1..], next);
      assert kept == "" ==> "" + "" + l.text == l.text;
    }
  }

  lemma NoTexts(lines: seq<Line>)
    requires lines == []
    ensures Texts(lines) == []
  {
  }

  lemma TextsNotEmpty(lines: seq<Line>)
    requires lines != []
    ensures Texts(lines) != []
  {
  }

  lemma OtherText(l: Line)
    ensures l.Other? ==> Shown(l) == l.text
  {
  }

  lemma ShownOk(l: Line)
    requires ListLineOk(l)
    ensures LineOk(Shown(l)) && '<' !in Shown(l)
  {
    hide Trim;
    if l.Box? {
      IndentIsBlank(l.indent);
      TrimmedLine(l.text);
      var s := Shown(l);
      assert s[|s| - 1] == l.text[|l.text| - 1];
    }
  }

  lemma BoxStarts(l: Line, y: string)
    requires l.Box? && ListLineOk(l)
    ensures BoxAtStart(Shown(l) + y)
  {
    hide BoxHead;
    hide Trim;
    BoxHeadOf(l, y);
    var s, n := Shown(l) + y, |l.indent| + 5;
    assert s[n] == ' ';
  }

  lemma {:induction false} SomeBox(lines: seq<Line>)
    requires ListOk(lines) && BoxesOf(lines) != []
    ensures HasCheckbox(OnLines(Texts(lines)))
  {
    hide BoxAtStart;
    hide ListLineOk;
    hide Shown;
    hide Texts;
    hide Find;
    var l := lines[0];
    assert l in lines && forall m :: m in lines[1..] ==> m in lines;
    TextsCons(lines);
    TextsNotEmpty(lines);
    var y := OnLines(Texts(lines[1..]));
    var s := Shown(l) + "\n" + y;
    if l.Box? {
      BoxStarts(l, "\n" + y);
      assert s == Shown(l) + ("\n" + y);
    } else {
      SomeBox(lines[1..]);
      ShownOk(l);
      NewlineAt(Shown(l), y);
      assert s[|Shown(l)| + 1..] == y;
    }
  }

  lemma {:induction false} TextsOk(lines: seq<Line>)
    requires ListOk(lines)
    ensures forall t :: t in Texts(lines) ==> LineOk(t) && '<' !in t
  {
    hide ListLineOk;
    hide Shown;
    forall t | t in Texts(lines) ensures LineOk(t) && '<' !in t {
      var i :| 0 <= i < |lines| && t == Shown(lines[i]);
      assert lines[i] in lines;
      ShownOk(lines[i]);
    }
  }

  lemma PlainHasNoBlocks(u: Unescape, t: Tag, s: string)
    requires '<' !in s
    ensures Drain(u, t, s) == Drained([], s)
  {
    hide Drain;
    hide At;
    forall j ensures !At(s, j, t.open) {
      NotAtPlain(s, j, t.open);
    }
    NoOpenNoBlock(t, s);
    DrainNothing(u, t, s);
  }

  lemma NotAtPlain(s: string, j: int, pat: string)
    requires '<' !in s && pat != "" && pat[0] == '<'
    ensures !At(s, j, pat)
  {
    if 0 <= j < |s| { NotAt(s, j, pat, 0); }
  }

  /**
   A list of checkboxes is reported as one plan, its steps in the order of the boxes with what the
   boxes show as status, at most 100; the other lines stay in the buffer, in order.
   */
  lemma ChecklistIsReported(u: Unescape, lines: seq<Line>)
    requires ListOk(lines) && BoxesOf(lines) != []
    ensures var d, steps := PlanSpec.Feed(u, "", Checklist(lines)), BoxesOf(lines);
            && d.plans == [Plan(None, if |steps| <= 100 then steps else steps[..100])]
            && (|OthersOf("", lines)| <= 64 * 1024 ==> d.rest == OthersOf("", lines))
  {
    hide Drain;
    hide HasCheckbox;
    hide BoxSteps;
    hide Lines;
    hide KeepLines;
    hide BoxesOf;
    hide OthersOf;
    hide OnLines;
    hide ListOk;
    var s := Checklist(lines);
    assert s == OnLines(Texts(lines)) && "" + s == s;
    TextsOk(lines);
    OnLinesPlain(Texts(lines));
    PlainHasNoBlocks(u, PROPOSED, s);
    PlainHasNoBlocks(u, UPDATE, s);
    LinesOf(Texts(lines));
    BoxLines(lines, "");
    SomeBox(lines);
  }

  // ---- a block of plain lines ----

  /** A line of a block without `<step>` children, perhaps with a marker in front. */
  datatype Bullet = Bullet(marker: string, text: string)

  predicate BulletOk(b: Bullet) {
    && (b.marker == "" || b.marker == "[x] " || b.marker == "[ ] ")
    && Trimmed(b.text) && '\n' !in b.text && '<' !in b.text && ']' !in b.text
  }

  predicate BulletsOk(bs: seq<Bullet>) { forall b :: b in bs ==> BulletOk(b) }

  function Bulleted(b: Bullet): string { b.marker + b.text }

  function BulletLines(bs: seq<Bullet>): seq<string> { seq(|bs|, i requires 0 <= i < |bs| => Bulleted(bs[i])) }

  lemma TrimMarked(marker: string, text: string)
    requires (marker == "[x] " || marker == "[ ] ") && Trimmed(text)
    ensures Trim(marker + text) == marker + text
  {
    hide Trimmed;
    TrimmedEnds(text);
    var s := marker + text;
    assert WsLen(s) == 0 && s[0..] == s;
    NothingTrimmed(marker[..2], text);
    assert s == marker[..2] + ("] " + text);
  }

  lemma EndOfConcat(a: string, b: string, k: nat)
    requires k <= |b|
    ensures (a + b)[|a + b| - k..] == b[|b| - k..]
  {
  }

  /** The last characters of a text behind `] `. */
  lemma EndBehindMarker(a: string, text: string, k: nat)
    requires 1 <= k <= 3 && text != ""
    ensures var s := a + ("] " + text);
            s[|s| - k..] == if k <= |text| then text[|text| - k..] else if k == |text| + 1 then " " + text else "] " + text
  {
    var closed := "] " + text;
    EndOfConcat(a, closed, k);
    if k <= |text| {
      EndOfConcat("] ", text, k);
    } else if k == |text| + 1 {
      assert closed == "]" + (" " + text);
      EndOfConcat("]", " " + text, k);
      assert (" " + text)[0..] == " " + text;
    } else {
      assert closed[0..] == closed;
    }
  }

  /** `WsLen` of the last `k` characters, if there are as many. */
  function EndLen(s: string, k: nat): nat { if k <= |s| then WsLen(s[|s| - k..]) else 0 }

  lemma EndsBlackIs(s: string)
    ensures EndsBlack(s) <==> EndLen(s, 1) != 1 && EndLen(s, 2) != 2 && EndLen(s, 3) != 3
  {
    hide WsLen;
  }

  lemma EndIsNotWhite(a: string, text: string, k: nat)
    requires 1 <= k <= 3 && text != "" && EndLen(text, k) != k
    ensures EndLen(a + ("] " + text), k) != k
  {
    hide WsLen;
    SpaceThen(text);
    EndBehindMarker(a, text, k);
  }

  lemma BlackBehindMarker(a: string, text: string)
    requires text != "" && EndsBlack(text)
    ensures EndsBlack(a + ("] " + text))
  {
    hide EndLen;
    hide EndsBlack;
    EndsBlackIs(text);
    EndsBlackIs(a + ("] " + text));
    EndIsNotWhite(a, text, 1);
    EndIsNotWhite(a, text, 2);
    EndIsNotWhite(a, text, 3);
  }

  lemma NothingTrimmed(a: string, text: string)
    requires text != "" && TrimEnd(text) == text
    ensures TrimEnd(a + ("] " + text)) == a + ("] " + text)
  {
    hide TrimEnd;
    hide EndsBlack;
    EndsBlackMeans(text);
    BlackBehindMarker(a, text);
    EndsBlackMeans(a + ("] " + text));
  }

  lemma SpaceThen(text: string)
    ensures WsLen(" " + text) == 1 && WsLen("] " + text) == 0
  {
  }

  lemma BulletText(b: Bullet)
    requires BulletOk(b)
    ensures Trim(Bulleted(b)) == Bulleted(b) && Bulleted(b) != "" && TrimCheckbox(Bulleted(b)) == b.text
    ensures LineOk(Bulleted(b)) && '<' !in Bulleted(b)
  {
    hide Trim;
    hide Find;
    hide Trimmed;
    var l := Bulleted(b);
    TrimmedLine(b.text);
    assert l[|l| - 1] == b.text[|b.text| - 1];
    TrimmedText(b.text);
    if b.marker == "" {
      assert l == b.text;
      NoBracket(l);
    } else {
      TrimMarked(b.marker, b.text);
      MarkerEnds(b.marker, b.text);
      assert l[3..] == " " + b.text + "";
      OneBlank();
      TrimPadded(" ", b.text, "");
    }
  }

  lemma TrimmedText(text: string)
    requires Trimmed(text)
    ensures Trim(text) == text && text != ""
  {
  }

  lemma NoBracket(l: string)
    requires ']' !in l
    ensures Find(l, "]") == None
  {
    if Find(l, "]").Some? { AtFirst(l, Find(l, "]").value, "]"); }
  }

  lemma MarkerEnds(marker: string, text: string)
    requires marker == "[x] " || marker == "[ ] "
    ensures Find(marker + text, "]") == Some(2)
  {
    hide Find;
    var s := marker + text;
    assert At(s, 2, "]");
    NotAt(s, 0, "]", 0);
    NotAt(s, 1, "]", 0);
    assert Find(s, "]") == Some(2);
  }

  function PendingSteps(bs: seq<Bullet>): seq<PlanStep> {
    seq(|bs|, i requires 0 <= i < |bs| => PlanStep(bs[i].text, Pending))
  }

  lemma {:induction false} BulletSteps(bs: seq<Bullet>)
    requires BulletsOk(bs)
    ensures LineSteps(BulletLines(bs)) == PendingSteps(bs)
    ensures forall l :: l in BulletLines(bs) ==> LineOk(l) && '<' !in l
  {
    hide Trim;
    hide TrimCheckbox;
    hide BulletOk;
    hide Bulleted;
    if bs != [] {
      var b, lines := bs[0], BulletLines(bs);
      assert b in bs && forall c :: c in bs[1..] ==> c in bs;
      BulletSteps(bs[1..]);
      BulletText(b);
      BulletTrims(b);
      assert lines[0] == Bulleted(b) && lines[1..] == BulletLines(bs[1..]);
      assert LineSteps(lines) == [PlanStep(b.text, Pending)] + LineSteps(lines[1..]);
      forall l | l in lines ensures LineOk(l) && '<' !in l {
        assert l == lines[0] || l in lines[1..];
      }
    }
  }

  lemma BulletTrims(b: Bullet)
    requires BulletOk(b)
    ensures Trim(b.text) == b.text
  {
    hide Trim;
  }

  lemma PlainHasNoSteps(u: Unescape, s: string)
    requires '<' !in s
    ensures XmlSteps(u, s) == []
  {
    hide At;
    forall j ensures !At(s, j, STEP.open) {
      NotAtPlain(s, j, STEP.open);
    }
    NoOpenNoBlock(STEP, s);
  }

  /** Without children every line is a pending step, its marker dropped. */
  lemma PlainLinesAreReported(u: Unescape, k: Kind, bs: seq<Bullet>) returns (p: Plan)
    requires bs != [] && BulletsOk(bs)
    ensures p.explanation == None && |p.steps| == (if |bs| <= 100 then |bs| else 100)
    ensures forall i :: 0 <= i < |p.steps| ==>
              p.steps[i].step == Truncated(bs[i].text, 500) && p.steps[i].status == Pending
    ensures PlanSpec.Feed(u, "", Written(k.Tag(), None, OnLines(BulletLines(bs)))) == Drained([p], "")
  {
    hide XmlSteps;
    hide LineSteps;
    hide Lines;
    hide OnLines;
    hide BulletLines;
    hide BulletOk;
    hide PlanSpec.Feed;
    hide Written;
    hide Truncated;
    hide CutSteps;
    hide StepTagsOnly;
    var body := OnLines(BulletLines(bs));
    BulletSteps(bs);
    LinesOf(BulletLines(bs));
    OnLinesPlain(BulletLines(bs));
    PlainHasNoSteps(u, body);
    p := ParseBody(u, body, None).value;
    NoTags(body);
    BlockIsReported(u, k, None, body, p);
  }

  // ---- in so many letters ----

  /** A text that is left as it is. */
  predicate Simple(u: Unescape, t: string) { Trimmed(t) && u(t) == t && |t| <= 500 && '<' !in t && '"' !in t }

  lemma SimpleText(u: Unescape, t: string)
    requires Simple(u, t)
    ensures t != "" && Trim(t) == t && Truncated(t, 500) == t && Truncated(t, 2000) == t
  {
    hide Trim;
    TrimmedText(t);
  }

  lemma ChildInLetters(t: string)
    ensures Tagged(Child("", Some("done"), "", t, "", Completed)) == "<step status=\"done\">" + t + "</step>"
    ensures Tagged(Child("", Some("in_progress"), "", t, "", InProgress)) == "<step status=\"in_progress\">" + t + "</step>"
    ensures Tagged(Child("", None, "", t, "", Pending)) == "<step>" + t + "</step>"
  {
    assert "<step" + " " + "status=\"" + "done" + "\">" == "<step status=\"done\">";
    assert "<step" + " " + "status=\"" + "in_progress" + "\">" == "<step status=\"in_progress\">";
    assert "<step" + ">" == "<step>";
    assert "" + t + "" == t;
  }

  lemma ThreeChildren(a: Child, b: Child, c: Child)
    requires a.gap == b.gap == c.gap == ""
    ensures Children([a, b, c], "") == Tagged(a) + Tagged(b) + Tagged(c)
  {
    hide Tagged;
    assert [a, b, c][1..] == [b, c] && [b, c][1..] == [c] && [c][1..] == [];
    assert Children([c], "") == Tagged(c);
    assert Children([b, c], "") == Tagged(b) + Tagged(c);
  }

  lemma BlockInLetters(e: string, body: string)
    ensures Written(UPDATE, Some(e), body) == "<update_plan explanation=\"" + e + "\">" + body + "</update_plan>"
  {
    assert "<update_plan" + " " + "explanation=\"" == "<update_plan explanation=\"";
  }

  /** A block as it comes out of a model, and the plan it is taken for. */
  lemma PlanInLetters(u: Unescape, e: string, a: string, b: string, c: string)
    requires Simple(u, e) && Simple(u, a) && Simple(u, b) && Simple(u, c)
    ensures PlanSpec.Feed(u, "",
              "<update_plan explanation=\"" + e + "\">"
              + ("<step status=\"done\">" + a + "</step>" + ("<step status=\"in_progress\">" + b + "</step>")
                 + ("<step>" + c + "</step>"))
              + "</update_plan>")
            == Drained([Plan(Some(e), [PlanStep(a, Completed), PlanStep(b, InProgress), PlanStep(c, Pending)])], "")
  {
    hide PlanSpec.Feed;
    hide Trim;
    hide Truncated;
    hide Tagged;
    hide Children;
    hide Written;
    hide Simple;
    var x := Child("", Some("done"), "", a, "", Completed);
    var y := Child("", Some("in_progress"), "", b, "", InProgress);
    var z := Child("", None, "", c, "", Pending);
    var cs := [x, y, z];
    SimpleChild(u, x);
    SimpleChild(u, y);
    SimpleChild(u, z);
    SimpleExplanation(u, e);
    assert Blank("") by { OneBlank(); }
    var p := WrittenPlanIsReported(u, Update, Some(e), cs, "");
    MeantInLetters(u, e, x, y, z, p);
    ChildInLetters(a);
    ChildInLetters(b);
    ChildInLetters(c);
    ThreeChildren(x, y, z);
    BlockInLetters(e, Children(cs, ""));
  }

  lemma MeantInLetters(u: Unescape, e: string, x: Child, y: Child, z: Child, p: Plan)
    requires Simple(u, e) && Simple(u, x.raw) && Simple(u, y.raw) && Simple(u, z.raw)
    requires Meant(u, Some(e), [x, y, z], p)
    ensures p == Plan(Some(e), [PlanStep(x.raw, x.status), PlanStep(y.raw, y.status), PlanStep(z.raw, z.status)])
  {
    hide Trim;
    hide Truncated;
    hide Simple;
    SimpleText(u, e);
    SimpleText(u, x.raw);
    SimpleText(u, y.raw);
    SimpleText(u, z.raw);
    Unchanged(u, e);
    Unchanged(u, x.raw);
    Unchanged(u, y.raw);
    Unchanged(u, z.raw);
  }

  lemma Unchanged(u: Unescape, t: string)
    requires Simple(u, t)
    ensures u(t) == t
  {
  }

  lemma SimpleChild(u: Unescape, c: Child)
    requires Simple(u, c.raw) && c.gap == c.before == c.after == ""
    requires if c.word.Some? then Says(c.word.value, c.status) else c.status == Pending
    ensures ChildOk(u, c)
  {
    hide Says;
    hide Trim;
    OneBlank();
    TrimmedText(c.raw);
  }

  lemma SimpleExplanation(u: Unescape, e: string)
    requires Simple(u, e)
    ensures ExplanationOk(u, Some(e))
  {
    hide Trim;
    hide Truncated;
    SimpleText(u, e);
  }

  // ---- what says nothing ----

  /** A child without text is passed over. */
  lemma BlankChildIsSkipped(u: Unescape, word: Option<string>, body: string, y: string)
    requires Blank(body) && (word.Some? ==> '"' !in word.value && '<' !in word.value)
    ensures XmlSteps(u, Written(STEP, word, body) + y) == XmlSteps(u, y)
  {
    hide MatchBlock;
    hide FindBlock;
    hide OneElement;
    hide ParseStatus;
    hide Trim;
    hide Opening;
    hide At;
    var x := Written(STEP, word, body);
    BlankHasNoTags(body);
    NoCloseInside(word, body);
    WrittenMatches(STEP, word, body);
    ElementMatches(STEP, x, y);
    var b := MatchBlock(STEP, x).value;
    var s := x + y;
    assert s[b.open..b.close] == body && s[b.end..] == y;
    TrimBlank(body);
  }

  /** So is a blank line, in a block and behind a checkbox. */
  lemma BlankLineIsSkipped(line: string, lines: seq<string>, kept: string)
    requires Blank(line)
    ensures LineSteps([line] + lines) == LineSteps(lines)
    ensures line != "" ==> BoxSteps(["- [x]" + line] + lines) == BoxSteps(lines)
    ensures line != "" ==> KeepLines(kept, ["- [x]" + line] + lines) == KeepLines(kept, lines)
  {
    hide Trim;
    TrimBlank(line);
    assert ([line] + lines)[1..] == lines;
    assert (["- [x]" + line] + lines)[1..] == lines;
    if line != "" { BlankBox(line); }
  }

  lemma BlankBox(line: string)
    requires Blank(line) && line != ""
    ensures LineBox("- [x]" + line) == Some(("x", ""))
  {
    hide BoxHead;
    hide Trim;
    var s := "- [x]" + line;
    BlankBoxHead(line);
    LineBoxWhen(s, "x", 5);
    assert s[5..] == line;
    TrimBlank(line);
  }

  lemma LineBoxWhen(s: string, m: string, n: nat)
    requires BoxHead(s) == Some((m, n)) && n < |s|
    ensures LineBox(s) == Some((m, Trim(s[n..])))
  {
    hide BoxHead;
    hide Trim;
  }

  lemma BlankBoxHead(line: string)
    ensures BoxHead("- [x]" + line) == Some(("x", 5))
  {
    hide BoxHead;
    hide SkipWs;
    BlankBoxSpacing(line);
    BoxHeadAt("- [x]" + line, 0, 'x');
    assert ['x'] == "x";
  }

  lemma BlankBoxSpacing(line: string)
    ensures var s := "- [x]" + line; SkipWs(s) == 0 && SkipWs(s[1..]) == 1
  {
    hide SkipWs;
    var s := "- [x]" + line;
    NoSkip(s);
    assert s[1..] == " " + ("[x]" + line);
    OneSpace("[x]" + line);
  }

  /** A block of nothing but white space disappears without a plan. */
  lemma EmptyBlockReportsNothing(u: Unescape, k: Kind, body: string)
    requires Blank(body)
    ensures ItemPlan(u, Element(k, Written(k.Tag(), None, body))) == []
  {
    hide MatchBlock;
    hide OneElement;
    hide Opening;
    hide StepTagsOnly;
    hide At;
    hide ParseBody;
    var x := Written(k.Tag(), None, body);
    BlankHasNoTags(body);
    NoTags(body);
    NothingInside(k, None, body);
    WrittenMatches(k.Tag(), None, body);
    var b := MatchBlock(k.Tag(), x).value;
    assert x[b.open..b.close] == body;
    BlankBody(u, body);
  }

  lemma BlankBody(u: Unescape, body: string)
    requires Blank(body)
    ensures ParseBody(u, body, None) == None
  {
    hide XmlSteps;
    hide Lines;
    hide LineSteps;
    BlankHasNoTags(body);
    PlainHasNoSteps(u, body);
    BlankLines(body);
  }

  lemma {:induction false} BlankLines(body: string)
    requires Blank(body)
    ensures LineSteps(Lines(body)) == []
    decreases |body|
  {
    hide Find;
    hide Trim;
    if body != "" {
      match Find(body, "\n") {
        case None =>
          TrimBlank(body);
          assert [body][1..] == [];
        case Some(i) =>
          var first := if i > 0 && body[i - 1] == '\r' then body[..i - 1] else body[..i];
          TrimBlank(first);
          BlankLines(body[i + 1..]);
          assert ([first] + Lines(body[i + 1..]))[1..] == Lines(body[i + 1..]);
      }
    }
  }
}
