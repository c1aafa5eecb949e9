/**
 The matchers behind the plan parser's regular expressions. Text holds one `char` per UTF-8
 byte. Each regex here is deterministic, so a match is described by one function; every
 function looks at the text from its start, as a search resumed at a slice does.
 */
module PlanScan {
  import opened Wrappers
  import opened Strings
  import Utf8
  import Whitespace

  /** Bytes of the White_Space character at the start of `s` (regex `\s`, `char::is_whitespace`). */
  function WsLen(s: string): (n: nat)
    ensures n <= |s| && n <= 3
  {
    if s == [] then 0
    else
      var b := s[0] as int;
      if 9 <= b <= 13 || b == 0x20 then 1
      else if |s| >= 2 && b == 0xC2 && (s[1] as int == 0x85 || s[1] as int == 0xA0) then 2
      else if |s| >= 3 then
        var c := s[1] as int;
        var d := s[2] as int;
        if b == 0xE1 && c == 0x9A && d == 0x80 then 3
        else if b == 0xE2 && c == 0x80 && (0x80 <= d <= 0x8A || d == 0xA8 || d == 0xA9 || d == 0xAF) then 3
        else if b == 0xE2 && c == 0x81 && d == 0x9F then 3
        else if b == 0xE3 && c == 0x80 && d == 0x80 then 3
        else 0
      else 0
  }

  /** Length of the longest whitespace run at the start of `s`. */
  function SkipWs(s: string): (n: nat)
    ensures n <= |s| && (n < |s| ==> WsLen(s[n..]) == 0)
    decreases |s|
  {
    var w := WsLen(s);
    if w == 0 then 0 else
      var r := SkipWs(s[w..]);
      assert s[w..][r..] == s[w + r..];
      w + r
  }

  /** An ASCII non-blank byte ends a whitespace run whatever follows. */
  lemma {:induction false} SkipWsStable(a: string, y: string)
    requires SkipWs(a) < |a| && a[SkipWs(a)] as int < 0x80
    ensures SkipWs(a + y) == SkipWs(a)
    decreases |a|
  {
    var w := WsLen(a);
    if w == 0 {
      assert WsLen(a + y) == 0;
    } else {
      assert WsLen(a + y) == w;
      assert (a + y)[w..] == a[w..] + y;
      SkipWsStable(a[w..], y);
    }
  }

  /**
   An element the parser looks for, by the literal pieces of its regex: `open` is `<name`,
   `attr` is `attribute="` and `close` is `</name>`.
   */
  datatype Pieces = Pieces(open: string, attr: string, close: string) {
    predicate Sane() { SaneOpen(open) && SaneAttr(attr) && SaneClose(close) }
  }

  predicate SaneOpen(o: string) {
    |o| > 1 && o[0] == '<' && o[1] != '/' && '>' !in o
  }

  predicate SaneAttr(a: string) {
    |a| > 0 && 0x20 < a[0] as int < 0x80 && a[0] != '>'
  }

  predicate SaneClose(c: string) {
    |c| > 1 && c[0] == '<' && c[1] == '/' && c[|c| - 1] == '>'
  }

  type Tag = p: Pieces | p.Sane() witness Pieces("<a", "b=\"", "</a>")

  const PROPOSED: Tag := Pieces("<proposed_plan", "explanation=\"", "</proposed_plan>")
  const UPDATE: Tag := Pieces("<update_plan", "explanation=\"", "</update_plan>")
  const STEP: Tag := Pieces("<step", "status=\"", "</step>")

  /** `\s*>` at the start of `s`: its length. */
  function MatchTail(s: string): (r: Option<nat>)
    ensures r.Some? ==> 0 < r.value <= |s| && s[r.value - 1] == '>'
  {
    var n := SkipWs(s);
    if n < |s| && s[n] == '>' then Some(n + 1) else None
  }

  /** `[^"]*"\s*>` at the start of `s`: where the quote stands, and the length of the match. */
  function MatchQuoted(s: string): (r: Option<(nat, nat)>)
    ensures r.Some? ==> r.value.0 < r.value.1 <= |s| && s[r.value.1 - 1] == '>'
  {
    match Find(s, "\"")
    case None => None
    case Some(q) =>
      match MatchTail(s[q + 1..])
      case None => None
      case Some(e) => Some((q, q + 1 + e))
  }

  /** The opening tag at the start of a text: its length and the attribute value, if given. */
  datatype Head = NoHead | Head(end: nat, value: Option<string>)

  /** What follows the tag name in an opening tag. */
  function MatchAttrs(t: Tag, r: string): (h: Head)
    ensures h.Head? ==> 0 < h.end <= |r| && r[h.end - 1] == '>'
  {
    var v := SkipWs(r) + |t.attr|;
    if SkipWs(r) > 0 && At(r, SkipWs(r), t.attr) then
      match MatchQuoted(r[v..])
      case None => NoHead
      case Some((q, e)) => Head(v + e, Some(r[v..v + q]))
    else
      match MatchTail(r)
      case None => NoHead
      case Some(e) => Head(e, None)
  }

  /** `<name(?:\s+attr="([^"]*)")?\s*>` anchored at the start of `s`. */
  function MatchHead(t: Tag, s: string): (h: Head)
    ensures h.Head? ==> At(s, 0, t.open) && |t.open| < h.end <= |s| && s[h.end - 1] == '>'
  {
    if !At(s, 0, t.open) then NoHead
    else
      match MatchAttrs(t, s[|t.open|..])
      case NoHead => NoHead
      case Head(e, value) => Head(|t.open| + e, value)
  }

  /** One full element: `s[start..end]`, body `s[open..close]`. */
  datatype Block = Block(start: nat, value: Option<string>, open: nat, close: nat, end: nat) {
    function Shift(n: nat): Block { Block(n + start, value, n + open, n + close, n + end) }
  }

  predicate InBounds(s: string, b: Block) {
    b.start < b.open <= b.close < b.end <= |s|
  }

  /** The element match anchored at the start of `s`; the lazy body ends at the first closing tag. */
  function MatchBlock(t: Tag, s: string): (m: Option<Block>)
    ensures m.Some? ==> m.value.start == 0 && InBounds(s, m.value)
  {
    match MatchHead(t, s)
    case NoHead => None
    case Head(h, value) =>
      match Find(s[h..], t.close)
      case None => None
      case Some(c) => Some(Block(0, value, h, h + c, h + c + |t.close|))
  }

  /** The leftmost match of the element regex in `s`. */
  function FindBlock(t: Tag, s: string): (m: Option<Block>)
    ensures m.Some? ==> InBounds(s, m.value)
    decreases |s|
  {
    if s == [] then None
    else if MatchBlock(t, s).Some? then MatchBlock(t, s)
    else
      match FindBlock(t, s[1..])
      case None => None
      case Some(b) => Some(b.Shift(1))
  }

  lemma MatchBlockEnds(t: Tag, s: string)
    requires MatchBlock(t, s).Some?
    ensures var b := MatchBlock(t, s).value;
            && s[0] == '<' && s[b.end - 1] == '>' && At(s, 0, t.open)
            && At(s, b.close, t.close) && b.end == b.close + |t.close|
  {
    hide MatchAttrs;
    hide At;
    var h := MatchHead(t, s).end;
    var c := Find(s[h..], t.close).value;
    AtDrop(s, h, c, t.close);
    AtFirst(s, 0, t.open);
    AtLast(s, h + c, t.close);
  }

  /** A match starts with `<`, ends with `>`, and contains the closing tag it ends with. */
  lemma {:induction false} BlockEnds(t: Tag, s: string)
    requires FindBlock(t, s).Some?
    ensures var b := FindBlock(t, s).value;
            && s[b.start] == '<' && s[b.end - 1] == '>' && At(s, b.start, t.open)
            && At(s, b.close, t.close) && b.end == b.close + |t.close|
    decreases |s|
  {
    hide MatchBlock;
    hide At;
    if MatchBlock(t, s).Some? {
      MatchBlockEnds(t, s);
    } else {
      BlockEnds(t, s[1..]);
      AtDrop(s, 1, FindBlock(t, s[1..]).value.start, t.open);
      AtDrop(s, 1, FindBlock(t, s[1..]).value.close, t.close);
    }
  }

  /** Text in which no element can start, whatever follows it. */
  ghost predicate Inert(t: Tag, x: string) {
    forall y: string, i: nat :: i < |x| ==> !At(x + y, i, t.open)
  }

  lemma InertTail(t: Tag, x: string)
    requires Inert(t, x) && x != []
    ensures Inert(t, x[1..])
  {
    forall y: string, i: nat | i < |x[1..]| ensures !At(x[1..] + y, i, t.open) {
      assert !At(x + y, i + 1, t.open);
      assert x[1..] + y == (x + y)[1..];
      AtDrop(x + y, 1, i, t.open);
    }
  }

  lemma FindBlockSkip(t: Tag, s: string)
    requires s != [] && !At(s, 0, t.open)
    ensures FindBlock(t, s) == match FindBlock(t, s[1..]) case None => None case Some(b) => Some(b.Shift(1))
  {
    hide MatchAttrs;
    hide Find;
  }

  /** The search passes over inert text. */
  lemma {:induction false} FindBlockAfterInert(t: Tag, x: string, y: string)
    requires Inert(t, x)
    ensures FindBlock(t, x + y) ==
            match FindBlock(t, y) case None => None case Some(b) => Some(b.Shift(|x|))
    decreases |x|
  {
    hide FindBlock;
    if x == [] {
      assert x + y == y;
    } else {
      assert !At(x + y, 0, t.open);
      FindBlockSkip(t, x + y);
      assert (x + y)[1..] == x[1..] + y;
      InertTail(t, x);
      FindBlockAfterInert(t, x[1..], y);
    }
  }

  /** Without a closing tag nothing matches, however many opening tags there are. */
  lemma NoCloseNoBlock(t: Tag, s: string)
    requires forall j :: !At(s, j, t.close)
    ensures FindBlock(t, s).None?
  {
    if FindBlock(t, s).Some? {
      BlockEnds(t, s);
    }
  }

  lemma NoOpenNoBlock(t: Tag, s: string)
    requires forall j :: !At(s, j, t.open)
    ensures FindBlock(t, s).None?
  {
    if FindBlock(t, s).Some? {
      BlockEnds(t, s);
    }
  }

  lemma TailStable(x: string, y: string)
    requires MatchTail(x).Some?
    ensures MatchTail(x + y) == MatchTail(x)
  {
    SkipWsStable(x, y);
  }

  lemma QuotedStable(x: string, y: string)
    requires MatchQuoted(x).Some?
    ensures MatchQuoted(x + y) == MatchQuoted(x)
  {
    hide MatchTail;
    FindStable(x, y, "\"");
    var q := Find(x, "\"").value;
    assert (x + y)[q + 1..] == x[q + 1..] + y;
    TailStable(x[q + 1..], y);
  }

  lemma TailAfterBlanks(s: string)
    requires MatchTail(s).Some?
    ensures SkipWs(s) < |s| && s[SkipWs(s)] == '>'
  {
  }

  lemma AttrsStable(t: Tag, r: string, y: string)
    requires MatchAttrs(t, r).Head?
    ensures MatchAttrs(t, r + y) == MatchAttrs(t, r)
  {
    hide SkipWs;
    hide MatchTail;
    hide MatchQuoted;
    hide At;
    var w := SkipWs(r);
    if w > 0 && At(r, w, t.attr) {
      var v := w + |t.attr|;
      AtFirst(r, w, t.attr);
      SkipWsStable(r, y);
      AtPrefix(r, y, w, t.attr);
      assert (r + y)[v..] == r[v..] + y;
      QuotedStable(r[v..], y);
      var q := MatchQuoted(r[v..]).value.0;
      assert (r + y)[v..v + q] == r[v..v + q];
    } else {
      TailAfterBlanks(r);
      TailStable(r, y);
      SkipWsStable(r, y);
      if At(r + y, w, t.attr) {
        AtFirst(r + y, w, t.attr);
      }
    }
  }

  /** An opening tag is recognised by its own bytes: later text does not change it. */
  lemma HeadStable(t: Tag, x: string, y: string)
    requires MatchHead(t, x).Head?
    ensures MatchHead(t, x + y) == MatchHead(t, x)
  {
    hide MatchAttrs;
    hide At;
    AtPrefix(x, y, 0, t.open);
    var r := x[|t.open|..];
    assert (x + y)[|t.open|..] == r + y;
    AttrsStable(t, r, y);
  }

  /** The white space a matcher skips is Unicode's, in its bytes. */
  lemma WhiteSpaceBytes(c: int, y: string)
    requires Utf8.Scalar(c) && c < 0x1_0000
    ensures WsLen(Utf8.Encoded(c) + y) == if Whitespace.White(c as char) then |Utf8.Encoded(c)| else 0
  {
    Utf8.SixBits(c);
  }
}
