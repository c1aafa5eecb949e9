/** HTML escaping by five replacements over the whole text, one after the other. */
module Escaping {
  /** `str::replace` of one character. */
  function Replace(s: string, c: char, code: string): string {
    if s == [] then [] else (if s[0] == c then code else [s[0]]) + Replace(s[1..], c, code)
  }

  /** `escape_html` */
  function EscapeHtml(s: string): string {
    Replace(Replace(Replace(Replace(Replace(s, '&', "&amp;"), '<', "&lt;"), '>', "&gt;"), '"', "&quot;"), '\'', "&#39;")
  }

  // ---- the same, one character at a time ----

  function EscapeChar(c: char): string {
    match c
    case '&' => "&amp;"
    case '<' => "&lt;"
    case '>' => "&gt;"
    case '"' => "&quot;"
    case '\'' => "&#39;"
    case _ => [c]
  }

  function EscapeAll(s: string): string {
    if s == [] then [] else EscapeChar(s[0]) + EscapeAll(s[1..])
  }

  lemma {:induction false} ReplaceConcat(a: string, b: string, c: char, code: string)
    ensures Replace(a + b, c, code) == Replace(a, c, code) + Replace(b, c, code)
  {
    if a == [] {
      assert a + b == b;
    } else {
      assert (a + b)[1..] == a[1..] + b;
      ReplaceConcat(a[1..], b, c, code);
    }
  }

  lemma EscapeConcat(a: string, b: string)
    ensures EscapeHtml(a + b) == EscapeHtml(a) + EscapeHtml(b)
  {
    hide Replace;
    ReplaceConcat(a, b, '&', "&amp;");
    var a1, b1 := Replace(a, '&', "&amp;"), Replace(b, '&', "&amp;");
    ReplaceConcat(a1, b1, '<', "&lt;");
    var a2, b2 := Replace(a1, '<', "&lt;"), Replace(b1, '<', "&lt;");
    ReplaceConcat(a2, b2, '>', "&gt;");
    var a3, b3 := Replace(a2, '>', "&gt;"), Replace(b2, '>', "&gt;");
    ReplaceConcat(a3, b3, '"', "&quot;");
    ReplaceConcat(Replace(a3, '"', "&quot;"), Replace(b3, '"', "&quot;"), '\'', "&#39;");
  }

  lemma {:induction false} ReplaceAbsent(s: string, c: char, code: string)
    requires c !in s
    ensures Replace(s, c, code) == s
  {
    if s != [] {
      assert s[0] in s;
      ReplaceAbsent(s[1..], c, code);
    }
  }

  lemma ReplaceOne(c: char, code: string)
    ensures Replace([c], c, code) == code
  {
    assert [c][1..] == [];
  }

  /** No later replacement touches what an earlier one wrote. */
  lemma EscapeOne(c: char)
    ensures EscapeHtml([c]) == EscapeChar(c)
  {
    hide Replace;
    AbsentOrOne([c], '&', "&amp;");
    var s := Replace([c], '&', "&amp;");
    AbsentOrOne(s, '<', "&lt;");
    s := Replace(s, '<', "&lt;");
    AbsentOrOne(s, '>', "&gt;");
    s := Replace(s, '>', "&gt;");
    AbsentOrOne(s, '"', "&quot;");
    s := Replace(s, '"', "&quot;");
    AbsentOrOne(s, '\'', "&#39;");
  }

  lemma AbsentOrOne(s: string, c: char, code: string)
    ensures c !in s ==> Replace(s, c, code) == s
    ensures s == [c] ==> Replace(s, c, code) == code
  {
    if c !in s { ReplaceAbsent(s, c, code); }
    if s == [c] { ReplaceOne(c, code); }
  }

  /** The five replacements are one map over the characters. */
  lemma {:induction false} EscapeIsPerChar(s: string)
    ensures EscapeHtml(s) == EscapeAll(s)
  {
    hide EscapeHtml;
    hide EscapeChar;
    if s == [] {
      assert EscapeHtml([]) == [] by { EscapeNothing(); }
    } else {
      assert s == [s[0]] + s[1..];
      EscapeConcat([s[0]], s[1..]);
      EscapeOne(s[0]);
      EscapeIsPerChar(s[1..]);
    }
  }

  lemma EscapeNothing()
    ensures EscapeHtml([]) == []
  {
  }

  predicate Special(c: char) { c == '<' || c == '>' || c == '"' || c == '\'' }

  /** The output holds no markup: no angle bracket and no quote. */
  lemma {:induction false} NoMarkup(s: string, c: char)
    requires Special(c)
    ensures c !in EscapeHtml(s)
  {
    hide EscapeHtml;
    EscapeIsPerChar(s);
    NoMarkupPerChar(s, c);
  }

  lemma {:induction false} NoMarkupPerChar(s: string, c: char)
    requires Special(c)
    ensures c !in EscapeAll(s)
  {
    if s != [] {
      NoMarkupPerChar(s[1..], c);
      OneHasNoMarkup(s[0], c);
    }
  }

  lemma OneHasNoMarkup(d: char, c: char)
    requires Special(c)
    ensures c !in EscapeChar(d)
  {
  }

  /** The code of a character is never the beginning of another's. */
  lemma PrefixFree(c: char, d: char, x: string, y: string)
    requires EscapeChar(c) + x == EscapeChar(d) + y
    ensures c == d && x == y
  {
    var l, r := EscapeChar(c) + x, EscapeChar(d) + y;
    assert l[0] == r[0];
    CodeStart(c, x);
    CodeStart(d, y);
    assert |EscapeChar(c)| == |EscapeChar(d)| ==> l[|EscapeChar(c)|..] == x && r[|EscapeChar(d)|..] == y;
  }

  lemma CodeStart(c: char, x: string)
    ensures var l := EscapeChar(c) + x;
            && (l[0] == '&' <==> c in "&<>\"'")
            && (l[0] != '&' ==> l[0] == c)
            && (c == '&' ==> l[1] == 'a') && (c == '<' ==> l[1] == 'l') && (c == '>' ==> l[1] == 'g')
            && (c == '"' ==> l[1] == 'q') && (c == '\'' ==> l[1] == '#')
  {
  }

  /** Different texts have different escapes. */
  lemma {:induction false} EscapeInjective(s: string, t: string)
    requires EscapeHtml(s) == EscapeHtml(t)
    ensures s == t
  {
    EscapeIsPerChar(s);
    EscapeIsPerChar(t);
    InjectivePerChar(s, t);
  }

  lemma {:induction false} InjectivePerChar(s: string, t: string)
    requires EscapeAll(s) == EscapeAll(t)
    ensures s == t
  {
    hide EscapeChar;
    if s == [] || t == [] {
      CodeNotEmpty(s);
      CodeNotEmpty(t);
    } else {
      PrefixFree(s[0], t[0], EscapeAll(s[1..]), EscapeAll(t[1..]));
      InjectivePerChar(s[1..], t[1..]);
      assert s == [s[0]] + s[1..] && t == [t[0]] + t[1..];
    }
  }

  lemma CodeNotEmpty(s: string)
    ensures EscapeAll(s) == [] ==> s == []
  {
  }
}
