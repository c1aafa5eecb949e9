/** Unicode white space and `str::trim`, over characters. */
module Whitespace {
  /** `char::is_whitespace` */
  predicate White(c: char) {
    || '\t' <= c <= '\r' || c == ' ' || c as int in {0x85, 0xA0, 0x1680, 0x2028, 0x2029, 0x202F, 0x205F, 0x3000}
    || 0x2000 <= c as int <= 0x200A
  }

  function TrimStart(s: string): (r: string)
    ensures r != [] ==> !White(r[0])
  {
    if s != [] && White(s[0]) then TrimStart(s[1..]) else s
  }

  function TrimEnd(s: string): (r: string)
    ensures r <= s && (r != [] ==> !White(r[|r| - 1]))
    ensures forall i :: |r| <= i < |s| ==> White(s[i])
  {
    if s != [] && White(s[|s| - 1]) then TrimEnd(s[..|s| - 1]) else s
  }

  function Trim(s: string): string { TrimEnd(TrimStart(s)) }

  predicate Blank(p: string) { forall i :: 0 <= i < |p| ==> White(p[i]) }

  lemma {:induction false} TrimBlanks(p: string, s: string, q: string)
    requires Blank(p) && Blank(q) && s != [] && !White(s[0]) && !White(s[|s| - 1])
    ensures Trim(p + s + q) == s
    decreases |p| + |q|
  {
    hide Blank;
    var t := p + s + q;
    if p != [] {
      BlankParts(p);
      assert t[0] == p[0] && t[1..] == p[1..] + s + q;
      TrimBlanks(p[1..], s, q);
    } else {
      assert t == s + q && !White(t[0]);
      TrimEndBlanks(s, q);
    }
  }

  lemma BlankParts(p: string)
    requires Blank(p) && p != []
    ensures White(p[0]) && Blank(p[1..]) && White(p[|p| - 1]) && Blank(p[..|p| - 1])
  {
  }

  lemma {:induction false} TrimEndBlanks(s: string, q: string)
    requires Blank(q) && s != [] && !White(s[|s| - 1])
    ensures TrimEnd(s + q) == s
    decreases |q|
  {
    hide Blank;
    var t := s + q;
    if q == [] {
      assert t == s;
    } else {
      BlankParts(q);
      assert t[|t| - 1] == q[|q| - 1] && t[..|t| - 1] == s + q[..|q| - 1];
      TrimEndBlanks(s, q[..|q| - 1]);
    }
  }
}
