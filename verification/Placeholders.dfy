/** `${...}` placeholders: two scanners that must see the same text the same way. */
module Placeholders {
  import opened Wrappers
  import opened Strings
  import opened Whitespace

  // ---- one pass over the text, character by character ----

  datatype Segment = Plain(text: string) | Token(key: string)

  function Segments(s: string): seq<Segment>
    decreases |s|
  {
    if s == [] then []
    else if At(s, 0, "${") then
      match Find(s[2..], "}")
      case None => [Plain(s)]
      case Some(e) => [Token(s[2..][..e])] + Segments(s[2..][e + 1..])
    else [Plain([s[0]])] + Segments(s[1..])
  }

  function Keys(segments: seq<Segment>): seq<string> {
    if segments == [] then []
    else (if segments[0].Token? then [segments[0].key] else []) + Keys(segments[1..])
  }

  type Lookup = string -> Option<string>

  function Shown(seg: Segment, lookup: Lookup): string {
    match seg
    case Plain(text) => text
    case Token(key) =>
      match lookup(key)
      case Some(value) => value
      case None => "${" + key + "}"
  }

  /** Each segment is replaced once; what is inserted is never looked at again. */
  function Render(segments: seq<Segment>, lookup: Lookup): string {
    if segments == [] then [] else Shown(segments[0], lookup) + Render(segments[1..], lookup)
  }

  /** The keys of a text, in order. */
  function TokensOf(s: string): seq<string> { Keys(Segments(s)) }

  function Substituted(s: string, lookup: Lookup): string { Render(Segments(s), lookup) }

  // ---- what the segments of a text mean ----

  lemma KeysCons(seg: Segment, rest: seq<Segment>)
    ensures Keys([seg] + rest) == (if seg.Token? then [seg.key] else []) + Keys(rest)
  {
    assert ([seg] + rest)[1..] == rest;
  }

  lemma RenderCons(seg: Segment, rest: seq<Segment>, lookup: Lookup)
    ensures Render([seg] + rest, lookup) == Shown(seg, lookup) + Render(rest, lookup)
  {
    assert ([seg] + rest)[1..] == rest;
  }

  /** A character that opens no placeholder goes through. */
  lemma PlainStep(s: string, lookup: Lookup)
    requires s != [] && !At(s, 0, "${")
    ensures TokensOf(s) == TokensOf(s[1..]) && Substituted(s, lookup) == [s[0]] + Substituted(s[1..], lookup)
  {
    hide Keys;
    hide Render;
    assert Segments(s) == [Plain([s[0]])] + Segments(s[1..]);
    KeysCons(Plain([s[0]]), Segments(s[1..]));
    RenderCons(Plain([s[0]]), Segments(s[1..]), lookup);
    assert [] + TokensOf(s[1..]) == TokensOf(s[1..]);
  }

  /** A placeholder is looked up once and the scan goes on behind it. */
  lemma TokenStep(s: string, e: nat, lookup: Lookup)
    requires At(s, 0, "${") && Find(s[2..], "}") == Some(e)
    ensures var key, rest := s[2..][..e], s[2..][e + 1..];
            TokensOf(s) == [key] + TokensOf(rest) && Substituted(s, lookup) == Shown(Token(key), lookup) + Substituted(rest, lookup)
  {
    hide Keys;
    hide Render;
    var key, rest := s[2..][..e], s[2..][e + 1..];
    assert Segments(s) == [Token(key)] + Segments(rest);
    KeysCons(Token(key), Segments(rest));
    RenderCons(Token(key), Segments(rest), lookup);
  }

  lemma NothingToShow(lookup: Lookup)
    ensures Substituted([], lookup) == [] && TokensOf([]) == []
    ensures Render([], lookup) == [] && Keys([]) == []
  {
  }

  /** Without a closing brace the rest is plain. */
  lemma UnclosedStep(s: string, lookup: Lookup)
    requires At(s, 0, "${") && Find(s[2..], "}") == None
    ensures TokensOf(s) == [] && Substituted(s, lookup) == s
  {
    hide Keys;
    hide Render;
    assert Segments(s) == [Plain(s)] + [];
    KeysCons(Plain(s), []);
    RenderCons(Plain(s), [], lookup);
    NothingToShow(lookup);
    assert s + [] == s;
  }

  lemma PlainJoin(s: string, n: nat, end: string)
    requires 0 < n <= |s|
    ensures s[1..][n - 1..] == s[n..]
    ensures [s[0]] + (s[1..][..n - 1] + end) == s[..n] + end
  {
    assert [s[0]] + s[1..][..n - 1] == s[..n];
  }

  /** Text before the first placeholder goes through unchanged. */
  lemma {:induction false} PlainPrefix(s: string, n: nat, lookup: Lookup)
    requires n <= |s| && forall j :: 0 <= j < n ==> !At(s, j, "${")
    ensures TokensOf(s) == TokensOf(s[n..]) && Substituted(s, lookup) == s[..n] + Substituted(s[n..], lookup)
    decreases n
  {
    hide TokensOf;
    hide Substituted;
    hide At;
    if n == 0 {
      assert s[0..] == s && s[..0] == [];
      assert [] + Substituted(s, lookup) == Substituted(s, lookup);
    } else {
      PlainStep(s, lookup);
      forall j | 0 <= j < n - 1 ensures !At(s[1..], j, "${") {
        AtDrop(s, 1, j, "${");
      }
      PlainPrefix(s[1..], n - 1, lookup);
      PlainJoin(s, n, Substituted(s[n..], lookup));
    }
  }

  /** Text with no placeholder at all. */
  lemma NoTokens(s: string, lookup: Lookup)
    requires Find(s, "${") == None
    ensures TokensOf(s) == [] && Substituted(s, lookup) == s
  {
    PlainPrefix(s, |s|, lookup);
    assert s[|s|..] == [] && s[..|s|] == s && s + [] == s;
  }

  // ---- a text as stretches and placeholders ----

  /** No placeholder opens in the text. */
  predicate Flat(a: string) { forall j :: 0 <= j < |a| ==> !At(a, j, "${") }

  /** No placeholder that opens in the text is closed in it. */
  predicate Unclosed(a: string) {
    forall j :: 0 <= j < |a| && At(a, j, "${") ==> '}' !in a[j + 2..]
  }

  lemma BraceAt(k: string, b: string)
    requires '}' !in k
    ensures Find(k + "}" + b, "}") == Some(|k|)
  {
    hide Find;
    var s := k + "}" + b;
    assert At(s, |k|, "}");
    forall j | 0 <= j < |k| ensures !At(s, j, "}") {
      assert s[j] == k[j];
      NotAt(s, j, "}", 0);
    }
    assert Find(s, "}") == Some(|k|);
  }

  lemma FlatThen(a: string, tail: string)
    requires Flat(a) && |tail| >= 2 && tail[0] == '$'
    ensures forall j :: 0 <= j < |a| ==> !At(a + tail, j, "${")
  {
    forall j | 0 <= j < |a| ensures !At(a + tail, j, "${") {
      if j + 2 <= |a| { AtPrefix(a, tail, j, "${"); } else { NotAt(a + tail, j, "${", 1); }
    }
  }

  lemma PlaceholderFirst(k: string, b: string, lookup: Lookup)
    requires '}' !in k
    ensures var s := "${" + (k + "}" + b);
            && TokensOf(s) == [k] + TokensOf(b)
            && Substituted(s, lookup) == (match lookup(k) case Some(value) => value case None => "${" + k + "}") + Substituted(b, lookup)
  {
    hide TokensOf;
    hide Substituted;
    hide Find;
    var s := "${" + (k + "}" + b);
    assert At(s, 0, "${");
    assert s[2..] == k + "}" + b;
    BraceAt(k, b);
    TokenStep(s, |k|, lookup);
    assert (k + "}" + b)[..|k|] == k && (k + "}" + b)[|k| + 1..] == b;
  }

  /** A placeholder is replaced by the value of its key, or stays, and both sides go on as they are. */
  lemma PlaceholderIsReplaced(a: string, k: string, b: string, lookup: Lookup)
    requires Flat(a) && '}' !in k
    ensures TokensOf(a + "${" + k + "}" + b) == [k] + TokensOf(b)
    ensures Substituted(a + "${" + k + "}" + b, lookup) ==
            a + (match lookup(k) case Some(value) => value case None => "${" + k + "}") + Substituted(b, lookup)
  {
    hide TokensOf;
    hide Substituted;
    hide Find;
    var tail := "${" + (k + "}" + b);
    var s := a + tail;
    assert s == a + "${" + k + "}" + b;
    FlatThen(a, tail);
    PlainPrefix(s, |a|, lookup);
    assert s[|a|..] == tail && s[..|a|] == a;
    PlaceholderFirst(k, b, lookup);
    var shown := match lookup(k) case Some(value) => value case None => "${" + k + "}";
    assert a + (shown + Substituted(b, lookup)) == a + shown + Substituted(b, lookup);
  }

  lemma UnclosedIsPlain(s: string, lookup: Lookup)
    requires Unclosed(s)
    ensures TokensOf(s) == [] && Substituted(s, lookup) == s
  {
    hide TokensOf;
    hide Substituted;
    hide Find;
    match Find(s, "${")
    case None => NoTokens(s, lookup);
    case Some(i) =>
      FindStep(s);
      PlainPrefix(s, i, lookup);
      NoBrace(s[i + 2..]);
      UnclosedStep(s[i..], lookup);
      assert s[..i] + s[i..] == s;
  }

  lemma NoBrace(s: string)
    requires '}' !in s
    ensures Find(s, "}") == None
  {
    if Find(s, "}").Some? {
      AtFirst(s, Find(s, "}").value, "}");
    }
  }

  /** A stretch of text and the placeholder that ends it. */
  datatype Piece = Piece(plain: string, key: string) {
    predicate Ok() { Flat(plain) && '}' !in key }
  }

  predicate PiecesOk(pieces: seq<Piece>) { forall p :: p in pieces ==> p.Ok() }

  function Written(pieces: seq<Piece>, tail: string): string {
    if pieces == [] then tail else pieces[0].plain + "${" + pieces[0].key + "}" + Written(pieces[1..], tail)
  }

  function Filled(pieces: seq<Piece>, tail: string, lookup: Lookup): string {
    if pieces == [] then tail
    else
      pieces[0].plain
      + (match lookup(pieces[0].key) case Some(value) => value case None => "${" + pieces[0].key + "}")
      + Filled(pieces[1..], tail, lookup)
  }

  /** Where the text has a placeholder the output has its value; everything else is the same, in order. */
  lemma {:induction false} SubstitutedIsFilled(pieces: seq<Piece>, tail: string, lookup: Lookup)
    requires PiecesOk(pieces) && Unclosed(tail)
    ensures Substituted(Written(pieces, tail), lookup) == Filled(pieces, tail, lookup)
    ensures TokensOf(Written(pieces, tail)) == seq(|pieces|, i requires 0 <= i < |pieces| => pieces[i].key)
  {
    hide TokensOf;
    hide Substituted;
    hide Flat;
    hide Unclosed;
    if pieces == [] {
      UnclosedIsPlain(tail, lookup);
    } else {
      var p := pieces[0];
      assert p in pieces && p.Ok();
      assert forall q :: q in pieces[1..] ==> q in pieces;
      SubstitutedIsFilled(pieces[1..], tail, lookup);
      PlaceholderIsReplaced(p.plain, p.key, Written(pieces[1..], tail), lookup);
      assert [p.key] + seq(|pieces[1..]|, i requires 0 <= i < |pieces[1..]| => pieces[1..][i].key) ==
             seq(|pieces|, i requires 0 <= i < |pieces| => pieces[i].key);
    }
  }

  /** Every text is written that way. */
  lemma {:induction false} EveryTextIsWritten(s: string) returns (pieces: seq<Piece>, tail: string)
    ensures PiecesOk(pieces) && Unclosed(tail) && s == Written(pieces, tail)
    decreases |s|
  {
    hide Find;
    match Find(s, "${") {
      case None =>
        pieces, tail := [], s;
      case Some(i) =>
        FindStep(s);
        match Find(s[i + 2..], "}") {
          case None =>
            pieces, tail := [], s;
            OnlyUnclosed(s, i);
          case Some(e) =>
            var rest := s[i + 2..][e + 1..];
            var more, last := EveryTextIsWritten(rest);
            var p := Piece(s[..i], s[i + 2..][..e]);
            FirstPieceOk(s, i, e);
            pieces, tail := [p] + more, last;
            assert pieces[1..] == more;
            Pieces(s[i..], e);
            assert s == s[..i] + s[i..];
        }
    }
  }

  lemma BraceFree(s: string)
    requires Find(s, "}") == None
    ensures '}' !in s
  {
    forall k | 0 <= k < |s| ensures s[k] != '}' {
      assert !At(s, k, "}");
    }
  }

  lemma BraceFreeUpTo(s: string, e: nat)
    requires Find(s, "}") == Some(e)
    ensures '}' !in s[..e]
  {
    var front := s[..e];
    forall k | 0 <= k < |front| ensures front[k] != '}' {
      assert !At(s, k, "}");
    }
  }

  lemma OnlyUnclosed(s: string, i: nat)
    requires Find(s, "${") == Some(i) && Find(s[i + 2..], "}") == None
    ensures Unclosed(s)
  {
    hide Find;
    forall j | 0 <= j < |s| && At(s, j, "${") ensures '}' !in s[j + 2..] {
      assert s[j + 2..] == s[i + 2..][j - i..];
      BraceFree(s[i + 2..]);
    }
  }

  lemma FirstPieceOk(s: string, i: nat, e: nat)
    requires Find(s, "${") == Some(i) && Find(s[i + 2..], "}") == Some(e)
    ensures Piece(s[..i], s[i + 2..][..e]).Ok()
  {
    hide Find;
    var a := s[..i];
    assert s == a + s[i..];
    forall j | 0 <= j < |a| ensures !At(a, j, "${") {
      if j + 2 <= |a| { AtPrefix(a, s[i..], j, "${"); }
    }
    BraceFreeUpTo(s[i + 2..], e);
  }

  /** Nothing changes where no key has a value. */
  lemma {:induction false} UnresolvedIsUnchanged(s: string, lookup: Lookup)
    requires forall k :: k in TokensOf(s) ==> lookup(k) == None
    ensures Substituted(s, lookup) == s
    decreases |s|
  {
    hide TokensOf;
    hide Substituted;
    if s == [] {
      assert Substituted([], lookup) == [] by { NothingToShow(lookup); }
    } else if !At(s, 0, "${") {
      PlainStep(s, lookup);
      UnresolvedIsUnchanged(s[1..], lookup);
    } else if Find(s[2..], "}").None? {
      UnclosedStep(s, lookup);
    } else {
      var e := Find(s[2..], "}").value;
      var key, rest := s[2..][..e], s[2..][e + 1..];
      TokenStep(s, e, lookup);
      assert TokensOf(s)[0] == key;
      assert forall k :: k in TokensOf(rest) ==> k in TokensOf(s);
      UnresolvedIsUnchanged(rest, lookup);
      Pieces(s, e);
    }
  }

  lemma Pieces(s: string, e: nat)
    requires At(s, 0, "${") && Find(s[2..], "}") == Some(e)
    ensures s == "${" + s[2..][..e] + "}" + s[2..][e + 1..]
  {
    assert s[0] == "${"[0] && s[0 + 1] == "${"[1];
    AtFirst(s[2..], e, "}");
    assert s[..2] == "${";
    assert s[2..] == s[2..][..e] + "}" + s[2..][e + 1..];
  }

  /** The result depends on the keys of the text and on nothing else. */
  lemma {:induction false} OnlyKeysMatter(s: string, a: Lookup, b: Lookup)
    requires forall k :: k in TokensOf(s) ==> a(k) == b(k)
    ensures Substituted(s, a) == Substituted(s, b)
    decreases |s|
  {
    hide TokensOf;
    hide Substituted;
    if s == [] {
      NothingToShow(a);
      NothingToShow(b);
    } else if !At(s, 0, "${") {
      PlainStep(s, a);
      PlainStep(s, b);
      OnlyKeysMatter(s[1..], a, b);
    } else if Find(s[2..], "}").None? {
      UnclosedStep(s, a);
      UnclosedStep(s, b);
    } else {
      var e := Find(s[2..], "}").value;
      TokenStep(s, e, a);
      TokenStep(s, e, b);
      assert TokensOf(s)[0] == s[2..][..e];
      assert forall k :: k in TokensOf(s[2..][e + 1..]) ==> k in TokensOf(s);
      OnlyKeysMatter(s[2..][e + 1..], a, b);
    }
  }

  // ---- the two scanners ----

  lemma FindStep(s: string)
    requires Find(s, "${").Some?
    ensures var start := Find(s, "${").value;
            At(s[start..], 0, "${") && s[start..][2..] == s[start + 2..]
  {
    AtDrop(s, Find(s, "${").value, 0, "${");
  }

  method VariableTokens(input: string) returns (tokens: seq<string>)
    ensures tokens == TokensOf(input)
  {
    hide TokensOf;
    hide Substituted;
    hide Find;
    tokens := [];
    var rest := input;
    while true
      invariant tokens + TokensOf(rest) == TokensOf(input)
      decreases |rest|
    {
      var none: Lookup := _ => None;
      var start := Find(rest, "${");
      if start.None? {
        NoTokens(rest, none);
        return;
      }
      var after := rest[start.value + 2..];
      PlainPrefix(rest, start.value, none);
      FindStep(rest);
      var end := Find(after, "}");
      if end.None? {
        UnclosedStep(rest[start.value..], none);
        return;
      }
      TokenStep(rest[start.value..], end.value, none);
      assert tokens + ([after[..end.value]] + TokensOf(after[end.value + 1..])) ==
             (tokens + [after[..end.value]]) + TokensOf(after[end.value + 1..]);
      tokens := tokens + [after[..end.value]];
      rest := after[end.value + 1..];
    }
  }

  /** `asked` records the keys given to `lookup`, in order. */
  method Substitute(input: string, lookup: Lookup) returns (out: string, ghost asked: seq<string>)
    ensures out == Substituted(input, lookup)
    ensures asked == TokensOf(input)
  {
    hide TokensOf;
    hide Substituted;
    hide Find;
    out, asked := [], [];
    var rest := input;
    while Find(rest, "${").Some?
      invariant asked + TokensOf(rest) == TokensOf(input)
      invariant out + Substituted(rest, lookup) == Substituted(input, lookup)
      decreases |rest|
    {
      out, asked, rest := SubstituteOne(input, lookup, out, asked, rest);
    }
    NoTokens(rest, lookup);
    out := out + rest;
  }

  /** One turn of the loop. */
  method SubstituteOne(input: string, lookup: Lookup, out0: string, ghost asked0: seq<string>, rest0: string)
    returns (out: string, ghost asked: seq<string>, rest: string)
    requires Find(rest0, "${").Some?
    requires asked0 + TokensOf(rest0) == TokensOf(input)
    requires out0 + Substituted(rest0, lookup) == Substituted(input, lookup)
    ensures asked + TokensOf(rest) == TokensOf(input)
    ensures out + Substituted(rest, lookup) == Substituted(input, lookup)
    ensures |rest| < |rest0|
  {
    hide TokensOf;
    hide Substituted;
    hide Find;
    var start := Find(rest0, "${").value;
    PlainPrefix(rest0, start, lookup);
    FindStep(rest0);
    out, asked := out0 + rest0[..start], asked0;
    assert out + Substituted(rest0[start..], lookup) == Substituted(input, lookup);
    var after := rest0[start + 2..];
    var end := Find(after, "}");
    if end.Some? {
      var key := after[..end.value];
      rest := after[end.value + 1..];
      TokenStep(rest0[start..], end.value, lookup);
      var value := lookup(key);
      ghost var outBefore := out;
      asked := asked + [key];
      out := out + (if value.Some? then value.value else "${" + key + "}");
      assert outBefore + (Shown(Token(key), lookup) + Substituted(rest, lookup)) == out + Substituted(rest, lookup);
      assert asked0 + ([key] + TokensOf(rest)) == asked + TokensOf(rest);
    } else {
      UnclosedStep(rest0[start..], lookup);
      NothingToShow(lookup);
      out := out + rest0[start..];
      rest := [];
      assert out + [] == out;
    }
  }

  // ---- trimming ----

  lemma {:induction false} TrimStartTokens(s: string)
    ensures TokensOf(TrimStart(s)) == TokensOf(s)
  {
    hide TokensOf;
    if s != [] && White(s[0]) {
      NotAt(s, 0, "${", 0);
      PlainStep(s, _ => None);
      TrimStartTokens(s[1..]);
    }
  }

  lemma FindOneMore(s: string, w: char, pat: char)
    requires w != pat
    ensures Find(s + [w], [pat]) == Find(s, [pat])
  {
    hide Find;
    var a, b := Find(s, [pat]), Find(s + [w], [pat]);
    if a.Some? {
      FindStable(s, [w], [pat]);
    } else if b.Some? {
      AtFirst(s + [w], b.value, [pat]);
      AtPrefix(s, [w], b.value, [pat]);
    }
  }

  lemma {:induction false} TrailingWhiteTokens(s: string, w: char)
    requires White(w)
    ensures TokensOf(s + [w]) == TokensOf(s)
    decreases |s|
  {
    hide TokensOf;
    hide Find;
    var none: Lookup := _ => None;
    var t := s + [w];
    if s == [] {
      assert t == [w];
      NotAt(t, 0, "${", 0);
      PlainStep(t, none);
      assert t[1..] == [];
    } else if !At(s, 0, "${") {
      if |s| >= 2 { AtPrefix(s, [w], 0, "${"); } else { NotAt(t, 0, "${", 1); }
      PlainStep(s, none);
      PlainStep(t, none);
      assert t[1..] == s[1..] + [w];
      TrailingWhiteTokens(s[1..], w);
    } else {
      AtPrefix(s, [w], 0, "${");
      assert t[2..] == s[2..] + [w];
      FindOneMore(s[2..], w, '}');
      if Find(s[2..], "}").None? {
        UnclosedStep(s, none);
        UnclosedStep(t, none);
      } else {
        var e := Find(s[2..], "}").value;
        TrailingWhiteTokens(s[2..][e + 1..], w);
        WhiteBehindToken(s, e, w);
      }
    }
  }

  lemma WhiteBehindToken(s: string, e: nat, w: char)
    requires At(s, 0, "${") && Find(s[2..], "}") == Some(e) && Find((s + [w])[2..], "}") == Some(e) && At(s + [w], 0, "${")
    requires TokensOf(s[2..][e + 1..] + [w]) == TokensOf(s[2..][e + 1..])
    ensures TokensOf(s + [w]) == TokensOf(s)
  {
    hide TokensOf;
    hide Find;
    hide Substituted;
    var none: Lookup := _ => None;
    var t := s + [w];
    TokenStep(s, e, none);
    TokenStep(t, e, none);
    assert t[2..] == s[2..] + [w];
    assert t[2..][..e] == s[2..][..e] && t[2..][e + 1..] == s[2..][e + 1..] + [w];
  }

  lemma {:induction false} TrimEndTokens(s: string)
    ensures TokensOf(TrimEnd(s)) == TokensOf(s)
  {
    hide TokensOf;
    if s != [] && White(s[|s| - 1]) {
      TrimEndTokens(s[..|s| - 1]);
      TrailingWhiteTokens(s[..|s| - 1], s[|s| - 1]);
      assert s == s[..|s| - 1] + [s[|s| - 1]];
    }
  }

  /** Trimming a text leaves its placeholders as they were. */
  lemma TrimKeepsTokens(s: string)
    ensures TokensOf(Trim(s)) == TokensOf(s)
  {
    hide TokensOf;
    TrimStartTokens(s);
    TrimEndTokens(TrimStart(s));
  }
}
