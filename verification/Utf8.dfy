/**
 Text as the program slices it: a `string` here holds one `char` per UTF-8 byte.
 Well-formedness follows section 4 of RFC 3629, boundaries `str::is_char_boundary`.
 */
module Utf8 {
  predicate Continuation(c: char) {
    0x80 <= c as int <= 0xBF
  }

  predicate Boundary(s: string, i: int) {
    i == 0 || i == |s| || (0 < i < |s| && !Continuation(s[i]))
  }

  /** Length of the well-formed byte sequence that starts `s`; 0 when there is none. */
  function ScalarLen(s: string): (n: nat)
    requires s != []
    ensures n <= |s| && n <= 4
    ensures n > 0 ==> !Continuation(s[0]) && forall k :: 0 < k < n ==> Continuation(s[k])
  {
    var b := s[0] as int;
    if b <= 0x7F then 1
    else if 0xC2 <= b <= 0xDF then
      if |s| >= 2 && Continuation(s[1]) then 2 else 0
    else if 0xE0 <= b <= 0xEF then
      if |s| >= 3 && Continuation(s[1]) && Continuation(s[2])
         && (b == 0xE0 ==> s[1] as int >= 0xA0) && (b == 0xED ==> s[1] as int <= 0x9F)
      then 3 else 0
    else if 0xF0 <= b <= 0xF4 then
      if |s| >= 4 && Continuation(s[1]) && Continuation(s[2]) && Continuation(s[3])
         && (b == 0xF0 ==> s[1] as int >= 0x90) && (b == 0xF4 ==> s[1] as int <= 0x8F)
      then 4 else 0
    else 0
  }

  predicate Valid(s: string)
    decreases |s|
  {
    s == [] || (ScalarLen(s) > 0 && Valid(s[ScalarLen(s)..]))
  }

  lemma {:induction false} ValidConcat(a: string, b: string)
    requires Valid(a) && Valid(b)
    ensures Valid(a + b)
    decreases |a|
  {
    if a == [] {
      assert a + b == b;
    } else {
      var n := ScalarLen(a);
      assert ScalarLen(a + b) == n;
      assert (a + b)[n..] == a[n..] + b;
      ValidConcat(a[n..], b);
    }
  }

  /** Cutting well-formed text at a boundary leaves two well-formed halves. */
  lemma {:induction false} ValidSplit(s: string, i: nat)
    requires Valid(s) && i <= |s| && Boundary(s, i)
    ensures Valid(s[..i]) && Valid(s[i..])
    decreases |s|
  {
    if i == 0 || i == |s| {
      assert s[..|s|] == s && s[0..] == s;
    } else {
      var n := ScalarLen(s);
      assert n <= i;
      var t := s[n..];
      assert i - n == |t| || t[i - n] == s[i];
      ValidSplit(t, i - n);
      assert t[i - n..] == s[i..];
      assert ScalarLen(s[..i]) == n;
      assert s[..i][n..] == t[..i - n];
    }
  }

  /** The largest boundary at or below `i`: what the backing-up loops reach. */
  function FloorBoundary(s: string, i: nat): (r: nat)
    requires i <= |s|
    ensures r <= i && Boundary(s, r)
    ensures forall k :: r < k <= i ==> !Boundary(s, k)
  {
    if Boundary(s, i) then i else FloorBoundary(s, i - 1)
  }

  /** In well-formed text backing up to a boundary takes at most three bytes. */
  lemma {:induction false} BackUpAtMostThree(s: string, i: nat)
    requires Valid(s) && i <= |s|
    ensures i - FloorBoundary(s, i) <= 3
    decreases |s|
  {
    if s != [] {
      var n := ScalarLen(s);
      if n <= i {
        var t := s[n..];
        BackUpAtMostThree(t, i - n);
        var r := FloorBoundary(t, i - n);
        assert Valid(t) && (t != [] ==> !Continuation(t[0]));
        assert Boundary(s, n + r);
      } else {
        assert Boundary(s, 0);
      }
    }
  }

  /** `s` cut to at most `max` bytes at the last boundary that fits. */
  function Truncated(s: string, max: nat): (t: string)
    ensures t <= s && |t| <= max
  {
    if |s| <= max then s else s[..FloorBoundary(s, max)]
  }

  /** An ASCII byte of well-formed text has a boundary on either side. */
  lemma AsciiBoundaries(s: string, i: nat)
    requires Valid(s) && i < |s| && s[i] as int < 0x80
    ensures Boundary(s, i) && Boundary(s, i + 1)
  {
    ValidSplit(s, i);
    var t := s[i..];
    assert ScalarLen(t) == 1;
    assert t[1..] == s[i + 1..];
  }

  /** `truncate`: the whole text when it fits, else cut at the last boundary within `max`. */
  method Truncate(s: string, max: nat) returns (t: string)
    ensures t == Truncated(s, max)
    ensures Boundary(s, |t|)
    ensures forall k :: |t| < k <= max && k <= |s| ==> !Boundary(s, k)
    ensures Valid(s) ==> Valid(t) && (|s| <= max || max - |t| <= 3)
  {
    if |s| <= max {
      t := s;
    } else {
      var end := max;
      while end > 0 && !Boundary(s, end)
        invariant 0 <= end <= max
        invariant forall k :: end < k <= max ==> !Boundary(s, k)
        invariant FloorBoundary(s, end) == FloorBoundary(s, max)
      {
        end := end - 1;
      }
      t := s[..end];
      if Valid(s) {
        ValidSplit(s, end);
        BackUpAtMostThree(s, max);
      }
    }
  }

  /** `truncate_utf8` of the browser engine: the same cut, taken in place on an output buffer. */
  class OutputText {
    var s: string

    constructor (text: string)
      ensures s == text
    {
      s := text;
    }

    method TruncateUtf8(max: nat)
      modifies this
      ensures s == old(s)[..FloorBoundary(old(s), if max <= |old(s)| then max else |old(s)|)]
      ensures |s| <= max && forall k :: |s| < k <= max && k <= |old(s)| ==> !Boundary(old(s), k)
      ensures Valid(old(s)) ==> Valid(s) && (|old(s)| <= max ==> s == old(s)) && (|old(s)| > max ==> max - |s| <= 3)
    {
      var end := if max <= |s| then max else |s|;
      ghost var top := end;
      while !Boundary(s, end)
        invariant 0 <= end <= top
        invariant FloorBoundary(s, end) == FloorBoundary(s, top)
        decreases end
      {
        end := end - 1;
      }
      if Valid(s) {
        ValidSplit(s, end);
        BackUpAtMostThree(s, top);
      }
      s := s[..end];
    }
  }

  // ---- the characters behind the bytes ----

  /** A Unicode scalar value. */
  predicate Scalar(c: int) { 0 <= c < 0xD800 || 0xE000 <= c < 0x11_0000 }

  /** Its bytes, by the table of section 3 of RFC 3629. */
  function Encoded(c: int): (s: string)
    requires Scalar(c)
    ensures s != []
  {
    if c < 0x80 then [c as char]
    else if c < 0x800 then [(0xC0 + c / 64) as char, (0x80 + c % 64) as char]
    else if c < 0x1_0000 then
      [(0xE0 + c / 4096) as char, (0x80 + c / 64 % 64) as char, (0x80 + c % 64) as char]
    else
      [(0xF0 + c / 26_2144) as char, (0x80 + c / 4096 % 64) as char, (0x80 + c / 64 % 64) as char, (0x80 + c % 64) as char]
  }

  lemma SixBits(c: nat)
    ensures c == c / 64 * 64 + c % 64 && c / 64 / 64 == c / 4096 && c / 4096 / 64 == c / 26_2144
    ensures c / 64 == c / 4096 * 64 + c / 64 % 64 && c / 4096 == c / 26_2144 * 64 + c / 4096 % 64
  {
  }

  /** Every character's bytes are recognised as one sequence, whatever follows. */
  lemma EncodedIsScalar(c: int, y: string)
    requires Scalar(c)
    ensures ScalarLen(Encoded(c) + y) == |Encoded(c)|
  {
    SixBits(c);
  }

  /** And nothing else is. */
  lemma ScalarIsEncoded(s: string) returns (c: int)
    requires s != [] && ScalarLen(s) > 0
    ensures Scalar(c) && s[..ScalarLen(s)] == Encoded(c)
  {
    var n := ScalarLen(s);
    var b0 := s[0] as int;
    if n == 1 {
      c := b0;
    } else if n == 2 {
      c := (b0 - 0xC0) * 64 + (s[1] as int - 0x80);
    } else if n == 3 {
      c := Three(b0 - 0xE0, s[1] as int - 0x80, s[2] as int - 0x80);
    } else {
      c := Four(b0 - 0xF0, s[1] as int - 0x80, s[2] as int - 0x80, s[3] as int - 0x80);
    }
    assert s[..n] == Encoded(c);
  }

  lemma Three(x: nat, y: nat, z: nat) returns (c: nat)
    requires x < 16 && y < 64 && z < 64
    ensures c == (x * 64 + y) * 64 + z && c / 4096 == x && c / 64 % 64 == y && c % 64 == z
  {
    c := (x * 64 + y) * 64 + z;
    assert c / 64 == x * 64 + y;
    SixBits(c);
  }

  lemma Four(w: nat, x: nat, y: nat, z: nat) returns (c: nat)
    requires w < 8 && x < 64 && y < 64 && z < 64
    ensures c == ((w * 64 + x) * 64 + y) * 64 + z
    ensures c / 26_2144 == w && c / 4096 % 64 == x && c / 64 % 64 == y && c % 64 == z
  {
    c := ((w * 64 + x) * 64 + y) * 64 + z;
    assert c / 64 == (w * 64 + x) * 64 + y;
    assert c / 4096 == w * 64 + x;
    SixBits(c);
  }

  function EncodedAll(cs: seq<int>): string
    requires forall c :: c in cs ==> Scalar(c)
  {
    if cs == [] then [] else Encoded(cs[0]) + EncodedAll(cs[1..])
  }

  /** Well-formed text is exactly the bytes of characters. */
  lemma {:induction false} ValidIsEncoded(s: string) returns (cs: seq<int>)
    requires Valid(s)
    ensures (forall c :: c in cs ==> Scalar(c)) && s == EncodedAll(cs)
    decreases |s|
  {
    hide Encoded;
    hide Scalar;
    hide ScalarLen;
    if s == [] {
      cs := [];
    } else {
      var c := ScalarIsEncoded(s);
      var rest := ValidIsEncoded(s[ScalarLen(s)..]);
      cs := [c] + rest;
      assert cs[1..] == rest;
      assert s == s[..ScalarLen(s)] + s[ScalarLen(s)..];
    }
  }

  lemma {:induction false} EncodedIsValid(cs: seq<int>)
    requires forall c :: c in cs ==> Scalar(c)
    ensures Valid(EncodedAll(cs))
  {
    hide Encoded;
    hide Scalar;
    hide ScalarLen;
    if cs != [] {
      var x, y := Encoded(cs[0]), EncodedAll(cs[1..]);
      EncodedIsScalar(cs[0], y);
      EncodedIsValid(cs[1..]);
      assert (x + y)[|x|..] == y;
    }
  }
}
