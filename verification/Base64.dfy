/**
 Unpadded base64url, section 5 of RFC 4648, over byte strings (one `char` per byte). Decoding is
 strict: no padding, no foreign character, no leftover bits.
 */
module Base64 {
  import opened Wrappers

  predicate Bytes(s: string) { forall i :: 0 <= i < |s| ==> s[i] as int < 256 }

  type Sextet = n: int | 0 <= n < 64

  function Symbol(n: Sextet): (c: char)
    ensures SymbolValue(c) == Some(n)
  {
    if n < 26 then (n + 'A' as int) as char
    else if n < 52 then (n - 26 + 'a' as int) as char
    else if n < 62 then (n - 52 + '0' as int) as char
    else if n == 62 then '-' else '_'
  }

  function SymbolValue(c: char): (r: Option<Sextet>)
  {
    if 'A' <= c <= 'Z' then Some(c as int - 'A' as int)
    else if 'a' <= c <= 'z' then Some(c as int - 'a' as int + 26)
    else if '0' <= c <= '9' then Some(c as int - '0' as int + 52)
    else if c == '-' then Some(62)
    else if c == '_' then Some(63)
    else None
  }

  lemma SymbolOfValue(c: char)
    requires SymbolValue(c).Some?
    ensures Symbol(SymbolValue(c).value) == c
  {
  }

  /** Three bytes as four symbols. */
  function Quad(x: nat, y: nat, z: nat): (s: string)
    requires x < 256 && y < 256 && z < 256
    ensures |s| == 4
  {
    [Symbol(x / 4), Symbol(x % 4 * 16 + y / 16), Symbol(y % 16 * 4 + z / 64), Symbol(z % 64)]
  }

  function Encode(b: string): (s: string)
    requires Bytes(b)
  {
    if b == [] then []
    else
      var x := b[0] as int;
      if |b| == 1 then [Symbol(x / 4), Symbol(x % 4 * 16)]
      else
        var y := b[1] as int;
        if |b| == 2 then [Symbol(x / 4), Symbol(x % 4 * 16 + y / 16), Symbol(y % 16 * 4)]
        else
          var z := b[2] as int;
          Quad(x, y, z) + Encode(b[3..])
  }

  /** The bytes of one group of two to four symbols; the bits left over must be zero. */
  function Group(s: string): (r: Option<string>)
    requires 2 <= |s| <= 4
    ensures r.Some? ==> |r.value| == |s| - 1 && Bytes(r.value)
  {
    var p, q := SymbolValue(s[0]), SymbolValue(s[1]);
    if p.None? || q.None? then None
    else
      var x := p.value * 4 + q.value / 16;
      if |s| == 2 then if q.value % 16 == 0 then Some([x as char]) else None
      else
        var r := SymbolValue(s[2]);
        if r.None? then None
        else
          var y := q.value % 16 * 16 + r.value / 4;
          if |s| == 3 then if r.value % 4 == 0 then Some([x as char, y as char]) else None
          else
            var t := SymbolValue(s[3]);
            if t.None? then None else Some([x as char, y as char, (r.value % 4 * 64 + t.value) as char])
  }

  function Decode(s: string): (r: Option<string>)
    ensures r.Some? ==> Bytes(r.value)
  {
    if s == [] then Some([])
    else if |s| == 1 then None
    else if |s| <= 4 then Group(s)
    else
      match (Group(s[..4]), Decode(s[4..]))
      case (Some(b), Some(rest)) => Some(b + rest)
      case _ => None
  }

  /** One group there and back. */
  lemma GroupOfEncode(b: string)
    requires Bytes(b) && 1 <= |b| <= 3
    ensures |Encode(b)| == |b| + 1 && Group(Encode(b)) == Some(b)
  {
    hide SymbolValue;
    hide Symbol;
    var x := b[0] as int;
    assert (x / 4) * 4 + x % 4 == x;
    if |b| == 1 {
      assert x % 4 * 16 / 16 == x % 4;
      assert b == [b[0]];
    } else {
      GroupOfLonger(b);
    }
  }

  lemma GroupOfLonger(b: string)
    requires Bytes(b) && 2 <= |b| <= 3
    ensures |Encode(b)| == |b| + 1 && Group(Encode(b)) == Some(b)
  {
    if |b| == 2 { GroupOfTwo(b); } else { GroupOfThree(b); }
  }

  lemma GroupOfTwo(b: string)
    requires Bytes(b) && |b| == 2
    ensures |Encode(b)| == 3 && Group(Encode(b)) == Some(b)
  {
    hide SymbolValue;
    hide Symbol;
    var x, y := b[0] as int, b[1] as int;
    var q := x % 4 * 16 + y / 16;
    assert q / 16 == x % 4 && q % 16 == y / 16;
    assert y % 16 * 4 / 4 == y % 16 && y % 16 * 4 % 4 == 0;
    assert b == [b[0], b[1]];
  }

  lemma GroupOfThree(b: string)
    requires Bytes(b) && |b| == 3
    ensures |Encode(b)| == 4 && Group(Encode(b)) == Some(b)
  {
    hide Quad;
    hide Group;
    GroupOfQuad(b[0] as int, b[1] as int, b[2] as int);
    assert b[3..] == [] && b == [b[0], b[1], b[2]];
    assert Quad(b[0] as int, b[1] as int, b[2] as int) + [] == Quad(b[0] as int, b[1] as int, b[2] as int);
  }

  lemma GroupOfQuad(x: nat, y: nat, z: nat)
    requires x < 256 && y < 256 && z < 256
    ensures Group(Quad(x, y, z)) == Some([x as char, y as char, z as char])
  {
    hide SymbolValue;
    hide Symbol;
    var q, r := x % 4 * 16 + y / 16, y % 16 * 4 + z / 64;
    assert q / 16 == x % 4 && q % 16 == y / 16;
    assert r / 4 == y % 16 && r % 4 == z / 64;
  }

  lemma EncodeStep(b: string)
    requires Bytes(b) && |b| > 3
    ensures Encode(b) == Encode(b[..3]) + Encode(b[3..]) && |Encode(b[..3])| == 4
  {
    hide Symbol;
    assert b[..3][3..] == [];
  }

  lemma {:induction false} DecodeEncode(b: string)
    requires Bytes(b)
    ensures Decode(Encode(b)) == Some(b)
  {
    hide Group;
    if b == [] {
    } else if |b| <= 3 {
      hide Encode;
      GroupOfEncode(b);
    } else {
      hide Encode;
      EncodeStep(b);
      GroupOfEncode(b[..3]);
      DecodeEncode(b[3..]);
      var s := Encode(b);
      assert s[..4] == Encode(b[..3]) && s[4..] == Encode(b[3..]);
      assert b == b[..3] + b[3..];
      if |s| == 4 {
        EncodeNotEmpty(b[3..]);
      }
    }
  }

  lemma EncodeNotEmpty(b: string)
    requires Bytes(b) && b != []
    ensures Encode(b) != []
  {
  }

  lemma EncodeOfGroup(s: string)
    requires 2 <= |s| <= 4 && Group(s).Some?
    ensures Encode(Group(s).value) == s
  {
    hide SymbolValue;
    var b := Group(s).value;
    SymbolOfValue(s[0]);
    SymbolOfValue(s[1]);
    var q := SymbolValue(s[1]).value;
    var x := b[0] as int;
    assert x / 4 == SymbolValue(s[0]).value && x % 4 == q / 16;
    if |s| == 2 {
      assert x % 4 * 16 == q;
    } else {
      SymbolOfValue(s[2]);
      EncodeOfLonger(s);
    }
  }

  lemma EncodeOfLonger(s: string)
    requires 3 <= |s| <= 4 && Group(s).Some?
    ensures Encode(Group(s).value) == s
  {
    hide SymbolValue;
    var b := Group(s).value;
    SymbolOfValue(s[0]);
    SymbolOfValue(s[1]);
    SymbolOfValue(s[2]);
    var q, r := SymbolValue(s[1]).value, SymbolValue(s[2]).value;
    var x, y := b[0] as int, b[1] as int;
    assert x / 4 == SymbolValue(s[0]).value && x % 4 == q / 16;
    assert y / 16 == q % 16 && y % 16 == r / 4;
    if |s| == 4 {
      SymbolOfValue(s[3]);
      var z := b[2] as int;
      assert z / 64 == r % 4 && z % 64 == SymbolValue(s[3]).value;
      assert b[3..] == [];
    }
  }

  /** The only text that decodes to some bytes is their encoding. */
  lemma {:induction false} EncodeDecode(s: string)
    requires Decode(s).Some?
    ensures Encode(Decode(s).value) == s
  {
    hide Group;
    hide Encode;
    if s == [] {
      assert Encode([]) == [] by { EncodeNothing(); }
    } else if |s| <= 4 {
      EncodeOfGroup(s);
    } else {
      EncodeOfGroup(s[..4]);
      EncodeDecode(s[4..]);
      var b, rest := Group(s[..4]).value, Decode(s[4..]).value;
      assert (b + rest)[..3] == b && (b + rest)[3..] == rest;
      if rest == [] {
        EncodeNothing();
      } else {
        EncodeStep(b + rest);
      }
      assert s == s[..4] + s[4..];
    }
  }

  lemma EncodeNothing()
    ensures Encode([]) == []
  {
  }

  /** The alphabet of section 5 of RFC 4648. */
  const ALPHABET := "ABCDEFGHIJKLMNOPQRSTUVWXYZ" + "abcdefghijklmnopqrstuvwxyz" + "0123456789" + "-_"

  lemma UpperCase(n: nat)
    requires n < 26
    ensures "ABCDEFGHIJKLMNOPQRSTUVWXYZ"[n] as int == n + 'A' as int
  {
  }

  lemma LowerCase(n: nat)
    requires n < 26
    ensures "abcdefghijklmnopqrstuvwxyz"[n] as int == n + 'a' as int
  {
  }

  lemma Numerals(n: nat)
    requires n < 10
    ensures "0123456789"[n] as int == n + '0' as int
  {
  }

  lemma SymbolsAre(n: Sextet)
    ensures |ALPHABET| == 64 && Symbol(n) == ALPHABET[n]
  {
    if n < 26 {
      UpperCase(n);
    } else if n < 52 {
      LowerCase(n - 26);
    } else if n < 62 {
      Numerals(n - 52);
    }
  }

  lemma BitsOf(x: nat, y: nat, z: nat)
    requires x < 256 && y < 256 && z < 256
    ensures var p, q, r, t := x / 4, x % 4 * 16 + y / 16, y % 16 * 4 + z / 64, z % 64;
            p < 64 && q < 64 && r < 64 && t < 64 && ((p * 64 + q) * 64 + r) * 64 + t == (x * 256 + y) * 256 + z
  {
  }

  /** The bits of three bytes, read as one number, are those of their four symbols. */
  lemma GroupIsNumber(x: nat, y: nat, z: nat)
    requires x < 256 && y < 256 && z < 256
    ensures var p, q, r, t := x / 4, x % 4 * 16 + y / 16, y % 16 * 4 + z / 64, z % 64;
            && p < 64 && q < 64 && r < 64 && t < 64
            && ((p * 64 + q) * 64 + r) * 64 + t == (x * 256 + y) * 256 + z
            && Encode([x as char, y as char, z as char]) == [ALPHABET[p], ALPHABET[q], ALPHABET[r], ALPHABET[t]]
  {
    hide Symbol;
    hide ALPHABET;
    var b := [x as char, y as char, z as char];
    assert b[3..] == [];
    BitsOf(x, y, z);
    SymbolsAre(x / 4);
    SymbolsAre(x % 4 * 16 + y / 16);
    SymbolsAre(y % 16 * 4 + z / 64);
    SymbolsAre(z % 64);
  }

  /** A shorter last group is cut off one that goes on with zeros. */
  lemma ShortGroups(x: nat, y: nat)
    requires x < 256 && y < 256
    ensures Encode([x as char]) == Encode([x as char, 0 as char, 0 as char])[..2]
    ensures Encode([x as char, y as char]) == Encode([x as char, y as char, 0 as char])[..3]
  {
    hide Symbol;
    assert [x as char, 0 as char, 0 as char][3..] == [];
    assert [x as char, y as char, 0 as char][3..] == [];
  }
}
