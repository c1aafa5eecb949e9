/** Printing and parsing of 64-bit integers as Rust's `Display` and `FromStr` do it. */
module Decimal {
  import opened Wrappers

  const MIN_I64 := -0x8000_0000_0000_0000
  const MAX_I64 := 0x7FFF_FFFF_FFFF_FFFF

  type I64 = n: int | MIN_I64 <= n <= MAX_I64

  predicate Digit(c: char) { '0' <= c <= '9' }

  predicate AllDigits(s: string) { forall i :: 0 <= i < |s| ==> Digit(s[i]) }

  function Digits(n: nat): (s: string)
    ensures s != [] && AllDigits(s)
  {
    (if n < 10 then [] else Digits(n / 10)) + [(n % 10 + '0' as int) as char]
  }

  function Value(s: string): nat
    requires AllDigits(s)
  {
    if s == [] then 0 else Value(s[..|s| - 1]) * 10 + (s[|s| - 1] as int - '0' as int)
  }

  lemma {:induction false} ValueOfDigits(n: nat)
    ensures Value(Digits(n)) == n
  {
    var s := Digits(n);
    var front := if n < 10 then [] else Digits(n / 10);
    assert s[..|s| - 1] == front;
    if n >= 10 {
      ValueOfDigits(n / 10);
    }
  }

  function Print(n: int): (s: string)
    ensures s != [] && forall i :: 0 <= i < |s| ==> s[i] == '-' || Digit(s[i])
    ensures n >= 0 ==> AllDigits(s)
  {
    if n < 0 then "-" + Digits(-n) else Digits(n)
  }

  /** `str::parse::<i64>`: an optional sign, then digits only, and the value must fit. */
  function Parse(s: string): (r: Option<I64>)
  {
    var signed := s != [] && (s[0] == '-' || s[0] == '+');
    var digits := if signed then s[1..] else s;
    if digits == [] || !AllDigits(digits) then None
    else
      var v := if signed && s[0] == '-' then -(Value(digits) as int) else Value(digits);
      if MIN_I64 <= v <= MAX_I64 then Some(v) else None
  }

  lemma ParsePrint(n: int)
    requires MIN_I64 <= n <= MAX_I64
    ensures Parse(Print(n)) == Some(n)
  {
    hide Digits;
    hide Value;
    var s := Print(n);
    if n < 0 {
      assert s[1..] == Digits(-n);
      ValueOfDigits(-n);
    } else {
      ValueOfDigits(n);
    }
  }

  /** Decimal notation: the last digit, what is before it, and the sign in front. */
  lemma PrintedDigits(n: nat, d: nat)
    requires d < 10
    ensures Print(d) == ["0123456789"[d]]
    ensures n > 0 ==> Print(10 * n + d) == Print(n) + ["0123456789"[d]] && Print(-(n as int)) == "-" + Print(n)
  {
    assert (10 * n + d) / 10 == n && (10 * n + d) % 10 == d;
    assert Print(d) == [] + [(d + '0' as int) as char];
    assert "0123456789"[d] == (d + '0' as int) as char;
  }
}
