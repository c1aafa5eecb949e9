/** The opaque text form of a page cursor: `turn:id`, base64url encoded. */
module TurnCursor {
  import opened Wrappers
  import opened Strings
  import opened MessagePages
  import Base64
  import Decimal
  import Utf8

  function Encode(c: Cursor): string {
    PlainIsBytes(c);
    Base64.Encode(Plain(c))
  }

  function Plain(c: Cursor): string {
    Decimal.Print(c.turn) + ":" + Decimal.Print(c.id)
  }

  lemma PlainIsBytes(c: Cursor)
    ensures Base64.Bytes(Plain(c))
  {
    hide Decimal.Print;
  }

  /** Anything but a well-formed cursor is refused. */
  function Decode(s: string): (r: Option<Cursor>)
    ensures r.Some? ==> Decimal.MIN_I64 <= r.value.turn <= Decimal.MAX_I64 && Decimal.MIN_I64 <= r.value.id <= Decimal.MAX_I64
  {
    match Base64.Decode(s)
    case None => None
    case Some(bytes) =>
      if !Utf8.Valid(bytes) then None
      else
        match Find(bytes, ":")
        case None => None
        case Some(i) =>
          match (Decimal.Parse(bytes[..i]), Decimal.Parse(bytes[i + 1..]))
          case (Some(turn), Some(id)) => Some(Cursor(turn, id))
          case _ => None
  }

  lemma {:induction false} AsciiIsUtf8(s: string)
    requires forall i :: 0 <= i < |s| ==> s[i] as int <= 0x7F
    ensures Utf8.Valid(s)
  {
    if s != [] {
      AsciiIsUtf8(s[1..]);
      assert Utf8.ScalarLen(s) == 1;
    }
  }

  /** The colon between the numbers is the first one. */
  lemma ColonAt(c: Cursor)
    ensures Find(Plain(c), ":") == Some(|Decimal.Print(c.turn)|)
  {
    hide Decimal.Print;
    var s, n := Plain(c), |Decimal.Print(c.turn)|;
    assert At(s, n, ":");
    forall j | 0 <= j < n ensures !At(s, j, ":") {
      assert s[j] == Decimal.Print(c.turn)[j];
      NotAt(s, j, ":", 0);
    }
  }

  /** A cursor handed to a client comes back as it was, for every pair of 64-bit numbers. */
  lemma RoundTrip(c: Cursor)
    requires Decimal.MIN_I64 <= c.turn <= Decimal.MAX_I64 && Decimal.MIN_I64 <= c.id <= Decimal.MAX_I64
    ensures Decode(Encode(c)) == Some(c)
  {
    hide Decimal.Print;
    hide Decimal.Parse;
    hide Find;
    hide Base64.Encode;
    hide Base64.Decode;
    var s, n := Plain(c), |Decimal.Print(c.turn)|;
    PlainIsBytes(c);
    Base64.DecodeEncode(s);
    AsciiIsUtf8(s);
    ColonAt(c);
    assert s[..n] == Decimal.Print(c.turn) && s[n + 1..] == Decimal.Print(c.id);
    Decimal.ParsePrint(c.turn);
    Decimal.ParsePrint(c.id);
  }

  /** Different cursors have different texts, and no bytes have two texts. */
  lemma TextsAreUnique(c: Cursor, d: Cursor, s: string, t: string)
    requires Decimal.MIN_I64 <= c.turn <= Decimal.MAX_I64 && Decimal.MIN_I64 <= c.id <= Decimal.MAX_I64
    requires Decimal.MIN_I64 <= d.turn <= Decimal.MAX_I64 && Decimal.MIN_I64 <= d.id <= Decimal.MAX_I64
    ensures Encode(c) == Encode(d) ==> c == d
    ensures Base64.Decode(s).Some? && Base64.Decode(s) == Base64.Decode(t) ==> s == t
  {
    hide Encode;
    hide Decode;
    hide Base64.Decode;
    hide Base64.Encode;
    RoundTrip(c);
    RoundTrip(d);
    if Base64.Decode(s).Some? && Base64.Decode(s) == Base64.Decode(t) {
      Base64.EncodeDecode(s);
      Base64.EncodeDecode(t);
    }
  }

  /** The bytes behind the text: the turn, a colon and the id, in decimal. */
  lemma CursorBytes(c: Cursor)
    ensures Base64.Decode(Encode(c)) == Some(Decimal.Print(c.turn) + ":" + Decimal.Print(c.id))
  {
    hide Decimal.Print;
    hide Base64.Encode;
    hide Base64.Decode;
    PlainIsBytes(c);
    Base64.DecodeEncode(Plain(c));
  }
}
