/** JSON strings and integers as `JSON.stringify` followed by UTF-8 encoding writes them, and a reader for them. */
module JsonText {
  import opened Sequences
  import opened Texts
  import opened Wrappers

  function Lit(s: string): seq<Byte> {
    seq(|s|, i requires 0 <= i < |s| => s[i] as int % 256)
  }

  function HexDigit(n: int): Byte
    requires 0 <= n < 16
  {
    if n < 10 then 0x30 + n else 0x57 + n
  }

  /** The escape \uXXXX, in lower case. */
  function UnicodeEscape(p: Point): seq<Byte>
    requires p < 0x1_0000
  {
    [0x5C, 0x75, HexDigit(p / 4096), HexDigit(p / 256 % 16), HexDigit(p / 16 % 16), HexDigit(p % 16)]
  }

  /** One point of a string literal: section 7 of RFC 8259, lone surrogates escaped, the rest in UTF-8. */
  function EncodePoint(p: Point): seq<Byte> {
    if p == 0x22 || p == 0x5C then [0x5C, p]
    else if p == 0x08 then [0x5C, 0x62]
    else if p == 0x09 then [0x5C, 0x74]
    else if p == 0x0A then [0x5C, 0x6E]
    else if p == 0x0C then [0x5C, 0x66]
    else if p == 0x0D then [0x5C, 0x72]
    else if p < 0x20 || IsSurrogate(p) then UnicodeEscape(p)
    else if p < 0x80 then [p]
    else if p < 0x800 then [0xC0 + p / 64, 0x80 + p % 64]
    else if p < 0x1_0000 then [0xE0 + p / 4096, 0x80 + p / 64 % 64, 0x80 + p % 64]
    else [0xF0 + p / 262144, 0x80 + p / 4096 % 64, 0x80 + p / 64 % 64, 0x80 + p % 64]
  }

  function Body(t: Text): seq<Byte> {
    if t == [] then [] else EncodePoint(t[0]) + Body(t[1..])
  }

  function Quote(t: Text): seq<Byte> {
    [0x22] + Body(t) + [0x22]
  }

  function Unhex(b: Byte): (n: int)
    ensures 0 <= n < 16
  {
    if 0x30 <= b <= 0x39 then b - 0x30 else if 0x61 <= b <= 0x66 then b - 0x57 else 0
  }

  /** The point at the front of a string body and the number of bytes it takes. */
  function DecodePoint(b: seq<Byte>): (r: Option<(Point, nat)>)
    ensures r.Some? ==> 1 <= r.value.1 <= |b|
  {
    if b == [] || b[0] == 0x22 then None
    else if b[0] == 0x5C then
      if |b| < 2 then None
      else if b[1] == 0x75 then
        if |b| < 6 then None
        else Some((Unhex(b[2]) * 4096 + Unhex(b[3]) * 256 + Unhex(b[4]) * 16 + Unhex(b[5]), 6))
      else if b[1] == 0x62 then Some((0x08, 2))
      else if b[1] == 0x74 then Some((0x09, 2))
      else if b[1] == 0x6E then Some((0x0A, 2))
      else if b[1] == 0x66 then Some((0x0C, 2))
      else if b[1] == 0x72 then Some((0x0D, 2))
      else Some((b[1], 2))
    else if b[0] < 0x80 then Some((b[0], 1))
    else if b[0] < 0xE0 then
      if |b| < 2 then None else Some((Low(b[0], 32) * 64 + Low(b[1], 64), 2))
    else if b[0] < 0xF0 then
      if |b| < 3 then None else Some((Low(b[0], 16) * 4096 + Low(b[1], 64) * 64 + Low(b[2], 64), 3))
    else if |b| < 4 then None
    else
      var p := Low(b[0], 8) * 262144 + Low(b[1], 64) * 4096 + Low(b[2], 64) * 64 + Low(b[3], 64);
      if p < 0x11_0000 then Some((p, 4)) else None
  }

  function Low(b: Byte, modulus: int): (n: int)
    requires modulus > 0
    ensures 0 <= n < modulus
  {
    b as int % modulus
  }

  lemma SixBitGroups(p: Point)
    ensures p == p / 64 * 64 + p % 64
    ensures p == p / 4096 * 4096 + p / 64 % 64 * 64 + p % 64
    ensures p == p / 262144 * 262144 + p / 4096 % 64 * 4096 + p / 64 % 64 * 64 + p % 64
    ensures (0x80 + p % 64) % 64 == p % 64 && (0x80 + p / 64 % 64) % 64 == p / 64 % 64
    ensures (0x80 + p / 4096 % 64) % 64 == p / 4096 % 64
  {
  }

  lemma UnhexDigit(n: int)
    requires 0 <= n < 16
    ensures Unhex(HexDigit(n)) == n
  {
  }

  lemma HexGroups(p: Point)
    requires p < 0x1_0000
    ensures p == p / 4096 * 4096 + p / 256 % 16 * 256 + p / 16 % 16 * 16 + p % 16
  {
    var q := p / 16;
    var r := q / 16;
    assert p == q * 16 + p % 16 && q == r * 16 + q % 16 && r == r / 16 * 16 + r % 16;
    assert r == p / 256 && r / 16 == p / 4096;
  }

  lemma DecodeEscape(p: Point, rest: seq<Byte>)
    requires p < 0x1_0000
    ensures DecodePoint(UnicodeEscape(p) + rest) == Some((p, 6))
  {
    var b := UnicodeEscape(p) + rest;
    assert b[0] == 0x5C && b[1] == 0x75;
    UnhexDigit(p / 4096); UnhexDigit(p / 256 % 16); UnhexDigit(p / 16 % 16); UnhexDigit(p % 16);
    HexGroups(p);
  }

  lemma DecodeMultibyte(p: Point, rest: seq<Byte>)
    requires p >= 0x80 && !IsSurrogate(p)
    ensures DecodePoint(EncodePoint(p) + rest) == Some((p, |EncodePoint(p)|))
  {
    var e := EncodePoint(p);
    var b := e + rest;
    SixBitGroups(p);
    assert b[0] == e[0] && b[1] == e[1];
    if p < 0x800 {
      assert Low(b[0], 32) == p / 64;
    } else if p < 0x1_0000 {
      assert b[2] == e[2];
      assert Low(b[0], 16) == p / 4096;
    } else {
      assert b[2] == e[2] && b[3] == e[3];
      assert Low(b[0], 8) == p / 262144;
    }
  }

  lemma DecodeEncode(p: Point, rest: seq<Byte>)
    ensures DecodePoint(EncodePoint(p) + rest) == Some((p, |EncodePoint(p)|))
  {
    if p >= 0x80 && !IsSurrogate(p) {
      DecodeMultibyte(p, rest);
    } else if EncodePoint(p) == UnicodeEscape(p) {
      DecodeEscape(p, rest);
    } else {
      var b := EncodePoint(p) + rest;
      assert b[0] == EncodePoint(p)[0];
      if |EncodePoint(p)| == 2 {
        assert b[1] == EncodePoint(p)[1];
      }
    }
  }

  function ReadBody(b: seq<Byte>): Option<(Text, seq<Byte>)>
    decreases |b|
  {
    if b != [] && b[0] == 0x22 then Some(([], b[1..]))
    else
      var (p, n) :- DecodePoint(b);
      var (t, rest) :- ReadBody(b[n..]);
      Some(([p] + t, rest))
  }

  function ReadText(b: seq<Byte>): Option<(Text, seq<Byte>)> {
    if b != [] && b[0] == 0x22 then ReadBody(b[1..]) else None
  }

  lemma ReadBodyStep(p: Point, tail: seq<Byte>)
    ensures ReadBody(EncodePoint(p) + tail)
            == if ReadBody(tail).Some? then Some(([p] + ReadBody(tail).value.0, ReadBody(tail).value.1)) else None
  {
    DecodeEncode(p, tail);
    DropAppended(EncodePoint(p), tail);
  }

  lemma {:induction false} ReadBodyOfBody(t: Text, rest: seq<Byte>)
    ensures ReadBody(Body(t) + ([0x22] + rest)) == Some((t, rest))
  {
    if t == [] {
      assert Body(t) + ([0x22] + rest) == [0x22] + rest;
      assert ([0x22] + rest)[1..] == rest;
    } else {
      AppendIsAssociative(EncodePoint(t[0]), Body(t[1..]), [0x22] + rest);
      ReadBodyOfBody(t[1..], rest);
      ReadBodyStep(t[0], Body(t[1..]) + ([0x22] + rest));
      HeadAndTail(t);
    }
  }

  lemma ReadTextOfQuote(t: Text, rest: seq<Byte>)
    ensures ReadText(Quote(t) + rest) == Some((t, rest))
  {
    assert (Quote(t) + rest)[1..] == Body(t) + ([0x22] + rest);
    ReadBodyOfBody(t, rest);
  }

  /* Integers. */

  function Digits(n: nat): (ds: seq<Byte>)
    ensures ds != [] && forall i | 0 <= i < |ds| :: IsDigit(ds[i])
  {
    if n < 10 then [0x30 + n] else Digits(n / 10) + [0x30 + n % 10]
  }

  function Decimal(n: int): seq<Byte> {
    if n < 0 then [0x2D] + Digits(-n) else Digits(n)
  }

  function DigitRun(b: seq<Byte>): (n: nat)
    ensures n <= |b| && forall i | 0 <= i < n :: IsDigit(b[i])
  {
    if b != [] && IsDigit(b[0]) then 1 + DigitRun(b[1..]) else 0
  }

  function Value(ds: seq<Byte>): int {
    if ds == [] then 0 else Value(ds[..|ds| - 1]) * 10 + (ds[|ds| - 1] as int - 0x30)
  }

  function ReadNat(b: seq<Byte>): Option<(int, seq<Byte>)> {
    var n := DigitRun(b);
    if n == 0 then None else Some((Value(b[..n]), b[n..]))
  }

  function ReadInt(b: seq<Byte>): Option<(int, seq<Byte>)> {
    if b != [] && b[0] == 0x2D then
      var (n, rest) :- ReadNat(b[1..]);
      Some((-n, rest))
    else ReadNat(b)
  }

  lemma {:induction false} ValueOfDigits(n: nat)
    ensures Value(Digits(n)) == n
  {
    if n >= 10 {
      ValueOfDigits(n / 10);
      assert Digits(n)[..|Digits(n)| - 1] == Digits(n / 10);
    } else {
      assert Digits(n)[..0] == [];
    }
  }

  lemma {:induction false} DigitRunStops(ds: seq<Byte>, rest: seq<Byte>)
    requires forall i | 0 <= i < |ds| :: IsDigit(ds[i])
    requires rest != [] && !IsDigit(rest[0])
    ensures DigitRun(ds + rest) == |ds|
  {
    if ds == [] {
      assert ds + rest == rest;
    } else {
      assert (ds + rest)[1..] == ds[1..] + rest;
      DigitRunStops(ds[1..], rest);
    }
  }

  lemma ReadNatOfDigits(n: nat, rest: seq<Byte>)
    requires rest != [] && !IsDigit(rest[0])
    ensures ReadNat(Digits(n) + rest) == Some((n, rest))
  {
    var ds := Digits(n);
    DigitRunStops(ds, rest);
    ValueOfDigits(n);
    assert (ds + rest)[..|ds|] == ds && (ds + rest)[|ds|..] == rest;
  }

  lemma ReadIntSign(b: seq<Byte>, n: int, rest: seq<Byte>)
    requires b != [] && b[0] != 0x2D && ReadNat(b) == Some((n, rest))
    ensures ReadInt(b) == Some((n, rest)) && ReadInt([0x2D] + b) == Some((-n, rest))
  {
    assert ([0x2D] + b)[1..] == b;
  }

  lemma ReadIntOfDecimal(n: int, rest: seq<Byte>)
    requires rest != [] && !IsDigit(rest[0])
    ensures ReadInt(Decimal(n) + rest) == Some((n, rest))
  {
    var m := if n < 0 then -n else n;
    var ds := Digits(m);
    ReadNatOfDigits(m, rest);
    assert (ds + rest)[0] == ds[0] && IsDigit(ds[0]);
    ReadIntSign(ds + rest, m, rest);
    assert [0x2D] + ds + rest == [0x2D] + (ds + rest);
  }

  /** Consumes a fixed piece of text. */
  function Expect(piece: seq<Byte>, b: seq<Byte>): Option<seq<Byte>> {
    if piece <= b then Some(b[|piece|..]) else None
  }

  lemma ExpectPiece(piece: seq<Byte>, rest: seq<Byte>)
    ensures Expect(piece, piece + rest) == Some(rest)
  {
    assert (piece + rest)[|piece|..] == rest;
  }

  /** The items of an array and the closing bracket. */
  function Items(items: seq<Text>): seq<Byte> {
    if items == [] then Lit("]")
    else Quote(items[0]) + (if |items| == 1 then Lit("]") else Lit(",") + Items(items[1..]))
  }

  function ReadItems(b: seq<Byte>): Option<(seq<Text>, seq<Byte>)>
    decreases |b|
  {
    if Lit("]") <= b then Some(([], b[1..]))
    else
      var (t, rest) :- ReadText(b);
      if Lit("]") <= rest then Some(([t], rest[1..]))
      else
        var more :- Expect(Lit(","), rest);
        if |more| >= |b| then None
        else
          var (ts, tail) :- ReadItems(more);
          Some(([t] + ts, tail))
  }

  lemma ReadLastItem(t: Text, rest: seq<Byte>)
    ensures ReadItems(Quote(t) + (Lit("]") + rest)) == Some(([t], rest))
  {
    ReadTextOfQuote(t, Lit("]") + rest);
    ExpectPiece(Lit("]"), rest);
    assert (Quote(t) + (Lit("]") + rest))[0] == 0x22 && Lit("]")[0] == 0x5D;
  }

  lemma ReadNextItem(t: Text, more: seq<Byte>)
    requires ReadItems(more).Some?
    ensures ReadItems(Quote(t) + (Lit(",") + more))
            == Some(([t] + ReadItems(more).value.0, ReadItems(more).value.1))
  {
    ReadTextOfQuote(t, Lit(",") + more);
    ExpectPiece(Lit(","), more);
    assert (Quote(t) + (Lit(",") + more))[0] == 0x22 && Lit("]")[0] == 0x5D && (Lit(",") + more)[0] == 0x2C;
  }

  lemma {:induction false} ReadItemsOfItems(items: seq<Text>, rest: seq<Byte>)
    ensures ReadItems(Items(items) + rest) == Some((items, rest))
  {
    if items == [] {
      ExpectPiece(Lit("]"), rest);
    } else if |items| == 1 {
      AppendIsAssociative(Quote(items[0]), Lit("]"), rest);
      ReadLastItem(items[0], rest);
      assert items == [items[0]];
    } else {
      var more := Items(items[1..]);
      AppendIsAssociative(Quote(items[0]), Lit(",") + more, rest);
      AppendIsAssociative(Lit(","), more, rest);
      ReadItemsOfItems(items[1..], rest);
      ReadNextItem(items[0], more + rest);
      HeadAndTail(items);
    }
  }
}
