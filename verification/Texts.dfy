/** JavaScript strings, read code point by code point. A lone surrogate is a point of its own (0xD800..0xDFFF). */
module Texts {

  type Point = p: int | 0 <= p < 0x11_0000
  type Text = seq<Point>
  type Byte = b: int | 0 <= b < 0x100

  /** The text of a Dafny string literal. */
  function Ascii(s: string): Text {
    seq(|s|, i requires 0 <= i < |s| => s[i] as int)
  }

  predicate IsSurrogate(p: Point) {
    0xD800 <= p <= 0xDFFF
  }

  predicate Within(p: Point, low: char, high: char) {
    low as int <= p <= high as int
  }

  predicate IsLower(p: Point) { Within(p, 'a', 'z') }

  predicate IsUpper(p: Point) { Within(p, 'A', 'Z') }

  predicate IsDigit(p: Point) { Within(p, '0', '9') }

  predicate IsAlnum(p: Point) { IsLower(p) || IsUpper(p) || IsDigit(p) }

  /** Neither NUL nor a line break: the class [\0\r\n] does not match. */
  predicate SingleLine(t: Text) {
    0 !in t && 0x0A !in t && 0x0D !in t
  }

  /** Code units: what `length` counts. */
  function Units(t: Text): nat {
    if t == [] then 0 else (if t[0] >= 0x1_0000 then 2 else 1) + Units(t[1..])
  }

  /** Bytes after UTF-8 encoding; a lone surrogate is replaced by a three-byte mark. */
  function Utf8Length(t: Text): nat {
    if t == [] then 0 else
      (if t[0] < 0x80 then 1 else if t[0] < 0x800 then 2 else if t[0] < 0x1_0000 then 3 else 4) + Utf8Length(t[1..])
  }

  predicate IsSpace(p: Point) {
    9 <= p <= 13 || p == 0x20 || p == 0xA0 || p == 0x1680 || 0x2000 <= p <= 0x200A ||
    p == 0x2028 || p == 0x2029 || p == 0x202F || p == 0x205F || p == 0x3000 || p == 0xFEFF
  }

  function TrimStart(t: Text): Text {
    if t != [] && IsSpace(t[0]) then TrimStart(t[1..]) else t
  }

  function TrimEnd(t: Text): Text {
    if t != [] && IsSpace(t[|t| - 1]) then TrimEnd(t[..|t| - 1]) else t
  }

  function Trim(t: Text): Text {
    TrimEnd(TrimStart(t))
  }

  /** Puts an element before the first piece, or a separator before all of them. */
  function Push<T(==)>(x: T, parts: seq<seq<T>>, sep: T): (r: seq<seq<T>>)
    requires |parts| >= 1
    ensures |r| >= 1
  {
    if x == sep then [[]] + parts else [[x] + parts[0]] + parts[1..]
  }

  /** `split` on a one-character separator. */
  function Split<T(==)>(s: seq<T>, sep: T): (parts: seq<seq<T>>)
    ensures |parts| >= 1
  {
    if s == [] then [[]] else Push(s[0], Split(s[1..], sep), sep)
  }

  function Join<T>(parts: seq<seq<T>>, sep: seq<T>): seq<T> {
    if parts == [] then []
    else if |parts| == 1 then parts[0]
    else parts[0] + sep + Join(parts[1..], sep)
  }

  lemma PushConcat<T>(x: T, p: seq<seq<T>>, q: seq<seq<T>>, sep: T)
    requires |p| >= 1
    ensures Push(x, p + q, sep) == Push(x, p, sep) + q
  {
    assert (p + q)[1..] == p[1..] + q;
  }

  lemma {:induction false} SplitConcat<T>(a: seq<T>, sep: T, b: seq<T>)
    ensures Split(a + [sep] + b, sep) == Split(a, sep) + Split(b, sep)
  {
    if a == [] {
      assert a + [sep] + b == [sep] + b && ([sep] + b)[1..] == b;
    } else {
      var tail := a[1..] + [sep] + b;
      assert a + [sep] + b == [a[0]] + tail && ([a[0]] + tail)[1..] == tail;
      SplitConcat(a[1..], sep, b);
      PushConcat(a[0], Split(a[1..], sep), Split(b, sep), sep);
    }
  }

}
