/** Code units to bytes, as a digest sees a string: surrogate pairs become one code point, and a surrogate without its
    partner becomes the replacement character, which is why a text is told from its bytes only when it has none. */
module Utf8 {
  import opened Utf16
  import opened Options

  type Byte = n: nat | n < 256

  const REPLACEMENT := 0xFFFD

  predicate IsHigh(u: Unit) {
    0xD800 <= u <= 0xDBFF
  }

  predicate IsLow(u: Unit) {
    0xDC00 <= u <= 0xDFFF
  }

  predicate IsSurrogate(u: Unit) {
    IsHigh(u) || IsLow(u)
  }

  predicate StartsPair(t: Text) {
    |t| >= 2 && IsHigh(t[0]) && IsLow(t[1])
  }

  /** Every surrogate stands in a pair. */
  predicate WellFormed(t: Text) {
    t == [] || if StartsPair(t) then WellFormed(t[2..]) else !IsSurrogate(t[0]) && WellFormed(t[1..])
  }

  /** The first code point of a text. */
  function FirstPoint(t: Text): (c: nat)
    requires t != []
    ensures c < 0x110000
  {
    if StartsPair(t) then 0x10000 + (t[0] - 0xD800) * 0x400 + (t[1] - 0xDC00)
    else if IsSurrogate(t[0]) then REPLACEMENT
    else t[0]
  }

  function Bytes(c: nat): (b: seq<Byte>)
    requires c < 0x110000
    ensures b != []
  {
    if c < 0x80 then [c]
    else if c < 0x800 then [0xC0 + c / 64, 0x80 + c % 64]
    else if c < 0x10000 then [0xE0 + c / 64 / 64, 0x80 + c / 64 % 64, 0x80 + c % 64]
    else [0xF0 + c / 64 / 64 / 64, 0x80 + c / 64 / 64 % 64, 0x80 + c / 64 % 64, 0x80 + c % 64]
  }

  function Encoded(t: Text): seq<Byte> {
    if t == [] then [] else Bytes(FirstPoint(t)) + Encoded(if StartsPair(t) then t[2..] else t[1..])
  }

  /** A code point read from bytes, and what follows it; the lead byte says how many there are. */
  datatype Point = Point(code: int, rest: seq<Byte>)

  /** What a byte adds to the code point read so far. */
  function Shifted(code: int, b: Byte): int {
    code * 64 + (b as int - 0x80)
  }

  function ReadPoint(b: seq<Byte>): Option<Point> {
    if b == [] then None
    else
      var lead: int := b[0];
      if lead < 0x80 then Some(Point(lead, b[1..]))
      else if lead < 0xE0 && |b| >= 2 then Some(Point(Shifted(lead - 0xC0, b[1]), b[2..]))
      else if lead < 0xF0 && |b| >= 3 then Some(Point(Shifted(Shifted(lead - 0xE0, b[1]), b[2]), b[3..]))
      else if |b| >= 4 then Some(Point(Shifted(Shifted(Shifted(lead - 0xF0, b[1]), b[2]), b[3]), b[4..]))
      else None
  }

  /** Reading gives back the code point that was written, whatever follows it. */
  lemma ReadOfBytes(c: nat, rest: seq<Byte>)
    requires c < 0x110000
    ensures ReadPoint(Bytes(c) + rest) == Some(Point(c, rest))
  {
    var b := Bytes(c) + rest;
    assert b[|Bytes(c)|..] == rest;
    assert c == c / 64 * 64 + c % 64 && c / 64 == c / 64 / 64 * 64 + c / 64 % 64;
    assert c / 64 / 64 == c / 64 / 64 / 64 * 64 + c / 64 / 64 % 64;
  }

  /** Two well-formed texts that begin with the same code point begin with the same units. */
  lemma SamePoint(a: Text, b: Text)
    requires a != [] && b != [] && WellFormed(a) && WellFormed(b) && FirstPoint(a) == FirstPoint(b)
    ensures StartsPair(a) == StartsPair(b) && a[0] == b[0] && (StartsPair(a) ==> a[1] == b[1])
  {
  }

  /** No two well-formed texts have the same bytes. */
  lemma {:induction false} EncodedInjective(a: Text, b: Text)
    requires WellFormed(a) && WellFormed(b) && Encoded(a) == Encoded(b)
    ensures a == b
  {
    if a != [] && b != [] {
      var restA, restB := if StartsPair(a) then a[2..] else a[1..], if StartsPair(b) then b[2..] else b[1..];
      ReadOfBytes(FirstPoint(a), Encoded(restA));
      ReadOfBytes(FirstPoint(b), Encoded(restB));
      SamePoint(a, b);
      EncodedInjective(restA, restB);
      assert a == (if StartsPair(a) then [a[0], a[1]] else [a[0]]) + restA;
      assert b == (if StartsPair(b) then [b[0], b[1]] else [b[0]]) + restB;
    }
  }

  lemma {:induction false} WellFormedJoin(a: Text, b: Text)
    requires WellFormed(a) && WellFormed(b)
    ensures WellFormed(a + b)
  {
    if a == [] {
      assert a + b == b;
    } else {
      var n := if StartsPair(a) then 2 else 1;
      WellFormedJoin(a[n..], b);
      assert (a + b)[n..] == a[n..] + b;
    }
  }

  lemma {:induction false} PlainIsWellFormed(t: Text)
    requires forall i | 0 <= i < |t| :: !IsSurrogate(t[i])
    ensures WellFormed(t)
  {
    if t != [] {
      PlainIsWellFormed(t[1..]);
    }
  }

  lemma EncodedUnit(u: Unit, rest: Text)
    requires !IsHigh(u) || rest == [] || !IsLow(rest[0])
    ensures Encoded([u] + rest) == Bytes(if IsSurrogate(u) then 0xFFFD else u) + Encoded(rest)
  {
    assert ([u] + rest)[1..] == rest;
  }

  lemma EncodedPair(high: Unit, low: Unit, rest: Text)
    requires IsHigh(high) && IsLow(low)
    ensures Encoded([high, low] + rest) == Bytes(0x10000 + (high - 0xD800) * 0x400 + (low - 0xDC00)) + Encoded(rest)
  {
    assert ([high, low] + rest)[2..] == rest;
  }

  /** Two examples of section 7 of RFC 3629: units of one, two and three bytes, and a pair. */
  lemma UnitExample()
    ensures Encoded([0x41] + ([0x2262] + ([0x391] + [])))
         == [0x41] + ([0xE2, 0x89, 0xA2] + ([0xCE, 0x91] + []))
  {
    EncodedUnit(0x391, []);
    EncodedUnit(0x2262, [0x391] + []);
    EncodedUnit(0x41, [0x2262] + ([0x391] + []));
    assert Bytes(0x391) == [0xCE, 0x91] && Bytes(0x2262) == [0xE2, 0x89, 0xA2] && Bytes(0x41) == [0x41];
  }

  lemma PairExample()
    ensures Encoded([0xD84C, 0xDFB4] + []) == [0xF0, 0xA3, 0x8E, 0xB4] + []
  {
    EncodedPair(0xD84C, 0xDFB4, []);
  }

  /** Surrogates in the wrong order each become the replacement character. */
  lemma LoneSurrogates()
    ensures Encoded([0xDFB4] + ([0xD84C] + [])) == [0xEF, 0xBF, 0xBD] + ([0xEF, 0xBF, 0xBD] + [])
  {
    EncodedUnit(0xD84C, []);
    EncodedUnit(0xDFB4, [0xD84C] + []);
  }
}
