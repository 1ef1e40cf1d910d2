/** The key of a cached suggestion: a digest over a JSON array, so that no field can run into the next. */
module CacheKeys {
  import opened Utf16
  import opened Options
  import opened Utf8

  const QUOTE: Unit := 34
  const BACKSLASH: Unit := 92
  const LETTER_U: Unit := 117

  // JSON strings, section 7 of RFC 8259

  /** The second unit of a two-unit escape, if the unit has one: quote, backslash, and b, t, n, f, r. */
  function Short(u: Unit): Option<Unit> {
    if u == QUOTE then Some(QUOTE)
    else if u == BACKSLASH then Some(BACKSLASH)
    else if u == 8 then Some(98)
    else if u == 9 then Some(116)
    else if u == 10 then Some(110)
    else if u == 12 then Some(102)
    else if u == 13 then Some(114)
    else None
  }

  /** What a two-unit escape stands for. */
  function Unshort(u: Unit): Option<Unit> {
    if u == QUOTE then Some(QUOTE)
    else if u == BACKSLASH then Some(BACKSLASH)
    else if u == 98 then Some(8)
    else if u == 116 then Some(9)
    else if u == 110 then Some(10)
    else if u == 102 then Some(12)
    else if u == 114 then Some(13)
    else None
  }

  function HexDigit(n: nat): Unit
    requires n < 16
  {
    if n < 10 then 48 + n else 87 + n
  }

  function HexValue(u: Unit): Option<nat> {
    if 48 <= u <= 57 then Some(u - 48) else if 97 <= u <= 102 then Some(u - 87) else None
  }

  /** A backslash, `u` and four hexadecimal digits. */
  function Escape(u: Unit): Text {
    [BACKSLASH, LETTER_U, HexDigit(u / 16 / 16 / 16), HexDigit(u / 16 / 16 % 16), HexDigit(u / 16 % 16), HexDigit(u % 16)]
  }

  /** The inside of a JSON string as `JSON.stringify` writes it: control characters and lone surrogates are escaped,
      surrogate pairs and everything else stand as they are. */
  function Quoted(s: Text): Text {
    if s == [] then []
    else if |s| >= 2 && IsHigh(s[0]) && IsLow(s[1]) then [s[0]] + ([s[1]] + Quoted(s[2..]))
    else QuotedUnit(s[0]) + Quoted(s[1..])
  }

  /** A unit that is not half of a pair. */
  function QuotedUnit(u: Unit): Text {
    if Short(u).Some? then [BACKSLASH, Short(u).value]
    else if u < 32 || IsHigh(u) || IsLow(u) then Escape(u)
    else [u]
  }

  /** One unit of a JSON string and what follows it. */
  datatype Step = Step(unit: Unit, rest: Text)

  function ReadUnit(t: Text): (r: Option<Step>)
    ensures r.Some? ==> |r.value.rest| < |t|
  {
    if t == [] || t[0] == QUOTE then None
    else if t[0] != BACKSLASH then Some(Step(t[0], t[1..]))
    else if |t| >= 2 && Unshort(t[1]).Some? then Some(Step(Unshort(t[1]).value, t[2..]))
    else if |t| >= 6 && t[1] == LETTER_U then
      var a, b, c, d := HexValue(t[2]), HexValue(t[3]), HexValue(t[4]), HexValue(t[5]);
      if a.Some? && b.Some? && c.Some? && d.Some? then
        Some(Step(4096 * a.value + 256 * b.value + 16 * c.value + d.value, t[6..]))
      else None
    else None
  }

  /** The content of a JSON string up to its closing quote, and the text after the quote. */
  datatype Parsed = Parsed(content: Text, rest: Text)

  function ReadString(t: Text): Option<Parsed>
    decreases |t|
  {
    if t != [] && t[0] == QUOTE then Some(Parsed([], t[1..]))
    else
      match ReadUnit(t)
      case None => None
      case Some(step) =>
        match ReadString(step.rest)
        case None => None
        case Some(p) => Some(Parsed([step.unit] + p.content, p.rest))
  }

  lemma {:induction false} HexRoundTrip(u: Unit)
    ensures var a, b, c, d := u / 16 / 16 / 16, u / 16 / 16 % 16, u / 16 % 16, u % 16;
      a < 16 && 4096 * a + 256 * b + 16 * c + d == u
  {
  }

  lemma {:induction false} ReadEscape(u: Unit, rest: Text)
    ensures ReadUnit(Escape(u) + rest) == Some(Step(u, rest))
  {
    var t := Escape(u) + rest;
    HexRoundTrip(u);
    assert t[6..] == rest;
    assert Unshort(t[1]).None?;
  }

  lemma {:induction false} ReadShort(u: Unit, rest: Text)
    requires Short(u).Some?
    ensures ReadUnit([BACKSLASH, Short(u).value] + rest) == Some(Step(u, rest))
  {
  }

  lemma {:induction false} ReadPlain(u: Unit, rest: Text)
    requires u != QUOTE && u != BACKSLASH
    ensures ReadUnit([u] + rest) == Some(Step(u, rest))
  {
  }

  lemma {:induction false} ReadQuotedUnit(u: Unit, rest: Text)
    ensures ReadUnit(QuotedUnit(u) + rest) == Some(Step(u, rest))
  {
    if Short(u).Some? {
      ReadShort(u, rest);
    } else if u < 32 || IsHigh(u) || IsLow(u) {
      ReadEscape(u, rest);
    } else {
      ReadPlain(u, rest);
    }
  }

  lemma {:induction false} ReadOneMore(t: Text, u: Unit, after: Text, content: Text, rest: Text)
    requires ReadUnit(t) == Some(Step(u, after)) && ReadString(after) == Some(Parsed(content, rest))
    ensures ReadString(t) == Some(Parsed([u] + content, rest))
  {
  }

  lemma {:induction false} ReadOneQuoted(u: Unit, t: Text, content: Text, rest: Text)
    requires ReadString(t) == Some(Parsed(content, rest))
    ensures ReadString(QuotedUnit(u) + t) == Some(Parsed([u] + content, rest))
  {
    ReadQuotedUnit(u, t);
    ReadOneMore(QuotedUnit(u) + t, u, t, content, rest);
  }

  lemma {:induction false} ReadOnePair(h: Unit, l: Unit, t: Text, content: Text, rest: Text)
    requires IsHigh(h) && IsLow(l) && ReadString(t) == Some(Parsed(content, rest))
    ensures ReadString([h] + ([l] + t)) == Some(Parsed([h] + ([l] + content), rest))
  {
  }

  /** How the quoted text goes on after its first pair. */
  lemma {:induction false} QuotedPair(s: Text, end: Text)
    requires |s| >= 2 && IsHigh(s[0]) && IsLow(s[1])
    ensures Quoted(s) + end == [s[0]] + ([s[1]] + (Quoted(s[2..]) + end)) && s == [s[0]] + ([s[1]] + s[2..])
  {
  }

  /** How the quoted text goes on after a unit that starts no pair. */
  lemma {:induction false} QuotedFirst(s: Text, end: Text)
    requires s != [] && !(|s| >= 2 && IsHigh(s[0]) && IsLow(s[1]))
    ensures Quoted(s) + end == QuotedUnit(s[0]) + (Quoted(s[1..]) + end) && s == [s[0]] + s[1..]
  {
  }

  lemma {:induction false} ReadClosing(rest: Text)
    ensures ReadString([] + ([QUOTE] + rest)) == Some(Parsed([], rest))
  {
    var t := [QUOTE] + rest;
    assert [] + t == t && t[1..] == rest;
  }

  /** Reading undoes quoting, whatever follows the closing quote. */
  lemma {:induction false} ReadOfQuoted(s: Text, rest: Text)
    ensures ReadString(Quoted(s) + ([QUOTE] + rest)) == Some(Parsed(s, rest))
    decreases |s|
  {
    var end := [QUOTE] + rest;
    if s == [] {
      ReadClosing(rest);
    } else if |s| >= 2 && IsHigh(s[0]) && IsLow(s[1]) {
      QuotedPair(s, end);
      ReadOfQuoted(s[2..], rest);
      ReadOnePair(s[0], s[1], Quoted(s[2..]) + end, s[2..], rest);
    } else {
      QuotedFirst(s, end);
      ReadOfQuoted(s[1..], rest);
      ReadOneQuoted(s[0], Quoted(s[1..]) + end, s[1..], rest);
    }
  }

  // The key

  /** `,"` field `"`, for every field, and the closing bracket. */
  function ArrayTail(fields: seq<Text>): Text {
    if fields == [] then [93] else [44, QUOTE] + (Quoted(fields[0]) + ([QUOTE] + ArrayTail(fields[1..])))
  }

  /** `JSON.stringify([1, ...fields])`. */
  function Encode(fields: seq<Text>): Text {
    [91, 49] + ArrayTail(fields)
  }

  lemma {:induction false} ArrayTailInjective(a: seq<Text>, b: seq<Text>)
    requires ArrayTail(a) == ArrayTail(b)
    ensures a == b
  {
    if a != [] && b != [] {
      var s, t := [QUOTE] + ArrayTail(a[1..]), [QUOTE] + ArrayTail(b[1..]);
      assert ArrayTail(a)[2..] == Quoted(a[0]) + s && ArrayTail(b)[2..] == Quoted(b[0]) + t;
      ReadOfQuoted(a[0], ArrayTail(a[1..]));
      ReadOfQuoted(b[0], ArrayTail(b[1..]));
      ArrayTailInjective(a[1..], b[1..]);
      assert a == [a[0]] + a[1..] && b == [b[0]] + b[1..];
    }
  }

  datatype KeyInput = KeyInput(userId: Text, featureType: Text, promptVersion: Text, modelScope: Text, content: Text,
                               context: Text)

  function Fields(k: KeyInput): seq<Text> {
    [k.userId, k.featureType, k.promptVersion, k.modelScope, k.content, k.context]
  }

  lemma {:induction false} QuotedUnitWellFormed(u: Unit)
    ensures WellFormed(QuotedUnit(u))
  {
    PlainIsWellFormed(QuotedUnit(u));
  }

  /** Lone surrogates are escaped, so what is quoted has none. */
  lemma {:induction false} QuotedWellFormed(s: Text)
    ensures WellFormed(Quoted(s))
    decreases |s|
  {
    if |s| >= 2 && IsHigh(s[0]) && IsLow(s[1]) {
      QuotedWellFormed(s[2..]);
      assert Quoted(s)[2..] == Quoted(s[2..]);
    } else if s != [] {
      QuotedUnitWellFormed(s[0]);
      QuotedWellFormed(s[1..]);
      WellFormedJoin(QuotedUnit(s[0]), Quoted(s[1..]));
    }
  }

  lemma {:induction false} ArrayTailWellFormed(fields: seq<Text>)
    ensures WellFormed(ArrayTail(fields))
  {
    if fields == [] {
      PlainIsWellFormed([93]);
    } else {
      var rest := [QUOTE] + ArrayTail(fields[1..]);
      ArrayTailWellFormed(fields[1..]);
      PlainIsWellFormed([QUOTE]);
      WellFormedJoin([QUOTE], ArrayTail(fields[1..]));
      QuotedWellFormed(fields[0]);
      WellFormedJoin(Quoted(fields[0]), rest);
      PlainIsWellFormed([44, QUOTE]);
      WellFormedJoin([44, QUOTE], Quoted(fields[0]) + rest);
    }
  }

  /** The encoding has no lone surrogate whatever the fields have, so taking its bytes loses nothing. */
  lemma {:induction false} EncodeWellFormed(fields: seq<Text>)
    ensures WellFormed(Encode(fields))
  {
    ArrayTailWellFormed(fields);
    PlainIsWellFormed([91, 49]);
    WellFormedJoin([91, 49], ArrayTail(fields));
  }

  /** A digest that stands for its input: SHA-256 taken as free of collisions. */
  datatype Digest = Sha256(preimage: seq<Byte>)

  function CacheKey(k: KeyInput): Digest {
    Sha256(Encoded(Encode(Fields(k))))
  }

  /** Two requests share a key exactly when they agree in all six fields. */
  lemma KeyInjective(a: KeyInput, b: KeyInput)
    ensures CacheKey(a) == CacheKey(b) <==> a == b
  {
    if CacheKey(a) == CacheKey(b) {
      EncodeWellFormed(Fields(a));
      EncodeWellFormed(Fields(b));
      EncodedInjective(Encode(Fields(a)), Encode(Fields(b)));
      assert Encode(Fields(a))[2..] == ArrayTail(Fields(a)) && Encode(Fields(b))[2..] == ArrayTail(Fields(b));
      ArrayTailInjective(Fields(a), Fields(b));
      assert Fields(a)[0] == Fields(b)[0] && Fields(a)[1] == Fields(b)[1] && Fields(a)[2] == Fields(b)[2];
      assert Fields(a)[3] == Fields(b)[3] && Fields(a)[4] == Fields(b)[4] && Fields(a)[5] == Fields(b)[5];
    }
  }
}
