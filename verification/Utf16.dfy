/** Text as the source's runtime sees it: a sequence of UTF-16 code units, so that `length`, `slice` and
    the regular expressions (none of which uses the `u` flag on the modelled paths) count the same things. */
module Utf16 {
  type Unit = u: int | 0 <= u < 0x1_0000

  type Text = seq<Unit>

  /** The code units of a literal whose characters all lie in the basic plane. */
  function T(s: string): (t: Text)
    requires forall i | 0 <= i < |s| :: s[i] as int < 0x1_0000
    ensures |t| == |s|
    ensures forall i | 0 <= i < |s| :: t[i] == s[i] as int
  {
    seq(|s|, i requires 0 <= i < |s| => s[i] as int)
  }

  /** The white space and line terminators of `\s`, which are also what `trim` strips. */
  predicate IsSpace(u: Unit) {
    || 9 <= u <= 13
    || u == 32
    || u == 0xA0
    || u == 0x1680
    || 0x2000 <= u <= 0x200A
    || u in {0x2028, 0x2029, 0x202F, 0x205F, 0x3000, 0xFEFF}
  }

  /** `\d`. */
  predicate IsDigit(u: Unit) {
    48 <= u <= 57
  }

  /** `\w`. */
  predicate IsWord(u: Unit) {
    IsDigit(u) || 65 <= u <= 90 || u == 95 || 97 <= u <= 122
  }

  /** Where the longest stretch of units satisfying `p` that starts at `from` ends: what a greedy `[p]*` takes. */
  function RunTo(p: Unit -> bool, s: Text, from: nat): (to: nat)
    requires from <= |s|
    ensures from <= to <= |s|
    ensures forall i | from <= i < to :: p(s[i])
    ensures to < |s| ==> !p(s[to])
    decreases |s| - from
  {
    if from == |s| || !p(s[from]) then from else RunTo(p, s, from + 1)
  }

  predicate StartsWith(s: Text, prefix: Text) {
    |prefix| <= |s| && s[..|prefix|] == prefix
  }

  function TrimStart(s: Text): (r: Text)
    ensures |r| <= |s| && r == s[|s| - |r|..]
    ensures r != [] ==> !IsSpace(r[0])
    ensures forall i | 0 <= i < |s| - |r| :: IsSpace(s[i])
  {
    if s != [] && IsSpace(s[0]) then TrimStart(s[1..]) else s
  }

  function TrimEnd(s: Text): (r: Text)
    ensures |r| <= |s| && r == s[..|r|]
    ensures r != [] ==> !IsSpace(r[|r| - 1])
    ensures forall i | |r| <= i < |s| :: IsSpace(s[i])
  {
    if s != [] && IsSpace(s[|s| - 1]) then TrimEnd(s[..|s| - 1]) else s
  }

  function Trim(s: Text): Text {
    TrimEnd(TrimStart(s))
  }
}
