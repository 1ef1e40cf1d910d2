/** Decimal numbers as text: `String(n)` and `Number(digits)` for natural numbers. */
module Decimals {
  import opened Utf16

  function Print(n: nat): (s: Text)
    ensures s != [] && forall u | u in s :: IsDigit(u)
  {
    if n < 10 then [48 + n] else Print(n / 10) + [48 + n % 10]
  }

  predicate AllDigits(s: Text) {
    forall i | 0 <= i < |s| :: IsDigit(s[i])
  }

  function Read(s: Text): nat
    requires AllDigits(s)
  {
    if s == [] then 0 else 10 * Read(s[..|s| - 1]) + (s[|s| - 1] - 48)
  }

  /** Reading a printed number gives it back, so different numbers print differently. */
  lemma {:induction false} ReadOfPrint(n: nat)
    ensures AllDigits(Print(n)) && Read(Print(n)) == n
  {
    if n >= 10 {
      ReadOfPrint(n / 10);
      assert Print(n)[..|Print(n)| - 1] == Print(n / 10);
    } else {
      assert Print(n)[..0] == [];
    }
  }

  lemma PrintMore(n: nat, digit: Unit)
    requires n > 0 && IsDigit(digit)
    ensures Print(10 * n + (digit - 48)) == Print(n) + [digit]
  {
  }

  /** Printing a read number gives its digits back when it was written without leading zeros. */
  lemma {:induction false} PrintOfRead(s: Text)
    requires AllDigits(s) && s != [] && (|s| == 1 || s[0] != 48)
    ensures Print(Read(s)) == s && (s[0] != 48 ==> Read(s) >= 1)
  {
    var front, last := s[..|s| - 1], s[|s| - 1];
    assert front + [last] == s;
    if front == [] {
      assert Read(s) == last - 48;
    } else {
      PrintOfRead(front);
      PrintMore(Read(front), last);
    }
  }

  lemma {:induction false} LeadingZero(s: Text)
    requires AllDigits(s)
    ensures AllDigits([48] + s) && Read([48] + s) == Read(s)
  {
    if s == [] {
      assert Read([48][..0]) == 0;
    } else {
      var front := s[..|s| - 1];
      LeadingZero(front);
      assert ([48] + s)[..|s|] == [48] + front;
    }
  }

  /** A number below ten thousand takes one to four digits. */
  lemma {:induction false} ShortPrint(n: nat)
    requires n < 10000
    ensures 1 <= |Print(n)| <= 4
  {
    var a := n / 10;
    var b := a / 10;
    assert b / 10 < 10 && |Print(b / 10)| == 1;
    assert |Print(b)| <= 2;
    assert |Print(a)| <= 3;
  }

  lemma {:induction false} ReadIsSmall(s: Text)
    requires AllDigits(s) && |s| <= 4
    ensures Read(s) < if |s| == 0 then 1 else if |s| == 1 then 10
      else if |s| == 2 then 100 else if |s| == 3 then 1000 else 10000
  {
    if s != [] {
      ReadIsSmall(s[..|s| - 1]);
    }
  }
}
