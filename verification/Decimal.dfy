/** Decimal printing and reading of numbers, as template literals and `Number` do on integers. */
module Decimal {

  predicate IsDigit(c: char) {
    '0' <= c <= '9'
  }

  predicate AllDigits(s: string) {
    forall i :: 0 <= i < |s| ==> IsDigit(s[i])
  }

  function DigitChar(d: nat): char
    requires d < 10
  {
    ('0' as int + d) as char
  }

  function DigitValue(c: char): nat {
    if IsDigit(c) then c as int - '0' as int else 0
  }

  /** The shortest decimal text of `n`. */
  function Print(n: nat): string {
    if n < 10 then [DigitChar(n)] else Print(n / 10) + [DigitChar(n % 10)]
  }

  /** The number a digit string denotes; an empty field denotes zero. */
  function Read(s: string): nat {
    if s == [] then 0 else 10 * Read(s[..|s| - 1]) + DigitValue(s[|s| - 1])
  }

  /** Reading a printed number gives the number, and printing yields at least one digit, nothing else. */
  lemma {:induction false} ReadPrint(n: nat)
    ensures Read(Print(n)) == n
    ensures Print(n) != [] && AllDigits(Print(n))
  {
    if n >= 10 {
      ReadPrint(n / 10);
      assert Print(n)[..|Print(n)| - 1] == Print(n / 10);
    } else {
      assert Print(n)[..0] == [];
    }
  }

  /** A zero in front does not count. */
  lemma {:induction false} ReadLeadingZero(s: string)
    ensures Read("0" + s) == Read(s)
  {
    if s == [] {
      assert "0" + s == "0" && "0"[..0] == [];
    } else {
      ReadLeadingZero(s[..|s| - 1]);
      assert ("0" + s)[..|s|] == "0" + s[..|s| - 1];
    }
  }

  /** Digits without a zero in front are the printed form of what they denote. */
  lemma {:induction false} PrintRead(s: string)
    requires s != [] && AllDigits(s) && (s[0] == '0' ==> |s| == 1)
    ensures Print(Read(s)) == s
    ensures |s| > 1 ==> Read(s) >= 10
  {
    var front, d := s[..|s| - 1], DigitValue(s[|s| - 1]);
    assert DigitChar(d) == s[|s| - 1];
    if front == [] {
      assert Read(s) == d;
    } else {
      PrintRead(front);
      assert front[0] != '0';
      PositiveRead(front);
      assert Read(s) / 10 == Read(front) && Read(s) % 10 == d;
    }
  }

  lemma {:induction false} PositiveRead(s: string)
    requires s != [] && AllDigits(s) && s[0] != '0'
    ensures Read(s) > 0
  {
    if |s| > 1 {
      PositiveRead(s[..|s| - 1]);
    }
  }
}
