/** Numerals in a base, and the word they must fit. */
module Numerals {
  import opened Arith

  const WORD: nat := 0x1_0000_0000_0000_0000
  const UINT_MAX: nat := 0xffff_ffff_ffff_ffff

  predicate IsBase(b: nat) { 2 <= b <= 36 }

  /** The value of a digit, or 36 for a character that is none. */
  function DigitOf(c: char): (d: nat)
    ensures d <= 36
  {
    if '0' <= c <= '9' then c as nat - '0' as nat
    else if 'a' <= c <= 'z' then c as nat - 'a' as nat + 10
    else if 'A' <= c <= 'Z' then c as nat - 'A' as nat + 10
    else 36
  }

  /** hexdigits and HEXDIGITS */
  function DigitChar(d: nat, upper: bool): (c: char)
    requires d < 16
    ensures DigitOf(c) == d
  {
    if d < 10 then (d + '0' as nat) as char
    else if upper then (d - 10 + 'A' as nat) as char
    else (d - 10 + 'a' as nat) as char
  }

  function Value(s: string, b: nat): nat
  {
    if s == [] then 0 else Value(s[..|s| - 1], b) * b + DigitOf(s[|s| - 1])
  }

  function Quot(n: nat, b: nat): (q: nat)
    requires b >= 2
    ensures n > 0 ==> q < n
  {
    assert n > 0 ==> n / b < n by { QuotSmaller(n, b); }
    n / b
  }

  function Rem(n: nat, b: nat): (r: nat)
    requires b >= 2
    ensures r < b
  {
    n % b
  }

  lemma QuotSmaller(n: nat, b: nat)
    requires b >= 2
    ensures n > 0 ==> n / b < n
    ensures n / b * b + n % b == n
    ensures n >= b ==> n / b > 0
  {
    if n > 0 && n / b >= n {
      MulOrder(n, n / b, b);
      MulOrder(1, b, n);
    }
  }

  lemma DivMod(n: nat, b: nat)
    requires b >= 2
    ensures Quot(n, b) * b + Rem(n, b) == n
  {
    QuotSmaller(n, b);
  }

  /** The shortest numeral of n. */
  function Digits(n: nat, b: nat, upper: bool): (s: string)
    requires 2 <= b <= 16
    ensures s != []
  {
    if n < b then [DigitChar(n, upper)] else Digits(Quot(n, b), b, upper) + [DigitChar(Rem(n, b), upper)]
  }

  lemma {:induction false} ValueOfDigits(n: nat, b: nat, upper: bool)
    requires 2 <= b <= 16
    ensures Value(Digits(n, b, upper), b) == n
    ensures forall i | 0 <= i < |Digits(n, b, upper)| :: DigitOf(Digits(n, b, upper)[i]) < b
    decreases n
  {
    var s := Digits(n, b, upper);
    DivMod(n, b);
    hide DigitOf, DigitChar, Quot, Rem;
    if n < b {
      assert s == [DigitChar(n, upper)] && s[..0] == [];
      assert Value(s, b) == 0 * b + DigitOf(s[0]);
    } else {
      var t := Digits(Quot(n, b), b, upper);
      ValueOfDigits(Quot(n, b), b, upper);
      assert s == t + [DigitChar(Rem(n, b), upper)] && s[..|s| - 1] == t;
      assert Value(s, b) == Quot(n, b) * b + Rem(n, b);
    }
  }

  function Power(b: nat, k: nat): nat
  {
    if k == 0 then 1 else b * Power(b, k - 1)
  }

  lemma {:induction false} PowerSum(b: nat, i: nat, j: nat)
    ensures Power(b, i + j) == Power(b, i) * Power(b, j)
  {
    if i > 0 {
      PowerSum(b, i - 1, j);
      PowerStep(b, i);
      PowerStep(b, i + j);
      hide Power;
      MulAssociates(b, Power(b, i - 1), Power(b, j));
    }
  }

  lemma PowerStep(b: nat, i: nat)
    requires i > 0
    ensures Power(b, i) == b * Power(b, i - 1)
  {
  }

  lemma MulAssociates(a: nat, b: nat, c: nat)
    ensures a * (b * c) == a * b * c
  {
  }

  lemma PowerSquare(b: nat, i: nat)
    ensures Power(b, 2 * i) == Power(b, i) * Power(b, i)
  {
    PowerSum(b, i, i);
  }

  /** The digits that suffice for a word. */
  lemma PowersReach()
    ensures WORD <= Power(8, 22) && WORD <= Power(10, 20) && WORD == Power(16, 16)
  {
    assert Power(8, 1) == 8 && Power(10, 1) == 10 && Power(16, 1) == 16;
    hide Power;
    PowerSquare(8, 1); PowerSquare(8, 2); PowerSquare(8, 4); PowerSquare(8, 8);
    PowerSum(8, 2, 4); PowerSum(8, 16, 6);
    PowerSquare(10, 1); PowerSquare(10, 2); PowerSquare(10, 4); PowerSquare(10, 8); PowerSum(10, 16, 4);
    PowerSquare(16, 1); PowerSquare(16, 2); PowerSquare(16, 4); PowerSquare(16, 8);
  }

  lemma {:induction false} DigitsLength(n: nat, b: nat, upper: bool, k: nat)
    requires 2 <= b <= 16 && k >= 1 && n < Power(b, k)
    ensures |Digits(n, b, upper)| <= k
    decreases k
  {
    if n >= b {
      assert k >= 2 by {
        assert Power(b, 1) == b * Power(b, 0);
      }
      QuotSmaller(n, b);
      if n / b >= Power(b, k - 1) {
        MulOrder(Power(b, k - 1), n / b, b);
      }
      DigitsLength(Quot(n, b), b, upper, k - 1);
    }
  }

  /** A numeral with a leading zero only if it is zero. */
  lemma {:induction false} NoLeadingZero(n: nat, b: nat, upper: bool)
    requires 2 <= b <= 16
    ensures Digits(n, b, upper)[0] == '0' <==> n == 0
    decreases n
  {
    if n >= b {
      QuotSmaller(n, b);
      NoLeadingZero(Quot(n, b), b, upper);
    }
  }

  lemma {:induction false} ValueGrows(s: string, i: nat, b: nat)
    requires i <= |s| && b >= 1
    ensures Value(s[..i], b) <= Value(s, b)
    decreases |s|
  {
    if i < |s| {
      var t := s[..|s| - 1];
      ValueGrows(t, i, b);
      assert t[..i] == s[..i];
      MulAtLeast(b, Value(t, b));
      assert b * Value(t, b) == Value(t, b) * b;
    } else {
      assert s[..i] == s;
    }
  }

  lemma {:induction false} ValueLeadingZero(s: string, b: nat)
    ensures Value("0" + s, b) == Value(s, b)
    decreases |s|
  {
    var z := "0" + s;
    if s == [] {
      assert z[..0] == "" && Value(z, b) == 0 * b + DigitOf('0');
    } else {
      var t := s[..|s| - 1];
      assert z[..|z| - 1] == "0" + t;
      ValueLeadingZero(t, b);
    }
  }
}
