/** bmk_strtoul of lib/libbmk_core/strtoul.c. */
module Strtoul {
  import opened Arith
  import opened Numerals
  import opened Texts

  predicate IsSpace(c: char) { c == ' ' || '\t' <= c <= '\r' }

  /** Where the white space ends. */
  function SkipSpace(s: string, i: nat): (j: nat)
    requires i <= |s|
    ensures i <= j <= |s| && !IsSpace(CharAt(s, j)) && forall k | i <= k < j :: IsSpace(CharAt(s, k))
    decreases |s| - i
  {
    if IsSpace(CharAt(s, i)) then SkipSpace(s, i + 1) else i
  }

  /** Where the digits end. */
  function RunEnd(s: string, i: nat, b: nat): (j: nat)
    requires i <= |s| && b <= 36
    ensures i <= j <= |s| && DigitOf(CharAt(s, j)) >= b && forall k | i <= k < j :: DigitOf(CharAt(s, k)) < b
    decreases |s| - i
  {
    if DigitOf(CharAt(s, i)) < b then RunEnd(s, i + 1, b) else i
  }

  /** What comes before the digits: a sign, the base, and where they start. */
  datatype Numeral = Numeral(neg: bool, base: nat, start: nat)

  function Prefix(s: string, base: nat): (p: Numeral)
    requires base == 0 || IsBase(base)
    ensures IsBase(p.base) && p.start <= |s|
  {
    var i := SkipSpace(s, 0);
    var signed := CharAt(s, i) == '-' || CharAt(s, i) == '+';
    var j := if signed then i + 1 else i;
    var neg := CharAt(s, i) == '-';
    if (base == 0 || base == 16) && CharAt(s, j) == '0' && (CharAt(s, j + 1) == 'x' || CharAt(s, j + 1) == 'X')
    then Numeral(neg, 16, j + 2)
    else Numeral(neg, if base == 0 then (if CharAt(s, j) == '0' then 8 else 10) else base, j)
  }

  /** The value and the end position: of the longest run of digits, as section 7.22.1.4 of
      ISO C11 has it, except that on overflow, as without digits, the end is the start of
      the string, and that a 0x without digits after it is no numeral. */
  function Result(s: string, base: nat): (r: (nat, nat))
    requires base == 0 || IsBase(base)
  {
    var p := Prefix(s, base);
    var e := RunEnd(s, p.start, p.base);
    var v := Value(s[p.start..e], p.base);
    if e == p.start then (0, 0)
    else if v > UINT_MAX then (UINT_MAX, 0)
    else (if p.neg then (WORD - v) % WORD else v, e)
  }

  /** Did Prefix step over a 0x? */
  predicate SkippedHex(s: string, base: nat)
    requires base == 0 || IsBase(base)
  {
    var p := Prefix(s, base);
    p.start >= 2 && p.base == 16 && (base == 0 || base == 16) && CharAt(s, p.start - 2) == '0' &&
    (CharAt(s, p.start - 1) == 'x' || CharAt(s, p.start - 1) == 'X')
  }

  /** What section 7.22.1.4 of ISO C11 asks for: a 0x without digits is a zero that ends
      before the x, and a numeral that is too large is still consumed. */
  function IsoResult(s: string, base: nat): (nat, nat)
    requires base == 0 || IsBase(base)
  {
    var p := Prefix(s, base);
    var e := RunEnd(s, p.start, p.base);
    var v := Value(s[p.start..e], p.base);
    if e == p.start then (if SkippedHex(s, base) then (0, p.start - 1) else (0, 0))
    else if v > UINT_MAX then (UINT_MAX, e)
    else (if p.neg then (WORD - v) % WORD else v, e)
  }

  /** The code meets the standard unless the numeral overflows or is a bare 0x. */
  lemma MeetsIso(s: string, base: nat)
    requires base == 0 || IsBase(base)
    ensures var p := Prefix(s, base);
            var e := RunEnd(s, p.start, p.base);
            Result(s, base) == IsoResult(s, base) <==>
            Value(s[p.start..e], p.base) <= UINT_MAX && (e == p.start ==> !SkippedHex(s, base))
  {
    hide RunEnd, Prefix;
    var p := Prefix(s, base);
    assert s[p.start..p.start] == [];
  }

  /** Both exceptions occur. */
  lemma IsoExceptions()
    ensures Result("0x", 0) == (0, 0) && IsoResult("0x", 0) == (0, 1)
    ensures var s := "10000000000000000"; Result(s, 16) == (UINT_MAX, 0) && IsoResult(s, 16) == (UINT_MAX, 17)
  {
    assert SkipSpace("0x", 0) == 0;
    var s := "10000000000000000";
    assert SkipSpace(s, 0) == 0 && Prefix(s, 16) == Numeral(false, 16, 0);
    SeventeenDigits(s);
  }

  lemma SeventeenDigits(s: string)
    requires s == "10000000000000000"
    ensures RunEnd(s, 0, 16) == 17 && Value(s[0..17], 16) == WORD
  {
    PowersReach();
    AllDigits(s, 0);
    assert s[0..17] == s;
    ShiftedOne(s, 17);
    assert s[..17] == s;
  }

  lemma {:induction false} AllDigits(s: string, i: nat)
    requires i <= |s| && forall k | 0 <= k < |s| :: DigitOf(s[k]) < 16
    ensures RunEnd(s, i, 16) == |s|
    decreases |s| - i
  {
    if i < |s| {
      AllDigits(s, i + 1);
    }
  }

  /** A one and k - 1 zeros. */
  lemma {:induction false} ShiftedOne(s: string, k: nat)
    requires 1 <= k <= |s| && s[0] == '1' && forall j | 1 <= j < k :: s[j] == '0'
    ensures Value(s[..k], 16) == Power(16, k - 1)
    decreases k
  {
    assert s[..k][..k - 1] == s[..k - 1];
    if k > 1 {
      ShiftedOne(s, k - 1);
    }
  }

  /** The test against cutoff and cutlim: will one more digit overflow? */
  lemma Cutoff(acc: nat, i: nat, b: nat)
    requires b > 0 && i < b && acc <= UINT_MAX
    ensures acc > UINT_MAX / b || (acc == UINT_MAX / b && i > UINT_MAX % b) <==> acc * b + i > UINT_MAX
  {
    var q := UINT_MAX / b;
    assert q * b + UINT_MAX % b == UINT_MAX;
    MulOrder(acc, q, b);
    MulOrder(q, acc, b);
  }

  /** One more digit of a run. */
  lemma OneDigit(s: string, start: nat, end: nat, e: nat, b: nat)
    requires start <= end < e <= |s| && b >= 1
    ensures Value(s[start..end + 1], b) == Value(s[start..end], b) * b + DigitOf(CharAt(s, end))
    ensures Value(s[start..end + 1], b) <= Value(s[start..e], b)
  {
    var run, all := s[start..end + 1], s[start..e];
    assert run[..|run| - 1] == s[start..end];
    assert all[..|run|] == run;
    ValueGrows(all, |run|, b);
  }

  /** The scanning loop. */
  method Scan(s: string, start: nat, b: nat) returns (acc: nat, any: bool, end: nat)
    requires start <= |s| && IsBase(b)
    ensures var e := RunEnd(s, start, b);
            var v := Value(s[start..e], b);
            if e == start then acc == 0 && !any
            else if v > UINT_MAX then acc == UINT_MAX && !any
            else acc == v && any && end == e
  {
    assert Value(s[start..start], b) == 0;
    hide Value, DigitOf;
    var cutoff := UINT_MAX / b;
    var cutlim := UINT_MAX % b;
    acc, any := 0, false;
    end := start;
    ghost var e := RunEnd(s, start, b);
    while true
      invariant start <= end <= e && acc == Value(s[start..end], b) && acc <= UINT_MAX
      invariant any <==> end > start
      decreases e - end
    {
      var i := DigitOf(CharAt(s, end));
      if i >= b {
        break;
      }
      Cutoff(acc, i, b);
      OneDigit(s, start, end, e, b);
      if acc > cutoff || (acc == cutoff && i > cutlim) {
        acc, any := UINT_MAX, false;
        break;
      }
      any := true;
      acc := acc * b;
      acc := acc + i;
      end := end + 1;
    }
  }

  /** White space, sign and base prefix. */
  method ReadPrefix(nptr: string, base0: nat) returns (neg: bool, base: nat, s: nat)
    requires base0 == 0 || IsBase(base0)
    ensures Numeral(neg, base, s) == Prefix(nptr, base0)
  {
    s := 0;
    while IsSpace(CharAt(nptr, s))
      invariant s <= |nptr| && SkipSpace(nptr, 0) == SkipSpace(nptr, s)
      decreases |nptr| - s
    {
      s := s + 1;
    }
    neg, base := false, base0;
    if CharAt(nptr, s) == '-' {
      neg := true;
      s := s + 1;
    } else if CharAt(nptr, s) == '+' {
      s := s + 1;
    }
    if (base == 0 || base == 16) && CharAt(nptr, s) == '0' && (CharAt(nptr, s + 1) == 'x' || CharAt(nptr, s + 1) == 'X') {
      s := s + 2;
      base := 16;
    }
    if base == 0 {
      base := if CharAt(nptr, s) == '0' then 8 else 10;
    }
  }

  /** bmk_strtoul: halts on a base that is none. */
  method Strtoul(nptr: string, base0: int) returns (halted: bool, acc: nat, end: nat)
    ensures halted <==> base0 != 0 && (base0 < 2 || base0 > 36)
    ensures !halted ==> (acc, end) == Result(nptr, base0)
  {
    hide Value, RunEnd, Prefix;
    halted, acc, end := false, 0, 0;
    if base0 != 0 && (base0 < 2 || base0 > 36) {
      halted := true;
      return;
    }
    var neg, base, s := ReadPrefix(nptr, base0);
    var any, stop;
    acc, any, stop := Scan(nptr, s, base);
    if neg && any {
      acc := (WORD - acc) % WORD;
    }
    end := if any then stop else 0;
  }
}
