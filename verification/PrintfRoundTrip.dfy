/** bmk_strtoul reads back what kprintf writes. */
module PrintfRoundTrip {
  import opened Numerals
  import opened Strtoul
  import opened PrintfSpec

  // ---- Reading ----

  /** A run of digits up to the end of the string. */
  lemma {:induction false} RunToEnd(s: string, i: nat, b: nat)
    requires i <= |s| && b <= 36 && forall k | i <= k < |s| :: DigitOf(s[k]) < b
    ensures RunEnd(s, i, b) == |s|
    decreases |s| - i
  {
    if i < |s| {
      RunToEnd(s, i + 1, b);
    }
  }

  /** A prefix and the shortest numeral of a word are read as the word, or as its complement
      after a minus sign. */
  lemma ReadBack(pre: string, n: nat, b: nat, base: nat, neg: bool)
    requires n < WORD && b in {8, 10, 16} && (base == 0 || IsBase(base))
    requires Prefix(pre + Digits(n, b, false), base) == Numeral(neg, b, |pre|)
    ensures Result(pre + Digits(n, b, false), base) ==
            (if neg then (WORD - n) % WORD else n, |pre + Digits(n, b, false)|)
  {
    var ds := Digits(n, b, false);
    var s := pre + ds;
    ValueOfDigits(n, b, false);
    hide Digits, Value, DigitOf, Prefix;
    forall k | |pre| <= k < |s| ensures DigitOf(s[k]) < b {
      assert s[k] == ds[k - |pre|];
    }
    RunToEnd(s, |pre|, b);
    assert s[|pre|..|s|] == ds;
  }

  /** The first characters of a numeral are no white space, no sign and no prefix. */
  lemma FirstCharacters(n: nat, b: nat)
    requires b in {8, 10, 16}
    ensures var ds := Digits(n, b, false);
            && DigitOf(ds[0]) < b && !IsSpace(ds[0]) && ds[0] != '-' && ds[0] != '+' && (ds[0] == '0' <==> n == 0)
            && (n == 0 ==> ds == "0")
            && (|ds| > 1 ==> ds[1] != 'x' && ds[1] != 'X')
  {
    ValueOfDigits(n, b, false);
    NoLeadingZero(n, b, false);
    var ds := Digits(n, b, false);
    assert DigitOf(ds[0]) < 16;
    assert |ds| > 1 ==> DigitOf(ds[1]) < 16;
  }

  // ---- Writing ----

  lemma PlainField(f: Field)
    requires f.spec.width == 0 && f.dprec <= 0 && !f.spec.ladjust
    ensures Padded(f) == Lead(f) + f.text
  {
  }

  /** A format of one conversion and nothing else. */
  lemma OneConversion(fmt: string, args: seq<Arg>, s: Scan, text: string)
    requires fmt != "" && fmt[0] == '%' && ReadSpec(fmt, Scan(PLAIN, 1, args)) == s && s.at == |fmt| - 1
    requires IsNumeric(fmt[s.at]) && Unpadded(Convert(s.spec, fmt[s.at], s.args), text)
    ensures Render(fmt, 0, args) == text
  {
    hide Convert, ReadSpec, Padded, Lead;
    var f := Convert(s.spec, fmt[s.at], s.args);
    PlainField(f);
    assert Render(fmt, |fmt|, if TakesArg(fmt[s.at]) then Rest(s.args) else s.args) == [];
  }

  lemma ScanConversion(fmt: string, s: Scan)
    requires s.at < |fmt| && IsNumeric(fmt[s.at])
    ensures ReadSpec(fmt, s) == s
  {
  }

  lemma ScanLong(fmt: string, s: Scan)
    requires s.at + 1 < |fmt| && fmt[s.at] == 'l' && IsNumeric(fmt[s.at + 1])
    ensures ReadSpec(fmt, s) == Scan(s.spec.(wide := true), s.at + 1, s.args)
  {
    var s' := Scan(s.spec.(wide := true), s.at + 1, s.args);
    assert IsFlag('l') && Turn(fmt, s) == s';
    ScanConversion(fmt, s');
  }

  lemma ScanAltLong(fmt: string, s: Scan)
    requires s.at + 2 < |fmt| && fmt[s.at] == '#' && fmt[s.at + 1] == 'l' && IsNumeric(fmt[s.at + 2])
    ensures ReadSpec(fmt, s) == Scan(s.spec.(alt := true, wide := true), s.at + 2, s.args)
  {
    var s' := Scan(s.spec.(alt := true), s.at + 1, s.args);
    assert IsFlag('#') && Turn(fmt, s) == s';
    ScanLong(fmt, s');
  }

  predicate Plain(spec: Spec)
  {
    spec.width == 0 && !spec.ladjust && spec.prec == -1 && spec.sign == '\0' && !spec.hexprefix
  }

  /** A conversion with nothing to pad. */
  ghost predicate Unpadded(f: Field, text: string)
  {
    f.spec.width == 0 && !f.spec.ladjust && f.dprec <= 0 && Lead(f) + f.text == text
  }

  lemma LongArg(spec: Spec, n: nat)
    requires spec.wide && n < WORD
    ensures WordArg([Word(n)]) == n && UArg(spec, n) == n
  {
  }

  lemma DecimalText(spec: Spec, n: nat)
    requires Plain(spec) && spec.wide && n < WORD
    ensures Unpadded(Convert(spec, 'u', [Word(n)]), Digits(n, 10, false))
  {
    LongArg(spec, n);
    hide Digits, WordArg, UArg;
  }

  lemma OctalText(spec: Spec, n: nat)
    requires Plain(spec) && spec.wide && spec.alt && n < WORD
    ensures Unpadded(Convert(spec, 'o', [Word(n)]), (if n != 0 then "0" else "") + Digits(n, 8, false))
  {
    LongArg(spec, n);
    NoLeadingZero(n, 8, false);
    hide Digits, WordArg, UArg;
  }

  lemma HexText(spec: Spec, n: nat)
    requires Plain(spec) && spec.wide && spec.alt && n < WORD
    ensures Unpadded(Convert(spec, 'x', [Word(n)]), (if n != 0 then "0x" else "") + Digits(n, 16, false))
  {
    LongArg(spec, n);
    hide Digits, WordArg, UArg;
  }

  lemma PointerText(n: nat)
    requires n < WORD
    ensures Unpadded(Convert(PLAIN, 'p', [Word(n)]), "0x" + Digits(n, 16, false))
  {
    hide Digits, WordArg;
    OneWord(n);
    PointerField([Word(n)]);
    hide Convert;
  }

  lemma OneWord(n: nat)
    requires n < WORD
    ensures WordArg([Word(n)]) == n
  {
  }

  lemma PointerField(args: seq<Arg>)
    ensures Convert(PLAIN, 'p', args) ==
            Field(PLAIN.(hexprefix := true), NumberText(WordArg(args), 16, false, false, -1), -1, 'x')
  {
  }

  lemma SignedText(spec: Spec, n: nat)
    requires Plain(spec) && spec.wide && n < WORD
    ensures Unpadded(Convert(spec, 'd', [Word(n)]),
                     if n < WORD / 2 then Digits(n, 10, false) else "-" + Digits(WORD - n, 10, false))
  {
    assert WordArg([Word(n)]) == n && SArg(spec, n) == if n < WORD / 2 then n else n - WORD;
    hide Digits, WordArg, SArg;
  }

  /** %lu, %#lo, %#lx, %p and %ld of every word. */
  lemma RenderWord(n: nat)
    requires n < WORD
    ensures Render("%lu", 0, [Word(n)]) == Digits(n, 10, false)
    ensures Render("%#lo", 0, [Word(n)]) == (if n != 0 then "0" else "") + Digits(n, 8, false)
    ensures Render("%#lx", 0, [Word(n)]) == (if n != 0 then "0x" else "") + Digits(n, 16, false)
    ensures Render("%p", 0, [Word(n)]) == "0x" + Digits(n, 16, false)
    ensures Render("%ld", 0, [Word(n)]) ==
            if n < WORD / 2 then Digits(n, 10, false) else "-" + Digits(WORD - n, 10, false)
  {
    var args := [Word(n)];
    var s, long, alt := Scan(PLAIN, 1, args), PLAIN.(wide := true), PLAIN.(wide := true, alt := true);
    hide Digits, Convert, ReadSpec, Render, Unpadded;
    ScanLong("%lu", s);
    DecimalText(long, n);
    OneConversion("%lu", args, Scan(long, 2, args), Digits(n, 10, false));
    ScanAltLong("%#lo", s);
    OctalText(alt, n);
    OneConversion("%#lo", args, Scan(alt, 3, args), (if n != 0 then "0" else "") + Digits(n, 8, false));
    ScanAltLong("%#lx", s);
    HexText(alt, n);
    OneConversion("%#lx", args, Scan(alt, 3, args), (if n != 0 then "0x" else "") + Digits(n, 16, false));
    ScanConversion("%p", s);
    PointerText(n);
    OneConversion("%p", args, s, "0x" + Digits(n, 16, false));
    ScanLong("%ld", s);
    SignedText(long, n);
    OneConversion("%ld", args, Scan(long, 2, args),
                  if n < WORD / 2 then Digits(n, 10, false) else "-" + Digits(WORD - n, 10, false));
  }

  // ---- Round trips ----

  /** The text is read as the word, to its last character. */
  ghost predicate ReadsAs(s: string, base: nat, n: nat)
    requires base == 0 || IsBase(base)
  {
    Result(s, base) == (n, |s|)
  }

  lemma ZeroText(base: nat)
    requires base == 0 || IsBase(base)
    ensures ReadsAs("0", base, 0)
  {
    var p := Prefix("0", base);
    assert SkipSpace("0", 0) == 0;
    assert p.start == 0 && !p.neg;
    RunToEnd("0", 0, p.base);
    assert "0"[0..1] == "0";
    assert "0"[..0] == "" && Value("", p.base) == 0;
    assert Value("0", p.base) == 0 * p.base + DigitOf('0');
  }

  lemma DecimalReads(n: nat, base: nat)
    requires n < WORD && base in {0, 10}
    ensures ReadsAs(Digits(n, 10, false), base, n)
  {
    FirstCharacters(n, 10);
    var ds := Digits(n, 10, false);
    assert "" + ds == ds;
    hide Digits, Result;
    if n == 0 {
      ZeroText(base);
    } else {
      ReadBack("", n, 10, base, false);
    }
  }

  lemma MinusReads(n: nat, base: nat)
    requires 0 < n < WORD && base in {0, 10}
    ensures ReadsAs("-" + Digits(n, 10, false), base, WORD - n)
  {
    MinusPrefixOf(n, base);
    Complement(n);
    hide Digits, Result, Prefix, IsBase;
    ReadBack("-", n, 10, base, true);
  }

  lemma Complement(n: nat)
    requires 0 < n < WORD
    ensures (WORD - n) % WORD == WORD - n
  {
  }

  lemma MinusPrefixOf(n: nat, base: nat)
    requires 0 < n && base in {0, 10}
    ensures Prefix("-" + Digits(n, 10, false), base) == Numeral(true, 10, 1)
  {
    FirstCharacters(n, 10);
    hide Digits;
    MinusPrefix(Digits(n, 10, false), base);
  }

  lemma MinusPrefix(ds: string, base: nat)
    requires ds != [] && ds[0] != '0' && base in {0, 10}
    ensures Prefix("-" + ds, base) == Numeral(true, 10, 1)
  {
    var s := "-" + ds;
    assert s[0] == '-' && s[1] == ds[0];
    assert SkipSpace(s, 0) == 0;
  }

  lemma OctalReads(n: nat, base: nat)
    requires n < WORD && base in {0, 8}
    ensures ReadsAs((if n != 0 then "0" else "") + Digits(n, 8, false), base, n)
  {
    FirstCharacters(n, 8);
    var ds := Digits(n, 8, false);
    hide Digits, Result;
    if n == 0 {
      assert "" + ds == "0";
      ZeroText(base);
    } else {
      LeadingZeroReads(ds, n, base);
    }
  }

  /** The extra zero of the octal form is a digit like the others. */
  lemma LeadingZeroReads(ds: string, n: nat, base: nat)
    requires 0 < n < WORD && base in {0, 8} && ds == Digits(n, 8, false)
    ensures ReadsAs("0" + ds, base, n)
  {
    FirstCharacters(n, 8);
    ValueOfDigits(n, 8, false);
    hide Digits, DigitOf;
    var s := "0" + ds;
    assert s[0] == '0' && s[1] == ds[0];
    assert SkipSpace(s, 0) == 0;
    assert DigitOf('0') == 0 by { ZeroDigit(); }
    assert DigitOf(ds[0]) < 8;
    LetterX();
    assert Prefix(s, base) == Numeral(false, 8, 0);
    RunToEnd(s, 0, 8);
    ValueLeadingZero(ds, 8);
    assert s[0..|s|] == s;
  }

  lemma ZeroDigit()
    ensures DigitOf('0') == 0
  {
  }

  lemma LetterX()
    ensures DigitOf('x') == 33 && DigitOf('X') == 33
  {
  }

  lemma HexReads(n: nat, base: nat)
    requires n < WORD && base in {0, 16}
    ensures ReadsAs("0x" + Digits(n, 16, false), base, n)
  {
    hide Digits, Result;
    var s := "0x" + Digits(n, 16, false);
    assert s[0] == '0' && s[1] == 'x';
    assert SkipSpace(s, 0) == 0;
    ReadBack("0x", n, 16, base, false);
  }

  /** The formats, and the base that matches each. */
  datatype Form = UnsignedLong | OctalLong | HexLong | Pointer | SignedLong

  function Fmt(f: Form): string
  {
    match f
    case UnsignedLong => "%lu"
    case OctalLong => "%#lo"
    case HexLong => "%#lx"
    case Pointer => "%p"
    case SignedLong => "%ld"
  }

  function BaseOf(f: Form): nat
  {
    match f
    case UnsignedLong => 10
    case OctalLong => 8
    case HexLong => 16
    case Pointer => 16
    case SignedLong => 10
  }

  /** The text of a word in each form. */
  function TextOf(f: Form, n: nat): string
    requires n < WORD
  {
    match f
    case UnsignedLong => Digits(n, 10, false)
    case OctalLong => (if n != 0 then "0" else "") + Digits(n, 8, false)
    case HexLong => (if n != 0 then "0x" else "") + Digits(n, 16, false)
    case Pointer => "0x" + Digits(n, 16, false)
    case SignedLong => if n < WORD / 2 then Digits(n, 10, false) else "-" + Digits(WORD - n, 10, false)
  }

  lemma RenderForm(f: Form, n: nat)
    requires n < WORD
    ensures Render(Fmt(f), 0, [Word(n)]) == TextOf(f, n)
  {
    hide Render, Digits;
    RenderWord(n);
  }

  lemma FormReads(f: Form, n: nat, base: nat)
    requires n < WORD && (base == 0 || base == BaseOf(f))
    ensures ReadsAs(TextOf(f, n), base, n)
  {
    hide Digits, ReadsAs;
    match f
    case UnsignedLong => DecimalReads(n, base);
    case OctalLong => OctalReads(n, base);
    case HexLong => AltHexReads(n, base);
    case Pointer => HexReads(n, base);
    case SignedLong =>
      if n < WORD / 2 {
        DecimalReads(n, base);
      } else {
        MinusReads(WORD - n, base);
      }
  }

  /** For every 64-bit word, bmk_strtoul in the matching base, or left to find the base,
      gives back the word that %lu, %#lo, %#lx, %p or %ld has written. */
  lemma RoundTrip(n: nat, f: Form, base: nat)
    requires n < WORD && (base == 0 || base == BaseOf(f))
    ensures ReadsAs(Render(Fmt(f), 0, [Word(n)]), base, n)
  {
    hide Render, Fmt, TextOf, ReadsAs;
    RenderForm(f, n);
    FormReads(f, n, base);
  }

  lemma AltHexReads(n: nat, base: nat)
    requires n < WORD && base in {0, 16}
    ensures ReadsAs((if n != 0 then "0x" else "") + Digits(n, 16, false), base, n)
  {
    FirstCharacters(n, 16);
    hide Digits, ReadsAs;
    if n == 0 {
      assert "" + Digits(n, 16, false) == "0";
      ZeroText(base);
    } else {
      HexReads(n, base);
    }
  }
}
