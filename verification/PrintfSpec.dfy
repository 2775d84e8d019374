/** What kprintf of lib/libbmk_core/subr_prf.c writes for a format and its arguments. */
module PrintfSpec {
  import opened Numerals
  import opened Strtoul
  import opened Texts

  /** A variadic argument: an integer or pointer as a 64-bit word, or a string. An argument
      that is missing or of the other kind reads as 0. */
  datatype Arg = Word(v: nat) | Text(s: string)

  function WordArg(args: seq<Arg>): (v: nat)
    ensures v < WORD
  {
    if args != [] && args[0].Word? then args[0].v % WORD else 0
  }

  function TextArg(args: seq<Arg>): string
  {
    if args != [] && args[0].Text? then UpToNul(args[0].s) else "(null)"
  }

  function UpToNul(s: string): (r: string)
    ensures |r| <= |s|
  {
    if s == [] || s[0] == '\0' then [] else [s[0]] + UpToNul(s[1..])
  }

  function Rest(args: seq<Arg>): seq<Arg>
  {
    if args == [] then [] else args[1..]
  }

  /** The low bits of a word as a signed number. */
  function Signed(v: nat, range: nat): int
    requires range > 0
  {
    var w := v % range;
    if w < range / 2 then w else w - range
  }

  /** The flags, width, precision and sign of a conversion; no sign is a NUL. */
  datatype Spec = Spec(
    alt: bool, hexprefix: bool, ladjust: bool, zeropad: bool, wide: bool, short: bool, width: int, prec: int, sign: char)

  const PLAIN: Spec := Spec(false, false, false, false, false, false, 0, -1, '\0')

  /** SARG */
  function SArg(spec: Spec, v: nat): int
  {
    if spec.wide then Signed(v, WORD) else if spec.short then Signed(v, 0x1_0000) else Signed(v, 0x1_0000_0000)
  }

  /** UARG: a short argument is taken as an int, sign and all. */
  function UArg(spec: Spec, v: nat): (u: nat)
    ensures u < WORD
  {
    if spec.wide then v % WORD
    else if spec.short then Signed(v, 0x1_0000_0000) % WORD
    else v % 0x1_0000_0000
  }

  predicate IsDigit(c: char) { '0' <= c <= '9' }

  /** A decimal number in the format: its value, continuing from n, and its end. */
  function ReadNumber(fmt: string, i: nat, n: nat): (r: (nat, nat))
    requires i <= |fmt|
    ensures i <= r.1 <= |fmt| && (IsDigit(CharAt(fmt, i)) ==> i < r.1)
    decreases |fmt| - i
  {
    if IsDigit(CharAt(fmt, i)) then ReadNumber(fmt, i + 1, 10 * n + (fmt[i] as nat - '0' as nat)) else (n, i)
  }

  /** The state of the flag loop: the character looked at is at `at`. */
  datatype Scan = Scan(spec: Spec, at: nat, args: seq<Arg>)

  predicate IsFlag(c: char)
  {
    || c == ' ' || c == '#' || c == '*' || c == '-' || c == '+' || c == '.' || IsDigit(c)
    || c == 'h' || c == 'j' || c == 'l' || c == 'q' || c == 't' || c == 'z'
  }

  /** One turn of the flag loop. */
  function Turn(fmt: string, s: Scan): (r: Scan)
    requires s.at < |fmt| && IsFlag(fmt[s.at])
    ensures s.at < r.at <= |fmt|
  {
    var c := fmt[s.at];
    var spec := s.spec;
    var next := s.at + 1;
    if c == ' ' then Scan(if spec.sign == '\0' then spec.(sign := ' ') else spec, next, s.args)
    else if c == '#' then Scan(spec.(alt := true), next, s.args)
    else if c == '*' then
      var w := Signed(WordArg(s.args), 0x1_0000_0000);
      Scan(if w >= 0 then spec.(width := w) else spec.(width := -w, ladjust := true), next, Rest(s.args))
    else if c == '-' then Scan(spec.(ladjust := true), next, s.args)
    else if c == '+' then Scan(spec.(sign := '+'), next, s.args)
    else if c == '.' then
      if CharAt(fmt, next) == '*' then
        var p := Signed(WordArg(s.args), 0x1_0000_0000);
        Scan(spec.(prec := if p < 0 then -1 else p), next + 1, Rest(s.args))
      else
        var (n, j) := ReadNumber(fmt, next, 0);
        Scan(spec.(prec := n), j, s.args)
    else if c == '0' then Scan(spec.(zeropad := true), next, s.args)
    else if IsDigit(c) then
      var (n, j) := ReadNumber(fmt, s.at, 0);
      Scan(spec.(width := n), j, s.args)
    else if c == 'h' then Scan(spec.(short := true), next, s.args)
    else if c == 'l' && CharAt(fmt, next) == 'l' then Scan(spec.(wide := true), next + 1, s.args)
    else Scan(spec.(wide := true), next, s.args)
  }

  /** The flag loop: on to the conversion character. */
  function ReadSpec(fmt: string, s: Scan): (r: Scan)
    requires s.at <= |fmt|
    ensures s.at <= r.at <= |fmt| && !IsFlag(CharAt(fmt, r.at))
    decreases |fmt| - s.at
  {
    if IsFlag(CharAt(fmt, s.at)) then ReadSpec(fmt, Turn(fmt, s)) else s
  }

  lemma OneTurn(fmt: string, s: Scan)
    requires s.at < |fmt| && IsFlag(fmt[s.at])
    ensures ReadSpec(fmt, s) == ReadSpec(fmt, Turn(fmt, s))
  {
    hide Turn, IsFlag;
  }

  lemma SpecEnds(fmt: string, s: Scan)
    requires s.at <= |fmt| && !IsFlag(CharAt(fmt, s.at))
    ensures ReadSpec(fmt, s) == s
  {
  }

  // ---- Conversions ----

  /** The digits of a number: none for a zero of precision zero; an octal in alternate form
      starts with a zero. */
  function NumberText(u: nat, base: nat, upper: bool, alt: bool, prec: int): string
    requires 2 <= base <= 16
  {
    if u == 0 && prec == 0 then ""
    else if base == 8 && alt && Digits(u, 8, upper)[0] != '0' then "0" + Digits(u, 8, upper)
    else Digits(u, base, upper)
  }

  /** The text of a conversion before padding, what is left of its flags, its minimal number
      of digits, and the letter of a hexadecimal prefix. */
  datatype Field = Field(spec: Spec, text: string, dprec: int, ch: char)

  function NumberField(spec: Spec, u: nat, base: nat, ch: char): Field
    requires 2 <= base <= 16
  {
    Field(if spec.prec >= 0 then spec.(zeropad := false) else spec,
          NumberText(u, base, ch == 'X', spec.alt, spec.prec), spec.prec, ch)
  }

  function UnsignedField(spec: Spec, args: seq<Arg>, base: nat, ch: char): Field
    requires 2 <= base <= 16
  {
    NumberField(spec.(sign := '\0'), UArg(spec, WordArg(args)), base, ch)
  }

  predicate IsNumeric(ch: char)
  {
    || ch == 'D' || ch == 'd' || ch == 'i' || ch == 'O' || ch == 'o' || ch == 'p' || ch == 'U' || ch == 'u'
    || ch == 'X' || ch == 'x'
  }

  predicate TakesArg(ch: char)
  {
    IsNumeric(ch) || ch == 'c' || ch == 's' || ch == 'n'
  }

  /** The switch on the conversion character. */
  function Convert(spec: Spec, ch: char, args: seq<Arg>): Field
  {
    match ch
    case 'c' => Field(spec.(sign := '\0'), [(WordArg(args) % 256) as char], 0, ch)
    case 'D' => SignedField(spec.(wide := true), args, ch)
    case 'd' => SignedField(spec, args, ch)
    case 'i' => SignedField(spec, args, ch)
    case 'O' => UnsignedField(spec.(wide := true), args, 8, ch)
    case 'o' => UnsignedField(spec, args, 8, ch)
    case 'p' => NumberField(spec.(sign := '\0', hexprefix := true), WordArg(args), 16, 'x')
    case 's' =>
      var t := TextArg(args);
      Field(spec.(sign := '\0'), if 0 <= spec.prec < |t| then t[..spec.prec] else t, 0, ch)
    case 'U' => UnsignedField(spec.(wide := true), args, 10, ch)
    case 'u' => UnsignedField(spec, args, 10, ch)
    case 'X' => HexField(spec, args, ch)
    case 'x' => HexField(spec, args, ch)
    case _ => Field(spec.(sign := '\0'), [ch], 0, ch)
  }

  function SignedField(spec: Spec, args: seq<Arg>, ch: char): Field
  {
    var v := SArg(spec, WordArg(args));
    if v < 0 then NumberField(spec.(sign := '-'), -v, 10, ch) else NumberField(spec, v, 10, ch)
  }

  function HexField(spec: Spec, args: seq<Arg>, ch: char): Field
  {
    var u := UArg(spec, WordArg(args));
    NumberField(spec.(sign := '\0', hexprefix := spec.hexprefix || (spec.alt && u != 0)), u, 16, ch)
  }

  // ---- Padding ----

  function Rep(c: char, n: int): (s: string)
    ensures |s| == if n < 0 then 0 else n
  {
    if n <= 0 then [] else [c] + Rep(c, n - 1)
  }

  /** The sign or hexadecimal prefix. */
  function Lead(f: Field): string
  {
    if f.spec.sign != '\0' then [f.spec.sign] else if f.spec.hexprefix then ['0', f.ch] else []
  }

  /** realsz */
  function RealSize(f: Field): int
  {
    (if f.dprec > |f.text| then f.dprec else |f.text|) + |Lead(f)|
  }

  /** What comes before the digits or text: blanks, the prefix, zeros. */
  function Head(f: Field): string
  {
    var pad := f.spec.width - RealSize(f);
    (if !f.spec.ladjust && !f.spec.zeropad then Rep(' ', pad) else []) +
    Lead(f) +
    (if !f.spec.ladjust && f.spec.zeropad then Rep('0', pad) else [])
  }

  /** The text, filled up with zeros to its precision, and blanks after it. */
  function Tail(f: Field): string
  {
    Rep('0', f.dprec - |f.text|) + f.text + (if f.spec.ladjust then Rep(' ', f.spec.width - RealSize(f)) else [])
  }

  function Padded(f: Field): string
  {
    Head(f) + Tail(f)
  }

  /** kprintf adds to its result the larger of the width and the real size: that is what it
      writes. */
  lemma PaddedLength(f: Field)
    ensures |Padded(f)| == if f.spec.width > RealSize(f) then f.spec.width else RealSize(f)
  {
    hide Rep;
  }

  /** The digits printed for a number, zeros for the precision included. */
  function PrintedDigits(f: Field): string
  {
    Rep('0', f.dprec - |f.text|) + f.text
  }

  lemma {:induction false} LeadingZeros(n: int, s: string, b: nat)
    ensures Value(Rep('0', n) + s, b) == Value(s, b)
    decreases if n < 0 then 0 else n
  {
    if n <= 0 {
      assert Rep('0', n) + s == s;
    } else {
      LeadingZeros(n - 1, s, b);
      ValueLeadingZero(Rep('0', n - 1) + s, b);
      assert Rep('0', n) + s == "0" + (Rep('0', n - 1) + s);
    }
  }

  /** Whatever the flags, the digits of a number have its value, and there are at least as
      many as the precision asks for. */
  lemma NumberMeaning(spec: Spec, u: nat, base: nat, ch: char)
    requires 2 <= base <= 16
    ensures var f := NumberField(spec, u, base, ch);
            Value(PrintedDigits(f), base) == u && |PrintedDigits(f)| >= spec.prec
  {
    var f := NumberField(spec, u, base, ch);
    LeadingZeros(f.dprec - |f.text|, f.text, base);
    ValueOfDigits(u, base, ch == 'X');
    hide Digits, Rep;
    ValueLeadingZero(Digits(u, base, ch == 'X'), base);
    assert u == 0 ==> Value("", base) == 0;
  }

  /** The capital letters D, O and U stand for a long argument. */
  function Lengthened(spec: Spec, ch: char): Spec
  {
    if ch == 'D' || ch == 'O' || ch == 'U' then spec.(wide := true) else spec
  }

  /** A signed conversion shows the sign and the magnitude of its argument. */
  lemma SignedMeaning(spec: Spec, args: seq<Arg>, ch: char)
    requires ch == 'd' || ch == 'D' || ch == 'i'
    ensures var f, v := Convert(spec, ch, args), SArg(Lengthened(spec, ch), WordArg(args));
            && Value(PrintedDigits(f), 10) == (if v < 0 then -v else v)
            && f.spec.sign == if v < 0 then '-' else spec.sign
  {
    var s := Lengthened(spec, ch);
    var v := SArg(s, WordArg(args));
    hide SArg, WordArg, PrintedDigits;
    if v < 0 {
      NumberMeaning(s.(sign := '-'), -v, 10, ch);
    } else {
      NumberMeaning(s, v, 10, ch);
    }
  }

  function BaseOf(ch: char): nat { if ch == 'o' || ch == 'O' then 8 else if ch == 'x' || ch == 'X' then 16 else 10 }

  predicate IsUnsigned(ch: char) { ch == 'o' || ch == 'O' || ch == 'u' || ch == 'U' || ch == 'x' || ch == 'X' }

  /** The argument as section 7.21.6.1 of ISO C11 wants it: converted to the type of the length,
      an unsigned short for h. */
  function IsoUArg(spec: Spec, v: nat): nat
  {
    if spec.wide then v % WORD else if spec.short then v % 0x1_0000 else v % 0x1_0000_0000
  }

  /** The code takes a short argument as an int: right exactly for an int that is a short. */
  predicate FitsShort(spec: Spec, v: nat)
  {
    spec.wide || !spec.short || v % 0x1_0000_0000 < 0x1_0000
  }

  lemma ShortArg(spec: Spec, v: nat)
    ensures UArg(spec, v) == IsoUArg(spec, v) <==> FitsShort(spec, v)
  {
    if !spec.wide && spec.short {
      ShortOfInt(v);
    }
  }

  lemma ShortOfInt(v: nat)
    ensures v % 0x1_0000 == v % 0x1_0000_0000 % 0x1_0000
    ensures var w := v % 0x1_0000_0000;
            Signed(v, 0x1_0000_0000) % WORD == if w < 0x8000_0000 then w else w + (WORD - 0x1_0000_0000)
  {
  }

  /** An unsigned conversion shows its argument, in its base and without a sign, with a prefix
      exactly for a hexadecimal number other than 0 in alternate form. It shows what ISO C asks
      for exactly when an argument said to be short is one. */
  lemma UnsignedMeaning(spec: Spec, args: seq<Arg>, ch: char)
    requires IsUnsigned(ch) && !spec.hexprefix
    ensures var f, v := Convert(spec, ch, args), WordArg(args);
            var u := UArg(Lengthened(spec, ch), v);
            && Value(PrintedDigits(f), BaseOf(ch)) == u
            && Lead(f) == (if BaseOf(ch) == 16 && spec.alt && u != 0 then ['0', ch] else [])
            && (Value(PrintedDigits(f), BaseOf(ch)) == IsoUArg(Lengthened(spec, ch), v) <==> FitsShort(Lengthened(spec, ch), v))
  {
    hide UArg, IsoUArg, FitsShort, WordArg, PrintedDigits, Value;
    var v := WordArg(args);
    var u := UArg(Lengthened(spec, ch), v);
    ShortArg(Lengthened(spec, ch), v);
    NumberMeaning(UnsignedFlags(spec, args, ch), u, BaseOf(ch), ch);
    UnsignedIs(spec, args, ch);
    hide Convert;
  }

  function UnsignedFlags(spec: Spec, args: seq<Arg>, ch: char): Spec
  {
    Lengthened(spec, ch).(sign := '\0',
                          hexprefix := spec.hexprefix || (BaseOf(ch) == 16 && spec.alt && UArg(spec, WordArg(args)) != 0))
  }

  lemma UnsignedIs(spec: Spec, args: seq<Arg>, ch: char)
    requires IsUnsigned(ch)
    ensures Convert(spec, ch, args) ==
            NumberField(UnsignedFlags(spec, args, ch), UArg(Lengthened(spec, ch), WordArg(args)), BaseOf(ch), ch)
  {
    hide UArg, WordArg, NumberField;
  }

  /** The alternate form of an octal starts with a zero, except for a zero of precision zero. */
  lemma AlternateOctal(spec: Spec, args: seq<Arg>, ch: char)
    requires (ch == 'o' || ch == 'O') && spec.alt
    ensures var digits := PrintedDigits(Convert(spec, ch, args));
            digits != "" && digits[0] == '0' <==> !(UArg(Lengthened(spec, ch), WordArg(args)) == 0 && spec.prec == 0)
  {
    hide UArg, WordArg, PrintedDigits, NumberField, Convert;
    UnsignedIs(spec, args, ch);
    OctalDigits(UnsignedFlags(spec, args, ch), UArg(Lengthened(spec, ch), WordArg(args)), ch);
  }

  lemma OctalDigits(spec: Spec, u: nat, ch: char)
    requires spec.alt
    ensures var digits := PrintedDigits(NumberField(spec, u, 8, ch));
            digits != "" && digits[0] == '0' <==> !(u == 0 && spec.prec == 0)
  {
    hide Digits;
    ZeroFirst(u, spec.prec, ch == 'X');
    var text := NumberText(u, 8, ch == 'X', true, spec.prec);
    hide NumberText;
    ZerosThen(spec.prec - |text|, text);
  }

  lemma ZeroFirst(u: nat, prec: int, upper: bool)
    ensures var text := NumberText(u, 8, upper, true, prec);
            if u == 0 && prec == 0 then text == "" else text != "" && text[0] == '0'
  {
    hide Digits;
  }

  lemma ZerosThen(n: int, s: string)
    ensures n > 0 ==> Rep('0', n) + s != "" && (Rep('0', n) + s)[0] == '0'
    ensures n <= 0 ==> Rep('0', n) + s == s
  {
  }

  // ---- Whole formats ----

  /** What a format yields from position i on. */
  function Render(fmt: string, i: nat, args: seq<Arg>): string
    requires i <= |fmt|
    decreases |fmt| - i
  {
    var c := CharAt(fmt, i);
    if c == '\0' then []
    else if c != '%' then [c] + Render(fmt, i + 1, args)
    else
      var s := ReadSpec(fmt, Scan(PLAIN, i + 1, args));
      var ch := CharAt(fmt, s.at);
      if ch == '\0' then []
      else
        var rest := if TakesArg(ch) then Rest(s.args) else s.args;
        (if ch == 'n' then [] else Padded(Convert(s.spec, ch, s.args))) + Render(fmt, s.at + 1, rest)
  }
}
