/** Conversion specifications of kprintf as data: writing one out and reading it back. */
module PrintfDirectives {
  import opened Numerals
  import opened Texts
  import opened PrintfSpec

  /** A field width or precision: absent, written out, or `*`. */
  datatype Amount = Absent | Fixed(n: nat) | FromArg

  datatype Length = Plain | Short | Long | LongLong | Max | Quad | Ptrdiff | Size

  /** A conversion as a programmer means it: flags in any order, repeated or not, width,
      precision, length and the conversion character. */
  datatype Directive = Directive(flags: string, width: Amount, prec: Amount, length: Length, ch: char)

  predicate IsFlagChar(c: char) { c == '#' || c == '-' || c == '+' || c == ' ' || c == '0' }

  /** A width of 0 would be read as a flag. */
  predicate DirectiveOk(d: Directive)
  {
    (forall c | c in d.flags :: IsFlagChar(c)) && d.width != Fixed(0) && !IsFlag(d.ch) && d.ch != '\0'
  }

  function AmountText(a: Amount): string
  {
    match a
    case Absent => ""
    case Fixed(n) => Digits(n, 10, false)
    case FromArg => "*"
  }

  function PrecText(a: Amount): string { if a.Absent? then "" else "." + AmountText(a) }

  function LengthText(l: Length): string
  {
    match l
    case Plain => ""
    case Short => "h"
    case Long => "l"
    case LongLong => "ll"
    case Max => "j"
    case Quad => "q"
    case Ptrdiff => "t"
    case Size => "z"
  }

  function DirectiveText(d: Directive): string
  {
    d.flags + (AmountText(d.width) + (PrecText(d.prec) + (LengthText(d.length) + [d.ch])))
  }

  /** An int argument. */
  function IntArg(args: seq<Arg>): int { Signed(WordArg(args), 0x1_0000_0000) }

  function ArgsAfter(a: Amount, args: seq<Arg>): seq<Arg> { if a.FromArg? then Rest(args) else args }

  function WidthOf(a: Amount, args: seq<Arg>): int
  {
    match a
    case Absent => 0
    case Fixed(n) => n
    case FromArg => if IntArg(args) < 0 then -IntArg(args) else IntArg(args)
  }

  function PrecOf(a: Amount, args: seq<Arg>): int
  {
    match a
    case Absent => -1
    case Fixed(n) => n
    case FromArg => if IntArg(args) < 0 then -1 else IntArg(args)
  }

  predicate IsWide(l: Length) { !l.Plain? && !l.Short? }

  /** What kprintf should make of it: a plus sign goes before a space; a negative width from an
      argument is a minus flag and a width; a negative precision is none. */
  function Meant(d: Directive, args: seq<Arg>): Spec
  {
    Spec('#' in d.flags, false, '-' in d.flags || (d.width.FromArg? && IntArg(args) < 0), '0' in d.flags,
         IsWide(d.length), d.length.Short?, WidthOf(d.width, args), PrecOf(d.prec, ArgsAfter(d.width, args)),
         if '+' in d.flags then '+' else if ' ' in d.flags then ' ' else '\0')
  }

  /** The arguments left for the conversion itself. */
  function ArgsLeft(d: Directive, args: seq<Arg>): seq<Arg> { ArgsAfter(d.prec, ArgsAfter(d.width, args)) }

  // ---- Numbers in the format ----

  lemma {:induction false} ReadDigits(fmt: string, i: nat, ds: string, k: nat)
    requires Here(fmt, i, ds) && k <= |ds| && forall m | 0 <= m < |ds| :: DigitOf(ds[m]) < 10
    ensures ReadNumber(fmt, i, 0) == ReadNumber(fmt, i + k, Value(ds[..k], 10))
    decreases k
  {
    if k > 0 {
      ReadDigits(fmt, i, ds, k - 1);
      var c := ds[k - 1];
      assert fmt[i + (k - 1)] == fmt[i..i + |ds|][k - 1] == c;
      assert ds[..k][..k - 1] == ds[..k - 1];
      assert IsDigit(c) && DigitOf(c) == c as nat - '0' as nat;
    }
  }

  lemma ReadDecimal(fmt: string, i: nat, n: nat)
    requires var ds := Digits(n, 10, false); Here(fmt, i, ds) && !IsDigit(CharAt(fmt, i + |ds|))
    ensures ReadNumber(fmt, i, 0) == (n, i + |Digits(n, 10, false)|)
  {
    var ds := Digits(n, 10, false);
    ValueOfDigits(n, 10, false);
    hide Digits;
    ReadDigits(fmt, i, ds, |ds|);
    assert ds[..|ds|] == ds;
  }

  // ---- Flags ----

  function WithFlag(spec: Spec, c: char): Spec
  {
    if c == '#' then spec.(alt := true)
    else if c == '-' then spec.(ladjust := true)
    else if c == '+' then spec.(sign := '+')
    else if c == ' ' then (if spec.sign == '\0' then spec.(sign := ' ') else spec)
    else spec.(zeropad := true)
  }

  function WithFlags(spec: Spec, flags: string): Spec
    decreases |flags|
  {
    if flags == "" then spec else WithFlags(WithFlag(spec, flags[0]), flags[1..])
  }

  function Flagged(spec: Spec, alt: bool, ladjust: bool, plus: bool, space: bool, zeropad: bool): Spec
  {
    spec.(alt := spec.alt || alt, ladjust := spec.ladjust || ladjust, zeropad := spec.zeropad || zeropad,
          sign := if plus then '+' else if spec.sign == '\0' && space then ' ' else spec.sign)
  }

  /** In whatever order they come. */
  lemma {:induction false} FlagsMean(spec: Spec, flags: string)
    requires forall c | c in flags :: IsFlagChar(c)
    ensures WithFlags(spec, flags) == Flagged(spec, '#' in flags, '-' in flags, '+' in flags, ' ' in flags, '0' in flags)
    decreases |flags|
  {
    hide WithFlag, Flagged, IsFlagChar;
    if flags == "" {
      NoFlags(spec);
    } else {
      var c, rest := flags[0], flags[1..];
      InCons(flags);
      FlagsMean(WithFlag(spec, c), rest);
      FlagFirst(spec, c, '#' in rest, '-' in rest, '+' in rest, ' ' in rest, '0' in rest);
    }
  }

  lemma InCons(flags: string)
    requires flags != ""
    ensures forall c :: c in flags <==> c == flags[0] || c in flags[1..]
  {
    assert flags == [flags[0]] + flags[1..];
  }

  lemma NoFlags(spec: Spec)
    ensures Flagged(spec, false, false, false, false, false) == spec
  {
  }

  lemma FlagFirst(spec: Spec, c: char, alt: bool, ladjust: bool, plus: bool, space: bool, zeropad: bool)
    requires IsFlagChar(c)
    ensures Flagged(WithFlag(spec, c), alt, ladjust, plus, space, zeropad) ==
            Flagged(spec, c == '#' || alt, c == '-' || ladjust, c == '+' || plus, c == ' ' || space, c == '0' || zeropad)
  {
  }

  lemma TurnFlag(fmt: string, s: Scan)
    requires s.at < |fmt| && IsFlagChar(fmt[s.at])
    ensures IsFlag(fmt[s.at]) && Turn(fmt, s) == Scan(WithFlag(s.spec, fmt[s.at]), s.at + 1, s.args)
  {
  }

  lemma {:induction false} ReadFlags(fmt: string, s: Scan, flags: string)
    requires Here(fmt, s.at, flags) && forall c | c in flags :: IsFlagChar(c)
    ensures ReadSpec(fmt, s) == ReadSpec(fmt, Scan(WithFlags(s.spec, flags), s.at + |flags|, s.args))
    decreases |flags|
  {
    hide ReadSpec, Turn, IsFlag, IsFlagChar, WithFlag, Here;
    if flags != "" {
      assert [flags[0]] + flags[1..] == flags;
      Split(fmt, s.at, [flags[0]], flags[1..]);
      FirstChar(fmt, s.at, [flags[0]]);
      TurnFlag(fmt, s);
      OneTurn(fmt, s);
      ReadFlags(fmt, Scan(WithFlag(s.spec, flags[0]), s.at + 1, s.args), flags[1..]);
    } else {
      HereBound(fmt, s.at, flags);
    }
  }

  lemma HereBound(fmt: string, i: nat, t: string)
    requires Here(fmt, i, t)
    ensures i + |t| <= |fmt|
  {
  }

  // ---- Width, precision and length ----

  function WithWidth(s: Scan, a: Amount): Scan
  {
    Scan(s.spec.(width := WidthOf(a, s.args), ladjust := s.spec.ladjust || (a.FromArg? && IntArg(s.args) < 0)),
         s.at + |AmountText(a)|, ArgsAfter(a, s.args))
  }

  lemma FirstDigit(n: nat)
    ensures Digits(n, 10, false) != "" && IsDigit(Digits(n, 10, false)[0]) && (n > 0 ==> Digits(n, 10, false)[0] != '0')
  {
    ValueOfDigits(n, 10, false);
    NoLeadingZero(n, 10, false);
    hide Digits;
    assert DigitOf(Digits(n, 10, false)[0]) < 10;
  }

  lemma TurnNumber(fmt: string, s: Scan)
    requires s.at < |fmt| && IsDigit(fmt[s.at]) && fmt[s.at] != '0'
    ensures IsFlag(fmt[s.at])
    ensures var (n, j) := ReadNumber(fmt, s.at, 0); Turn(fmt, s) == Scan(s.spec.(width := n), j, s.args)
  {
    hide ReadNumber;
  }

  lemma TurnStar(fmt: string, s: Scan)
    requires s.at < |fmt| && fmt[s.at] == '*'
    ensures IsFlag('*') && Turn(fmt, s) == WithWidth(s, FromArg)
  {
    hide Signed, WordArg;
  }

  lemma ReadWidth(fmt: string, s: Scan, a: Amount)
    requires s.spec.width == 0 && a != Fixed(0) && Here(fmt, s.at, AmountText(a)) && !IsDigit(CharAt(fmt, s.at + |AmountText(a)|))
    ensures WithWidth(s, a).at <= |fmt| && ReadSpec(fmt, s) == ReadSpec(fmt, WithWidth(s, a))
  {
    hide *;
    match a
    case Absent => NoWidth(fmt, s);
    case Fixed(n) =>
      WidthFixed(fmt, s, n);
      TurnNumber(fmt, s);
      OneTurn(fmt, s);
    case FromArg =>
      WidthStar(fmt, s);
      TurnStar(fmt, s);
      OneTurn(fmt, s);
  }

  lemma NoWidth(fmt: string, s: Scan)
    requires s.spec.width == 0 && Here(fmt, s.at, AmountText(Absent))
    ensures WithWidth(s, Absent) == s && s.at <= |fmt|
  {
  }

  lemma WidthFixed(fmt: string, s: Scan, n: nat)
    requires n > 0 && Here(fmt, s.at, AmountText(Fixed(n))) && !IsDigit(CharAt(fmt, s.at + |AmountText(Fixed(n))|))
    ensures s.at < |fmt| && IsDigit(fmt[s.at]) && fmt[s.at] != '0'
    ensures ReadNumber(fmt, s.at, 0) == (n, s.at + |AmountText(Fixed(n))|) && WithWidth(s, Fixed(n)).at <= |fmt|
    ensures WithWidth(s, Fixed(n)) == Scan(s.spec.(width := n), s.at + |AmountText(Fixed(n))|, s.args)
  {
    hide Digits, ReadNumber, IntArg, Here, CharAt;
    NumberHere(fmt, s.at, n);
  }

  /** A number written out in the format. */
  lemma NumberHere(fmt: string, i: nat, n: nat)
    requires var ds := Digits(n, 10, false); Here(fmt, i, ds) && !IsDigit(CharAt(fmt, i + |ds|))
    ensures i < |fmt| && IsDigit(fmt[i]) && CharAt(fmt, i) == fmt[i] && (n > 0 ==> fmt[i] != '0')
    ensures var j := i + |Digits(n, 10, false)|; j <= |fmt| && ReadNumber(fmt, i, 0) == (n, j)
  {
    hide Digits, ReadNumber, Here, CharAt, IsDigit;
    FirstDigit(n);
    FirstChar(fmt, i, Digits(n, 10, false));
    HereBound(fmt, i, Digits(n, 10, false));
    ReadDecimal(fmt, i, n);
  }

  lemma WidthStar(fmt: string, s: Scan)
    requires Here(fmt, s.at, AmountText(FromArg))
    ensures s.at < |fmt| && fmt[s.at] == '*' && WithWidth(s, FromArg).at <= |fmt|
  {
    FirstChar(fmt, s.at, "*");
  }

  function WithPrec(s: Scan, a: Amount): Scan
  {
    Scan(s.spec.(prec := PrecOf(a, s.args)), s.at + |PrecText(a)|, ArgsAfter(a, s.args))
  }

  lemma TurnPrec(fmt: string, s: Scan)
    requires s.at < |fmt| && fmt[s.at] == '.'
    ensures IsFlag('.')
    ensures CharAt(fmt, s.at + 1) != '*' ==>
              var (n, j) := ReadNumber(fmt, s.at + 1, 0); Turn(fmt, s) == Scan(s.spec.(prec := n), j, s.args)
    ensures CharAt(fmt, s.at + 1) == '*' ==>
              Turn(fmt, s) == Scan(s.spec.(prec := PrecOf(FromArg, s.args)), s.at + 2, Rest(s.args))
  {
    hide ReadNumber, Signed, WordArg;
  }

  lemma ReadPrec(fmt: string, s: Scan, a: Amount)
    requires s.spec.prec == -1 && Here(fmt, s.at, PrecText(a)) && !IsDigit(CharAt(fmt, s.at + |PrecText(a)|))
    ensures WithPrec(s, a).at <= |fmt| && ReadSpec(fmt, s) == ReadSpec(fmt, WithPrec(s, a)) && !IsDigit(CharAt(fmt, s.at))
  {
    hide *;
    if a.Absent? {
      NoPrec(fmt, s, a);
    } else {
      PrecHere(fmt, s, a);
      TurnPrec(fmt, s);
      OneTurn(fmt, s);
      if a.Fixed? {
        PrecFixed(fmt, s, a.n);
      } else {
        PrecStar(fmt, s);
      }
    }
  }

  lemma NoPrec(fmt: string, s: Scan, a: Amount)
    requires a.Absent? && s.spec.prec == -1 && Here(fmt, s.at, PrecText(a))
    ensures WithPrec(s, a) == s && s.at <= |fmt| && |PrecText(a)| == 0
  {
  }

  lemma PrecHere(fmt: string, s: Scan, a: Amount)
    requires !a.Absent? && Here(fmt, s.at, PrecText(a))
    ensures s.at < |fmt| && fmt[s.at] == '.' && !IsDigit(CharAt(fmt, s.at))
    ensures Here(fmt, s.at + 1, AmountText(a)) && s.at + 1 + |AmountText(a)| == s.at + |PrecText(a)| <= |fmt|
  {
    hide AmountText;
    Split(fmt, s.at, ".", AmountText(a));
    FirstChar(fmt, s.at, ".");
  }

  lemma PrecFixed(fmt: string, s: Scan, n: nat)
    requires Here(fmt, s.at + 1, AmountText(Fixed(n))) && !IsDigit(CharAt(fmt, s.at + |PrecText(Fixed(n))|))
    ensures s.at + 1 <= |fmt| && CharAt(fmt, s.at + 1) != '*' && s.at + |PrecText(Fixed(n))| <= |fmt|
    ensures ReadNumber(fmt, s.at + 1, 0) == (n, s.at + |PrecText(Fixed(n))|)
    ensures WithPrec(s, Fixed(n)) == Scan(s.spec.(prec := n), s.at + |PrecText(Fixed(n))|, s.args)
  {
    hide Digits, ReadNumber, Here, CharAt, WithPrec, PrecText;
    FixedPrec(s, n);
    NumberHere(fmt, s.at + 1, n);
  }

  lemma FixedPrec(s: Scan, n: nat)
    ensures |PrecText(Fixed(n))| == 1 + |Digits(n, 10, false)|
    ensures WithPrec(s, Fixed(n)) == Scan(s.spec.(prec := n), s.at + |PrecText(Fixed(n))|, s.args)
  {
    hide Digits;
  }

  lemma PrecStar(fmt: string, s: Scan)
    requires Here(fmt, s.at + 1, AmountText(FromArg))
    ensures CharAt(fmt, s.at + 1) == '*'
    ensures WithPrec(s, FromArg) == Scan(s.spec.(prec := PrecOf(FromArg, s.args)), s.at + 2, Rest(s.args))
  {
    hide IntArg;
    FirstChar(fmt, s.at + 1, "*");
  }

  function WithLength(s: Scan, l: Length): Scan
  {
    Scan(s.spec.(wide := IsWide(l), short := l.Short?), s.at + |LengthText(l)|, s.args)
  }

  lemma TurnLength(fmt: string, s: Scan, l: Length)
    requires !l.Plain? && !s.spec.wide && !s.spec.short
    requires Here(fmt, s.at, LengthText(l)) && CharAt(fmt, s.at + |LengthText(l)|) != 'l'
    ensures s.at < |fmt| && IsFlag(fmt[s.at]) && !IsDigit(fmt[s.at]) && Turn(fmt, s) == WithLength(s, l)
  {
    FirstChar(fmt, s.at, LengthText(l));
    if l.LongLong? {
      Split(fmt, s.at, "l", "l");
      FirstChar(fmt, s.at + 1, "l");
    }
  }

  /** The length and the conversion character, where the loop ends. */
  lemma ReadLength(fmt: string, s: Scan, l: Length, ch: char)
    requires !IsFlag(ch) && !s.spec.wide && !s.spec.short && Here(fmt, s.at, LengthText(l) + [ch])
    ensures var s' := WithLength(s, l);
            s'.at < |fmt| && fmt[s'.at] == ch && ReadSpec(fmt, s) == s' && !IsDigit(CharAt(fmt, s.at))
  {
    Split(fmt, s.at, LengthText(l), [ch]);
    FirstChar(fmt, s.at + |LengthText(l)|, [ch]);
    var s' := WithLength(s, l);
    SpecEnds(fmt, s');
    if !l.Plain? {
      hide ReadSpec, Turn;
      TurnLength(fmt, s, l);
      OneTurn(fmt, s);
    } else {
      assert s' == s;
    }
  }

  // ---- The whole ----

  /** The scan with all the parts. */
  function Through(s: Scan, d: Directive): Scan
  {
    WithLength(WithPrec(WithWidth(Scan(WithFlags(s.spec, d.flags), s.at + |d.flags|, s.args), d.width), d.prec), d.length)
  }

  lemma ThroughMeans(i: nat, d: Directive, args: seq<Arg>)
    requires DirectiveOk(d)
    ensures Through(Scan(PLAIN, i, args), d) == Scan(Meant(d, args), i + |DirectiveText(d)| - 1, ArgsLeft(d, args))
  {
    hide AmountText, PrecText, LengthText, IntArg;
    FlagsMean(PLAIN, d.flags);
  }

  /** Whatever stands around it, kprintf reads a conversion as it was meant. */
  lemma ReadsAsMeant(fmt: string, i: nat, d: Directive, args: seq<Arg>)
    requires DirectiveOk(d) && Here(fmt, i, DirectiveText(d))
    ensures ReadSpec(fmt, Scan(PLAIN, i, args)) == Scan(Meant(d, args), i + |DirectiveText(d)| - 1, ArgsLeft(d, args))
    ensures i + |DirectiveText(d)| <= |fmt| && CharAt(fmt, i + |DirectiveText(d)| - 1) == d.ch
  {
    hide *;
    Parts(fmt, i, d);
    var s1 := Scan(WithFlags(PLAIN, d.flags), i + |d.flags|, args);
    var s2 := WithWidth(s1, d.width);
    var s3 := WithPrec(s2, d.prec);
    Carries(s1, d);
    ReadFlags(fmt, Scan(PLAIN, i, args), d.flags);
    ReadLength(fmt, s3, d.length, d.ch);
    ReadPrec(fmt, s2, d.prec);
    ReadWidth(fmt, s1, d.width);
    ThroughIs(Scan(PLAIN, i, args), d);
    ThroughMeans(i, d, args);
    CharIs(fmt, i + |DirectiveText(d)| - 1);
  }

  lemma CharIs(fmt: string, i: nat)
    requires i < |fmt|
    ensures CharAt(fmt, i) == fmt[i]
  {
  }

  lemma ThroughIs(s: Scan, d: Directive)
    ensures Through(s, d) ==
            WithLength(WithPrec(WithWidth(Scan(WithFlags(s.spec, d.flags), s.at + |d.flags|, s.args), d.width), d.prec), d.length)
  {
  }

  /** Where the parts lie. */
  lemma Parts(fmt: string, i: nat, d: Directive)
    requires DirectiveOk(d) && Here(fmt, i, DirectiveText(d))
    ensures var i1 := i + |d.flags|;
            var i2 := i1 + |AmountText(d.width)|;
            var i3 := i2 + |PrecText(d.prec)|;
            && Here(fmt, i, d.flags) && Here(fmt, i1, AmountText(d.width)) && Here(fmt, i2, PrecText(d.prec))
            && Here(fmt, i3, LengthText(d.length) + [d.ch]) && i + |DirectiveText(d)| <= |fmt|
    ensures (forall c | c in d.flags :: IsFlagChar(c)) && d.width != Fixed(0) && !IsFlag(d.ch)
  {
    hide Here, AmountText, PrecText, LengthText, IsFlag, IsFlagChar;
    HereBound(fmt, i, DirectiveText(d));
    var f, w, p, l := d.flags, AmountText(d.width), PrecText(d.prec), LengthText(d.length) + [d.ch];
    Split(fmt, i, f, w + (p + l));
    Split(fmt, i + |f|, w, p + l);
    Split(fmt, i + |f| + |w|, p, l);
  }

  /** What is not set yet when a part is read. */
  lemma Carries(s1: Scan, d: Directive)
    requires (forall c | c in d.flags :: IsFlagChar(c)) && s1.spec == WithFlags(PLAIN, d.flags)
    ensures s1.spec.width == 0
    ensures var s2 := WithWidth(s1, d.width);
            && s2.at == s1.at + |AmountText(d.width)| && s2.spec.prec == -1
            && var s3 := WithPrec(s2, d.prec);
               s3.at == s2.at + |PrecText(d.prec)| && !s3.spec.wide && !s3.spec.short
  {
    hide AmountText, PrecText, IsFlagChar, WithFlags, IntArg;
    FlagsMean(PLAIN, d.flags);
  }

  /** And so it writes the field that was meant, and goes on behind it. */
  lemma RendersAsMeant(fmt: string, i: nat, d: Directive, args: seq<Arg>)
    requires DirectiveOk(d) && d.ch != 'n' && i < |fmt| && fmt[i] == '%' && Here(fmt, i + 1, DirectiveText(d))
    ensures i + 1 + |DirectiveText(d)| <= |fmt|
    ensures Render(fmt, i, args) ==
            Padded(Convert(Meant(d, args), d.ch, ArgsLeft(d, args))) +
            Render(fmt, i + 1 + |DirectiveText(d)|, if TakesArg(d.ch) then Rest(ArgsLeft(d, args)) else ArgsLeft(d, args))
  {
    hide *;
    NotNul(d);
    ReadsAsMeant(fmt, i + 1, d, args);
    RenderUnfold(fmt, i, args);
  }

  lemma NotNul(d: Directive)
    requires DirectiveOk(d)
    ensures d.ch != '\0'
  {
  }

  lemma RenderUnfold(fmt: string, i: nat, args: seq<Arg>)
    requires i < |fmt| && fmt[i] == '%'
    ensures var s := ReadSpec(fmt, Scan(PLAIN, i + 1, args));
            var ch := CharAt(fmt, s.at);
            ch != '\0' && ch != 'n' ==>
              s.at < |fmt| &&
              Render(fmt, i, args) ==
              Padded(Convert(s.spec, ch, s.args)) + Render(fmt, s.at + 1, if TakesArg(ch) then Rest(s.args) else s.args)
  {
    hide ReadSpec, Padded, Convert, TakesArg;
  }

  /** A format of one conversion that is not padded. */
  lemma OneDirective(fmt: string, d: Directive, args: seq<Arg>)
    requires DirectiveOk(d) && d.ch != 'n' && fmt == "%" + DirectiveText(d)
    ensures Render(fmt, 0, args) == Padded(Convert(Meant(d, args), d.ch, ArgsLeft(d, args)))
  {
    hide DirectiveText, Padded, Convert, DirectiveOk, Meant, ArgsLeft;
    assert fmt[1..1 + |DirectiveText(d)|] == DirectiveText(d);
    RendersAsMeant(fmt, 0, d, args);
    NothingLeft(fmt, if TakesArg(d.ch) then Rest(ArgsLeft(d, args)) else ArgsLeft(d, args));
  }

  lemma NothingLeft(fmt: string, args: seq<Arg>)
    ensures Render(fmt, |fmt|, args) == ""
  {
  }

  lemma Unpadded(f: Field)
    requires f.spec.width == 0 && f.dprec <= 0 && f.spec.sign == '\0' && !f.spec.hexprefix
    ensures Padded(f) == f.text
  {
  }

  lemma Digits65536()
    ensures Digits(65536, 10, false) == "65536"
  {
    assert Digits(6, 10, false) == "6";
    assert Digits(65, 10, false) == "65";
    assert Digits(655, 10, false) == "655";
    assert Digits(6553, 10, false) == "6553";
  }

  /** A short unsigned argument that is no short: %hu of 65536 shows 65536, not 0. */
  lemma ShortException()
    ensures Render("%hu", 0, [Word(65536)]) == "65536" && IsoUArg(PLAIN.(short := true), 65536) == 0
  {
    var d, args := Directive("", Absent, Absent, Short, 'u'), [Word(65536)];
    assert "%" + DirectiveText(d) == "%hu";
    assert Meant(d, args) == PLAIN.(short := true) && ArgsLeft(d, args) == args;
    ShortField(args);
    Digits65536();
    hide Render, Convert, Padded, Meant, ArgsLeft, DirectiveText, Digits;
    OneDirective("%hu", d, args);
    Unpadded(Convert(PLAIN.(short := true), 'u', args));
  }

  lemma ShortField(args: seq<Arg>)
    requires args == [Word(65536)]
    ensures Convert(PLAIN.(short := true), 'u', args) == Field(PLAIN.(short := true), Digits(65536, 10, false), -1, 'u')
  {
    hide Digits;
  }

  /** A zero of precision zero in alternate octal form: %#.0o of 0 shows nothing, not 0. */
  lemma OctalException()
    ensures Render("%#.0o", 0, [Word(0)]) == ""
  {
    hide *;
    var d, args := Directive(['#'], Absent, Fixed(0), Plain, 'o'), [Word(0)];
    OctalText(d);
    OctalMeant(d, args);
    OctalField(args);
    OneDirective("%#.0o", d, args);
    Unpadded(Convert(PLAIN.(alt := true, prec := 0), 'o', args));
  }

  lemma OctalText(d: Directive)
    requires d == Directive(['#'], Absent, Fixed(0), Plain, 'o')
    ensures DirectiveOk(d) && "%" + DirectiveText(d) == "%#.0o"
  {
    assert Digits(0, 10, false) == ['0'];
    hide Digits;
    assert AmountText(Fixed(0)) == ['0'];
    assert PrecText(Fixed(0)) == ['.', '0'];
  }

  lemma OctalMeant(d: Directive, args: seq<Arg>)
    requires d == Directive(['#'], Absent, Fixed(0), Plain, 'o')
    ensures Meant(d, args) == PLAIN.(alt := true, prec := 0) && ArgsLeft(d, args) == args
  {
  }

  lemma OctalField(args: seq<Arg>)
    requires args == [Word(0)]
    ensures var f := Convert(PLAIN.(alt := true, prec := 0), 'o', args);
            f.text == "" && f.spec.width == 0 && f.dprec <= 0 && f.spec.sign == '\0' && !f.spec.hexprefix
  {
  }
}
