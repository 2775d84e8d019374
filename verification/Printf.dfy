/** kprintf and bmk_vsnprintf of lib/libbmk_core/subr_prf.c, writing to a buffer. */
module Printf {
  import opened Arith
  import opened Numerals
  import opened Strtoul
  import opened Texts
  import opened PrintfSpec

  /** sizeof(long long)*8/3 + 2 */
  const KPRINTF_BUFSIZE: nat := 23

  // ---- Digits ----

  /** The last digit and the rest. */
  lemma LastDigit(q: nat, b: nat, upper: bool)
    requires 2 <= b <= 16
    ensures if q < b then Digits(q, b, upper) == [DigitChar(q % b, upper)] && q / b == 0
            else Digits(q, b, upper) == Digits(q / b, b, upper) + [DigitChar(q % b, upper)] && q / b > 0
  {
    hide DigitChar;
    if q < b {
      DivModUnique(q, b, 0, q);
    } else {
      QuotSmaller(q, b);
    }
  }

  lemma WordDigits(u: nat, upper: bool)
    requires u < WORD
    ensures |Digits(u, 8, upper)| <= 22 && |Digits(u, 10, upper)| <= 20 && |Digits(u, 16, upper)| <= 16
  {
    PowersReach();
    hide Power;
    DigitsLength(u, 8, upper, 22);
    DigitsLength(u, 10, upper, 20);
    DigitsLength(u, 16, upper, 16);
  }

  /** The loops that store digits from the end of the buffer. The buffer is large enough for
      every word, in octal with its extra zero to the last byte. */
  method StoreNumber(bf: array<char>, u: nat, base: nat, upper: bool, alt: bool, prec: int) returns (cp: nat)
    requires bf.Length == KPRINTF_BUFSIZE && u < WORD && base in {8, 10, 16}
    modifies bf
    ensures cp <= KPRINTF_BUFSIZE && bf[cp..] == NumberText(u, base, upper, alt, prec)
  {
    hide Digits;
    cp := KPRINTF_BUFSIZE;
    if u == 0 && prec == 0 {
      return;
    }
    WordDigits(u, upper);
    if base == 10 {
      cp := StoreDecimal(bf, u, upper);
    } else {
      cp := StoreBinary(bf, u, base, upper);
      if base == 8 && alt && bf[cp] != '0' {
        assert bf[cp..][0] == bf[cp];
        cp := cp - 1;
        bf[cp] := '0';
      } else {
        assert bf[cp..][0] == bf[cp];
      }
    }
  }

  method StoreDecimal(bf: array<char>, u: nat, upper: bool) returns (cp: nat)
    requires bf.Length == KPRINTF_BUFSIZE && |Digits(u, 10, upper)| <= KPRINTF_BUFSIZE
    modifies bf
    ensures cp < KPRINTF_BUFSIZE && bf[cp..] == Digits(u, 10, upper)
  {
    hide Digits, DigitChar;
    var q := u;
    cp := KPRINTF_BUFSIZE;
    while q >= 10
      invariant cp <= KPRINTF_BUFSIZE
      invariant Digits(u, 10, upper) == Digits(q, 10, upper) + bf[cp..]
      decreases q
    {
      LastDigit(q, 10, upper);
      cp := cp - 1;
      bf[cp] := DigitChar(q % 10, upper);
      q := q / 10;
    }
    LastDigit(q, 10, upper);
    cp := cp - 1;
    bf[cp] := DigitChar(q, upper);
  }

  method StoreBinary(bf: array<char>, u: nat, base: nat, upper: bool) returns (cp: nat)
    requires bf.Length == KPRINTF_BUFSIZE && 2 <= base <= 16 && |Digits(u, base, upper)| <= KPRINTF_BUFSIZE
    modifies bf
    ensures cp < KPRINTF_BUFSIZE && bf[cp..] == Digits(u, base, upper)
  {
    hide Digits, DigitChar;
    LastDigit(u, base, upper);
    cp := KPRINTF_BUFSIZE - 1;
    bf[cp] := DigitChar(u % base, upper);
    var q := u / base;
    while q > 0
      invariant cp < KPRINTF_BUFSIZE
      invariant Digits(u, base, upper) == (if q > 0 then Digits(q, base, upper) else []) + bf[cp..]
      decreases q
    {
      LastDigit(q, base, upper);
      QuotSmaller(q, base);
      cp := cp - 1;
      bf[cp] := DigitChar(q % base, upper);
      q := q / base;
    }
  }

  // ---- Output ----

  /** Where KPRINTF_PUTCHAR puts characters: a buffer, or none, and the room in it. `all` is
      everything put so far. */
  class Output {
    const bf: array?<char>
    const size: nat
    var pos: nat
    ghost var all: string
    ghost const before: string

    ghost predicate Valid()
      reads this, bf
    {
      bf != null ==>
        && size <= bf.Length == |before|
        && pos == (if |all| < size then |all| else size)
        && bf[..pos] == all[..pos]
        && bf[pos..] == before[pos..]
    }

    constructor (bf: array?<char>, size: nat)
      requires bf != null ==> size <= bf.Length
      ensures Valid() && this.bf == bf && this.size == size && all == []
      ensures bf != null ==> before == bf[..]
    {
      this.bf, this.size := bf, size;
      pos, all := 0, [];
      before := if bf != null then bf[..] else [];
    }

    /** KPRINTF_PUTCHAR */
    method PutChar(c: char)
      requires Valid()
      modifies this`pos, this`all, bf
      ensures Valid() && all == old(all) + [c]
    {
      if bf != null && pos < size {
        bf[pos] := c;
        pos := pos + 1;
      }
      all := all + [c];
    }

    method PutMany(c: char, n: int)
      requires Valid()
      modifies this`pos, this`all, bf
      ensures Valid() && all == old(all) + Rep(c, n)
    {
      var k := n;
      assert old(all) + Rep(c, n) == all + Rep(c, k);
      while k > 0
        invariant Valid() && old(all) + Rep(c, n) == all + Rep(c, k)
      {
        assert all + Rep(c, k) == (all + [c]) + Rep(c, k - 1);
        PutChar(c);
        k := k - 1;
      }
    }

    method PutText(s: string)
      requires Valid()
      modifies this`pos, this`all, bf
      ensures Valid() && all == old(all) + s
    {
      var k := 0;
      while k < |s|
        invariant k <= |s| && Valid() && all == old(all) + s[..k]
      {
        PutChar(s[k]);
        k := k + 1;
      }
    }

    method PutHead(f: Field, realsz: int)
      requires Valid() && realsz == RealSize(f)
      modifies this`pos, this`all, bf
      ensures Valid() && all == old(all) + Head(f)
    {
      hide Rep, Output.Valid;
      if !f.spec.ladjust && !f.spec.zeropad {
        PutMany(' ', f.spec.width - realsz);
      }
      ghost var left := all;
      if f.spec.sign != '\0' {
        PutChar(f.spec.sign);
      } else if f.spec.hexprefix {
        PutChar('0');
        PutChar(f.ch);
      }
      assert all == left + Lead(f);
      if !f.spec.ladjust && f.spec.zeropad {
        PutMany('0', f.spec.width - realsz);
      }
    }

    method PutTail(f: Field, realsz: int)
      requires Valid() && realsz == RealSize(f)
      modifies this`pos, this`all, bf
      ensures Valid() && all == old(all) + Tail(f)
    {
      hide Rep, Output.Valid, Lead;
      PutMany('0', f.dprec - |f.text|);
      PutText(f.text);
      if f.spec.ladjust {
        PutMany(' ', f.spec.width - realsz);
      }
    }

    /** Padding, prefix and text of one conversion, and what it adds to the result. */
    method PutField(f: Field) returns (n: int)
      requires Valid()
      modifies this`pos, this`all, bf
      ensures Valid() && all == old(all) + Padded(f) && n == |Padded(f)|
    {
      hide Output.Valid, Head, Tail;
      PaddedLength(f);
      var size := |f.text|;
      var realsz := if f.dprec > size then f.dprec else size;
      if f.spec.sign != '\0' {
        realsz := realsz + 1;
      } else if f.spec.hexprefix {
        realsz := realsz + 2;
      }
      n := if f.spec.width > realsz then f.spec.width else realsz;
      PutHead(f, realsz);
      PutTail(f, realsz);
    }
  }

  // ---- kprintf ----

  lemma SignedRange(v: nat, range: nat)
    requires 2 <= range <= WORD
    ensures Signed(v, range) > 0 - WORD && Signed(v, range) < WORD
  {
  }

  /** The digits of a number, through the local buffer. */
  method ConvertNumber(spec0: Spec, u: nat, base: nat, ch: char) returns (f: Field)
    requires u < WORD && base in {8, 10, 16}
    ensures f == NumberField(spec0, u, base, ch)
  {
    hide NumberText;
    var spec := spec0;
    if spec.prec >= 0 {
      spec := spec.(zeropad := false);
    }
    var bf := new char[KPRINTF_BUFSIZE];
    var cp := StoreNumber(bf, u, base, ch == 'X', spec.alt, spec.prec);
    f := Field(spec, bf[cp..], spec.prec, ch);
  }

  lemma SArgRange(spec: Spec, v: nat)
    ensures SArg(spec, v) > 0 - WORD && SArg(spec, v) < WORD
  {
    hide Signed;
    SignedRange(v, WORD);
    SignedRange(v, 0x1_0000);
    SignedRange(v, 0x1_0000_0000);
  }

  /** The switch of kprintf on the conversion character, up to the padding. */
  method ConvertArg(spec0: Spec, ch: char, args: seq<Arg>) returns (f: Field)
    ensures f == Convert(spec0, ch, args)
  {
    hide NumberField, SArg, UArg, WordArg, TextArg;
    var spec := spec0;
    if ch == 'D' || ch == 'O' || ch == 'U' {
      spec := spec.(wide := true);
    }
    var w := WordArg(args);
    if ch == 'D' || ch == 'd' || ch == 'i' {
      SArgRange(spec, w);
      var v := SArg(spec, w);
      if v < 0 {
        f := ConvertNumber(spec.(sign := '-'), -v, 10, ch);
      } else {
        f := ConvertNumber(spec, v, 10, ch);
      }
    } else if ch == 'O' || ch == 'o' {
      f := ConvertNumber(spec.(sign := '\0'), UArg(spec, w), 8, ch);
    } else if ch == 'U' || ch == 'u' {
      f := ConvertNumber(spec.(sign := '\0'), UArg(spec, w), 10, ch);
    } else if ch == 'X' || ch == 'x' {
      var prefix := spec.hexprefix || (spec.alt && UArg(spec, w) != 0);
      f := ConvertNumber(spec.(sign := '\0', hexprefix := prefix), UArg(spec, w), 16, ch);
    } else if ch == 'p' {
      f := ConvertNumber(spec.(sign := '\0', hexprefix := true), w, 16, 'x');
    } else if ch == 'c' {
      f := Field(spec.(sign := '\0'), [(w % 256) as char], 0, ch);
    } else if ch == 's' {
      var t := TextArg(args);
      f := Field(spec.(sign := '\0'), if 0 <= spec.prec < |t| then t[..spec.prec] else t, 0, ch);
    } else {
      f := Field(spec.(sign := '\0'), [ch], 0, ch);
    }
  }

  /** The loops over the digits of a width or precision. */
  method ScanNumber(fmt: string, start: nat) returns (n: nat, i: nat)
    requires start <= |fmt|
    ensures (n, i) == ReadNumber(fmt, start, 0) && start <= i <= |fmt|
  {
    n, i := 0, start;
    while IsDigit(CharAt(fmt, i))
      invariant start <= i <= |fmt| && ReadNumber(fmt, i, n) == ReadNumber(fmt, start, 0)
      decreases |fmt| - i
    {
      n := 10 * n + (fmt[i] as nat - '0' as nat);
      i := i + 1;
    }
  }

  /** The loop of rflag and reswitch: flags, width, precision and length, up to the conversion
      character. */
  method ScanSpec(fmt: string, start: nat, args0: seq<Arg>) returns (spec: Spec, i: nat, args: seq<Arg>)
    requires start <= |fmt|
    ensures Scan(spec, i, args) == ReadSpec(fmt, Scan(PLAIN, start, args0)) && start <= i <= |fmt|
  {
    hide ReadSpec, ReadNumber, Signed, WordArg;
    spec, i, args := PLAIN, start, args0;
    while IsFlag(CharAt(fmt, i))
      invariant start <= i <= |fmt| && ReadSpec(fmt, Scan(spec, i, args)) == ReadSpec(fmt, Scan(PLAIN, start, args0))
      decreases |fmt| - i
    {
      OneTurn(fmt, Scan(spec, i, args));
      ghost var next := Turn(fmt, Scan(spec, i, args));
      var c := fmt[i];
      i := i + 1;
      match c {
        case ' ' =>
          if spec.sign == '\0' {
            spec := spec.(sign := ' ');
          }
        case '#' => spec := spec.(alt := true);
        case '*' =>
          var w := Signed(WordArg(args), 0x1_0000_0000);
          args := Rest(args);
          if w >= 0 {
            spec := spec.(width := w);
          } else {
            spec := spec.(width := -w, ladjust := true);
          }
        case '-' => spec := spec.(ladjust := true);
        case '+' => spec := spec.(sign := '+');
        case '.' =>
          if CharAt(fmt, i) == '*' {
            var p := Signed(WordArg(args), 0x1_0000_0000);
            args := Rest(args);
            spec := spec.(prec := if p < 0 then -1 else p);
            i := i + 1;
          } else {
            var n;
            n, i := ScanNumber(fmt, i);
            spec := spec.(prec := n);
          }
        case '0' => spec := spec.(zeropad := true);
        case 'h' => spec := spec.(short := true);
        case 'l' =>
          if CharAt(fmt, i) == 'l' {
            i := i + 1;
          }
          spec := spec.(wide := true);
        case _ =>
          if IsDigit(c) {
            var n;
            n, i := ScanNumber(fmt, i - 1);
            spec := spec.(width := n);
          } else {
            spec := spec.(wide := true);
          }
      }
      assert Scan(spec, i, args) == next;
    }
    SpecEnds(fmt, Scan(spec, i, args));
  }

  /** kprintf into a buffer: everything the format yields is put, and the result is its
      length. */
  method Kprintf(out: Output, fmt: string, args0: seq<Arg>) returns (ret: int)
    requires out.Valid()
    modifies out`pos, out`all, out.bf
    ensures out.Valid() && out.all == old(out.all) + Render(fmt, 0, args0) && ret == |Render(fmt, 0, args0)|
  {
    hide Output.Valid, ReadSpec, Convert, Padded, TakesArg;
    ret := 0;
    var i, args := 0, args0;
    ghost var base, whole := out.all, Render(fmt, 0, args0);
    while true
      invariant i <= |fmt| && out.Valid()
      invariant base + whole == out.all + Render(fmt, i, args)
      invariant ret == |out.all| - |base|
      decreases |fmt| - i
    {
      ghost var rest := Render(fmt, i, args);
      var c := CharAt(fmt, i);
      if c == '\0' {
        break;
      }
      if c != '%' {
        ret := ret + 1;
        out.PutChar(c);
        i := i + 1;
      } else {
        var spec;
        spec, i, args := ScanSpec(fmt, i + 1, args);
        var ch := CharAt(fmt, i);
        if ch == '\0' {
          break;
        }
        if ch != 'n' {
          var f := ConvertArg(spec, ch, args);
          var n := out.PutField(f);
          ret := ret + n;
        }
        if TakesArg(ch) {
          args := Rest(args);
        }
        i := i + 1;
      }
    }
  }

  /** bmk_vsnprintf: as much of the rendering as fits with its NUL, nothing beyond it
      touched, and the length it would have had. */
  method Vsnprintf(bf: array?<char>, size: nat, fmt: string, args: seq<Arg>) returns (ret: int)
    requires bf != null ==> size <= bf.Length
    modifies bf
    ensures ret == |Render(fmt, 0, args)|
    ensures bf != null && size > 0 ==>
              var k := if ret < size - 1 then ret else size - 1;
              bf[..] == Render(fmt, 0, args)[..k] + ['\0'] + old(bf[..])[k + 1..]
    ensures bf != null && size == 0 ==> bf[..] == old(bf[..])
  {
    hide Render;
    var out := new Output(bf, size);
    ret := Kprintf(out, fmt, args);
    if bf != null && size > 0 {
      if size <= ret {
        bf[size - 1] := '\0';
      } else {
        bf[ret] := '\0';
      }
    }
  }
}
