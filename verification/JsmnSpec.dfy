/** The lexical level of lib/libbmk_core/jsmn.c in its non-strict build, and what the two
    passes of the parser compute, given as recursive functions over the text. */
module JsmnSpec {
  import Texts

  const NOMEM: int := -1
  const INVAL: int := -2
  const PART: int := -3

  datatype Kind = Primitive | Object | Array | String

  /** Does the scan end at this position: the end of the text or a NUL? */
  predicate AtEnd(js: string, i: nat)
  {
    i >= |js| || js[i] == '\0'
  }

  // ---- Strings ----

  datatype Lexed = Done(end: nat) | Bad(err: int)

  predicate IsHex(c: char)
  {
    '0' <= c <= '9' || 'A' <= c <= 'F' || 'a' <= c <= 'f'
  }

  predicate IsEscape(c: char)
  {
    c == '"' || c == '/' || c == '\\' || c == 'b' || c == 'f' || c == 'r' || c == 'n' || c == 't'
  }

  /** The n digits of a \u escape: all there, a wrong one, or the end of the text. */
  function ScanHex(js: string, i: nat, n: nat): (r: Lexed)
    ensures r.Done? ==> r.end == i + n && (n > 0 ==> r.end <= |js|)
    ensures r.Bad? ==> r.err == INVAL || r.err == PART
    decreases n
  {
    if n == 0 then Done(i)
    else if AtEnd(js, i) then Bad(PART)
    else if !IsHex(js[i]) then Bad(INVAL)
    else ScanHex(js, i + 1, n - 1)
  }

  /** The closing quote of a string whose text starts at i. */
  function ScanString(js: string, i: nat): (r: Lexed)
    ensures r.Done? ==> i <= r.end < |js| && js[r.end] == '"'
    ensures r.Bad? ==> r.err == INVAL || r.err == PART
    decreases |js| - i
  {
    if AtEnd(js, i) then Bad(PART)
    else if js[i] == '"' then Done(i)
    else if js[i] == '\\' && i + 1 < |js| then
      if IsEscape(js[i + 1]) then ScanString(js, i + 2)
      else if js[i + 1] == 'u' then
        var h := ScanHex(js, i + 2, 4);
        if h.Done? then ScanString(js, i + 6) else h
      else Bad(INVAL)
    else ScanString(js, i + 1)
  }

  /** The characters of a string: plain, or an escape of section 7 of RFC 8259. */
  datatype Unit = Plain(c: char) | Escaped(c: char) | Unicode(hex: string)

  predicate UnitOk(u: Unit)
  {
    match u
    case Plain(c) => c != '"' && c != '\\' && c != '\0'
    case Escaped(c) => IsEscape(c)
    case Unicode(hex) => |hex| == 4 && forall i | 0 <= i < 4 :: IsHex(hex[i])
  }

  function UnitText(u: Unit): string
  {
    match u
    case Plain(c) => [c]
    case Escaped(c) => ['\\', c]
    case Unicode(hex) => ['\\', 'u'] + hex
  }

  function Text(units: seq<Unit>): string
  {
    if units == [] then [] else UnitText(units[0]) + Text(units[1..])
  }

  lemma {:induction false} ScanHexDigits(js: string, i: nat, n: nat)
    requires i <= |js|
    ensures ScanHex(js, i, n).Done? <==> i + n <= |js| && forall k | i <= k < i + n :: IsHex(js[k])
    decreases n
  {
    if n > 0 && !AtEnd(js, i) {
      ScanHexDigits(js, i + 1, n - 1);
    }
  }

  /** The scan goes over a well-formed unit, */
  lemma OverUnit(js: string, i: nat, u: Unit)
    requires UnitOk(u) && i + |UnitText(u)| <= |js| && js[i..i + |UnitText(u)|] == UnitText(u)
    ensures ScanString(js, i) == ScanString(js, i + |UnitText(u)|)
  {
    var t := js[i..i + |UnitText(u)|];
    assert js[i] == t[0];
    match u
    case Plain(c) =>
    case Escaped(c) => assert js[i + 1] == t[1];
    case Unicode(hex) =>
      assert js[i + 1] == t[1];
      forall k | i + 2 <= k < i + 6 ensures IsHex(js[k]) {
        assert js[k] == t[k - i] == hex[k - i - 2];
      }
      ScanHexDigits(js, i + 2, 4);
  }

  /** and over nothing else. */
  lemma NextUnit(js: string, i: nat) returns (u: Unit)
    requires ScanString(js, i).Done? && js[i] != '"'
    ensures UnitOk(u) && i + |UnitText(u)| <= |js| && js[i..i + |UnitText(u)|] == UnitText(u)
    ensures ScanString(js, i) == ScanString(js, i + |UnitText(u)|)
  {
    LastBackslash(js, i);
    assert js[i] == '\\' ==> i + 1 < |js| && (IsEscape(js[i + 1]) || (js[i + 1] == 'u' && ScanHex(js, i + 2, 4).Done?));
    assert !AtEnd(js, i);
    hide ScanString, ScanHex;
    if js[i] != '\\' {
      u := Plain(js[i]);
    } else if IsEscape(js[i + 1]) {
      u := Escaped(js[i + 1]);
    } else {
      ScanHexDigits(js, i + 2, 4);
      u := Unicode(js[i + 2..i + 6]);
    }
    OverUnit(js, i, u);
  }

  /** A backslash with nothing after it leaves the string open. */
  lemma LastBackslash(js: string, i: nat)
    requires i < |js|
    ensures js[i] == '\\' && i + 1 == |js| ==> ScanString(js, i) == Bad(PART)
  {
  }

  /** A string that is accepted is made of units. */
  lemma {:induction false} AcceptedString(js: string, i: nat) returns (units: seq<Unit>)
    requires ScanString(js, i).Done?
    ensures (forall u | u in units :: UnitOk(u)) && js[i..ScanString(js, i).end] == Text(units)
    decreases |js| - i
  {
    hide UnitOk, UnitText;
    if js[i] == '"' {
      units := [];
    } else {
      var u := NextUnit(js, i);
      UnitNotEmpty(u);
      var n, end := i + |UnitText(u)|, ScanString(js, i).end;
      hide ScanString;
      var rest := AcceptedString(js, n);
      units := [u] + rest;
      assert units[1..] == rest;
      assert js[i..end] == js[i..n] + js[n..end];
    }
  }

  lemma UnitNotEmpty(u: Unit)
    ensures |UnitText(u)| > 0
  {
  }

  lemma TextCons(units: seq<Unit>)
    ensures Text(units) == if units == [] then [] else UnitText(units[0]) + Text(units[1..])
  {
  }

  lemma QuoteEnds(js: string, i: nat)
    requires i < |js| && js[i] == '"'
    ensures ScanString(js, i) == Done(i)
  {
  }

  /** And every sequence of units is accepted, up to the quote that follows it. */
  lemma {:induction false} AcceptsString(js: string, i: nat, units: seq<Unit>)
    requires forall u | u in units :: UnitOk(u)
    requires var n := i + |Text(units)|; n < |js| && js[i..n] == Text(units) && js[n] == '"'
    ensures ScanString(js, i) == Done(i + |Text(units)|)
    decreases |units|
  {
    hide UnitOk, UnitText, ScanString, Text;
    TextCons(units);
    if units == [] {
      QuoteEnds(js, i);
    } else {
      var u, rest := units[0], units[1..];
      var t := UnitText(u);
      Texts.Split(js, i, t, Text(rest));
      OverUnit(js, i, u);
      AcceptsString(js, i + |t|, rest);
    }
  }

  // ---- Primitives ----

  predicate IsSpace(c: char) { c == '\t' || c == '\r' || c == '\n' || c == ' ' }

  predicate EndsPrimitive(c: char)
  {
    c == ':' || IsSpace(c) || c == ',' || c == ']' || c == '}'
  }

  function ScanPrimitive(js: string, i: nat): (r: Lexed)
    requires i <= |js|
    ensures r.Done? ==> i <= r.end <= |js| && (!AtEnd(js, i) && !EndsPrimitive(js[i]) ==> i < r.end)
    ensures r.Bad? ==> r.err == INVAL
    decreases |js| - i
  {
    if AtEnd(js, i) || EndsPrimitive(js[i]) then Done(i)
    else if js[i] < ' ' || js[i] >= '\U{7F}' then Bad(INVAL)
    else ScanPrimitive(js, i + 1)
  }

  // ---- The text as a sequence of lexemes ----

  /** What separates tokens. */
  datatype Sep = Blank | Colon | Comma

  datatype Lexeme =
    | End
    | Fail(err: int)
    | Open(kind: Kind, next: nat)
    | Close(kind: Kind, next: nat)
    | Item(kind: Kind, start: nat, end: nat, next: nat)
    | Other(sep: Sep, next: nat)

  function Lex(js: string, i: nat): (l: Lexeme)
    ensures !l.End? && !l.Fail? ==> i < l.next <= |js|
    ensures l.Fail? ==> l.err == INVAL || l.err == PART
    ensures l.Item? ==> i <= l.start <= l.end <= l.next
  {
    if AtEnd(js, i) then End
    else match js[i]
      case '{' => Open(Object, i + 1)
      case '[' => Open(Array, i + 1)
      case '}' => Close(Object, i + 1)
      case ']' => Close(Array, i + 1)
      case '"' =>
        var r := ScanString(js, i + 1);
        if r.Done? then Item(String, i + 1, r.end, r.end + 1) else Fail(r.err)
      case c =>
        if IsSpace(c) then Other(Blank, i + 1)
        else if c == ':' then Other(Colon, i + 1)
        else if c == ',' then Other(Comma, i + 1)
        else
          var r := ScanPrimitive(js, i);
          if r.Done? then Item(Primitive, i, r.end, r.end) else Fail(r.err)
  }

  /** The counting pass from position i on: the number of containers, strings and
      primitives, or the first lexical error. */
  function CountPass(js: string, i: nat): (r: int)
    requires i <= |js|
    ensures r >= 0 || r == INVAL || r == PART
    decreases |js| - i
  {
    var l := Lex(js, i);
    match l
    case End => 0
    case Fail(e) => e
    case Close(_, next) => CountPass(js, next)
    case Other(_, next) => CountPass(js, next)
    case _ => Plus(CountPass(js, l.next), 1)
  }

  /** Success with c more tokens; errors stay. */
  function Plus(r: int, c: nat): int
  {
    if r < 0 then r else r + c
  }

  /** What the filling pass should accept, as a pushdown recognizer: a closer must match the
      kind on top of the stack, and the stack must be empty at the end. */
  function MatchPass(js: string, i: nat, stack: seq<Kind>): (r: int)
    requires i <= |js|
    ensures r >= 0 || r == INVAL || r == PART
    decreases |js| - i
  {
    var l := Lex(js, i);
    match l
    case End => if stack == [] then 0 else PART
    case Fail(e) => e
    case Other(_, next) => MatchPass(js, next, stack)
    case Close(k, next) =>
      if stack == [] || stack[|stack| - 1] != k then INVAL else MatchPass(js, next, stack[..|stack| - 1])
    case Open(k, next) => Plus(MatchPass(js, next, stack + [k]), 1)
    case Item(_, _, _, next) => Plus(MatchPass(js, next, stack), 1)
  }

  /** The tokens a lexeme makes. */
  function Makes(l: Lexeme): nat
  {
    if l.Open? || l.Item? then 1 else 0
  }

  /** What a lexeme does to the stack of open containers, or the error, when there is room
      for only so many tokens. */
  datatype Advanced = Stacked(stack: seq<Kind>) | Refused(err: int)

  function Advance(l: Lexeme, stack: seq<Kind>, room: nat): Advanced
    requires !l.End?
  {
    match l
    case Fail(e) => Refused(e)
    case Other(_, _) => Stacked(stack)
    case Close(k, _) =>
      if stack == [] || stack[|stack| - 1] != k then Refused(INVAL) else Stacked(stack[..|stack| - 1])
    case Open(k, _) => if room == 0 then Refused(NOMEM) else Stacked(stack + [k])
    case Item(_, _, _, _) => if room == 0 then Refused(NOMEM) else Stacked(stack)
  }

  /** The filling pass. */
  function FillPass(js: string, i: nat, stack: seq<Kind>, room: nat): int
    requires i <= |js|
    decreases |js| - i
  {
    var l := Lex(js, i);
    if l.End? then (if stack == [] then 0 else PART)
    else
      match Advance(l, stack, room)
      case Refused(e) => e
      case Stacked(stack') => Plus(FillPass(js, l.next, stack', room - Makes(l)), Makes(l))
  }

  /** With the room the counting pass has asked for, the filling pass never runs out: it
      accepts exactly what the recognizer accepts, with as many tokens as were counted. */
  lemma {:induction false} TwoPasses(js: string, i: nat, stack: seq<Kind>, room: nat)
    requires i <= |js| && 0 <= CountPass(js, i) <= room
    ensures FillPass(js, i, stack, room) == MatchPass(js, i, stack)
    ensures MatchPass(js, i, stack) in {CountPass(js, i), INVAL, PART}
    decreases |js| - i
  {
    var l := Lex(js, i);
    match l
    case End =>
    case Other(_, next) => TwoPasses(js, next, stack, room);
    case Close(k, next) =>
      if stack != [] && stack[|stack| - 1] == k {
        TwoPasses(js, next, stack[..|stack| - 1], room);
      }
    case Open(k, next) => TwoPasses(js, next, stack + [k], room - 1);
    case Item(_, _, _, next) => TwoPasses(js, next, stack, room - 1);
  }

  /** A text the counting pass refuses is refused by the filling pass whatever its room. */
  lemma {:induction false} BothRefuse(js: string, i: nat, stack: seq<Kind>, room: nat)
    requires i <= |js| && CountPass(js, i) < 0
    ensures FillPass(js, i, stack, room) < 0
    decreases |js| - i
  {
    var l := Lex(js, i);
    match l
    case Fail(_) =>
    case Other(_, next) => BothRefuse(js, next, stack, room);
    case Close(k, next) =>
      if stack != [] && stack[|stack| - 1] == k {
        BothRefuse(js, next, stack[..|stack| - 1], room);
      }
    case Open(k, next) => if room > 0 { BothRefuse(js, next, stack + [k], room - 1); }
    case Item(_, _, _, next) => if room > 0 { BothRefuse(js, next, stack, room - 1); }
  }

  /** Nor does the recognizer accept it. */
  lemma {:induction false} NeitherAccepts(js: string, i: nat, stack: seq<Kind>)
    requires i <= |js| && CountPass(js, i) < 0
    ensures MatchPass(js, i, stack) < 0
    decreases |js| - i
  {
    var l := Lex(js, i);
    match l
    case Fail(_) =>
    case Other(_, next) => NeitherAccepts(js, next, stack);
    case Close(k, next) =>
      if stack != [] && stack[|stack| - 1] == k {
        NeitherAccepts(js, next, stack[..|stack| - 1]);
      }
    case Open(k, next) => NeitherAccepts(js, next, stack + [k]);
    case Item(_, _, _, next) => NeitherAccepts(js, next, stack);
  }
}
