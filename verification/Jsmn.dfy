/** The parser of lib/libbmk_core/jsmn.c, in the build without strict mode and without parent
    links. */
module Jsmn {
  import opened JsmnSpec
  import opened JsmnTokens
  import opened JsmnMachine
  import JsmnJson

  /** The kinds of the open containers, outermost first. */
  ghost function Kinds(toks: seq<Tok>, open: seq<nat>): seq<Kind>
    requires forall k | 0 <= k < |open| :: open[k] < |toks|
  {
    seq(|open|, k requires 0 <= k < |open| => toks[open[k]].kind)
  }

  lemma KindsKept(toks: seq<Tok>, super: int, t: Tok, open: seq<nat>)
    requires -1 <= super < |toks| && forall k | 0 <= k < |open| :: open[k] < |toks|
    ensures Bump(toks + [t], super) == Bump(toks, super) + [t]
    ensures var r := Bump(toks, super) + [t];
            Kinds(r, open) == Kinds(toks, open) && Kinds(r, open + [|toks|]) == Kinds(toks, open) + [t.kind]
  {
  }

  lemma KindsClosed(toks: seq<Tok>, open: seq<nat>, i: nat, t: Tok)
    requires (forall k | 0 <= k < |open| :: open[k] < |toks|) && i < |toks| && t.kind == toks[i].kind && open != []
    ensures Kinds(toks[i := t], open[..|open| - 1]) == Kinds(toks, open)[..|open| - 1]
  {
  }

  lemma OpenInRange(toks: seq<Tok>, open: seq<nat>)
    requires OpenOk(toks, open)
    ensures forall k | 0 <= k < |open| :: open[k] < |toks|
  {
    assert forall k | 0 <= k < |open| :: open[k] in open;
  }

  /** The last open token is the innermost open container. */
  lemma InnermostIsLast(toks: seq<Tok>, open: seq<nat>)
    requires OpenOk(toks, open)
    ensures LastOpen(toks) == if open == [] then -1 else open[|open| - 1]
  {
    var i := LastOpen(toks);
    if open != [] {
      assert open[|open| - 1] in open;
      if i >= 0 {
        InnermostOpen(toks, open, i);
      }
    }
  }

  /** Scanning from a point above which nothing is open finds the last open token. */
  lemma {:induction false} ScanFrom(toks: seq<Tok>, from: nat)
    requires from < |toks| && forall k | from < k < |toks| :: toks[k].end != -1
    ensures LastOpen(toks[..from + 1]) == LastOpen(toks)
    decreases |toks|
  {
    if from == |toks| - 1 {
      assert toks[..from + 1] == toks;
    } else {
      var shorter := toks[..|toks| - 1];
      ScanFrom(shorter, from);
      assert shorter[..from + 1] == toks[..from + 1];
    }
  }

  /** The state once the innermost container is closed. */
  lemma AfterClose(js: string, toks: seq<Tok>, super: int, open: seq<nat>, parents: seq<int>, pos: nat)
    requires Inv(js, toks, super, open, parents, pos) && pos < |js| && open != [] && open[|open| - 1] < |toks|
    requires js[pos] == Closer(toks[open[|open| - 1]].kind)
    ensures var top, rest := open[|open| - 1], open[..|open| - 1];
            var r := toks[top := toks[top].(end := pos + 1)];
            && Inv(js, r, LastOpen(r), rest, parents, pos + 1) && LastOpen(r[..top + 1]) == LastOpen(r)
            && forall k | 0 <= k < |r| :: r[k].start >= 0
  {
    var top, rest := open[|open| - 1], open[..|open| - 1];
    var r := toks[top := toks[top].(end := pos + 1)];
    Closed(js, toks, super, open, parents, pos);
    hide SpansOk, SizesOk, TextOk, OpenOk;
    InnermostIsLast(r, rest);
    InnermostIsLast(toks, open);
    StartsOk(r, rest);
    hide Inv, LastOpen;
    ScanBelow(toks, top, toks[top].(end := pos + 1));
  }

  lemma ScanBelow(toks: seq<Tok>, top: nat, t: Tok)
    requires LastOpen(toks) == top
    ensures var r := toks[top := t]; LastOpen(r[..top + 1]) == LastOpen(r)
  {
    ScanFrom(toks[top := t], top);
  }

  lemma StartsOk(toks: seq<Tok>, open: seq<nat>)
    requires OpenOk(toks, open)
    ensures forall k | 0 <= k < |toks| :: toks[k].start >= 0
  {
  }

  lemma BlankKeeps(b: Build, pos: nat)
    requires Sound(b)
    ensures Feed(b, pos, Other(Blank, pos + 1)) == b
  {
  }

  lemma NoTokens(toks: seq<Tok>, open: seq<nat>)
    requires OpenOk(toks, open)
    ensures toks == [] ==> open == []
  {
    if open != [] {
      assert open[0] in open;
    }
  }

  /** The token of a string or primitive stands for its text. */
  lemma ItemText(js: string, i: nat)
    requires Lex(js, i).Item?
    ensures var l := Lex(js, i);
            TokenText(js, Tok(l.kind, l.start, l.end, 0)) && !IsContainer(l.kind) && i <= l.start <= l.end <= l.next
  {
  }

  lemma LexMore(js: string, i: nat)
    requires !AtEnd(js, i)
    ensures !Lex(js, i).End?
  {
  }

  lemma LexEnd(js: string, i: nat)
    requires AtEnd(js, i)
    ensures Lex(js, i).End?
  {
  }

  lemma KindsEmpty(toks: seq<Tok>, open: seq<nat>)
    requires forall k | 0 <= k < |open| :: open[k] < |toks|
    ensures Kinds(toks, open) == [] <==> open == []
  {
  }

  /** jsmn_parser, with the open containers and the superior of every token as ghosts. */
  class Parser {
    var pos: nat
    var toknext: nat
    var toksuper: int
    ghost var open: seq<nat>
    ghost var parents: seq<int>

    /** jsmn_init */
    constructor ()
      ensures pos == 0 && toknext == 0 && toksuper == -1 && open == [] && parents == []
    {
      pos, toknext, toksuper, open, parents := 0, 0, -1, [], [];
    }

    /** The state with everything before `next` read. */
    ghost predicate Valid(js: string, tokens: array?<Tok>, next: nat)
      reads this, tokens
    {
      if tokens == null then toknext == 0 && toksuper == -1
      else toknext <= tokens.Length && Inv(js, tokens[..toknext], toksuper, open, parents, next)
    }

    /** jsmn_alloc_token and jsmn_fill_token */
    method NewToken(tokens: array<Tok>, kind: Kind, start: int, end: int) returns (ok: bool)
      requires toknext <= tokens.Length
      modifies this`toknext, tokens
      ensures ok <==> old(toknext) < tokens.Length
      ensures ok ==> toknext == old(toknext) + 1 && tokens[..toknext] == old(tokens[..toknext]) + [Tok(kind, start, end, 0)]
      ensures !ok ==> toknext == old(toknext) && tokens[..] == old(tokens[..])
    {
      if toknext >= tokens.Length {
        return false;
      }
      tokens[toknext] := Tok(kind, start, end, 0);
      toknext := toknext + 1;
      ok := true;
    }

    /** jsmn_parse_primitive */
    method ParsePrimitive(js: string, tokens: array?<Tok>) returns (r: int)
      requires pos < |js| && !AtEnd(js, pos) && !EndsPrimitive(js[pos])
      requires tokens != null ==> toknext <= tokens.Length
      modifies this`pos, this`toknext, tokens
      ensures ItemRead(old(pos), ScanPrimitive(js, old(pos)), tokens, r)
      ensures var s := ScanPrimitive(js, old(pos)); r == 0 ==> s.Done? && pos == s.end - 1
      ensures r == 0 && tokens != null ==>
                tokens[..toknext] == old(tokens[..toknext]) + [Tok(Primitive, old(pos), ScanPrimitive(js, old(pos)).end, 0)]
    {
      var start := pos;
      while !AtEnd(js, pos) && !EndsPrimitive(js[pos])
        invariant start <= pos <= |js| && ScanPrimitive(js, pos) == ScanPrimitive(js, start)
        modifies this`pos
        decreases |js| - pos
      {
        if js[pos] < ' ' || js[pos] >= '\U{7F}' {
          pos := start;
          return INVAL;
        }
        pos := pos + 1;
      }
      if tokens == null {
        pos := pos - 1;
        return 0;
      }
      var ok := NewToken(tokens, Primitive, start, pos);
      if !ok {
        pos := start;
        return NOMEM;
      }
      pos := pos - 1;
      r := 0;
    }

    /** What reading a string or primitive does: it fails with the lexical error, for want
        of a token, or succeeds with one more. */
    twostate predicate ItemRead(start: nat, s: Lexed, tokens: array?<Tok>, r: int)
      reads this, tokens
    {
      && (s.Bad? ==> r == s.err)
      && (s.Done? ==> r == if tokens != null && old(toknext) >= tokens.Length then NOMEM else 0)
      && (r == 0 && tokens != null ==> old(toknext) < tokens.Length && toknext == old(toknext) + 1)
      && (r != 0 ==> pos == start && toknext == old(toknext) && (tokens != null ==> tokens[..] == old(tokens[..])))
      && (tokens == null ==> toknext == old(toknext))
    }

    /** The switch after a backslash, up to the last character of the escape. */
    method SkipEscape(js: string) returns (r: int)
      requires pos + 1 < |js| && js[pos] == '\\'
      modifies this`pos
      ensures r == 0 || r == INVAL
      ensures r == 0 ==> pos > old(pos) && ScanString(js, pos + 1) == ScanString(js, old(pos))
      ensures r == INVAL ==> ScanString(js, old(pos)) == Bad(INVAL)
    {
      pos := pos + 1;
      if IsEscape(js[pos]) {
        return 0;
      }
      if js[pos] != 'u' {
        return INVAL;
      }
      pos := pos + 1;
      var i := 0;
      while i < 4 && !AtEnd(js, pos)
        invariant 0 <= i <= 4 && pos == old(pos) + 2 + i
        invariant ScanHex(js, pos, 4 - i) == ScanHex(js, old(pos) + 2, 4)
      {
        if !IsHex(js[pos]) {
          return INVAL;
        }
        pos := pos + 1;
        i := i + 1;
      }
      pos := pos - 1;
      r := 0;
    }

    /** jsmn_parse_string */
    method ParseString(js: string, tokens: array?<Tok>) returns (r: int)
      requires pos < |js| && js[pos] == '"'
      requires tokens != null ==> toknext <= tokens.Length
      modifies this`pos, this`toknext, tokens
      ensures ItemRead(old(pos), ScanString(js, old(pos) + 1), tokens, r)
      ensures var s := ScanString(js, old(pos) + 1); r == 0 ==> s.Done? && pos == s.end
      ensures r == 0 && tokens != null ==>
                tokens[..toknext] == old(tokens[..toknext]) + [Tok(String, old(pos) + 1, ScanString(js, old(pos) + 1).end, 0)]
    {
      var start := pos;
      pos := pos + 1;
      while !AtEnd(js, pos)
        invariant start < pos && ScanString(js, pos) == ScanString(js, start + 1)
        modifies this`pos
        decreases |js| - pos
      {
        var c := js[pos];
        if c == '"' {
          break;
        }
        if c == '\\' && pos + 1 < |js| {
          var e := SkipEscape(js);
          if e < 0 {
            pos := start;
            return e;
          }
        }
        pos := pos + 1;
      }
      if AtEnd(js, pos) {
        pos := start;
        return PART;
      }
      if tokens == null {
        return 0;
      }
      var ok := NewToken(tokens, String, start + 1, pos);
      if !ok {
        pos := start;
        return NOMEM;
      }
      r := 0;
    }

    /** The stack of the recognizer. */
    ghost function Stack(js: string, tokens: array<Tok>, next: nat): seq<Kind>
      requires Valid(js, tokens, next)
      reads this, tokens
    {
      OpenInRange(tokens[..toknext], open);
      Kinds(tokens[..toknext], open)
    }

    /** The tokens and the superior one. */
    ghost function Built(tokens: array<Tok>): Build
      requires toknext <= tokens.Length
      reads this, tokens
    {
      Build(tokens[..toknext], toksuper)
    }

    /** tokens[toksuper].size++ */
    method BumpSuper(tokens: array<Tok>)
      requires toknext <= tokens.Length && -1 <= toksuper < toknext
      modifies tokens
      ensures tokens[..toknext] == Bump(old(tokens[..toknext]), toksuper)
    {
      if toksuper != -1 {
        tokens[toksuper] := tokens[toksuper].(size := tokens[toksuper].size + 1);
      }
    }

    /** An opening bracket, when tokens are kept. */
    method OnOpen(js: string, tokens: array<Tok>, kind: Kind) returns (ok: bool)
      requires Valid(js, tokens, pos) && pos < |js| && IsContainer(kind) && js[pos] == Opener(kind)
      modifies this`toknext, this`toksuper, this`open, this`parents, tokens
      ensures ok <==> old(toknext) < tokens.Length
      ensures ok ==> toknext == old(toknext) + 1 && Valid(js, tokens, pos + 1) &&
                     Stack(js, tokens, pos + 1) == old(Stack(js, tokens, pos)) + [kind]
      ensures Sound(old(Built(tokens)))
      ensures ok ==> Built(tokens) == Feed(old(Built(tokens)), pos, Open(kind, pos + 1))
    {
      hide Inv, Bump;
      Facts(js, tokens, pos);
      ghost var toks := tokens[..toknext];
      ok := NewToken(tokens, kind, pos, -1);
      if !ok {
        return;
      }
      KindsKept(toks, toksuper, Tok(kind, pos, -1, 0), open);
      Opened(js, toks, toksuper, open, parents, pos, kind);
      BumpSuper(tokens);
      open, parents := open + [toknext - 1], parents + [toksuper];
      toksuper := toknext - 1;
    }

    lemma Facts(js: string, tokens: array<Tok>, next: nat)
      requires Valid(js, tokens, next)
      ensures -1 <= toksuper < toknext && (toksuper == -1 ==> open == []) && OpenOk(tokens[..toknext], open)
      ensures (forall k | 0 <= k < |open| :: open[k] < toknext) && (forall i | i in open :: i <= toknext - 1)
      ensures (forall i | 0 <= i < toknext :: tokens[i].start >= 0) && Sound(Built(tokens))
    {
      OpenInRange(tokens[..toknext], open);
    }

    /** The scans for an open token, from `from` down: the index of the nearest, or -1. */
    method FindOpen(tokens: array<Tok>, from: int) returns (i: int)
      requires -1 <= from < toknext <= tokens.Length || from == -1
      requires forall k | 0 <= k <= from :: tokens[k].start >= 0
      ensures i == LastOpen(tokens[..from + 1])
    {
      i := from;
      while i >= 0 && !(tokens[i].start != -1 && tokens[i].end == -1)
        invariant -1 <= i <= from && LastOpen(tokens[..i + 1]) == LastOpen(tokens[..from + 1])
      {
        assert tokens[..i + 1][..i] == tokens[..i];
        i := i - 1;
      }
    }

    /** A closing bracket, when tokens are kept: it must match the innermost open container. */
    method OnClose(js: string, tokens: array<Tok>, kind: Kind) returns (r: int)
      requires Valid(js, tokens, pos) && pos < |js| && IsContainer(kind) && js[pos] == Closer(kind)
      modifies this`toksuper, this`open, tokens
      ensures var stack := old(Stack(js, tokens, pos));
              if stack == [] || stack[|stack| - 1] != kind then r == INVAL
              else r == 0 && Valid(js, tokens, pos + 1) && Stack(js, tokens, pos + 1) == stack[..|stack| - 1]
      ensures Sound(old(Built(tokens)))
      ensures r == 0 ==> Built(tokens) == Feed(old(Built(tokens)), pos, Close(kind, pos + 1))
    {
      hide Inv, OpenOk, LastOpen;
      Facts(js, tokens, pos);
      ghost var toks := tokens[..toknext];
      var i := FindOpen(tokens, toknext - 1);
      InnermostIsLast(toks, open);
      if i == -1 {
        return INVAL;
      }
      if tokens[i].kind != kind {
        return INVAL;
      }
      AfterClose(js, toks, toksuper, open, parents, pos);
      KindsClosed(toks, open, i, tokens[i].(end := pos + 1));
      tokens[i] := tokens[i].(end := pos + 1);
      ghost var closed := toks[i := toks[i].(end := pos + 1)];
      assert tokens[..toknext] == closed;
      assert tokens[..i + 1] == closed[..i + 1];
      toksuper := FindOpen(tokens, i);
      open := open[..|open| - 1];
      r := 0;
    }

    /** A comma: back from a key to the container it is in. What is read in place of a
        superior token when there is none may be anything. */
    method OnComma(js: string, tokens: array<Tok>)
      requires Valid(js, tokens, pos)
      modifies this`toksuper
      ensures Valid(js, tokens, pos) && Stack(js, tokens, pos) == old(Stack(js, tokens, pos))
      ensures Sound(old(Built(tokens))) && Built(tokens) == Feed(old(Built(tokens)), pos, Other(Comma, pos + 1))
    {
      hide LastOpen;
      Facts(js, tokens, pos);
      InnermostIsLast(tokens[..toknext], open);
      var kind: Kind := *;
      if toksuper != -1 {
        kind := tokens[toksuper].kind;
      }
      if kind != Array && kind != Object {
        var i := FindOpen(tokens, toknext - 1);
        if i >= 0 {
          toksuper := i;
        }
      }
    }

    /** A colon: the last token is the key of what follows. */
    method OnColon(js: string, tokens: array?<Tok>)
      requires Valid(js, tokens, pos)
      modifies this`toksuper
      ensures Valid(js, tokens, pos)
      ensures tokens != null ==> Stack(js, tokens, pos) == old(Stack(js, tokens, pos))
      ensures tokens != null ==>
                Sound(old(Built(tokens))) && Built(tokens) == Feed(old(Built(tokens)), pos, Other(Colon, pos + 1))
    {
      if tokens != null {
        Facts(js, tokens, pos);
        NoTokens(tokens[..toknext], open);
      }
      toksuper := toknext - 1;
    }

    /** A string or a primitive, and its place among the children of the superior token. */
    method OnItem(js: string, tokens: array?<Tok>) returns (r: int)
      requires Valid(js, tokens, pos) && (Lex(js, pos).Item? || Lex(js, pos).Fail?)
      modifies this`pos, this`toknext, this`parents, tokens
      ensures var l := Lex(js, old(pos));
              if l.Fail? then r == l.err
              else if tokens != null && old(toknext) == tokens.Length then r == NOMEM
              else r == 0 && pos == l.next - 1 && Valid(js, tokens, l.next) &&
                   (tokens != null ==>
                      && toknext == old(toknext) + 1 && Stack(js, tokens, l.next) == old(Stack(js, tokens, pos))
                      && Sound(old(Built(tokens))) && Built(tokens) == Feed(old(Built(tokens)), old(pos), l))
    {
      hide Inv, Bump, ScanString, ScanPrimitive;
      ghost var l, start := Lex(js, pos), pos;
      ghost var toks := if tokens == null then [] else tokens[..toknext];
      if tokens != null {
        Facts(js, tokens, pos);
      }
      if js[pos] == '"' {
        r := ParseString(js, tokens);
      } else {
        r := ParsePrimitive(js, tokens);
      }
      if r < 0 {
        return;
      }
      if tokens != null {
        ghost var t := Tok(l.kind, l.start, l.end, 0);
        assert tokens[..toknext] == toks + [t];
        ItemText(js, start);
        Added(js, toks, toksuper, open, parents, start, t, l.next);
        KindsKept(toks, toksuper, t, open);
        BumpSuper(tokens);
        parents := parents + [toksuper];
      }
    }

    /** One round of the loop of jsmn_parse, with the number of tokens it counts. */
    method Round(js: string, tokens: array?<Tok>) returns (r: int, made: nat)
      requires Valid(js, tokens, pos) && !AtEnd(js, pos)
      modifies this, tokens
      ensures var l := Lex(js, old(pos));
              if tokens == null then (if l.Fail? then r == l.err else r == 0 && pos == l.next && made == Makes(l) && Valid(js, null, pos))
              else
                match Advance(l, old(Stack(js, tokens, pos)), tokens.Length - old(toknext))
                case Refused(e) => r == e && e < 0
                case Stacked(stack) =>
                  && r == 0 && pos == l.next && made == Makes(l) && toknext == old(toknext) + made
                  && Valid(js, tokens, pos) && Stack(js, tokens, pos) == stack
                  && Sound(old(Built(tokens))) && Built(tokens) == Feed(old(Built(tokens)), old(pos), l)
    {
      hide Inv, OpenOk, Kinds, Feed, LastOpen, Bump, ScanString, ScanPrimitive, Sound;
      r, made := 0, 0;
      if tokens != null {
        Facts(js, tokens, pos);
      }
      var c := js[pos];
      if c == '{' || c == '[' {
        made := 1;
        if tokens != null {
          var ok := OnOpen(js, tokens, if c == '{' then Object else Array);
          if !ok {
            return NOMEM, made;
          }
        }
      } else if c == '}' || c == ']' {
        if tokens != null {
          r := OnClose(js, tokens, if c == '}' then Object else Array);
          if r < 0 {
            return;
          }
        }
      } else if c == '"' {
        r := OnItem(js, tokens);
        if r < 0 {
          return;
        }
        made := 1;
      } else if IsSpace(c) {
        if tokens != null {
          BlankKeeps(Built(tokens), pos);
        }
        Skip(js, tokens);
      } else if c == ':' {
        OnColon(js, tokens);
        Skip(js, tokens);
      } else if c == ',' {
        if tokens != null {
          OnComma(js, tokens);
        }
        Skip(js, tokens);
      } else {
        r := OnItem(js, tokens);
        if r < 0 {
          return;
        }
        made := 1;
      }
      pos := pos + 1;
    }

    /** Reading on without a token keeps everything. */
    lemma Skip(js: string, tokens: array?<Tok>)
      requires Valid(js, tokens, pos)
      ensures Valid(js, tokens, pos + 1)
      ensures tokens != null ==> Stack(js, tokens, pos + 1) == Stack(js, tokens, pos)
    {
    }

    /** jsmn_parse from the start: without tokens it is the counting pass; with tokens it is
        the filling pass, and after success the tokens it has filled are a proper parse. */
    method Parse(js: string, tokens: array?<Tok>) returns (r: int)
      requires pos == 0 && toknext == 0 && toksuper == -1 && open == [] && parents == []
      modifies this, tokens
      ensures tokens == null ==> r == CountPass(js, 0)
      ensures tokens != null ==> r == FillPass(js, 0, [], tokens.Length)
      ensures tokens != null && r >= 0 ==>
                r <= tokens.Length && Parsed(js, tokens[..r], parents) && tokens[..r] == Run(js, 0, EMPTY).toks
    {
      hide Inv, OpenOk, Kinds, Lex, Feed, LastOpen;
      var count := 0;
      Start(js, tokens);
      while !AtEnd(js, pos)
        invariant pos <= |js| && Valid(js, tokens, pos)
        invariant tokens == null ==> Plus(CountPass(js, pos), count) == CountPass(js, 0)
        invariant tokens != null ==>
                    && count == toknext && Sound(Built(tokens)) && Run(js, pos, Built(tokens)) == Run(js, 0, EMPTY)
                    && Plus(FillPass(js, pos, Stack(js, tokens, pos), tokens.Length - toknext), count) ==
                       FillPass(js, 0, [], tokens.Length)
        decreases |js| - pos
      {
        var made;
        LexMore(js, pos);
        r, made := Round(js, tokens);
        if r < 0 {
          return;
        }
        count := count + made;
      }
      LexEnd(js, pos);
      if tokens != null {
        Facts(js, tokens, pos);
        var i := FindOpen(tokens, toknext - 1);
        InnermostIsLast(tokens[..toknext], open);
        KindsEmpty(tokens[..toknext], open);
        if i >= 0 {
          return PART;
        }
        ParsedWhenClosed(js, tokens[..toknext], toksuper, parents, pos);
      }
      r := count;
    }

    lemma Start(js: string, tokens: array?<Tok>)
      requires pos == 0 && toknext == 0 && toksuper == -1 && open == [] && parents == []
      ensures Valid(js, tokens, 0) && (tokens != null ==> Stack(js, tokens, 0) == [])
    {
    }
  }

  /** The two passes as the configuration code runs them: count, allocate, fill. The second
      never runs out of tokens, and both together succeed exactly on texts with at least
      one token whose brackets match. */
  method CountAndFill(js: string) returns (ok: bool, tokens: array<Tok>, ghost parents: seq<int>)
    ensures fresh(tokens)
    ensures ok <==> MatchPass(js, 0, []) > 0
    ensures ok ==> tokens.Length == MatchPass(js, 0, []) == CountPass(js, 0) && Parsed(js, tokens[..], parents) &&
                   tokens[..] == Run(js, 0, EMPTY).toks
  {
    ok, parents := false, [];
    tokens := new Tok[0];
    var first := new Parser();
    var n := first.Parse(js, null);
    if n <= 0 {
      if n < 0 {
        NeitherAccepts(js, 0, []);
      } else {
        TwoPasses(js, 0, [], 0);
      }
      return;
    }
    tokens := new Tok[n](_ => Tok(Primitive, -1, -1, 0));
    var second := new Parser();
    var m := second.Parse(js, tokens);
    TwoPasses(js, 0, [], n);
    parents := second.parents;
    ok := m >= 1;
    assert ok ==> tokens[..m] == tokens[..];
  }

  /** On the text of any JSON value both passes succeed, and the tokens are the value's tree
      in preorder. */
  method ParseDocument(js: string, ghost doc: JsmnJson.Elem) returns (tokens: array<Tok>)
    requires JsmnJson.ElemOk(doc) && js == JsmnJson.ElemText(doc)
    ensures tokens[..] == JsmnJson.ElemToks(doc, 0)
  {
    hide JsmnJson.ElemText, JsmnJson.ElemOk;
    JsmnJson.ReadsEveryJson(doc);
    JsmnJson.TokensClosed(doc.value, |doc.before|);
    var ok;
    ghost var parents;
    ok, tokens, parents := CountAndFill(js);
  }
}
