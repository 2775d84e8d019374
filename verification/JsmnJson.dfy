/** JSON texts as trees, white space included, and what jsmn makes of them: it accepts every
    one, and its tokens are the tree in preorder, each with its span and the number of its
    children. */
module JsmnJson {
  import opened Texts
  import opened JsmnSpec
  import opened JsmnTokens
  import opened JsmnMachine

  /** A value as it is written. A primitive is any unquoted text. */
  datatype Json =
    | Prim(text: string)
    | Str(units: seq<Unit>)
    | EmptyArr(ws: string)
    | Arr(elems: Elems)
    | EmptyObj(ws: string)
    | Obj(members: Members)

  /** A value with the white space around it. */
  datatype Elem = Elem(before: string, value: Json, after: string)

  datatype Elems = One(e: Elem) | More(e: Elem, rest: Elems)

  /** A key, with the white space around it, and its value. */
  datatype Member = Member(before: string, key: seq<Unit>, mid: string, value: Elem)

  datatype Members = Single(m: Member) | And(m: Member, others: Members)

  // ---- Texts ----

  function Quoted(units: seq<Unit>): string { "\"" + Text(units) + "\"" }

  function TextOf(v: Json): (s: string)
    ensures v.Str? || v.EmptyArr? || v.Arr? || v.EmptyObj? || v.Obj? ==> |s| >= 2
  {
    match v
    case Prim(text) => text
    case Str(units) => Quoted(units)
    case EmptyArr(ws) => "[" + ws + "]"
    case Arr(elems) => "[" + ElemsText(elems) + "]"
    case EmptyObj(ws) => "{" + ws + "}"
    case Obj(members) => "{" + MembersText(members) + "}"
  }

  function ElemText(e: Elem): string { e.before + TextOf(e.value) + e.after }

  function ElemsText(es: Elems): string
  {
    match es
    case One(e) => ElemText(e)
    case More(e, rest) => ElemText(e) + "," + ElemsText(rest)
  }

  /** Up to and with the colon. */
  function KeyText(m: Member): string { m.before + Quoted(m.key) + m.mid + ":" }

  function MemberText(m: Member): string { KeyText(m) + ElemText(m.value) }

  function MembersText(ms: Members): string
  {
    match ms
    case Single(m) => MemberText(m)
    case And(m, others) => MemberText(m) + "," + MembersText(others)
  }

  // ---- Which trees are JSON ----

  predicate Blanks(ws: string) { forall i | 0 <= i < |ws| :: IsSpace(ws[i]) }

  predicate UnitsOk(units: seq<Unit>) { forall u | u in units :: UnitOk(u) }

  /** Numbers, true, false and null are among these. */
  predicate PrimOk(text: string)
  {
    && text != "" && text[0] != '{' && text[0] != '[' && text[0] != '"'
    && forall i | 0 <= i < |text| :: ' ' <= text[i] < '\U{7F}' && !EndsPrimitive(text[i])
  }

  predicate JsonOk(v: Json)
  {
    match v
    case Prim(text) => PrimOk(text)
    case Str(units) => UnitsOk(units)
    case EmptyArr(ws) => Blanks(ws)
    case Arr(elems) => ElemsOk(elems)
    case EmptyObj(ws) => Blanks(ws)
    case Obj(members) => MembersOk(members)
  }

  predicate ElemOk(e: Elem) { Blanks(e.before) && JsonOk(e.value) && Blanks(e.after) }

  predicate ElemsOk(es: Elems)
  {
    match es
    case One(e) => ElemOk(e)
    case More(e, rest) => ElemOk(e) && ElemsOk(rest)
  }

  predicate MemberOk(m: Member) { Blanks(m.before) && UnitsOk(m.key) && Blanks(m.mid) && ElemOk(m.value) }

  predicate MembersOk(ms: Members)
  {
    match ms
    case Single(m) => MemberOk(m)
    case And(m, others) => MemberOk(m) && MembersOk(others)
  }

  // ---- The tokens they should have ----

  function Count(es: Elems): nat
  {
    match es
    case One(_) => 1
    case More(_, rest) => 1 + Count(rest)
  }

  function MemberCount(ms: Members): nat
  {
    match ms
    case Single(_) => 1
    case And(_, others) => 1 + MemberCount(others)
  }

  /** The tokens of a value whose text starts at a position: the value itself, then what is
      in it. A container counts its elements or keys, and a key its value. */
  function Tokens(v: Json, at: nat): seq<Tok>
  {
    var end := at + |TextOf(v)|;
    match v
    case Prim(_) => [Tok(Primitive, at, end, 0)]
    case Str(_) => [Tok(String, at + 1, end - 1, 0)]
    case EmptyArr(_) => [Tok(Array, at, end, 0)]
    case Arr(elems) => [Tok(Array, at, end, Count(elems))] + ElemsToks(elems, at + 1)
    case EmptyObj(_) => [Tok(Object, at, end, 0)]
    case Obj(members) => [Tok(Object, at, end, MemberCount(members))] + MembersToks(members, at + 1)
  }

  function ElemToks(e: Elem, at: nat): seq<Tok> { Tokens(e.value, at + |e.before|) }

  function ElemsToks(es: Elems, at: nat): seq<Tok>
  {
    match es
    case One(e) => ElemToks(e, at)
    case More(e, rest) => ElemToks(e, at) + ElemsToks(rest, at + |ElemText(e)| + 1)
  }

  function KeyTok(m: Member, at: nat, size: nat): Tok
  {
    var start := at + |m.before| + 1;
    Tok(String, start, start + |Text(m.key)|, size)
  }

  function MemberToks(m: Member, at: nat): seq<Tok>
  {
    [KeyTok(m, at, 1)] + ElemToks(m.value, at + |KeyText(m)|)
  }

  function MembersToks(ms: Members, at: nat): seq<Tok>
  {
    match ms
    case Single(m) => MemberToks(m, at)
    case And(m, others) => MemberToks(m, at) + MembersToks(others, at + |MemberText(m)| + 1)
  }

  // ---- Reading a text at a position ----

  /** The end of the text or a character that ends a primitive. */
  predicate Delim(js: string, i: nat) { AtEnd(js, i) || EndsPrimitive(js[i]) }

  lemma {:induction false} ScanToDelim(js: string, i: nat, text: string)
    requires Here(js, i, text) && Delim(js, i + |text|)
    requires forall k | 0 <= k < |text| :: ' ' <= text[k] < '\U{7F}' && !EndsPrimitive(text[k])
    ensures ScanPrimitive(js, i) == Done(i + |text|)
    decreases |text|
  {
    if text != "" {
      FirstChar(js, i, text);
      assert text == text[..1] + text[1..];
      Split(js, i, text[..1], text[1..]);
      ScanToDelim(js, i + 1, text[1..]);
    }
  }

  lemma LexPrim(js: string, i: nat, text: string)
    requires PrimOk(text) && Here(js, i, text) && Delim(js, i + |text|)
    ensures Lex(js, i) == Item(Primitive, i, i + |text|, i + |text|)
  {
    FirstChar(js, i, text);
    ScanToDelim(js, i, text);
  }

  lemma LexString(js: string, i: nat, units: seq<Unit>)
    requires UnitsOk(units) && Here(js, i, Quoted(units))
    ensures var end := i + 1 + |Text(units)|; Lex(js, i) == Item(String, i + 1, end, end + 1)
  {
    hide Text, UnitOk, ScanString;
    var t := Text(units);
    assert Quoted(units) == "\"" + (t + "\"");
    Split(js, i, "\"", t + "\"");
    Split(js, i + 1, t, "\"");
    FirstChar(js, i, "\"");
    FirstChar(js, i + 1 + |t|, "\"");
    AcceptsString(js, i + 1, units);
  }

  // ---- Steps of both passes ----

  /** From position i with state b the parser gets to position j with state b', and on the
      way the recognizer has counted n tokens and left the stack as it was. */
  ghost predicate Reads(js: string, i: nat, b: Build, j: nat, b': Build, n: nat)
  {
    && i <= j <= |js| && Sound(b) && Sound(b') && Run(js, i, b) == Run(js, j, b')
    && forall stack: seq<Kind> :: MatchPass(js, i, stack) == Plus(MatchPass(js, j, stack), n)
  }

  lemma Then(js: string, i: nat, b: Build, j: nat, b': Build, n: nat, k: nat, b'': Build, m: nat)
    requires Reads(js, i, b, j, b', n) && Reads(js, j, b', k, b'', m)
    ensures Reads(js, i, b, k, b'', n + m)
  {
    hide Run, MatchPass;
  }

  lemma ReadNothing(js: string, i: nat, b: Build)
    requires i <= |js| && Sound(b)
    ensures Reads(js, i, b, i, b, 0)
  {
  }

  /** An item or a separator. */
  lemma ReadLexeme(js: string, i: nat, b: Build)
    requires Sound(b) && (Lex(js, i).Item? || Lex(js, i).Other?)
    ensures var l := Lex(js, i); Reads(js, i, b, l.next, Feed(b, i, l), Makes(l))
  {
    hide Lex, Feed;
  }

  lemma {:induction false} ReadBlanks(js: string, i: nat, ws: string, b: Build)
    requires Blanks(ws) && Here(js, i, ws) && Sound(b)
    ensures Reads(js, i, b, i + |ws|, b, 0)
    decreases |ws|
  {
    if ws == "" {
      ReadNothing(js, i, b);
    } else {
      FirstChar(js, i, ws);
      assert ws == ws[..1] + ws[1..];
      Split(js, i, ws[..1], ws[1..]);
      ReadLexeme(js, i, b);
      assert Lex(js, i) == Other(Blank, i + 1);
      hide Lex, Reads;
      ReadBlanks(js, i + 1, ws[1..], b);
      Then(js, i, b, i + 1, b, 0, i + |ws|, b, 0);
    }
  }

  /** What stands between matching brackets. */
  lemma ReadBrackets(js: string, i: nat, kind: Kind, b: Build, j: nat, b': Build, n: nat)
    requires IsContainer(kind) && i < j < |js| && js[i] == Opener(kind) && js[j] == Closer(kind) && Sound(b)
    requires Reads(js, i + 1, Feed(b, i, Open(kind, i + 1)), j, b', n)
    ensures Reads(js, i, b, j + 1, Feed(b', j, Close(kind, j + 1)), n + 1)
  {
    assert Lex(js, i) == Open(kind, i + 1) && Lex(js, j) == Close(kind, j + 1);
    hide Lex, Feed;
    forall stack: seq<Kind> ensures MatchPass(js, i, stack) == Plus(MatchPass(js, j + 1, stack), n + 1) {
      var inner := stack + [kind];
      assert inner[..|inner| - 1] == stack;
      assert MatchPass(js, i + 1, inner) == Plus(MatchPass(js, j, inner), n);
    }
  }

  // ---- Token sequences ----

  function AddSize(toks: seq<Tok>, a: nat, n: nat): seq<Tok>
    requires a < |toks|
  {
    toks[a := toks[a].(size := toks[a].size + n)]
  }

  ghost predicate AllClosed(toks: seq<Tok>) { forall i | 0 <= i < |toks| :: toks[i].end != -1 }

  lemma {:induction false} LastOpenAppend(toks: seq<Tok>, more: seq<Tok>)
    requires AllClosed(more)
    ensures LastOpen(toks + more) == LastOpen(toks)
    decreases |more|
  {
    if more == [] {
      assert toks + more == toks;
    } else {
      var less := more[..|more| - 1];
      assert (toks + more)[..|toks + more| - 1] == toks + less;
      LastOpenAppend(toks, less);
    }
  }

  /** The last open token depends only on which tokens are closed. */
  lemma LastOpenSame(toks: seq<Tok>, toks': seq<Tok>)
    requires |toks| == |toks'| && forall i | 0 <= i < |toks| :: toks[i].end == -1 <==> toks'[i].end == -1
    ensures LastOpen(toks) == LastOpen(toks')
  {
    var i, j := LastOpen(toks), LastOpen(toks');
    assert i >= 0 ==> toks'[i].end == -1;
    assert j >= 0 ==> toks[j].end == -1;
  }

  lemma {:induction false} TokensClosed(v: Json, at: nat)
    ensures AllClosed(Tokens(v, at)) && Tokens(v, at) != []
  {
    match v
    case Arr(elems) => ElemsClosed(elems, at + 1);
    case Obj(members) => MembersClosed(members, at + 1);
    case _ =>
  }

  lemma {:induction false} ElemsClosed(es: Elems, at: nat)
    ensures AllClosed(ElemsToks(es, at))
  {
    TokensClosed(es.e.value, at + |es.e.before|);
    if es.More? {
      ElemsClosed(es.rest, at + |ElemText(es.e)| + 1);
    }
  }

  lemma {:induction false} MembersClosed(ms: Members, at: nat)
    ensures AllClosed(MembersToks(ms, at))
  {
    var at' := at + |KeyText(ms.m)|;
    TokensClosed(ms.m.value.value, at' + |ms.m.value.before|);
    var own := ElemToks(ms.m.value, at');
    assert MemberToks(ms.m, at) == [KeyTok(ms.m, at, 1)] + own && AllClosed(MemberToks(ms.m, at));
    if ms.And? {
      MembersClosed(ms.others, at + |MemberText(ms.m)| + 1);
    }
  }

  /** A container that has been filled and is closed. */
  lemma ContainerDone(b: Build, kind: Kind, i: nat, n: nat, more: seq<Tok>, s: int, j: nat)
    requires Sound(b) && AllClosed(more)
    requires var toks := AddSize(Bump(b.toks, b.super) + [Tok(kind, i, -1, 0)], |b.toks|, n) + more; Sound(Build(toks, s))
    ensures var toks := AddSize(Bump(b.toks, b.super) + [Tok(kind, i, -1, 0)], |b.toks|, n) + more;
            Feed(Build(toks, s), j, Close(kind, j + 1)) ==
            Build(Bump(b.toks, b.super) + ([Tok(kind, i, j + 1, n)] + more), LastOpen(b.toks))
  {
    var front := Bump(b.toks, b.super);
    var begun := AddSize(front + [Tok(kind, i, -1, 0)], |b.toks|, n);
    assert begun == front + [Tok(kind, i, -1, n)];
    var toks := begun + more;
    LastOpenAppend(begun, more);
    assert LastOpen(begun) == |front|;
    var closed := [Tok(kind, i, j + 1, n)] + more;
    assert toks[|front| := toks[|front|].(end := j + 1)] == front + closed;
    LastOpenAppend(front, closed);
    LastOpenSame(front, b.toks);
  }

  // ---- Values ----

  predicate IsTree(v: Json) { !v.Prim? && !v.Str? }

  /** The state after a value: its tokens, the first of them a child of the superior one; a
      container leaves the innermost open container superior. */
  function After(b: Build, v: Json, at: nat): Build
    requires Sound(b)
  {
    Build(Bump(b.toks, b.super) + Tokens(v, at), if IsTree(v) then LastOpen(b.toks) else b.super)
  }

  /** An item with no children. */
  lemma {:induction false} ReadLeaf(js: string, i: nat, v: Json, b: Build, t: Tok)
    requires Sound(b) && !IsTree(v) && Tokens(v, i) == [t] && t.size == 0 && t.start >= 0 && t.end >= 0
    requires Lex(js, i) == Item(t.kind, t.start, t.end, i + |TextOf(v)|)
    ensures Reads(js, i, b, i + |TextOf(v)|, After(b, v, i), 1)
  {
    hide Lex, Reads, TextOf, Tokens, LastOpen;
    ReadLexeme(js, i, b);
  }

  lemma {:induction false} ReadPrim(js: string, i: nat, text: string, b: Build)
    requires PrimOk(text) && Here(js, i, text) && Delim(js, i + |text|) && Sound(b)
    ensures Reads(js, i, b, i + |text|, After(b, Prim(text), i), 1)
  {
    hide Reads, Lex, After, PrimOk;
    LexPrim(js, i, text);
    ReadLeaf(js, i, Prim(text), b, Tok(Primitive, i, i + |text|, 0));
  }

  lemma {:induction false} ReadStr(js: string, i: nat, units: seq<Unit>, b: Build)
    requires UnitsOk(units) && Here(js, i, Quoted(units)) && Sound(b)
    ensures Reads(js, i, b, i + |Quoted(units)|, After(b, Str(units), i), 1)
  {
    hide Reads, Lex, After, Text, UnitsOk;
    LexString(js, i, units);
    ReadLeaf(js, i, Str(units), b, Tok(String, i + 1, i + 1 + |Text(units)|, 0));
  }

  lemma {:induction false} ReadEmpty(js: string, i: nat, kind: Kind, ws: string, b: Build)
    requires IsContainer(kind) && Blanks(ws) && Here(js, i, [Opener(kind)] + ws + [Closer(kind)]) && Sound(b)
    ensures var j := i + |ws| + 2;
            Reads(js, i, b, j, Build(Bump(b.toks, b.super) + [Tok(kind, i, j, 0)], LastOpen(b.toks)), 1)
  {
    hide Reads;
    var b1 := Feed(b, i, Open(kind, i + 1));
    Split(js, i, [Opener(kind)] + ws, [Closer(kind)]);
    Split(js, i, [Opener(kind)], ws);
    FirstChar(js, i, [Opener(kind)]);
    FirstChar(js, i + 1 + |ws|, [Closer(kind)]);
    ReadBlanks(js, i + 1, ws, b1);
    ReadBrackets(js, i, kind, b, i + 1 + |ws|, b1, 0);
    assert AddSize(b1.toks, |b.toks|, 0) + [] == b1.toks;
    ContainerDone(b, kind, i, 0, [], b1.super, i + 1 + |ws|);
    assert [Tok(kind, i, i + |ws| + 2, 0)] + [] == [Tok(kind, i, i + |ws| + 2, 0)];
  }

  lemma {:induction false} ReadValue(js: string, i: nat, v: Json, b: Build)
    requires JsonOk(v) && Here(js, i, TextOf(v)) && Delim(js, i + |TextOf(v)|) && Sound(b)
    ensures Reads(js, i, b, i + |TextOf(v)|, After(b, v, i), |Tokens(v, i)|)
    decreases v
  {
    hide Reads, Delim;
    match v
    case Prim(text) => ReadPrim(js, i, text, b);
    case Str(units) => ReadStr(js, i, units, b);
    case EmptyArr(ws) => ReadEmpty(js, i, Array, ws, b);
    case EmptyObj(ws) => ReadEmpty(js, i, Object, ws, b);
    case Arr(elems) => ReadArray(js, i, elems, b);
    case Obj(members) => ReadObject(js, i, members, b);
  }

  lemma {:induction false} ElemHere(js: string, i: nat, e: Elem)
    requires ElemOk(e) && Here(js, i, ElemText(e)) && Delim(js, i + |ElemText(e)|)
    ensures Blanks(e.before) && JsonOk(e.value) && Blanks(e.after) && ElemToks(e, i) == Tokens(e.value, i + |e.before|)
    ensures var j := i + |e.before|;
            var k := j + |TextOf(e.value)|;
            && Here(js, i, e.before) && Here(js, j, TextOf(e.value)) && Delim(js, k) && Here(js, k, e.after)
            && k + |e.after| == i + |ElemText(e)|
  {
    hide TextOf, JsonOk, Tokens;
    var t := TextOf(e.value);
    Split(js, i, e.before + t, e.after);
    Split(js, i, e.before, t);
    if e.after != "" {
      FirstChar(js, i + |e.before| + |t|, e.after);
    }
  }

  /** A value and the white space around it. */
  lemma {:induction false} ReadElem(js: string, i: nat, e: Elem, b: Build)
    requires ElemOk(e) && Here(js, i, ElemText(e)) && Delim(js, i + |ElemText(e)|) && Sound(b)
    ensures Reads(js, i, b, i + |ElemText(e)|, After(b, e.value, i + |e.before|), |ElemToks(e, i)|)
    decreases e
  {
    hide *;
    ElemHere(js, i, e);
    var j := i + |e.before|;
    var k := j + |TextOf(e.value)|;
    AfterSound(b, e.value, j);
    ReadBlanks(js, i, e.before, b);
    ReadValue(js, j, e.value, b);
    var b' := After(b, e.value, j);
    ReadBlanks(js, k, e.after, b');
    Then(js, i, b, j, b, 0, k, b', |Tokens(e.value, j)|);
    Then(js, i, b, k, b', |Tokens(e.value, j)|, k + |e.after|, b', 0);
  }

  lemma {:induction false} AfterSound(b: Build, v: Json, at: nat)
    requires Sound(b)
    ensures Sound(After(b, v, at))
  {
  }

  // ---- Arrays ----

  /** The container at index a is the innermost one open. */
  predicate Filling(toks: seq<Tok>, a: nat, kind: Kind)
  {
    a < |toks| && LastOpen(toks) == a && toks[a].kind == kind
  }

  /** One more child with its tokens. */
  lemma FillOne(toks: seq<Tok>, a: nat, kind: Kind, more: seq<Tok>, n: nat, rest: seq<Tok>)
    requires Filling(toks, a, kind) && AllClosed(more)
    ensures Filling(Bump(toks, a) + more, a, kind)
    ensures AddSize(Bump(toks, a) + more, a, n) + rest == AddSize(toks, a, n + 1) + (more + rest)
  {
    LastOpenAppend(Bump(toks, a), more);
    LastOpenSame(Bump(toks, a), toks);
  }

  lemma {:induction false} ElemsHere(js: string, i: nat, e: Elem, rest: Elems)
    requires Here(js, i, ElemsText(More(e, rest)))
    ensures var j := i + |ElemText(e)|;
            && Here(js, i, ElemText(e)) && j < |js| && js[j] == ',' && Delim(js, j)
            && Here(js, j + 1, ElemsText(rest)) && j + 1 + |ElemsText(rest)| == i + |ElemsText(More(e, rest))|
  {
    var t, r := ElemText(e), ElemsText(rest);
    assert ElemsText(More(e, rest)) == t + "," + r == t + ("," + r);
    hide ElemText, ElemsText;
    Split(js, i, t, "," + r);
    Split(js, i + |t|, ",", r);
    FirstChar(js, i + |t|, ",");
  }

  /** An array gains an element. */
  lemma {:induction false} AfterElem(toks: seq<Tok>, a: nat, kind: Kind, v: Json, at: nat, n: nat, rest: seq<Tok>)
    requires Filling(toks, a, kind)
    ensures var b := After(Build(toks, a), v, at);
            && b.super == a && Filling(b.toks, a, kind)
            && AddSize(b.toks, a, n) + rest == AddSize(toks, a, n + 1) + (Tokens(v, at) + rest)
            && b.toks == AddSize(toks, a, 1) + Tokens(v, at)
  {
    TokensClosed(v, at);
    hide Tokens;
    FillOne(toks, a, kind, Tokens(v, at), n, rest);
  }

  lemma {:induction false} ReadElems(js: string, i: nat, es: Elems, toks: seq<Tok>, a: nat)
    requires ElemsOk(es) && Here(js, i, ElemsText(es)) && Delim(js, i + |ElemsText(es)|) && Filling(toks, a, Array)
    ensures Reads(js, i, Build(toks, a), i + |ElemsText(es)|,
                  Build(AddSize(toks, a, Count(es)) + ElemsToks(es, i), a), |ElemsToks(es, i)|)
    decreases es, 0
  {
    hide Reads, Delim, Here, ElemText, ElemOk, Tokens, After, AddSize, LastOpen;
    var e := es.e;
    var b, at, j := Build(toks, a), i + |e.before|, i + |ElemText(e)|;
    if es.One? {
      AfterElem(toks, a, Array, e.value, at, 0, []);
      ReadElem(js, i, e, b);
    } else {
      var rest := es.rest;
      var b' := After(b, e.value, at);
      ElemsHere(js, i, e, rest);
      AfterElem(toks, a, Array, e.value, at, Count(rest), ElemsToks(rest, j + 1));
      ReadElem(js, i, e, b);
      ReadComma(js, j, b'.toks, a, a, Array);
      ReadElems(js, j + 1, rest, b'.toks, a);
      MoreElems(js, i, e, rest, toks, a, b');
    }
  }

  lemma {:induction false} MoreElems(js: string, i: nat, e: Elem, rest: Elems, toks: seq<Tok>, a: nat, b': Build)
    requires a < |toks| && a < |b'.toks| && b'.super == a
    requires var b, at, j := Build(toks, a), i + |e.before|, i + |ElemText(e)|;
             var more := ElemsToks(rest, j + 1);
             && Reads(js, i, b, j, b', |ElemToks(e, i)|) && Reads(js, j, b', j + 1, b', 0)
             && Reads(js, j + 1, b', i + |ElemsText(More(e, rest))|, Build(AddSize(b'.toks, a, Count(rest)) + more, a), |more|)
             && AddSize(b'.toks, a, Count(rest)) + more == AddSize(toks, a, Count(rest) + 1) + (ElemToks(e, i) + more)
    ensures Reads(js, i, Build(toks, a), i + |ElemsText(More(e, rest))|,
                  Build(AddSize(toks, a, Count(More(e, rest))) + ElemsToks(More(e, rest), i), a),
                  |ElemsToks(More(e, rest), i)|)
  {
    hide *;
    var b, j := Build(toks, a), i + |ElemText(e)|;
    var more := ElemsToks(rest, j + 1);
    MoreIs(e, rest, i);
    Then(js, i, b, j, b', |ElemToks(e, i)|, j + 1, b', 0);
    Then(js, i, b, j + 1, b', |ElemToks(e, i)|, i + |ElemsText(More(e, rest))|,
         Build(AddSize(b'.toks, a, Count(rest)) + more, a), |more|);
  }

  lemma {:induction false} MoreIs(e: Elem, rest: Elems, i: nat)
    ensures Count(More(e, rest)) == Count(rest) + 1
    ensures ElemsToks(More(e, rest), i) == ElemToks(e, i) + ElemsToks(rest, i + |ElemText(e)| + 1)
  {
  }

  /** A comma makes the container superior again. */
  lemma ReadComma(js: string, i: nat, toks: seq<Tok>, a: nat, s: nat, kind: Kind)
    requires i < |js| && js[i] == ',' && Filling(toks, a, kind) && IsContainer(kind)
    requires s < |toks| && (s == a || !IsContainer(toks[s].kind))
    ensures Reads(js, i, Build(toks, s), i + 1, Build(toks, a), 0)
  {
    assert Lex(js, i) == Other(Comma, i + 1);
    hide Lex;
    ReadLexeme(js, i, Build(toks, s));
  }

  lemma {:induction false} ReadArray(js: string, i: nat, es: Elems, b: Build)
    requires ElemsOk(es) && Here(js, i, TextOf(Arr(es))) && Sound(b)
    ensures Reads(js, i, b, i + |TextOf(Arr(es))|, After(b, Arr(es), i), |Tokens(Arr(es), i)|)
    decreases es, 1
  {
    hide *;
    var t, more := ElemsText(es), ElemsToks(es, i + 1);
    var b1, j := Feed(b, i, Open(Array, i + 1)), i + 1 + |t|;
    ArrayIs(es, i);
    BracketsHere(js, i, Array, t);
    ElemsClosed(es, i + 1);
    FillingBegins(b, i, Array);
    ReadElems(js, i + 1, es, b1.toks, |b.toks|);
    var b2 := Build(AddSize(b1.toks, |b.toks|, Count(es)) + more, |b.toks|);
    ReadsSound(js, i + 1, b1, j, b2, |more|);
    ReadBrackets(js, i, Array, b, j, b2, |more|);
    ContainerDone(b, Array, i, Count(es), more, |b.toks|, j);
    AfterIs(b, Arr(es), i);
  }

  lemma {:induction false} ArrayIs(es: Elems, i: nat)
    ensures TextOf(Arr(es)) == [Opener(Array)] + ElemsText(es) + [Closer(Array)] && IsContainer(Array)
    ensures Tokens(Arr(es), i) == [Tok(Array, i, i + |ElemsText(es)| + 2, Count(es))] + ElemsToks(es, i + 1)
  {
  }

  lemma {:induction false} BracketsHere(js: string, i: nat, kind: Kind, t: string)
    requires IsContainer(kind) && Here(js, i, [Opener(kind)] + t + [Closer(kind)])
    ensures var j := i + 1 + |t|;
            Here(js, i + 1, t) && j < |js| && js[i] == Opener(kind) && js[j] == Closer(kind) && Delim(js, j)
  {
    Split(js, i, [Opener(kind)] + t, [Closer(kind)]);
    Split(js, i, [Opener(kind)], t);
    FirstChar(js, i, [Opener(kind)]);
    FirstChar(js, i + 1 + |t|, [Closer(kind)]);
  }

  lemma {:induction false} FillingBegins(b: Build, i: nat, kind: Kind)
    requires Sound(b)
    ensures var b1 := Feed(b, i, Open(kind, i + 1));
            && b1 == Build(Bump(b.toks, b.super) + [Tok(kind, i, -1, 0)], |b.toks|)
            && Filling(b1.toks, |b.toks|, kind)
  {
  }

  lemma {:induction false} AfterIs(b: Build, v: Json, at: nat)
    requires Sound(b)
    ensures After(b, v, at) == Build(Bump(b.toks, b.super) + Tokens(v, at), if IsTree(v) then LastOpen(b.toks) else b.super)
    ensures v.Arr? || v.Obj? ==> IsTree(v)
  {
  }

  // ---- Objects ----

  lemma {:induction false} KeyHere(js: string, i: nat, m: Member)
    requires Here(js, i, KeyText(m))
    ensures var j := i + |m.before|;
            var k := j + |Quoted(m.key)|;
            var l := k + |m.mid|;
            && Here(js, i, m.before) && Here(js, j, Quoted(m.key)) && Here(js, k, m.mid)
            && l < |js| && js[l] == ':' && l + 1 == i + |KeyText(m)|
  {
    var q := Quoted(m.key);
    assert KeyText(m) == m.before + q + m.mid + ":";
    hide Quoted;
    Split(js, i, m.before + q + m.mid, ":");
    Split(js, i, m.before + q, m.mid);
    Split(js, i, m.before, q);
    FirstChar(js, i + |m.before| + |q| + |m.mid|, ":");
  }

  lemma {:induction false} AfterKey(toks: seq<Tok>, a: nat, m: Member, i: nat)
    requires a < |toks|
    ensures After(Build(toks, a), Str(m.key), i + |m.before|) == Build(Bump(toks, a) + [KeyTok(m, i, 0)], a)
  {
  }

  lemma {:induction false} ReadColon(js: string, i: nat, b: Build)
    requires i < |js| && js[i] == ':' && Sound(b)
    ensures Reads(js, i, b, i + 1, b.(super := |b.toks| - 1), 0)
  {
    assert Lex(js, i) == Other(Colon, i + 1);
    hide Lex;
    ReadLexeme(js, i, b);
  }

  /** A key and its colon: the key is superior. */
  lemma {:induction false} ReadKey(js: string, i: nat, m: Member, toks: seq<Tok>, a: nat)
    requires Blanks(m.before) && UnitsOk(m.key) && Blanks(m.mid) && Here(js, i, KeyText(m)) && a < |toks|
    ensures Reads(js, i, Build(toks, a), i + |KeyText(m)|, Build(Bump(toks, a) + [KeyTok(m, i, 0)], |toks|), 1)
  {
    hide Reads, Here, Quoted, KeyText, KeyTok, Text, After, Blanks, UnitsOk, Bump, Feed;
    KeyHere(js, i, m);
    var j := i + |m.before|;
    var k := j + |Quoted(m.key)|;
    var l := k + |m.mid|;
    var b, b' := Build(toks, a), Build(Bump(toks, a) + [KeyTok(m, i, 0)], a);
    AfterKey(toks, a, m, i);
    ReadBlanks(js, i, m.before, b);
    ReadStr(js, j, m.key, b);
    ReadBlanks(js, k, m.mid, b');
    ReadColon(js, l, b');
    Then(js, i, b, j, b, 0, k, b', 1);
    Then(js, i, b, k, b', 1, l, b', 0);
    Then(js, i, b, l, b', 1, l + 1, b'.(super := |toks|), 0);
  }

  /** A key gains its value. */
  lemma {:induction false} AfterValue(toks: seq<Tok>, a: nat, m: Member, i: nat)
    requires Filling(toks, a, Object)
    ensures var bK := Build(Bump(toks, a) + [KeyTok(m, i, 0)], |toks|);
            var at := i + |KeyText(m)|;
            var b := After(bK, m.value.value, at + |m.value.before|);
            && Sound(bK) && b.toks == Bump(toks, a) + MemberToks(m, i)
            && (b.super == a || b.super == |toks|)
            && Filling(b.toks, a, Object) && !IsContainer(b.toks[|toks|].kind)
  {
    hide *;
    FillingLast(toks, a, Object);
    var key, keyed := KeyTok(m, i, 0), KeyTok(m, i, 1);
    var at := i + |KeyText(m)| + |m.value.before|;
    var own := Tokens(m.value.value, at);
    var bK := Build(Bump(toks, a) + [key], |toks|);
    KeyIs(m, i, toks, a);
    TokensClosed(m.value.value, at);
    FillOne(toks, a, Object, [key], 0, []);
    FillOne(toks, a, Object, [keyed] + own, 0, []);
    FillingLast(bK.toks, a, Object);
    AfterIs(bK, m.value.value, at);
    KeyBumped(Bump(toks, a), key, own);
  }

  lemma {:induction false} FillingLast(toks: seq<Tok>, a: nat, kind: Kind)
    requires Filling(toks, a, kind)
    ensures a < |toks| && LastOpen(toks) == a
  {
  }

  lemma {:induction false} KeyIs(m: Member, i: nat, toks: seq<Tok>, a: nat)
    requires a < |toks|
    ensures var key, keyed := KeyTok(m, i, 0), KeyTok(m, i, 1);
            var own := Tokens(m.value.value, i + |KeyText(m)| + |m.value.before|);
            && keyed == key.(size := key.size + 1) && MemberToks(m, i) == [keyed] + own
            && AllClosed([key]) && (AllClosed(own) ==> AllClosed([keyed] + own))
            && |Bump(toks, a)| == |toks| && !IsContainer((Bump(toks, a) + ([keyed] + own))[|toks|].kind)
            && Sound(Build(Bump(toks, a) + [key], |toks|))
  {
    hide Tokens, Text, KeyText;
  }

  lemma {:induction false} KeyBumped(front: seq<Tok>, key: Tok, own: seq<Tok>)
    ensures Bump(front + [key], |front|) + own == front + ([key.(size := key.size + 1)] + own)
  {
    assert Bump(front + [key], |front|) == front + [key.(size := key.size + 1)];
  }

  lemma {:induction false} ReadMember(js: string, i: nat, m: Member, toks: seq<Tok>, a: nat) returns (s: int)
    requires MemberOk(m) && Here(js, i, MemberText(m)) && Delim(js, i + |MemberText(m)|) && Filling(toks, a, Object)
    ensures s == a || s == |toks|
    ensures Reads(js, i, Build(toks, a), i + |MemberText(m)|, Build(Bump(toks, a) + MemberToks(m, i), s), |MemberToks(m, i)|)
    ensures Filling(Bump(toks, a) + MemberToks(m, i), a, Object)
    ensures |toks| < |Bump(toks, a) + MemberToks(m, i)| && !IsContainer((Bump(toks, a) + MemberToks(m, i))[|toks|].kind)
    decreases m
  {
    hide Reads, Delim, Here, ElemText, KeyText, Tokens, After, JsonOk, Blanks, UnitsOk, LastOpen, Bump;
    Split(js, i, KeyText(m), ElemText(m.value));
    var j := i + |KeyText(m)|;
    var bK := Build(Bump(toks, a) + [KeyTok(m, i, 0)], |toks|);
    AfterValue(toks, a, m, i);
    ReadKey(js, i, m, toks, a);
    ReadElem(js, j, m.value, bK);
    var b := After(bK, m.value.value, j + |m.value.before|);
    s := b.super;
    Then(js, i, Build(toks, a), j, bK, 1, i + |MemberText(m)|, b, |ElemToks(m.value, j)|);
  }

  lemma {:induction false} MembersHere(js: string, i: nat, m: Member, others: Members)
    requires Here(js, i, MembersText(And(m, others)))
    ensures var j := i + |MemberText(m)|;
            && Here(js, i, MemberText(m)) && j < |js| && js[j] == ',' && Delim(js, j)
            && Here(js, j + 1, MembersText(others)) && j + 1 + |MembersText(others)| == i + |MembersText(And(m, others))|
  {
    var t, r := MemberText(m), MembersText(others);
    assert MembersText(And(m, others)) == t + "," + r == t + ("," + r);
    hide MemberText, MembersText;
    Split(js, i, t, "," + r);
    Split(js, i + |t|, ",", r);
    FirstChar(js, i + |t|, ",");
  }

  lemma {:induction false} ReadMembers(js: string, i: nat, ms: Members, toks: seq<Tok>, a: nat) returns (s: int)
    requires MembersOk(ms) && Here(js, i, MembersText(ms)) && Delim(js, i + |MembersText(ms)|) && Filling(toks, a, Object)
    ensures Reads(js, i, Build(toks, a), i + |MembersText(ms)|,
                  Build(AddSize(toks, a, MemberCount(ms)) + MembersToks(ms, i), s), |MembersToks(ms, i)|)
    decreases ms, 0
  {
    hide Reads, Delim, Here, MemberText, MemberOk, MemberToks, AddSize, LastOpen, Bump;
    var m := ms.m;
    var b, j := Build(toks, a), i + |MemberText(m)|;
    var own := MemberToks(m, i);
    OneMemberClosed(m, i);
    if ms.Single? {
      s := ReadMember(js, i, m, toks, a);
      FillOne(toks, a, Object, own, 0, []);
      OneMore(toks, a, own);
    } else {
      var others := ms.others;
      var toks' := Bump(toks, a) + own;
      MembersHere(js, i, m, others);
      var k := ReadMember(js, i, m, toks, a);
      FillOne(toks, a, Object, own, MemberCount(others), MembersToks(others, j + 1));
      ReadComma(js, j, toks', a, k, Object);
      s := ReadMembers(js, j + 1, others, toks', a);
      var more := MembersToks(others, j + 1);
      Then(js, i, b, j, Build(toks', k), |own|, j + 1, Build(toks', a), 0);
      Then(js, i, b, j + 1, Build(toks', a), |own|, i + |MembersText(ms)|,
           Build(AddSize(toks', a, MemberCount(others)) + more, s), |more|);
    }
  }

  lemma {:induction false} OneMore(toks: seq<Tok>, a: nat, own: seq<Tok>)
    requires a < |toks|
    ensures Bump(toks, a) + own == AddSize(toks, a, 1) + own
  {
  }

  lemma {:induction false} OneMemberClosed(m: Member, i: nat)
    ensures AllClosed(MemberToks(m, i))
  {
    MembersClosed(Single(m), i);
  }

  lemma {:induction false} ReadObject(js: string, i: nat, ms: Members, b: Build)
    requires MembersOk(ms) && Here(js, i, TextOf(Obj(ms))) && Sound(b)
    ensures Reads(js, i, b, i + |TextOf(Obj(ms))|, After(b, Obj(ms), i), |Tokens(Obj(ms), i)|)
    decreases ms, 1
  {
    hide *;
    var t, more := MembersText(ms), MembersToks(ms, i + 1);
    var b1, j := Feed(b, i, Open(Object, i + 1)), i + 1 + |t|;
    ObjectIs(ms, i);
    BracketsHere(js, i, Object, t);
    MembersClosed(ms, i + 1);
    FillingBegins(b, i, Object);
    var s := ReadMembers(js, i + 1, ms, b1.toks, |b.toks|);
    var b2 := Build(AddSize(b1.toks, |b.toks|, MemberCount(ms)) + more, s);
    ReadsSound(js, i + 1, b1, j, b2, |more|);
    ReadBrackets(js, i, Object, b, j, b2, |more|);
    ContainerDone(b, Object, i, MemberCount(ms), more, s, j);
    AfterIs(b, Obj(ms), i);
  }

  lemma {:induction false} ObjectIs(ms: Members, i: nat)
    ensures TextOf(Obj(ms)) == [Opener(Object)] + MembersText(ms) + [Closer(Object)] && IsContainer(Object)
    ensures Tokens(Obj(ms), i) == [Tok(Object, i, i + |MembersText(ms)| + 2, MemberCount(ms))] + MembersToks(ms, i + 1)
  {
  }

  lemma {:induction false} ReadsSound(js: string, i: nat, b: Build, j: nat, b': Build, n: nat)
    requires Reads(js, i, b, j, b', n)
    ensures Sound(b')
  {
  }

  // ---- Documents ----

  /** Every JSON text is accepted by the recognizer, hence by both passes, and the tokens are
      those of its tree. */
  lemma ReadsEveryJson(doc: Elem)
    requires ElemOk(doc)
    ensures var js := ElemText(doc);
            && MatchPass(js, 0, []) == |ElemToks(doc, 0)|
            && Run(js, 0, EMPTY).toks == ElemToks(doc, 0)
  {
    var js := ElemText(doc);
    hide ElemText, Tokens, JsonOk, Blanks;
    assert js[0..|js|] == js;
    ReadElem(js, 0, doc, EMPTY);
    assert [] + ElemToks(doc, 0) == ElemToks(doc, 0);
  }
}
