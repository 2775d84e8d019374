/** The token array of lib/libbmk_core/jsmn.c as a value, and what every step of the parser
    keeps. */
module JsmnTokens {
  import opened JsmnSpec

  /** jsmntok_t */
  datatype Tok = Tok(kind: Kind, start: int, end: int, size: int)

  predicate IsContainer(k: Kind) { k.Object? || k.Array? }

  /** `open` lists the containers that are not closed yet, outermost first. */
  ghost predicate OpenOk(toks: seq<Tok>, open: seq<nat>)
  {
    && (forall a, b | 0 <= a < b < |open| :: open[a] < open[b])
    && (forall i | i in open :: i < |toks| && IsContainer(toks[i].kind))
    && (forall i | 0 <= i < |toks| :: toks[i].start >= 0 && (toks[i].end == -1 <==> i in open))
  }

  /** Of two tokens the later is either behind the earlier or inside it. */
  predicate Nested(t: Tok, u: Tok)
  {
    && t.start <= u.start
    && ((t.end != -1 && t.end <= u.start) || t.end == -1 || (u.end != -1 && u.end <= t.end))
  }

  ghost predicate SpansOk(toks: seq<Tok>, pos: nat)
  {
    && (forall i | 0 <= i < |toks| :: toks[i].start <= pos && toks[i].end <= pos)
    && (forall i | 0 <= i < |toks| :: toks[i].end == -1 || toks[i].start <= toks[i].end)
    && (forall i, j | 0 <= i < j < |toks| :: Nested(toks[i], toks[j]))
  }

  /** How many tokens have k as their superior. */
  function Children(parents: seq<int>, k: int): nat
  {
    if parents == [] then 0
    else Children(parents[..|parents| - 1], k) + if parents[|parents| - 1] == k then 1 else 0
  }

  /** Each token has counted the tokens made while it was the superior one. */
  ghost predicate SizesOk(toks: seq<Tok>, parents: seq<int>)
  {
    && |parents| == |toks|
    && (forall i | 0 <= i < |toks| :: -1 <= parents[i] < i)
    && (forall k | 0 <= k < |toks| :: toks[k].size == Children(parents, k))
  }

  function Opener(k: Kind): char { if k.Object? then '{' else '[' }

  function Closer(k: Kind): char { if k.Object? then '}' else ']' }

  /** A token stands for the text it should. */
  predicate TokenText(js: string, t: Tok)
  {
    match t.kind
    case Primitive => 0 <= t.start < t.end <= |js|
    case String => 0 < t.start <= t.end < |js| && js[t.start - 1] == '"' && js[t.end] == '"'
    case _ =>
      && 0 <= t.start < |js| && js[t.start] == Opener(t.kind)
      && (t.end != -1 ==> t.start < t.end <= |js| && js[t.end - 1] == Closer(t.kind))
  }

  ghost predicate TextOk(js: string, toks: seq<Tok>)
  {
    forall i | 0 <= i < |toks| :: TokenText(js, toks[i])
  }

  /** The invariant of the parser with its position at pos. When there is no superior token
      no container is open. */
  ghost predicate Inv(js: string, toks: seq<Tok>, super: int, open: seq<nat>, parents: seq<int>, pos: nat)
  {
    && -1 <= super < |toks| && (super == -1 ==> open == [])
    && OpenOk(toks, open) && SpansOk(toks, pos) && SizesOk(toks, parents) && TextOk(js, toks)
  }

  /** What a successful parse leaves: every token closed and standing for its text, spans
      properly nested, and sizes that count the children. */
  ghost predicate Parsed(js: string, toks: seq<Tok>, parents: seq<int>)
  {
    && (forall i | 0 <= i < |toks| :: 0 <= toks[i].start <= toks[i].end <= |js|)
    && (forall i, j | 0 <= i < j < |toks| ::
          toks[i].start <= toks[j].start && (toks[i].end <= toks[j].start || toks[j].end <= toks[i].end))
    && SizesOk(toks, parents) && TextOk(js, toks)
  }

  lemma ParsedWhenClosed(js: string, toks: seq<Tok>, super: int, parents: seq<int>, pos: nat)
    requires Inv(js, toks, super, [], parents, pos) && pos <= |js|
    ensures Parsed(js, toks, parents)
  {
    forall i, j | 0 <= i < j < |toks|
      ensures toks[i].start <= toks[j].start && (toks[i].end <= toks[j].start || toks[j].end <= toks[i].end)
    {
      assert Nested(toks[i], toks[j]);
    }
  }

  // ---- Sizes ----

  function SizeSum(toks: seq<Tok>): int
  {
    if toks == [] then 0 else SizeSum(toks[..|toks| - 1]) + toks[|toks| - 1].size
  }

  /** The children of the first n tokens. */
  function ChildSum(parents: seq<int>, n: nat): nat
  {
    if n == 0 then 0 else ChildSum(parents, n - 1) + Children(parents, n - 1)
  }

  lemma {:induction false} ChildSumIsSizeSum(toks: seq<Tok>, parents: seq<int>, n: nat)
    requires n <= |toks| && forall k | 0 <= k < n :: toks[k].size == Children(parents, k)
    ensures SizeSum(toks[..n]) == ChildSum(parents, n)
    decreases n
  {
    if n > 0 {
      ChildSumIsSizeSum(toks, parents, n - 1);
      assert toks[..n][..n - 1] == toks[..n - 1];
    }
  }

  lemma {:induction false} ChildSumSplit(parents: seq<int>, n: nat)
    requires parents != []
    ensures var q := parents[..|parents| - 1];
            ChildSum(parents, n) == ChildSum(q, n) + if 0 <= parents[|parents| - 1] < n then 1 else 0
    decreases n
  {
    if n > 0 {
      ChildSumSplit(parents, n - 1);
    }
  }

  lemma {:induction false} ChildSumTotal(parents: seq<int>, n: nat)
    requires forall i | 0 <= i < |parents| :: -1 <= parents[i] < n
    ensures ChildSum(parents, n) + Children(parents, -1) == |parents|
    decreases |parents|
  {
    if parents == [] {
      NoChildren(n);
    } else {
      ChildSumTotal(parents[..|parents| - 1], n);
      ChildSumSplit(parents, n);
    }
  }

  lemma {:induction false} NoChildren(n: nat)
    ensures ChildSum([], n) == 0
  {
    if n > 0 {
      NoChildren(n - 1);
    }
  }

  /** The sizes and the tokens without a superior add up to the number of tokens. */
  lemma SizesAddUp(js: string, toks: seq<Tok>, parents: seq<int>)
    requires Parsed(js, toks, parents)
    ensures SizeSum(toks) + Children(parents, -1) == |toks|
  {
    ChildSumIsSizeSum(toks, parents, |toks|);
    assert toks[..|toks|] == toks;
    ChildSumTotal(parents, |toks|);
  }

  // ---- Steps ----

  /** tokens[super].size++, if there is one. */
  function Bump(toks: seq<Tok>, super: int): (r: seq<Tok>)
    requires -1 <= super < |toks|
    ensures |r| == |toks|
  {
    if super == -1 then toks else toks[super := toks[super].(size := toks[super].size + 1)]
  }

  lemma SizesGrow(toks: seq<Tok>, parents: seq<int>, super: int, t: Tok)
    requires SizesOk(toks, parents) && -1 <= super < |toks| && t.size == 0
    ensures SizesOk(Bump(toks, super) + [t], parents + [super])
  {
    var parents' := parents + [super];
    var toks' := Bump(toks, super) + [t];
    assert parents'[..|parents|] == parents;
    NoLater(parents', |toks|);
    forall k | 0 <= k < |toks'| ensures toks'[k].size == Children(parents', k) {
    }
  }

  lemma {:induction false} NoLater(parents: seq<int>, k: int)
    requires forall i | 0 <= i < |parents| :: parents[i] < k
    ensures Children(parents, k) == 0
    decreases |parents|
  {
    if parents != [] {
      NoLater(parents[..|parents| - 1], k);
    }
  }

  lemma BumpKeeps(js: string, toks: seq<Tok>, super: int, open: seq<nat>, pos: nat)
    requires -1 <= super < |toks| && OpenOk(toks, open) && SpansOk(toks, pos) && TextOk(js, toks)
    ensures OpenOk(Bump(toks, super), open) && SpansOk(Bump(toks, super), pos) && TextOk(js, Bump(toks, super))
  {
    var r := Bump(toks, super);
    assert forall i | 0 <= i < |toks| :: r[i].start == toks[i].start && r[i].end == toks[i].end && r[i].kind == toks[i].kind;
    forall i, j | 0 <= i < j < |toks| ensures Nested(r[i], r[j]) {
      assert Nested(toks[i], toks[j]);
    }
    forall i | 0 <= i < |toks| ensures TokenText(js, r[i]) {
      assert TokenText(js, toks[i]);
    }
  }

  /** A container is opened at pos. */
  lemma Opened(js: string, toks: seq<Tok>, super: int, open: seq<nat>, parents: seq<int>, pos: nat, kind: Kind)
    requires Inv(js, toks, super, open, parents, pos) && pos < |js| && IsContainer(kind) && js[pos] == Opener(kind)
    ensures Inv(js, Bump(toks, super) + [Tok(kind, pos, -1, 0)], |toks|, open + [|toks|], parents + [super], pos + 1)
  {
    var t := Tok(kind, pos, -1, 0);
    SizesGrow(toks, parents, super, t);
    BumpKeeps(js, toks, super, open, pos);
    hide SizesOk;
    var r := Bump(toks, super);
    hide Bump;
    Append(js, r, open, pos, t);
    OpenAppend(r, open, t);
  }

  /** A string or primitive is added. */
  lemma Added(js: string, toks: seq<Tok>, super: int, open: seq<nat>, parents: seq<int>, pos: nat, t: Tok, next: nat)
    requires Inv(js, toks, super, open, parents, pos) && TokenText(js, t) && t.size == 0 && !IsContainer(t.kind)
    requires pos <= t.start <= t.end <= next
    ensures Inv(js, Bump(toks, super) + [t], super, open, parents + [super], next)
  {
    SizesGrow(toks, parents, super, t);
    BumpKeeps(js, toks, super, open, pos);
    hide SizesOk;
    var r := Bump(toks, super);
    hide Bump;
    Append(js, r, open, pos, t);
    assert OpenOk(r + [t], open);
  }

  /** A new token starts behind every closed one. */
  lemma Append(js: string, toks: seq<Tok>, open: seq<nat>, pos: nat, t: Tok)
    requires OpenOk(toks, open) && SpansOk(toks, pos) && TextOk(js, toks) && TokenText(js, t)
    requires pos <= t.start && (t.end == -1 || t.start <= t.end)
    ensures TextOk(js, toks + [t])
    ensures forall next: nat | next >= t.start && next >= t.end :: SpansOk(toks + [t], next)
  {
    var r := toks + [t];
    forall i, j | 0 <= i < j < |r| ensures Nested(r[i], r[j]) {
      if j < |toks| {
        assert Nested(toks[i], toks[j]);
      }
    }
  }

  lemma OpenAppend(toks: seq<Tok>, open: seq<nat>, t: Tok)
    requires OpenOk(toks, open) && t.start >= 0 && t.end == -1 && IsContainer(t.kind)
    ensures OpenOk(toks + [t], open + [|toks|])
  {
    var r, open' := toks + [t], open + [|toks|];
    assert |toks| == open'[|open|] && |toks| in open';
    assert forall i :: i in open' <==> i in open || i == |toks|;
    forall a, b | 0 <= a < b < |open'| ensures open'[a] < open'[b] {
      assert open'[a] == open[a] && open[a] in open;
    }
  }

  /** The innermost open container, of the right kind, is closed by the character at pos;
      the next one becomes superior. */
  lemma Closed(js: string, toks: seq<Tok>, super: int, open: seq<nat>, parents: seq<int>, pos: nat)
    requires Inv(js, toks, super, open, parents, pos) && pos < |js| && open != [] && open[|open| - 1] < |toks|
    requires js[pos] == Closer(toks[open[|open| - 1]].kind)
    ensures var i := open[|open| - 1];
            var rest := open[..|open| - 1];
            Inv(js, toks[i := toks[i].(end := pos + 1)], if rest == [] then -1 else rest[|rest| - 1], rest, parents, pos + 1)
  {
    var i := open[|open| - 1];
    assert i in open;
    hide SpansOk, TextOk, OpenOk;
    CloseSpans(toks, open, pos, i);
    CloseOpen(toks, open, pos, i);
    CloseText(js, toks, pos, i);
  }

  lemma CloseOpen(toks: seq<Tok>, open: seq<nat>, pos: nat, i: nat)
    requires OpenOk(toks, open) && open != [] && i == open[|open| - 1] && i < |toks|
    ensures OpenOk(toks[i := toks[i].(end := pos + 1)], open[..|open| - 1])
    ensures |open| > 1 ==> open[|open| - 2] < |toks|
  {
    var r, rest := toks[i := toks[i].(end := pos + 1)], open[..|open| - 1];
    LastIsGreatest(open);
    assert i in open;
    forall k | 0 <= k < |r| ensures r[k].start >= 0 && (r[k].end == -1 <==> k in rest) {
      assert toks[k].end == -1 <==> k in open;
    }
    assert |open| > 1 ==> open[|open| - 2] in open;
  }

  lemma LastIsGreatest(open: seq<nat>)
    requires open != [] && forall a, b | 0 <= a < b < |open| :: open[a] < open[b]
    ensures var last, rest := open[|open| - 1], open[..|open| - 1];
            && (forall k | k in rest :: k < last)
            && (forall k :: k in open <==> k in rest || k == last)
  {
    assert open == open[..|open| - 1] + [open[|open| - 1]];
  }

  lemma CloseText(js: string, toks: seq<Tok>, pos: nat, i: nat)
    requires TextOk(js, toks) && i < |toks| && IsContainer(toks[i].kind) && pos < |js|
    requires js[pos] == Closer(toks[i].kind) && toks[i].start <= pos
    ensures TextOk(js, toks[i := toks[i].(end := pos + 1)])
  {
    var r := toks[i := toks[i].(end := pos + 1)];
    forall k | 0 <= k < |r| ensures TokenText(js, r[k]) {
      assert TokenText(js, toks[k]);
    }
  }

  lemma CloseSpans(toks: seq<Tok>, open: seq<nat>, pos: nat, i: nat)
    requires OpenOk(toks, open) && SpansOk(toks, pos) && open != [] && i == open[|open| - 1] && i < |toks|
    ensures SpansOk(toks[i := toks[i].(end := pos + 1)], pos + 1)
  {
    var r := toks[i := toks[i].(end := pos + 1)];
    forall a, b | 0 <= a < b < |r| ensures Nested(r[a], r[b]) {
      assert Nested(toks[a], toks[b]);
      if a == i {
        InnermostOpen(toks, open, b);
      }
    }
  }

  /** No token after the last open one is open. */
  lemma InnermostOpen(toks: seq<Tok>, open: seq<nat>, k: nat)
    requires OpenOk(toks, open) && k < |toks|
    ensures open == [] || k > open[|open| - 1] ==> toks[k].end != -1
    ensures open != [] ==> open[|open| - 1] < |toks| && toks[open[|open| - 1]].end == -1
  {
    if open != [] {
      assert open[|open| - 1] in open;
    }
    if toks[k].end == -1 {
      var a :| 0 <= a < |open| && open[a] == k;
    }
  }
}
