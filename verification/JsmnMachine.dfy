/** The tokens and the superior token that the parser of jsmn.c builds, lexeme by lexeme. */
module JsmnMachine {
  import opened JsmnSpec
  import opened JsmnTokens

  /** The tokens made so far and the index of the superior one, or -1. */
  datatype Build = Build(toks: seq<Tok>, super: int)

  const EMPTY: Build := Build([], -1)

  /** The last token that is not closed, or -1. */
  function LastOpen(toks: seq<Tok>): (i: int)
    ensures -1 <= i < |toks| && (i >= 0 ==> toks[i].end == -1) && forall k | i < k < |toks| :: toks[k].end != -1
  {
    if toks == [] then -1
    else if toks[|toks| - 1].end == -1 then |toks| - 1
    else LastOpen(toks[..|toks| - 1])
  }

  predicate Sound(b: Build) { -1 <= b.super < |b.toks| }

  /** What a lexeme at a position does. A new token is a child of the superior one. An opening
      bracket makes its token superior, a colon the last token, a closing bracket the
      innermost container still open, and a comma that container if a key is superior. */
  function Feed(b: Build, pos: nat, l: Lexeme): (r: Build)
    requires Sound(b) && !l.End? && !l.Fail?
    ensures Sound(r)
  {
    match l
    case Open(kind, _) => Build(Bump(b.toks, b.super) + [Tok(kind, pos, -1, 0)], |b.toks|)
    case Item(kind, start, end, _) => Build(Bump(b.toks, b.super) + [Tok(kind, start, end, 0)], b.super)
    case Close(_, next) =>
      var i := LastOpen(b.toks);
      if i == -1 then b
      else
        var toks := b.toks[i := b.toks[i].(end := next)];
        Build(toks, LastOpen(toks))
    case Other(sep, _) =>
      match sep
      case Blank => b
      case Colon => b.(super := |b.toks| - 1)
      case Comma =>
        if b.super == -1 || IsContainer(b.toks[b.super].kind) || LastOpen(b.toks) == -1 then b
        else b.(super := LastOpen(b.toks))
  }

  /** The whole text from position i on. */
  function Run(js: string, i: nat, b: Build): Build
    requires Sound(b)
    decreases if i <= |js| then |js| - i else 0
  {
    var l := Lex(js, i);
    if l.End? || l.Fail? then b else Run(js, l.next, Feed(b, i, l))
  }
}
