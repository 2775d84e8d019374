/** A string at a position of another, and a character of a NUL-terminated string. */
module Texts {

  predicate Here(text: string, i: nat, s: string) { i + |s| <= |text| && text[i..i + |s|] == s }

  /** The character at a position of a NUL-terminated string. */
  function CharAt(s: string, i: nat): char
  {
    if i < |s| then s[i] else '\0'
  }

  lemma Split(text: string, i: nat, a: string, b: string)
    requires Here(text, i, a + b)
    ensures Here(text, i, a) && Here(text, i + |a|, b)
  {
    var s := text[i..i + |a + b|];
    assert s[..|a|] == text[i..i + |a|] && s[|a|..] == text[i + |a|..i + |a| + |b|];
  }

  lemma FirstChar(text: string, i: nat, s: string)
    requires Here(text, i, s) && s != ""
    ensures i < |text| && text[i] == s[0] && CharAt(text, i) == s[0]
  {
    assert text[i] == text[i..i + |s|][0];
  }
}
