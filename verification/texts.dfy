/** White space as `str::trim` sees it. */
module Texts {
  predicate IsSpace(c: char) {
    || '\t' <= c <= '\r' || c == ' ' || c == '\U{85}' || c == '\U{a0}' || c == '\U{1680}'
    || '\U{2000}' <= c <= '\U{200a}' || c == '\U{2028}' || c == '\U{2029}'
    || c == '\U{202f}' || c == '\U{205f}' || c == '\U{3000}'
  }

  /** The 25 characters that Unicode counts as white space. */
  lemma SpacesAre(c: char)
    ensures IsSpace(c) <==> c in {
      '\t', '\n', '\U{b}', '\U{c}', '\r', ' ', '\U{85}', '\U{a0}', '\U{1680}', '\U{2000}', '\U{2001}',
      '\U{2002}', '\U{2003}', '\U{2004}', '\U{2005}', '\U{2006}', '\U{2007}', '\U{2008}', '\U{2009}',
      '\U{200a}', '\U{2028}', '\U{2029}', '\U{202f}', '\U{205f}', '\U{3000}'}
  {
  }

  predicate IsBlank(s: string) {
    forall i :: 0 <= i < |s| ==> IsSpace(s[i])
  }

  function Trimmed(s: string): string
    decreases |s|
  {
    if s == [] then []
    else if IsSpace(s[0]) then Trimmed(s[1..])
    else if IsSpace(s[|s| - 1]) then Trimmed(s[..|s| - 1])
    else s
  }

  lemma FrontGrows(s: string, front: string, middle: string, back: string)
    requires s != "" && IsSpace(s[0]) && s[1..] == front + middle + back && IsBlank(front)
    ensures s == [s[0]] + front + middle + back && IsBlank([s[0]] + front)
  {
  }

  lemma BackGrows(s: string, front: string, middle: string, back: string)
    requires
      s != "" && IsSpace(s[|s| - 1]) && s[..|s| - 1] == front + middle + back && IsBlank(back)
    ensures s == front + middle + (back + [s[|s| - 1]]) && IsBlank(back + [s[|s| - 1]])
  {
  }

  /** What is left stands between white space and has none at its ends. */
  lemma {:induction false} TrimmedIs(s: string) returns (front: string, back: string)
    ensures s == front + Trimmed(s) + back && IsBlank(front) && IsBlank(back)
    ensures Trimmed(s) != "" ==> !IsSpace(Trimmed(s)[0]) && !IsSpace(Trimmed(s)[|Trimmed(s)| - 1])
    decreases |s|
  {
    front, back := "", "";
    if s != "" {
      if IsSpace(s[0]) {
        front, back := TrimmedIs(s[1..]);
        FrontGrows(s, front, Trimmed(s), back);
        front := [s[0]] + front;
      } else if IsSpace(s[|s| - 1]) {
        front, back := TrimmedIs(s[..|s| - 1]);
        BackGrows(s, front, Trimmed(s), back);
        back := back + [s[|s| - 1]];
      }
    }
  }
}
