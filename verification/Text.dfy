/** White space in text. */
module Text {

  /** Unicode white space, as trimming removes it. */
  predicate IsWhite(c: char) {
    || '\U{0009}' <= c <= '\U{000D}' || c == ' ' || c == '\U{0085}' || c == '\U{00A0}' || c == '\U{1680}'
    || '\U{2000}' <= c <= '\U{200A}' || c == '\U{2028}' || c == '\U{2029}' || c == '\U{202F}' || c == '\U{205F}'
    || c == '\U{3000}'
  }

  predicate Blank(s: string) { forall c <- s :: IsWhite(c) }

  function TrimStart(s: string): (r: string) { if s != [] && IsWhite(s[0]) then TrimStart(s[1..]) else s }

  function TrimEnd(s: string): (r: string) { if s != [] && IsWhite(s[|s| - 1]) then TrimEnd(s[..|s| - 1]) else s }

  function Trim(s: string): (r: string) { TrimEnd(TrimStart(s)) }

  lemma {:induction false} TrimStartIsEmpty(s: string)
    ensures TrimStart(s) == [] <==> Blank(s)
    ensures TrimStart(s) != [] ==> !IsWhite(TrimStart(s)[0])
  {
    if s != [] && IsWhite(s[0]) {
      TrimStartIsEmpty(s[1..]);
      assert s == [s[0]] + s[1..];
    } else if s != [] {
      assert s[0] in s;
    }
  }

  lemma {:induction false} TrimEndKeepsStart(s: string)
    requires s != [] && !IsWhite(s[0])
    ensures TrimEnd(s) != []
    decreases |s|
  {
    if IsWhite(s[|s| - 1]) { TrimEndKeepsStart(s[..|s| - 1]); }
  }

  /** Nothing is left of a text by trimming exactly when it is blank. */
  lemma TrimIsEmpty(s: string)
    ensures Trim(s) == [] <==> Blank(s)
  {
    TrimStartIsEmpty(s);
    if TrimStart(s) != [] { TrimEndKeepsStart(TrimStart(s)); }
  }
}
