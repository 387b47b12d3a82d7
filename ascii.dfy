/** Character classes and ASCII case mapping used by the formatter.
    Letter case is mapped only for the ASCII letters; every other character
    is left as it is. */
module Ascii {

  predicate IsUpperChar(c: char) { 'A' <= c <= 'Z' }

  predicate IsLowerChar(c: char) { 'a' <= c <= 'z' }

  /** A character that may appear in a reserved word or a basic identifier. */
  predicate IsWordChar(c: char) {
    IsUpperChar(c) || IsLowerChar(c) || ('0' <= c <= '9') || c == '_'
  }

  /** Horizontal whitespace: what indentation is made of. */
  predicate IsBlank(c: char) { c == ' ' || c == '\t' }

  function ToLowerChar(c: char): (r: char)
    ensures IsUpperChar(c) ==> IsLowerChar(r) && r as int == c as int + 32
    ensures !IsUpperChar(c) ==> r == c
  {
    if IsUpperChar(c) then (c as int + 32) as char else c
  }

  function ToUpperChar(c: char): (r: char)
    ensures IsLowerChar(c) ==> IsUpperChar(r) && r as int == c as int - 32
    ensures !IsLowerChar(c) ==> r == c
  {
    if IsLowerChar(c) then (c as int - 32) as char else c
  }

  /** Case mapping never changes whether a character is a word character,
      a blank, a newline or a parenthesis, and the two mappings absorb each other. */
  lemma CharCaseFacts(c: char)
    ensures IsWordChar(ToLowerChar(c)) == IsWordChar(c)
    ensures IsWordChar(ToUpperChar(c)) == IsWordChar(c)
    ensures IsBlank(ToLowerChar(c)) == IsBlank(c) && IsBlank(ToUpperChar(c)) == IsBlank(c)
    ensures (ToLowerChar(c) == '\n') == (c == '\n') && (ToUpperChar(c) == '\n') == (c == '\n')
    ensures (ToLowerChar(c) == '(') == (c == '(') && (ToUpperChar(c) == '(') == (c == '(')
    ensures (ToLowerChar(c) == ')') == (c == ')') && (ToUpperChar(c) == ')') == (c == ')')
    ensures ToLowerChar(ToLowerChar(c)) == ToLowerChar(c)
    ensures ToUpperChar(ToUpperChar(c)) == ToUpperChar(c)
    ensures ToLowerChar(ToUpperChar(c)) == ToLowerChar(c)
    ensures ToUpperChar(ToLowerChar(c)) == ToUpperChar(c)
  {
  }

  /** The lowercase spelling of a string (JavaScript's toLowerCase on ASCII). */
  function Lower(s: string): (r: string)
    ensures |r| == |s|
    ensures forall i :: 0 <= i < |s| ==> r[i] == ToLowerChar(s[i])
  {
    if s == [] then [] else [ToLowerChar(s[0])] + Lower(s[1..])
  }

  /** The uppercase spelling of a string (JavaScript's toUpperCase on ASCII). */
  function Upper(s: string): (r: string)
    ensures |r| == |s|
    ensures forall i :: 0 <= i < |s| ==> r[i] == ToUpperChar(s[i])
  {
    if s == [] then [] else [ToUpperChar(s[0])] + Upper(s[1..])
  }

  predicate AllWordChars(s: string) {
    forall i :: 0 <= i < |s| ==> IsWordChar(s[i])
  }

  /** Lowercasing and uppercasing are idempotent, absorb each other, and keep
      a word a word: the facts behind "either spelling maps to the same output". */
  lemma StringCaseFacts(s: string)
    ensures Lower(Lower(s)) == Lower(s) && Upper(Upper(s)) == Upper(s)
    ensures Lower(Upper(s)) == Lower(s) && Upper(Lower(s)) == Upper(s)
    ensures AllWordChars(Lower(s)) == AllWordChars(s)
    ensures AllWordChars(Upper(s)) == AllWordChars(s)
  {
    forall i | 0 <= i < |s| {
      CharCaseFacts(s[i]);
    }
    assert Lower(Lower(s)) == Lower(s);
    assert Upper(Upper(s)) == Upper(s);
    assert Lower(Upper(s)) == Lower(s);
    assert Upper(Lower(s)) == Upper(s);
  }

  /** A string without capitals is its own lowercase spelling. */
  lemma LowerPlain(s: string)
    requires forall i :: 0 <= i < |s| ==> !IsUpperChar(s[i])
    ensures Lower(s) == s
  {
  }

  lemma LowerAppend(a: string, b: string)
    ensures Lower(a + b) == Lower(a) + Lower(b)
  {
    assert Lower(a + b) == Lower(a) + Lower(b);
  }
}
