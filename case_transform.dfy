/** The case transformer: every reserved word and every built-in type name
    of a line is rewritten to the case its option asks for; every other
    character is copied. A word is a maximal run of word characters, and the
    decision for a word depends on that word and the configuration alone. */
module CaseTransform {
  import opened Ascii
  import opened Keywords
  import opened Options

  function ApplyCase(mode: CaseMode, w: string): (r: string)
    ensures Lower(r) == Lower(w)
  {
    match mode
    case Preserve => w
    case Lowercase => StringCaseFacts(w); Lower(w)
    case Uppercase => StringCaseFacts(w); Upper(w)
  }

  /** Length of the maximal run of word characters that starts the string. */
  function WordLen(s: string): (n: nat)
    ensures n <= |s|
    ensures forall i :: 0 <= i < n ==> IsWordChar(s[i])
    ensures n < |s| ==> !IsWordChar(s[n])
  {
    if s == [] || !IsWordChar(s[0]) then 0 else 1 + WordLen(s[1..])
  }

  /** The re-cased spelling of one word; a word registered as both would be
      treated as a reserved word. */
  function FormatWord(reg: Registry, cfg: Config, w: string): (r: string)
    ensures Lower(r) == Lower(w)
  {
    if reg.IsKeyword(w) then ApplyCase(cfg.keywordCase, w)
    else if reg.IsTypeName(w) then ApplyCase(cfg.nameCase, w)
    else w
  }

  /** The case transformer applied to every word of a line. */
  function CaseLine(reg: Registry, cfg: Config, s: string): (r: string)
    ensures |r| == |s|
    ensures Lower(r) == Lower(s)
    decreases |s|
  {
    if s == [] then []
    else if IsWordChar(s[0]) then
      var n := WordLen(s);
      var w, rest := s[..n], s[n..];
      LowerAppend(w, rest);
      LowerAppend(FormatWord(reg, cfg, w), CaseLine(reg, cfg, rest));
      assert s == w + rest;
      FormatWord(reg, cfg, w) + CaseLine(reg, cfg, rest)
    else
      LowerAppend([s[0]], s[1..]);
      LowerAppend([s[0]], CaseLine(reg, cfg, s[1..]));
      assert s == [s[0]] + s[1..];
      [s[0]] + CaseLine(reg, cfg, s[1..])
  }

  /** Two strings with the same lowercase spelling agree, position by
      position, on every character class the formatter looks at. */
  lemma SameLowerSameShape(a: string, b: string)
    requires Lower(a) == Lower(b)
    ensures |a| == |b|
    ensures forall i :: 0 <= i < |a| ==>
      && IsWordChar(a[i]) == IsWordChar(b[i])
      && IsBlank(a[i]) == IsBlank(b[i])
      && (a[i] == '\n') == (b[i] == '\n')
      && (a[i] == '(') == (b[i] == '(')
      && (a[i] == ')') == (b[i] == ')')
  {
    forall i | 0 <= i < |a|
      ensures IsWordChar(a[i]) == IsWordChar(b[i]) && IsBlank(a[i]) == IsBlank(b[i])
      ensures (a[i] == '\n') == (b[i] == '\n')
      ensures (a[i] == '(') == (b[i] == '(') && (a[i] == ')') == (b[i] == ')')
    {
      assert ToLowerChar(a[i]) == Lower(a)[i] == Lower(b)[i] == ToLowerChar(b[i]);
      CharCaseFacts(a[i]);
      CharCaseFacts(b[i]);
    }
  }

  /** Word boundaries survive re-casing. */
  lemma {:induction false} WordLenIgnoresCase(a: string, b: string)
    requires Lower(a) == Lower(b)
    ensures WordLen(a) == WordLen(b)
    decreases |a|
  {
    SameLowerSameShape(a, b);
    if a != [] && IsWordChar(a[0]) {
      assert Lower(a[1..]) == Lower(a)[1..] == Lower(b)[1..] == Lower(b[1..]);
      WordLenIgnoresCase(a[1..], b[1..]);
    }
  }

  lemma ApplyCaseIdempotent(mode: CaseMode, w: string)
    ensures ApplyCase(mode, ApplyCase(mode, w)) == ApplyCase(mode, w)
  {
    StringCaseFacts(w);
  }

  /** Re-casing a word a second time changes nothing. */
  lemma FormatWordIdempotent(reg: Registry, cfg: Config, w: string)
    ensures FormatWord(reg, cfg, FormatWord(reg, cfg, w)) == FormatWord(reg, cfg, w)
  {
    var r := FormatWord(reg, cfg, w);
    MembershipIgnoresCase(reg, w, r);
    ApplyCaseIdempotent(cfg.keywordCase, w);
    ApplyCaseIdempotent(cfg.nameCase, w);
  }

  /** The case transformer is idempotent on whole lines. */
  lemma {:induction false} CaseLineIdempotent(reg: Registry, cfg: Config, s: string)
    ensures CaseLine(reg, cfg, CaseLine(reg, cfg, s)) == CaseLine(reg, cfg, s)
    decreases |s|
  {
    var r := CaseLine(reg, cfg, s);
    SameLowerSameShape(r, s);
    if s == [] {
    } else if IsWordChar(s[0]) {
      var n := WordLen(s);
      var fw := FormatWord(reg, cfg, s[..n]);
      var rest := CaseLine(reg, cfg, s[n..]);
      assert r == fw + rest;
      WordLenIgnoresCase(r, s);
      assert r[..n] == fw && r[n..] == rest;
      FormatWordIdempotent(reg, cfg, s[..n]);
      CaseLineIdempotent(reg, cfg, s[n..]);
    } else {
      assert r == [s[0]] + CaseLine(reg, cfg, s[1..]);
      assert r[1..] == CaseLine(reg, cfg, s[1..]);
      CaseLineIdempotent(reg, cfg, s[1..]);
    }
  }

  /** A line that is one whole word is formatted as that word. */
  lemma SingleWordLine(reg: Registry, cfg: Config, w: string)
    requires w != [] && AllWordChars(w)
    ensures CaseLine(reg, cfg, w) == FormatWord(reg, cfg, w)
  {
    assert WordLen(w) == |w|;
    assert w[..|w|] == w;
    assert CaseLine(reg, cfg, w[|w|..]) == [];
  }

  /** Only the two case modes of the configuration matter to the
      transformer. */
  lemma {:induction false} CaseLineOnlyModes(reg: Registry, cfg1: Config, cfg2: Config, s: string)
    requires cfg1.keywordCase == cfg2.keywordCase && cfg1.nameCase == cfg2.nameCase
    ensures CaseLine(reg, cfg1, s) == CaseLine(reg, cfg2, s)
    decreases |s|
  {
    if s == [] {
    } else if IsWordChar(s[0]) {
      var n := WordLen(s);
      assert FormatWord(reg, cfg1, s[..n]) == FormatWord(reg, cfg2, s[..n]);
      CaseLineOnlyModes(reg, cfg1, cfg2, s[n..]);
    } else {
      CaseLineOnlyModes(reg, cfg1, cfg2, s[1..]);
    }
  }

  /** A whole word followed by a non-word character (or nothing) is the
      leading word. */
  lemma {:induction false} WordLenAppend(w: string, rest: string)
    requires AllWordChars(w)
    requires rest == [] || !IsWordChar(rest[0])
    ensures WordLen(w + rest) == |w|
    decreases |w|
  {
    if w == [] {
      assert w + rest == rest;
    } else {
      assert (w + rest)[1..] == w[1..] + rest;
      WordLenAppend(w[1..], rest);
    }
  }

  /** The transformer on a line that starts with a whole word. */
  lemma CaseLineWord(reg: Registry, cfg: Config, w: string, rest: string)
    requires w != [] && AllWordChars(w)
    requires rest == [] || !IsWordChar(rest[0])
    ensures CaseLine(reg, cfg, w + rest) == FormatWord(reg, cfg, w) + CaseLine(reg, cfg, rest)
  {
    WordLenAppend(w, rest);
    assert (w + rest)[..|w|] == w && (w + rest)[|w|..] == rest;
  }

  /** A character that is not a word character is copied. */
  lemma CaseLineNonWord(reg: Registry, cfg: Config, c: char, rest: string)
    requires !IsWordChar(c)
    ensures CaseLine(reg, cfg, [c] + rest) == [c] + CaseLine(reg, cfg, rest)
  {
    assert ([c] + rest)[1..] == rest;
  }

  /** A line that starts with a word is that word re-cased, then the rest. */
  lemma CaseLineFirstWord(reg: Registry, cfg: Config, s: string)
    requires s != [] && IsWordChar(s[0])
    ensures var n := WordLen(s);
      s == s[..n] + s[n..] && CaseLine(reg, cfg, s) == FormatWord(reg, cfg, s[..n]) + CaseLine(reg, cfg, s[n..])
  {
  }

  /** The first word or character of a line without capitals is kept under
      lowercase or preserve modes, so the line is kept when its rest is. */
  lemma CaseLineKeepsStep(reg: Registry, cfg: Config, s: string, n: nat)
    requires cfg.keywordCase != Uppercase && cfg.nameCase != Uppercase
    requires forall i :: 0 <= i < |s| ==> !IsUpperChar(s[i])
    requires s != [] && n == (if IsWordChar(s[0]) then WordLen(s) else 1)
    requires CaseLine(reg, cfg, s[n..]) == s[n..]
    ensures CaseLine(reg, cfg, s) == s
  {
    if IsWordChar(s[0]) {
      CaseLineFirstWord(reg, cfg, s);
      LowerPlain(s[..n]);
      assert FormatWord(reg, cfg, s[..n]) == s[..n];
    } else {
      CaseLineNonWord(reg, cfg, s[0], s[1..]);
      assert s == [s[0]] + s[1..];
    }
  }

  /** Under lowercase or preserve modes a line without capitals is left as
      it is. */
  lemma {:induction false} CaseLineKeeps(reg: Registry, cfg: Config, s: string)
    requires cfg.keywordCase != Uppercase && cfg.nameCase != Uppercase
    requires forall i :: 0 <= i < |s| ==> !IsUpperChar(s[i])
    ensures CaseLine(reg, cfg, s) == s
    decreases |s|
  {
    if s != [] {
      var n := if IsWordChar(s[0]) then WordLen(s) else 1;
      var rest := s[n..];
      assert forall i :: 0 <= i < |rest| ==> rest[i] == s[n + i];
      CaseLineKeeps(reg, cfg, rest);
      CaseLineKeepsStep(reg, cfg, s, n);
    }
  }

  /** With both modes set to preserve, the transformer is the identity. */
  lemma {:induction false} PreserveIsIdentity(reg: Registry, cfg: Config, s: string)
    requires cfg.keywordCase == Preserve && cfg.nameCase == Preserve
    ensures CaseLine(reg, cfg, s) == s
    decreases |s|
  {
    if s == [] {
    } else if IsWordChar(s[0]) {
      var n := WordLen(s);
      CaseLineFirstWord(reg, cfg, s);
      assert FormatWord(reg, cfg, s[..n]) == s[..n];
      PreserveIsIdentity(reg, cfg, s[n..]);
    } else {
      CaseLineNonWord(reg, cfg, s[0], s[1..]);
      PreserveIsIdentity(reg, cfg, s[1..]);
      assert s == [s[0]] + s[1..];
    }
  }

  /** Reserved words under keyword_case: lowercase mode yields the lowercase
      spelling and uppercase mode the uppercase spelling, from either input
      spelling, and preserve mode leaves each spelling alone. */
  lemma KeywordCase(reg: Registry, cfg: Config, k: string)
    requires k in reg.keywords
    ensures cfg.keywordCase == Lowercase ==>
      FormatWord(reg, cfg, Lower(k)) == Lower(k) && FormatWord(reg, cfg, Upper(k)) == Lower(k)
    ensures cfg.keywordCase == Uppercase ==>
      FormatWord(reg, cfg, Lower(k)) == Upper(k) && FormatWord(reg, cfg, Upper(k)) == Upper(k)
    ensures cfg.keywordCase == Preserve ==>
      FormatWord(reg, cfg, Lower(k)) == Lower(k) && FormatWord(reg, cfg, Upper(k)) == Upper(k)
  {
    RegisteredSpellings(reg, k);
    StringCaseFacts(k);
  }

  /** Built-in type names under name_case, in a valid registry (so that the
      reserved-word rule does not take precedence). */
  lemma TypeNameCase(reg: Registry, cfg: Config, t: string)
    requires reg.Valid()
    requires t in reg.typeNames
    ensures cfg.nameCase == Lowercase ==>
      FormatWord(reg, cfg, Lower(t)) == Lower(t) && FormatWord(reg, cfg, Upper(t)) == Lower(t)
    ensures cfg.nameCase == Uppercase ==>
      FormatWord(reg, cfg, Lower(t)) == Upper(t) && FormatWord(reg, cfg, Upper(t)) == Upper(t)
    ensures cfg.nameCase == Preserve ==>
      FormatWord(reg, cfg, Lower(t)) == Lower(t) && FormatWord(reg, cfg, Upper(t)) == Upper(t)
  {
    RegisteredSpellings(reg, t);
    StringCaseFacts(t);
    TypeNameIsNotKeyword(reg, Lower(t));
    TypeNameIsNotKeyword(reg, Upper(t));
  }

  /** A word in neither registry is never re-cased (identifiers such as
      DATA_BYTES keep their spelling). */
  lemma UnregisteredWordUnchanged(reg: Registry, cfg: Config, w: string)
    requires !reg.IsKeyword(w) && !reg.IsTypeName(w)
    ensures FormatWord(reg, cfg, w) == w
  {
  }
}
