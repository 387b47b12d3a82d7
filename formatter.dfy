/** The formatting facade, `format_from_code`: the source text is cut into
    lines, every line goes through the case transformer and the indentation
    pass in one sweep from the top with a running depth counter, and the
    lines are joined again. The result says whether the depth scan never
    went below zero and ended at zero, and carries the formatted text. */
module Formatter {
  import opened Ascii
  import opened Keywords
  import opened Options
  import opened Lines
  import opened CaseTransform
  import opened Indentation

  /** The result record: `successful` and `code_formatted`. */
  datatype FormattingResult = FormattingResult(successful: bool, codeFormatted: string)

  /** What formatting a text yields. The text is always the best-effort
      layout; the result is unsuccessful when some line closes more than is
      open or when a clause or body is still open at the end. */
  function Formatted(reg: Registry, cfg: Config, code: string): FormattingResult {
    var lines := Split(code);
    var sc := ScanShapes(Shapes(lines), |lines|);
    FormattingResult(!sc.underflow && sc.depth == 0, Join(Layout(reg, cfg, lines)))
  }

  /** `format_from_code`: cut the text into lines, lay them out, join
      them again and report whether the depth scan never went below zero
      and ended at zero. */
  method FormatFromCode(reg: Registry, cfg: Config, code: string) returns (result: FormattingResult)
    ensures result == Formatted(reg, cfg, code)
  {
    var lines := Split(code);
    var out, st := IndentLines(reg, cfg, lines);
    result := FormattingResult(!st.underflow && st.depth == 0, Join(out));
  }

  /** The single pass over the lines from the top, keeping the nesting
      depth in a counter. */
  method IndentLines(reg: Registry, cfg: Config, lines: seq<string>) returns (out: seq<string>, st: Scan)
    ensures out == Layout(reg, cfg, lines)
    ensures st == ScanShapes(Shapes(lines), |lines|)
  {
    ghost var shapes := Shapes(lines);
    ghost var bodies := Bodies(reg, cfg, lines);
    var depth: nat := 0;
    var underflow := false;
    out := [];
    var i := 0;
    while i < |lines|
      invariant 0 <= i <= |lines|
      invariant Scan(depth, underflow) == ScanShapes(shapes, i)
      invariant |out| == i
      invariant forall k :: 0 <= k < i ==> out[k] == Emit(cfg.indentation, DepthAt(shapes, k), bodies[k])
    {
      var body, d, raw := IndentLine(reg, cfg, lines, i, depth);
      var line := Emit(cfg.indentation, d, body);
      PlaceExtend(cfg.indentation, shapes, bodies, out, i, depth, underflow, line);
      ScanNext(shapes, i, depth, underflow, raw);
      out := out + [line];
      if raw < 0 {
        depth, underflow := 0, true;
      } else {
        depth := raw;
      }
      i := i + 1;
    }
    st := Scan(depth, underflow);
    PlaceAll(cfg.indentation, shapes, bodies, out);
  }

  /** The work done for line i: trim it, drop blanks before ')', re-case
      it, decide the depth it is printed at and the depth that follows it
      (before clamping). */
  method IndentLine(reg: Registry, cfg: Config, lines: seq<string>, i: nat, depth: nat)
    returns (body: string, d: nat, raw: int)
    requires i < |lines|
    ensures body == Bodies(reg, cfg, lines)[i]
    ensures d == PrintDepth(depth, Shapes(lines)[i])
    ensures raw == depth + Shapes(lines)[i].delta
  {
    ShapesAt(lines, i);
    BodiesAt(reg, cfg, lines, i);
    var tight := Tighten(TrimLeft(lines[i]));
    var norm := Lower(tight);
    body := CaseLine(reg, cfg, tight);
    d := if Dedents(norm) && depth > 0 then depth - 1 else depth;
    raw := depth + Count(norm, '(') - Count(norm, ')');
    if OpensUnit(norm) {
      raw := raw + 1;
    }
    if FirstWord(norm) == "end" {
      raw := raw - 1;
    }
  }

  /** Formatting one word that is a reserved word, written in either case:
      keyword_case lowercase gives its lowercase spelling, uppercase its
      uppercase spelling, with no line added and no indentation. */
  lemma FormatKeyword(reg: Registry, cfg: Config, k: string)
    requires reg.Valid() && k in reg.keywords
    ensures cfg.keywordCase == Lowercase ==>
      Formatted(reg, cfg, Lower(k)).codeFormatted == Lower(k) &&
      Formatted(reg, cfg, Upper(k)).codeFormatted == Lower(k)
    ensures cfg.keywordCase == Uppercase ==>
      Formatted(reg, cfg, Lower(k)).codeFormatted == Upper(k) &&
      Formatted(reg, cfg, Upper(k)).codeFormatted == Upper(k)
  {
    StringCaseFacts(k);
    FormatOneWord(reg, cfg, Lower(k));
    FormatOneWord(reg, cfg, Upper(k));
    KeywordCase(reg, cfg, k);
  }

  /** The same for built-in type names under name_case. */
  lemma FormatTypeName(reg: Registry, cfg: Config, t: string)
    requires reg.Valid() && t in reg.typeNames
    ensures cfg.nameCase == Lowercase ==>
      Formatted(reg, cfg, Lower(t)).codeFormatted == Lower(t) &&
      Formatted(reg, cfg, Upper(t)).codeFormatted == Lower(t)
    ensures cfg.nameCase == Uppercase ==>
      Formatted(reg, cfg, Lower(t)).codeFormatted == Upper(t) &&
      Formatted(reg, cfg, Upper(t)).codeFormatted == Upper(t)
  {
    StringCaseFacts(t);
    FormatOneWord(reg, cfg, Lower(t));
    FormatOneWord(reg, cfg, Upper(t));
    TypeNameCase(reg, cfg, t);
  }

  /** A text that is one word is formatted as that word re-cased: nothing
      is indented and no line break is added. */
  lemma FormatOneWord(reg: Registry, cfg: Config, w: string)
    requires w != [] && AllWordChars(w)
    ensures Formatted(reg, cfg, w).codeFormatted == FormatWord(reg, cfg, w)
  {
    assert forall i :: 0 <= i < |w| ==> w[i] != '\n' && w[i] != ')';
    SingleLine(w);
    assert TrimLeft(w) == w;
    TightenFixesTight(w);
    SingleWordLine(reg, cfg, w);
    var out := Layout(reg, cfg, [w]);
    LayoutAt(reg, cfg, [w], 0);
    assert out[0] == FormatWord(reg, cfg, w);
    assert out == [out[0]];
  }

  /** Formatting is idempotent when the indentation unit is made of blanks:
      formatting the formatted text again gives the same result. */
  lemma FormatIdempotent(reg: Registry, cfg: Config, code: string)
    requires BlankUnit(cfg.indentation)
    ensures Formatted(reg, cfg, Formatted(reg, cfg, code).codeFormatted) == Formatted(reg, cfg, code)
  {
    var lines := Split(code);
    var out := Layout(reg, cfg, lines);
    OutputLinesHaveNoNewline(reg, cfg, lines);
    SplitJoin(out);
    LayoutIdempotent(reg, cfg, lines);
  }

  /** No output line contains a line break when the unit has none. */
  lemma OutputLinesHaveNoNewline(reg: Registry, cfg: Config, lines: seq<string>)
    requires NoNewline(lines) && '\n' !in cfg.indentation
    ensures NoNewline(Layout(reg, cfg, lines))
  {
    var out := Layout(reg, cfg, lines);
    forall i | 0 <= i < |lines| ensures '\n' !in out[i] {
      LayoutAt(reg, cfg, lines, i);
      var t := Tighten(TrimLeft(lines[i]));
      var b := Body(reg, cfg, lines[i]);
      assert '\n' !in t by {
        NewlineFreeTrimTighten(lines[i]);
      }
      SameLowerSameShape(b, t);
      NewlineFreeRepeat(cfg.indentation, LineDepth(lines, i));
    }
  }

  lemma NewlineFreeTrimTighten(s: string)
    requires '\n' !in s
    ensures '\n' !in Tighten(TrimLeft(s))
  {
    NewlineFreeTrim(s);
    NewlineFreeTighten(TrimLeft(s));
  }

  lemma {:induction false} NewlineFreeTrim(s: string)
    requires '\n' !in s
    ensures '\n' !in TrimLeft(s)
  {
    if s != [] && IsBlank(s[0]) {
      assert '\n' !in s[1..];
      NewlineFreeTrim(s[1..]);
    }
  }

  lemma {:induction false} NewlineFreeTighten(s: string)
    requires '\n' !in s
    ensures '\n' !in Tighten(s)
  {
    if s != [] {
      NewlineFreeTighten(s[1..]);
    }
  }

  lemma {:induction false} NewlineFreeRepeat(unit: string, n: nat)
    requires '\n' !in unit
    ensures '\n' !in Repeat(unit, n)
  {
    if n > 0 {
      NewlineFreeRepeat(unit, n - 1);
    }
  }

  /** Two configurations lay the same text out line for line: same number
      of lines, every line at the same depth with its own configuration's
      unit repeated that many times, the same content up to letter case
      (identical content when the case options agree), and the same
      success flag. The depth is thus independent of keyword_case and
      name_case, and changing the unit changes only leading whitespace. */
  lemma SameDepthUnderAnyConfig(reg: Registry, cfg1: Config, cfg2: Config, code: string)
    requires '\n' !in cfg1.indentation && '\n' !in cfg2.indentation
    ensures
      var r1 := Formatted(reg, cfg1, code);
      var r2 := Formatted(reg, cfg2, code);
      var l1 := Split(r1.codeFormatted);
      var l2 := Split(r2.codeFormatted);
      && r1.successful == r2.successful
      && |l1| == |l2| == |Split(code)|
      && forall i :: 0 <= i < |l1| ==> Aligned(cfg1, cfg2, l1[i], l2[i])
  {
    var lines := Split(code);
    OutputLinesHaveNoNewline(reg, cfg1, lines);
    OutputLinesHaveNoNewline(reg, cfg2, lines);
    SplitJoin(Layout(reg, cfg1, lines));
    SplitJoin(Layout(reg, cfg2, lines));
    LayoutsAligned(reg, cfg1, cfg2, lines);
  }}
