/** The indentation pass: each line loses its leading blanks and the blanks
    that stand directly before a ')', is re-cased, and is prefixed with the
    indentation unit repeated by the nesting depth reached at that line.
    The depth opens and closes with parentheses (generic and port clauses,
    generic map and port map lists), with the `entity` and `architecture`
    headers and with `end`; a line that starts with ')', `end` or `begin`
    is printed one level lower than the lines around it. */
module Indentation {
  import opened Ascii
  import opened Keywords
  import opened Options
  import opened Lines
  import opened CaseTransform

  /** The line without its leading blanks. */
  function TrimLeft(s: string): (r: string)
    ensures |r| <= |s|
    ensures forall i :: 0 <= i < |s| - |r| ==> IsBlank(s[i])
    ensures r == [] || !IsBlank(r[0])
  {
    if s != [] && IsBlank(s[0]) then TrimLeft(s[1..]) else s
  }

  /** Trimming removes a prefix and nothing else: the result is a suffix of
      the line, so the text after the leading blanks is kept unchanged. */
  lemma {:induction false} TrimLeftSuffix(s: string)
    ensures TrimLeft(s) == s[|s| - |TrimLeft(s)|..]
  {
    if s != [] && IsBlank(s[0]) {
      TrimLeftSuffix(s[1..]);
      assert s[1..][|s| - 1 - |TrimLeft(s)|..] == s[|s| - |TrimLeft(s)|..];
    }
  }

  /** The first character after any blanks is a closing parenthesis. */
  predicate BlanksThenClose(s: string) {
    var t := TrimLeft(s);
    t != [] && t[0] == ')'
  }

  /** The characters of a line that are not blanks, in order. */
  function NonBlanks(s: string): (r: string)
    ensures forall i :: 0 <= i < |r| ==> !IsBlank(r[i])
    ensures |r| <= |s|
  {
    if s == [] then []
    else if IsBlank(s[0]) then NonBlanks(s[1..])
    else [s[0]] + NonBlanks(s[1..])
  }

  /** No blank stands directly before a ')'. */
  ghost predicate Tight(s: string) {
    forall i, j :: 0 <= i && j == i + 1 && j < |s| ==> !(IsBlank(s[i]) && s[j] == ')')
  }

  /** Drops every blank that is followed, through blanks only, by ')':
      "DATA_BYTES => DATA_BYTES )" becomes "DATA_BYTES => DATA_BYTES)".
      Nothing else is removed, so alignment padding such as "clk     :"
      stays as it is. */
  function Tighten(s: string): (r: string)
    ensures NonBlanks(r) == NonBlanks(s)
    ensures Tight(r)
    ensures r != [] && r[0] == ')' ==> BlanksThenClose(s)
    ensures s != [] && !IsBlank(s[0]) ==> r != [] && r[0] == s[0]
  {
    if s == [] then []
    else if IsBlank(s[0]) && BlanksThenClose(s[1..]) then
      assert NonBlanks(s) == NonBlanks(s[1..]);
      Tighten(s[1..])
    else
      var rest := Tighten(s[1..]);
      var r := [s[0]] + rest;
      assert r[1..] == rest;
      assert forall i :: 1 <= i < |r| - 1 ==> r[i] == rest[i - 1] && r[i + 1] == rest[i];
      r
  }

  /** A blank followed by blanks and then ')' is not tight. */
  lemma {:induction false} BlankRunBeforeClose(s: string)
    requires Tight(s) && s != [] && IsBlank(s[0])
    ensures !BlanksThenClose(s[1..])
  {
    if |s| > 1 && s[1] != ')' && IsBlank(s[1]) {
      assert Tight(s[1..]) by {
        forall i | 0 <= i < |s[1..]| - 1
          ensures !(IsBlank(s[1..][i]) && s[1..][i + 1] == ')')
        {
          assert s[1..][i] == s[i + 1] && s[1..][i + 1] == s[i + 2];
        }
      }
      BlankRunBeforeClose(s[1..]);
    }
  }

  /** Tightening a tight line changes nothing (so Tighten is idempotent),
      and a line without ')' is always tight. */
  lemma {:induction false} TightenFixesTight(s: string)
    requires Tight(s)
    ensures Tighten(s) == s
  {
    if s != [] {
      var t := s[1..];
      assert Tight(t) by {
        forall i | 0 <= i < |t| - 1
          ensures !(IsBlank(t[i]) && t[i + 1] == ')')
        {
          assert t[i] == s[i + 1] && t[i + 1] == s[i + 2];
        }
      }
      if IsBlank(s[0]) {
        BlankRunBeforeClose(s);
      }
      TightenFixesTight(t);
      assert s == [s[0]] + t;
    }
  }

  lemma NoCloseIsTight(s: string)
    requires ')' !in s
    ensures Tight(s)
  {
  }

  /** A tail of a tight line is tight. */
  lemma TightTail(s: string)
    requires Tight(s) && s != []
    ensures Tight(s[1..])
  {
    var t := s[1..];
    forall i, j | 0 <= i && j == i + 1 && j < |t|
      ensures !(IsBlank(t[i]) && t[j] == ')')
    {
      assert t[i] == s[i + 1] && t[j] == s[j + 1];
    }
  }

  /** Two tight pieces make a tight line unless a blank of the first meets
      a ')' opening the second. */
  lemma TightAppend(a: string, b: string)
    requires Tight(a) && Tight(b)
    requires a == [] || b == [] || !IsBlank(a[|a| - 1]) || b[0] != ')'
    ensures Tight(a + b)
  {
    var s := a + b;
    forall i, j | 0 <= i && j == i + 1 && j < |s|
      ensures !(IsBlank(s[i]) && s[j] == ')')
    {
      if j < |a| {
        assert s[i] == a[i] && s[j] == a[j];
      } else if i >= |a| {
        assert s[i] == b[i - |a|] && s[j] == b[j - |a|];
      }
    }
  }

  /** Leading blanks of a text that holds something else end inside it. */
  lemma {:induction false} TrimLeftAppend(a: string, b: string)
    requires a != [] && !IsBlank(a[|a| - 1])
    ensures TrimLeft(a + b) == TrimLeft(a) + b
  {
    if IsBlank(a[0]) {
      assert (a + b)[1..] == a[1..] + b;
      TrimLeftAppend(a[1..], b);
    }
  }

  /** A character that does not start a blank run before ')' is kept. */
  lemma TightenKeeps(s: string)
    requires s != [] && !(IsBlank(s[0]) && BlanksThenClose(s[1..]))
    ensures Tighten(s) == [s[0]] + Tighten(s[1..])
  {
  }

  /** The first character of a tight piece that ends in a non-blank is
      kept, whatever follows the piece. */
  lemma TightenAppendHead(a: string, b: string)
    requires Tight(a) && a != [] && !IsBlank(a[|a| - 1])
    ensures Tighten(a + b) == [a[0]] + Tighten(a[1..] + b)
  {
    var s := a + b;
    assert s[0] == a[0];
    assert s[1..] == a[1..] + b;
    if IsBlank(a[0]) {
      BlankRunBeforeClose(a);
      TrimLeftAppend(a[1..], b);
      assert !BlanksThenClose(s[1..]);
    }
    TightenKeeps(s);
  }

  /** Tightening passes over a tight piece that ends in a non-blank. */
  lemma {:induction false} TightenAppend(a: string, b: string)
    requires Tight(a) && a != [] && !IsBlank(a[|a| - 1])
    ensures Tighten(a + b) == a + Tighten(b)
  {
    TightenAppendHead(a, b);
    if |a| == 1 {
      assert a[1..] + b == b;
    } else {
      TightTail(a);
      TightenAppend(a[1..], b);
    }
    FirstOfAppend(a, Tighten(b));
  }

  /** Leading blanks are skipped whatever follows them. */
  lemma {:induction false} TrimLeftBlanks(b: string, t: string)
    requires forall k :: 0 <= k < |b| ==> IsBlank(b[k])
    ensures TrimLeft(b + t) == TrimLeft(t)
  {
    if b == [] {
      assert b + t == t;
    } else {
      assert (b + t)[0] == b[0] && (b + t)[1..] == b[1..] + t;
      TrimLeftBlanks(b[1..], t);
    }
  }

  /** A run of blanks directly before ')' is dropped: "x )" becomes "x)". */
  lemma {:induction false} TightenDropsBlanksBeforeClose(b: string, rest: string)
    requires forall k :: 0 <= k < |b| ==> IsBlank(b[k])
    ensures Tighten(b + [')'] + rest) == [')'] + Tighten(rest)
  {
    var s := b + [')'] + rest;
    if b == [] {
      assert s == [')'] + rest;
      TightenKeeps(s);
      assert s[1..] == rest;
    } else {
      assert s[1..] == b[1..] + ([')'] + rest);
      TrimLeftBlanks(b[1..], [')'] + rest);
      assert BlanksThenClose(s[1..]);
      TightenDropsBlanksBeforeClose(b[1..], rest);
      assert b[1..] + [')'] + rest == s[1..];
    }
  }

  /** A run of blanks before anything other than ')' is kept: alignment
      padding such as "clk     :" survives tightening. */
  lemma TightenKeepsPadding(b: string, c: char, rest: string)
    requires forall k :: 0 <= k < |b| ==> IsBlank(b[k])
    requires !IsBlank(c) && c != ')'
    ensures Tighten(b + [c] + rest) == b + [c] + Tighten(rest)
  {
    var a := b + [c];
    assert ')' !in a by {
      forall k | 0 <= k < |a|
        ensures a[k] != ')'
      {
        if k < |b| {
          assert IsBlank(a[k]);
        }
      }
    }
    NoCloseIsTight(a);
    TightenAppend(a, rest);
  }

  /** The text a line is reduced to before its depth is decided: trimmed,
      tightened and lowercased, so that `END` and `end` are alike. */
  function Norm(line: string): string {
    Lower(Tighten(TrimLeft(line)))
  }

  /** What a line becomes, without its indentation. */
  function Body(reg: Registry, cfg: Config, line: string): (r: string)
    ensures Lower(r) == Norm(line)
  {
    CaseLine(reg, cfg, Tighten(TrimLeft(line)))
  }

  function Count(s: string, c: char): (n: nat)
    ensures n <= |s|
  {
    if s == [] then 0 else (if s[0] == c then 1 else 0) + Count(s[1..], c)
  }

  /** The leading word of a normalized line. */
  function FirstWord(n: string): string {
    n[..WordLen(n)]
  }

  lemma {:induction false} CountAppend(a: string, b: string, c: char)
    ensures Count(a + b, c) == Count(a, c) + Count(b, c)
  {
    if a == [] {
      assert a + b == b;
    } else {
      assert (a + b)[1..] == a[1..] + b;
      CountAppend(a[1..], b, c);
    }
  }

  lemma {:induction false} CountAbsent(s: string, c: char)
    requires c !in s
    ensures Count(s, c) == 0
  {
    if s != [] {
      assert c !in s[1..];
      CountAbsent(s[1..], c);
    }
  }

  /** Lowercasing does not move parentheses. */
  lemma {:induction false} CountLower(s: string, c: char)
    requires c == '(' || c == ')'
    ensures Count(Lower(s), c) == Count(s, c)
  {
    if s != [] {
      CharCaseFacts(s[0]);
      assert Lower(s)[1..] == Lower(s[1..]);
      CountLower(s[1..], c);
    }
  }

  /** The leading word of a line that starts with a whole word. */
  lemma FirstWordOf(w: string, rest: string)
    requires AllWordChars(w)
    requires rest == [] || !IsWordChar(rest[0])
    ensures FirstWord(w + rest) == w
  {
    WordLenAppend(w, rest);
    assert (w + rest)[..|w|] == w;
  }

  /** The leading word of the lowercase spelling is the lowercase spelling
      of the leading word. */
  lemma FirstWordLower(s: string)
    ensures FirstWord(Lower(s)) == Lower(FirstWord(s))
  {
    WordLenLower(s);
    var n := WordLen(s);
    assert Lower(s)[..n] == Lower(s[..n]);
  }

  lemma {:induction false} WordLenLower(s: string)
    ensures WordLen(Lower(s)) == WordLen(s)
  {
    if s != [] {
      CharCaseFacts(s[0]);
      assert Lower(s)[1..] == Lower(s[1..]);
      WordLenLower(s[1..]);
    }
  }

  /** The line is printed one level below the current depth. */
  predicate Dedents(n: string) {
    (n != [] && n[0] == ')') || FirstWord(n) == "end" || FirstWord(n) == "begin"
  }

  /** The line opens the body of a design unit (`entity … is`,
      `architecture … is`). */
  predicate OpensUnit(n: string) {
    FirstWord(n) == "entity" || FirstWord(n) == "architecture"
  }

  /** Net change of depth contributed by a normalized line. */
  function Delta(n: string): int {
    Count(n, '(') - Count(n, ')')
      + (if OpensUnit(n) then 1 else 0)
      - (if FirstWord(n) == "end" then 1 else 0)
  }

  /** All the pass needs to know about a line to track the depth: whether
      it is printed one level lower, and how much it opens or closes. */
  datatype Shape = Shape(dedent: bool, delta: int)

  function ShapeOf(line: string): Shape {
    var n := Norm(line);
    Shape(Dedents(n), Delta(n))
  }

  /** The shapes of the lines, in order. */
  function Shapes(lines: seq<string>): (r: seq<Shape>)
    ensures |r| == |lines|
  {
    if lines == [] then [] else [ShapeOf(lines[0])] + Shapes(lines[1..])
  }

  lemma {:induction false} ShapesAt(lines: seq<string>, i: nat)
    requires i < |lines|
    ensures Shapes(lines)[i] == ShapeOf(lines[i])
  {
    if i > 0 {
      ShapesAt(lines[1..], i - 1);
    }
  }

  /** Lines that look alike to the pass have the same shapes. */
  lemma ShapesCongruent(a: seq<string>, b: seq<string>)
    requires |a| == |b|
    requires forall i :: 0 <= i < |a| ==> Norm(a[i]) == Norm(b[i])
    ensures Shapes(a) == Shapes(b)
  {
    forall i | 0 <= i < |a| ensures Shapes(a)[i] == Shapes(b)[i] {
      ShapesAt(a, i);
      ShapesAt(b, i);
    }
  }

  /** The running state of the pass: the current depth, and whether some
      line closed more than was open. */
  datatype Scan = Scan(depth: nat, underflow: bool)

  /** One step of the pass; a close below zero is clamped to depth 0 and
      recorded. */
  function Step(st: Scan, sh: Shape): (r: Scan)
    ensures r.depth >= st.depth + sh.delta
    ensures r.underflow == (st.underflow || st.depth + sh.delta < 0)
    ensures st.depth + sh.delta < 0 ==> r.depth == 0
    ensures st.depth + sh.delta >= 0 ==> r.depth == st.depth + sh.delta
  {
    var raw := st.depth + sh.delta;
    if raw < 0 then Scan(0, true) else Scan(raw, st.underflow)
  }

  /** The state after the first n lines, scanned from the top. */
  function ScanShapes(sh: seq<Shape>, n: nat): Scan
    requires n <= |sh|
  {
    if n == 0 then Scan(0, false)
    else Step(ScanShapes(sh, n - 1), sh[n - 1])
  }

  /** Depth at which a line is printed when the current depth is `depth`;
      never negative. */
  function PrintDepth(depth: nat, sh: Shape): (d: nat)
    ensures d <= depth
    ensures sh.dedent && depth > 0 ==> d == depth - 1
    ensures !sh.dedent || depth == 0 ==> d == depth
  {
    if sh.dedent && depth > 0 then depth - 1 else depth
  }

  /** The shape of a line that has no leading blanks and no blank before a
      ')', read off the line itself. */
  lemma ShapeOfTidy(t: string)
    requires TrimLeft(t) == t && Tight(t)
    ensures var w := Lower(FirstWord(t));
      ShapeOf(t) == Shape(
        (t != [] && t[0] == ')') || w == "end" || w == "begin",
        Count(t, '(') - Count(t, ')')
          + (if w == "entity" || w == "architecture" then 1 else 0)
          - (if w == "end" then 1 else 0))
  {
    TightenFixesTight(t);
    var n := Norm(t);
    assert n == Lower(t);
    FirstWordLower(t);
    CountLower(t, '(');
    CountLower(t, ')');
    if t != [] {
      CharCaseFacts(t[0]);
      assert n[0] == ToLowerChar(t[0]);
    }
  }

  /** The body of such a line is the line re-cased. */
  lemma BodyOfTidy(reg: Registry, cfg: Config, t: string)
    requires TrimLeft(t) == t && Tight(t)
    ensures Body(reg, cfg, t) == CaseLine(reg, cfg, t)
  {
    TightenFixesTight(t);
  }

  /** The depth at which the line of shape sh[i] is printed. */
  function DepthAt(sh: seq<Shape>, i: nat): nat
    requires i < |sh|
  {
    PrintDepth(ScanShapes(sh, i).depth, sh[i])
  }

  /** The depth at which line i is printed. */
  function LineDepth(lines: seq<string>, i: nat): nat
    requires i < |lines|
  {
    DepthAt(Shapes(lines), i)
  }

  /** An output line: an empty line stays empty, any other line gets the
      unit repeated `depth` times in front of it. */
  function Emit(unit: string, depth: nat, body: string): string {
    if body == [] then [] else Repeat(unit, depth) + body
  }

  /** The bodies of the lines, in order. */
  function Bodies(reg: Registry, cfg: Config, lines: seq<string>): (r: seq<string>)
    ensures |r| == |lines|
  {
    if lines == [] then [] else [Body(reg, cfg, lines[0])] + Bodies(reg, cfg, lines[1..])
  }

  lemma {:induction false} BodiesAt(reg: Registry, cfg: Config, lines: seq<string>, i: nat)
    requires i < |lines|
    ensures Bodies(reg, cfg, lines)[i] == Body(reg, cfg, lines[i])
  {
    if i > 0 {
      BodiesAt(reg, cfg, lines[1..], i - 1);
    }
  }

  lemma BodiesCongruent(reg: Registry, cfg: Config, a: seq<string>, b: seq<string>)
    requires |a| == |b|
    requires forall i :: 0 <= i < |a| ==> Body(reg, cfg, a[i]) == Body(reg, cfg, b[i])
    ensures Bodies(reg, cfg, a) == Bodies(reg, cfg, b)
  {
    forall i | 0 <= i < |a| ensures Bodies(reg, cfg, a)[i] == Bodies(reg, cfg, b)[i] {
      BodiesAt(reg, cfg, a, i);
      BodiesAt(reg, cfg, b, i);
    }
  }

  /** Every body placed at the depth its shape and the shapes above it
      give. */
  function Place(unit: string, sh: seq<Shape>, bodies: seq<string>): (out: seq<string>)
    requires |sh| == |bodies|
    ensures |out| == |sh|
  {
    seq(|sh|, i requires 0 <= i < |sh| => Emit(unit, DepthAt(sh, i), bodies[i]))
  }

  /** One more line placed by a sweep that has placed the first i lines
      and reached the state after them. */
  lemma PlaceExtend(unit: string, sh: seq<Shape>, bodies: seq<string>, out: seq<string>,
                    i: nat, depth: nat, underflow: bool, line: string)
    requires |sh| == |bodies| && i < |sh| && |out| == i
    requires Scan(depth, underflow) == ScanShapes(sh, i)
    requires forall k :: 0 <= k < i ==> out[k] == Emit(unit, DepthAt(sh, k), bodies[k])
    requires line == Emit(unit, PrintDepth(depth, sh[i]), bodies[i])
    ensures forall k :: 0 <= k < i + 1 ==> (out + [line])[k] == Emit(unit, DepthAt(sh, k), bodies[k])
  {
  }

  /** The state after line i, from the state before it and the depth the
      line leads to before clamping. */
  lemma ScanNext(sh: seq<Shape>, i: nat, depth: nat, underflow: bool, raw: int)
    requires i < |sh| && Scan(depth, underflow) == ScanShapes(sh, i)
    requires raw == depth + sh[i].delta
    ensures ScanShapes(sh, i + 1) == if raw < 0 then Scan(0, true) else Scan(raw, underflow)
  {
  }

  /** A sweep that has placed every line has produced Place. */
  lemma PlaceAll(unit: string, sh: seq<Shape>, bodies: seq<string>, out: seq<string>)
    requires |sh| == |bodies| == |out|
    requires forall k :: 0 <= k < |out| ==> out[k] == Emit(unit, DepthAt(sh, k), bodies[k])
    ensures out == Place(unit, sh, bodies)
  {
  }

  /** The output lines of the pass. */
  function Layout(reg: Registry, cfg: Config, lines: seq<string>): (out: seq<string>)
    ensures |out| == |lines|
  {
    Place(cfg.indentation, Shapes(lines), Bodies(reg, cfg, lines))
  }

  lemma LayoutAt(reg: Registry, cfg: Config, lines: seq<string>, i: nat)
    requires i < |lines|
    ensures Layout(reg, cfg, lines)[i] == Emit(cfg.indentation, LineDepth(lines, i), Body(reg, cfg, lines[i]))
  {
    BodiesAt(reg, cfg, lines, i);
  }

  /** An indentation unit made of blanks only. */
  predicate BlankUnit(unit: string) {
    forall i :: 0 <= i < |unit| ==> IsBlank(unit[i])
  }

  lemma {:induction false} RepeatBlank(unit: string, n: nat)
    requires BlankUnit(unit)
    ensures forall i :: 0 <= i < |Repeat(unit, n)| ==> IsBlank(Repeat(unit, n)[i])
  {
    if n > 0 {
      RepeatBlank(unit, n - 1);
      var r := Repeat(unit, n);
      assert r == unit + Repeat(unit, n - 1);
      forall i | 0 <= i < |r| ensures IsBlank(r[i]) {
        if i >= |unit| {
          assert r[i] == Repeat(unit, n - 1)[i - |unit|];
        }
      }
    }
  }

  /** Trimming an indented line gives back exactly what was indented. */
  lemma {:induction false} TrimIndented(prefix: string, b: string)
    requires forall i :: 0 <= i < |prefix| ==> IsBlank(prefix[i])
    requires b == [] || !IsBlank(b[0])
    ensures TrimLeft(prefix + b) == b
  {
    if prefix == [] {
      assert prefix + b == b;
    } else {
      assert (prefix + b)[1..] == prefix[1..] + b;
      TrimIndented(prefix[1..], b);
    }
  }

  /** A body is already trimmed, tight and re-cased: the pass leaves it
      alone and sees it as the line it came from. */
  lemma BodyIsFixed(reg: Registry, cfg: Config, line: string)
    ensures Body(reg, cfg, Body(reg, cfg, line)) == Body(reg, cfg, line)
    ensures Norm(Body(reg, cfg, line)) == Norm(line)
  {
    var t := Tighten(TrimLeft(line));
    var b := CaseLine(reg, cfg, t);
    SameLowerSameShape(b, t);
    assert TrimLeft(b) == b;
    assert Tight(b) by {
      forall i | 0 <= i < |b| - 1 ensures !(IsBlank(b[i]) && b[i + 1] == ')') {
        assert !(IsBlank(t[i]) && t[i + 1] == ')');
      }
    }
    TightenFixesTight(b);
    CaseLineIdempotent(reg, cfg, t);
  }

  /** Indenting a body with blanks does not change how the pass sees it. */
  lemma EmitIsFixed(reg: Registry, cfg: Config, d: nat, line: string)
    requires BlankUnit(cfg.indentation)
    ensures Body(reg, cfg, Emit(cfg.indentation, d, Body(reg, cfg, line))) == Body(reg, cfg, line)
    ensures Norm(Emit(cfg.indentation, d, Body(reg, cfg, line))) == Norm(line)
  {
    var b := Body(reg, cfg, line);
    BodyIsFixed(reg, cfg, line);
    if b != [] {
      RepeatBlank(cfg.indentation, d);
      assert TrimLeft(b) == b;
      TrimIndented(Repeat(cfg.indentation, d), b);
    } else {
      assert Norm(line) == Lower(b) == [];
    }
  }

  /** The pass is idempotent when the unit is made of blanks: its own
      output lines are laid out exactly as they are. */
  lemma LayoutIdempotent(reg: Registry, cfg: Config, lines: seq<string>)
    requires BlankUnit(cfg.indentation)
    ensures Layout(reg, cfg, Layout(reg, cfg, lines)) == Layout(reg, cfg, lines)
    ensures Shapes(Layout(reg, cfg, lines)) == Shapes(lines)
  {
    var out := Layout(reg, cfg, lines);
    forall i | 0 <= i < |lines|
      ensures Norm(out[i]) == Norm(lines[i])
      ensures Body(reg, cfg, out[i]) == Body(reg, cfg, lines[i])
    {
      LayoutAt(reg, cfg, lines, i);
      EmitIsFixed(reg, cfg, LineDepth(lines, i), lines[i]);
    }
    ShapesCongruent(out, lines);
    BodiesCongruent(reg, cfg, out, lines);
  }

  /** The same line laid out under two configurations: the depth is the
      same, the bodies agree up to letter case (and exactly when the case
      modes agree), and only the unit differs in front of them. */
  lemma LineUnderTwoConfigs(reg: Registry, cfg1: Config, cfg2: Config, lines: seq<string>, i: nat)
    requires i < |lines|
    ensures
      var b1 := Body(reg, cfg1, lines[i]);
      var b2 := Body(reg, cfg2, lines[i]);
      && Layout(reg, cfg1, lines)[i] == Emit(cfg1.indentation, LineDepth(lines, i), b1)
      && Layout(reg, cfg2, lines)[i] == Emit(cfg2.indentation, LineDepth(lines, i), b2)
      && Lower(b1) == Lower(b2) && (b1 == [] <==> b2 == [])
      && (cfg1.keywordCase == cfg2.keywordCase && cfg1.nameCase == cfg2.nameCase ==> b1 == b2)
  {
    LayoutAt(reg, cfg1, lines, i);
    LayoutAt(reg, cfg2, lines, i);
    if cfg1.keywordCase == cfg2.keywordCase && cfg1.nameCase == cfg2.nameCase {
      CaseLineOnlyModes(reg, cfg1, cfg2, Tighten(TrimLeft(lines[i])));
    }
  }

  /** Two output lines that differ only in the unit and in letter case: both
      empty, or the same number of units followed by the same non-empty
      content up to letter case (exactly the same content when the case
      modes agree). */
  ghost predicate Aligned(cfg1: Config, cfg2: Config, l1: string, l2: string) {
    (l1 == [] && l2 == []) ||
    exists d: nat, c1: string, c2: string ::
      && c1 != [] && Lower(c1) == Lower(c2)
      && (cfg1.keywordCase == cfg2.keywordCase && cfg1.nameCase == cfg2.nameCase ==> c1 == c2)
      && l1 == Repeat(cfg1.indentation, d) + c1
      && l2 == Repeat(cfg2.indentation, d) + c2
  }

  /** The whole text laid out under two configurations, line by line. */
  lemma LayoutsAligned(reg: Registry, cfg1: Config, cfg2: Config, lines: seq<string>)
    ensures forall i :: 0 <= i < |lines| ==>
      Aligned(cfg1, cfg2, Layout(reg, cfg1, lines)[i], Layout(reg, cfg2, lines)[i])
  {
    forall i | 0 <= i < |lines|
      ensures Aligned(cfg1, cfg2, Layout(reg, cfg1, lines)[i], Layout(reg, cfg2, lines)[i])
    {
      LineUnderTwoConfigs(reg, cfg1, cfg2, lines, i);
      var b1 := Body(reg, cfg1, lines[i]);
      var b2 := Body(reg, cfg2, lines[i]);
      if b1 != [] {
        var d := LineDepth(lines, i);
        assert Layout(reg, cfg1, lines)[i] == Repeat(cfg1.indentation, d) + b1;
        assert Layout(reg, cfg2, lines)[i] == Repeat(cfg2.indentation, d) + b2;
      }
    }
  }

  /** What the pass does to each line's characters: apart from its
      indentation, a laid-out line holds the same non-blank characters in
      the same order, up to letter case. */
  lemma LayoutKeepsContent(reg: Registry, cfg: Config, lines: seq<string>, i: nat)
    requires i < |lines| && BlankUnit(cfg.indentation)
    ensures Lower(NonBlanks(Layout(reg, cfg, lines)[i])) == Lower(NonBlanks(lines[i]))
  {
    var line := lines[i];
    LayoutAt(reg, cfg, lines, i);
    var t := Tighten(TrimLeft(line));
    var b := Body(reg, cfg, line);
    NonBlanksOfTrim(line);
    NonBlanksIgnoreCase(b, t);
    if b != [] {
      RepeatBlank(cfg.indentation, LineDepth(lines, i));
      NonBlanksOfIndented(Repeat(cfg.indentation, LineDepth(lines, i)), b);
    }
  }

  lemma {:induction false} NonBlanksOfTrim(s: string)
    ensures NonBlanks(TrimLeft(s)) == NonBlanks(s)
  {
    if s != [] && IsBlank(s[0]) {
      NonBlanksOfTrim(s[1..]);
    }
  }

  lemma {:induction false} NonBlanksOfIndented(prefix: string, b: string)
    requires forall i :: 0 <= i < |prefix| ==> IsBlank(prefix[i])
    ensures NonBlanks(prefix + b) == NonBlanks(b)
  {
    if prefix == [] {
      assert prefix + b == b;
    } else {
      assert (prefix + b)[1..] == prefix[1..] + b;
      NonBlanksOfIndented(prefix[1..], b);
    }
  }

  /** Re-cased strings have re-cased non-blank characters. */
  lemma {:induction false} NonBlanksIgnoreCase(a: string, b: string)
    requires Lower(a) == Lower(b)
    ensures Lower(NonBlanks(a)) == Lower(NonBlanks(b))
    decreases |a|
  {
    SameLowerSameShape(a, b);
    if a != [] {
      assert Lower(a[1..]) == Lower(a)[1..] == Lower(b)[1..] == Lower(b[1..]);
      NonBlanksIgnoreCase(a[1..], b[1..]);
      if !IsBlank(a[0]) {
        LowerAppend([a[0]], NonBlanks(a[1..]));
        LowerAppend([b[0]], NonBlanks(b[1..]));
        assert ToLowerChar(a[0]) == Lower(a)[0] == Lower(b)[0] == ToLowerChar(b[0]);
      }
    }
  }

  /** A line that opens exactly one level (`generic (`, `port map (`),
      followed by lines that leave the depth alone, and then a line that
      starts with ')': the closing line is printed at the depth of the line
      that opened, and the lines between one level deeper. */
  lemma ClosingLineMatchesOpener(lines: seq<string>, o: nat, c: nat)
    requires o < c < |lines|
    requires !Dedents(Norm(lines[o])) && Delta(Norm(lines[o])) == 1
    requires forall k :: o < k < c ==> !Dedents(Norm(lines[k])) && Delta(Norm(lines[k])) == 0
    requires Norm(lines[c]) != [] && Norm(lines[c])[0] == ')'
    ensures LineDepth(lines, c) == LineDepth(lines, o)
    ensures forall k :: o < k < c ==> LineDepth(lines, k) == LineDepth(lines, o) + 1
  {
    var sh := Shapes(lines);
    ShapesAt(lines, o);
    ShapesAt(lines, c);
    forall k | o < k < c ensures sh[k] == Shape(false, 0) {
      ShapesAt(lines, k);
    }
    forall k | o < k <= c
      ensures ScanShapes(sh, k).depth == ScanShapes(sh, o).depth + 1
    {
      InnerDepth(sh, o, k);
    }
  }

  lemma {:induction false} InnerDepth(sh: seq<Shape>, o: nat, k: nat)
    requires o < k <= |sh|
    requires sh[o].delta == 1
    requires forall m :: o < m < k ==> sh[m].delta == 0
    ensures ScanShapes(sh, k).depth == ScanShapes(sh, o).depth + 1
    decreases k - o
  {
    if k > o + 1 {
      InnerDepth(sh, o, k - 1);
    }
  }
}
