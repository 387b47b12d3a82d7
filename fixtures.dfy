/** The two indentation fixtures of the formatter's test suite ("indentation
    is 2" and "indentation is 4"): an entity with a generic and a port
    clause, and an architecture with instances whose maps are opened and
    closed on their own lines. Both case options are lowercase and the
    identifier DATA_BYTES is neither a reserved word nor a type name. */
module Fixtures {
  import opened Ascii
  import opened Keywords
  import opened Options
  import opened Lines
  import opened CaseTransform
  import opened Indentation
  import opened Formatter

  predicate LowercaseModes(cfg: Config) {
    cfg.keywordCase == Lowercase && cfg.nameCase == Lowercase
  }

  /** DATA_BYTES is an ordinary identifier in the registry, as the expected
      texts of both fixtures show. */
  predicate Ordinary(reg: Registry) {
    !reg.IsKeyword("DATA_BYTES") && !reg.IsTypeName("DATA_BYTES")
  }


  /** What the pass reads off one fixture line: its shape and its body, and
      that it holds no line break. */
  ghost predicate Row(reg: Registry, cfg: Config, line: string, sh: Shape, body: string) {
    ShapeOf(line) == sh && Body(reg, cfg, line) == body && '\n' !in line
  }

  /** Text without capitals, line breaks or parentheses. */
  predicate Inert(s: string) {
    forall i :: 0 <= i < |s| ==> !IsUpperChar(s[i]) && s[i] != '\n' && s[i] != '(' && s[i] != ')'
  }

  /** The parenthesis text a fixture line may end with. */
  predicate Tail(tail: string) {
    tail == "" || tail == "(" || tail == ");"
  }

  /** What such a tail opens (positive) or closes (negative). */
  function TailDelta(tail: string): int {
    if tail == "(" then 1 else if tail == ");" then -1 else 0
  }

  /** A line cut into a leading word, an inert middle and a tail, with no
      blank directly before a closing parenthesis. */
  predicate WordLineParts(t: string, w: string, mid: string, tail: string) {
    && t == w + (mid + tail)
    && w != [] && AllWordChars(w)
    && (mid == [] || !IsWordChar(mid[0]))
    && Tail(tail) && Inert(mid)
    && (mid == [] || !IsBlank(mid[|mid| - 1]) || tail != ");")
  }

  /** A line that opens with ')' followed by an inert middle and a tail. */
  predicate CloseLineParts(t: string, mid: string, tail: string) {
    && t == ")" + (mid + tail)
    && Tail(tail) && Inert(mid)
    && (mid == [] || !IsBlank(mid[|mid| - 1]) || tail != ");")
  }

  /** A line holding the same word twice around an inert separator of
      non-word characters, with a ")" or nothing after it. */
  predicate PairLineParts(t: string, w: string, sep: string, tail: string) {
    && t == w + (sep + (w + tail))
    && w != [] && AllWordChars(w)
    && sep != [] && Inert(sep)
    && (forall i :: 0 <= i < |sep| ==> !IsWordChar(sep[i]))
    && (tail == "" || tail == ")")
  }

  predicate Uncapitalized(s: string) {
    forall i :: 0 <= i < |s| ==> !IsUpperChar(s[i])
  }

  /** The shape of a tidy line that starts with a word, read off that word
      and the parentheses after it. */
  lemma WordLineShape(w: string, rest: string)
    requires w != [] && AllWordChars(w) && (rest == [] || !IsWordChar(rest[0]))
    requires Tight(w + rest)
    ensures var lw := Lower(w);
      ShapeOf(w + rest) == Shape(lw == "end" || lw == "begin",
        Count(rest, '(') - Count(rest, ')')
          + (if lw == "entity" || lw == "architecture" then 1 else 0)
          - (if lw == "end" then 1 else 0))
  {
    var t := w + rest;
    assert t[0] == w[0];
    assert TrimLeft(t) == t;
    FirstWordOf(w, rest);
    CountAbsent(w, '(');
    CountAbsent(w, ')');
    CountAppend(w, rest, '(');
    CountAppend(w, rest, ')');
    ShapeOfTidy(t);
  }

  /** A tidy line made of a word that keeps its spelling and a rest without
      capitals is its own body. */
  lemma WordLineBody(reg: Registry, cfg: Config, w: string, rest: string)
    requires LowercaseModes(cfg)
    requires w != [] && AllWordChars(w) && (rest == [] || !IsWordChar(rest[0]))
    requires Tight(w + rest)
    requires FormatWord(reg, cfg, w) == w
    requires forall i :: 0 <= i < |rest| ==> !IsUpperChar(rest[i])
    ensures Body(reg, cfg, w + rest) == w + rest
  {
    var t := w + rest;
    assert t[0] == w[0];
    assert TrimLeft(t) == t;
    BodyOfTidy(reg, cfg, t);
    CaseLineWord(reg, cfg, w, rest);
    CaseLineKeeps(reg, cfg, rest);
  }

  /** What the middle and the tail of a line contribute. */
  lemma RestFacts(mid: string, tail: string)
    requires Tail(tail) && Inert(mid)
    requires mid == [] || !IsBlank(mid[|mid| - 1]) || tail != ");"
    ensures var rest := mid + tail;
      && Tight(rest)
      && (forall i :: 0 <= i < |rest| ==> !IsUpperChar(rest[i]) && rest[i] != '\n')
      && Count(rest, '(') - Count(rest, ')') == TailDelta(tail)
  {
    var rest := mid + tail;
    NoCloseIsTight(mid);
    assert Tight(tail);
    TightAppend(mid, tail);
    CountAbsent(mid, '(');
    CountAbsent(mid, ')');
    CountAppend(mid, tail, '(');
    CountAppend(mid, tail, ')');
    forall i | 0 <= i < |rest| ensures !IsUpperChar(rest[i]) && rest[i] != '\n' {
      if i >= |mid| {
        assert rest[i] == tail[i - |mid|];
      }
    }
  }

  /** A leading word in front of a tight rest without line breaks. */
  lemma WordInFront(w: string, rest: string)
    requires w != [] && AllWordChars(w) && Tight(rest)
    requires forall i :: 0 <= i < |rest| ==> rest[i] != '\n'
    ensures Tight(w + rest) && '\n' !in w + rest
  {
    assert w[|w| - 1] != ' ' && w[|w| - 1] != '\t';
    TightAppend(w, rest);
    var t := w + rest;
    forall i | 0 <= i < |t| ensures t[i] != '\n' {
      if i >= |w| {
        assert t[i] == rest[i - |w|];
      }
    }
  }

  /** A line cut into a word that keeps its spelling, an inert middle and a
      tail is its own body, and its shape is read off the word and the
      tail. */
  lemma WordLineRow(reg: Registry, cfg: Config, t: string, w: string, mid: string, tail: string)
    requires LowercaseModes(cfg)
    requires WordLineParts(t, w, mid, tail)
    requires FormatWord(reg, cfg, w) == w
    ensures var lw := Lower(w);
      Row(reg, cfg, t, Shape(lw == "end" || lw == "begin",
        TailDelta(tail)
          + (if lw == "entity" || lw == "architecture" then 1 else 0)
          - (if lw == "end" then 1 else 0)), t)
  {
    var rest := mid + tail;
    RestFacts(mid, tail);
    assert rest == [] || !IsWordChar(rest[0]) by {
      if rest != [] && mid == [] {
        assert rest[0] == tail[0];
      }
    }
    WordInFront(w, rest);
    WordLineShape(w, rest);
    WordLineBody(reg, cfg, w, rest);
  }

  /** The shape of a tidy line led by the word `w`, written without
      capitals, and ending with `tail`. */
  function PlainShape(w: string, tail: string): Shape {
    Shape(w == "end" || w == "begin",
      TailDelta(tail)
        + (if w == "entity" || w == "architecture" then 1 else 0)
        - (if w == "end" then 1 else 0))
  }

  /** The same for a leading word without capitals. */
  lemma PlainWordLineRow(reg: Registry, cfg: Config, t: string, w: string, mid: string, tail: string)
    requires LowercaseModes(cfg)
    requires WordLineParts(t, w, mid, tail) && Uncapitalized(w)
    ensures Row(reg, cfg, t, PlainShape(w, tail), t)
  {
    LowerPlain(w);
    WordLineRow(reg, cfg, t, w, mid, tail);
  }

  /** A line without a leading word has an empty first word. */
  lemma NoFirstWord(t: string)
    requires t != [] && !IsWordChar(t[0])
    ensures FirstWord(t) == []
  {
  }

  /** A line that opens with ')' followed by an inert middle and a tail is
      tight and holds no capitals and no line break. */
  lemma CloseLineFacts(t: string, mid: string, tail: string)
    requires CloseLineParts(t, mid, tail)
    ensures Tight(t) && '\n' !in t && TrimLeft(t) == t
    ensures forall i :: 0 <= i < |t| ==> !IsUpperChar(t[i])
    ensures Count(t, '(') - Count(t, ')') == TailDelta(tail) - 1
  {
    var rest := mid + tail;
    RestFacts(mid, tail);
    TightAppend(")", rest);
    assert TrimLeft(t) == t;
    forall i | 0 <= i < |t| ensures !IsUpperChar(t[i]) && t[i] != '\n' {
      if i > 0 {
        assert t[i] == rest[i - 1];
      }
    }
    CountAppend(")", rest, '(');
    CountAppend(")", rest, ')');
  }

  /** A line that opens with ')' is printed one level lower, and it is its
      own body. */
  lemma CloseLineRow(reg: Registry, cfg: Config, t: string, mid: string, tail: string)
    requires LowercaseModes(cfg)
    requires CloseLineParts(t, mid, tail)
    ensures Row(reg, cfg, t, Shape(true, TailDelta(tail) - 1), t)
  {
    CloseLineFacts(t, mid, tail);
    BodyOfTidy(reg, cfg, t);
    CaseLineKeeps(reg, cfg, t);
    NoFirstWord(t);
    ShapeOfTidy(t);
  }

  /** Non-word characters in front of a line are copied by the transformer. */
  lemma {:induction false} CaseLineSkip(reg: Registry, cfg: Config, sep: string, rest: string)
    requires forall i :: 0 <= i < |sep| ==> !IsWordChar(sep[i])
    ensures CaseLine(reg, cfg, sep + rest) == sep + CaseLine(reg, cfg, rest)
    decreases |sep|
  {
    if sep == [] {
      assert sep + rest == rest;
    } else {
      var tl := sep[1..];
      forall i | 0 <= i < |tl| ensures !IsWordChar(tl[i]) {
        assert tl[i] == sep[i + 1];
      }
      ConsAppend(sep, rest);
      ConsAppend(sep, CaseLine(reg, cfg, rest));
      CaseLineSkip(reg, cfg, tl, rest);
      CaseLineNonWord(reg, cfg, sep[0], tl + rest);
    }
  }

  lemma ConsAppend(a: string, b: string)
    requires a != []
    ensures a + b == [a[0]] + (a[1..] + b)
  {
  }

  /** The pieces of a pair line are tight and carry the parentheses of the
      tail alone. */
  lemma PairFacts(t: string, w: string, sep: string, tail: string)
    requires PairLineParts(t, w, sep, tail)
    ensures Tight(t) && '\n' !in t
    ensures Count(sep + (w + tail), '(') == 0
    ensures Count(sep + (w + tail), ')') == |tail|
  {
    var wt := w + tail;
    assert w[|w| - 1] != ' ' && w[|w| - 1] != '\t';
    assert Tight(tail);
    TightAppend(w, tail);
    NoCloseIsTight(sep);
    assert wt[0] == w[0];
    TightAppend(sep, wt);
    assert forall i :: 0 <= i < |w| ==> w[i] != '\n' && w[i] != '(' && w[i] != ')';
    assert forall i :: 0 <= i < |wt| ==> wt[i] != '\n' by {
      forall i | 0 <= i < |wt| ensures wt[i] != '\n' {
        if i >= |w| {
          assert wt[i] == tail[i - |w|];
        }
      }
    }
    WordInFront(w, sep + wt);
    CountAbsent(sep, '(');
    CountAbsent(sep, ')');
    CountAbsent(w, '(');
    CountAbsent(w, ')');
    CountAppend(w, tail, '(');
    CountAppend(w, tail, ')');
    CountAppend(sep, wt, '(');
    CountAppend(sep, wt, ')');
  }

  /** A pair line whose word keeps its spelling is its own body; it opens
      nothing and closes what its tail closes. */
  lemma PairLineRow(reg: Registry, cfg: Config, t: string, w: string, sep: string, tail: string)
    requires LowercaseModes(cfg)
    requires PairLineParts(t, w, sep, tail)
    requires FormatWord(reg, cfg, w) == w
    requires var lw := Lower(w); lw != "end" && lw != "begin" && lw != "entity" && lw != "architecture"
    ensures Row(reg, cfg, t, Shape(false, -|tail|), t)
  {
    PairShape(t, w, sep, tail);
    assert t[0] == w[0];
    assert TrimLeft(t) == t;
    BodyOfTidy(reg, cfg, t);
    PairCaseLine(reg, cfg, w, sep, tail);
  }

  /** A pair line opens nothing and closes what its tail closes. */
  lemma PairShape(t: string, w: string, sep: string, tail: string)
    requires PairLineParts(t, w, sep, tail)
    requires var lw := Lower(w); lw != "end" && lw != "begin" && lw != "entity" && lw != "architecture"
    ensures Tight(t) && '\n' !in t
    ensures ShapeOf(t) == Shape(false, -|tail|)
  {
    PairFacts(t, w, sep, tail);
    WordLineShape(w, sep + (w + tail));
  }

  /** The transformer leaves a pair line whose word keeps its spelling as
      it is. */
  lemma PairCaseLine(reg: Registry, cfg: Config, w: string, sep: string, tail: string)
    requires LowercaseModes(cfg)
    requires w != [] && AllWordChars(w) && FormatWord(reg, cfg, w) == w
    requires sep != [] && forall i :: 0 <= i < |sep| ==> !IsWordChar(sep[i])
    requires tail == "" || tail == ")"
    ensures CaseLine(reg, cfg, w + (sep + (w + tail))) == w + (sep + (w + tail))
  {
    CaseLineWord(reg, cfg, w, sep + (w + tail));
    CaseLineSkip(reg, cfg, sep, w + tail);
    CaseLineWord(reg, cfg, w, tail);
    CaseLineKeeps(reg, cfg, tail);
  }

  /** A line that the pass tightens reads like its tightened text. */
  lemma TightenedRow(reg: Registry, cfg: Config, t: string, u: string, sh: Shape)
    requires t != [] && !IsBlank(t[0]) && Tighten(t) == u && '\n' !in t
    requires Row(reg, cfg, u, sh, u)
    ensures Row(reg, cfg, t, sh, u)
  {
    assert TrimLeft(t) == t;
    assert TrimLeft(u) == u;
    TightenFixesTight(u);
  }

  // The lines of the fixtures, one lemma per distinct line: the shape the
  // pass reads off it and the body it prints.

  lemma EntityText()
    ensures WordLineParts("entity dummy is", "entity", " dummy is", "") && Uncapitalized("entity")
  {
  }

  lemma EntityParts(reg: Registry, cfg: Config, t: string)
    requires LowercaseModes(cfg) && t == "entity dummy is"
    ensures Row(reg, cfg, t, PlainShape("entity", ""), t)
  {
    EntityText();
    PlainWordLineRow(reg, cfg, t, "entity", " dummy is", "");
  }

  /** The entity header opens the entity body. */
  lemma EntityRow(reg: Registry, cfg: Config, t: string)
    requires LowercaseModes(cfg) && t == "entity dummy is"
    ensures Row(reg, cfg, t, Shape(false, 1), t)
  {
    EntityParts(reg, cfg, t);
  }

  lemma GenericText()
    ensures WordLineParts("generic (", "generic", " ", "(") && Uncapitalized("generic")
  {
  }

  lemma GenericParts(reg: Registry, cfg: Config, t: string)
    requires LowercaseModes(cfg) && t == "generic ("
    ensures Row(reg, cfg, t, PlainShape("generic", "("), t)
  {
    GenericText();
    PlainWordLineRow(reg, cfg, t, "generic", " ", "(");
  }

  /** A generic clause opens a parenthesis. */
  lemma GenericRow(reg: Registry, cfg: Config, t: string)
    requires LowercaseModes(cfg) && t == "generic ("
    ensures Row(reg, cfg, t, Shape(false, 1), t)
  {
    GenericParts(reg, cfg, t);
  }

  lemma GenericSizeText()
    ensures WordLineParts("DATA_BYTES : integer := 8);", "DATA_BYTES", " : integer := 8", ");")
  {
  }

  /** The last generic declaration closes the clause on its own line, and
      the identifier keeps its capitals. */
  lemma GenericSizeRow(reg: Registry, cfg: Config, t: string)
    requires LowercaseModes(cfg) && Ordinary(reg) && t == "DATA_BYTES : integer := 8);"
    ensures Row(reg, cfg, t, Shape(false, -1), t)
  {
    GenericSizeText();
    UnregisteredWordUnchanged(reg, cfg, "DATA_BYTES");
    WordLineRow(reg, cfg, t, "DATA_BYTES", " : integer := 8", ");");
  }

  lemma PortText()
    ensures WordLineParts("port (", "port", " ", "(") && Uncapitalized("port")
  {
  }

  lemma PortParts(reg: Registry, cfg: Config, t: string)
    requires LowercaseModes(cfg) && t == "port ("
    ensures Row(reg, cfg, t, PlainShape("port", "("), t)
  {
    PortText();
    PlainWordLineRow(reg, cfg, t, "port", " ", "(");
  }

  /** A port clause opens a parenthesis. */
  lemma PortRow(reg: Registry, cfg: Config, t: string)
    requires LowercaseModes(cfg) && t == "port ("
    ensures Row(reg, cfg, t, Shape(false, 1), t)
  {
    PortParts(reg, cfg, t);
  }

  lemma ClockPortText()
    ensures WordLineParts("clk     : in std_ulogic;", "clk", "     : in std_ulogic;", "") && Uncapitalized("clk")
  {
  }

  lemma ClockPortParts(reg: Registry, cfg: Config, t: string)
    requires LowercaseModes(cfg) && t == "clk     : in std_ulogic;"
    ensures Row(reg, cfg, t, PlainShape("clk", ""), t)
  {
    ClockPortText();
    PlainWordLineRow(reg, cfg, t, "clk", "     : in std_ulogic;", "");
  }

  /** A port declaration; the padding after the name stays. */
  lemma ClockPortRow(reg: Registry, cfg: Config, t: string)
    requires LowercaseModes(cfg) && t == "clk     : in std_ulogic;"
    ensures Row(reg, cfg, t, Shape(false, 0), t)
  {
    ClockPortParts(reg, cfg, t);
  }

  lemma ResetPortText()
    ensures WordLineParts("reset_n : in std_ulogic;", "reset_n", " : in std_ulogic;", "") && Uncapitalized("reset_n")
  {
  }

  lemma ResetPortParts(reg: Registry, cfg: Config, t: string)
    requires LowercaseModes(cfg) && t == "reset_n : in std_ulogic;"
    ensures Row(reg, cfg, t, PlainShape("reset_n", ""), t)
  {
    ResetPortText();
    PlainWordLineRow(reg, cfg, t, "reset_n", " : in std_ulogic;", "");
  }

  /** A port declaration. */
  lemma ResetPortRow(reg: Registry, cfg: Config, t: string)
    requires LowercaseModes(cfg) && t == "reset_n : in std_ulogic;"
    ensures Row(reg, cfg, t, Shape(false, 0), t)
  {
    ResetPortParts(reg, cfg, t);
  }

  lemma CloseClauseText()
    ensures CloseLineParts(");", ";", "")
  {
  }

  /** The closing ");" of a clause or a map is printed one level lower. */
  lemma CloseClauseRow(reg: Registry, cfg: Config, t: string)
    requires LowercaseModes(cfg) && t == ");"
    ensures Row(reg, cfg, t, Shape(true, -1), t)
  {
    CloseClauseText();
    CloseLineRow(reg, cfg, t, ";", "");
  }

  lemma EndText()
    ensures WordLineParts("end;", "end", ";", "") && Uncapitalized("end")
  {
  }

  lemma EndParts(reg: Registry, cfg: Config, t: string)
    requires LowercaseModes(cfg) && t == "end;"
    ensures Row(reg, cfg, t, PlainShape("end", ""), t)
  {
    EndText();
    PlainWordLineRow(reg, cfg, t, "end", ";", "");
  }

  /** "end;" closes the entity body and is printed one level lower. */
  lemma EndRow(reg: Registry, cfg: Config, t: string)
    requires LowercaseModes(cfg) && t == "end;"
    ensures Row(reg, cfg, t, Shape(true, -1), t)
  {
    EndParts(reg, cfg, t);
  }

  lemma ArchitectureText()
    ensures WordLineParts("architecture rtl of dummy is", "architecture", " rtl of dummy is", "") && Uncapitalized("architecture")
  {
  }

  lemma ArchitectureParts(reg: Registry, cfg: Config, t: string)
    requires LowercaseModes(cfg) && t == "architecture rtl of dummy is"
    ensures Row(reg, cfg, t, PlainShape("architecture", ""), t)
  {
    ArchitectureText();
    PlainWordLineRow(reg, cfg, t, "architecture", " rtl of dummy is", "");
  }

  /** The architecture header opens the declarative part. */
  lemma ArchitectureRow(reg: Registry, cfg: Config, t: string)
    requires LowercaseModes(cfg) && t == "architecture rtl of dummy is"
    ensures Row(reg, cfg, t, Shape(false, 1), t)
  {
    ArchitectureParts(reg, cfg, t);
  }

  lemma SignalText()
    ensures WordLineParts("signal my_signal : std_logic;", "signal", " my_signal : std_logic;", "") && Uncapitalized("signal")
  {
  }

  lemma SignalParts(reg: Registry, cfg: Config, t: string)
    requires LowercaseModes(cfg) && t == "signal my_signal : std_logic;"
    ensures Row(reg, cfg, t, PlainShape("signal", ""), t)
  {
    SignalText();
    PlainWordLineRow(reg, cfg, t, "signal", " my_signal : std_logic;", "");
  }

  /** A signal declaration. */
  lemma SignalRow(reg: Registry, cfg: Config, t: string)
    requires LowercaseModes(cfg) && t == "signal my_signal : std_logic;"
    ensures Row(reg, cfg, t, Shape(false, 0), t)
  {
    SignalParts(reg, cfg, t);
  }

  lemma BeginText()
    ensures WordLineParts("begin;", "begin", ";", "") && Uncapitalized("begin")
  {
  }

  lemma BeginParts(reg: Registry, cfg: Config, t: string)
    requires LowercaseModes(cfg) && t == "begin;"
    ensures Row(reg, cfg, t, PlainShape("begin", ""), t)
  {
    BeginText();
    PlainWordLineRow(reg, cfg, t, "begin", ";", "");
  }

  /** "begin" is printed one level lower and keeps the depth. */
  lemma BeginRow(reg: Registry, cfg: Config, t: string)
    requires LowercaseModes(cfg) && t == "begin;"
    ensures Row(reg, cfg, t, Shape(true, 0), t)
  {
    BeginParts(reg, cfg, t);
  }

  lemma FirstInstanceText()
    ensures WordLineParts("inst : dummy2", "inst", " : dummy2", "") && Uncapitalized("inst")
  {
  }

  lemma FirstInstanceParts(reg: Registry, cfg: Config, t: string)
    requires LowercaseModes(cfg) && t == "inst : dummy2"
    ensures Row(reg, cfg, t, PlainShape("inst", ""), t)
  {
    FirstInstanceText();
    PlainWordLineRow(reg, cfg, t, "inst", " : dummy2", "");
  }

  /** An instance label. */
  lemma FirstInstanceRow(reg: Registry, cfg: Config, t: string)
    requires LowercaseModes(cfg) && t == "inst : dummy2"
    ensures Row(reg, cfg, t, Shape(false, 0), t)
  {
    FirstInstanceParts(reg, cfg, t);
  }

  lemma SecondInstanceText()
    ensures WordLineParts("inst : dummy3", "inst", " : dummy3", "") && Uncapitalized("inst")
  {
  }

  lemma SecondInstanceParts(reg: Registry, cfg: Config, t: string)
    requires LowercaseModes(cfg) && t == "inst : dummy3"
    ensures Row(reg, cfg, t, PlainShape("inst", ""), t)
  {
    SecondInstanceText();
    PlainWordLineRow(reg, cfg, t, "inst", " : dummy3", "");
  }

  /** An instance label. */
  lemma SecondInstanceRow(reg: Registry, cfg: Config, t: string)
    requires LowercaseModes(cfg) && t == "inst : dummy3"
    ensures Row(reg, cfg, t, Shape(false, 0), t)
  {
    SecondInstanceParts(reg, cfg, t);
  }

  lemma GenericMapText()
    ensures WordLineParts("generic map (", "generic", " map ", "(") && Uncapitalized("generic")
  {
  }

  lemma GenericMapParts(reg: Registry, cfg: Config, t: string)
    requires LowercaseModes(cfg) && t == "generic map ("
    ensures Row(reg, cfg, t, PlainShape("generic", "("), t)
  {
    GenericMapText();
    PlainWordLineRow(reg, cfg, t, "generic", " map ", "(");
  }

  /** A generic map opens a parenthesis. */
  lemma GenericMapRow(reg: Registry, cfg: Config, t: string)
    requires LowercaseModes(cfg) && t == "generic map ("
    ensures Row(reg, cfg, t, Shape(false, 1), t)
  {
    GenericMapParts(reg, cfg, t);
  }

  lemma SizeMapText()
    ensures PairLineParts("DATA_BYTES => DATA_BYTES", "DATA_BYTES", " => ", "")
  {
  }

  /** A generic association; the identifier keeps its capitals. */
  lemma SizeMapRow(reg: Registry, cfg: Config, t: string)
    requires LowercaseModes(cfg) && Ordinary(reg) && t == "DATA_BYTES => DATA_BYTES"
    ensures Row(reg, cfg, t, Shape(false, 0), t)
  {
    SizeMapText();
    UnregisteredWordUnchanged(reg, cfg, "DATA_BYTES");
    PairLineRow(reg, cfg, t, "DATA_BYTES", " => ", "");
  }

  lemma PortMapCloseText()
    ensures CloseLineParts(") port map (", " port map ", "(")
  {
  }

  /** ") port map (" closes the generic map and opens the port map: printed one level lower, depth kept. */
  lemma PortMapCloseRow(reg: Registry, cfg: Config, t: string)
    requires LowercaseModes(cfg) && t == ") port map ("
    ensures Row(reg, cfg, t, Shape(true, 0), t)
  {
    PortMapCloseText();
    CloseLineRow(reg, cfg, t, " port map ", "(");
  }

  lemma ClockMapText()
    ensures WordLineParts("clk     => clk,", "clk", "     => clk,", "") && Uncapitalized("clk")
  {
  }

  lemma ClockMapParts(reg: Registry, cfg: Config, t: string)
    requires LowercaseModes(cfg) && t == "clk     => clk,"
    ensures Row(reg, cfg, t, PlainShape("clk", ""), t)
  {
    ClockMapText();
    PlainWordLineRow(reg, cfg, t, "clk", "     => clk,", "");
  }

  /** A port association; the padding after the name stays. */
  lemma ClockMapRow(reg: Registry, cfg: Config, t: string)
    requires LowercaseModes(cfg) && t == "clk     => clk,"
    ensures Row(reg, cfg, t, Shape(false, 0), t)
  {
    ClockMapParts(reg, cfg, t);
  }

  lemma ResetMapText()
    ensures WordLineParts("reset_n => reset_n", "reset_n", " => reset_n", "") && Uncapitalized("reset_n")
  {
  }

  lemma ResetMapParts(reg: Registry, cfg: Config, t: string)
    requires LowercaseModes(cfg) && t == "reset_n => reset_n"
    ensures Row(reg, cfg, t, PlainShape("reset_n", ""), t)
  {
    ResetMapText();
    PlainWordLineRow(reg, cfg, t, "reset_n", " => reset_n", "");
  }

  /** A port association. */
  lemma ResetMapRow(reg: Registry, cfg: Config, t: string)
    requires LowercaseModes(cfg) && t == "reset_n => reset_n"
    ensures Row(reg, cfg, t, Shape(false, 0), t)
  {
    ResetMapParts(reg, cfg, t);
  }

  /** A blank before a closing ')' at the end of a tight, parenthesis-free
      text is dropped. */
  lemma TightenSpacedClose(a: string)
    requires a != [] && !IsBlank(a[|a| - 1]) && ')' !in a
    ensures Tighten(a + " )") == a + ")"
  {
    NoCloseIsTight(a);
    TightenAppend(a, " )");
    assert Tighten(" )") == ")";
  }

  lemma SpacedSizeMapTight(t: string, u: string)
    requires t == "DATA_BYTES => DATA_BYTES )" && u == "DATA_BYTES => DATA_BYTES)"
    ensures t != [] && !IsBlank(t[0]) && Tighten(t) == u
  {
    var a := "DATA_BYTES => DATA_BYTES";
    assert t == a + " )" && u == a + ")" && a[|a| - 1] == 'S';
    TightenSpacedClose(a);
  }

  lemma SpacedSizeMapLine(t: string)
    requires t == "DATA_BYTES => DATA_BYTES )"
    ensures '\n' !in t
  {
    assert forall i :: 0 <= i < |t| ==> t[i] != '\n';
  }

  lemma ClosedSizeMapText()
    ensures PairLineParts("DATA_BYTES => DATA_BYTES)", "DATA_BYTES", " => ", ")")
  {
  }

  lemma ClosedSizeMapRow(reg: Registry, cfg: Config, u: string)
    requires LowercaseModes(cfg) && Ordinary(reg) && u == "DATA_BYTES => DATA_BYTES)"
    ensures Row(reg, cfg, u, Shape(false, -1), u)
  {
    ClosedSizeMapText();
    UnregisteredWordUnchanged(reg, cfg, "DATA_BYTES");
    PairLineRow(reg, cfg, u, "DATA_BYTES", " => ", ")");
  }

  /** A generic association that closes the map on its own line: the blank
      before ')' is dropped, and the line is not printed lower, since it
      does not start with ')'. */
  lemma SpacedSizeMapRow(reg: Registry, cfg: Config, t: string)
    requires LowercaseModes(cfg) && Ordinary(reg) && t == "DATA_BYTES => DATA_BYTES )"
    ensures Row(reg, cfg, t, Shape(false, -1), "DATA_BYTES => DATA_BYTES)")
  {
    var u := "DATA_BYTES => DATA_BYTES)";
    SpacedSizeMapTight(t, u);
    SpacedSizeMapLine(t);
    ClosedSizeMapRow(reg, cfg, u);
    TightenedRow(reg, cfg, t, u, Shape(false, -1));
  }

  lemma PortMapText()
    ensures WordLineParts("port map (", "port", " map ", "(") && Uncapitalized("port")
  {
  }

  lemma PortMapParts(reg: Registry, cfg: Config, t: string)
    requires LowercaseModes(cfg) && t == "port map ("
    ensures Row(reg, cfg, t, PlainShape("port", "("), t)
  {
    PortMapText();
    PlainWordLineRow(reg, cfg, t, "port", " map ", "(");
  }

  /** A port map opens a parenthesis. */
  lemma PortMapRow(reg: Registry, cfg: Config, t: string)
    requires LowercaseModes(cfg) && t == "port map ("
    ensures Row(reg, cfg, t, Shape(false, 1), t)
  {
    PortMapParts(reg, cfg, t);
  }

  lemma AssignText()
    ensures WordLineParts("s4 <= s1 or s2 or s3;", "s4", " <= s1 or s2 or s3;", "") && Uncapitalized("s4")
  {
  }

  lemma AssignParts(reg: Registry, cfg: Config, t: string)
    requires LowercaseModes(cfg) && t == "s4 <= s1 or s2 or s3;"
    ensures Row(reg, cfg, t, PlainShape("s4", ""), t)
  {
    AssignText();
    PlainWordLineRow(reg, cfg, t, "s4", " <= s1 or s2 or s3;", "");
  }

  /** A concurrent assignment. */
  lemma AssignRow(reg: Registry, cfg: Config, t: string)
    requires LowercaseModes(cfg) && t == "s4 <= s1 or s2 or s3;"
    ensures Row(reg, cfg, t, Shape(false, 0), t)
  {
    AssignParts(reg, cfg, t);
  }

  lemma EndArchitectureText()
    ensures WordLineParts("end architecture;", "end", " architecture;", "") && Uncapitalized("end")
  {
  }

  lemma EndArchitectureParts(reg: Registry, cfg: Config, t: string)
    requires LowercaseModes(cfg) && t == "end architecture;"
    ensures Row(reg, cfg, t, PlainShape("end", ""), t)
  {
    EndArchitectureText();
    PlainWordLineRow(reg, cfg, t, "end", " architecture;", "");
  }

  /** "end architecture;" closes the architecture and is printed one level lower. */
  lemma EndArchitectureRow(reg: Registry, cfg: Config, t: string)
    requires LowercaseModes(cfg) && t == "end architecture;"
    ensures Row(reg, cfg, t, Shape(true, -1), t)
  {
    EndArchitectureParts(reg, cfg, t);
  }

  /** The empty line after the final line break. */
  lemma EmptyRow(reg: Registry, cfg: Config, t: string)
    requires t == ""
    ensures Row(reg, cfg, t, Shape(false, 0), t)
  {
    assert Tighten(TrimLeft(t)) == [];
  }
}
