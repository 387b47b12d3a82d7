/** The two indentation fixtures of the formatter's test suite, "indentation
    is 2" and "indentation is 4", proved end to end: formatting the input
    text yields exactly the expected text, and the depth scan ends at zero
    without going below it. The first input also holds a generic map closed
    by " )" at the end of its association, which the pass tightens to ")". */
module Golden {
  import opened Keywords
  import opened Options
  import opened Lines
  import opened Indentation
  import opened Formatter
  import opened Fixtures

  /** Placing `bodies` with shapes `sh` from depth `d` gives `out`, never
      closes below zero, and ends at depth `e`. */
  predicate FitsShapes(unit: string, sh: seq<Shape>, bodies: seq<string>, d: nat, out: seq<string>, e: nat)
    decreases |sh|
  {
    if sh == [] then bodies == [] && out == [] && d == e
    else
      && bodies != [] && out != [] && d + sh[0].delta >= 0
      && out[0] == Emit(unit, PrintDepth(d, sh[0]), bodies[0])
      && FitsShapes(unit, sh[1..], bodies[1..], d + sh[0].delta, out[1..], e)
  }

  /** Laying out `lines` from depth zero gives `out` and ends at depth zero. */
  ghost predicate Laid(reg: Registry, cfg: Config, lines: seq<string>, out: seq<string>) {
    NoNewline(lines) && FitsShapes(cfg.indentation, Shapes(lines), Bodies(reg, cfg, lines), 0, out, 0)
  }

  lemma {:induction false} FitsShapesLength(unit: string, sh: seq<Shape>, bodies: seq<string>, d: nat, out: seq<string>,
                                            e: nat)
    requires FitsShapes(unit, sh, bodies, d, out, e)
    ensures |bodies| == |sh| && |out| == |sh|
    decreases |sh|
  {
    if sh != [] {
      FitsShapesLength(unit, sh[1..], bodies[1..], d + sh[0].delta, out[1..], e);
    }
  }

  /** After the first k lines of a layout that fits from depth zero, the
      pass has not underflowed and the rest fits from the depth it
      reached. */
  lemma {:induction false} FitsShapesSuffix(unit: string, sh: seq<Shape>, bodies: seq<string>, out: seq<string>, k: nat)
    requires FitsShapes(unit, sh, bodies, 0, out, 0) && k <= |sh|
    ensures |bodies| == |sh| && |out| == |sh|
    ensures var sc := ScanShapes(sh, k);
      !sc.underflow && FitsShapes(unit, sh[k..], bodies[k..], sc.depth, out[k..], 0)
  {
    FitsShapesLength(unit, sh, bodies, 0, out, 0);
    if k == 0 {
      assert sh[0..] == sh && bodies[0..] == bodies && out[0..] == out;
    } else {
      FitsShapesSuffix(unit, sh, bodies, out, k - 1);
      var sc := ScanShapes(sh, k - 1);
      var e := sc.depth + sh[k - 1].delta;
      assert sh[k - 1..][1..] == sh[k..];
      assert bodies[k - 1..][1..] == bodies[k..];
      assert out[k - 1..][1..] == out[k..];
      assert ScanShapes(sh, k) == Scan(e, false);
    }
  }

  /** A line without a line break in front of such lines. */
  lemma NoNewlineCons(line: string, rest: seq<string>)
    requires '\n' !in line && NoNewline(rest)
    ensures NoNewline([line] + rest)
  {
    var all := [line] + rest;
    forall i | 0 <= i < |all| ensures '\n' !in all[i] {
      if i > 0 {
        assert all[i] == rest[i - 1];
      }
    }
  }

  /** Each line has the shape and the body listed beside it. */
  ghost predicate Rows(reg: Registry, cfg: Config, ls: seq<string>, sh: seq<Shape>, bs: seq<string>)
    decreases |ls|
  {
    if ls == [] then sh == [] && bs == []
    else sh != [] && bs != [] && Row(reg, cfg, ls[0], sh[0], bs[0]) && Rows(reg, cfg, ls[1..], sh[1..], bs[1..])
  }

  /** One more line with a known shape and body in front of rows. */
  lemma RowsCons(reg: Registry, cfg: Config, t: string, s: Shape, b: string,
                 ls: seq<string>, sh: seq<Shape>, bs: seq<string>)
    requires Row(reg, cfg, t, s, b) && Rows(reg, cfg, ls, sh, bs)
    ensures Rows(reg, cfg, [t] + ls, [s] + sh, [b] + bs)
  {
    assert ([t] + ls)[1..] == ls && ([s] + sh)[1..] == sh && ([b] + bs)[1..] == bs;
  }

  /** One more placed body in front of a placement. */
  lemma FitsShapesCons(unit: string, s: Shape, b: string, d: nat, o: string,
                       sh: seq<Shape>, bodies: seq<string>, out: seq<string>, e: nat)
    requires d + s.delta >= 0 && o == Emit(unit, PrintDepth(d, s), b)
    requires FitsShapes(unit, sh, bodies, d + s.delta, out, e)
    ensures FitsShapes(unit, [s] + sh, [b] + bodies, d, [o] + out, e)
  {
    assert ([s] + sh)[1..] == sh;
    assert ([b] + bodies)[1..] == bodies;
    assert ([o] + out)[1..] == out;
  }

  /** Two placements, the second starting at the depth where the first
      ends, make one placement. */
  lemma {:induction false} FitsShapesConcat(unit: string, sa: seq<Shape>, ba: seq<string>, d: nat, oa: seq<string>, e: nat,
                                            sb: seq<Shape>, bb: seq<string>, ob: seq<string>, f: nat)
    requires FitsShapes(unit, sa, ba, d, oa, e) && FitsShapes(unit, sb, bb, e, ob, f)
    ensures FitsShapes(unit, sa + sb, ba + bb, d, oa + ob, f)
    decreases |sa|
  {
    if sa == [] {
      assert sa + sb == sb && ba + bb == bb && oa + ob == ob;
    } else {
      FitsShapesConcat(unit, sa[1..], ba[1..], d + sa[0].delta, oa[1..], e, sb, bb, ob, f);
      FirstOfAppend(sa, sb);
      FirstOfAppend(ba, bb);
      FirstOfAppend(oa, ob);
    }
  }

  /** Rows of two blocks of lines make the rows of the whole. */
  lemma {:induction false} RowsConcat(reg: Registry, cfg: Config, la: seq<string>, sa: seq<Shape>, ba: seq<string>,
                                      lb: seq<string>, sb: seq<Shape>, bb: seq<string>)
    requires Rows(reg, cfg, la, sa, ba) && Rows(reg, cfg, lb, sb, bb)
    ensures Rows(reg, cfg, la + lb, sa + sb, ba + bb)
    decreases |la|
  {
    if la == [] {
      assert la + lb == lb && sa + sb == sb && ba + bb == bb;
    } else {
      RowsConcat(reg, cfg, la[1..], sa[1..], ba[1..], lb, sb, bb);
      FirstOfAppend(la, lb);
      FirstOfAppend(sa, sb);
      FirstOfAppend(ba, bb);
    }
  }

  /** Lines with listed shapes and bodies have those shapes and bodies, and
      no line break. */
  lemma {:induction false} RowsGive(reg: Registry, cfg: Config, ls: seq<string>, sh: seq<Shape>, bs: seq<string>)
    requires Rows(reg, cfg, ls, sh, bs)
    ensures Shapes(ls) == sh && Bodies(reg, cfg, ls) == bs && NoNewline(ls)
    decreases |ls|
  {
    if ls != [] {
      RowsGive(reg, cfg, ls[1..], sh[1..], bs[1..]);
      NoNewlineCons(ls[0], ls[1..]);
      assert ls == [ls[0]] + ls[1..];
    }
  }

  /** A text whose lines are laid out as `out` from depth zero formats
      successfully into the lines of `out`. */
  lemma FormattedLaid(reg: Registry, cfg: Config, lines: seq<string>, out: seq<string>)
    requires |lines| >= 1 && Laid(reg, cfg, lines, out)
    ensures Formatted(reg, cfg, Join(lines)) == FormattingResult(true, Join(out))
  {
    var sh, bs := Shapes(lines), Bodies(reg, cfg, lines);
    FitsShapesLength(cfg.indentation, sh, bs, 0, out, 0);
    forall i | 0 <= i < |lines| ensures Layout(reg, cfg, lines)[i] == out[i] {
      FitsShapesSuffix(cfg.indentation, sh, bs, out, i);
      assert sh[i..][0] == sh[i] && bs[i..][0] == bs[i] && out[i..][0] == out[i];
    }
    SplitJoin(lines);
    assert Layout(reg, cfg, lines) == out;
    FitsShapesSuffix(cfg.indentation, sh, bs, out, |lines|);
    assert sh[|lines|..] == [];
  }

  /** Lines with listed shapes and bodies whose placement from depth zero
      gives `out` and comes back to depth zero format successfully into the
      lines of `out`. */
  lemma FormattedRows(reg: Registry, cfg: Config, lines: seq<string>, sh: seq<Shape>, bs: seq<string>, out: seq<string>)
    requires |lines| >= 1 && Rows(reg, cfg, lines, sh, bs)
    requires FitsShapes(cfg.indentation, sh, bs, 0, out, 0)
    ensures Formatted(reg, cfg, Join(lines)) == FormattingResult(true, Join(out))
  {
    RowsGive(reg, cfg, lines, sh, bs);
    FormattedLaid(reg, cfg, lines, out);
  }

  /** The case modes and registries under which every word of the fixtures
      keeps its spelling. */
  predicate Plain(reg: Registry, cfg: Config) {
    LowercaseModes(cfg) && Ordinary(reg)
  }

  /* One lemma per fixture line: under Plain modes the line, with the shape
     and the body the pass reads off it, can be put in front of rows. */

  lemma EntityCons(reg: Registry, cfg: Config, ls: seq<string>, sh: seq<Shape>, bs: seq<string>)
    requires Plain(reg, cfg) && Rows(reg, cfg, ls, sh, bs)
    ensures Rows(reg, cfg, ["entity dummy is"] + ls, [Shape(false, 1)] + sh, ["entity dummy is"] + bs)
  {
    var t := "entity dummy is";
    EntityRow(reg, cfg, t);
    RowsCons(reg, cfg, t, Shape(false, 1), t, ls, sh, bs);
  }

  lemma GenericCons(reg: Registry, cfg: Config, ls: seq<string>, sh: seq<Shape>, bs: seq<string>)
    requires Plain(reg, cfg) && Rows(reg, cfg, ls, sh, bs)
    ensures Rows(reg, cfg, ["generic ("] + ls, [Shape(false, 1)] + sh, ["generic ("] + bs)
  {
    var t := "generic (";
    GenericRow(reg, cfg, t);
    RowsCons(reg, cfg, t, Shape(false, 1), t, ls, sh, bs);
  }

  lemma GenericSizeCons(reg: Registry, cfg: Config, ls: seq<string>, sh: seq<Shape>, bs: seq<string>)
    requires Plain(reg, cfg) && Rows(reg, cfg, ls, sh, bs)
    ensures Rows(reg, cfg, ["DATA_BYTES : integer := 8);"] + ls, [Shape(false, -1)] + sh, ["DATA_BYTES : integer := 8);"] + bs)
  {
    var t := "DATA_BYTES : integer := 8);";
    GenericSizeRow(reg, cfg, t);
    RowsCons(reg, cfg, t, Shape(false, -1), t, ls, sh, bs);
  }

  lemma PortCons(reg: Registry, cfg: Config, ls: seq<string>, sh: seq<Shape>, bs: seq<string>)
    requires Plain(reg, cfg) && Rows(reg, cfg, ls, sh, bs)
    ensures Rows(reg, cfg, ["port ("] + ls, [Shape(false, 1)] + sh, ["port ("] + bs)
  {
    var t := "port (";
    PortRow(reg, cfg, t);
    RowsCons(reg, cfg, t, Shape(false, 1), t, ls, sh, bs);
  }

  lemma ClockPortCons(reg: Registry, cfg: Config, ls: seq<string>, sh: seq<Shape>, bs: seq<string>)
    requires Plain(reg, cfg) && Rows(reg, cfg, ls, sh, bs)
    ensures Rows(reg, cfg, ["clk     : in std_ulogic;"] + ls, [Shape(false, 0)] + sh, ["clk     : in std_ulogic;"] + bs)
  {
    var t := "clk     : in std_ulogic;";
    ClockPortRow(reg, cfg, t);
    RowsCons(reg, cfg, t, Shape(false, 0), t, ls, sh, bs);
  }

  lemma ResetPortCons(reg: Registry, cfg: Config, ls: seq<string>, sh: seq<Shape>, bs: seq<string>)
    requires Plain(reg, cfg) && Rows(reg, cfg, ls, sh, bs)
    ensures Rows(reg, cfg, ["reset_n : in std_ulogic;"] + ls, [Shape(false, 0)] + sh, ["reset_n : in std_ulogic;"] + bs)
  {
    var t := "reset_n : in std_ulogic;";
    ResetPortRow(reg, cfg, t);
    RowsCons(reg, cfg, t, Shape(false, 0), t, ls, sh, bs);
  }

  lemma CloseClauseCons(reg: Registry, cfg: Config, ls: seq<string>, sh: seq<Shape>, bs: seq<string>)
    requires Plain(reg, cfg) && Rows(reg, cfg, ls, sh, bs)
    ensures Rows(reg, cfg, [");"] + ls, [Shape(true, -1)] + sh, [");"] + bs)
  {
    var t := ");";
    CloseClauseRow(reg, cfg, t);
    RowsCons(reg, cfg, t, Shape(true, -1), t, ls, sh, bs);
  }

  lemma EndCons(reg: Registry, cfg: Config, ls: seq<string>, sh: seq<Shape>, bs: seq<string>)
    requires Plain(reg, cfg) && Rows(reg, cfg, ls, sh, bs)
    ensures Rows(reg, cfg, ["end;"] + ls, [Shape(true, -1)] + sh, ["end;"] + bs)
  {
    var t := "end;";
    EndRow(reg, cfg, t);
    RowsCons(reg, cfg, t, Shape(true, -1), t, ls, sh, bs);
  }

  lemma ArchitectureCons(reg: Registry, cfg: Config, ls: seq<string>, sh: seq<Shape>, bs: seq<string>)
    requires Plain(reg, cfg) && Rows(reg, cfg, ls, sh, bs)
    ensures Rows(reg, cfg, ["architecture rtl of dummy is"] + ls, [Shape(false, 1)] + sh, ["architecture rtl of dummy is"] + bs)
  {
    var t := "architecture rtl of dummy is";
    ArchitectureRow(reg, cfg, t);
    RowsCons(reg, cfg, t, Shape(false, 1), t, ls, sh, bs);
  }

  lemma SignalCons(reg: Registry, cfg: Config, ls: seq<string>, sh: seq<Shape>, bs: seq<string>)
    requires Plain(reg, cfg) && Rows(reg, cfg, ls, sh, bs)
    ensures Rows(reg, cfg, ["signal my_signal : std_logic;"] + ls, [Shape(false, 0)] + sh, ["signal my_signal : std_logic;"] + bs)
  {
    var t := "signal my_signal : std_logic;";
    SignalRow(reg, cfg, t);
    RowsCons(reg, cfg, t, Shape(false, 0), t, ls, sh, bs);
  }

  lemma BeginCons(reg: Registry, cfg: Config, ls: seq<string>, sh: seq<Shape>, bs: seq<string>)
    requires Plain(reg, cfg) && Rows(reg, cfg, ls, sh, bs)
    ensures Rows(reg, cfg, ["begin;"] + ls, [Shape(true, 0)] + sh, ["begin;"] + bs)
  {
    var t := "begin;";
    BeginRow(reg, cfg, t);
    RowsCons(reg, cfg, t, Shape(true, 0), t, ls, sh, bs);
  }

  lemma FirstInstanceCons(reg: Registry, cfg: Config, ls: seq<string>, sh: seq<Shape>, bs: seq<string>)
    requires Plain(reg, cfg) && Rows(reg, cfg, ls, sh, bs)
    ensures Rows(reg, cfg, ["inst : dummy2"] + ls, [Shape(false, 0)] + sh, ["inst : dummy2"] + bs)
  {
    var t := "inst : dummy2";
    FirstInstanceRow(reg, cfg, t);
    RowsCons(reg, cfg, t, Shape(false, 0), t, ls, sh, bs);
  }

  lemma GenericMapCons(reg: Registry, cfg: Config, ls: seq<string>, sh: seq<Shape>, bs: seq<string>)
    requires Plain(reg, cfg) && Rows(reg, cfg, ls, sh, bs)
    ensures Rows(reg, cfg, ["generic map ("] + ls, [Shape(false, 1)] + sh, ["generic map ("] + bs)
  {
    var t := "generic map (";
    GenericMapRow(reg, cfg, t);
    RowsCons(reg, cfg, t, Shape(false, 1), t, ls, sh, bs);
  }

  lemma SizeMapCons(reg: Registry, cfg: Config, ls: seq<string>, sh: seq<Shape>, bs: seq<string>)
    requires Plain(reg, cfg) && Rows(reg, cfg, ls, sh, bs)
    ensures Rows(reg, cfg, ["DATA_BYTES => DATA_BYTES"] + ls, [Shape(false, 0)] + sh, ["DATA_BYTES => DATA_BYTES"] + bs)
  {
    var t := "DATA_BYTES => DATA_BYTES";
    SizeMapRow(reg, cfg, t);
    RowsCons(reg, cfg, t, Shape(false, 0), t, ls, sh, bs);
  }

  lemma PortMapCloseCons(reg: Registry, cfg: Config, ls: seq<string>, sh: seq<Shape>, bs: seq<string>)
    requires Plain(reg, cfg) && Rows(reg, cfg, ls, sh, bs)
    ensures Rows(reg, cfg, [") port map ("] + ls, [Shape(true, 0)] + sh, [") port map ("] + bs)
  {
    var t := ") port map (";
    PortMapCloseRow(reg, cfg, t);
    RowsCons(reg, cfg, t, Shape(true, 0), t, ls, sh, bs);
  }

  lemma ClockMapCons(reg: Registry, cfg: Config, ls: seq<string>, sh: seq<Shape>, bs: seq<string>)
    requires Plain(reg, cfg) && Rows(reg, cfg, ls, sh, bs)
    ensures Rows(reg, cfg, ["clk     => clk,"] + ls, [Shape(false, 0)] + sh, ["clk     => clk,"] + bs)
  {
    var t := "clk     => clk,";
    ClockMapRow(reg, cfg, t);
    RowsCons(reg, cfg, t, Shape(false, 0), t, ls, sh, bs);
  }

  lemma ResetMapCons(reg: Registry, cfg: Config, ls: seq<string>, sh: seq<Shape>, bs: seq<string>)
    requires Plain(reg, cfg) && Rows(reg, cfg, ls, sh, bs)
    ensures Rows(reg, cfg, ["reset_n => reset_n"] + ls, [Shape(false, 0)] + sh, ["reset_n => reset_n"] + bs)
  {
    var t := "reset_n => reset_n";
    ResetMapRow(reg, cfg, t);
    RowsCons(reg, cfg, t, Shape(false, 0), t, ls, sh, bs);
  }

  lemma SecondInstanceCons(reg: Registry, cfg: Config, ls: seq<string>, sh: seq<Shape>, bs: seq<string>)
    requires Plain(reg, cfg) && Rows(reg, cfg, ls, sh, bs)
    ensures Rows(reg, cfg, ["inst : dummy3"] + ls, [Shape(false, 0)] + sh, ["inst : dummy3"] + bs)
  {
    var t := "inst : dummy3";
    SecondInstanceRow(reg, cfg, t);
    RowsCons(reg, cfg, t, Shape(false, 0), t, ls, sh, bs);
  }

  lemma SpacedSizeMapCons(reg: Registry, cfg: Config, ls: seq<string>, sh: seq<Shape>, bs: seq<string>)
    requires Plain(reg, cfg) && Rows(reg, cfg, ls, sh, bs)
    ensures Rows(reg, cfg, ["DATA_BYTES => DATA_BYTES )"] + ls, [Shape(false, -1)] + sh, ["DATA_BYTES => DATA_BYTES)"] + bs)
  {
    var t := "DATA_BYTES => DATA_BYTES )";
    SpacedSizeMapRow(reg, cfg, t);
    RowsCons(reg, cfg, t, Shape(false, -1), "DATA_BYTES => DATA_BYTES)", ls, sh, bs);
  }

  lemma PortMapCons(reg: Registry, cfg: Config, ls: seq<string>, sh: seq<Shape>, bs: seq<string>)
    requires Plain(reg, cfg) && Rows(reg, cfg, ls, sh, bs)
    ensures Rows(reg, cfg, ["port map ("] + ls, [Shape(false, 1)] + sh, ["port map ("] + bs)
  {
    var t := "port map (";
    PortMapRow(reg, cfg, t);
    RowsCons(reg, cfg, t, Shape(false, 1), t, ls, sh, bs);
  }

  lemma AssignCons(reg: Registry, cfg: Config, ls: seq<string>, sh: seq<Shape>, bs: seq<string>)
    requires Plain(reg, cfg) && Rows(reg, cfg, ls, sh, bs)
    ensures Rows(reg, cfg, ["s4 <= s1 or s2 or s3;"] + ls, [Shape(false, 0)] + sh, ["s4 <= s1 or s2 or s3;"] + bs)
  {
    var t := "s4 <= s1 or s2 or s3;";
    AssignRow(reg, cfg, t);
    RowsCons(reg, cfg, t, Shape(false, 0), t, ls, sh, bs);
  }

  lemma EndArchitectureCons(reg: Registry, cfg: Config, ls: seq<string>, sh: seq<Shape>, bs: seq<string>)
    requires Plain(reg, cfg) && Rows(reg, cfg, ls, sh, bs)
    ensures Rows(reg, cfg, ["end architecture;"] + ls, [Shape(true, -1)] + sh, ["end architecture;"] + bs)
  {
    var t := "end architecture;";
    EndArchitectureRow(reg, cfg, t);
    RowsCons(reg, cfg, t, Shape(true, -1), t, ls, sh, bs);
  }

  lemma EmptyCons(reg: Registry, cfg: Config, ls: seq<string>, sh: seq<Shape>, bs: seq<string>)
    requires Plain(reg, cfg) && Rows(reg, cfg, ls, sh, bs)
    ensures Rows(reg, cfg, [""] + ls, [Shape(false, 0)] + sh, [""] + bs)
  {
    var t := "";
    EmptyRow(reg, cfg, t);
    RowsCons(reg, cfg, t, Shape(false, 0), t, ls, sh, bs);
  }

  /** The lines of the entity declaration. */
  const EntityLines: seq<string> := [
    "entity dummy is",
    "generic (",
    "DATA_BYTES : integer := 8);",
    "port (",
    "clk     : in std_ulogic;",
    "reset_n : in std_ulogic;",
    ");",
    "end;"
  ]

  const EntityShapes: seq<Shape> := [
    Shape(false, 1),
    Shape(false, 1),
    Shape(false, -1),
    Shape(false, 1),
    Shape(false, 0),
    Shape(false, 0),
    Shape(true, -1),
    Shape(true, -1)
  ]

  const EntityBodies: seq<string> := [
    "entity dummy is",
    "generic (",
    "DATA_BYTES : integer := 8);",
    "port (",
    "clk     : in std_ulogic;",
    "reset_n : in std_ulogic;",
    ");",
    "end;"
  ]

  /** The lists of the entity declaration, one element at a time. */
  lemma EntityNested()
    ensures EntityLines == ["entity dummy is"] + (["generic ("] + (["DATA_BYTES : integer := 8);"] + (["port ("] + (["clk     : in std_ulogic;"] + (["reset_n : in std_ulogic;"] + ([");"] + (["end;"] + [])))))))
    ensures EntityShapes == [Shape(false, 1)] + ([Shape(false, 1)] + ([Shape(false, -1)] + ([Shape(false, 1)] + ([Shape(false, 0)] + ([Shape(false, 0)] + ([Shape(true, -1)] + ([Shape(true, -1)] + [])))))))
    ensures EntityBodies == ["entity dummy is"] + (["generic ("] + (["DATA_BYTES : integer := 8);"] + (["port ("] + (["clk     : in std_ulogic;"] + (["reset_n : in std_ulogic;"] + ([");"] + (["end;"] + [])))))))
  {
  }

  /** Each line of the entity declaration has the shape and the body listed for it. */
  lemma EntityRows(reg: Registry, cfg: Config)
    requires Plain(reg, cfg)
    ensures Rows(reg, cfg, EntityLines, EntityShapes, EntityBodies)
  {
    assert Rows(reg, cfg, [], [], []);
    EndCons(reg, cfg, [], [], []);
    CloseClauseCons(reg, cfg, ["end;"] + [], [Shape(true, -1)] + [], ["end;"] + []);
    ResetPortCons(reg, cfg, [");"] + (["end;"] + []), [Shape(true, -1)] + ([Shape(true, -1)] + []), [");"] + (["end;"] + []));
    ClockPortCons(reg, cfg, ["reset_n : in std_ulogic;"] + ([");"] + (["end;"] + [])), [Shape(false, 0)] + ([Shape(true, -1)] + ([Shape(true, -1)] + [])), ["reset_n : in std_ulogic;"] + ([");"] + (["end;"] + [])));
    PortCons(reg, cfg, ["clk     : in std_ulogic;"] + (["reset_n : in std_ulogic;"] + ([");"] + (["end;"] + []))), [Shape(false, 0)] + ([Shape(false, 0)] + ([Shape(true, -1)] + ([Shape(true, -1)] + []))), ["clk     : in std_ulogic;"] + (["reset_n : in std_ulogic;"] + ([");"] + (["end;"] + []))));
    GenericSizeCons(reg, cfg, ["port ("] + (["clk     : in std_ulogic;"] + (["reset_n : in std_ulogic;"] + ([");"] + (["end;"] + [])))), [Shape(false, 1)] + ([Shape(false, 0)] + ([Shape(false, 0)] + ([Shape(true, -1)] + ([Shape(true, -1)] + [])))), ["port ("] + (["clk     : in std_ulogic;"] + (["reset_n : in std_ulogic;"] + ([");"] + (["end;"] + [])))));
    GenericCons(reg, cfg, ["DATA_BYTES : integer := 8);"] + (["port ("] + (["clk     : in std_ulogic;"] + (["reset_n : in std_ulogic;"] + ([");"] + (["end;"] + []))))), [Shape(false, -1)] + ([Shape(false, 1)] + ([Shape(false, 0)] + ([Shape(false, 0)] + ([Shape(true, -1)] + ([Shape(true, -1)] + []))))), ["DATA_BYTES : integer := 8);"] + (["port ("] + (["clk     : in std_ulogic;"] + (["reset_n : in std_ulogic;"] + ([");"] + (["end;"] + []))))));
    EntityCons(reg, cfg, ["generic ("] + (["DATA_BYTES : integer := 8);"] + (["port ("] + (["clk     : in std_ulogic;"] + (["reset_n : in std_ulogic;"] + ([");"] + (["end;"] + [])))))), [Shape(false, 1)] + ([Shape(false, -1)] + ([Shape(false, 1)] + ([Shape(false, 0)] + ([Shape(false, 0)] + ([Shape(true, -1)] + ([Shape(true, -1)] + [])))))), ["generic ("] + (["DATA_BYTES : integer := 8);"] + (["port ("] + (["clk     : in std_ulogic;"] + (["reset_n : in std_ulogic;"] + ([");"] + (["end;"] + [])))))));
    EntityNested();
  }

  /** The lines of the architecture header. */
  const ArchitectureLines: seq<string> := [
    "architecture rtl of dummy is",
    "signal my_signal : std_logic;",
    "begin;"
  ]

  const ArchitectureShapes: seq<Shape> := [
    Shape(false, 1),
    Shape(false, 0),
    Shape(true, 0)
  ]

  const ArchitectureBodies: seq<string> := [
    "architecture rtl of dummy is",
    "signal my_signal : std_logic;",
    "begin;"
  ]

  /** The lists of the architecture header, one element at a time. */
  lemma ArchitectureNested()
    ensures ArchitectureLines == ["architecture rtl of dummy is"] + (["signal my_signal : std_logic;"] + (["begin;"] + []))
    ensures ArchitectureShapes == [Shape(false, 1)] + ([Shape(false, 0)] + ([Shape(true, 0)] + []))
    ensures ArchitectureBodies == ["architecture rtl of dummy is"] + (["signal my_signal : std_logic;"] + (["begin;"] + []))
  {
  }

  /** Each line of the architecture header has the shape and the body listed for it. */
  lemma ArchitectureRows(reg: Registry, cfg: Config)
    requires Plain(reg, cfg)
    ensures Rows(reg, cfg, ArchitectureLines, ArchitectureShapes, ArchitectureBodies)
  {
    assert Rows(reg, cfg, [], [], []);
    BeginCons(reg, cfg, [], [], []);
    SignalCons(reg, cfg, ["begin;"] + [], [Shape(true, 0)] + [], ["begin;"] + []);
    ArchitectureCons(reg, cfg, ["signal my_signal : std_logic;"] + (["begin;"] + []), [Shape(false, 0)] + ([Shape(true, 0)] + []), ["signal my_signal : std_logic;"] + (["begin;"] + []));
    ArchitectureNested();
  }

  /** The lines of the first instance. */
  const FirstInstanceLines: seq<string> := [
    "inst : dummy2",
    "generic map (",
    "DATA_BYTES => DATA_BYTES",
    ") port map (",
    "clk     => clk,",
    "reset_n => reset_n",
    ");"
  ]

  const FirstInstanceShapes: seq<Shape> := [
    Shape(false, 0),
    Shape(false, 1),
    Shape(false, 0),
    Shape(true, 0),
    Shape(false, 0),
    Shape(false, 0),
    Shape(true, -1)
  ]

  const FirstInstanceBodies: seq<string> := [
    "inst : dummy2",
    "generic map (",
    "DATA_BYTES => DATA_BYTES",
    ") port map (",
    "clk     => clk,",
    "reset_n => reset_n",
    ");"
  ]

  /** The lists of the first instance, one element at a time. */
  lemma FirstInstanceNested()
    ensures FirstInstanceLines == ["inst : dummy2"] + (["generic map ("] + (["DATA_BYTES => DATA_BYTES"] + ([") port map ("] + (["clk     => clk,"] + (["reset_n => reset_n"] + ([");"] + []))))))
    ensures FirstInstanceShapes == [Shape(false, 0)] + ([Shape(false, 1)] + ([Shape(false, 0)] + ([Shape(true, 0)] + ([Shape(false, 0)] + ([Shape(false, 0)] + ([Shape(true, -1)] + []))))))
    ensures FirstInstanceBodies == ["inst : dummy2"] + (["generic map ("] + (["DATA_BYTES => DATA_BYTES"] + ([") port map ("] + (["clk     => clk,"] + (["reset_n => reset_n"] + ([");"] + []))))))
  {
  }

  /** Each line of the first instance has the shape and the body listed for it. */
  lemma FirstInstanceRows(reg: Registry, cfg: Config)
    requires Plain(reg, cfg)
    ensures Rows(reg, cfg, FirstInstanceLines, FirstInstanceShapes, FirstInstanceBodies)
  {
    assert Rows(reg, cfg, [], [], []);
    CloseClauseCons(reg, cfg, [], [], []);
    ResetMapCons(reg, cfg, [");"] + [], [Shape(true, -1)] + [], [");"] + []);
    ClockMapCons(reg, cfg, ["reset_n => reset_n"] + ([");"] + []), [Shape(false, 0)] + ([Shape(true, -1)] + []), ["reset_n => reset_n"] + ([");"] + []));
    PortMapCloseCons(reg, cfg, ["clk     => clk,"] + (["reset_n => reset_n"] + ([");"] + [])), [Shape(false, 0)] + ([Shape(false, 0)] + ([Shape(true, -1)] + [])), ["clk     => clk,"] + (["reset_n => reset_n"] + ([");"] + [])));
    SizeMapCons(reg, cfg, [") port map ("] + (["clk     => clk,"] + (["reset_n => reset_n"] + ([");"] + []))), [Shape(true, 0)] + ([Shape(false, 0)] + ([Shape(false, 0)] + ([Shape(true, -1)] + []))), [") port map ("] + (["clk     => clk,"] + (["reset_n => reset_n"] + ([");"] + []))));
    GenericMapCons(reg, cfg, ["DATA_BYTES => DATA_BYTES"] + ([") port map ("] + (["clk     => clk,"] + (["reset_n => reset_n"] + ([");"] + [])))), [Shape(false, 0)] + ([Shape(true, 0)] + ([Shape(false, 0)] + ([Shape(false, 0)] + ([Shape(true, -1)] + [])))), ["DATA_BYTES => DATA_BYTES"] + ([") port map ("] + (["clk     => clk,"] + (["reset_n => reset_n"] + ([");"] + [])))));
    FirstInstanceCons(reg, cfg, ["generic map ("] + (["DATA_BYTES => DATA_BYTES"] + ([") port map ("] + (["clk     => clk,"] + (["reset_n => reset_n"] + ([");"] + []))))), [Shape(false, 1)] + ([Shape(false, 0)] + ([Shape(true, 0)] + ([Shape(false, 0)] + ([Shape(false, 0)] + ([Shape(true, -1)] + []))))), ["generic map ("] + (["DATA_BYTES => DATA_BYTES"] + ([") port map ("] + (["clk     => clk,"] + (["reset_n => reset_n"] + ([");"] + []))))));
    FirstInstanceNested();
  }

  /** The lines of the second instance, whose generic map closes with " )". */
  const SecondInstanceLines: seq<string> := [
    "inst : dummy3",
    "generic map (",
    "DATA_BYTES => DATA_BYTES )",
    "port map (",
    "clk     => clk,",
    "reset_n => reset_n",
    ");"
  ]

  const SecondInstanceShapes: seq<Shape> := [
    Shape(false, 0),
    Shape(false, 1),
    Shape(false, -1),
    Shape(false, 1),
    Shape(false, 0),
    Shape(false, 0),
    Shape(true, -1)
  ]

  const SecondInstanceBodies: seq<string> := [
    "inst : dummy3",
    "generic map (",
    "DATA_BYTES => DATA_BYTES)",
    "port map (",
    "clk     => clk,",
    "reset_n => reset_n",
    ");"
  ]

  /** The lists of the second instance, whose generic map closes with " )", one element at a time. */
  lemma SecondInstanceNested()
    ensures SecondInstanceLines == ["inst : dummy3"] + (["generic map ("] + (["DATA_BYTES => DATA_BYTES )"] + (["port map ("] + (["clk     => clk,"] + (["reset_n => reset_n"] + ([");"] + []))))))
    ensures SecondInstanceShapes == [Shape(false, 0)] + ([Shape(false, 1)] + ([Shape(false, -1)] + ([Shape(false, 1)] + ([Shape(false, 0)] + ([Shape(false, 0)] + ([Shape(true, -1)] + []))))))
    ensures SecondInstanceBodies == ["inst : dummy3"] + (["generic map ("] + (["DATA_BYTES => DATA_BYTES)"] + (["port map ("] + (["clk     => clk,"] + (["reset_n => reset_n"] + ([");"] + []))))))
  {
  }

  /** Each line of the second instance, whose generic map closes with " )" has the shape and the body listed for it. */
  lemma SecondInstanceRows(reg: Registry, cfg: Config)
    requires Plain(reg, cfg)
    ensures Rows(reg, cfg, SecondInstanceLines, SecondInstanceShapes, SecondInstanceBodies)
  {
    assert Rows(reg, cfg, [], [], []);
    CloseClauseCons(reg, cfg, [], [], []);
    ResetMapCons(reg, cfg, [");"] + [], [Shape(true, -1)] + [], [");"] + []);
    ClockMapCons(reg, cfg, ["reset_n => reset_n"] + ([");"] + []), [Shape(false, 0)] + ([Shape(true, -1)] + []), ["reset_n => reset_n"] + ([");"] + []));
    PortMapCons(reg, cfg, ["clk     => clk,"] + (["reset_n => reset_n"] + ([");"] + [])), [Shape(false, 0)] + ([Shape(false, 0)] + ([Shape(true, -1)] + [])), ["clk     => clk,"] + (["reset_n => reset_n"] + ([");"] + [])));
    SpacedSizeMapCons(reg, cfg, ["port map ("] + (["clk     => clk,"] + (["reset_n => reset_n"] + ([");"] + []))), [Shape(false, 1)] + ([Shape(false, 0)] + ([Shape(false, 0)] + ([Shape(true, -1)] + []))), ["port map ("] + (["clk     => clk,"] + (["reset_n => reset_n"] + ([");"] + []))));
    GenericMapCons(reg, cfg, ["DATA_BYTES => DATA_BYTES )"] + (["port map ("] + (["clk     => clk,"] + (["reset_n => reset_n"] + ([");"] + [])))), [Shape(false, -1)] + ([Shape(false, 1)] + ([Shape(false, 0)] + ([Shape(false, 0)] + ([Shape(true, -1)] + [])))), ["DATA_BYTES => DATA_BYTES)"] + (["port map ("] + (["clk     => clk,"] + (["reset_n => reset_n"] + ([");"] + [])))));
    SecondInstanceCons(reg, cfg, ["generic map ("] + (["DATA_BYTES => DATA_BYTES )"] + (["port map ("] + (["clk     => clk,"] + (["reset_n => reset_n"] + ([");"] + []))))), [Shape(false, 1)] + ([Shape(false, -1)] + ([Shape(false, 1)] + ([Shape(false, 0)] + ([Shape(false, 0)] + ([Shape(true, -1)] + []))))), ["generic map ("] + (["DATA_BYTES => DATA_BYTES)"] + (["port map ("] + (["clk     => clk,"] + (["reset_n => reset_n"] + ([");"] + []))))));
    SecondInstanceNested();
  }

  /** The lines of the closing lines. */
  const ClosingLines: seq<string> := [
    "s4 <= s1 or s2 or s3;",
    "end architecture;",
    ""
  ]

  const ClosingShapes: seq<Shape> := [
    Shape(false, 0),
    Shape(true, -1),
    Shape(false, 0)
  ]

  const ClosingBodies: seq<string> := [
    "s4 <= s1 or s2 or s3;",
    "end architecture;",
    ""
  ]

  /** The lists of the closing lines, one element at a time. */
  lemma ClosingNested()
    ensures ClosingLines == ["s4 <= s1 or s2 or s3;"] + (["end architecture;"] + ([""] + []))
    ensures ClosingShapes == [Shape(false, 0)] + ([Shape(true, -1)] + ([Shape(false, 0)] + []))
    ensures ClosingBodies == ["s4 <= s1 or s2 or s3;"] + (["end architecture;"] + ([""] + []))
  {
  }

  /** Each line of the closing lines has the shape and the body listed for it. */
  lemma ClosingRows(reg: Registry, cfg: Config)
    requires Plain(reg, cfg)
    ensures Rows(reg, cfg, ClosingLines, ClosingShapes, ClosingBodies)
  {
    assert Rows(reg, cfg, [], [], []);
    EmptyCons(reg, cfg, [], [], []);
    EndArchitectureCons(reg, cfg, [""] + [], [Shape(false, 0)] + [], [""] + []);
    AssignCons(reg, cfg, ["end architecture;"] + ([""] + []), [Shape(true, -1)] + ([Shape(false, 0)] + []), ["end architecture;"] + ([""] + []));
    ClosingNested();
  }

  /** The entity declaration, each body after its indentation in units of `unit`. */
  function EntityOut(unit: string): seq<string> {
    [
      Emit(unit, 0, "entity dummy is"),
      Emit(unit, 1, "generic ("),
      Emit(unit, 2, "DATA_BYTES : integer := 8);"),
      Emit(unit, 1, "port ("),
      Emit(unit, 2, "clk     : in std_ulogic;"),
      Emit(unit, 2, "reset_n : in std_ulogic;"),
      Emit(unit, 1, ");"),
      Emit(unit, 0, "end;")
    ]
  }

  lemma EntityOutNested(unit: string)
    ensures EntityOut(unit) == [Emit(unit, 0, "entity dummy is")] + ([Emit(unit, 1, "generic (")] + ([Emit(unit, 2, "DATA_BYTES : integer := 8);")] + ([Emit(unit, 1, "port (")] + ([Emit(unit, 2, "clk     : in std_ulogic;")] + ([Emit(unit, 2, "reset_n : in std_ulogic;")] + ([Emit(unit, 1, ");")] + ([Emit(unit, 0, "end;")] + [])))))))
  {
  }

  /** The entity declaration, placed from depth 0, print at the listed depths and end at depth 0. */
  lemma EntityFits(unit: string)
    ensures FitsShapes(unit, EntityShapes, EntityBodies, 0, EntityOut(unit), 0)
  {
    assert FitsShapes(unit, [], [], 0, [], 0);
    FitsShapesCons(unit, Shape(true, -1), "end;", 1, Emit(unit, 0, "end;"), [], [], [], 0);
    FitsShapesCons(unit, Shape(true, -1), ");", 2, Emit(unit, 1, ");"), [Shape(true, -1)] + [], ["end;"] + [], [Emit(unit, 0, "end;")] + [], 0);
    FitsShapesCons(unit, Shape(false, 0), "reset_n : in std_ulogic;", 2, Emit(unit, 2, "reset_n : in std_ulogic;"), [Shape(true, -1)] + ([Shape(true, -1)] + []), [");"] + (["end;"] + []), [Emit(unit, 1, ");")] + ([Emit(unit, 0, "end;")] + []), 0);
    FitsShapesCons(unit, Shape(false, 0), "clk     : in std_ulogic;", 2, Emit(unit, 2, "clk     : in std_ulogic;"), [Shape(false, 0)] + ([Shape(true, -1)] + ([Shape(true, -1)] + [])), ["reset_n : in std_ulogic;"] + ([");"] + (["end;"] + [])), [Emit(unit, 2, "reset_n : in std_ulogic;")] + ([Emit(unit, 1, ");")] + ([Emit(unit, 0, "end;")] + [])), 0);
    FitsShapesCons(unit, Shape(false, 1), "port (", 1, Emit(unit, 1, "port ("), [Shape(false, 0)] + ([Shape(false, 0)] + ([Shape(true, -1)] + ([Shape(true, -1)] + []))), ["clk     : in std_ulogic;"] + (["reset_n : in std_ulogic;"] + ([");"] + (["end;"] + []))), [Emit(unit, 2, "clk     : in std_ulogic;")] + ([Emit(unit, 2, "reset_n : in std_ulogic;")] + ([Emit(unit, 1, ");")] + ([Emit(unit, 0, "end;")] + []))), 0);
    FitsShapesCons(unit, Shape(false, -1), "DATA_BYTES : integer := 8);", 2, Emit(unit, 2, "DATA_BYTES : integer := 8);"), [Shape(false, 1)] + ([Shape(false, 0)] + ([Shape(false, 0)] + ([Shape(true, -1)] + ([Shape(true, -1)] + [])))), ["port ("] + (["clk     : in std_ulogic;"] + (["reset_n : in std_ulogic;"] + ([");"] + (["end;"] + [])))), [Emit(unit, 1, "port (")] + ([Emit(unit, 2, "clk     : in std_ulogic;")] + ([Emit(unit, 2, "reset_n : in std_ulogic;")] + ([Emit(unit, 1, ");")] + ([Emit(unit, 0, "end;")] + [])))), 0);
    FitsShapesCons(unit, Shape(false, 1), "generic (", 1, Emit(unit, 1, "generic ("), [Shape(false, -1)] + ([Shape(false, 1)] + ([Shape(false, 0)] + ([Shape(false, 0)] + ([Shape(true, -1)] + ([Shape(true, -1)] + []))))), ["DATA_BYTES : integer := 8);"] + (["port ("] + (["clk     : in std_ulogic;"] + (["reset_n : in std_ulogic;"] + ([");"] + (["end;"] + []))))), [Emit(unit, 2, "DATA_BYTES : integer := 8);")] + ([Emit(unit, 1, "port (")] + ([Emit(unit, 2, "clk     : in std_ulogic;")] + ([Emit(unit, 2, "reset_n : in std_ulogic;")] + ([Emit(unit, 1, ");")] + ([Emit(unit, 0, "end;")] + []))))), 0);
    FitsShapesCons(unit, Shape(false, 1), "entity dummy is", 0, Emit(unit, 0, "entity dummy is"), [Shape(false, 1)] + ([Shape(false, -1)] + ([Shape(false, 1)] + ([Shape(false, 0)] + ([Shape(false, 0)] + ([Shape(true, -1)] + ([Shape(true, -1)] + [])))))), ["generic ("] + (["DATA_BYTES : integer := 8);"] + (["port ("] + (["clk     : in std_ulogic;"] + (["reset_n : in std_ulogic;"] + ([");"] + (["end;"] + [])))))), [Emit(unit, 1, "generic (")] + ([Emit(unit, 2, "DATA_BYTES : integer := 8);")] + ([Emit(unit, 1, "port (")] + ([Emit(unit, 2, "clk     : in std_ulogic;")] + ([Emit(unit, 2, "reset_n : in std_ulogic;")] + ([Emit(unit, 1, ");")] + ([Emit(unit, 0, "end;")] + [])))))), 0);
    EntityNested();
    EntityOutNested(unit);
  }

  /** The architecture header, each body after its indentation in units of `unit`. */
  function ArchitectureOut(unit: string): seq<string> {
    [
      Emit(unit, 0, "architecture rtl of dummy is"),
      Emit(unit, 1, "signal my_signal : std_logic;"),
      Emit(unit, 0, "begin;")
    ]
  }

  lemma ArchitectureOutNested(unit: string)
    ensures ArchitectureOut(unit) == [Emit(unit, 0, "architecture rtl of dummy is")] + ([Emit(unit, 1, "signal my_signal : std_logic;")] + ([Emit(unit, 0, "begin;")] + []))
  {
  }

  /** The architecture header, placed from depth 0, print at the listed depths and end at depth 1. */
  lemma ArchitectureFits(unit: string)
    ensures FitsShapes(unit, ArchitectureShapes, ArchitectureBodies, 0, ArchitectureOut(unit), 1)
  {
    assert FitsShapes(unit, [], [], 1, [], 1);
    FitsShapesCons(unit, Shape(true, 0), "begin;", 1, Emit(unit, 0, "begin;"), [], [], [], 1);
    FitsShapesCons(unit, Shape(false, 0), "signal my_signal : std_logic;", 1, Emit(unit, 1, "signal my_signal : std_logic;"), [Shape(true, 0)] + [], ["begin;"] + [], [Emit(unit, 0, "begin;")] + [], 1);
    FitsShapesCons(unit, Shape(false, 1), "architecture rtl of dummy is", 0, Emit(unit, 0, "architecture rtl of dummy is"), [Shape(false, 0)] + ([Shape(true, 0)] + []), ["signal my_signal : std_logic;"] + (["begin;"] + []), [Emit(unit, 1, "signal my_signal : std_logic;")] + ([Emit(unit, 0, "begin;")] + []), 1);
    ArchitectureNested();
    ArchitectureOutNested(unit);
  }

  /** The first instance, each body after its indentation in units of `unit`. */
  function FirstInstanceOut(unit: string): seq<string> {
    [
      Emit(unit, 1, "inst : dummy2"),
      Emit(unit, 1, "generic map ("),
      Emit(unit, 2, "DATA_BYTES => DATA_BYTES"),
      Emit(unit, 1, ") port map ("),
      Emit(unit, 2, "clk     => clk,"),
      Emit(unit, 2, "reset_n => reset_n"),
      Emit(unit, 1, ");")
    ]
  }

  lemma FirstInstanceOutNested(unit: string)
    ensures FirstInstanceOut(unit) == [Emit(unit, 1, "inst : dummy2")] + ([Emit(unit, 1, "generic map (")] + ([Emit(unit, 2, "DATA_BYTES => DATA_BYTES")] + ([Emit(unit, 1, ") port map (")] + ([Emit(unit, 2, "clk     => clk,")] + ([Emit(unit, 2, "reset_n => reset_n")] + ([Emit(unit, 1, ");")] + []))))))
  {
  }

  /** The first instance, placed from depth 1, print at the listed depths and end at depth 1. */
  lemma FirstInstanceFits(unit: string)
    ensures FitsShapes(unit, FirstInstanceShapes, FirstInstanceBodies, 1, FirstInstanceOut(unit), 1)
  {
    assert FitsShapes(unit, [], [], 1, [], 1);
    FitsShapesCons(unit, Shape(true, -1), ");", 2, Emit(unit, 1, ");"), [], [], [], 1);
    FitsShapesCons(unit, Shape(false, 0), "reset_n => reset_n", 2, Emit(unit, 2, "reset_n => reset_n"), [Shape(true, -1)] + [], [");"] + [], [Emit(unit, 1, ");")] + [], 1);
    FitsShapesCons(unit, Shape(false, 0), "clk     => clk,", 2, Emit(unit, 2, "clk     => clk,"), [Shape(false, 0)] + ([Shape(true, -1)] + []), ["reset_n => reset_n"] + ([");"] + []), [Emit(unit, 2, "reset_n => reset_n")] + ([Emit(unit, 1, ");")] + []), 1);
    FitsShapesCons(unit, Shape(true, 0), ") port map (", 2, Emit(unit, 1, ") port map ("), [Shape(false, 0)] + ([Shape(false, 0)] + ([Shape(true, -1)] + [])), ["clk     => clk,"] + (["reset_n => reset_n"] + ([");"] + [])), [Emit(unit, 2, "clk     => clk,")] + ([Emit(unit, 2, "reset_n => reset_n")] + ([Emit(unit, 1, ");")] + [])), 1);
    FitsShapesCons(unit, Shape(false, 0), "DATA_BYTES => DATA_BYTES", 2, Emit(unit, 2, "DATA_BYTES => DATA_BYTES"), [Shape(true, 0)] + ([Shape(false, 0)] + ([Shape(false, 0)] + ([Shape(true, -1)] + []))), [") port map ("] + (["clk     => clk,"] + (["reset_n => reset_n"] + ([");"] + []))), [Emit(unit, 1, ") port map (")] + ([Emit(unit, 2, "clk     => clk,")] + ([Emit(unit, 2, "reset_n => reset_n")] + ([Emit(unit, 1, ");")] + []))), 1);
    FitsShapesCons(unit, Shape(false, 1), "generic map (", 1, Emit(unit, 1, "generic map ("), [Shape(false, 0)] + ([Shape(true, 0)] + ([Shape(false, 0)] + ([Shape(false, 0)] + ([Shape(true, -1)] + [])))), ["DATA_BYTES => DATA_BYTES"] + ([") port map ("] + (["clk     => clk,"] + (["reset_n => reset_n"] + ([");"] + [])))), [Emit(unit, 2, "DATA_BYTES => DATA_BYTES")] + ([Emit(unit, 1, ") port map (")] + ([Emit(unit, 2, "clk     => clk,")] + ([Emit(unit, 2, "reset_n => reset_n")] + ([Emit(unit, 1, ");")] + [])))), 1);
    FitsShapesCons(unit, Shape(false, 0), "inst : dummy2", 1, Emit(unit, 1, "inst : dummy2"), [Shape(false, 1)] + ([Shape(false, 0)] + ([Shape(true, 0)] + ([Shape(false, 0)] + ([Shape(false, 0)] + ([Shape(true, -1)] + []))))), ["generic map ("] + (["DATA_BYTES => DATA_BYTES"] + ([") port map ("] + (["clk     => clk,"] + (["reset_n => reset_n"] + ([");"] + []))))), [Emit(unit, 1, "generic map (")] + ([Emit(unit, 2, "DATA_BYTES => DATA_BYTES")] + ([Emit(unit, 1, ") port map (")] + ([Emit(unit, 2, "clk     => clk,")] + ([Emit(unit, 2, "reset_n => reset_n")] + ([Emit(unit, 1, ");")] + []))))), 1);
    FirstInstanceNested();
    FirstInstanceOutNested(unit);
  }

  /** The second instance, whose generic map closes with " )", each body after its indentation in units of `unit`. */
  function SecondInstanceOut(unit: string): seq<string> {
    [
      Emit(unit, 1, "inst : dummy3"),
      Emit(unit, 1, "generic map ("),
      Emit(unit, 2, "DATA_BYTES => DATA_BYTES)"),
      Emit(unit, 1, "port map ("),
      Emit(unit, 2, "clk     => clk,"),
      Emit(unit, 2, "reset_n => reset_n"),
      Emit(unit, 1, ");")
    ]
  }

  lemma SecondInstanceOutNested(unit: string)
    ensures SecondInstanceOut(unit) == [Emit(unit, 1, "inst : dummy3")] + ([Emit(unit, 1, "generic map (")] + ([Emit(unit, 2, "DATA_BYTES => DATA_BYTES)")] + ([Emit(unit, 1, "port map (")] + ([Emit(unit, 2, "clk     => clk,")] + ([Emit(unit, 2, "reset_n => reset_n")] + ([Emit(unit, 1, ");")] + []))))))
  {
  }

  /** The second instance, whose generic map closes with " )", placed from depth 1, print at the listed depths and end at depth 1. */
  lemma SecondInstanceFits(unit: string)
    ensures FitsShapes(unit, SecondInstanceShapes, SecondInstanceBodies, 1, SecondInstanceOut(unit), 1)
  {
    assert FitsShapes(unit, [], [], 1, [], 1);
    FitsShapesCons(unit, Shape(true, -1), ");", 2, Emit(unit, 1, ");"), [], [], [], 1);
    FitsShapesCons(unit, Shape(false, 0), "reset_n => reset_n", 2, Emit(unit, 2, "reset_n => reset_n"), [Shape(true, -1)] + [], [");"] + [], [Emit(unit, 1, ");")] + [], 1);
    FitsShapesCons(unit, Shape(false, 0), "clk     => clk,", 2, Emit(unit, 2, "clk     => clk,"), [Shape(false, 0)] + ([Shape(true, -1)] + []), ["reset_n => reset_n"] + ([");"] + []), [Emit(unit, 2, "reset_n => reset_n")] + ([Emit(unit, 1, ");")] + []), 1);
    FitsShapesCons(unit, Shape(false, 1), "port map (", 1, Emit(unit, 1, "port map ("), [Shape(false, 0)] + ([Shape(false, 0)] + ([Shape(true, -1)] + [])), ["clk     => clk,"] + (["reset_n => reset_n"] + ([");"] + [])), [Emit(unit, 2, "clk     => clk,")] + ([Emit(unit, 2, "reset_n => reset_n")] + ([Emit(unit, 1, ");")] + [])), 1);
    FitsShapesCons(unit, Shape(false, -1), "DATA_BYTES => DATA_BYTES)", 2, Emit(unit, 2, "DATA_BYTES => DATA_BYTES)"), [Shape(false, 1)] + ([Shape(false, 0)] + ([Shape(false, 0)] + ([Shape(true, -1)] + []))), ["port map ("] + (["clk     => clk,"] + (["reset_n => reset_n"] + ([");"] + []))), [Emit(unit, 1, "port map (")] + ([Emit(unit, 2, "clk     => clk,")] + ([Emit(unit, 2, "reset_n => reset_n")] + ([Emit(unit, 1, ");")] + []))), 1);
    FitsShapesCons(unit, Shape(false, 1), "generic map (", 1, Emit(unit, 1, "generic map ("), [Shape(false, -1)] + ([Shape(false, 1)] + ([Shape(false, 0)] + ([Shape(false, 0)] + ([Shape(true, -1)] + [])))), ["DATA_BYTES => DATA_BYTES)"] + (["port map ("] + (["clk     => clk,"] + (["reset_n => reset_n"] + ([");"] + [])))), [Emit(unit, 2, "DATA_BYTES => DATA_BYTES)")] + ([Emit(unit, 1, "port map (")] + ([Emit(unit, 2, "clk     => clk,")] + ([Emit(unit, 2, "reset_n => reset_n")] + ([Emit(unit, 1, ");")] + [])))), 1);
    FitsShapesCons(unit, Shape(false, 0), "inst : dummy3", 1, Emit(unit, 1, "inst : dummy3"), [Shape(false, 1)] + ([Shape(false, -1)] + ([Shape(false, 1)] + ([Shape(false, 0)] + ([Shape(false, 0)] + ([Shape(true, -1)] + []))))), ["generic map ("] + (["DATA_BYTES => DATA_BYTES)"] + (["port map ("] + (["clk     => clk,"] + (["reset_n => reset_n"] + ([");"] + []))))), [Emit(unit, 1, "generic map (")] + ([Emit(unit, 2, "DATA_BYTES => DATA_BYTES)")] + ([Emit(unit, 1, "port map (")] + ([Emit(unit, 2, "clk     => clk,")] + ([Emit(unit, 2, "reset_n => reset_n")] + ([Emit(unit, 1, ");")] + []))))), 1);
    SecondInstanceNested();
    SecondInstanceOutNested(unit);
  }

  /** The closing lines, each body after its indentation in units of `unit`. */
  function ClosingOut(unit: string): seq<string> {
    [
      Emit(unit, 1, "s4 <= s1 or s2 or s3;"),
      Emit(unit, 0, "end architecture;"),
      Emit(unit, 0, "")
    ]
  }

  lemma ClosingOutNested(unit: string)
    ensures ClosingOut(unit) == [Emit(unit, 1, "s4 <= s1 or s2 or s3;")] + ([Emit(unit, 0, "end architecture;")] + ([Emit(unit, 0, "")] + []))
  {
  }

  /** The closing lines, placed from depth 1, print at the listed depths and end at depth 0. */
  lemma ClosingFits(unit: string)
    ensures FitsShapes(unit, ClosingShapes, ClosingBodies, 1, ClosingOut(unit), 0)
  {
    assert FitsShapes(unit, [], [], 0, [], 0);
    FitsShapesCons(unit, Shape(false, 0), "", 0, Emit(unit, 0, ""), [], [], [], 0);
    FitsShapesCons(unit, Shape(true, -1), "end architecture;", 1, Emit(unit, 0, "end architecture;"), [Shape(false, 0)] + [], [""] + [], [Emit(unit, 0, "")] + [], 0);
    FitsShapesCons(unit, Shape(false, 0), "s4 <= s1 or s2 or s3;", 1, Emit(unit, 1, "s4 <= s1 or s2 or s3;"), [Shape(true, -1)] + ([Shape(false, 0)] + []), ["end architecture;"] + ([""] + []), [Emit(unit, 0, "end architecture;")] + ([Emit(unit, 0, "")] + []), 0);
    ClosingNested();
    ClosingOutNested(unit);
  }

  /* The placed blocks written out for the unit of each fixture. They are
     stated once per unit, with the unit as a literal, so that the expected
     texts can be matched against them line by line without the solver
     having to take the unit apart. */

  lemma EntityTwoText()
    ensures EntityOut("  ") == [
        "entity dummy is",
        "  " + "generic (",
        "    " + "DATA_BYTES : integer := 8);",
        "  " + "port (",
        "    " + "clk     : in std_ulogic;",
        "    " + "reset_n : in std_ulogic;",
        "  " + ");",
        "end;"
      ]
  {
    assert Repeat("  ", 1) == "  ";
    assert Repeat("  ", 2) == "    ";
    assert Emit("  ", 0, "entity dummy is") == "entity dummy is";
    assert Emit("  ", 1, "generic (") == "  " + "generic (";
    assert Emit("  ", 2, "DATA_BYTES : integer := 8);") == "    " + "DATA_BYTES : integer := 8);";
    assert Emit("  ", 1, "port (") == "  " + "port (";
    assert Emit("  ", 2, "clk     : in std_ulogic;") == "    " + "clk     : in std_ulogic;";
    assert Emit("  ", 2, "reset_n : in std_ulogic;") == "    " + "reset_n : in std_ulogic;";
    assert Emit("  ", 1, ");") == "  " + ");";
    assert Emit("  ", 0, "end;") == "end;";
  }

  lemma ArchitectureTwoText()
    ensures ArchitectureOut("  ") == [
        "architecture rtl of dummy is",
        "  " + "signal my_signal : std_logic;",
        "begin;"
      ]
  {
    assert Repeat("  ", 1) == "  ";
    assert Emit("  ", 0, "architecture rtl of dummy is") == "architecture rtl of dummy is";
    assert Emit("  ", 1, "signal my_signal : std_logic;") == "  " + "signal my_signal : std_logic;";
    assert Emit("  ", 0, "begin;") == "begin;";
  }

  lemma FirstInstanceTwoText()
    ensures FirstInstanceOut("  ") == [
        "  " + "inst : dummy2",
        "  " + "generic map (",
        "    " + "DATA_BYTES => DATA_BYTES",
        "  " + ") port map (",
        "    " + "clk     => clk,",
        "    " + "reset_n => reset_n",
        "  " + ");"
      ]
  {
    assert Repeat("  ", 1) == "  ";
    assert Repeat("  ", 2) == "    ";
    assert Emit("  ", 1, "inst : dummy2") == "  " + "inst : dummy2";
    assert Emit("  ", 1, "generic map (") == "  " + "generic map (";
    assert Emit("  ", 2, "DATA_BYTES => DATA_BYTES") == "    " + "DATA_BYTES => DATA_BYTES";
    assert Emit("  ", 1, ") port map (") == "  " + ") port map (";
    assert Emit("  ", 2, "clk     => clk,") == "    " + "clk     => clk,";
    assert Emit("  ", 2, "reset_n => reset_n") == "    " + "reset_n => reset_n";
    assert Emit("  ", 1, ");") == "  " + ");";
  }

  lemma SecondInstanceTwoText()
    ensures SecondInstanceOut("  ") == [
        "  " + "inst : dummy3",
        "  " + "generic map (",
        "    " + "DATA_BYTES => DATA_BYTES)",
        "  " + "port map (",
        "    " + "clk     => clk,",
        "    " + "reset_n => reset_n",
        "  " + ");"
      ]
  {
    assert Repeat("  ", 1) == "  ";
    assert Repeat("  ", 2) == "    ";
    assert Emit("  ", 1, "inst : dummy3") == "  " + "inst : dummy3";
    assert Emit("  ", 1, "generic map (") == "  " + "generic map (";
    assert Emit("  ", 2, "DATA_BYTES => DATA_BYTES)") == "    " + "DATA_BYTES => DATA_BYTES)";
    assert Emit("  ", 1, "port map (") == "  " + "port map (";
    assert Emit("  ", 2, "clk     => clk,") == "    " + "clk     => clk,";
    assert Emit("  ", 2, "reset_n => reset_n") == "    " + "reset_n => reset_n";
    assert Emit("  ", 1, ");") == "  " + ");";
  }

  lemma ClosingTwoText()
    ensures ClosingOut("  ") == [
        "  " + "s4 <= s1 or s2 or s3;",
        "end architecture;",
        ""
      ]
  {
    assert Repeat("  ", 1) == "  ";
    assert Emit("  ", 1, "s4 <= s1 or s2 or s3;") == "  " + "s4 <= s1 or s2 or s3;";
    assert Emit("  ", 0, "end architecture;") == "end architecture;";
    assert Emit("  ", 0, "") == "";
  }

  /** EntityTwoText with the unit "    ". */
  lemma EntityFourText()
    ensures EntityOut("    ") == [
        "entity dummy is",
        "    " + "generic (",
        "        " + "DATA_BYTES : integer := 8);",
        "    " + "port (",
        "        " + "clk     : in std_ulogic;",
        "        " + "reset_n : in std_ulogic;",
        "    " + ");",
        "end;"
      ]
  {
    assert Repeat("    ", 1) == "    ";
    assert Repeat("    ", 2) == "        ";
    assert Emit("    ", 0, "entity dummy is") == "entity dummy is";
    assert Emit("    ", 1, "generic (") == "    " + "generic (";
    assert Emit("    ", 2, "DATA_BYTES : integer := 8);") == "        " + "DATA_BYTES : integer := 8);";
    assert Emit("    ", 1, "port (") == "    " + "port (";
    assert Emit("    ", 2, "clk     : in std_ulogic;") == "        " + "clk     : in std_ulogic;";
    assert Emit("    ", 2, "reset_n : in std_ulogic;") == "        " + "reset_n : in std_ulogic;";
    assert Emit("    ", 1, ");") == "    " + ");";
    assert Emit("    ", 0, "end;") == "end;";
  }

  /** ArchitectureTwoText with the unit "    ". */
  lemma ArchitectureFourText()
    ensures ArchitectureOut("    ") == [
        "architecture rtl of dummy is",
        "    " + "signal my_signal : std_logic;",
        "begin;"
      ]
  {
    assert Repeat("    ", 1) == "    ";
    assert Emit("    ", 0, "architecture rtl of dummy is") == "architecture rtl of dummy is";
    assert Emit("    ", 1, "signal my_signal : std_logic;") == "    " + "signal my_signal : std_logic;";
    assert Emit("    ", 0, "begin;") == "begin;";
  }

  /** FirstInstanceTwoText with the unit "    ". */
  lemma FirstInstanceFourText()
    ensures FirstInstanceOut("    ") == [
        "    " + "inst : dummy2",
        "    " + "generic map (",
        "        " + "DATA_BYTES => DATA_BYTES",
        "    " + ") port map (",
        "        " + "clk     => clk,",
        "        " + "reset_n => reset_n",
        "    " + ");"
      ]
  {
    assert Repeat("    ", 1) == "    ";
    assert Repeat("    ", 2) == "        ";
    assert Emit("    ", 1, "inst : dummy2") == "    " + "inst : dummy2";
    assert Emit("    ", 1, "generic map (") == "    " + "generic map (";
    assert Emit("    ", 2, "DATA_BYTES => DATA_BYTES") == "        " + "DATA_BYTES => DATA_BYTES";
    assert Emit("    ", 1, ") port map (") == "    " + ") port map (";
    assert Emit("    ", 2, "clk     => clk,") == "        " + "clk     => clk,";
    assert Emit("    ", 2, "reset_n => reset_n") == "        " + "reset_n => reset_n";
    assert Emit("    ", 1, ");") == "    " + ");";
  }

  /** ClosingTwoText with the unit "    ". */
  lemma ClosingFourText()
    ensures ClosingOut("    ") == [
        "    " + "s4 <= s1 or s2 or s3;",
        "end architecture;",
        ""
      ]
  {
    assert Repeat("    ", 1) == "    ";
    assert Emit("    ", 1, "s4 <= s1 or s2 or s3;") == "    " + "s4 <= s1 or s2 or s3;";
    assert Emit("    ", 0, "end architecture;") == "end architecture;";
    assert Emit("    ", 0, "") == "";
  }

  /** The lines of the input text of "indentation is 2". */
  const InputTwo: seq<string> := [
    "entity dummy is",
    "generic (",
    "DATA_BYTES : integer := 8);",
    "port (",
    "clk     : in std_ulogic;",
    "reset_n : in std_ulogic;",
    ");",
    "end;",
    "architecture rtl of dummy is",
    "signal my_signal : std_logic;",
    "begin;",
    "inst : dummy2",
    "generic map (",
    "DATA_BYTES => DATA_BYTES",
    ") port map (",
    "clk     => clk,",
    "reset_n => reset_n",
    ");",
    "inst : dummy3",
    "generic map (",
    "DATA_BYTES => DATA_BYTES )",
    "port map (",
    "clk     => clk,",
    "reset_n => reset_n",
    ");",
    "s4 <= s1 or s2 or s3;",
    "end architecture;",
    ""
  ]

  /** The lines of the text "indentation is 2" expects, each written as its
      indentation followed by its text. */
  const ExpectedTwo: seq<string> := [
    "entity dummy is",
    "  " + "generic (",
    "    " + "DATA_BYTES : integer := 8);",
    "  " + "port (",
    "    " + "clk     : in std_ulogic;",
    "    " + "reset_n : in std_ulogic;",
    "  " + ");",
    "end;",
    "architecture rtl of dummy is",
    "  " + "signal my_signal : std_logic;",
    "begin;",
    "  " + "inst : dummy2",
    "  " + "generic map (",
    "    " + "DATA_BYTES => DATA_BYTES",
    "  " + ") port map (",
    "    " + "clk     => clk,",
    "    " + "reset_n => reset_n",
    "  " + ");",
    "  " + "inst : dummy3",
    "  " + "generic map (",
    "    " + "DATA_BYTES => DATA_BYTES)",
    "  " + "port map (",
    "    " + "clk     => clk,",
    "    " + "reset_n => reset_n",
    "  " + ");",
    "  " + "s4 <= s1 or s2 or s3;",
    "end architecture;",
    ""
  ]

  /** The output of "indentation is 2" for any indentation unit. */
  function TwoOut(unit: string): seq<string> {
    EntityOut(unit) + ArchitectureOut(unit) + FirstInstanceOut(unit) + SecondInstanceOut(unit) + ClosingOut(unit)
  }

  lemma TwoBlocks()
    ensures InputTwo == EntityLines + ArchitectureLines + FirstInstanceLines + SecondInstanceLines + ClosingLines
  {
  }

  lemma TwoExpected()
    ensures TwoOut("  ") == ExpectedTwo
  {
    EntityTwoText();
    ArchitectureTwoText();
    FirstInstanceTwoText();
    SecondInstanceTwoText();
    ClosingTwoText();
  }

  /** The shapes and the bodies of the lines of "indentation is 2". */
  const TwoShapes: seq<Shape> := EntityShapes + ArchitectureShapes + FirstInstanceShapes + SecondInstanceShapes + ClosingShapes
  const TwoBodies: seq<string> := EntityBodies + ArchitectureBodies + FirstInstanceBodies + SecondInstanceBodies + ClosingBodies

  /** Each line of "indentation is 2" has the shape and the body listed for it. */
  lemma TwoRows(reg: Registry, cfg: Config)
    requires Plain(reg, cfg)
    ensures Rows(reg, cfg, InputTwo, TwoShapes, TwoBodies)
  {
    EntityRows(reg, cfg);
    ArchitectureRows(reg, cfg);
    FirstInstanceRows(reg, cfg);
    SecondInstanceRows(reg, cfg);
    ClosingRows(reg, cfg);
    RowsConcat(reg, cfg, EntityLines, EntityShapes, EntityBodies, ArchitectureLines, ArchitectureShapes, ArchitectureBodies);
    RowsConcat(reg, cfg, EntityLines + ArchitectureLines, EntityShapes + ArchitectureShapes, EntityBodies + ArchitectureBodies, FirstInstanceLines, FirstInstanceShapes, FirstInstanceBodies);
    RowsConcat(reg, cfg, EntityLines + ArchitectureLines + FirstInstanceLines, EntityShapes + ArchitectureShapes + FirstInstanceShapes, EntityBodies + ArchitectureBodies + FirstInstanceBodies, SecondInstanceLines, SecondInstanceShapes, SecondInstanceBodies);
    RowsConcat(reg, cfg, EntityLines + ArchitectureLines + FirstInstanceLines + SecondInstanceLines, EntityShapes + ArchitectureShapes + FirstInstanceShapes + SecondInstanceShapes, EntityBodies + ArchitectureBodies + FirstInstanceBodies + SecondInstanceBodies, ClosingLines, ClosingShapes, ClosingBodies);
    TwoBlocks();
  }

  /** The bodies of "indentation is 2", placed from depth zero, print as the
      blocks list them and come back to depth zero. */
  lemma TwoFits(unit: string)
    ensures FitsShapes(unit, TwoShapes, TwoBodies, 0, TwoOut(unit), 0)
  {
    EntityFits(unit);
    ArchitectureFits(unit);
    FirstInstanceFits(unit);
    SecondInstanceFits(unit);
    ClosingFits(unit);
    FitsShapesConcat(unit, EntityShapes, EntityBodies, 0, EntityOut(unit), 0, ArchitectureShapes, ArchitectureBodies, ArchitectureOut(unit), 1);
    FitsShapesConcat(unit, EntityShapes + ArchitectureShapes, EntityBodies + ArchitectureBodies, 0, EntityOut(unit) + ArchitectureOut(unit), 1, FirstInstanceShapes, FirstInstanceBodies, FirstInstanceOut(unit), 1);
    FitsShapesConcat(unit, EntityShapes + ArchitectureShapes + FirstInstanceShapes, EntityBodies + ArchitectureBodies + FirstInstanceBodies, 0, EntityOut(unit) + ArchitectureOut(unit) + FirstInstanceOut(unit), 1, SecondInstanceShapes, SecondInstanceBodies, SecondInstanceOut(unit), 1);
    FitsShapesConcat(unit, EntityShapes + ArchitectureShapes + FirstInstanceShapes + SecondInstanceShapes, EntityBodies + ArchitectureBodies + FirstInstanceBodies + SecondInstanceBodies, 0, EntityOut(unit) + ArchitectureOut(unit) + FirstInstanceOut(unit) + SecondInstanceOut(unit), 1, ClosingShapes, ClosingBodies, ClosingOut(unit), 0);
  }

  /** "indentation is 2" for any indentation unit. */
  lemma TwoLaid(reg: Registry, cfg: Config)
    requires Plain(reg, cfg)
    ensures Formatted(reg, cfg, Join(InputTwo)) == FormattingResult(true, Join(TwoOut(cfg.indentation)))
  {
    TwoRows(reg, cfg);
    TwoFits(cfg.indentation);
    FormattedRows(reg, cfg, InputTwo, TwoShapes, TwoBodies, TwoOut(cfg.indentation));
  }

  /** "indentation is 2": formatting the input text gives exactly the expected text. */
  lemma IndentationTwo(reg: Registry, cfg: Config)
    requires Plain(reg, cfg) && cfg.indentation == "  "
    ensures Formatted(reg, cfg, Join(InputTwo)) == FormattingResult(true, Join(ExpectedTwo))
  {
    TwoLaid(reg, cfg);
    TwoExpected();
  }

  /** The lines of the input text of "indentation is 4". */
  const InputFour: seq<string> := [
    "entity dummy is",
    "generic (",
    "DATA_BYTES : integer := 8);",
    "port (",
    "clk     : in std_ulogic;",
    "reset_n : in std_ulogic;",
    ");",
    "end;",
    "architecture rtl of dummy is",
    "signal my_signal : std_logic;",
    "begin;",
    "inst : dummy2",
    "generic map (",
    "DATA_BYTES => DATA_BYTES",
    ") port map (",
    "clk     => clk,",
    "reset_n => reset_n",
    ");",
    "s4 <= s1 or s2 or s3;",
    "end architecture;",
    ""
  ]

  /** The lines of the text "indentation is 4" expects, each written as its
      indentation followed by its text. */
  const ExpectedFour: seq<string> := [
    "entity dummy is",
    "    " + "generic (",
    "        " + "DATA_BYTES : integer := 8);",
    "    " + "port (",
    "        " + "clk     : in std_ulogic;",
    "        " + "reset_n : in std_ulogic;",
    "    " + ");",
    "end;",
    "architecture rtl of dummy is",
    "    " + "signal my_signal : std_logic;",
    "begin;",
    "    " + "inst : dummy2",
    "    " + "generic map (",
    "        " + "DATA_BYTES => DATA_BYTES",
    "    " + ") port map (",
    "        " + "clk     => clk,",
    "        " + "reset_n => reset_n",
    "    " + ");",
    "    " + "s4 <= s1 or s2 or s3;",
    "end architecture;",
    ""
  ]

  /** The output of "indentation is 4" for any indentation unit. */
  function FourOut(unit: string): seq<string> {
    EntityOut(unit) + ArchitectureOut(unit) + FirstInstanceOut(unit) + ClosingOut(unit)
  }

  lemma FourBlocks()
    ensures InputFour == EntityLines + ArchitectureLines + FirstInstanceLines + ClosingLines
  {
  }

  lemma FourExpected()
    ensures FourOut("    ") == ExpectedFour
  {
    EntityFourText();
    ArchitectureFourText();
    FirstInstanceFourText();
    ClosingFourText();
  }

  /** The shapes and the bodies of the lines of "indentation is 4". */
  const FourShapes: seq<Shape> := EntityShapes + ArchitectureShapes + FirstInstanceShapes + ClosingShapes
  const FourBodies: seq<string> := EntityBodies + ArchitectureBodies + FirstInstanceBodies + ClosingBodies

  /** Each line of "indentation is 4" has the shape and the body listed for it. */
  lemma FourRows(reg: Registry, cfg: Config)
    requires Plain(reg, cfg)
    ensures Rows(reg, cfg, InputFour, FourShapes, FourBodies)
  {
    EntityRows(reg, cfg);
    ArchitectureRows(reg, cfg);
    FirstInstanceRows(reg, cfg);
    ClosingRows(reg, cfg);
    RowsConcat(reg, cfg, EntityLines, EntityShapes, EntityBodies, ArchitectureLines, ArchitectureShapes, ArchitectureBodies);
    RowsConcat(reg, cfg, EntityLines + ArchitectureLines, EntityShapes + ArchitectureShapes, EntityBodies + ArchitectureBodies, FirstInstanceLines, FirstInstanceShapes, FirstInstanceBodies);
    RowsConcat(reg, cfg, EntityLines + ArchitectureLines + FirstInstanceLines, EntityShapes + ArchitectureShapes + FirstInstanceShapes, EntityBodies + ArchitectureBodies + FirstInstanceBodies, ClosingLines, ClosingShapes, ClosingBodies);
    FourBlocks();
  }

  /** The bodies of "indentation is 4", placed from depth zero, print as the
      blocks list them and come back to depth zero. */
  lemma FourFits(unit: string)
    ensures FitsShapes(unit, FourShapes, FourBodies, 0, FourOut(unit), 0)
  {
    EntityFits(unit);
    ArchitectureFits(unit);
    FirstInstanceFits(unit);
    ClosingFits(unit);
    FitsShapesConcat(unit, EntityShapes, EntityBodies, 0, EntityOut(unit), 0, ArchitectureShapes, ArchitectureBodies, ArchitectureOut(unit), 1);
    FitsShapesConcat(unit, EntityShapes + ArchitectureShapes, EntityBodies + ArchitectureBodies, 0, EntityOut(unit) + ArchitectureOut(unit), 1, FirstInstanceShapes, FirstInstanceBodies, FirstInstanceOut(unit), 1);
    FitsShapesConcat(unit, EntityShapes + ArchitectureShapes + FirstInstanceShapes, EntityBodies + ArchitectureBodies + FirstInstanceBodies, 0, EntityOut(unit) + ArchitectureOut(unit) + FirstInstanceOut(unit), 1, ClosingShapes, ClosingBodies, ClosingOut(unit), 0);
  }

  /** "indentation is 4" for any indentation unit. */
  lemma FourLaid(reg: Registry, cfg: Config)
    requires Plain(reg, cfg)
    ensures Formatted(reg, cfg, Join(InputFour)) == FormattingResult(true, Join(FourOut(cfg.indentation)))
  {
    FourRows(reg, cfg);
    FourFits(cfg.indentation);
    FormattedRows(reg, cfg, InputFour, FourShapes, FourBodies, FourOut(cfg.indentation));
  }

  /** "indentation is 4": formatting the input text gives exactly the expected text. */
  lemma IndentationFour(reg: Registry, cfg: Config)
    requires Plain(reg, cfg) && cfg.indentation == "    "
    ensures Formatted(reg, cfg, Join(InputFour)) == FormattingResult(true, Join(ExpectedFour))
  {
    FourLaid(reg, cfg);
    FourExpected();
  }
}
