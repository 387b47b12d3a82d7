/** What the depth rules do with the blocks they do not open: only an
    entity and an architecture open a level, while every `end` closes one,
    so an `if … then` … `end if;` block is reported as unbalanced. */
module Blocks {
  import opened Ascii
  import opened Keywords
  import opened Options
  import opened Lines
  import opened Indentation
  import opened Formatter
  import opened Fixtures

  /** The shape of a line led by a lowercase word and holding no
      parentheses. */
  lemma PlainLineShape(w: string, rest: string)
    requires w != [] && AllWordChars(w) && Lower(w) == w
    requires rest != [] && !IsWordChar(rest[0])
    requires '(' !in rest && ')' !in rest && '\n' !in rest
    ensures ShapeOf(w + rest) == Shape(w == "end" || w == "begin",
      (if w == "entity" || w == "architecture" then 1 else 0) - (if w == "end" then 1 else 0))
  {
    assert forall i :: 0 <= i < |w + rest| ==> (w + rest)[i] != ')' by {
      forall i | 0 <= i < |w + rest|
        ensures (w + rest)[i] != ')'
      {
        if i < |w| {
          assert IsWordChar((w + rest)[i]);
        }
      }
    }
    NoCloseIsTight(w + rest);
    CountAbsent(rest, '(');
    CountAbsent(rest, ')');
    WordLineShape(w, rest);
  }

  /** `if x then` neither opens nor closes a level. */
  lemma IfThenShape(t: string)
    requires t == "if x then"
    ensures ShapeOf(t) == Shape(false, 0)
  {
    var w, rest := "if", " x then";
    assert t == w + rest;
    assert Lower(w) == w;
    PlainLineShape(w, rest);
  }

  /** `end if;` is printed one level lower and closes a level. */
  lemma EndIfShape(t: string)
    requires t == "end if;"
    ensures ShapeOf(t) == Shape(true, -1)
  {
    var w, rest := "end", " if;";
    assert t == w + rest;
    assert Lower(w) == w;
    PlainLineShape(w, rest);
  }

  /** Two lines joined by one line break split back into those two. */
  lemma SplitTwo(a: string, e: string)
    requires '\n' !in a && '\n' !in e
    ensures Split(a + "\n" + e) == [a, e]
  {
    var t := "\n" + e;
    assert a + "\n" + e == a + t;
    SplitPrefix(a, t);
    assert t[0] == '\n' && t[1..] == e;
    SingleLine(e);
    assert Split(t) == [[]] + [e];
    assert a + [] == a;
  }

  /** The two lines of the `if` block. */
  lemma IfBlockLines(code: string)
    requires code == "if x then\nend if;"
    ensures Split(code) == ["if x then", "end if;"]
  {
    var a, e := "if x then", "end if;";
    assert code == a + "\n" + e;
    SplitTwo(a, e);
  }

  /** Only entity and architecture open a level, so the `end if` of an
      `if … then` block closes a level nothing opened and the text is
      reported as unbalanced, though its layout is still produced. */
  lemma EndIfIsUnbalanced(reg: Registry, cfg: Config, code: string)
    requires code == "if x then\nend if;"
    ensures !Formatted(reg, cfg, code).successful
  {
    IfBlockLines(code);
    var lines := Split(code);
    IfThenShape(lines[0]);
    EndIfShape(lines[1]);
    ShapesAt(lines, 0);
    ShapesAt(lines, 1);
    var sh := Shapes(lines);
    assert ScanShapes(sh, 1) == Scan(0, false);
  }
}
