/** Cutting source text into lines at '\n' (JavaScript's split("\n")) and
    joining lines back with '\n'. One input line becomes one output line. */
module Lines {

  /** The lines of a text. A text with k newlines has k + 1 lines; a final
      newline yields a final empty line. */
  function Split(s: string): (r: seq<string>)
    ensures |r| >= 1
    ensures forall i :: 0 <= i < |r| ==> '\n' !in r[i]
  {
    if s == [] then [[]]
    else
      var rest := Split(s[1..]);
      if s[0] == '\n' then [[]] + rest
      else [[s[0]] + rest[0]] + rest[1..]
  }

  /** The lines, separated by '\n'. */
  function Join(ls: seq<string>): string
    requires |ls| >= 1
  {
    if |ls| == 1 then ls[0] else ls[0] + "\n" + Join(ls[1..])
  }

  predicate NoNewline(ls: seq<string>) {
    forall i :: 0 <= i < |ls| ==> '\n' !in ls[i]
  }

  /** Joining the lines of a text gives the text back. */
  lemma {:induction false} JoinSplit(s: string)
    ensures Join(Split(s)) == s
  {
    if s != [] {
      var rest := Split(s[1..]);
      JoinSplit(s[1..]);
      if s[0] == '\n' {
        assert Split(s)[1..] == rest;
      } else {
        var r := Split(s);
        assert r[1..] == rest[1..];
        if |rest| == 1 {
        } else {
          assert rest[1..][1..] == rest[2..];
          assert Join(rest) == rest[0] + "\n" + Join(rest[1..]);
        }
      }
      assert s == [s[0]] + s[1..];
    }
  }

  /** Splitting text made of a newline-free head followed by more text. */
  lemma {:induction false} SplitPrefix(a: string, t: string)
    requires '\n' !in a
    ensures Split(a + t) == [a + Split(t)[0]] + Split(t)[1..]
  {
    if a != [] {
      var s := a + t;
      assert s != [] && s[0] == a[0] && s[0] != '\n';
      assert s[1..] == a[1..] + t;
      SplitPrefix(a[1..], t);
      var rest := Split(s[1..]);
      assert rest == [a[1..] + Split(t)[0]] + Split(t)[1..];
      assert Split(s) == [[a[0]] + rest[0]] + rest[1..];
      assert [a[0]] + rest[0] == a + Split(t)[0];
    } else {
      assert a + t == t && a + Split(t)[0] == Split(t)[0];
      assert Split(t) == [Split(t)[0]] + Split(t)[1..];
    }
  }

  /** Splitting joined newline-free lines gives the lines back. */
  lemma {:induction false} SplitJoin(ls: seq<string>)
    requires |ls| >= 1 && NoNewline(ls)
    ensures Split(Join(ls)) == ls
  {
    if |ls| == 1 {
      SingleLine(ls[0]);
      assert ls == [ls[0]];
    } else {
      var t := "\n" + Join(ls[1..]);
      SplitJoin(ls[1..]);
      assert t[0] == '\n' && t[1..] == Join(ls[1..]);
      assert Split(t) == [[]] + ls[1..];
      assert ls[0] + "\n" + Join(ls[1..]) == ls[0] + t;
      SplitPrefix(ls[0], t);
      assert ls[0] + Split(t)[0] == ls[0];
      assert Join(ls) == ls[0] + t;
      assert ls == [ls[0]] + ls[1..];
    }
  }

  /** A text without a newline is a single line. */
  lemma SingleLine(s: string)
    requires '\n' !in s
    ensures Split(s) == [s]
    ensures Join([s]) == s
  {
    SplitPrefix(s, []);
    assert s + [] == s;
    assert Split([]) == [[]];
    assert s + Split([])[0] == s;
  }

  /** The indentation unit repeated n times. */
  function Repeat(unit: string, n: nat): (r: string)
    ensures |r| == n * |unit|
  {
    if n == 0 then [] else unit + Repeat(unit, n - 1)
  }

  /** Repetitions add up: a + b copies of the unit are a copies followed by
      b copies, so Repeat(unit, n) is n copies of the unit one after another. */
  lemma {:induction false} RepeatAdd(unit: string, a: nat, b: nat)
    ensures Repeat(unit, a + b) == Repeat(unit, a) + Repeat(unit, b)
  {
    if a > 0 {
      RepeatAdd(unit, a - 1, b);
      assert Repeat(unit, a + b) == unit + Repeat(unit, a - 1 + b);
    }
  }

  /** A nonempty sequence in front of another splits at its first element. */
  lemma FirstOfAppend<T>(x: seq<T>, y: seq<T>)
    requires x != []
    ensures x + y == [x[0]] + (x[1..] + y)
  {
  }
}
