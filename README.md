# VHDL standalone formatter: case transformer and indentation pass

This project models `Standalone_vhdl.format_from_code` from TerosHDL's Colibri
library, as the formatter's test suite
(`packages/colibri/tests/formatter/standalone.spec.ts`) pins it down. The
formatter's implementation (`Standalone_vhdl`, `VHDLFormatter`, `KeyWords`,
`TypeNames`) is not part of this model. Its behaviour is reconstructed from
what the tests assert. Every rule below is consistent with the keyword,
type-name and indentation tests (`standalone.spec.ts:51-266`). The file
tests on whole designs are not met: see the `Formatter.FormatFromCode` line
under "## Left out".

Two parts are covered.

- **Case transformer** (module `CaseTransform`). `keyword_case` re-cases
  reserved words and `name_case` re-cases built-in type names, to lowercase
  or uppercase. The configuration also knows a preserve mode. Matching
  ignores letter case. A word is a maximal run of ASCII letters, digits and
  `_`. Every other character is copied. The registries are abstract: a
  `Registry` value holds two sets of words, is passed to every operation,
  and is never changed.
- **Indentation pass** (modules `Indentation` and `Formatter`). The text is
  cut into lines at `\n`. Each line is handled like this:
  - its leading blanks are removed;
  - every blank that stands, through blanks only, before a `)` is dropped;
  - it is re-cased;
  - it is prefixed with the indentation unit repeated by the current
    nesting depth.

  An empty line stays empty. The depth rules are these:
  - `(` opens a level and `)` closes one;
  - a line whose first word is `entity` or `architecture` opens a level;
  - a line whose first word is `end` closes one;
  - a line that starts with `)`, `end` or `begin` is printed one level below
    the current depth.

  `Formatter.IndentLines` is the imperative pass: one loop over the lines
  with a mutable depth counter. It is proved equal to the functional
  specification `Indentation.Layout`. `Formatter.FormatFromCode` is the
  facade. It reports `successful` when no line closes below depth zero and
  the depth is back at zero at the end. Only entity and architecture
  blocks open a level, so other VHDL blocks (`if`, `process`, `loop` and
  the like) are not indented and their `end` lines count as unbalanced.

Other modules:
- `Ascii`: character classes and ASCII case mapping.
- `Keywords`: the registries.
- `Options`: the three configuration fields that are modelled.
- `Lines`: JavaScript's `split("\n")` and `join("\n")`.
- `Fixtures`: what the pass reads off each line of the two indentation
  fixtures.
- `Golden`: both fixtures proved end to end. Formatting the input text gives
  exactly the expected text, and the result is successful.
- `Blocks`: what the depth rules do with a block they do not open, shown on
  an `if … then` / `end if;` pair.

## Model

| member | source | states |
|---|---|---|
| Ascii.Lower | packages/colibri/tests/formatter/standalone.spec.ts:59 | `toLowerCase` on ASCII: the same length, and every character mapped by `ToLowerChar` (capitals go down by 32, the rest are kept) |
| Ascii.Upper | packages/colibri/tests/formatter/standalone.spec.ts:68 | `toUpperCase` on ASCII: the same length, and every character mapped by `ToUpperChar` |
| Ascii.CharCaseFacts | packages/colibri/tests/formatter/standalone.spec.ts:58-70 | character case mapping is idempotent, each direction absorbs the other, and word characters, blanks, `\n` and parentheses are kept |
| Ascii.StringCaseFacts | packages/colibri/tests/formatter/standalone.spec.ts:58-70 | `Lower` and `Upper` are idempotent, each absorbs the other, and a word stays a word |
| Keywords.MembershipIgnoresCase | packages/colibri/tests/formatter/standalone.spec.ts:58-70 | two spellings with the same lowercase form are both keywords or both not, and both type names or both not |
| Keywords.RegisteredSpellings | packages/colibri/tests/formatter/standalone.spec.ts:58-70 | the lowercase and the uppercase spelling of every registered word are recognised |
| Keywords.TypeNameIsNotKeyword | packages/colibri/tests/formatter/standalone.spec.ts:100-140 | in a valid registry a type name is never also a keyword, so `name_case` and not `keyword_case` decides its spelling |
| CaseTransform.ApplyCase | packages/colibri/tests/formatter/standalone.spec.ts:54-94 | a case mode changes letter case only: the result has the input's lowercase spelling |
| CaseTransform.ApplyCaseIdempotent | packages/colibri/tests/formatter/standalone.spec.ts:77-94 | applying a case mode twice equals applying it once |
| CaseTransform.FormatWord | packages/colibri/tests/formatter/standalone.spec.ts:54-140 | re-casing a word keeps its lowercase spelling |
| CaseTransform.FormatWordIdempotent | packages/colibri/tests/formatter/standalone.spec.ts:77-94 | re-casing a word twice equals re-casing it once |
| CaseTransform.WordLen | packages/colibri/tests/formatter/standalone.spec.ts:58-61 | the leading word is the longest run of word characters at the start of the line |
| CaseTransform.CaseLine | packages/colibri/tests/formatter/standalone.spec.ts:153-212 | the transformer on a line keeps its length and its lowercase spelling, so only letter case changes |
| CaseTransform.CaseLineIdempotent | packages/colibri/tests/formatter/standalone.spec.ts:77-94 | the transformer on a whole line is idempotent |
| CaseTransform.CaseLineOnlyModes | packages/colibri/tests/formatter/standalone.spec.ts:147-151 | the re-cased line depends on the two case modes alone, not on the indentation unit |
| CaseTransform.SingleWordLine | packages/colibri/tests/formatter/standalone.spec.ts:59 | a line that is one whole word is that word re-cased |
| CaseTransform.KeywordCase | packages/colibri/tests/formatter/standalone.spec.ts:54-94 | a registered keyword in either spelling becomes its lowercase spelling under lowercase mode and its uppercase spelling under uppercase mode; preserve mode keeps each spelling |
| CaseTransform.TypeNameCase | packages/colibri/tests/formatter/standalone.spec.ts:100-140 | the same for a type name under `name_case`, in a valid registry |
| CaseTransform.UnregisteredWordUnchanged | packages/colibri/tests/formatter/standalone.spec.ts:156 | a word in neither registry, such as `DATA_BYTES`, keeps its spelling |
| CaseTransform.CaseLineKeeps | packages/colibri/tests/formatter/standalone.spec.ts:153-180 | under lowercase or preserve modes, a line without capitals is left as it is |
| CaseTransform.PreserveIsIdentity | packages/colibri/tests/formatter/standalone.spec.ts:30-31 | with both modes set to preserve, the transformer is the identity |
| CaseTransform.CaseLineWord | packages/colibri/tests/formatter/standalone.spec.ts:153-180 | a line that starts with a whole word is that word re-cased, followed by the rest re-cased |
| Lines.Split | packages/colibri/tests/formatter/standalone.spec.ts:153-180 | a text is cut into at least one line, and no line holds a `\n` |
| Lines.JoinSplit | packages/colibri/tests/formatter/standalone.spec.ts:153-212 | joining the lines of a text gives the text back |
| Lines.SplitJoin | packages/colibri/tests/formatter/standalone.spec.ts:153-212 | splitting joined lines that hold no `\n` gives the lines back |
| Lines.SingleLine | packages/colibri/tests/formatter/standalone.spec.ts:59 | a text without `\n` is one line |
| Lines.Repeat | packages/colibri/tests/formatter/standalone.spec.ts:148 | the unit repeated n times is n times as long as the unit |
| Lines.RepeatAdd | packages/colibri/tests/formatter/standalone.spec.ts:148 | a + b repetitions are a repetitions followed by b, so the indentation at depth n is n copies of the unit one after another |
| Indentation.TrimLeft | packages/colibri/tests/formatter/standalone.spec.ts:153-212 | removing leading blanks drops only blanks and leaves the line starting with a non-blank, if any character is left |
| Indentation.TrimLeftSuffix | packages/colibri/tests/formatter/standalone.spec.ts:153-212 | the trimmed line is a suffix of the line: everything after the leading blanks is kept unchanged |
| Indentation.TrimLeftBlanks | packages/colibri/tests/formatter/standalone.spec.ts:153-212 | a run of leading blanks is skipped whatever follows it |
| Indentation.Tighten | packages/colibri/tests/formatter/standalone.spec.ts:174 | dropping blanks before `)` keeps every non-blank character in order and leaves no blank before a `)`; a line that did not start with a blank keeps its first character |
| Indentation.TightenDropsBlanksBeforeClose | packages/colibri/tests/formatter/standalone.spec.ts:174 | a run of blanks directly before `)` is removed and the rest is tightened on its own: `DATA_BYTES )` becomes `DATA_BYTES)` |
| Indentation.TightenKeepsPadding | packages/colibri/tests/formatter/standalone.spec.ts:158 | a run of blanks before any non-blank other than `)` is kept: the padding in `clk     :` survives |
| Indentation.TightenFixesTight | packages/colibri/tests/formatter/standalone.spec.ts:158 | a line with no blank before a `)` is left as it is, so padding such as `clk     :` stays and tightening is idempotent |
| Indentation.TightenAppend | packages/colibri/tests/formatter/standalone.spec.ts:174 | a tight piece that ends in a non-blank passes through tightening unchanged, whatever follows it |
| Indentation.Body | packages/colibri/tests/formatter/standalone.spec.ts:153-212 | a line without its indentation: its lowercase spelling is the line trimmed, tightened and lowercased |
| Indentation.Step | packages/colibri/tests/formatter/standalone.spec.ts:153-212 | one step of the depth scan: the scan has underflowed exactly when it had before or the old depth plus the line's net opening is negative; a negative sum resets the depth to zero, otherwise the depth is that sum |
| Indentation.PrintDepth | packages/colibri/tests/formatter/standalone.spec.ts:160 | a line that starts with `)`, `end` or `begin` is printed one level below a positive current depth; every other line, and every line at depth zero, is printed at the current depth |
| Indentation.ShapeOfTidy | packages/colibri/tests/formatter/standalone.spec.ts:153-212 | how the depth rules read a trimmed, tight line: whether it is printed lower, and its net opening from parentheses, `entity`/`architecture` and `end`, whatever its letter case |
| Indentation.Place | packages/colibri/tests/formatter/standalone.spec.ts:182-209 | one output line per input line |
| Indentation.Layout | packages/colibri/tests/formatter/standalone.spec.ts:182-209 | one output line per input line |
| Indentation.LayoutAt | packages/colibri/tests/formatter/standalone.spec.ts:182-209 | output line i is the unit repeated by line i's depth, then line i's body; an empty body stays empty |
| Indentation.PlaceExtend | packages/colibri/tests/formatter/standalone.spec.ts:153-212 | a sweep that has placed the first i lines and reached the scan state after them also places line i |
| Indentation.BodyIsFixed | packages/colibri/tests/formatter/standalone.spec.ts:182-209 | a body is already trimmed, tight and re-cased: the pass leaves it alone and reads it like its source line |
| Indentation.EmitIsFixed | packages/colibri/tests/formatter/standalone.spec.ts:182-209 | indenting a body with blanks changes neither its body nor how the depth rules read it |
| Indentation.LayoutIdempotent | packages/colibri/tests/formatter/standalone.spec.ts:182-209 | with a unit made of blanks, laying out the output again gives the same output, and the output lines read like the input lines |
| Indentation.LineUnderTwoConfigs | packages/colibri/tests/formatter/standalone.spec.ts:146-266 | under two configurations a line is printed at the same depth, each with its own unit; the bodies agree up to case, and are equal when the case modes agree |
| Indentation.LayoutsAligned | packages/colibri/tests/formatter/standalone.spec.ts:146-266 | every pair of output lines under two configurations is aligned: both empty, or the same number of units followed by the same content up to case |
| Indentation.LayoutKeepsContent | packages/colibri/tests/formatter/standalone.spec.ts:158 | apart from its indentation, an output line holds the same non-blank characters in the same order as its input line, up to case |
| Indentation.NonBlanksIgnoreCase | packages/colibri/tests/formatter/standalone.spec.ts:158 | two strings equal up to case have non-blank characters equal up to case |
| Indentation.ClosingLineMatchesOpener | packages/colibri/tests/formatter/standalone.spec.ts:189 | after a line that opens one level and lines that leave the depth alone, a line starting with `)` is printed at the opener's depth and the lines between one level deeper |
| Indentation.InnerDepth | packages/colibri/tests/formatter/standalone.spec.ts:196-200 | after an opening line, lines with no net opening all sit one level deeper than the depth before the opener |
| Formatter.FormatFromCode | packages/colibri/tests/formatter/standalone.spec.ts:211-212 | `format_from_code` returns exactly `Formatted`: the joined layout, successful exactly when the depth scan under the model's rules never goes below zero and ends at zero |
| Formatter.IndentLines | packages/colibri/tests/formatter/standalone.spec.ts:182-209 | the loop with a depth counter produces `Layout` and ends in the scan state after the last line |
| Formatter.IndentLine | packages/colibri/tests/formatter/standalone.spec.ts:182-209 | the work for one line: its body, the depth it is printed at, and the depth that follows it before clamping |
| Formatter.FormatKeyword | packages/colibri/tests/formatter/standalone.spec.ts:54-94 | formatting a keyword alone yields its lowercase spelling under lowercase mode and its uppercase spelling under uppercase mode, from either input spelling, with nothing added |
| Formatter.FormatTypeName | packages/colibri/tests/formatter/standalone.spec.ts:100-140 | the same for a type name under `name_case` |
| Formatter.FormatOneWord | packages/colibri/tests/formatter/standalone.spec.ts:59-60 | a text that is one word is formatted as that word re-cased: no line break and no indentation is added |
| Formatter.FormatIdempotent | packages/colibri/tests/formatter/standalone.spec.ts:182-209 | with a unit made of blanks, formatting the formatted text again gives the same result |
| Formatter.OutputLinesHaveNoNewline | packages/colibri/tests/formatter/standalone.spec.ts:182-209 | no output line holds a line break, so one input line gives exactly one output line |
| Formatter.SameDepthUnderAnyConfig | packages/colibri/tests/formatter/standalone.spec.ts:146-266 | under any two configurations: the same success flag and the same number of lines as the input, and each pair of lines aligned, so the unit changes only leading whitespace |
| Fixtures.WordLineRow | packages/colibri/tests/formatter/standalone.spec.ts:154-163 | a line made of a word that keeps its spelling, an inert middle and an optional `(` or `);` is its own body; it opens for `entity`/`architecture` and `(`, and closes for `end` and `);` |
| Fixtures.CloseLineRow | packages/colibri/tests/formatter/standalone.spec.ts:160 | a line that opens with `)` is its own body, is printed one level lower, and closes one level more than its tail opens |
| Fixtures.PairLineRow | packages/colibri/tests/formatter/standalone.spec.ts:167 | a line such as `clk     => clk,` is its own body and closes what its tail closes |
| Fixtures.TightenedRow | packages/colibri/tests/formatter/standalone.spec.ts:174 | a line that tightening changes reads like its tightened text |
| Fixtures.EntityRow | packages/colibri/tests/formatter/standalone.spec.ts:154 | `entity dummy is` is kept and opens one level (expected at depth 0) |
| Fixtures.GenericRow | packages/colibri/tests/formatter/standalone.spec.ts:155 | `generic (` is kept and opens one level (expected at depth 1) |
| Fixtures.GenericSizeRow | packages/colibri/tests/formatter/standalone.spec.ts:156 | `DATA_BYTES : integer := 8);` is kept and closes one level (expected at depth 2) |
| Fixtures.PortRow | packages/colibri/tests/formatter/standalone.spec.ts:157 | `port (` is kept and opens one level |
| Fixtures.ClockPortRow | packages/colibri/tests/formatter/standalone.spec.ts:158 | `clk     : in std_ulogic;` keeps its padding and leaves the depth alone |
| Fixtures.ResetPortRow | packages/colibri/tests/formatter/standalone.spec.ts:159 | `reset_n : in std_ulogic;` is kept and leaves the depth alone |
| Fixtures.CloseClauseRow | packages/colibri/tests/formatter/standalone.spec.ts:160 | `);` is printed one level lower and closes one level |
| Fixtures.EndRow | packages/colibri/tests/formatter/standalone.spec.ts:161 | `end;` is printed one level lower and closes one level |
| Fixtures.ArchitectureRow | packages/colibri/tests/formatter/standalone.spec.ts:162 | `architecture rtl of dummy is` is kept and opens one level |
| Fixtures.SignalRow | packages/colibri/tests/formatter/standalone.spec.ts:163 | `signal my_signal : std_logic;` is kept and leaves the depth alone |
| Fixtures.BeginRow | packages/colibri/tests/formatter/standalone.spec.ts:164 | `begin;` is printed one level lower and leaves the depth alone |
| Fixtures.FirstInstanceRow | packages/colibri/tests/formatter/standalone.spec.ts:165 | `inst : dummy2` is kept and leaves the depth alone |
| Fixtures.GenericMapRow | packages/colibri/tests/formatter/standalone.spec.ts:166 | `generic map (` is kept and opens one level |
| Fixtures.SizeMapRow | packages/colibri/tests/formatter/standalone.spec.ts:167 | `DATA_BYTES => DATA_BYTES` is kept and leaves the depth alone |
| Fixtures.PortMapCloseRow | packages/colibri/tests/formatter/standalone.spec.ts:168 | `) port map (` is printed one level lower and leaves the depth alone |
| Fixtures.ClockMapRow | packages/colibri/tests/formatter/standalone.spec.ts:169 | `clk     => clk,` keeps its padding and leaves the depth alone |
| Fixtures.ResetMapRow | packages/colibri/tests/formatter/standalone.spec.ts:170 | `reset_n => reset_n` is kept and leaves the depth alone |
| Fixtures.SecondInstanceRow | packages/colibri/tests/formatter/standalone.spec.ts:172 | `inst : dummy3` is kept and leaves the depth alone |
| Fixtures.ClosedSizeMapRow | packages/colibri/tests/formatter/standalone.spec.ts:203 | `DATA_BYTES => DATA_BYTES)` is kept and closes one level |
| Fixtures.SpacedSizeMapRow | packages/colibri/tests/formatter/standalone.spec.ts:174 | `DATA_BYTES => DATA_BYTES )` loses the blank before `)`, is not printed lower, and closes one level |
| Fixtures.PortMapRow | packages/colibri/tests/formatter/standalone.spec.ts:175 | `port map (` is kept and opens one level |
| Fixtures.AssignRow | packages/colibri/tests/formatter/standalone.spec.ts:179 | `s4 <= s1 or s2 or s3;` is kept and leaves the depth alone |
| Fixtures.EndArchitectureRow | packages/colibri/tests/formatter/standalone.spec.ts:180 | `end architecture;` is printed one level lower and closes one level |
| Fixtures.EmptyRow | packages/colibri/tests/formatter/standalone.spec.ts:180 | the empty line after the final `\n` stays empty and leaves the depth alone |
| Golden.FitsShapesSuffix | packages/colibri/tests/formatter/standalone.spec.ts:182-209 | after any prefix of a layout that fits from depth zero, the scan has not underflowed and the rest fits from the depth reached |
| Golden.FitsShapesConcat | packages/colibri/tests/formatter/standalone.spec.ts:182-209 | two placements, the second starting where the first ends, make one placement |
| Golden.RowsConcat | packages/colibri/tests/formatter/standalone.spec.ts:153-180 | lines with known shapes and bodies can be put together block by block |
| Golden.RowsGive | packages/colibri/tests/formatter/standalone.spec.ts:153-180 | lines with listed shapes and bodies have exactly those shapes and bodies, and no line break |
| Golden.FormattedLaid | packages/colibri/tests/formatter/standalone.spec.ts:211-212 | a text whose lines fit a placement from depth zero back to depth zero formats successfully into the lines of that placement |
| Golden.FormattedRows | packages/colibri/tests/formatter/standalone.spec.ts:211-212 | the same, starting from lines with listed shapes and bodies |
| Golden.EntityFits | packages/colibri/tests/formatter/standalone.spec.ts:183-190 | the entity declaration prints at depths 0 1 2 1 2 2 1 0 and ends at depth 0, for any unit |
| Golden.ArchitectureFits | packages/colibri/tests/formatter/standalone.spec.ts:191-193 | the architecture header prints at depths 0 1 0 and ends at depth 1 |
| Golden.FirstInstanceFits | packages/colibri/tests/formatter/standalone.spec.ts:194-200 | the first instance prints at depths 1 1 2 1 2 2 1; its `) port map (` and `);` sit at the depth of the line that opened them |
| Golden.SecondInstanceFits | packages/colibri/tests/formatter/standalone.spec.ts:201-207 | the second instance prints at depths 1 1 2 1 2 2 1 |
| Golden.ClosingFits | packages/colibri/tests/formatter/standalone.spec.ts:208-209 | the closing lines print at depths 1 0 0 and end at depth 0 |
| Golden.EntityRows | packages/colibri/tests/formatter/standalone.spec.ts:154-161 | each line of the entity declaration has the shape and the body listed for it |
| Golden.ArchitectureRows | packages/colibri/tests/formatter/standalone.spec.ts:162-164 | the same for the architecture header |
| Golden.FirstInstanceRows | packages/colibri/tests/formatter/standalone.spec.ts:165-171 | the same for the first instance |
| Golden.SecondInstanceRows | packages/colibri/tests/formatter/standalone.spec.ts:172-178 | the same for the second instance |
| Golden.ClosingRows | packages/colibri/tests/formatter/standalone.spec.ts:179-180 | the same for the closing lines |
| Golden.TwoLaid | packages/colibri/tests/formatter/standalone.spec.ts:146-213 | the first fixture's input formats successfully into the same bodies at the same depths for any unit, so the unit changes only the leading prefix |
| Golden.IndentationTwo | packages/colibri/tests/formatter/standalone.spec.ts:146-213 | "indentation is 2": formatting the input text with unit `"  "` gives exactly the expected text, and the result is successful |
| Golden.FourLaid | packages/colibri/tests/formatter/standalone.spec.ts:214-266 | the second fixture's input formats successfully into the same bodies at the same depths for any unit |
| Golden.IndentationFour | packages/colibri/tests/formatter/standalone.spec.ts:214-266 | "indentation is 4": formatting the input text with unit `"    "` gives exactly the expected text, and the result is successful |
| Golden.TwoExpected | packages/colibri/tests/formatter/standalone.spec.ts:182-209 | the placed lines with unit `"  "` are exactly the expected lines |
| Golden.FourExpected | packages/colibri/tests/formatter/standalone.spec.ts:243-263 | the placed lines with unit `"    "` are exactly the expected lines |
| Golden.TwoBlocks | packages/colibri/tests/formatter/standalone.spec.ts:153-180 | the first input is the entity, the architecture header, two instances and the closing lines |
| Golden.FourBlocks | packages/colibri/tests/formatter/standalone.spec.ts:221-241 | the second input is the same without the second instance |
| Blocks.SplitTwo | packages/colibri/tests/formatter/standalone.spec.ts:153-180 | two line-free texts joined by one line break split back into exactly those two lines |
| Blocks.PlainLineShape | packages/colibri/tests/formatter/standalone.spec.ts:153-212 | a line led by a lowercase word and holding no parentheses opens a level only for `entity`/`architecture`, closes one and prints lower only for `end`, and prints lower for `begin` |
| Blocks.IfThenShape | packages/colibri/tests/formatter/standalone.spec.ts:153-212 | `if x then` neither opens nor closes a level under the model's rules |
| Blocks.EndIfShape | packages/colibri/tests/formatter/standalone.spec.ts:153-212 | `end if;` prints one level lower and closes a level |
| Blocks.IfBlockLines | packages/colibri/tests/formatter/standalone.spec.ts:153-180 | the two-line `if` block splits into its two lines |
| Blocks.EndIfIsUnbalanced | packages/colibri/tests/formatter/standalone.spec.ts:301 | under the model's rules an `if … then` / `end if;` block is reported unsuccessful, while the file tests expect `successful` for real designs |

## Left out

- packages/colibri/tests/process/process.spec.ts is not part of this model. It runs shell commands and checks their output, which is I/O with nothing to verify.
- Creating and removing the output directory, and reading and saving files (standalone.spec.ts:45-49 and the file tests): filesystem I/O.
- `normalize_breakline_windows`: line-ending normalisation in a helper that is not part of this model. Input is taken to use `\n` only.
- The golden-file cases `case_0` to `case_4`. Their input and expected texts are not part of this model, so nothing is stated about them.
- `check_alias`, `remove_reports`, `remove_comments`, `align_port_generic`, `align_comment` and the `new_line_after_*` switches. No test asserts a concrete effect of them. `Config` holds only `keyword_case`, `name_case` and `indentation`.
- The concrete contents of `KeyWords` and `TypeNames`. They are kept abstract as a `Registry`. `Keywords.Registry.Valid` asks that entries be non-empty words and that no spelling be both a keyword and a type name, up to case.
- The `async`/`await` wrapper and the diagnostics of the result. The result holds `successful` and `code_formatted` only.
- Comments and string literals are not tokenised. A `(`, `)`, `end` or keyword inside them counts like any other.
- Case mapping is ASCII only. There is no Unicode case mapping.
- The alignment of port and generic declarations, and the line breaks the formatter may insert, are not modelled. The pass keeps one output line per input line and keeps existing padding, as both indentation fixtures show.
- The depth rules (which lines open, close or print lower) are a reconstruction that matches every line of both indentation fixtures. The formatter's own region scanner is not part of this model.
- Lines.Repeat: its own contract gives only the length. That the result is n copies of the unit is stated by `Lines.RepeatAdd`, because a quantified per-position `ensures` on `Repeat` makes every proof that unfolds the indentation too costly for the verifier.
- Indentation.TrimLeft: its own contract says that only blanks are removed and that a non-blank follows. That the result is the input's suffix is stated by `Indentation.TrimLeftSuffix`; as an `ensures` on the function it makes the solver loop between the trimmed line and its slice.
- Indentation.Tighten: its own contract gives the kept non-blanks, tightness and the first character. Which blanks go and which stay is stated by `Indentation.TightenDropsBlanksBeforeClose`, `Indentation.TightenKeepsPadding` and `Indentation.TightenAppend`.
- Indentation.Delta: only `entity` and `architecture` open a level, but every line led by `end` closes one. `then`, `process`, `case`, `loop`, `generate`, `component`, `function`, `procedure`, `package`, `record` and labelled blocks open nothing in the model. So their `end if`, `end process`, `end loop` and so on close a level nothing opened, and their bodies are not indented. `Blocks.EndIfIsUnbalanced` shows the consequence on a two-line `if` block.
- Formatter.FormatFromCode: `successful` is stated only for the model's depth rules. For a text with the blocks listed under `Indentation.Delta`, the model reports `successful = false` and lays the block out flat. The file tests expect `successful = true` for real designs (standalone.spec.ts:301, 332, 363, 394, 425, 456, 487), whose texts are not part of this model.
- CaseTransform.TypeNameCase: requires a valid registry. If a spelling were both a keyword and a type name, `keyword_case` would decide it.
- Formatter.FormatTypeName: requires a valid registry, for the same reason.
- Golden.IndentationTwo: requires lowercase case modes, as the test configuration sets them (standalone.spec.ts:30-31). It also requires that `DATA_BYTES` is neither a keyword nor a type name, as the expected text shows.
- Golden.IndentationFour: requires the same two things.
- Formatter.FormatIdempotent: requires an indentation unit made of blanks. A unit holding other characters would be read back as content.
- Indentation.LayoutIdempotent: requires a unit made of blanks, for the same reason.
- Formatter.SameDepthUnderAnyConfig: requires units without `\n`. A unit with a line break would add output lines.
- Golden.TwoExpected: the expected lines are written as the indentation followed by the text (`"  " + "generic ("`). The strings are the same as in the test.
- Golden.FourExpected: written the same way.
