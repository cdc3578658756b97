# obj-to-json in Dafny

A verified model of `obj_to_dict` from `obj-to-json.py`. The function reads a Wavefront OBJ
file line by line and returns a dictionary of nine flat lists:

- `vertices`, `indices`, `texture`, `texture_inds`, `lines`;
- `curve_verts`, `curve_lines`: the track centre-line, taken from the section after an
  object whose name contains "curve";
- `normals`, `normal_indices`.

When the file breaks one of its rules, the function raises an error instead.

Module layout:

- `Results` (`results.dfy`): `Option` and `Result`.
- `Text` (`text.dfy`): the string operations each line goes through: `strip()`,
  `split('#', 1)[0]`, `split()`, `find('/')`, `lower()`, the substring test `in`, and
  `list.index()`.
- `Numbers` (`numbers.dfy`): `int()` on a token (`ParseInt`), and its inverse partner `str()`
  (`Decimal`).
- `ObjSpec` (`obj_spec.dfy`): the meaning of the function.
  - The nine lists form the datatype `ObjDict`. A result always has exactly these nine keys.
  - The exceptions are the error kinds of `ObjError`.
  - `Read` tokenises and classifies every line (`ReadLine`, `Classify`).
  - `ProcessLine` is one pass of the main loop. `CurveScan` is the nested scan after a curve
    header.
  - `Run`/`Process` fold the main loop over the file. `Converted(fileLines, parseFloat)` is
    the whole function.
- `ObjProperties` (`obj_properties.dfy`): what the function promises, proved about
  `Process` and `Converted`:
  - which files are rejected, and with which error;
  - what every list holds, in file order (`Outer`, `Curves`);
  - the shape of the lists: triples, pairs, and face index lists that run in step;
  - how the curve lists relate to `vertices` and `lines`.
- `ObjToJson` (`obj_to_json.dfy`): the function itself, step by step.
  - `ObjToDict` keeps the nine lists as local sequences and grows them in a `for` loop over
    the lines.
  - One iteration is `Pass`: the keyword dispatch and the arity checks.
  - Helpers: `FaceCorners` (the loop over the corners of a face), `ScanCurve` (the curve scan
    with its early `break`) and `ParseAll` (`list.extend` of a generator).
  - Each method is proved to compute what `ObjSpec` defines. Every property in
    `ObjProperties` therefore holds of `ObjToDict`'s result.

Two quirks of the source are modelled as written:

- The curve scan starts after the FIRST line of the file whose text equals the header line
  (`file_lines.index(line) + 1`). A repeated header therefore rescans the first section
  (`RepeatedHeaderRescans`).
- The main loop also processes the lines of the curve section. Whatever the number of curve
  headers, the curve data each header gathers also stands, contiguously, in `vertices` and
  `lines` (`CurveDataInOuterLists`). With a single header, `curve_verts` and `curve_lines`
  are slices of `vertices` and `lines` (`SingleCurveIsSlice`).

## Model

| member | source | states |
|---|---|---|
| ObjToJson.ObjToDict | obj-to-json.py:6-64 | The result of the loop over the lines is exactly `Converted(fileLines, parseFloat)`: the nine lists, or the error of the first line that raises. An accepted file always yields well-formed lists. |
| ObjToJson.Pass | obj-to-json.py:17-60 | One pass of the main loop over line n equals `ProcessLine`. Blank lines are skipped. Then come the `v`/`f`/`vt…`/`vn…`/`l`/`o` dispatch in that order, each arity check with its error, the list each keyword extends, and the curve scan after a curve header. |
| ObjToJson.Tokens | obj-to-json.py:18 | The tokens of line n (strip, cut at the first '#', split on whitespace) are the tokens `Read` gives that line, and they determine its classification. |
| ObjToJson.ParseAll | obj-to-json.py:24 | Converting every token and extending a list gives the values in order, or the error of the first token that does not convert (`ParseEach`). |
| ObjToJson.FaceCorners | obj-to-json.py:28-33 | On success, the three index lists are extended by n-1, n+1 and n+3 of the corner numbers, in corner order. Otherwise the result is the error of the first corner whose number does not convert. |
| ObjToJson.CornerNumber | obj-to-json.py:29-31 | Cutting a corner at `find('/')` and calling `int()` gives `FaceRef`: `int()` of the text before the first '/'. |
| ObjToJson.ScanCurve | obj-to-json.py:46-60 | The nested scan from `index` equals `CurveScan`. It skips blank lines, extends the curve lists from `v` and `l` lines with their arity checks, and stops at the first other keyword. Only the two curve lists change. |
| Text.Find | obj-to-json.py:29 | `find(c)` is -1 exactly when c does not occur. Otherwise it is a position holding c, with no c before it. |
| Text.FirstIndex | obj-to-json.py:46 | `list.index(x)` is a position holding x, with no x before it. |
| Text.LowerCharIs | obj-to-json.py:45 | `lower()` maps exactly two characters to a given lower-case letter: the letter itself and its capital. |
| Text.LowerHasNoCapitals | obj-to-json.py:45 | After `lower()` no capital letter is left. |
| Text.LowerIdempotent | obj-to-json.py:45 | `lower()` applied twice is `lower()` applied once. |
| Text.TakeUntilShape | obj-to-json.py:18 | `split('#', 1)[0]` is a prefix without '#'. When it is shorter than the text, a '#' follows it. |
| Text.StripLeftShape | obj-to-json.py:18 | `lstrip()` removes a prefix made only of whitespace, and what remains does not start with whitespace. |
| Text.StripRightShape | obj-to-json.py:18 | `rstrip()` removes a suffix made only of whitespace, and what remains does not end with whitespace. |
| Text.WordShape | obj-to-json.py:18 | The first word `split()` reads is a whitespace-free prefix followed by whitespace or the end. |
| Text.SplitTokens | obj-to-json.py:18 | Every token of `split()` is non-empty and holds no whitespace. |
| Text.SplitEmptyIffBlank | obj-to-json.py:18-20 | `split()` yields no token exactly when the text is all whitespace, in both directions. |
| Text.SplitSkipsLeading | obj-to-json.py:18 | Leading whitespace does not change the tokens. |
| Text.SplitSkipsTrailing | obj-to-json.py:18 | Trailing whitespace does not change the tokens. |
| Text.StripIsIrrelevant | obj-to-json.py:18 | The `strip()` before the comment cut does not change the tokens of any line. |
| Text.CommentIsDropped | obj-to-json.py:18 | Everything from the first '#' on is dropped: the tokens of `text + "#" + comment` are the tokens of `text`. |
| Text.SplitJoin | obj-to-json.py:18 | Round trip: splitting tokens joined by single spaces gives the same tokens back. |
| Text.FindCutsLikeSplit | obj-to-json.py:29-30 | Cutting a face corner at `find('/')` keeps exactly `split('/', 1)[0]`. |
| Text.WordOfToken | obj-to-json.py:18 | A token followed by whitespace or the end is the word `split()` reads first. |
| Text.TakeUntilStops | obj-to-json.py:18 | Nothing after the first '#' affects the comment cut. |
| Text.ContainsSpec | obj-to-json.py:45 | The substring test `pat in s` holds exactly when pat occurs in s at some position. |
| Numbers.DecimalRoundTrip | obj-to-json.py:31 | Round trip: `int(str(n)) == n` for every integer n, negative ones included (the 4300-digit limit aside, see Left out). |
| Numbers.DigitsValueSpec | obj-to-json.py:31 | The unsigned part of `int()` succeeds exactly on a non-empty run of digits in which every '_' stands between two digits. |
| Numbers.ParseIntSpec | obj-to-json.py:44 | `int()` of a token succeeds exactly when the token is an integer literal: an optional '+' or '-', then digits with single underscores between digits. Every other token raises (`BadInt`). |
| Numbers.ParseIntExamples | obj-to-json.py:58 | "_1", "1_", "1__2", "+" and "" are rejected; "0_7" reads 7, "-0" reads 0, "+12" reads 12. |
| ObjSpec.ParseEach | obj-to-json.py:24 | A successful conversion of the tokens yields one value per token. |
| ObjSpec.ParseEachSpec | obj-to-json.py:24 | Conversion succeeds exactly when every token converts, and then value i is `parse(token i)`. Otherwise the error is that of the FIRST token that does not convert. |
| ObjSpec.ParseEachStops | obj-to-json.py:24 | Once a prefix of the tokens fails, the whole conversion fails with the same error. Later tokens are never looked at. |
| ObjSpec.VertexCoords | obj-to-json.py:21-24 | A `v` line that is accepted yields exactly 3 coordinates. |
| ObjSpec.FaceNumbers | obj-to-json.py:25-31 | An `f` line that is accepted yields exactly 3 vertex numbers. |
| ObjSpec.TextureCoords | obj-to-json.py:35-38 | A `vt…` line that is accepted yields exactly 2 values. |
| ObjSpec.NormalCoords | obj-to-json.py:39-40 | A `vn…` line has no arity check: it yields one value per operand, however many there are. |
| ObjSpec.LineRefs | obj-to-json.py:41-44 | An `l` line that is accepted yields exactly 2 integers. |
| ObjSpec.Offset | obj-to-json.py:31-33 | Shifting the face numbers keeps their count. |
| ObjSpec.OffsetAt | obj-to-json.py:31-33 | Position i of a shifted face list is face number i plus the constant (-1, +1 or +3). |
| ObjSpec.OffsetSnoc | obj-to-json.py:31-33 | Appending one more corner appends that corner's number, shifted. |
| ObjSpec.CurveHeaderAnyCase | obj-to-json.py:45 | An `o` line with a name is a curve header exactly when, at some position of the name, the five characters are c, u, r, v, e, each in either case. The statement does not use `lower()`. |
| ObjSpec.Read | obj-to-json.py:16-18 | One line is read for each line of the file. |
| ObjSpec.ReadAt | obj-to-json.py:17-18 | Line k is read from the text of line k alone. |
| ObjSpec.ReadEntry | obj-to-json.py:18-45 | What the main loop makes of line k depends only on that line's tokens. |
| ObjProperties.CurveScanAppends | obj-to-json.py:47-60 | The curve scan only appends to the lists it is given. Whether it raises, and which error, does not depend on them. |
| ObjProperties.ProcessLineAppends | obj-to-json.py:17-60 | A pass of the main loop appends to the current lists what the line yields on its own. It raises exactly when the line raises on its own. |
| ObjProperties.RunOutcome | obj-to-json.py:17-60 | After n lines, the loop has not raised exactly when none of them raises on its own. If it has raised, the error is that of the first line that raises. |
| ObjProperties.ProcessOutcome | obj-to-json.py:17-60 | The function succeeds exactly when no line raises on its own. Otherwise it raises the error of the first such line. |
| ObjProperties.RunStep | obj-to-json.py:17 | After lines that did not raise, one more iteration is one `ProcessLine` on the lists so far. |
| ObjProperties.ErrorSticks | obj-to-json.py:17-60 | Once a line raises, the result is that error, whatever lines follow. |
| ObjProperties.MalformedEntryRaises | obj-to-json.py:21-45 | A line whose tokens break the arity rule of their keyword raises that rule's error. These are `v`/`f` without 3 operands, `vt…`/`l` without 2, and `o` alone (the IndexError). |
| ObjProperties.MalformedLineRejected | obj-to-json.py:21-45 | A file with any such line is rejected. If every earlier line passes, it is rejected with that line's arity error. |
| ObjProperties.BlankLineAddsNothing | obj-to-json.py:18-20 | A line that is only whitespace before its first '#' (blank or comment only) has no tokens, raises nothing and adds nothing. |
| ObjProperties.InertEntry | obj-to-json.py:21-45 | A line whose keyword is not `v`, `f`, `vt…`, `vn…` or `l`, and which is not an `o` line that is unnamed or a curve header, is read as ignored or as a plain object. |
| ObjProperties.OtherKeywordAddsNothing | obj-to-json.py:21-45 | Such a line raises nothing and adds nothing to any list. |
| ObjProperties.ScanEnd | obj-to-json.py:47-60 | The scan's stopping line: every line between its start and that line is blank, `v` or `l`, and the stopping line (unless it is the end of the file) is not. |
| ObjProperties.CurveScanKeeps | obj-to-json.py:47-60 | The curve scan changes only `curve_verts` and `curve_lines`. |
| ObjProperties.OuterStep | obj-to-json.py:21-44 | Field by field, what a run of lines adds to `vertices` and `lines` is what its first line adds, followed by what the rest adds. |
| ObjProperties.CurveScanLists | obj-to-json.py:47-60 | The curve scan extends `curve_verts` by the coordinates of the `v` lines it reads, and `curve_lines` by the operands of its `l` lines. It reads up to its stopping line, in order. |
| ObjProperties.CurveScanGathers | obj-to-json.py:47-60 | On success, the curve scan's result is the given lists with exactly those curve data appended, and no other list changed. |
| ObjProperties.LineResultContents | obj-to-json.py:21-60 | A line that passes yields its own keyword data (`OuterData`) plus, for a curve header, the data its scan gathers (`CurveData`). |
| ObjProperties.RunContents | obj-to-json.py:17-60 | After n lines that pass, every list is the concatenation, in file order, of what each line contributed. |
| ObjProperties.ProcessContents | obj-to-json.py:17-64 | On success, each of the nine lists is the file-order concatenation of its per-line contributions. Each list is fed only by its own keyword. |
| ObjProperties.ClassifyShaped | obj-to-json.py:21-44 | Any accepted `v`/`f` line carries 3 values, and any accepted `vt…`/`l` line carries 2. |
| ObjProperties.ReadShaped | obj-to-json.py:17-44 | Every line of every file, as read, satisfies those arity facts. |
| ObjProperties.AppendWellFormed | obj-to-json.py:24 | Extending well-formed lists by well-formed lists keeps them well formed. |
| ObjProperties.OuterDataWellFormed | obj-to-json.py:21-44 | What one accepted line adds is well formed: triples, pairs, and face index lists in step. |
| ObjProperties.OuterWellFormed | obj-to-json.py:17-44 | What any run of lines adds outside the curve lists is well formed. |
| ObjProperties.CurvesWellFormed | obj-to-json.py:45-60 | The curve data of the file are well formed: `curve_verts` in triples, `curve_lines` in pairs. |
| ObjProperties.ProcessWellFormed | obj-to-json.py:17-64 | On success, the following hold: `vertices` and `curve_verts` come in triples; `texture`, `lines` and `curve_lines` come in pairs; `indices` comes in triangles. `texture_inds` and `normal_indices` have the length of `indices`, and `texture_inds[k] == indices[k] + 2` and `normal_indices[k] == indices[k] + 4`. |
| ObjProperties.ConvertedWellFormed | obj-to-json.py:6-64 | The same, for every file the function accepts. |
| ObjProperties.SameTextSameLine | obj-to-json.py:46 | Equal texts in the file are read as equal lines. |
| ObjProperties.FirstIndexOfRecords | obj-to-json.py:46 | When lines are equal exactly where their texts are, the first equal line and the first equal text are at the same position. |
| ObjProperties.ReadKeepsFirstIndex | obj-to-json.py:46 | `file_lines.index(line)` on the texts equals the first position of the line among the read lines. |
| ObjProperties.RepeatedHeaderRescans | obj-to-json.py:45-47 | A curve header at line k that repeats the text of an earlier header at line c gathers that earlier header's curve data. Its scan starts right after the first occurrence of that text, at or before line c+1, and never after itself. |
| ObjProperties.CurvesOfSingleHeader | obj-to-json.py:45-60 | With a single curve header, the curve lists are exactly that header's curve data (once it has been read) and nothing else. |
| ObjProperties.SingleCurveIsSlice | obj-to-json.py:17-60 | With a single curve header at line c, `curve_verts` is a contiguous slice of `vertices`, and `curve_lines` of `lines`. Each slice holds the data of lines c+1 up to the scan's stopping line. |
| ObjProperties.ProcessOuterLists | obj-to-json.py:17-44 | On success, `vertices` and `lines` are the `v` and `l` data of every line of the file, curve section included, in file order. |
| ObjProperties.CurveDataInOuterLists | obj-to-json.py:17-60 | For every curve header in a file that is accepted, whatever the number of headers, `vertices` is the part before its scan, then the `v` data its scan gathers, then the part after its scan's stopping line. `lines` splits the same way with the `l` data. |
| ObjProperties.OuterSplits | obj-to-json.py:21-44 | The `vertices` and `lines` contributed by a run of lines split at any two points into the contributions of the three parts. |

## Left out

- `main`, argparse, opening the files and `json.dump` (obj-to-json.py:66-74). These are
  I/O. The model starts from `readlines()` as a sequence of strings and ends with the
  `ObjDict` value.
- `float()`: turning text into a floating-point number is not modelled.
  - It is the parameter `parseFloat: string -> Option<real>`, where `None` stands for the
    ValueError (obj-to-json.py:24, 38, 40, 54).
  - Every property holds for any such function.
- `int()`: `ParseInt` accepts an optional sign, ASCII decimal digits, leading zeros, and
  single underscores between digits.
  - Non-ASCII decimal digits, which Python's `int()` also accepts, are not modelled.
  - Surrounding whitespace cannot occur, because tokens hold none.
- Numbers.ParseInt: accepts digit runs of any length. Python's `int()` (3.11 and later, and
  the security releases before it) raises ValueError on a decimal text of more than 4300
  digits, and `str()` raises on such a number; the limit is a runtime setting, so it is not
  modelled. `DecimalRoundTrip` and `ParseIntSpec` hold without the limit.
- `lower()`: `Lower` handles ASCII letters only.
  - The only use is the test `'curve' in data[1].lower()`, which looks only for ASCII
    letters.
  - No non-ASCII character lowers to one of c, u, r, v, e. Even the characters whose
    lowercase form is ASCII lower to 'i' or 'k'.
  - So the outcome of the test is the same.
- Error messages: their wording is not modelled. Errors are kinds of `ObjError`:
  - vertex, face and texture arity, each with the operand count the message reports;
  - "Bad lines";
  - the text that `float()` or `int()` rejected;
  - the IndexError of an `o` line without a name.
- The partial `extend` before a `float()`/`int()` error (obj-to-json.py:24, 38, 40, 44, 54,
  58). The exception ends the function and the partly extended lists are never returned,
  so the model rejects the whole line instead.
- The driving simulation of the repository (track following, physics, controls, rendering)
  is not part of this model. Its sources are in another language and another part of the
  repository.
