/**
 * What obj_to_dict promises, proved about the main loop (ObjSpec.Process) and
 * about ObjSpec.Converted: which files it rejects and with which error, what
 * each list holds and in which order, the shape invariants of the lists, and
 * how the curve section relates to the vertex and line lists.
 */
module ObjProperties {
  import opened Results
  import opened Text
  import opened ObjSpec

  // ---------------------------------------------------------------------
  // Appending dictionaries

  /** Appends acc in front of a successful result; an error passes through. */
  function After(acc: ObjDict, r: Result<ObjDict, ObjError>): Result<ObjDict, ObjError> {
    match r
    case Err(e) => Err(e)
    case Ok(d) => Ok(Append(acc, d))
  }

  lemma AppendEmpty(a: ObjDict)
    ensures Append(a, Empty) == a && Append(Empty, a) == a
    ensures a.vertices + [] == a.vertices && a.indices + [] == a.indices
    ensures a.texture + [] == a.texture && a.textureInds + [] == a.textureInds
    ensures a.lines + [] == a.lines && a.curveVerts + [] == a.curveVerts
    ensures a.curveLines + [] == a.curveLines && a.normals + [] == a.normals
    ensures a.normalIndices + [] == a.normalIndices
  {
  }

  lemma EmptyPlus<T>(xs: seq<T>)
    ensures [] + xs == xs
  {
  }

  lemma AppendAssoc(a: ObjDict, b: ObjDict, c: ObjDict)
    ensures Append(Append(a, b), c) == Append(a, Append(b, c))
  {
  }

  lemma AfterAfter(a: ObjDict, b: ObjDict, r: Result<ObjDict, ObjError>)
    ensures After(a, After(b, r)) == After(Append(a, b), r)
  {
    if r.Ok? { AppendAssoc(a, b, r.value); }
  }

  // ---------------------------------------------------------------------
  // Processing only ever appends

  /** The curve scan only appends to what it is given, and whether it raises
      (and what) does not depend on what was collected before. */
  lemma {:induction false} CurveScanAppends(src: seq<Line>, i: nat, acc: ObjDict)
    ensures CurveScan(src, i, acc) == After(acc, CurveScan(src, i, Empty))
    decreases |src| - i
  {
    AppendEmpty(acc);
    if i < |src| {
      match src[i].entry
      case Blank =>
        CurveScanAppends(src, i + 1, acc);
      case Vertex(Ok(xs)) =>
        var b := Empty.(curveVerts := Empty.curveVerts + xs);
        CurveScanAppends(src, i + 1, acc.(curveVerts := acc.curveVerts + xs));
        CurveScanAppends(src, i + 1, b);
        AfterAfter(acc, b, CurveScan(src, i + 1, Empty));
        EmptyPlus(xs);
      case Segment(Ok(ns)) =>
        var b := Empty.(curveLines := Empty.curveLines + ns);
        CurveScanAppends(src, i + 1, acc.(curveLines := acc.curveLines + ns));
        CurveScanAppends(src, i + 1, b);
        AfterAfter(acc, b, CurveScan(src, i + 1, Empty));
        EmptyPlus(ns);
      case _ =>
    }
  }

  /** One pass of the main loop appends what the line alone yields to the
      dictionary so far, or raises what the line alone raises. */
  lemma ProcessLineAppends(src: seq<Line>, k: nat, acc: ObjDict)
    requires k < |src|
    ensures ProcessLine(src, k, acc) == After(acc, LineResult(src, k))
  {
    AppendEmpty(acc);
    match src[k].entry
    case Vertex(Ok(xs)) => EmptyPlus(xs);
    case Face(Ok(ns)) =>
      EmptyPlus(Offset(ns, -1));
      EmptyPlus(Offset(ns, 1));
      EmptyPlus(Offset(ns, 3));
    case TexCoord(Ok(xs)) => EmptyPlus(xs);
    case Normal(Ok(xs)) => EmptyPlus(xs);
    case Segment(Ok(ns)) => EmptyPlus(ns);
    case Object(true) => CurveScanAppends(src, FirstIndex(src, src[k]) + 1, acc);
    case _ =>
  }

  // ---------------------------------------------------------------------
  // Which files are rejected, and with which error

  /** Line k is the first line of the file whose pass of the main loop raises. */
  predicate FirstFailure(src: seq<Line>, k: nat) {
    && k < |src|
    && LineResult(src, k).Err?
    && forall j :: 0 <= j < k ==> LineResult(src, j).Ok?
  }

  lemma {:induction false} RunOutcome(src: seq<Line>, n: nat)
    requires n <= |src|
    ensures Run(src, n).Ok? <==> forall k :: 0 <= k < n ==> LineResult(src, k).Ok?
    ensures Run(src, n).Err? ==>
      exists k: nat :: k < n && FirstFailure(src, k) && LineResult(src, k).error == Run(src, n).error
    decreases n
  {
    if n > 0 {
      RunOutcome(src, n - 1);
      if Run(src, n - 1).Ok? {
        ProcessLineAppends(src, n - 1, Run(src, n - 1).value);
        if Run(src, n).Err? {
          assert FirstFailure(src, n - 1);
        }
      }
    }
  }

  /** The main loop succeeds exactly when no line raises on its own, and
      otherwise raises the error of the first line that does. */
  lemma ProcessOutcome(src: seq<Line>)
    ensures Process(src).Ok? <==> forall k :: 0 <= k < |src| ==> LineResult(src, k).Ok?
    ensures Process(src).Err? ==>
      exists k: nat :: FirstFailure(src, k) && LineResult(src, k).error == Process(src).error
  {
    RunOutcome(src, |src|);
  }

  /** One more pass of the main loop, after passes that did not raise. */
  lemma RunStep(src: seq<Line>, n: nat, acc: ObjDict)
    requires n < |src| && Run(src, n) == Ok(acc)
    ensures Run(src, n + 1) == ProcessLine(src, n, acc)
  {
  }

  /** Once a pass raises, the main loop raises that error. */
  lemma {:induction false} ErrorSticks(src: seq<Line>, n: nat, m: nat)
    requires n <= m <= |src|
    requires Run(src, n).Err?
    ensures Run(src, m) == Run(src, n)
    decreases m - n
  {
    if n < m {
      ErrorSticks(src, n, m - 1);
    }
  }

  /** A line that breaks the arity rule of its keyword, or an `o` line without a name. */
  predicate BreaksArity(data: seq<string>) {
    && data != []
    && ((data[0] == "v" && |data| != 4)
        || (data[0] == "f" && |data| != 4)
        || ("vt" <= data[0] && |data| != 3)
        || (data[0] == "l" && |data| != 3)
        || (data[0] == "o" && |data| == 1))
  }

  /** The error a malformed line raises. */
  function ArityError(data: seq<string>): ObjError
    requires BreaksArity(data)
  {
    if data[0] == "v" then VertexArity(|data| - 1)
    else if data[0] == "f" then FaceArity(|data| - 1)
    else if "vt" <= data[0] then TextureArity(|data| - 1)
    else if data[0] == "l" then BadLines
    else MissingObjectName
  }

  /** A line whose tokens break the arity rule raises that arity error on its own. */
  lemma MalformedEntryRaises(src: seq<Line>, k: nat, data: seq<string>, pf: FloatParser)
    requires k < |src| && src[k].entry == Classify(data, pf) && BreaksArity(data)
    ensures LineResult(src, k) == Err(ArityError(data))
  {
  }

  /** A `v` or `f` line without 3 operands, a `vt…` or `l` line without 2, and
      an unnamed `o` line make obj_to_dict raise; when no earlier line raised,
      it raises exactly that line's arity error. */
  lemma MalformedLineRejected(fileLines: seq<string>, k: nat, pf: FloatParser)
    requires k < |fileLines| && BreaksArity(LineTokens(fileLines[k]))
    ensures Converted(fileLines, pf).Err?
    ensures (forall j :: 0 <= j < k ==> LineResult(Read(fileLines, pf), j).Ok?) ==>
      Converted(fileLines, pf) == Err(ArityError(LineTokens(fileLines[k])))
  {
    var src := Read(fileLines, pf);
    var data := LineTokens(fileLines[k]);
    ReadAt(fileLines, pf, k);
    MalformedEntryRaises(src, k, data, pf);
    ProcessOutcome(src);
    if forall j :: 0 <= j < k ==> LineResult(src, j).Ok? {
      var j: nat :| FirstFailure(src, j) && LineResult(src, j).error == Process(src).error;
      assert j == k;
    }
  }

  /** A line that holds only whitespace before its first '#' (a blank or
      comment line) raises nothing and adds nothing to any list. */
  lemma BlankLineAddsNothing(fileLines: seq<string>, pf: FloatParser, k: nat)
    requires k < |fileLines| && AllSpace(TakeUntil(fileLines[k], '#'))
    ensures Read(fileLines, pf)[k].entry == Blank
    ensures LineResult(Read(fileLines, pf), k) == Ok(Empty)
  {
    ReadAt(fileLines, pf, k);
    StripIsIrrelevant(fileLines[k]);
    SplitEmptyIffBlank(TakeUntil(fileLines[k], '#'));
  }

  /** The tokens of a line whose keyword the reader does not act on: an
      unknown keyword, or `o` with a name that does not contain "curve". */
  predicate Inert(data: seq<string>) {
    && data != []
    && data[0] != "v" && data[0] != "f" && !("vt" <= data[0]) && !("vn" <= data[0]) && data[0] != "l"
    && (data[0] == "o" ==> |data| >= 2 && !IsCurveHeader(data))
  }

  lemma ClassifyInert(data: seq<string>, pf: FloatParser)
    requires Inert(data)
    ensures Classify(data, pf) == Ignored || Classify(data, pf) == Object(false)
  {
  }

  /** A line whose first token is none of the keywords the reader knows, or an
      `o` line whose name does not contain "curve", raises nothing and adds nothing. */
  lemma OtherKeywordAddsNothing(fileLines: seq<string>, pf: FloatParser, k: nat)
    requires k < |fileLines| && Inert(LineTokens(fileLines[k]))
    ensures LineResult(Read(fileLines, pf), k) == Ok(Empty)
  {
    InertEntry(fileLines, pf, k);
    InertAddsNothing(Read(fileLines, pf), k);
  }

  /** Such a line is read as an ignored keyword or a plain object name. */
  lemma InertEntry(fileLines: seq<string>, pf: FloatParser, k: nat)
    requires k < |fileLines| && Inert(LineTokens(fileLines[k]))
    ensures Read(fileLines, pf)[k].entry == Ignored || Read(fileLines, pf)[k].entry == Object(false)
  {
    ReadEntry(fileLines, pf, k);
    ClassifyInert(LineTokens(fileLines[k]), pf);
  }

  /** Neither entry changes the lists. */
  lemma InertAddsNothing(src: seq<Line>, k: nat)
    requires k < |src| && (src[k].entry == Ignored || src[k].entry == Object(false))
    ensures LineResult(src, k) == Ok(Empty)
  {
  }

  // ---------------------------------------------------------------------
  // What each list holds, line by line

  /** What one line adds to the seven lists outside the curve section: each
      list from the one keyword that feeds it, nothing from any other line. */
  function OuterData(line: Line): ObjDict {
    match line.entry
    case Vertex(Ok(xs)) => Empty.(vertices := xs)
    case Face(Ok(ns)) =>
      Empty.(indices := Offset(ns, -1), textureInds := Offset(ns, 1), normalIndices := Offset(ns, 3))
    case TexCoord(Ok(xs)) => Empty.(texture := xs)
    case Normal(Ok(xs)) => Empty.(normals := xs)
    case Segment(Ok(ns)) => Empty.(lines := ns)
    case _ => Empty
  }


  /** The concatenation of OuterData over the lines j .. e-1, in file order. */
  function Outer(src: seq<Line>, j: nat, e: nat): ObjDict
    requires j <= e <= |src|
    decreases e - j
  {
    if j == e then Empty else Append(OuterData(src[j]), Outer(src, j + 1, e))
  }

  /** Lines a curve scan reads on: blank, `v` and `l` lines. */
  predicate IsScanEntry(e: Entry) {
    e.Blank? || e.Vertex? || e.Segment?
  }

  /** Where a curve scan that starts at line i stops: the first line from i on
      that is not blank, `v` or `l`, or the end of the file. */
  function ScanEnd(src: seq<Line>, i: nat): (e: nat)
    requires i <= |src|
    ensures i <= e <= |src|
    ensures forall m :: i <= m < e ==> IsScanEntry(src[m].entry)
    ensures e < |src| ==> !IsScanEntry(src[e].entry)
    decreases |src| - i
  {
    if i == |src| then i
    else if IsScanEntry(src[i].entry) then ScanEnd(src, i + 1)
    else i
  }

  /** What line k adds to the two curve lists: for a curve header, the `v` and
      `l` data of the lines its scan reads, the scan starting after the FIRST
      line of the file equal to line k. */
  function CurveData(src: seq<Line>, k: nat): ObjDict
    requires k < |src|
  {
    if src[k].entry == Object(true) then
      var s := FirstIndex(src, src[k]) + 1;
      var g := Outer(src, s, ScanEnd(src, s));
      Empty.(curveVerts := g.vertices, curveLines := g.lines)
    else Empty
  }

  /** The concatenation of CurveData over the first n lines. */
  function Curves(src: seq<Line>, n: nat): ObjDict
    requires n <= |src|
  {
    if n == 0 then Empty else Append(Curves(src, n - 1), CurveData(src, n - 1))
  }

  predicate NoCurves(d: ObjDict) {
    d.curveVerts == [] && d.curveLines == []
  }

  predicate OnlyCurves(d: ObjDict) {
    && d.vertices == [] && d.indices == [] && d.texture == [] && d.textureInds == []
    && d.lines == [] && d.normals == [] && d.normalIndices == []
  }

  lemma {:induction false} OuterSplit(src: seq<Line>, i: nat, j: nat, e: nat)
    requires i <= j <= e <= |src|
    ensures Outer(src, i, e) == Append(Outer(src, i, j), Outer(src, j, e))
    decreases j - i
  {
    if i == j {
      AppendEmpty(Outer(src, j, e));
    } else {
      var d := OuterData(src[i]);
      calc {
        Outer(src, i, e);
        Append(d, Outer(src, i + 1, e));
        { OuterSplit(src, i + 1, j, e); }
        Append(d, Append(Outer(src, i + 1, j), Outer(src, j, e)));
        { AppendAssoc(d, Outer(src, i + 1, j), Outer(src, j, e)); }
        Append(Append(d, Outer(src, i + 1, j)), Outer(src, j, e));
        Append(Outer(src, i, j), Outer(src, j, e));
      }
    }
  }

  lemma {:induction false} OuterHasNoCurves(src: seq<Line>, j: nat, e: nat)
    requires j <= e <= |src|
    ensures NoCurves(Outer(src, j, e))
    decreases e - j
  {
    if j < e {
      OuterHasNoCurves(src, j + 1, e);
      var d, rest := OuterData(src[j]), Outer(src, j + 1, e);
      assert Outer(src, j, e) == Append(d, rest);
      assert d.curveVerts == [] && d.curveLines == [];
      assert [] + rest.curveVerts == [] && [] + rest.curveLines == [];
    }
  }

  lemma {:induction false} CurvesOnlyCurves(src: seq<Line>, n: nat)
    requires n <= |src|
    ensures OnlyCurves(Curves(src, n))
  {
    if n > 0 {
      CurvesOnlyCurves(src, n - 1);
      var c, d := Curves(src, n - 1), CurveData(src, n - 1);
      assert OnlyCurves(d);
      assert Curves(src, n) == Append(c, d);
      EmptyPlus<real>([]);
      EmptyPlus<int>([]);
    }
  }

  /** The curve scan only ever changes the two curve lists. */
  lemma {:induction false} CurveScanKeeps(src: seq<Line>, i: nat, acc: ObjDict)
    ensures var r := CurveScan(src, i, acc);
      r.Ok? ==> r.value == acc.(curveVerts := r.value.curveVerts, curveLines := r.value.curveLines)
    decreases |src| - i
  {
    if i < |src| {
      match src[i].entry
      case Blank => CurveScanKeeps(src, i + 1, acc);
      case Vertex(r) =>
        if r.Ok? { CurveScanKeeps(src, i + 1, acc.(curveVerts := acc.curveVerts + r.value)); }
      case Segment(r) =>
        if r.Ok? { CurveScanKeeps(src, i + 1, acc.(curveLines := acc.curveLines + r.value)); }
      case _ =>
    }
  }

  /** Outer, field by field, on its first line and the rest. */
  lemma OuterStep(src: seq<Line>, i: nat, e: nat)
    requires i < e <= |src|
    ensures Outer(src, i, e).vertices == OuterData(src[i]).vertices + Outer(src, i + 1, e).vertices
    ensures Outer(src, i, e).lines == OuterData(src[i]).lines + Outer(src, i + 1, e).lines
  {
  }

  /** The curve scan from line i extends the curve lists by the `v` and `l`
      data of the lines it reads. */
  lemma {:induction false} CurveScanLists(src: seq<Line>, i: nat, acc: ObjDict)
    requires i <= |src|
    ensures var r := CurveScan(src, i, acc);
      var g := Outer(src, i, ScanEnd(src, i));
      r.Ok? ==> (r.value.curveVerts == acc.curveVerts + g.vertices &&
                 r.value.curveLines == acc.curveLines + g.lines)
    decreases |src| - i
  {
    var e := ScanEnd(src, i);
    if e == i {
      assert acc.curveVerts + [] == acc.curveVerts && acc.curveLines + [] == acc.curveLines;
    } else {
      assert ScanEnd(src, i + 1) == e;
      OuterStep(src, i, e);
      var g := Outer(src, i + 1, e);
      var d := OuterData(src[i]);
      match src[i].entry
      case Blank =>
        assert d.vertices == [] && d.lines == [];
        assert CurveScan(src, i, acc) == CurveScan(src, i + 1, acc);
        CurveScanLists(src, i + 1, acc);
        assert [] + g.vertices == g.vertices && [] + g.lines == g.lines;
      case Vertex(r) =>
        if r.Ok? {
          assert d.vertices == r.value && d.lines == [];
          var next := acc.(curveVerts := acc.curveVerts + r.value);
          assert CurveScan(src, i, acc) == CurveScan(src, i + 1, next);
          CurveScanLists(src, i + 1, next);
          assert [] + g.lines == g.lines;
          assert next.curveVerts + g.vertices == acc.curveVerts + (r.value + g.vertices);
        }
      case Segment(r) =>
        if r.Ok? {
          assert d.vertices == [] && d.lines == r.value;
          var next := acc.(curveLines := acc.curveLines + r.value);
          assert CurveScan(src, i, acc) == CurveScan(src, i + 1, next);
          CurveScanLists(src, i + 1, next);
          assert [] + g.vertices == g.vertices;
          assert next.curveLines + g.lines == acc.curveLines + (r.value + g.lines);
        }
    }
  }

  /** The curve scan from line i adds the `v` data of the scanned lines to
      curveVerts and their `l` data to curveLines, and changes nothing else. */
  lemma CurveScanGathers(src: seq<Line>, i: nat, acc: ObjDict)
    requires i <= |src|
    ensures var r := CurveScan(src, i, acc);
      var g := Outer(src, i, ScanEnd(src, i));
      r.Ok? ==> r.value == acc.(curveVerts := acc.curveVerts + g.vertices,
                                curveLines := acc.curveLines + g.lines)
  {
    CurveScanKeeps(src, i, acc);
    CurveScanLists(src, i, acc);
  }

  /** A successful pass over line k alone yields exactly its OuterData and CurveData. */
  lemma LineResultContents(src: seq<Line>, k: nat)
    requires k < |src|
    ensures LineResult(src, k).Ok? ==>
      LineResult(src, k).value == Append(OuterData(src[k]), CurveData(src, k))
  {
    AppendEmpty(OuterData(src[k]));
    AppendEmpty(CurveData(src, k));
    if src[k].entry == Object(true) {
      CurveScanGathers(src, FirstIndex(src, src[k]) + 1, Empty);
    }
  }

  lemma Interchange(o: ObjDict, c: ObjDict, d: ObjDict, e: ObjDict)
    requires NoCurves(o) && NoCurves(d) && OnlyCurves(c) && OnlyCurves(e)
    ensures Append(Append(o, c), Append(d, e)) == Append(Append(o, d), Append(c, e))
  {
  }

  lemma {:induction false} RunContents(src: seq<Line>, n: nat)
    requires n <= |src|
    ensures Run(src, n).Ok? ==> Run(src, n).value == Append(Outer(src, 0, n), Curves(src, n))
    decreases n
  {
    if n == 0 {
      AppendEmpty(Empty);
    } else if Run(src, n).Ok? {
      var m := n - 1;
      RunContents(src, m);
      ProcessLineAppends(src, m, Run(src, m).value);
      LineResultContents(src, m);
      OuterSplit(src, 0, m, n);
      AppendEmpty(OuterData(src[m]));
      OuterHasNoCurves(src, 0, m);
      CurvesOnlyCurves(src, m);
      Interchange(Outer(src, 0, m), Curves(src, m), OuterData(src[m]), CurveData(src, m));
    }
  }

  /** On success, every list is the concatenation, in file order, of what each
      line contributes: `v` lines feed vertices, `f` lines the three index lists,
      `vt…` lines texture, `vn…` lines normals, `l` lines lines, and each curve
      header the `v` and `l` data of the lines its scan reads. Other lines add nothing. */
  lemma ProcessContents(src: seq<Line>)
    ensures Process(src).Ok? ==> Process(src).value == Append(Outer(src, 0, |src|), Curves(src, |src|))
  {
    RunContents(src, |src|);
  }

  // ---------------------------------------------------------------------
  // Shape of the lists

  /** The arity checks of the reader, as they show in an entry: a converted
      `v` line has 3 values, an `f` line 3 numbers, a `vt…` line 2 values and
      an `l` line 2 operands. */
  predicate Shaped(e: Entry) {
    && (e.Vertex? && e.coords.Ok? ==> |e.coords.value| == 3)
    && (e.Face? && e.numbers.Ok? ==> |e.numbers.value| == 3)
    && (e.TexCoord? && e.values.Ok? ==> |e.values.value| == 2)
    && (e.Segment? && e.refs.Ok? ==> |e.refs.value| == 2)
  }

  predicate AllShaped(src: seq<Line>) {
    forall k :: 0 <= k < |src| ==> Shaped(src[k].entry)
  }

  lemma ClassifyShaped(data: seq<string>, pf: FloatParser)
    ensures Shaped(Classify(data, pf))
  {
  }

  /** Every line of a file, as the reader classifies it, passed the arity checks. */
  lemma ReadShaped(fileLines: seq<string>, pf: FloatParser)
    ensures AllShaped(Read(fileLines, pf))
  {
    var src := Read(fileLines, pf);
    forall k | 0 <= k < |src| ensures Shaped(src[k].entry) {
      ReadAt(fileLines, pf, k);
      ClassifyShaped(LineTokens(fileLines[k]), pf);
    }
  }

  /** The three index lists of the faces run in step: the same length, and the
      texture and normal index of every corner are its vertex index + 2 and + 4. */
  predicate FacesAligned(d: ObjDict) {
    && |d.textureInds| == |d.indices|
    && |d.normalIndices| == |d.indices|
    && forall k :: 0 <= k < |d.indices| ==>
         d.textureInds[k] == d.indices[k] + 2 && d.normalIndices[k] == d.indices[k] + 4
  }

  /** The shape of a converted file: coordinates in triples (vertices, curve
      vertices) or pairs (texture), indices in triangles, line operands in pairs. */
  predicate WellFormed(d: ObjDict) {
    && |d.vertices| % 3 == 0
    && |d.indices| % 3 == 0
    && |d.texture| % 2 == 0
    && |d.lines| % 2 == 0
    && |d.curveVerts| % 3 == 0
    && |d.curveLines| % 2 == 0
    && FacesAligned(d)
  }

  lemma AppendWellFormed(a: ObjDict, b: ObjDict)
    requires WellFormed(a) && WellFormed(b)
    ensures WellFormed(Append(a, b))
  {
    var c := Append(a, b);
    var n := |a.indices|;
    forall k | 0 <= k < |c.indices|
      ensures c.textureInds[k] == c.indices[k] + 2 && c.normalIndices[k] == c.indices[k] + 4
    {
      if k < n {
        assert c.indices[k] == a.indices[k] && c.textureInds[k] == a.textureInds[k];
        assert c.normalIndices[k] == a.normalIndices[k];
      } else {
        assert c.indices[k] == b.indices[k - n] && c.textureInds[k] == b.textureInds[k - n];
        assert c.normalIndices[k] == b.normalIndices[k - n];
      }
    }
  }

  lemma OuterDataWellFormed(line: Line)
    requires Shaped(line.entry)
    ensures WellFormed(OuterData(line))
  {
    if line.entry.Face? && line.entry.numbers.Ok? {
      var ns := line.entry.numbers.value;
      forall k | 0 <= k < |ns|
        ensures Offset(ns, 1)[k] == Offset(ns, -1)[k] + 2
        ensures Offset(ns, 3)[k] == Offset(ns, -1)[k] + 4
      {
        OffsetAt(ns, -1, k);
        OffsetAt(ns, 1, k);
        OffsetAt(ns, 3, k);
      }
    }
  }

  lemma {:induction false} OuterWellFormed(src: seq<Line>, j: nat, e: nat)
    requires AllShaped(src) && j <= e <= |src|
    ensures WellFormed(Outer(src, j, e))
    decreases e - j
  {
    if j < e {
      OuterDataWellFormed(src[j]);
      OuterWellFormed(src, j + 1, e);
      AppendWellFormed(OuterData(src[j]), Outer(src, j + 1, e));
    }
  }

  lemma {:induction false} CurvesWellFormed(src: seq<Line>, n: nat)
    requires AllShaped(src) && n <= |src|
    ensures WellFormed(Curves(src, n))
  {
    if n > 0 {
      var k := n - 1;
      CurvesWellFormed(src, k);
      if src[k].entry == Object(true) {
        var s := FirstIndex(src, src[k]) + 1;
        OuterWellFormed(src, s, ScanEnd(src, s));
      }
      AppendWellFormed(Curves(src, k), CurveData(src, k));
    }
  }

  /** Whatever file the reader accepts, the lists it returns have the shape of
      WellFormed. */
  lemma ProcessWellFormed(src: seq<Line>)
    requires AllShaped(src)
    ensures Process(src).Ok? ==> WellFormed(Process(src).value)
  {
    ProcessContents(src);
    OuterWellFormed(src, 0, |src|);
    CurvesWellFormed(src, |src|);
    AppendWellFormed(Outer(src, 0, |src|), Curves(src, |src|));
  }

  lemma ConvertedWellFormed(fileLines: seq<string>, pf: FloatParser)
    ensures Converted(fileLines, pf).Ok? ==> WellFormed(Converted(fileLines, pf).value)
  {
    ReadShaped(fileLines, pf);
    ProcessWellFormed(Read(fileLines, pf));
  }

  // ---------------------------------------------------------------------
  // The curve section

  /** Equal texts of the file are read as equal lines. */
  lemma SameTextSameLine(fileLines: seq<string>, pf: FloatParser, c: nat, k: nat)
    requires c < |fileLines| && k < |fileLines| && fileLines[c] == fileLines[k]
    ensures Read(fileLines, pf)[c] == Read(fileLines, pf)[k]
  {
    ReadAt(fileLines, pf, c);
    ReadAt(fileLines, pf, k);
  }

  /** When records are equal exactly where their texts are, the first record
      equal to record k sits where the first text equal to text k does. */
  lemma FirstIndexOfRecords(src: seq<Line>, texts: seq<string>, k: nat)
    requires |src| == |texts| && k < |src|
    requires forall j :: 0 <= j < |src| ==> src[j].text == texts[j]
    requires forall j :: 0 <= j < |src| && texts[j] == texts[k] ==> src[j] == src[k]
    ensures FirstIndex(src, src[k]) == FirstIndex(texts, texts[k])
  {
    var r := FirstIndex(texts, texts[k]);
    var q := FirstIndex(src, src[k]);
    assert src[r] == src[k];
    assert texts[q] == src[q].text == src[k].text == texts[k];
  }

  /** list.index() on readlines() compares texts; comparing the read lines
      instead picks the same first occurrence. */
  lemma ReadKeepsFirstIndex(fileLines: seq<string>, pf: FloatParser, k: nat)
    requires k < |fileLines|
    ensures var src := Read(fileLines, pf);
      FirstIndex(src, src[k]) == FirstIndex(fileLines, fileLines[k])
  {
    var src := Read(fileLines, pf);
    forall j | 0 <= j < |src| ensures src[j].text == fileLines[j] {
      ReadAt(fileLines, pf, j);
    }
    forall j | 0 <= j < |src| && fileLines[j] == fileLines[k] ensures src[j] == src[k] {
      SameTextSameLine(fileLines, pf, j, k);
    }
    FirstIndexOfRecords(src, fileLines, k);
  }

  /** A curve header repeated later in the file reads the section after its
      first occurrence again, not the lines after itself. */
  lemma RepeatedHeaderRescans(src: seq<Line>, c: nat, k: nat)
    requires c < k < |src| && src[k] == src[c] && src[c].entry == Object(true)
    ensures CurveData(src, k) == CurveData(src, c)
    ensures FirstIndex(src, src[k]) <= c
  {
  }

  /** Line c is the one curve header of the file. */
  predicate OnlyCurveHeader(src: seq<Line>, c: nat) {
    && c < |src|
    && src[c].entry == Object(true)
    && forall k :: 0 <= k < |src| && src[k].entry == Object(true) ==> k == c
  }

  lemma {:induction false} CurvesOfSingleHeader(src: seq<Line>, c: nat, n: nat)
    requires OnlyCurveHeader(src, c) && n <= |src|
    ensures Curves(src, n) == if c < n then CurveData(src, c) else Empty
  {
    if n > 0 {
      CurvesOfSingleHeader(src, c, n - 1);
      if n - 1 == c {
        AppendEmpty(CurveData(src, c));
      } else {
        assert src[n - 1].entry != Object(true);
        AppendEmpty(Curves(src, n - 1));
      }
    }
  }

  /** With a single curve header at line c, the curve lists are exactly the
      `v` and `l` data of the lines its scan reads, and since the main loop
      reads those lines too, they appear unchanged and contiguous inside
      vertices and lines. */
  lemma SingleCurveIsSlice(src: seq<Line>, c: nat)
    requires OnlyCurveHeader(src, c)
    ensures var s := c + 1;
      var e := ScanEnd(src, s);
      var r := Process(src);
      r.Ok? ==>
        && r.value.curveVerts == Outer(src, s, e).vertices
        && r.value.curveLines == Outer(src, s, e).lines
        && r.value.vertices == Outer(src, 0, s).vertices + r.value.curveVerts + Outer(src, e, |src|).vertices
        && r.value.lines == Outer(src, 0, s).lines + r.value.curveLines + Outer(src, e, |src|).lines
  {
    var s := c + 1;
    var e := ScanEnd(src, s);
    if Process(src).Ok? {
      var o, g := Outer(src, 0, |src|), Outer(src, s, e);
      assert FirstIndex(src, src[c]) == c;
      assert CurveData(src, c) == Empty.(curveVerts := g.vertices, curveLines := g.lines);
      ProcessContents(src);
      CurvesOfSingleHeader(src, c, |src|);
      OuterHasNoCurves(src, 0, |src|);
      OuterSplits(src, 0, s, e, |src|);
      EmptyPlus(g.vertices);
      EmptyPlus(g.lines);
      AppendEmpty(o);
    }
  }

  /** On success, `vertices` and `lines` hold the outer data of all lines and
      nothing from the curve section's bookkeeping. */
  lemma ProcessOuterLists(src: seq<Line>)
    requires Process(src).Ok?
    ensures Process(src).value.vertices == Outer(src, 0, |src|).vertices
    ensures Process(src).value.lines == Outer(src, 0, |src|).lines
  {
    var o, c := Outer(src, 0, |src|), Curves(src, |src|);
    ProcessContents(src);
    CurvesOnlyCurves(src, |src|);
    assert Process(src).value.vertices == o.vertices + c.vertices;
    assert Process(src).value.lines == o.lines + c.lines;
    assert o.vertices + [] == o.vertices && o.lines + [] == o.lines;
  }

  /** With any number of curve headers, the curve data each header gathers also
      stands in `vertices` and `lines`, as the contiguous part read by its scan:
      the main loop reads the scanned lines too. */
  lemma CurveDataInOuterLists(src: seq<Line>, k: nat)
    requires k < |src| && src[k].entry == Object(true) && Process(src).Ok?
    ensures var s := FirstIndex(src, src[k]) + 1;
      var e := ScanEnd(src, s);
      var r := Process(src).value;
      && r.vertices == Outer(src, 0, s).vertices + CurveData(src, k).curveVerts + Outer(src, e, |src|).vertices
      && r.lines == Outer(src, 0, s).lines + CurveData(src, k).curveLines + Outer(src, e, |src|).lines
  {
    var s := FirstIndex(src, src[k]) + 1;
    var e := ScanEnd(src, s);
    var g := Outer(src, s, e);
    assert CurveData(src, k).curveVerts == g.vertices && CurveData(src, k).curveLines == g.lines;
    ProcessOuterLists(src);
    OuterSplits(src, 0, s, e, |src|);
  }

  lemma OuterSplits(src: seq<Line>, i: nat, j: nat, k: nat, n: nat)
    requires i <= j <= k <= n <= |src|
    ensures Outer(src, i, n).vertices == Outer(src, i, j).vertices + Outer(src, j, k).vertices + Outer(src, k, n).vertices
    ensures Outer(src, i, n).lines == Outer(src, i, j).lines + Outer(src, j, k).lines + Outer(src, k, n).lines
  {
    OuterSplit(src, i, j, n);
    OuterSplit(src, j, k, n);
  }
}
