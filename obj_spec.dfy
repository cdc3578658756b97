/**
 * The meaning of obj_to_dict: one OBJ file, given as the list of its lines,
 * becomes either the nine flat lists of the JSON document or the error the
 * reader raises. The lines are processed in order; a line whose object name
 * holds "curve" also scans the lines after it for the track centre-line.
 */
module ObjSpec {
  import opened Results
  import opened Text
  import opened Numbers

  /** The exceptions obj_to_dict can raise, by kind. */
  datatype ObjError =
    | VertexArity(dims: int)       // a `v` line without exactly 3 coordinates
    | FaceArity(corners: int)      // an `f` line without exactly 3 references
    | TextureArity(dims: int)      // a `vt…` line without exactly 2 values
    | BadLines                     // an `l` line without exactly 2 operands
    | BadFloat(text: string)       // float(text) failed
    | BadInt(text: string)         // int(text) failed
    | MissingObjectName            // an `o` line with no name (IndexError)

  /** The dictionary obj_to_dict returns: always exactly these nine lists. */
  datatype ObjDict = ObjDict(
    vertices: seq<real>,
    indices: seq<int>,
    texture: seq<real>,
    textureInds: seq<int>,
    lines: seq<int>,
    curveVerts: seq<real>,
    curveLines: seq<int>,
    normals: seq<real>,
    normalIndices: seq<int>)

  const Empty := ObjDict([], [], [], [], [], [], [], [], [])

  /** Extends every list of `a` by the corresponding list of `b`. */
  function Append(a: ObjDict, b: ObjDict): ObjDict {
    ObjDict(
      a.vertices + b.vertices, a.indices + b.indices, a.texture + b.texture,
      a.textureInds + b.textureInds, a.lines + b.lines, a.curveVerts + b.curveVerts,
      a.curveLines + b.curveLines, a.normals + b.normals, a.normalIndices + b.normalIndices)
  }

  /** float(text); None stands for the ValueError. How text becomes a number is not modelled. */
  type FloatParser = string -> Option<real>

  function FloatError(t: string): ObjError { BadFloat(t) }

  function IntError(t: string): ObjError { BadInt(t) }

  /** int() of the part of a face reference before its first '/'. */
  function FaceRef(t: string): Option<int> { ParseInt(TakeUntil(t, '/')) }

  function FaceRefError(t: string): ObjError { BadInt(TakeUntil(t, '/')) }

  /** Converts every token in order; the first token that does not convert raises
      (ParseEachSpec states which). */
  function ParseEach<T>(ts: seq<string>, parse: string -> Option<T>, fail: string -> ObjError)
    : (r: Result<seq<T>, ObjError>)
    ensures r.Ok? ==> |r.value| == |ts|
    decreases |ts|
  {
    if ts == [] then Ok([])
    else
      var last := ts[|ts| - 1];
      match ParseEach(ts[..|ts| - 1], parse, fail)
      case Err(e) => Err(e)
      case Ok(xs) =>
        match parse(last)
        case None => Err(fail(last))
        case Some(x) => Ok(xs + [x])
  }

  /** ParseEach succeeds exactly when every token converts, yields the values in
      order, and otherwise raises on the first token that does not convert. */
  lemma {:induction false} ParseEachSpec<T>(ts: seq<string>, parse: string -> Option<T>, fail: string -> ObjError)
    ensures var r := ParseEach(ts, parse, fail);
      && (r.Ok? <==> forall i :: 0 <= i < |ts| ==> parse(ts[i]).Some?)
      && (r.Ok? ==> forall i :: 0 <= i < |ts| ==> parse(ts[i]) == Some(r.value[i]))
      && (r.Err? ==> exists i :: 0 <= i < |ts| && parse(ts[i]).None? && r.error == fail(ts[i])
                                && forall j :: 0 <= j < i ==> parse(ts[j]).Some?)
    decreases |ts|
  {
    if ts != [] {
      var init := ts[..|ts| - 1];
      ParseEachSpec(init, parse, fail);
      assert forall i :: 0 <= i < |init| ==> init[i] == ts[i];
    }
  }

  /** Once a prefix of the tokens fails to convert, the whole list fails with the same error. */
  lemma {:induction false} ParseEachStops<T>(ts: seq<string>, parse: string -> Option<T>, fail: string -> ObjError, j: nat)
    requires j <= |ts| && ParseEach(ts[..j], parse, fail).Err?
    ensures ParseEach(ts, parse, fail) == ParseEach(ts[..j], parse, fail)
    decreases |ts| - j
  {
    if j < |ts| {
      assert ts[..j + 1][..j] == ts[..j];
      ParseEachStops(ts, parse, fail, j + 1);
    } else {
      assert ts[..j] == ts;
    }
  }

  /** The coordinates of a `v` line (data[0] is the keyword). */
  function VertexCoords(data: seq<string>, pf: FloatParser): (r: Result<seq<real>, ObjError>)
    ensures r.Ok? ==> |r.value| == 3
  {
    if |data| != 4 then Err(VertexArity(|data| - 1)) else ParseEach(data[1..], pf, FloatError)
  }

  /** The three vertex numbers of an `f` line, as written in the file (1-based). */
  function FaceNumbers(data: seq<string>): (r: Result<seq<int>, ObjError>)
    ensures r.Ok? ==> |r.value| == 3
  {
    if |data| != 4 then Err(FaceArity(|data| - 1)) else ParseEach(data[1..], FaceRef, FaceRefError)
  }

  /** The two values of a `vt…` line. */
  function TextureCoords(data: seq<string>, pf: FloatParser): (r: Result<seq<real>, ObjError>)
    ensures r.Ok? ==> |r.value| == 2
  {
    if |data| != 3 then Err(TextureArity(|data| - 1)) else ParseEach(data[1..], pf, FloatError)
  }

  /** All values of a `vn…` line: the reader checks no arity here. */
  function NormalCoords(data: seq<string>, pf: FloatParser): (r: Result<seq<real>, ObjError>)
    requires data != []
    ensures r.Ok? ==> |r.value| == |data| - 1
  {
    ParseEach(data[1..], pf, FloatError)
  }

  /** The two operands of an `l` line. */
  function LineRefs(data: seq<string>): (r: Result<seq<int>, ObjError>)
    ensures r.Ok? ==> |r.value| == 2
  {
    if |data| != 3 then Err(BadLines) else ParseEach(data[1..], ParseInt, IntError)
  }

  /** Every element of ns shifted by c. */
  function Offset(ns: seq<int>, c: int): (r: seq<int>)
    ensures |r| == |ns|
  {
    if ns == [] then [] else Offset(ns[..|ns| - 1], c) + [ns[|ns| - 1] + c]
  }

  /** Offsetting one more number appends that number shifted. */
  lemma OffsetSnoc(ns: seq<int>, x: int, c: int)
    ensures Offset(ns + [x], c) == Offset(ns, c) + [x + c]
  {
    assert (ns + [x])[..|ns|] == ns;
  }

  /** Each face number is shifted by the same constant, position by position. */
  lemma {:induction false} OffsetAt(ns: seq<int>, c: int, i: int)
    requires 0 <= i < |ns|
    ensures Offset(ns, c)[i] == ns[i] + c
    decreases |ns|
  {
    if i < |ns| - 1 {
      OffsetAt(ns[..|ns| - 1], c, i);
    }
  }

  /** An `o` line whose name contains "curve", in any letter case. */
  predicate IsCurveHeader(data: seq<string>) {
    |data| >= 2 && data[0] == "o" && Contains(Lower(data[1]), "curve")
  }

  /** The five characters of name from position i spell "curve", each letter in
      either case. */
  predicate CurveWordAt(name: string, i: int) {
    && 0 <= i <= |name| - 5
    && forall j :: 0 <= j < 5 ==> name[i + j] == "curve"[j] || name[i + j] == "CURVE"[j]
  }

  /** The header test ignores letter case: an `o` line with a name is a curve
      header exactly when "curve", in any mix of cases, occurs in the name. */
  lemma CurveHeaderAnyCase(data: seq<string>)
    requires |data| >= 2 && data[0] == "o"
    ensures IsCurveHeader(data) <==> exists i :: CurveWordAt(data[1], i)
  {
    var name := data[1];
    ContainsSpec(Lower(name), "curve");
    forall i ensures CurveWordAt(name, i) <==> OccursAt(Lower(name), "curve", i) {
      if 0 <= i <= |name| - 5 {
        forall j | 0 <= j < 5
          ensures Lower(name)[i + j] == "curve"[j] <==> name[i + j] == "curve"[j] || name[i + j] == "CURVE"[j]
        {
          LowerCharIs(name[i + j], "curve"[j], "CURVE"[j]);
        }
        if CurveWordAt(name, i) {
          assert Lower(name)[i..i + 5] == "curve";
        } else {
          var j :| 0 <= j < 5 && name[i + j] != "curve"[j] && name[i + j] != "CURVE"[j];
          assert Lower(name)[i..i + 5][j] != "curve"[j];
        }
      }
    }
  }

  /** What the main loop makes of a line, by its first token, with the arity
      checks and conversions of that keyword already applied. */
  datatype Entry =
    | Blank                                          // no tokens
    | Vertex(coords: Result<seq<real>, ObjError>)    // `v`
    | Face(numbers: Result<seq<int>, ObjError>)      // `f`
    | TexCoord(values: Result<seq<real>, ObjError>)  // a keyword starting with `vt`
    | Normal(values: Result<seq<real>, ObjError>)    // a keyword starting with `vn`
    | Segment(refs: Result<seq<int>, ObjError>)      // `l`
    | Object(curve: bool)                            // `o` with a name
    | Unnamed                                        // `o` alone
    | Ignored                                        // any other keyword

  /** The keyword dispatch of the main loop, in the order obj_to_dict checks the keywords. */
  function Classify(data: seq<string>, pf: FloatParser): Entry {
    if data == [] then Blank
    else if data[0] == "v" then Vertex(VertexCoords(data, pf))
    else if data[0] == "f" then Face(FaceNumbers(data))
    else if "vt" <= data[0] then TexCoord(TextureCoords(data, pf))
    else if "vn" <= data[0] then Normal(NormalCoords(data, pf))
    else if data[0] == "l" then Segment(LineRefs(data))
    else if data[0] == "o" then (if |data| < 2 then Unnamed else Object(IsCurveHeader(data)))
    else Ignored
  }

  /** One line of the file: its text as readlines() returns it, its tokens,
      and what the main loop makes of them. */
  datatype Line = Line(text: string, data: seq<string>, entry: Entry)

  /** A line as the main loop tokenises and classifies it. */
  function ReadLine(text: string, pf: FloatParser): Line {
    var data := LineTokens(text);
    Line(text, data, Classify(data, pf))
  }

  /** The lines of a file, each read. */
  function Read(fileLines: seq<string>, pf: FloatParser): (src: seq<Line>)
    ensures |src| == |fileLines|
  {
    if fileLines == [] then []
    else Read(fileLines[..|fileLines| - 1], pf) + [ReadLine(fileLines[|fileLines| - 1], pf)]
  }

  /** Line k of the file is read on its own, as the main loop reads it. */
  lemma {:induction false} ReadAt(fileLines: seq<string>, pf: FloatParser, k: nat)
    requires k < |fileLines|
    ensures Read(fileLines, pf)[k] == ReadLine(fileLines[k], pf)
    decreases |fileLines|
  {
    var last := |fileLines| - 1;
    if k < last {
      ReadAt(fileLines[..last], pf, k);
    }
  }

  /** What the main loop makes of line k depends on the tokens of that line alone. */
  lemma ReadEntry(fileLines: seq<string>, pf: FloatParser, k: nat)
    requires k < |fileLines|
    ensures Read(fileLines, pf)[k].data == LineTokens(fileLines[k])
    ensures Read(fileLines, pf)[k].entry == Classify(LineTokens(fileLines[k]), pf)
  {
    ReadAt(fileLines, pf, k);
  }

  /** The curve scan from line i on, adding to the curve lists of acc: blank
      lines are skipped, `v` and `l` lines feed curveVerts and curveLines, and
      any other line ends the scan. */
  function CurveScan(src: seq<Line>, i: nat, acc: ObjDict): Result<ObjDict, ObjError>
    decreases |src| - i
  {
    if i >= |src| then Ok(acc)
    else
      match src[i].entry
      case Blank => CurveScan(src, i + 1, acc)
      case Vertex(Err(e)) => Err(e)
      case Vertex(Ok(xs)) => CurveScan(src, i + 1, acc.(curveVerts := acc.curveVerts + xs))
      case Segment(Err(e)) => Err(e)
      case Segment(Ok(ns)) => CurveScan(src, i + 1, acc.(curveLines := acc.curveLines + ns))
      case _ => Ok(acc)
  }

  /** One pass of the main loop, on line k of the file. A curve header starts
      its scan after the first line of the file with the same text. */
  function ProcessLine(src: seq<Line>, k: nat, acc: ObjDict): Result<ObjDict, ObjError>
    requires k < |src|
  {
    match src[k].entry
    case Blank => Ok(acc)
    case Vertex(Err(e)) => Err(e)
    case Vertex(Ok(xs)) => Ok(acc.(vertices := acc.vertices + xs))
    case Face(Err(e)) => Err(e)
    case Face(Ok(ns)) =>
      Ok(acc.(indices := acc.indices + Offset(ns, -1),
              textureInds := acc.textureInds + Offset(ns, 1),
              normalIndices := acc.normalIndices + Offset(ns, 3)))
    case TexCoord(Err(e)) => Err(e)
    case TexCoord(Ok(xs)) => Ok(acc.(texture := acc.texture + xs))
    case Normal(Err(e)) => Err(e)
    case Normal(Ok(xs)) => Ok(acc.(normals := acc.normals + xs))
    case Segment(Err(e)) => Err(e)
    case Segment(Ok(ns)) => Ok(acc.(lines := acc.lines + ns))
    case Object(curve) => if curve then CurveScan(src, FirstIndex(src, src[k]) + 1, acc) else Ok(acc)
    case Unnamed => Err(MissingObjectName)
    case Ignored => Ok(acc)
  }

  /** The state after the first n lines of the file. */
  function Run(src: seq<Line>, n: nat): Result<ObjDict, ObjError>
    requires n <= |src|
    decreases n
  {
    if n == 0 then Ok(Empty)
    else
      match Run(src, n - 1)
      case Err(e) => Err(e)
      case Ok(acc) => ProcessLine(src, n - 1, acc)
  }

  /** The result of the main loop over all lines of the file. */
  function Process(src: seq<Line>): Result<ObjDict, ObjError> {
    Run(src, |src|)
  }

  /** obj_to_dict(file), for the file whose readlines() is fileLines. */
  function Converted(fileLines: seq<string>, pf: FloatParser): Result<ObjDict, ObjError> {
    Process(Read(fileLines, pf))
  }

  /** What line k alone makes the reader do, from an empty dictionary. */
  function LineResult(src: seq<Line>, k: nat): Result<ObjDict, ObjError>
    requires k < |src|
  {
    ProcessLine(src, k, Empty)
  }
}
