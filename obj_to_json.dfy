/**
 * obj_to_dict, step by step: nine lists grown by a loop over the lines of the
 * file, a nested loop over the three corners of a face, and a nested scan with
 * an early exit after a curve header. Each method is proved to compute what
 * ObjSpec defines, so every property proved in ObjProperties holds of it.
 */
module ObjToJson {
  import opened Results
  import opened Text
  import opened Numbers
  import opened ObjSpec
  import opened ObjProperties

  /** The generator `parse(t) for t in ts`, consumed by list.extend(): the
      values in order, or the error of the first token that does not convert. */
  method ParseAll<T>(ts: seq<string>, parse: string -> Option<T>, fail: string -> ObjError)
    returns (r: Result<seq<T>, ObjError>)
    ensures r == ParseEach(ts, parse, fail)
  {
    var xs: seq<T> := [];
    for j := 0 to |ts|
      invariant ParseEach(ts[..j], parse, fail) == Ok(xs)
    {
      assert ts[..j + 1][..j] == ts[..j] && ts[..j + 1][j] == ts[j];
      var x := parse(ts[j]);
      if x.None? {
        ParseEachStops(ts, parse, fail, j + 1);
        return Err(fail(ts[j]));
      }
      xs := xs + [x.value];
    }
    assert ts[..|ts|] == ts;
    return Ok(xs);
  }

  /** line.strip().split('#', 1)[0].split() for line n of the file: the tokens
      the main loop reads that line as. */
  method Tokens(fileLines: seq<string>, ghost pf: FloatParser, n: nat) returns (data: seq<string>)
    requires n < |fileLines|
    ensures data == Read(fileLines, pf)[n].data
    ensures Read(fileLines, pf)[n].entry == Classify(data, pf)
  {
    data := LineTokens(fileLines[n]);
    ReadAt(fileLines, pf, n);
  }

  /** obj_to_dict(file), for the file whose readlines() is fileLines; float()
      is the parameter parseFloat. Raising an exception is returning Err. */
  method ObjToDict(fileLines: seq<string>, parseFloat: FloatParser) returns (r: Result<ObjDict, ObjError>)
    ensures r == Converted(fileLines, parseFloat)
    ensures r.Ok? ==> WellFormed(r.value)
  {
    ghost var src := Read(fileLines, parseFloat);
    var vertices: seq<real>, indices: seq<int>, texture: seq<real>, textureInds: seq<int> := [], [], [], [];
    var normals: seq<real>, normalIndices: seq<int>, lines: seq<int> := [], [], [];
    var curveVerts: seq<real>, curveLines: seq<int> := [], [];
    ConvertedWellFormed(fileLines, parseFloat);
    for n := 0 to |fileLines|
      invariant Run(src, n) == Ok(ObjDict(vertices, indices, texture, textureInds, lines,
                                          curveVerts, curveLines, normals, normalIndices))
    {
      var acc := ObjDict(vertices, indices, texture, textureInds, lines,
                         curveVerts, curveLines, normals, normalIndices);
      RunStep(src, n, acc);
      var next := Pass(fileLines, parseFloat, n, acc);
      if next.Err? {
        ErrorSticks(src, n + 1, |src|);
        return next;
      }
      vertices, indices, texture, textureInds, lines :=
        next.value.vertices, next.value.indices, next.value.texture, next.value.textureInds, next.value.lines;
      curveVerts, curveLines, normals, normalIndices :=
        next.value.curveVerts, next.value.curveLines, next.value.normals, next.value.normalIndices;
    }
    return Ok(ObjDict(vertices, indices, texture, textureInds, lines,
                      curveVerts, curveLines, normals, normalIndices));
  }

  /** One pass of the main loop, over line n of the file, with the nine lists
      as they stand in acc: the keyword dispatch, the arity checks, and the
      extension of the list the keyword feeds. */
  method Pass(fileLines: seq<string>, parseFloat: FloatParser, n: nat, acc: ObjDict)
    returns (r: Result<ObjDict, ObjError>)
    requires n < |fileLines|
    ensures r == ProcessLine(Read(fileLines, parseFloat), n, acc)
  {
    var data := Tokens(fileLines, parseFloat, n);
    if data == [] {
      return Ok(acc);
    }
    if data[0] == "v" {
      if |data| != 4 {
        return Err(VertexArity(|data| - 1));
      }
      var coords := ParseAll(data[1..], parseFloat, FloatError);
      if coords.Err? {
        return Err(coords.error);
      }
      return Ok(acc.(vertices := acc.vertices + coords.value));
    } else if data[0] == "f" {
      if |data| != 4 {
        return Err(FaceArity(|data| - 1));
      }
      var face := FaceCorners(data[1..], acc.indices, acc.textureInds, acc.normalIndices);
      if face.Err? {
        return Err(face.error);
      }
      return Ok(acc.(indices := face.value.indices, textureInds := face.value.textureInds,
                     normalIndices := face.value.normalIndices));
    } else if "vt" <= data[0] {
      if |data| != 3 {
        return Err(TextureArity(|data| - 1));
      }
      var coords := ParseAll(data[1..], parseFloat, FloatError);
      if coords.Err? {
        return Err(coords.error);
      }
      return Ok(acc.(texture := acc.texture + coords.value));
    } else if "vn" <= data[0] {
      var coords := ParseAll(data[1..], parseFloat, FloatError);
      if coords.Err? {
        return Err(coords.error);
      }
      return Ok(acc.(normals := acc.normals + coords.value));
    } else if data[0] == "l" {
      if |data| != 3 {
        return Err(BadLines);
      }
      var refs := ParseAll(data[1..], ParseInt, IntError);
      if refs.Err? {
        return Err(refs.error);
      }
      return Ok(acc.(lines := acc.lines + refs.value));
    } else if data[0] == "o" {
      if |data| < 2 {
        return Err(MissingObjectName);
      }
      if Contains(Lower(data[1]), "curve") {
        var index := FirstIndex(fileLines, fileLines[n]) + 1;
        ReadKeepsFirstIndex(fileLines, parseFloat, n);
        r := ScanCurve(fileLines, parseFloat, index, acc);
        return;
      }
    }
    return Ok(acc);
  }

  /** The three index lists of obj_to_dict after the corners of one face. */
  datatype FaceLists = FaceLists(indices: seq<int>, textureInds: seq<int>, normalIndices: seq<int>)

  /** The loop over the corners of an `f` line: each corner is cut at its first
      '/', converted with int(), and appended as n-1, n+1 and n+3 to the three
      index lists; the first corner that does not convert raises. */
  method FaceCorners(corners: seq<string>, indices: seq<int>, textureInds: seq<int>, normalIndices: seq<int>)
    returns (r: Result<FaceLists, ObjError>)
    ensures match ParseEach(corners, FaceRef, FaceRefError)
      case Err(e) => r == Err(e)
      case Ok(ns) => r == Ok(FaceLists(indices + Offset(ns, -1), textureInds + Offset(ns, 1),
                                       normalIndices + Offset(ns, 3)))
  {
    var inds, texInds, normInds := indices, textureInds, normalIndices;
    ghost var ns: seq<int> := [];
    for j := 0 to |corners|
      invariant ParseEach(corners[..j], FaceRef, FaceRefError) == Ok(ns)
      invariant inds == indices + Offset(ns, -1)
      invariant texInds == textureInds + Offset(ns, 1)
      invariant normInds == normalIndices + Offset(ns, 3)
    {
      assert corners[..j + 1][..j] == corners[..j] && corners[..j + 1][j] == corners[j];
      var v := CornerNumber(corners[j]);
      if v.None? {
        ParseEachStops(corners, FaceRef, FaceRefError, j + 1);
        return Err(FaceRefError(corners[j]));
      }
      inds := inds + [v.value - 1];
      texInds := texInds + [v.value + 1];
      normInds := normInds + [v.value + 3];
      OffsetSnoc(ns, v.value, -1);
      OffsetSnoc(ns, v.value, 1);
      OffsetSnoc(ns, v.value, 3);
      AppendSnoc(indices, Offset(ns, -1), v.value - 1);
      AppendSnoc(textureInds, Offset(ns, 1), v.value + 1);
      AppendSnoc(normalIndices, Offset(ns, 3), v.value + 3);
      ns := ns + [v.value];
    }
    assert corners[..|corners|] == corners;
    return Ok(FaceLists(inds, texInds, normInds));
  }

  /** The vertex number of one face corner: the text before its first '/',
      converted with int(). */
  method CornerNumber(corner: string) returns (v: Option<int>)
    ensures v == FaceRef(corner)
  {
    var vertex := corner;
    var slash := Find(vertex, '/');
    if slash != -1 {
      vertex := vertex[..slash];
    }
    FindCutsLikeSplit(corner, '/');
    v := ParseInt(vertex);
  }

  lemma AppendSnoc(a: seq<int>, b: seq<int>, x: int)
    ensures a + b + [x] == a + (b + [x])
  {
  }

  /** The curve scan of obj_to_dict from line `index` on: blank lines are
      skipped, `v` and `l` lines extend the curve lists of acc, and the first
      line with any other keyword stops the scan. */
  method ScanCurve(fileLines: seq<string>, parseFloat: FloatParser, index: nat, acc: ObjDict)
    returns (r: Result<ObjDict, ObjError>)
    requires index <= |fileLines|
    ensures r == CurveScan(Read(fileLines, parseFloat), index, acc)
    ensures r.Ok? ==> r.value == acc.(curveVerts := r.value.curveVerts, curveLines := r.value.curveLines)
  {
    ghost var src := Read(fileLines, parseFloat);
    var curveVerts, curveLines := acc.curveVerts, acc.curveLines;
    for i := index to |fileLines|
      invariant CurveScan(src, index, acc) ==
        CurveScan(src, i, acc.(curveVerts := curveVerts, curveLines := curveLines))
    {
      var data := Tokens(fileLines, parseFloat, i);
      if data == [] {
        continue;
      }
      if data[0] == "v" {
        if |data| != 4 {
          return Err(VertexArity(|data| - 1));
        }
        var coords := ParseAll(data[1..], parseFloat, FloatError);
        if coords.Err? {
          return Err(coords.error);
        }
        curveVerts := curveVerts + coords.value;
      } else if data[0] == "l" {
        if |data| != 3 {
          return Err(BadLines);
        }
        var refs := ParseAll(data[1..], ParseInt, IntError);
        if refs.Err? {
          return Err(refs.error);
        }
        curveLines := curveLines + refs.value;
      } else {
        break;
      }
    }
    return Ok(acc.(curveVerts := curveVerts, curveLines := curveLines));
  }
}
