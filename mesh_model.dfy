/** The mesh bookkeeping of utils/DisplayObj.py as pure functions: the parsing of a face command,
    the edge list without duplicates or reversed duplicates, the material-library reader and the
    per-line effect of objFileImport. The file is given as lines already split on spaces, and
    float() as a parameter. */
module MeshModel {
  import opened Errors
  import Util

  /** A line after line.strip().split(" "): split always yields at least one piece. */
  type Line = args: seq<string> | |args| >= 1 witness [""]

  /** float(): the parsed value, or None where Python raises ValueError. */
  type FloatParser = string -> Option<real>

  type Edge = (int, int)

  /** A surface: its 0-based vertex indices and its 0-based normal index. */
  datatype Face = Face(verts: seq<int>, norm: int)

  function Last<T>(s: seq<T>): T
    requires |s| >= 1
  {
    s[|s| - 1]
  }

  // ---------------------------------------------------------------------------
  // str.split(sep) and int()
  // ---------------------------------------------------------------------------

  /** str.split(sep) with an explicit one-character separator: the pieces between separators,
      empty pieces included. */
  function Split(s: string, sep: char): (r: seq<string>)
    ensures |r| >= 1
    ensures forall i :: 0 <= i < |r| ==> sep !in r[i]
  {
    if |s| == 0 then [""]
    else
      var rest := Split(s[1..], sep);
      if s[0] == sep then [""] + rest
      else [[s[0]] + rest[0]] + rest[1..]
  }

  /** sep.join(pieces), the inverse of Split. */
  function Join(pieces: seq<string>, sep: char): string
    requires |pieces| >= 1
  {
    if |pieces| == 1 then pieces[0] else pieces[0] + [sep] + Join(pieces[1..], sep)
  }

  /** Splitting loses nothing: joining the pieces back gives the original string. */
  lemma {:induction false} SplitJoin(s: string, sep: char)
    ensures Join(Split(s, sep), sep) == s
  {
    if |s| > 0 {
      var rest := Split(s[1..], sep);
      SplitJoin(s[1..], sep);
      if s[0] == sep {
        assert ([""] + rest)[1..] == rest;
      } else if |rest| > 1 {
        var r := [[s[0]] + rest[0]] + rest[1..];
        assert r[1..] == rest[1..];
        assert Join(rest, sep) == rest[0] + [sep] + Join(rest[1..], sep);
      }
    }
  }

  predicate IsDigit(c: char) { '0' <= c <= '9' }

  predicate AllDigits(s: string)
  {
    forall i :: 0 <= i < |s| ==> IsDigit(s[i])
  }

  /** The value of a string of decimal digits. */
  function DigitsValue(s: string): nat
    requires AllDigits(s)
  {
    if |s| == 0 then 0 else DigitsValue(s[..|s| - 1]) * 10 + (Last(s) - '0') as nat
  }

  /** int(s) on an optional sign followed by decimal digits; None where Python raises
      ValueError. */
  function ParseInt(s: string): (r: Option<int>)
    ensures r.Some? <==>
      (|s| >= 1 && AllDigits(s)) || (|s| >= 2 && s[0] in "+-" && AllDigits(s[1..]))
    ensures |s| >= 1 && AllDigits(s) ==> r == Some(DigitsValue(s))
    ensures |s| >= 2 && s[0] == '+' && AllDigits(s[1..]) ==> r == Some(DigitsValue(s[1..]))
    ensures |s| >= 2 && s[0] == '-' && AllDigits(s[1..]) ==> r == Some(-(DigitsValue(s[1..]) as int))
  {
    if |s| >= 2 && (s[0] == '-' || s[0] == '+') && AllDigits(s[1..]) then
      Some(if s[0] == '-' then -(DigitsValue(s[1..]) as int) else DigitsValue(s[1..]))
    else if |s| >= 1 && AllDigits(s) then Some(DigitsValue(s))
    else None
  }

  function DigitChar(d: nat): (c: char)
    requires d < 10
    ensures IsDigit(c) && (c - '0') as nat == d
  {
    ('0' as int + d) as char
  }

  /** str(n) for a natural number: the reference writer that ParseInt inverts. */
  function ShowNat(n: nat): (s: string)
    ensures |s| >= 1 && AllDigits(s)
  {
    if n < 10 then [DigitChar(n)] else ShowNat(n / 10) + [DigitChar(n % 10)]
  }

  function ShowInt(n: int): string
  {
    if n < 0 then "-" + ShowNat(-n) else ShowNat(n)
  }

  lemma {:induction false} DigitsShowNat(n: nat)
    ensures DigitsValue(ShowNat(n)) == n
  {
    if n >= 10 {
      var s := ShowNat(n);
      DigitsShowNat(n / 10);
      assert s[..|s| - 1] == ShowNat(n / 10);
    }
  }

  /** int(str(n)) == n. */
  lemma ParseShowInt(n: int)
    ensures ParseInt(ShowInt(n)) == Some(n)
  {
    if n < 0 {
      DigitsShowNat(-n);
      assert ShowInt(n)[1..] == ShowNat(-n);
    } else {
      DigitsShowNat(n);
    }
  }

  /** The empty field and a bare sign are rejected. */
  lemma ParseIntRejectsEmpty()
    ensures ParseInt("") == None && ParseInt("-") == None && ParseInt("+") == None
  {
  }

  /** Leading zeros do not change the value of a digit string. */
  lemma {:induction false} LeadingZeroDigits(s: string)
    requires AllDigits(s)
    ensures AllDigits("0" + s) && DigitsValue("0" + s) == DigitsValue(s)
    decreases |s|
  {
    if |s| > 0 {
      var z := "0" + s;
      assert z[..|z| - 1] == "0" + s[..|s| - 1];
      LeadingZeroDigits(s[..|s| - 1]);
    }
  }

  /** int accepts leading zeros, so a zero-padded field reads as the unpadded one. */
  lemma ParseIntLeadingZero(s: string)
    requires |s| >= 1 && AllDigits(s)
    ensures ParseInt("0" + s) == ParseInt(s) == Some(DigitsValue(s))
  {
    LeadingZeroDigits(s);
  }

  /** A field with a character that is neither a digit nor a leading sign is rejected. */
  lemma ParseIntRejectsNonDigit(s: string, i: int)
    requires 0 < i < |s| && !IsDigit(s[i])
    ensures ParseInt(s) == None
  {
    assert s[1..][i - 1] == s[i];
  }

  // ---------------------------------------------------------------------------
  // loadFaceCmd: parsing
  // ---------------------------------------------------------------------------

  /** int(arg.split("/")[0]): the vertex number of a face token. */
  function VertexField(tok: string): Option<int>
  {
    ParseInt(Split(tok, '/')[0])
  }

  /** The first loop of loadFaceCmd: the 0-based vertex index of every token, in order, or
      ValueError at the first token whose vertex number does not parse. */
  function ParseVerts(args: seq<string>): (r: Result<seq<int>>)
    ensures r.Ok? <==> forall i :: 0 <= i < |args| ==> VertexField(args[i]).Some?
    ensures r.Ok? ==> |r.value| == |args|
    ensures r.Ok? ==> forall i :: 0 <= i < |args| ==> r.value[i] == VertexField(args[i]).value - 1
    ensures r.Err? ==> r.error == ValueError
  {
    if |args| == 0 then Ok([])
    else
      var front :- ParseVerts(args[..|args| - 1]);
      var n := VertexField(Last(args));
      if n.None? then Err(ValueError) else Ok(front + [n.value - 1])
  }

  /** loadFaceCmd's parse: the vertex list, then the third field of the last token minus 1 as the
      normal. With no tokens tmp is still None and subscripting it is a TypeError; a last token
      with fewer than three fields is an IndexError. */
  function ParseFace(args: seq<string>): (r: Result<Face>)
  {
    var verts :- ParseVerts(args);
    if |args| == 0 then Err(TypeError)
    else
      var tmp := Split(Last(args), '/');
      if |tmp| < 3 then Err(IndexError)
      else
        var n := ParseInt(tmp[2]);
        if n.None? then Err(ValueError) else Ok(Face(verts, n.value - 1))
  }

  /** The outcome of ParseFace, case by case: success exactly when every token has a vertex
      number and the last token a third field holding an integer; the vertices are the first
      fields minus one, in order, and the normal the last token's third field minus one. */
  lemma ParseFaceOutcome(args: seq<string>)
    ensures ParseFace(args).Ok? <==>
      |args| >= 1 && (forall i :: 0 <= i < |args| ==> VertexField(args[i]).Some?) &&
      |Split(Last(args), '/')| >= 3 && ParseInt(Split(Last(args), '/')[2]).Some?
    ensures ParseFace(args).Ok? ==>
      |ParseFace(args).value.verts| == |args| && |args| >= 1 &&
      (forall i :: 0 <= i < |args| ==> ParseFace(args).value.verts[i] == VertexField(args[i]).value - 1) &&
      ParseFace(args).value.norm == ParseInt(Split(Last(args), '/')[2]).value - 1
    ensures |args| == 0 ==> ParseFace(args) == Err(TypeError)
    ensures (|args| >= 1 && (forall i :: 0 <= i < |args| ==> VertexField(args[i]).Some?) &&
             |Split(Last(args), '/')| < 3) ==> ParseFace(args) == Err(IndexError)
    ensures (exists i :: 0 <= i < |args| && VertexField(args[i]).None?) ==> ParseFace(args) == Err(ValueError)
  {
  }

  // ---------------------------------------------------------------------------
  // loadFaceCmd: edges
  // ---------------------------------------------------------------------------

  /** An edge is already present when it or its reverse is in the list. */
  predicate Covered(e: Edge, edges: seq<Edge>)
  {
    e in edges || (e.1, e.0) in edges
  }

  /** The test-and-append of loadFaceCmd. */
  function AddEdge(edges: seq<Edge>, e: Edge): seq<Edge>
  {
    if Covered(e, edges) then edges else edges + [e]
  }

  /** The boundary of a polygon: each consecutive vertex pair, then (last, first). */
  function FaceCycle(vl: seq<int>): (r: seq<Edge>)
    requires |vl| >= 1
    ensures |r| == |vl|
    ensures forall i :: 0 <= i < |vl| - 1 ==> r[i] == (vl[i], vl[i + 1])
    ensures r[|vl| - 1] == (vl[|vl| - 1], vl[0])
  {
    seq(|vl| - 1, i requires 0 <= i < |vl| - 1 => (vl[i], vl[i + 1])) + [(vl[|vl| - 1], vl[0])]
  }

  /** The edges appended in order, each one skipped when already covered. */
  function AddEdges(edges: seq<Edge>, es: seq<Edge>): seq<Edge>
  {
    if |es| == 0 then edges else AddEdge(AddEdges(edges, es[..|es| - 1]), Last(es))
  }

  /** No edge occurs twice, in either orientation. */
  predicate NoDupEdges(edges: seq<Edge>)
  {
    forall i, j :: 0 <= i < j < |edges| ==> edges[i] != edges[j] && edges[i] != (edges[j].1, edges[j].0)
  }

  lemma AddEdgeFacts(edges: seq<Edge>, e: Edge)
    ensures NoDupEdges(edges) ==> NoDupEdges(AddEdge(edges, e))
    ensures Covered(e, AddEdge(edges, e))
    ensures edges <= AddEdge(edges, e) && |AddEdge(edges, e)| <= |edges| + 1
    ensures forall x :: Covered(x, edges) ==> Covered(x, AddEdge(edges, e))
  {
    if !Covered(e, edges) {
      var r := edges + [e];
      if NoDupEdges(edges) {
        forall i, j | 0 <= i < j < |r|
          ensures r[i] != r[j] && r[i] != (r[j].1, r[j].0)
        {
          if j == |edges| {
            assert r[i] == edges[i];
          }
        }
      }
    }
  }

  /** Adding a face's edges keeps the list free of duplicates and reversed duplicates, keeps every
      earlier entry in place, grows it by at most one entry per edge, only adds edges of the face,
      and leaves every edge of the face covered. */
  lemma {:induction false} AddEdgesFacts(edges: seq<Edge>, es: seq<Edge>)
    ensures NoDupEdges(edges) ==> NoDupEdges(AddEdges(edges, es))
    ensures forall x :: x in es ==> Covered(x, AddEdges(edges, es))
    ensures edges <= AddEdges(edges, es)
    ensures |AddEdges(edges, es)| <= |edges| + |es|
    ensures forall k :: |edges| <= k < |AddEdges(edges, es)| ==> AddEdges(edges, es)[k] in es
  {
    if |es| > 0 {
      var front := es[..|es| - 1];
      var mid := AddEdges(edges, front);
      AddEdgesFacts(edges, front);
      AddEdgeFacts(mid, Last(es));
      assert es == front + [Last(es)];
      forall k | |edges| <= k < |AddEdges(edges, es)|
        ensures AddEdges(edges, es)[k] in es
      {
        if k < |mid| {
          assert AddEdges(edges, es)[k] == mid[k];
        }
      }
    }
  }

  /** Appending one more edge to the list of edges to add is one more AddEdge. */
  lemma AddEdgesSnoc(edges: seq<Edge>, es: seq<Edge>, e: Edge)
    ensures AddEdges(edges, es + [e]) == AddEdge(AddEdges(edges, es), e)
  {
    assert (es + [e])[..|es|] == es;
  }

  // ---------------------------------------------------------------------------
  // Materials and loadMats
  // ---------------------------------------------------------------------------

  /** The values of a Material's fields. */
  datatype MatValue = MatValue(amb: seq<real>, diff: seq<real>, spec: seq<real>, emm: seq<real>, trans: real)

  /** Material(): the defaults of its constructor. */
  const DefaultMat := MatValue([0.2, 0.2, 0.2, 1.0], [0.8, 0.8, 0.8, 0.8], [0.0, 0.0, 0.0, 1.0],
                               [0.0, 0.0, 0.0, 1.0], 1.0)

  /** set_dse(d, s, e) on a material's values. */
  function WithDse(m: MatValue, d: seq<real>, s: seq<real>, e: seq<real>): (r: MatValue)
    ensures r.amb == d && r.diff == d && r.spec == s && r.emm == e && r.trans == m.trans
  {
    m.(amb := d, diff := d, spec := s, emm := e)
  }

  /** (float(args[1]), float(args[2]), float(args[3])), evaluated left to right: IndexError at the
      first missing argument, ValueError at the first that does not parse. */
  function ParseTriple(args: seq<string>, parseFloat: FloatParser): (r: Result<seq<real>>)
    ensures r.Ok? <==> |args| >= 4 && forall k :: 1 <= k < 4 ==> parseFloat(args[k]).Some?
    ensures r.Ok? ==> |r.value| == 3 && forall k :: 0 <= k < 3 ==> r.value[k] == parseFloat(args[k + 1]).value
    ensures r.Err? && |args| >= 4 ==> r.error == ValueError
    ensures r.Err? && (forall k :: 1 <= k < |args| ==> parseFloat(args[k]).Some?) ==> r.error == IndexError
  {
    if |args| < 2 then Err(IndexError)
    else if parseFloat(args[1]).None? then Err(ValueError)
    else if |args| < 3 then Err(IndexError)
    else if parseFloat(args[2]).None? then Err(ValueError)
    else if |args| < 4 then Err(IndexError)
    else if parseFloat(args[3]).None? then Err(ValueError)
    else Ok([parseFloat(args[1]).value, parseFloat(args[2]).value, parseFloat(args[3]).value])
  }

  /** The state of loadMats between lines: the materials read so far and the current name. */
  datatype MatState = MatState(mats: map<string, MatValue>, curmat: Option<string>)

  /** The name that mats[curmat] looks up, or KeyError while no material has been named. */
  function CurrentMat(ms: MatState): (r: Result<string>)
    ensures r.Ok? <==> ms.curmat.Some? && ms.curmat.value in ms.mats
    ensures r.Ok? ==> r.value == ms.curmat.value
    ensures r.Err? ==> r.error == KeyError
  {
    if ms.curmat.Some? && ms.curmat.value in ms.mats then Ok(ms.curmat.value) else Err(KeyError)
  }

  /** One line of loadMats. Python evaluates the right-hand side of mats[curmat].x = ... before
      the subscript, so a parse error wins over the KeyError of a missing material. */
  function MatLine(ms: MatState, args: Line, parseFloat: FloatParser): Result<MatState>
  {
    var cmd := args[0];
    if cmd == "newmtl" then
      if |args| < 2 then Err(IndexError)
      else Ok(MatState(ms.mats[args[1] := DefaultMat], Some(args[1])))
    else if cmd == "Kd" then
      var t :- ParseTriple(args, parseFloat);
      var k :- CurrentMat(ms);
      Ok(ms.(mats := ms.mats[k := ms.mats[k].(amb := t, diff := t)]))
    else if cmd == "Ks" then
      var t :- ParseTriple(args, parseFloat);
      var k :- CurrentMat(ms);
      Ok(ms.(mats := ms.mats[k := ms.mats[k].(spec := t)]))
    else if cmd == "Ke" then
      var t :- ParseTriple(args, parseFloat);
      var k :- CurrentMat(ms);
      Ok(ms.(mats := ms.mats[k := ms.mats[k].(emm := t)]))
    else if cmd == "d" then
      if |args| < 2 then Err(IndexError)
      else if parseFloat(args[1]).None? then Err(ValueError)
      else
        var k :- CurrentMat(ms);
        Ok(ms.(mats := ms.mats[k := ms.mats[k].(trans := parseFloat(args[1]).value)]))
    else Ok(ms)
  }

  /** loadMats over its lines from a given state: the state after the last line, or the first
      error. */
  function MatLines(ms: MatState, lines: seq<Line>, parseFloat: FloatParser): Result<MatState>
  {
    if |lines| == 0 then Ok(ms)
    else
      var before :- MatLines(ms, lines[..|lines| - 1], parseFloat);
      MatLine(before, Last(lines), parseFloat)
  }

  /** loadMats(fname) on the file's lines. */
  function LoadMatsSpec(lines: seq<Line>, parseFloat: FloatParser): Result<map<string, MatValue>>
  {
    var ms :- MatLines(MatState(map[], None), lines, parseFloat);
    Ok(ms.mats)
  }

  /** An error stops loadMats: more lines do not change the outcome. */
  lemma {:induction false} MatErrorStops(ms: MatState, lines: seq<Line>, i: nat, parseFloat: FloatParser)
    requires i <= |lines|
    requires MatLines(ms, lines[..i], parseFloat).Err?
    ensures MatLines(ms, lines, parseFloat) == MatLines(ms, lines[..i], parseFloat)
  {
    if i < |lines| {
      assert lines[..|lines| - 1][..i] == lines[..i];
      MatErrorStops(ms, lines[..|lines| - 1], i, parseFloat);
    } else {
      assert lines[..i] == lines;
    }
  }

  /** Once a material has been named, it is in the dictionary. */
  predicate CurmatKnown(ms: MatState)
  {
    ms.curmat.Some? ==> ms.curmat.value in ms.mats
  }

  /** A Kd line behaves as set_dse with the parsed colour as d and the material's own specular
      and emission colours; with no current material it raises KeyError, after the colour has
      parsed. */
  lemma KdIsSetDse(ms: MatState, args: Line, parseFloat: FloatParser)
    requires args[0] == "Kd"
    requires CurmatKnown(ms)
    ensures ParseTriple(args, parseFloat).Err? ==> MatLine(ms, args, parseFloat) == Err(ParseTriple(args, parseFloat).error)
    ensures ParseTriple(args, parseFloat).Ok? && ms.curmat.None? ==> MatLine(ms, args, parseFloat) == Err(KeyError)
    ensures ParseTriple(args, parseFloat).Ok? && ms.curmat.Some? ==>
      var k := ms.curmat.value;
      var t := ParseTriple(args, parseFloat).value;
      MatLine(ms, args, parseFloat) == Ok(ms.(mats := ms.mats[k := WithDse(ms.mats[k], t, ms.mats[k].spec, ms.mats[k].emm)]))
  {
  }

  /** A newmtl line starts the named material afresh from the defaults and makes it current. */
  lemma NewmtlResets(ms: MatState, args: Line, parseFloat: FloatParser)
    requires args[0] == "newmtl" && |args| >= 2
    ensures MatLine(ms, args, parseFloat).Ok?
    ensures MatLine(ms, args, parseFloat).value.mats[args[1]] == DefaultMat
    ensures MatLine(ms, args, parseFloat).value.curmat == Some(args[1])
    ensures CurmatKnown(MatLine(ms, args, parseFloat).value)
  {
  }

  /** A line changes at most the current material; every other entry is kept, and the current
      material stays in the dictionary. */
  lemma MatLineLocal(ms: MatState, args: Line, parseFloat: FloatParser)
    requires CurmatKnown(ms)
    requires MatLine(ms, args, parseFloat).Ok?
    ensures CurmatKnown(MatLine(ms, args, parseFloat).value)
    ensures ms.mats.Keys <= MatLine(ms, args, parseFloat).value.mats.Keys
    ensures forall k :: k in ms.mats && Some(k) != MatLine(ms, args, parseFloat).value.curmat ==>
      MatLine(ms, args, parseFloat).value.mats[k] == ms.mats[k]
  {
  }

  /** Over a whole file, the current material stays known, so the only KeyError is one raised
      before any newmtl line. */
  lemma {:induction false} MatLinesKeepCurmatKnown(ms: MatState, lines: seq<Line>, parseFloat: FloatParser)
    requires CurmatKnown(ms)
    ensures MatLines(ms, lines, parseFloat).Ok? ==> CurmatKnown(MatLines(ms, lines, parseFloat).value)
  {
    if |lines| > 0 {
      MatLinesKeepCurmatKnown(ms, lines[..|lines| - 1], parseFloat);
      var before := MatLines(ms, lines[..|lines| - 1], parseFloat);
      if before.Ok? && MatLine(before.value, Last(lines), parseFloat).Ok? {
        MatLineLocal(before.value, Last(lines), parseFloat);
      }
    }
  }

  // ---------------------------------------------------------------------------
  // objFileImport
  // ---------------------------------------------------------------------------

  /** The fields of a DisplayObj that objFileImport reads or writes. */
  datatype Mesh = Mesh(
    verts: seq<seq<real>>, norms: seq<seq<real>>, edges: seq<Edge>, surfs: seq<Face>,
    cols: seq<string>, name: Option<string>, mats: Option<map<string, MatValue>>, maxr: real)

  /** The mesh between lines, with the local curmat of objFileImport. */
  datatype ImportState = ImportState(mesh: Mesh, curmat: Option<string>)

  /** The truth value of self.mats: present and not empty. */
  predicate HasMats(mats: Option<map<string, MatValue>>)
  {
    mats.Some? && |mats.value| > 0
  }

  /** The truth value of curmat: present and not the empty string. */
  predicate HasCurmat(curmat: Option<string>)
  {
    curmat.Some? && curmat.value != ""
  }

  /** loadFaceCmd on the mesh: the face's edges added and one surface appended. */
  function LoadFace(m: Mesh, args: seq<string>): Result<Mesh>
  {
    var face :- ParseFace(args);
    Ok(m.(edges := AddEdges(m.edges, FaceCycle(face.verts)), surfs := m.surfs + [face]))
  }

  /** One line of objFileImport. The material libraries are given by name, standing for the files
      next to the object file; a name with no library is FileNotFoundError. */
  function ImportLine(st: ImportState, args: Line, libs: map<string, seq<Line>>,
                      parseFloat: FloatParser): Result<ImportState>
  {
    var m := st.mesh;
    var cmd := args[0];
    if cmd == "mtllib" then
      if |args| < 2 then Err(IndexError)
      else if args[1] !in libs then Err(FileNotFoundError)
      else
        var mats :- LoadMatsSpec(libs[args[1]], parseFloat);
        Ok(st.(mesh := m.(mats := Some(mats))))
    else if cmd == "o" then
      if |args| < 2 then Err(IndexError) else Ok(st.(mesh := m.(name := Some(args[1]))))
    else if cmd == "v" then
      var vert :- ParseTriple(args, parseFloat);
      var ss := Util.SqMag(vert);
      Ok(st.(mesh := m.(verts := m.verts + [vert], maxr := if m.maxr < ss then ss else m.maxr)))
    else if cmd == "vn" then
      var norm :- ParseTriple(args, parseFloat);
      Ok(st.(mesh := m.(norms := m.norms + [norm])))
    else if cmd == "usemtl" then
      if |args| < 2 then Err(IndexError) else Ok(st.(curmat := Some(args[1])))
    else if cmd == "f" then
      var m' :- LoadFace(m, args[1..]);
      Ok(st.(mesh := m'.(cols := if HasMats(m.mats) && HasCurmat(st.curmat) then m.cols + [st.curmat.value] else m.cols)))
    else Ok(st)
  }

  /** The state after some lines, and the error that stopped the import, if any. */
  datatype Outcome = Outcome(state: ImportState, err: Option<PyError>)

  /** The read loop of objFileImport over the given lines. An error leaves the state as the
      previous line left it: every command parses before it writes. */
  function ImportLines(st: ImportState, lines: seq<Line>, libs: map<string, seq<Line>>,
                       parseFloat: FloatParser): Outcome
  {
    if |lines| == 0 then Outcome(st, None)
    else
      var o := ImportLines(st, lines[..|lines| - 1], libs, parseFloat);
      if o.err.Some? then o
      else match ImportLine(o.state, Last(lines), libs, parseFloat)
        case Err(e) => Outcome(o.state, Some(e))
        case Ok(st') => Outcome(st', None)
  }

  /** The fields objFileImport clears before reading; name and maxr are kept. */
  function ResetMesh(m: Mesh): Mesh
  {
    m.(verts := [], norms := [], edges := [], surfs := [], cols := [], mats := None)
  }

  /** objFileImport on the object file's lines: reset, read every line, then take the square
      root of maxr. An error skips the square root. */
  function ObjFileImport(m: Mesh, lines: seq<Line>, libs: map<string, seq<Line>>,
                         parseFloat: FloatParser, sqrt: real -> real): (Mesh, Option<PyError>)
  {
    var o := ImportLines(ImportState(ResetMesh(m), None), lines, libs, parseFloat);
    if o.err.None? then (o.state.mesh.(maxr := sqrt(o.state.mesh.maxr)), None)
    else (o.state.mesh, o.err)
  }

  /** An error stops the read: more lines do not change the outcome. */
  lemma {:induction false} ErrorStops(st: ImportState, lines: seq<Line>, i: nat,
                                      libs: map<string, seq<Line>>, parseFloat: FloatParser)
    requires i <= |lines|
    requires ImportLines(st, lines[..i], libs, parseFloat).err.Some?
    ensures ImportLines(st, lines, libs, parseFloat) == ImportLines(st, lines[..i], libs, parseFloat)
  {
    if i < |lines| {
      assert lines[..|lines| - 1][..i] == lines[..i];
      ErrorStops(st, lines[..|lines| - 1], i, libs, parseFloat);
    } else {
      assert lines[..i] == lines;
    }
  }

  /** One more line after an error-free prefix. */
  lemma ImportLinesSnoc(st: ImportState, lines: seq<Line>, i: nat,
                        libs: map<string, seq<Line>>, parseFloat: FloatParser)
    requires i < |lines|
    ensures ImportLines(st, lines[..i + 1], libs, parseFloat) ==
      var o := ImportLines(st, lines[..i], libs, parseFloat);
      if o.err.Some? then o
      else match ImportLine(o.state, lines[i], libs, parseFloat)
        case Err(e) => Outcome(o.state, Some(e))
        case Ok(st') => Outcome(st', None)
  {
    assert lines[..i + 1][..i] == lines[..i];
  }

  /** maxr as the running maximum of the squared norms of vs, starting from m0. */
  function RunningMax(m0: real, vs: seq<seq<real>>): (r: real)
    ensures r >= m0
    ensures forall i :: 0 <= i < |vs| ==> r >= Util.SqMag(vs[i])
    ensures r == m0 || exists i :: 0 <= i < |vs| && r == Util.SqMag(vs[i])
  {
    if |vs| == 0 then m0
    else
      var front := RunningMax(m0, vs[..|vs| - 1]);
      var ss := Util.SqMag(Last(vs));
      var r := if front < ss then ss else front;
      assert forall i :: 0 <= i < |vs| - 1 ==> vs[..|vs| - 1][i] == vs[i];
      r
  }

  /** What the reading of lines keeps true of a mesh whose vertices were cleared when maxr was
      m0: maxr is the running maximum over the vertices read, no surface lacks a face, and the
      edge list has no duplicates or reversed duplicates. */
  predicate MeshInv(m0: real, m: Mesh)
  {
    m.maxr == RunningMax(m0, m.verts) && |m.cols| <= |m.surfs| && NoDupEdges(m.edges)
  }

  lemma RunningMaxSnoc(m0: real, vs: seq<seq<real>>, v: seq<real>)
    ensures RunningMax(m0, vs + [v]) ==
      (if RunningMax(m0, vs) < Util.SqMag(v) then Util.SqMag(v) else RunningMax(m0, vs))
  {
    assert (vs + [v])[..|vs|] == vs;
  }

  lemma ImportLineKeepsInv(m0: real, st: ImportState, args: Line, libs: map<string, seq<Line>>,
                           parseFloat: FloatParser)
    requires MeshInv(m0, st.mesh)
    requires ImportLine(st, args, libs, parseFloat).Ok?
    ensures MeshInv(m0, ImportLine(st, args, libs, parseFloat).value.mesh)
    ensures ImportLine(st, args, libs, parseFloat).value.mesh.maxr >= st.mesh.maxr
  {
    var m := st.mesh;
    if args[0] == "v" {
      RunningMaxSnoc(m0, m.verts, ParseTriple(args, parseFloat).value);
    } else if args[0] == "f" {
      var face := ParseFace(args[1..]).value;
      AddEdgesFacts(m.edges, FaceCycle(face.verts));
    }
  }

  /** Reading lines keeps MeshInv and never lowers maxr, whether or not an error stops it. */
  lemma {:induction false} ImportLinesKeepInv(m0: real, st: ImportState, lines: seq<Line>,
                                              libs: map<string, seq<Line>>, parseFloat: FloatParser)
    requires MeshInv(m0, st.mesh)
    ensures MeshInv(m0, ImportLines(st, lines, libs, parseFloat).state.mesh)
    ensures ImportLines(st, lines, libs, parseFloat).state.mesh.maxr >= st.mesh.maxr
  {
    if |lines| > 0 {
      ImportLinesKeepInv(m0, st, lines[..|lines| - 1], libs, parseFloat);
      var o := ImportLines(st, lines[..|lines| - 1], libs, parseFloat);
      if o.err.None? && ImportLine(o.state, Last(lines), libs, parseFloat).Ok? {
        ImportLineKeepsInv(m0, o.state, Last(lines), libs, parseFloat);
      }
    }
  }

  /** objFileImport's result, with or without an error: the pre-root maxr is the running maximum
      of the squared norms of the vertices read, starting from the previous maxr (0 for a new
      object); the square root is taken only without an error; no face has more than one colour;
      and the edges hold no duplicates. ObjFileImportLists says which vertices were read. */
  lemma ObjFileImportFacts(m: Mesh, lines: seq<Line>, libs: map<string, seq<Line>>,
                           parseFloat: FloatParser, sqrt: real -> real)
    ensures var (m', err) := ObjFileImport(m, lines, libs, parseFloat, sqrt);
      var pre := ImportLines(ImportState(ResetMesh(m), None), lines, libs, parseFloat).state.mesh;
      pre.verts == m'.verts && pre.maxr == RunningMax(m.maxr, m'.verts) && pre.maxr >= m.maxr &&
      (err.None? ==> m'.maxr == sqrt(pre.maxr)) && (err.Some? ==> m'.maxr == pre.maxr) &&
      |m'.cols| <= |m'.surfs| && NoDupEdges(m'.edges)
  {
    ImportLinesKeepInv(m.maxr, ImportState(ResetMesh(m), None), lines, libs, parseFloat);
  }

  /** An f line appends exactly the parsed face to the surfaces, adds its edges, and appends the
      current material name to cols exactly when there are materials and a non-empty current
      name. */
  lemma FaceLine(st: ImportState, args: Line, libs: map<string, seq<Line>>, parseFloat: FloatParser)
    requires args[0] == "f"
    ensures ImportLine(st, args, libs, parseFloat).Ok? <==> ParseFace(args[1..]).Ok?
    ensures ImportLine(st, args, libs, parseFloat).Ok? ==>
      var m' := ImportLine(st, args, libs, parseFloat).value.mesh;
      var face := ParseFace(args[1..]).value;
      m'.surfs == st.mesh.surfs + [face] &&
      m'.edges == AddEdges(st.mesh.edges, FaceCycle(face.verts)) &&
      m'.cols == (if HasMats(st.mesh.mats) && HasCurmat(st.curmat) then st.mesh.cols + [st.curmat.value] else st.mesh.cols) &&
      m'.verts == st.mesh.verts && m'.maxr == st.mesh.maxr
  {
  }

  /** The vertex a line contributes: its triple for a well-formed v line, nothing otherwise. */
  function LineVerts(args: Line, parseFloat: FloatParser): seq<seq<real>>
  {
    if args[0] == "v" && ParseTriple(args, parseFloat).Ok? then [ParseTriple(args, parseFloat).value] else []
  }

  /** The normal a line contributes: its triple for a well-formed vn line, nothing otherwise. */
  function LineNorms(args: Line, parseFloat: FloatParser): seq<seq<real>>
  {
    if args[0] == "vn" && ParseTriple(args, parseFloat).Ok? then [ParseTriple(args, parseFloat).value] else []
  }

  /** The face a line contributes: its parse for a well-formed f line, nothing otherwise. */
  function LineFaces(args: Line): seq<Face>
  {
    if args[0] == "f" && ParseFace(args[1..]).Ok? then [ParseFace(args[1..]).value] else []
  }

  /** The vertices, normals and faces of a file, in file order, read off the lines one by one
      without reference to the import loop. */
  function FileVerts(lines: seq<Line>, parseFloat: FloatParser): seq<seq<real>>
  {
    if |lines| == 0 then [] else FileVerts(lines[..|lines| - 1], parseFloat) + LineVerts(Last(lines), parseFloat)
  }

  function FileNorms(lines: seq<Line>, parseFloat: FloatParser): seq<seq<real>>
  {
    if |lines| == 0 then [] else FileNorms(lines[..|lines| - 1], parseFloat) + LineNorms(Last(lines), parseFloat)
  }

  function FileFaces(lines: seq<Line>): seq<Face>
  {
    if |lines| == 0 then [] else FileFaces(lines[..|lines| - 1]) + LineFaces(Last(lines))
  }

  /** A line that is read without error appends exactly its own vertex, normal and face. */
  lemma ImportLineLists(st: ImportState, args: Line, libs: map<string, seq<Line>>, parseFloat: FloatParser)
    requires ImportLine(st, args, libs, parseFloat).Ok?
    ensures var m' := ImportLine(st, args, libs, parseFloat).value.mesh;
      m'.verts == st.mesh.verts + LineVerts(args, parseFloat) &&
      m'.norms == st.mesh.norms + LineNorms(args, parseFloat) &&
      m'.surfs == st.mesh.surfs + LineFaces(args)
  {
  }

  /** An error-free read appends the file's vertices, normals and faces, in file order. */
  lemma {:induction false} ImportLinesLists(st: ImportState, lines: seq<Line>,
                                            libs: map<string, seq<Line>>, parseFloat: FloatParser)
    requires ImportLines(st, lines, libs, parseFloat).err.None?
    ensures var m' := ImportLines(st, lines, libs, parseFloat).state.mesh;
      m'.verts == st.mesh.verts + FileVerts(lines, parseFloat) &&
      m'.norms == st.mesh.norms + FileNorms(lines, parseFloat) &&
      m'.surfs == st.mesh.surfs + FileFaces(lines)
  {
    if |lines| > 0 {
      var front := lines[..|lines| - 1];
      ImportLinesLists(st, front, libs, parseFloat);
      var o := ImportLines(st, front, libs, parseFloat);
      ImportLineLists(o.state, Last(lines), libs, parseFloat);
    }
  }

  /** A successful objFileImport holds exactly the file's vertices, normals and faces, in file
      order, whatever the object held before: the lists restart empty. */
  lemma ObjFileImportLists(m: Mesh, lines: seq<Line>, libs: map<string, seq<Line>>,
                           parseFloat: FloatParser, sqrt: real -> real)
    requires ObjFileImport(m, lines, libs, parseFloat, sqrt).1.None?
    ensures var m' := ObjFileImport(m, lines, libs, parseFloat, sqrt).0;
      m'.verts == FileVerts(lines, parseFloat) && m'.norms == FileNorms(lines, parseFloat) &&
      m'.surfs == FileFaces(lines) && m'.maxr == sqrt(RunningMax(m.maxr, FileVerts(lines, parseFloat)))
  {
    var st0 := ImportState(ResetMesh(m), None);
    ImportLinesLists(st0, lines, libs, parseFloat);
    ImportLinesKeepInv(m.maxr, st0, lines, libs, parseFloat);
  }

  /** An f line in one equation: the parse error, or the mesh with the face, its edges and the
      colour rule applied. */
  lemma FaceLineResult(st: ImportState, args: Line, libs: map<string, seq<Line>>, parseFloat: FloatParser)
    requires args[0] == "f"
    ensures ParseFace(args[1..]).Err? ==>
      ImportLine(st, args, libs, parseFloat) == Err(ParseFace(args[1..]).error)
    ensures ParseFace(args[1..]).Ok? ==>
      var face := ParseFace(args[1..]).value;
      ImportLine(st, args, libs, parseFloat) ==
        Ok(st.(mesh := st.mesh.(edges := AddEdges(st.mesh.edges, FaceCycle(face.verts)), surfs := st.mesh.surfs + [face],
          cols := if HasMats(st.mesh.mats) && HasCurmat(st.curmat) then st.mesh.cols + [st.curmat.value] else st.mesh.cols)))
  {
  }

  /** With no lines, objFileImport leaves the lists and the materials empty, keeps the name, and
      takes the square root of the previous maxr. */
  lemma ObjFileImportEmpty(m: Mesh, libs: map<string, seq<Line>>, parseFloat: FloatParser, sqrt: real -> real)
    ensures ObjFileImport(m, [], libs, parseFloat, sqrt) ==
      (Mesh([], [], [], [], [], m.name, None, sqrt(m.maxr)), None)
  {
  }

  /** A v line appends its vertex and raises maxr to its squared norm when that is larger. */
  lemma VertexLine(st: ImportState, args: Line, libs: map<string, seq<Line>>, parseFloat: FloatParser)
    requires args[0] == "v"
    ensures ImportLine(st, args, libs, parseFloat).Ok? <==> ParseTriple(args, parseFloat).Ok?
    ensures ImportLine(st, args, libs, parseFloat).Ok? ==>
      var m' := ImportLine(st, args, libs, parseFloat).value.mesh;
      var v := ParseTriple(args, parseFloat).value;
      m'.verts == st.mesh.verts + [v] &&
      m'.maxr >= st.mesh.maxr && m'.maxr >= Util.SqMag(v) &&
      (m'.maxr == st.mesh.maxr || m'.maxr == Util.SqMag(v))
  {
  }
}
