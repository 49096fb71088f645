/** The DisplayObj and Material classes of utils/DisplayObj.py and its loadMats reader, proved
    against the functions of MeshModel. Drawing and display-list registration are not modelled. */
module Display {
  import opened Errors
  import Util
  import opened MeshModel

  /** A material's colours and transparency, updated in place by loadMats and set_dse. */
  class Material {
    var amb: seq<real>
    var diff: seq<real>
    var spec: seq<real>
    var emm: seq<real>
    var trans: real

    function Value(): MatValue
      reads this
    {
      MatValue(amb, diff, spec, emm, trans)
    }

    constructor ()
      ensures Value() == DefaultMat
    {
      amb := [0.2, 0.2, 0.2, 1.0];
      diff := [0.8, 0.8, 0.8, 0.8];
      spec := [0.0, 0.0, 0.0, 1.0];
      emm := [0.0, 0.0, 0.0, 1.0];
      trans := 1.0;
    }

    /** set_dse: d becomes both the ambient and the diffuse colour. */
    method SetDse(d: seq<real>, s: seq<real>, e: seq<real>)
      modifies this
      ensures Value() == WithDse(old(Value()), d, s, e)
    {
      amb := d;
      diff := d;
      spec := s;
      emm := e;
    }
  }

  /** The values of a dictionary of materials. */
  function MatValues(mats: map<string, Material>): (r: map<string, MatValue>)
    reads mats.Values
    ensures r.Keys == mats.Keys && |r| == |mats|
  {
    var r := map k | k in mats :: mats[k].Value();
    assert r.Keys == mats.Keys;
    r
  }

  /** No two names share a Material object, so updating one leaves the others alone. */
  predicate Distinct(mats: map<string, Material>)
  {
    forall k1, k2 :: k1 in mats && k2 in mats && k1 != k2 ==> mats[k1] != mats[k2]
  }

  /** The assignments of one Kd, Ks, Ke or d line to the current material: only that material's
      value changes, in the fields the command names. */
  method UpdateMaterial(mats: map<string, Material>, k: string, cmd: string, t: seq<real>, x: real)
    requires Distinct(mats) && k in mats
    modifies mats[k]
    ensures MatValues(mats) == old(MatValues(mats))[k := mats[k].Value()]
    ensures mats[k].Value() ==
      if cmd == "Kd" then old(mats[k].Value()).(amb := t, diff := t)
      else if cmd == "Ks" then old(mats[k].Value()).(spec := t)
      else if cmd == "Ke" then old(mats[k].Value()).(emm := t)
      else old(mats[k].Value()).(trans := x)
  {
    ghost var before := MatValues(mats);
    var m := mats[k];
    if cmd == "Kd" {
      m.amb := t;
      m.diff := t;
    } else if cmd == "Ks" {
      m.spec := t;
    } else if cmd == "Ke" {
      m.emm := t;
    } else {
      m.trans := x;
    }
    forall k' | k' in mats
      ensures MatValues(mats)[k'] == before[k := m.Value()][k']
    {
      if k' != k {
        assert mats[k'] != m;
      }
    }
  }

  /** loadMats on the lines of a material file: a dictionary of new, unshared Material objects
      whose values are those LoadMatsSpec computes, or the error it raises. */
  method LoadMats(lines: seq<Line>, parseFloat: FloatParser) returns (r: Result<map<string, Material>>)
    ensures r.Err? ==> LoadMatsSpec(lines, parseFloat) == Err(r.error)
    ensures r.Ok? ==> LoadMatsSpec(lines, parseFloat) == Ok(MatValues(r.value))
    ensures r.Ok? ==> Distinct(r.value) && forall k :: k in r.value ==> fresh(r.value[k])
  {
    var mats: map<string, Material> := map[];
    var curmat: Option<string> := None;
    ghost var ms0 := MatState(map[], None);
    for i := 0 to |lines|
      invariant Distinct(mats) && forall k :: k in mats ==> fresh(mats[k])
      invariant MatLines(ms0, lines[..i], parseFloat) == Ok(MatState(MatValues(mats), curmat))
    {
      assert lines[..i + 1][..i] == lines[..i];
      var err;
      err, mats, curmat := LoadMatsLine(mats, curmat, lines[i], parseFloat);
      if err.Some? {
        MatErrorStops(ms0, lines, i + 1, parseFloat);
        return Err(err.value);
      }
    }
    assert lines[..|lines|] == lines;
    return Ok(mats);
  }

  /** One pass of the loop of loadMats: the error MatLine raises, or the materials and current
      name it leaves, with any new material a new object. */
  method LoadMatsLine(mats: map<string, Material>, curmat: Option<string>, args: Line, parseFloat: FloatParser)
    returns (err: Option<PyError>, mats': map<string, Material>, curmat': Option<string>)
    requires Distinct(mats)
    modifies mats.Values
    ensures err.Some? ==> MatLine(MatState(old(MatValues(mats)), curmat), args, parseFloat) == Err(err.value)
    ensures err.None? ==> MatLine(MatState(old(MatValues(mats)), curmat), args, parseFloat) == Ok(MatState(MatValues(mats'), curmat'))
    ensures Distinct(mats')
    ensures forall k :: k in mats' ==> (k in mats && mats'[k] == mats[k]) || fresh(mats'[k])
  {
    mats', curmat' := mats, curmat;
    ghost var before := MatValues(mats);
    var cmd := args[0];
    if cmd == "newmtl" {
      if |args| < 2 {
        return Some(IndexError), mats', curmat';
      }
      curmat' := Some(args[1]);
      var m := new Material();
      mats' := mats[args[1] := m];
      assert MatValues(mats') == before[args[1] := DefaultMat];
      assert MatLine(MatState(before, curmat), args, parseFloat) == Ok(MatState(MatValues(mats'), curmat'));
    } else if cmd == "Kd" || cmd == "Ks" || cmd == "Ke" || cmd == "d" {
      var t: seq<real> := [];
      var x: real := 0.0;
      if cmd == "d" {
        if |args| < 2 {
          return Some(IndexError), mats', curmat';
        }
        var p := parseFloat(args[1]);
        if p.None? {
          return Some(ValueError), mats', curmat';
        }
        x := p.value;
      } else {
        var p := ParseTriple(args, parseFloat);
        if p.Err? {
          return Some(p.error), mats', curmat';
        }
        t := p.value;
      }
      if curmat.None? || curmat.value !in mats {
        return Some(KeyError), mats', curmat';
      }
      UpdateMaterial(mats, curmat.value, cmd, t, x);
      assert MatLine(MatState(before, curmat), args, parseFloat) == Ok(MatState(MatValues(mats'), curmat'));
    }
    return None, mats', curmat';
  }

  /** The parsing half of loadFaceCmd: the token loop that collects the vertex numbers, keeping
      the last token's fields in tmp, then the normal from tmp. */
  method ParseFaceTokens(args: seq<string>) returns (r: Result<Face>)
    ensures r == ParseFace(args)
  {
    var vertlist: seq<int> := [];
    var tmp: Option<seq<string>> := None;
    for i := 0 to |args|
      invariant ParseVerts(args[..i]) == Ok(vertlist)
      invariant i == 0 ==> tmp.None?
      invariant i > 0 ==> tmp == Some(Split(args[i - 1], '/'))
    {
      assert args[..i + 1][..i] == args[..i];
      var t := Split(args[i], '/');
      tmp := Some(t);
      var v := ParseInt(t[0]);
      if v.None? {
        assert VertexField(args[i]).None?;
        return Err(ValueError);
      }
      vertlist := vertlist + [v.value - 1];
    }
    assert args[..|args|] == args;
    if tmp.None? {
      return Err(TypeError);
    }
    if |tmp.value| < 3 {
      return Err(IndexError);
    }
    var n := ParseInt(tmp.value[2]);
    if n.None? {
      return Err(ValueError);
    }
    return Ok(Face(vertlist, n.value - 1));
  }

  /** A loaded mesh: the lists objFileImport fills and loadFaceCmd extends, its materials, and the
      largest vertex distance from the origin. */
  class DisplayObj {
    var verts: seq<seq<real>>
    var norms: seq<seq<real>>
    var edges: seq<Edge>
    var surfs: seq<Face>
    var cols: seq<string>
    var name: Option<string>
    var mats: Option<map<string, Material>>
    var maxr: real
    var scale: real
    var dlindex: int

    /** The Material objects the mesh refers to. */
    function Materials(): set<Material>
      reads this
    {
      if mats.Some? then mats.value.Values else {}
    }

    /** The mesh fields as a value. */
    function State(): Mesh
      reads this, Materials()
    {
      Mesh(verts, norms, edges, surfs, cols, name,
           if mats.Some? then Some(MatValues(mats.value)) else None, maxr)
    }

    /** __init__: the given lists are kept (an absent list is empty here), the mats argument is
        ignored, maxr starts at 0, scale at 1 and the display-list index at -1. */
    constructor (verts: seq<seq<real>>, norms: seq<seq<real>>, edges: seq<Edge>, surfs: seq<Face>,
                 cols: seq<string>, nam: Option<string>, mats: Option<map<string, Material>>)
      ensures State() == Mesh(verts, norms, edges, surfs, cols, nam, None, 0.0)
      ensures this.mats.None? && scale == 1.0 && dlindex == -1
    {
      this.verts := verts;
      this.norms := norms;
      this.edges := edges;
      this.surfs := surfs;
      this.cols := cols;
      this.name := nam;
      this.mats := None;
      maxr := 0.0;
      scale := 1.0;
      dlindex := -1;
    }

    /** loadFaceCmd: on success the face's edges are added and the face appended to the
        surfaces, as ParseFace and AddEdges say; on error nothing changes. */
    method LoadFaceCmd(args: seq<string>) returns (err: Option<PyError>)
      modifies this
      ensures ParseFace(args).Err? ==> err == Some(ParseFace(args).error) && edges == old(edges) && surfs == old(surfs)
      ensures ParseFace(args).Ok? ==> err.None?
      ensures ParseFace(args).Ok? ==> edges == AddEdges(old(edges), FaceCycle(ParseFace(args).value.verts))
      ensures ParseFace(args).Ok? ==> surfs == old(surfs) + [ParseFace(args).value]
      ensures verts == old(verts) && norms == old(norms) && cols == old(cols) && name == old(name)
      ensures mats == old(mats) && maxr == old(maxr) && scale == old(scale) && dlindex == old(dlindex)
    {
      var face := ParseFaceTokens(args);
      if face.Err? {
        return Some(face.error);
      }
      AddFaceEdges(face.value.verts);
      surfs := surfs + [face.value];
      return None;
    }

    /** The edge loops of loadFaceCmd: each consecutive pair of the vertex list, then the closing
        pair, appended unless it or its reverse is already present. */
    method AddFaceEdges(vertlist: seq<int>)
      requires |vertlist| >= 1
      modifies this
      ensures edges == AddEdges(old(edges), FaceCycle(vertlist))
      ensures verts == old(verts) && norms == old(norms) && cols == old(cols) && name == old(name) && surfs == old(surfs)
      ensures mats == old(mats) && maxr == old(maxr) && scale == old(scale) && dlindex == old(dlindex)
    {
      ghost var cycle := FaceCycle(vertlist);
      for i := 0 to |vertlist| - 1
        invariant edges == AddEdges(old(edges), cycle[..i])
        invariant verts == old(verts) && norms == old(norms) && cols == old(cols) && name == old(name) && surfs == old(surfs)
        invariant mats == old(mats) && maxr == old(maxr) && scale == old(scale) && dlindex == old(dlindex)
      {
        var edge := (vertlist[i], vertlist[i + 1]);
        if edge !in edges && (edge.1, edge.0) !in edges {
          edges := edges + [edge];
        }
        AddEdgesSnoc(old(edges), cycle[..i], edge);
        assert cycle[..i + 1] == cycle[..i] + [edge];
      }
      var edge := (vertlist[|vertlist| - 1], vertlist[0]);
      if edge !in edges && (edge.1, edge.0) !in edges {
        edges := edges + [edge];
      }
      AddEdgesSnoc(old(edges), cycle[..|vertlist| - 1], edge);
      assert cycle[..|vertlist| - 1] + [edge] == cycle;
    }

    /** objFileImport over the object file's lines: the state and error ObjFileImport describes;
        the materials it holds afterwards are new and unshared. */
    method ObjFileImport(lines: seq<Line>, libs: map<string, seq<Line>>, parseFloat: FloatParser,
                         sqrt: real -> real) returns (err: Option<PyError>)
      modifies this
      ensures (State(), err) == MeshModel.ObjFileImport(old(State()), lines, libs, parseFloat, sqrt)
      ensures mats.Some? ==> Distinct(mats.value) && forall k :: k in mats.value ==> fresh(mats.value[k])
    {
      var curmat: Option<string> := None;
      err := None;
      verts := [];
      norms := [];
      edges := [];
      surfs := [];
      cols := [];
      mats := None;
      ghost var st0 := ImportState(State(), None);
      assert st0.mesh == ResetMesh(old(State()));

      for i := 0 to |lines|
        invariant ImportLines(st0, lines[..i], libs, parseFloat) == Outcome(ImportState(State(), curmat), None)
        invariant mats.Some? ==> Distinct(mats.value) && forall k :: k in mats.value ==> fresh(mats.value[k])
      {
        ImportLinesSnoc(st0, lines, i, libs, parseFloat);
        var e, c := ImportLineStep(lines[i], curmat, libs, parseFloat);
        if e.Some? {
          assert ImportLines(st0, lines[..i + 1], libs, parseFloat) == Outcome(ImportState(State(), curmat), e);
          ErrorStops(st0, lines, i + 1, libs, parseFloat);
          return e;
        }
        curmat := c;
      }
      assert lines[..|lines|] == lines;
      maxr := sqrt(maxr);
    }

    /** One pass of the read loop of objFileImport: the error ImportLine raises, with nothing
        changed, or the mesh and current material name it leaves. */
    method ImportLineStep(args: Line, curmat: Option<string>, libs: map<string, seq<Line>>,
                          parseFloat: FloatParser) returns (err: Option<PyError>, curmat': Option<string>)
      modifies this
      ensures err.Some? ==> ImportLine(ImportState(old(State()), curmat), args, libs, parseFloat) == Err(err.value)
      ensures err.Some? ==> State() == old(State())
      ensures err.None? ==> ImportLine(ImportState(old(State()), curmat), args, libs, parseFloat) == Ok(ImportState(State(), curmat'))
      ensures mats == old(mats) || (mats.Some? && Distinct(mats.value) && forall k :: k in mats.value ==> fresh(mats.value[k]))
    {
      var cmd := args[0];
      if cmd == "mtllib" {
        err, curmat' := ReadMtllib(args, curmat, libs, parseFloat);
      } else if cmd == "v" || cmd == "vn" {
        err, curmat' := ReadVector(args, curmat, libs, parseFloat);
      } else if cmd == "f" {
        err, curmat' := ReadFace(args, curmat, libs, parseFloat);
      } else {
        err, curmat' := ReadName(args, curmat, libs, parseFloat);
      }
    }

    /** The mtllib branch: the named library is read with loadMats and replaces the materials. */
    method ReadMtllib(args: Line, curmat: Option<string>, libs: map<string, seq<Line>>,
                      parseFloat: FloatParser) returns (err: Option<PyError>, curmat': Option<string>)
      requires args[0] == "mtllib"
      modifies this
      ensures err.Some? ==> ImportLine(ImportState(old(State()), curmat), args, libs, parseFloat) == Err(err.value)
      ensures err.Some? ==> State() == old(State())
      ensures err.None? ==> ImportLine(ImportState(old(State()), curmat), args, libs, parseFloat) == Ok(ImportState(State(), curmat'))
      ensures mats == old(mats) || (mats.Some? && Distinct(mats.value) && forall k :: k in mats.value ==> fresh(mats.value[k]))
    {
      curmat' := curmat;
      if |args| < 2 {
        return Some(IndexError), curmat';
      }
      if args[1] !in libs {
        return Some(FileNotFoundError), curmat';
      }
      var r := LoadMats(libs[args[1]], parseFloat);
      if r.Err? {
        return Some(r.error), curmat';
      }
      mats := Some(r.value);
      return None, curmat';
    }

    /** The v and vn branches: a vertex is appended and maxr raised to its squared norm when that
        is larger; a normal is appended. */
    method ReadVector(args: Line, curmat: Option<string>, libs: map<string, seq<Line>>,
                      parseFloat: FloatParser) returns (err: Option<PyError>, curmat': Option<string>)
      requires args[0] == "v" || args[0] == "vn"
      modifies this
      ensures err.Some? ==> ImportLine(ImportState(old(State()), curmat), args, libs, parseFloat) == Err(err.value)
      ensures err.Some? ==> State() == old(State())
      ensures err.None? ==> ImportLine(ImportState(old(State()), curmat), args, libs, parseFloat) == Ok(ImportState(State(), curmat'))
      ensures mats == old(mats)
    {
      curmat' := curmat;
      var vec := ParseTriple(args, parseFloat);
      if vec.Err? {
        return Some(vec.error), curmat';
      }
      if args[0] == "v" {
        verts := verts + [vec.value];
        var sumSquares := Util.SqMag(vec.value);
        if maxr < sumSquares {
          maxr := sumSquares;
        }
      } else {
        norms := norms + [vec.value];
      }
      return None, curmat';
    }

    /** The f branch: loadFaceCmd on the remaining tokens, then the current material name is
        appended to cols when there are materials and a current name. */
    method ReadFace(args: Line, curmat: Option<string>, libs: map<string, seq<Line>>,
                    parseFloat: FloatParser) returns (err: Option<PyError>, curmat': Option<string>)
      requires args[0] == "f"
      modifies this
      ensures err.Some? ==> ImportLine(ImportState(old(State()), curmat), args, libs, parseFloat) == Err(err.value)
      ensures err.Some? ==> State() == old(State())
      ensures err.None? ==> ImportLine(ImportState(old(State()), curmat), args, libs, parseFloat) == Ok(ImportState(State(), curmat'))
      ensures mats == old(mats)
    {
      curmat' := curmat;
      ghost var st := ImportState(State(), curmat);
      FaceLineResult(st, args, libs, parseFloat);
      err := LoadFaceCmd(args[1..]);
      if err.Some? {
        return;
      }
      if mats.Some? && |mats.value| > 0 && HasCurmat(curmat) {
        cols := cols + [curmat.value];
      }
      ghost var face := ParseFace(args[1..]).value;
      assert State() == st.mesh.(edges := AddEdges(st.mesh.edges, FaceCycle(face.verts)), surfs := st.mesh.surfs + [face],
        cols := if HasMats(st.mesh.mats) && HasCurmat(curmat) then st.mesh.cols + [curmat.value] else st.mesh.cols);
    }

    /** The o and usemtl branches, which take a name from the second token, and every other
        command, which is ignored. */
    method ReadName(args: Line, curmat: Option<string>, libs: map<string, seq<Line>>,
                    parseFloat: FloatParser) returns (err: Option<PyError>, curmat': Option<string>)
      requires args[0] !in {"mtllib", "v", "vn", "f"}
      modifies this
      ensures err.Some? ==> ImportLine(ImportState(old(State()), curmat), args, libs, parseFloat) == Err(err.value)
      ensures err.Some? ==> State() == old(State())
      ensures err.None? ==> ImportLine(ImportState(old(State()), curmat), args, libs, parseFloat) == Ok(ImportState(State(), curmat'))
      ensures mats == old(mats)
    {
      curmat' := curmat;
      var cmd := args[0];
      if cmd == "o" || cmd == "usemtl" {
        if |args| < 2 {
          return Some(IndexError), curmat';
        }
        if cmd == "o" {
          name := Some(args[1]);
        } else {
          curmat' := Some(args[1]);
        }
      }
      return None, curmat';
    }
  }
}
