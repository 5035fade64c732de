/** The drawable object: named vertices and faces, the line calls its render
    issues, and the fixed cube mesh of the demo. */
module Meshes {
  import opened Geometry

  /** An Object: a vertex map and a list of faces, each an ordered list of vertex names. */
  datatype Mesh = Mesh(vertices: map<string, Vec3>, faces: seq<seq<string>>)

  /** The line from the vertex named from to the vertex named to. */
  datatype Edge = Edge(from: string, to: string)

  /** A call on the drawing surface: clearing it, or line(p1, p2). */
  datatype DrawCall = Clear | Line(p1: Point2, p2: Point2)

  /** The vertex names one face mentions. */
  function Names(face: seq<string>): set<string>
  {
    set i | 0 <= i < |face| :: face[i]
  }

  /** Every vertex name that some face mentions. */
  function Referenced(faces: seq<seq<string>>): set<string>
  {
    if faces == [] then {} else Referenced(faces[..|faces| - 1]) + Names(faces[|faces| - 1])
  }

  /** The vertex named k exists and does not sit at depth 0 once shifted by dz. */
  predicate Drawable(m: Mesh, dz: real, k: string)
  {
    k in m.vertices && Translate(m.vertices[k], [0.0, 0.0, dz]).z != 0.0
  }

  /** What render needs of a mesh: every name a face mentions resolves to a
      vertex, and no such vertex is projected from depth 0. */
  predicate Renderable(m: Mesh, dz: real)
  {
    forall k :: k in Referenced(m.faces) ==> Drawable(m, dz, k)
  }

  predicate AllDrawable(m: Mesh, dz: real, es: seq<Edge>)
  {
    forall e :: e in es ==> Drawable(m, dz, e.from) && Drawable(m, dz, e.to)
  }

  /** Where render draws the vertex named k: shifted by (0, 0, dz), projected, screenified. */
  function ScreenPoint(m: Mesh, dz: real, k: string): Point2
    requires Drawable(m, dz, k)
  {
    Screenify(Project(Translate(m.vertices[k], [0.0, 0.0, dz])))
  }

  /** The lines of one face, in order, wrapping from its last vertex to its first. */
  function FaceEdges(face: seq<string>): seq<Edge>
  {
    seq(|face|, i requires 0 <= i < |face| => Edge(face[i], face[(i + 1) % |face|]))
  }

  /** The lines of all faces, face after face in list order. */
  function Edges(faces: seq<seq<string>>): seq<Edge>
  {
    if faces == [] then []
    else
      Edges(faces[..|faces| - 1]) + FaceEdges(faces[|faces| - 1])
  }

  function TotalLength(faces: seq<seq<string>>): nat
  {
    if faces == [] then 0 else TotalLength(faces[..|faces| - 1]) + |faces[|faces| - 1]|
  }

  /** The line calls issued for a list of edges. */
  function Drawn(m: Mesh, dz: real, es: seq<Edge>): seq<DrawCall>
    requires AllDrawable(m, dz, es)
  {
    if es == [] then []
    else
      var e := es[|es| - 1];
      Drawn(m, dz, es[..|es| - 1]) + [Line(ScreenPoint(m, dz, e.from), ScreenPoint(m, dz, e.to))]
  }

  /** Object.render: for each face, for each index i, one line from face[i] to
      face[(i + 1) % |face|], each end shifted by dz, projected and screenified.
      The angle is accepted and never read. */
  method Render(m: Mesh, dz: real, angle: real) returns (calls: seq<DrawCall>)
    requires Renderable(m, dz)
    ensures AllDrawable(m, dz, Edges(m.faces))
    ensures calls == Drawn(m, dz, Edges(m.faces))
  {
    calls := [];
    PrefixDrawable(m, dz, 0);
    for f := 0 to |m.faces|
      invariant AllDrawable(m, dz, Edges(m.faces[..f]))
      invariant calls == Drawn(m, dz, Edges(m.faces[..f]))
    {
      var face := m.faces[f];
      assert Edges(m.faces[..f]) + FaceEdges(face)[..0] == Edges(m.faces[..f]);
      for i := 0 to |face|
        invariant AllDrawable(m, dz, Edges(m.faces[..f]) + FaceEdges(face)[..i])
        invariant calls == Drawn(m, dz, Edges(m.faces[..f]) + FaceEdges(face)[..i])
      {
        LineStep(m, dz, f, i);
        var a := m.vertices[face[i]];
        var b := m.vertices[face[(i + 1) % |face|]];
        var pa := Screenify(Project(Translate(a, [0.0, 0.0, dz])));
        var pb := Screenify(Project(Translate(b, [0.0, 0.0, dz])));
        calls := calls + [Line(pa, pb)];
      }
      FaceStep(m, dz, f);
      PrefixDrawable(m, dz, f + 1);
    }
    assert m.faces[..|m.faces|] == m.faces;
  }

  // ---------------------------------------------------------------- lemmas

  /** The names the first n faces mention are among those all faces mention. */
  lemma {:induction false} ReferencedPrefix(faces: seq<seq<string>>, n: nat)
    requires n <= |faces|
    ensures Referenced(faces[..n]) <= Referenced(faces)
  {
    if n < |faces| {
      ReferencedPrefix(faces[..|faces| - 1], n);
      assert faces[..|faces| - 1][..n] == faces[..n];
    } else {
      assert faces[..n] == faces;
    }
  }

  /** Both ends of every line are names some face mentions. */
  lemma {:induction false} EdgesJoinReferenced(faces: seq<seq<string>>)
    ensures forall e :: e in Edges(faces) ==> e.from in Referenced(faces) && e.to in Referenced(faces)
  {
    if faces != [] {
      var init, last := faces[..|faces| - 1], faces[|faces| - 1];
      EdgesJoinReferenced(init);
      forall e | e in FaceEdges(last)
        ensures e.from in Names(last) && e.to in Names(last)
      {
        var i :| 0 <= i < |last| && FaceEdges(last)[i] == e;
        assert last[(i + 1) % |last|] in Names(last);
      }
    }
  }

  lemma PrefixDrawable(m: Mesh, dz: real, n: nat)
    requires Renderable(m, dz) && n <= |m.faces|
    ensures AllDrawable(m, dz, Edges(m.faces[..n]))
  {
    ReferencedPrefix(m.faces, n);
    EdgesJoinReferenced(m.faces[..n]);
  }

  /** After the lines of faces 0..f-1 and the first i lines of face f, the next
      line render draws joins face[i] and face[(i + 1) % |face|]. */
  lemma LineStep(m: Mesh, dz: real, f: nat, i: nat)
    requires Renderable(m, dz) && f < |m.faces| && i < |m.faces[f]|
    ensures var face := m.faces[f];
      && Drawable(m, dz, face[i]) && Drawable(m, dz, face[(i + 1) % |face|])
      && AllDrawable(m, dz, Edges(m.faces[..f]) + FaceEdges(face)[..i + 1])
      && Drawn(m, dz, Edges(m.faces[..f]) + FaceEdges(face)[..i + 1])
         == Drawn(m, dz, Edges(m.faces[..f]) + FaceEdges(face)[..i])
            + [Line(ScreenPoint(m, dz, face[i]), ScreenPoint(m, dz, face[(i + 1) % |face|]))]
  {
    var face := m.faces[f];
    var done := Edges(m.faces[..f]) + FaceEdges(face)[..i];
    var e := FaceEdges(face)[i];
    assert m.faces[..f + 1][..f] == m.faces[..f];
    assert Edges(m.faces[..f + 1]) == Edges(m.faces[..f]) + FaceEdges(face);
    PrefixDrawable(m, dz, f + 1);
    assert done + [e] == Edges(m.faces[..f]) + FaceEdges(face)[..i + 1];
    assert forall d :: d in done + [e] ==> d in Edges(m.faces[..f + 1]);
    DrawnAppend(m, dz, done, e);
  }

  /** Once every line of face f is drawn, the lines of faces 0..f have been drawn. */
  lemma FaceStep(m: Mesh, dz: real, f: nat)
    requires f < |m.faces|
    ensures Edges(m.faces[..f]) + FaceEdges(m.faces[f])[..|m.faces[f]|] == Edges(m.faces[..f + 1])
  {
    assert m.faces[..f + 1][..f] == m.faces[..f];
    assert FaceEdges(m.faces[f])[..|m.faces[f]|] == FaceEdges(m.faces[f]);
  }

  lemma DrawnAppend(m: Mesh, dz: real, es: seq<Edge>, e: Edge)
    requires AllDrawable(m, dz, es + [e])
    ensures AllDrawable(m, dz, es)
    ensures Drawn(m, dz, es + [e]) == Drawn(m, dz, es) + [Line(ScreenPoint(m, dz, e.from), ScreenPoint(m, dz, e.to))]
  {
    assert (es + [e])[..|es|] == es;
  }

  /** Render issues one line per edge, and line k joins the screen points of edge k. */
  lemma {:induction false} DrawnAt(m: Mesh, dz: real, es: seq<Edge>)
    requires AllDrawable(m, dz, es)
    ensures |Drawn(m, dz, es)| == |es|
    ensures forall k :: 0 <= k < |es| ==>
      Drawn(m, dz, es)[k] == Line(ScreenPoint(m, dz, es[k].from), ScreenPoint(m, dz, es[k].to))
  {
    if es != [] {
      var init := es[..|es| - 1];
      assert forall e :: e in init ==> e in es;
      DrawnAt(m, dz, init);
    }
  }

  /** The number of lines is the sum of the face lengths. */
  lemma {:induction false} EdgeCount(faces: seq<seq<string>>)
    ensures |Edges(faces)| == TotalLength(faces)
  {
    if faces != [] {
      EdgeCount(faces[..|faces| - 1]);
    }
  }

  /** Line number TotalLength(faces[..f]) + i is the one from faces[f][i] to the
      next vertex of that face, wrapping to its first. */
  lemma {:induction false} EdgeAt(faces: seq<seq<string>>, f: nat, i: nat)
    requires f < |faces| && i < |faces[f]|
    ensures TotalLength(faces[..f]) + i < |Edges(faces)|
    ensures Edges(faces)[TotalLength(faces[..f]) + i]
            == Edge(faces[f][i], faces[f][(i + 1) % |faces[f]|])
  {
    var init := faces[..|faces| - 1];
    EdgeCount(init);
    if f == |faces| - 1 {
      assert faces[..f] == init;
    } else {
      EdgeAt(init, f, i);
      assert init[..f] == faces[..f];
    }
  }

  /** The lines of a face form a closed walk through its vertices. */
  lemma FaceIsClosedWalk(face: seq<string>)
    requires |face| > 0
    ensures forall i :: 0 <= i < |face| ==> FaceEdges(face)[i].from == face[i]
    ensures forall i :: 0 <= i < |face| - 1 ==> FaceEdges(face)[i].to == FaceEdges(face)[i + 1].from
    ensures FaceEdges(face)[|face| - 1].to == face[0]
  {
    var n := |face|;
    forall i | 0 <= i < n - 1
      ensures FaceEdges(face)[i].to == FaceEdges(face)[i + 1].from
    {
      assert (i + 1) % n == i + 1;
    }
    assert (n - 1 + 1) % n == 0;
  }

  /** A two-vertex face draws its edge twice, once in each direction. */
  lemma TwoVertexFace(a: string, b: string)
    ensures FaceEdges([a, b]) == [Edge(a, b), Edge(b, a)]
  {
    assert (1 + 1) % 2 == 0;
  }

  lemma FourVertexFace(a: string, b: string, c: string, d: string)
    ensures FaceEdges([a, b, c, d]) == [Edge(a, b), Edge(b, c), Edge(c, d), Edge(d, a)]
  {
    assert (3 + 1) % 4 == 0;
  }

  // ---------------------------------------------------------------- the cube

  /** The demo's cube: corners at +-0.25, a front and a back square and four connecting faces. */
  const Cube: Mesh := Mesh(
    map[
      "v0" := Vec3(0.25, 0.25, 0.25),
      "v1" := Vec3(0.25, -0.25, 0.25),
      "v2" := Vec3(-0.25, -0.25, 0.25),
      "v3" := Vec3(-0.25, 0.25, 0.25),
      "v4" := Vec3(0.25, 0.25, -0.25),
      "v5" := Vec3(0.25, -0.25, -0.25),
      "v6" := Vec3(-0.25, -0.25, -0.25),
      "v7" := Vec3(-0.25, 0.25, -0.25)
    ],
    [
      ["v0", "v1", "v2", "v3"],
      ["v4", "v5", "v6", "v7"],
      ["v0", "v4"],
      ["v1", "v5"],
      ["v2", "v6"],
      ["v3", "v7"]
    ])

  /** Every name in a face of the cube is one of its vertices. */
  lemma TwoNames(a: string, b: string)
    ensures Names([a, b]) == {a, b}
  {
    var face := [a, b];
    assert face[0] == a && face[1] == b;
    forall x | x in Names(face) ensures x in {a, b} {
      var i :| 0 <= i < 2 && face[i] == x;
    }
  }

  lemma FourNames(a: string, b: string, c: string, d: string)
    ensures Names([a, b, c, d]) == {a, b, c, d}
  {
    var face := [a, b, c, d];
    assert face[0] == a && face[1] == b && face[2] == c && face[3] == d;
    forall x | x in Names(face) ensures x in {a, b, c, d} {
      var i :| 0 <= i < 4 && face[i] == x;
    }
  }

  lemma CubeReferences()
    ensures Referenced(Cube.faces) == Cube.vertices.Keys
  {
    var fs := Cube.faces;
    FourNames("v0", "v1", "v2", "v3");
    FourNames("v4", "v5", "v6", "v7");
    TwoNames("v0", "v4");
    TwoNames("v1", "v5");
    TwoNames("v2", "v6");
    TwoNames("v3", "v7");
    CubePrefixes();
    assert Referenced(fs[..1]) == {"v0", "v1", "v2", "v3"};
    assert Referenced(fs[..2]) == Referenced(fs[..1]) + {"v4", "v5", "v6", "v7"};
    assert Referenced(fs[..3]) == Referenced(fs[..2]) + {"v0", "v4"};
    assert Referenced(fs[..4]) == Referenced(fs[..3]) + {"v1", "v5"};
    assert Referenced(fs[..5]) == Referenced(fs[..4]) + {"v2", "v6"};
    assert Referenced(fs) == Referenced(fs[..5]) + {"v3", "v7"};
  }

  lemma CubePrefixes()
    ensures var fs := Cube.faces;
      && fs[..6] == fs && fs[..6][..5] == fs[..5] && fs[..5][..4] == fs[..4]
      && fs[..4][..3] == fs[..3] && fs[..3][..2] == fs[..2] && fs[..2][..1] == fs[..1]
      && fs[..1][..0] == []
  {
  }

  /** Shifted by dz = 1, every cube vertex sits at depth 0.75 or 1.25. */
  lemma CubeDepths(k: string)
    requires k in Cube.vertices
    ensures Translate(Cube.vertices[k], [0.0, 0.0, 1.0]).z in {0.75, 1.25}
  {
  }

  /** render can draw the cube exactly when the shift does not bring a face of it to depth 0. */
  lemma CubeRenderable(dz: real)
    ensures Renderable(Cube, dz) <==> dz != 0.25 && dz != -0.25
  {
    CubeReferences();
    if Renderable(Cube, dz) {
      assert Drawable(Cube, dz, "v0") && Drawable(Cube, dz, "v4");
    } else {
      forall k | k in Cube.vertices
        ensures Cube.vertices[k].z == 0.25 || Cube.vertices[k].z == -0.25
      {
      }
    }
  }

  /** The 16 lines render draws for the cube, in order. */
  lemma CubeEdges()
    ensures Edges(Cube.faces) == [
      Edge("v0", "v1"), Edge("v1", "v2"), Edge("v2", "v3"), Edge("v3", "v0"),
      Edge("v4", "v5"), Edge("v5", "v6"), Edge("v6", "v7"), Edge("v7", "v4"),
      Edge("v0", "v4"), Edge("v4", "v0"),
      Edge("v1", "v5"), Edge("v5", "v1"),
      Edge("v2", "v6"), Edge("v6", "v2"),
      Edge("v3", "v7"), Edge("v7", "v3")]
    ensures TotalLength(Cube.faces) == 16
  {
    var fs := Cube.faces;
    CubeEdgesByFace();
    FourVertexFace("v0", "v1", "v2", "v3");
    FourVertexFace("v4", "v5", "v6", "v7");
    TwoVertexFace("v0", "v4");
    TwoVertexFace("v1", "v5");
    TwoVertexFace("v2", "v6");
    TwoVertexFace("v3", "v7");
    EdgeCount(fs);
  }

  lemma CubeEdgesByFace()
    ensures var fs := Cube.faces;
      Edges(fs) == FaceEdges(fs[0]) + FaceEdges(fs[1]) + FaceEdges(fs[2])
                   + FaceEdges(fs[3]) + FaceEdges(fs[4]) + FaceEdges(fs[5])
  {
    var fs := Cube.faces;
    CubePrefixes();
    assert Edges(fs[..1]) == FaceEdges(fs[0]) by {
      assert Edges(fs[..1]) == Edges(fs[..1][..0]) + FaceEdges(fs[0]);
    }
    assert Edges(fs[..2]) == Edges(fs[..1]) + FaceEdges(fs[1]);
    assert Edges(fs[..3]) == Edges(fs[..2]) + FaceEdges(fs[2]);
    assert Edges(fs[..4]) == Edges(fs[..3]) + FaceEdges(fs[3]);
    assert Edges(fs[..5]) == Edges(fs[..4]) + FaceEdges(fs[4]);
    assert Edges(fs) == Edges(fs[..5]) + FaceEdges(fs[5]);
  }
}
