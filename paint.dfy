/** The egui drawing primitives the map caches hold (positions, colours,
    triangle meshes, line strips) and the one mesh-building closure that both
    data generations share: one vertex per point, all in one colour, and the
    triangulator's indices truncated to whole triangles. */
module Paint {
  import opened Common
  import opened Geometry

  datatype Pos2 = Pos2(x: real, y: real)
  datatype Color32 = Color32(r: nat, g: nat, b: nat)
  datatype Vertex = Vertex(pos: Pos2, uv: Pos2, color: Color32)
  datatype Mesh = Mesh(vertices: seq<Vertex>, indices: seq<nat>)
  datatype Stroke = Stroke(width: real, color: Color32)
  datatype Shape = MeshShape(mesh: Mesh) | LineShape(points: seq<Pos2>, stroke: Stroke)

  /** The three per-country mesh lists; they differ only in fill colour. */
  datatype CountryMeshes = CountryMeshes(default: seq<Shape>, hovered: seq<Shape>, selected: seq<Shape>)

  const ZERO := Pos2(0.0, 0.0)
  const DEFAULT_FILL := Color32(222, 163, 139)
  const HOVERED_FILL := Color32(249, 130, 132)
  const SELECTED_FILL := Color32(255, 196, 132)
  const OUTLINE_COLOR := Color32(108, 86, 113)

  /** A ring's coordinates as screen positions, y negated. */
  function Negated(ring: seq<Coord>): (r: seq<Pos2>)
    ensures |r| == |ring| && forall i :: 0 <= i < |ring| ==> r[i] == Pos2(ring[i].x, -ring[i].y)
  {
    seq(|ring|, i requires 0 <= i < |ring| => Pos2(ring[i].x, -ring[i].y))
  }

  /** A ring's coordinates as screen positions, unchanged. */
  function Plain(ring: seq<Coord>): (r: seq<Pos2>)
    ensures |r| == |ring| && forall i :: 0 <= i < |ring| ==> r[i] == Pos2(ring[i].x, ring[i].y)
  {
    seq(|ring|, i requires 0 <= i < |ring| => Pos2(ring[i].x, ring[i].y))
  }

  /** `x as u32` on a `usize`: keeps the low 32 bits. */
  function U32(x: nat): (r: nat)
    ensures r < 0x1_0000_0000
    ensures x < 0x1_0000_0000 ==> r == x
  {
    x % 0x1_0000_0000
  }

  /** The vertices of a mesh over `points`: same positions, one colour. */
  function MeshVertices(points: seq<Pos2>, color: Color32): (vs: seq<Vertex>)
    ensures |vs| == |points|
    ensures forall i :: 0 <= i < |vs| ==> vs[i].pos == points[i] && vs[i].color == color
  {
    seq(|points|, i requires 0 <= i < |points| => Vertex(points[i], ZERO, color))
  }

  /** The index buffer: the triangulator's output truncated to whole triples.
      A trailing chunk of one or two indices is dropped. */
  function TriangleIndices(indices: seq<nat>): (r: seq<nat>)
    ensures |r| % 3 == 0
    ensures |r| <= |indices| < |r| + 3
    ensures forall i :: 0 <= i < |r| ==> r[i] == U32(indices[i])
  {
    var n := |indices| / 3 * 3;
    seq(n, i requires 0 <= i < n => U32(indices[i]))
  }

  function MeshOf(points: seq<Pos2>, indices: seq<nat>, color: Color32): Mesh {
    Mesh(MeshVertices(points, color), TriangleIndices(indices))
  }

  /** The `create_mesh` closure: push one vertex per point, then walk
      `indices.chunks(3)` and keep the chunks of length three. */
  method CreateMesh(points: seq<Pos2>, indices: seq<nat>, color: Color32) returns (shape: Shape)
    ensures shape == MeshShape(MeshOf(points, indices, color))
  {
    var vertices := PushVertices(points, color);
    var out := PushTriangles(indices);
    shape := MeshShape(Mesh(vertices, out));
  }

  /** The vertex loop. */
  method PushVertices(points: seq<Pos2>, color: Color32) returns (vertices: seq<Vertex>)
    ensures vertices == MeshVertices(points, color)
  {
    vertices := [];
    for i := 0 to |points|
      invariant vertices == MeshVertices(points[..i], color)
    {
      vertices := vertices + [Vertex(points[i], ZERO, color)];
    }
    assert points[..|points|] == points;
  }

  /** The `chunks(3)` loop: whole triples are pushed, a short last chunk is
      skipped. */
  method PushTriangles(indices: seq<nat>) returns (out: seq<nat>)
    ensures out == TriangleIndices(indices)
  {
    out := [];
    var i := 0;
    while i < |indices|
      invariant i % 3 == 0 && i <= |indices| + 2
      invariant i <= |indices| ==> out == TriangleIndices(indices[..i])
      invariant i > |indices| ==> out == TriangleIndices(indices)
    {
      var end := if i + 3 <= |indices| then i + 3 else |indices|;
      var chunk := indices[i..end];
      if |chunk| == 3 {
        out := out + [U32(chunk[0]), U32(chunk[1]), U32(chunk[2])];
        assert out == TriangleIndices(indices[..i + 3]);
      } else {
        assert out == TriangleIndices(indices);
      }
      i := i + 3;
    }
    if i <= |indices| {
      assert indices[..i] == indices;
    }
  }

  /** What one polygon adds: three meshes in the three fills when the
      triangulator succeeded, nothing at all when it failed. */
  function WithPolygon(acc: CountryMeshes, points: seq<Pos2>, triangulation: Option<seq<nat>>): CountryMeshes {
    match triangulation
    case None => acc
    case Some(indices) =>
      CountryMeshes(acc.default + [MeshShape(MeshOf(points, indices, DEFAULT_FILL))],
                    acc.hovered + [MeshShape(MeshOf(points, indices, HOVERED_FILL))],
                    acc.selected + [MeshShape(MeshOf(points, indices, SELECTED_FILL))])
  }

  /** The three lists have one entry per triangulated polygon each, and the
      i-th entries share vertex positions and index buffer and only differ in
      the fill colour, which is uniform within each mesh. */
  ghost predicate Lockstep(cm: CountryMeshes) {
    && |cm.default| == |cm.hovered| == |cm.selected|
    && forall i :: 0 <= i < |cm.default| ==>
         && cm.default[i].MeshShape? && cm.hovered[i].MeshShape? && cm.selected[i].MeshShape?
         && SameTopology(cm.default[i].mesh, cm.hovered[i].mesh)
         && SameTopology(cm.default[i].mesh, cm.selected[i].mesh)
         && Filled(cm.default[i].mesh, DEFAULT_FILL)
         && Filled(cm.hovered[i].mesh, HOVERED_FILL)
         && Filled(cm.selected[i].mesh, SELECTED_FILL)
         && |cm.default[i].mesh.indices| % 3 == 0
  }

  ghost predicate SameTopology(a: Mesh, b: Mesh) {
    && a.indices == b.indices
    && |a.vertices| == |b.vertices|
    && forall v :: 0 <= v < |a.vertices| ==> a.vertices[v].pos == b.vertices[v].pos
  }

  ghost predicate Filled(m: Mesh, color: Color32) {
    forall v :: 0 <= v < |m.vertices| ==> m.vertices[v].color == color
  }

  /** Adding a polygon keeps the three lists in lockstep, grows them by one
      exactly when triangulation succeeded, and leaves earlier entries alone. */
  lemma WithPolygonLockstep(acc: CountryMeshes, points: seq<Pos2>, triangulation: Option<seq<nat>>)
    requires Lockstep(acc)
    ensures Lockstep(WithPolygon(acc, points, triangulation))
    ensures |WithPolygon(acc, points, triangulation).default| == |acc.default| + (if triangulation.Some? then 1 else 0)
    ensures WithPolygon(acc, points, triangulation).default[..|acc.default|] == acc.default
  {
    var r := WithPolygon(acc, points, triangulation);
    if triangulation.Some? {
      var n := |acc.default|;
      assert r.default[n].mesh.vertices == MeshVertices(points, DEFAULT_FILL);
      assert r.hovered[n].mesh.vertices == MeshVertices(points, HOVERED_FILL);
      assert r.selected[n].mesh.vertices == MeshVertices(points, SELECTED_FILL);
      assert forall i :: 0 <= i < n ==> r.default[i] == acc.default[i] && r.hovered[i] == acc.hovered[i] && r.selected[i] == acc.selected[i];
    }
  }
}
