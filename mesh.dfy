/** Mesh: an immutable vertex/index list uploaded once at construction, and its
    three factories (cube, UV sphere, plane). */
module Meshes {
  import opened Glm
  import opened Gpu
  import opened Primitives

  /** The six indices of one sphere quad whose top-left vertex is `current`:
      triangles (current, next, current+1) and (current+1, next, next+1), where
      `next` is the same column one ring down. */
  function SphereQuad(current: nat, segments: nat): seq<nat> {
    var next := current + segments + 1;
    [current, next, current + 1, current + 1, next, next + 1]
  }

  /** The indices of the first n quads of ring `ring`. */
  function RingIndices(ring: nat, segments: nat, n: nat): (ix: seq<nat>)
    ensures |ix| == 6 * n
  {
    if n == 0 then [] else RingIndices(ring, segments, n - 1) + SphereQuad(ring * (segments + 1) + (n - 1), segments)
  }

  /** The indices of the first `rings` rings, each of `segments` quads. */
  function SphereIndices(segments: nat, rings: nat): (ix: seq<nat>)
  {
    if rings == 0 then [] else SphereIndices(segments, rings - 1) + RingIndices(rings - 1, segments, segments)
  }

  /** The quads of ring `ring` only reference that ring and the next. */
  lemma {:induction false} RingIndicesBounded(ring: nat, segments: nat, n: nat)
    requires n <= segments
    ensures forall k :: 0 <= k < |RingIndices(ring, segments, n)| ==>
              ring * (segments + 1) <= RingIndices(ring, segments, n)[k] < (ring + 2) * (segments + 1)
  {
    if n > 0 {
      RingIndicesBounded(ring, segments, n - 1);
      var prev := RingIndices(ring, segments, n - 1);
      var current := ring * (segments + 1) + (n - 1);
      var quad := SphereQuad(current, segments);
      assert current + segments + 2 < (ring + 2) * (segments + 1);
      forall k | 0 <= k < |RingIndices(ring, segments, n)|
        ensures ring * (segments + 1) <= RingIndices(ring, segments, n)[k] < (ring + 2) * (segments + 1)
      {
        if k < |prev| {
          assert RingIndices(ring, segments, n)[k] == prev[k];
        } else {
          assert RingIndices(ring, segments, n)[k] == quad[k - |prev|];
        }
      }
    }
  }

  /** The sphere has 6 * rings * segments indices, and each is below
      (rings + 1) * (segments + 1), the number of vertices. */
  lemma {:induction false} SphereIndicesInRange(segments: nat, rings: nat)
    ensures |SphereIndices(segments, rings)| == 6 * rings * segments
    ensures forall k :: 0 <= k < |SphereIndices(segments, rings)| ==>
              SphereIndices(segments, rings)[k] < (rings + 1) * (segments + 1)
  {
    if rings > 0 {
      SphereIndicesInRange(segments, rings - 1);
      RingIndicesBounded(rings - 1, segments, segments);
      var prev := SphereIndices(segments, rings - 1);
      var ring := RingIndices(rings - 1, segments, segments);
      assert |prev| + |ring| == 6 * (rings - 1) * segments + 6 * segments == 6 * rings * segments;
      MulMono(rings, rings + 1, segments + 1);
      forall k | 0 <= k < |prev + ring|
        ensures (prev + ring)[k] < (rings + 1) * (segments + 1)
      {
        if k < |prev| {
          assert (prev + ring)[k] == prev[k];
        } else {
          assert (prev + ring)[k] == ring[k - |prev|];
        }
      }
    }
  }

  /** The vertex loops of CreateSphere: rings + 1 rows of segments + 1 vertices. */
  method SphereVertexList(at: GridVertex, segments: int, rings: int) returns (vs: seq<Vertex>)
    ensures vs == GridVertices(at, Iterations(rings + 1), Iterations(segments + 1))
  {
    var columns := Iterations(segments + 1);
    vs := [];
    var ring := 0;
    while ring <= rings
      invariant 0 <= ring <= Iterations(rings + 1)
      invariant vs == GridVertices(at, ring, columns)
    {
      var segment := 0;
      while segment <= segments
        invariant 0 <= segment <= columns
        invariant vs == GridVertices(at, ring, columns) + GridRow(at, ring, columns)[..segment]
      {
        vs := vs + [at(ring, segment)];
        segment := segment + 1;
      }
      assert GridRow(at, ring, columns)[..segment] == GridRow(at, ring, columns);
      ring := ring + 1;
    }
  }

  /** The index loops of CreateSphere: six indices per quad, no pole skipping. */
  method SphereIndexList(segments: int, rings: int) returns (ix: seq<nat>)
    ensures ix == SphereIndices(Iterations(segments), Iterations(rings))
  {
    ix := [];
    var ring := 0;
    while ring < rings
      invariant 0 <= ring <= Iterations(rings)
      invariant ix == SphereIndices(Iterations(segments), ring)
    {
      var segment := 0;
      while segment < segments
        invariant 0 <= segment <= Iterations(segments)
        invariant ix == SphereIndices(Iterations(segments), ring) + RingIndices(ring, Iterations(segments), segment)
      {
        var current: nat := ring * (segments + 1) + segment;
        var next := current + segments + 1;
        ix := ix + [current, next, current + 1, current + 1, next, next + 1];
        segment := segment + 1;
      }
      ring := ring + 1;
    }
  }

  /** CreateCube's vertex table: four vertices per face, faces in the order
      front, back, top, bottom, right, left. */
  function CubeVertices(): (vs: seq<Vertex>)
    ensures |vs| == 24
    ensures forall k :: 0 <= k < 24 ==> vs[k].normal == vs[k - k % 4].normal
  {
    [
      Vertex(Vec3(-1.0, -1.0, 1.0), Vec3(0.0, 0.0, 1.0), 0.0, 0.0),
      Vertex(Vec3(1.0, -1.0, 1.0), Vec3(0.0, 0.0, 1.0), 1.0, 0.0),
      Vertex(Vec3(1.0, 1.0, 1.0), Vec3(0.0, 0.0, 1.0), 1.0, 1.0),
      Vertex(Vec3(-1.0, 1.0, 1.0), Vec3(0.0, 0.0, 1.0), 0.0, 1.0),
      Vertex(Vec3(-1.0, -1.0, -1.0), Vec3(0.0, 0.0, -1.0), 1.0, 0.0),
      Vertex(Vec3(-1.0, 1.0, -1.0), Vec3(0.0, 0.0, -1.0), 1.0, 1.0),
      Vertex(Vec3(1.0, 1.0, -1.0), Vec3(0.0, 0.0, -1.0), 0.0, 1.0),
      Vertex(Vec3(1.0, -1.0, -1.0), Vec3(0.0, 0.0, -1.0), 0.0, 0.0),
      Vertex(Vec3(-1.0, 1.0, -1.0), Vec3(0.0, 1.0, 0.0), 0.0, 1.0),
      Vertex(Vec3(-1.0, 1.0, 1.0), Vec3(0.0, 1.0, 0.0), 0.0, 0.0),
      Vertex(Vec3(1.0, 1.0, 1.0), Vec3(0.0, 1.0, 0.0), 1.0, 0.0),
      Vertex(Vec3(1.0, 1.0, -1.0), Vec3(0.0, 1.0, 0.0), 1.0, 1.0),
      Vertex(Vec3(-1.0, -1.0, -1.0), Vec3(0.0, -1.0, 0.0), 1.0, 1.0),
      Vertex(Vec3(1.0, -1.0, -1.0), Vec3(0.0, -1.0, 0.0), 0.0, 1.0),
      Vertex(Vec3(1.0, -1.0, 1.0), Vec3(0.0, -1.0, 0.0), 0.0, 0.0),
      Vertex(Vec3(-1.0, -1.0, 1.0), Vec3(0.0, -1.0, 0.0), 1.0, 0.0),
      Vertex(Vec3(1.0, -1.0, -1.0), Vec3(1.0, 0.0, 0.0), 1.0, 0.0),
      Vertex(Vec3(1.0, 1.0, -1.0), Vec3(1.0, 0.0, 0.0), 1.0, 1.0),
      Vertex(Vec3(1.0, 1.0, 1.0), Vec3(1.0, 0.0, 0.0), 0.0, 1.0),
      Vertex(Vec3(1.0, -1.0, 1.0), Vec3(1.0, 0.0, 0.0), 0.0, 0.0),
      Vertex(Vec3(-1.0, -1.0, -1.0), Vec3(-1.0, 0.0, 0.0), 0.0, 0.0),
      Vertex(Vec3(-1.0, -1.0, 1.0), Vec3(-1.0, 0.0, 0.0), 1.0, 0.0),
      Vertex(Vec3(-1.0, 1.0, 1.0), Vec3(-1.0, 0.0, 0.0), 1.0, 1.0),
      Vertex(Vec3(-1.0, 1.0, -1.0), Vec3(-1.0, 0.0, 0.0), 0.0, 1.0)
    ]
  }

  /** CreatePlane's vertex table: a 2 x 2 square in the y = 0 plane, facing up. */
  function PlaneVertices(): (vs: seq<Vertex>)
    ensures |vs| == 4
  {
    [
      Vertex(Vec3(-1.0, 0.0, -1.0), Vec3(0.0, 1.0, 0.0), 0.0, 0.0),
      Vertex(Vec3(1.0, 0.0, -1.0), Vec3(0.0, 1.0, 0.0), 1.0, 0.0),
      Vertex(Vec3(1.0, 0.0, 1.0), Vec3(0.0, 1.0, 0.0), 1.0, 1.0),
      Vertex(Vec3(-1.0, 0.0, 1.0), Vec3(0.0, 1.0, 0.0), 0.0, 1.0)
    ]
  }

  /** A mesh: its vertices and indices are fixed at construction, when the
      vertex array and buffers are created. */
  class Mesh {
    const vertices: seq<Vertex>
    const indices: seq<nat>
    const vao: nat
    const vbo: nat
    /** Only created when there are indices; otherwise never set. */
    const ebo: nat

    /** Mesh(vertices, indices): stores both lists unchanged, then setupMesh
        creates the vertex array, the vertex buffer and, for a non-empty index
        list, the element buffer. */
    constructor (gl: Gl, verts: seq<Vertex>, inds: seq<nat>)
      modifies gl
      ensures vertices == verts && indices == inds
      ensures vao == old(gl.lastName) + 1 && vbo == vao + 1
      ensures |inds| > 0 ==> ebo == vbo + 1 && gl.lastName == ebo
      ensures |inds| == 0 ==> gl.lastName == vbo
      ensures gl.log == old(gl.log)
    {
      vertices := verts;
      indices := inds;
      var a := gl.GenName();
      var b := gl.GenName();
      vao, vbo := a, b;
      if |inds| > 0 {
        var e := gl.GenName();
        ebo := e;
      }
    }

    /** The draw call render issues: indexed when there are indices, otherwise
        one vertex per element of the vertex list. */
    function Draw(): (c: Command)
      ensures c.DrawElements? <==> |indices| > 0
      ensures c.DrawArrays? <==> |indices| == 0
      ensures c.vertexArray == vao
      ensures c.count == (if |indices| > 0 then |indices| else |vertices|)
    {
      if |indices| > 0 then DrawElements(vao, |indices|) else DrawArrays(vao, |vertices|)
    }

    /** render: binds the vertex array and issues one draw. */
    method Render(gl: Gl)
      modifies gl
      ensures gl.log == old(gl.log) + [Draw()] && gl.lastName == old(gl.lastName)
    {
      if |indices| > 0 {
        gl.Issue(DrawElements(vao, |indices|));
      } else {
        gl.Issue(DrawArrays(vao, |vertices|));
      }
    }
  }

  /** Mesh::CreateSphere(segments, rings), default 32 x 16. */
  method CreateSphere(gl: Gl, at: GridVertex, segments: int, rings: int) returns (m: Mesh)
    modifies gl
    ensures fresh(m)
    ensures m.vertices == GridVertices(at, Iterations(rings + 1), Iterations(segments + 1))
    ensures m.indices == SphereIndices(Iterations(segments), Iterations(rings))
    ensures gl.log == old(gl.log)
  {
    var vs := SphereVertexList(at, segments, rings);
    var ix := SphereIndexList(segments, rings);
    m := new Mesh(gl, vs, ix);
  }

  /** Mesh::CreateCube. */
  method CreateCube(gl: Gl) returns (m: Mesh)
    modifies gl
    ensures fresh(m) && m.vertices == CubeVertices() && m.indices == CubeIndices
    ensures gl.log == old(gl.log)
  {
    m := new Mesh(gl, CubeVertices(), CubeIndices);
  }

  /** Mesh::CreatePlane. */
  method CreatePlane(gl: Gl) returns (m: Mesh)
    modifies gl
    ensures fresh(m) && m.vertices == PlaneVertices() && m.indices == PlaneIndices
    ensures gl.log == old(gl.log)
  {
    m := new Mesh(gl, PlaneVertices(), PlaneIndices);
  }

  /** Whatever the arguments, every sphere index names an existing vertex, and
      for non-negative arguments the counts are (rings+1)(segments+1) vertices
      and 6 * rings * segments indices, so rendering draws all of them. */
  lemma SphereWellFormed(at: GridVertex, segments: int, rings: int)
    ensures var vs := GridVertices(at, Iterations(rings + 1), Iterations(segments + 1));
            var ix := SphereIndices(Iterations(segments), Iterations(rings));
            |vs| == Iterations(rings + 1) * Iterations(segments + 1) &&
            |ix| == 6 * Iterations(rings) * Iterations(segments) &&
            (forall k :: 0 <= k < |ix| ==> ix[k] < |vs|)
  {
    GridLength(at, Iterations(rings + 1), Iterations(segments + 1));
    SphereIndicesInRange(Iterations(segments), Iterations(rings));
    if rings < 0 || segments < 0 {
      assert Iterations(rings) * Iterations(segments) == 0;
    } else {
      assert Iterations(rings + 1) == Iterations(rings) + 1 && Iterations(segments + 1) == Iterations(segments) + 1;
    }
  }

  /** The cube and plane meshes: every index names one of their vertices, and
      each triangle uses the four vertices of a single face. */
  lemma CubeAndPlaneWellFormed()
    ensures forall k :: 0 <= k < |CubeIndices| ==> CubeIndices[k] < |CubeVertices()|
    ensures forall k :: 0 <= k < |PlaneIndices| ==> PlaneIndices[k] < |PlaneVertices()|
  {
    IndexTablesInRange();
  }
}
