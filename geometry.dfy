/** Geometry: a regenerable vertex/index list with a GPU buffer lifecycle
    (setupMesh, render, cleanup). Its sphere skips the degenerate triangles at
    the poles. */
module Geometries {
  import opened Glm
  import opened Gpu
  import opened Primitives
  import opened Seqs

  /** The triangles of one sphere quad with corners k1, k1+1 (this stack) and
      k2, k2+1 (next stack): the first is dropped on the top stack, the second
      on the bottom stack. */
  function StackQuad(i: nat, k1: nat, k2: nat, stackCount: int): seq<nat> {
    (if i != 0 then [k1, k2, k1 + 1] else []) + (if i != stackCount - 1 then [k1 + 1, k2, k2 + 1] else [])
  }

  /** The number of triangles a quad of stack i contributes. */
  function TrianglesPerQuad(i: nat, stackCount: int): nat {
    (if i != 0 then 1 else 0) + (if i != stackCount - 1 then 1 else 0)
  }

  /** The indices of the first n quads of stack i. */
  function StackIndices(i: nat, sectors: nat, stackCount: int, n: nat): (ix: seq<nat>)
    ensures |ix| == 3 * TrianglesPerQuad(i, stackCount) * n
  {
    if n == 0 then []
    else
      var k1 := i * (sectors + 1) + (n - 1);
      StackIndices(i, sectors, stackCount, n - 1) + StackQuad(i, k1, k1 + sectors + 1, stackCount)
  }

  /** The indices of stacks 0 .. r-1. */
  function SphereIndices(sectors: nat, stackCount: int, r: nat): seq<nat>
  {
    if r == 0 then [] else SphereIndices(sectors, stackCount, r - 1) + StackIndices(r - 1, sectors, stackCount, sectors)
  }

  /** The quads of stack i only reference stacks i and i + 1. */
  lemma {:induction false} StackIndicesBounded(i: nat, sectors: nat, stackCount: int, n: nat)
    requires n <= sectors
    ensures forall k :: 0 <= k < |StackIndices(i, sectors, stackCount, n)| ==>
              StackIndices(i, sectors, stackCount, n)[k] < (i + 2) * (sectors + 1)
  {
    if n > 0 {
      StackIndicesBounded(i, sectors, stackCount, n - 1);
      var prev := StackIndices(i, sectors, stackCount, n - 1);
      var k1 := i * (sectors + 1) + (n - 1);
      var quad := StackQuad(i, k1, k1 + sectors + 1, stackCount);
      assert k1 + sectors + 2 < (i + 2) * (sectors + 1);
      forall k | 0 <= k < |prev + quad|
        ensures (prev + quad)[k] < (i + 2) * (sectors + 1)
      {
        if k < |prev| {
          assert (prev + quad)[k] == prev[k];
        } else {
          assert (prev + quad)[k] == quad[k - |prev|];
        }
      }
    }
  }

  /** Triangles per quad summed over stacks 0 .. r-1. */
  function TrianglesUpTo(stackCount: int, r: nat): nat {
    if r == 0 then 0 else TrianglesUpTo(stackCount, r - 1) + TrianglesPerQuad(r - 1, stackCount)
  }

  /** Over all stacks, two triangles per quad less one for each pole stack. */
  lemma {:induction false} TrianglesUpToAll(stackCount: nat, r: nat)
    requires 1 <= r <= stackCount
    ensures TrianglesUpTo(stackCount, r) == 2 * r - 1 - (if r == stackCount then 1 else 0)
  {
    if r > 1 {
      TrianglesUpToAll(stackCount, r - 1);
    }
  }

  lemma Triples(s: nat, t: nat)
    ensures 3 * s * t == 3 * (s * t) && (3 * s * t) % 3 == 0
    ensures 3 * s * (2 * t) == 6 * s * t == 3 * (2 * s) * t
  {
    var x := s * t;
    assert 3 * s * t == 3 * x;
    assert s * (2 * t) == 2 * x;
  }

  lemma CountStep(s: nat, a: nat, t: nat)
    ensures 3 * s * a + 3 * t * s == 3 * s * (a + t)
  {
  }

  /** Stacks 0 .. r-1 hold three indices per triangle of each of their quads. */
  lemma {:induction false} SphereIndicesCount(sectors: nat, stackCount: int, r: nat)
    ensures |SphereIndices(sectors, stackCount, r)| == 3 * sectors * TrianglesUpTo(stackCount, r)
  {
    if r > 0 {
      SphereIndicesCount(sectors, stackCount, r - 1);
      var a := TrianglesUpTo(stackCount, r - 1);
      var t := TrianglesPerQuad(r - 1, stackCount);
      assert |StackIndices(r - 1, sectors, stackCount, sectors)| == 3 * t * sectors;
      CountStep(sectors, a, t);
    }
  }

  /** Every index of stacks 0 .. r-1 names a vertex of stacks 0 .. r. */
  lemma {:induction false} SphereIndicesBounded(sectors: nat, stackCount: int, r: nat)
    ensures forall k :: 0 <= k < |SphereIndices(sectors, stackCount, r)| ==>
              SphereIndices(sectors, stackCount, r)[k] < (r + 1) * (sectors + 1)
  {
    if r > 0 {
      SphereIndicesBounded(sectors, stackCount, r - 1);
      StackIndicesBounded(r - 1, sectors, stackCount, sectors);
      var prev := SphereIndices(sectors, stackCount, r - 1);
      var stack := StackIndices(r - 1, sectors, stackCount, sectors);
      MulMono(r, r + 1, sectors + 1);
      forall k | 0 <= k < |prev + stack|
        ensures (prev + stack)[k] < (r + 1) * (sectors + 1)
      {
        if k < |prev| {
          assert (prev + stack)[k] == prev[k];
        } else {
          assert (prev + stack)[k] == stack[k - |prev|];
        }
      }
    }
  }

  /** generateCube's vertex table for edge length 2h: four vertices per face,
      faces in the order front, back, left, right, bottom, top. */
  function CubeVertices(h: real): (vs: seq<Vertex>)
    ensures |vs| == 24
  {
    [
      Vertex(Vec3(-h, -h, h), Vec3(0.0, 0.0, 1.0), 0.0, 0.0),
      Vertex(Vec3(h, -h, h), Vec3(0.0, 0.0, 1.0), 1.0, 0.0),
      Vertex(Vec3(h, h, h), Vec3(0.0, 0.0, 1.0), 1.0, 1.0),
      Vertex(Vec3(-h, h, h), Vec3(0.0, 0.0, 1.0), 0.0, 1.0),
      Vertex(Vec3(h, -h, -h), Vec3(0.0, 0.0, -1.0), 0.0, 0.0),
      Vertex(Vec3(-h, -h, -h), Vec3(0.0, 0.0, -1.0), 1.0, 0.0),
      Vertex(Vec3(-h, h, -h), Vec3(0.0, 0.0, -1.0), 1.0, 1.0),
      Vertex(Vec3(h, h, -h), Vec3(0.0, 0.0, -1.0), 0.0, 1.0),
      Vertex(Vec3(-h, -h, -h), Vec3(-1.0, 0.0, 0.0), 0.0, 0.0),
      Vertex(Vec3(-h, -h, h), Vec3(-1.0, 0.0, 0.0), 1.0, 0.0),
      Vertex(Vec3(-h, h, h), Vec3(-1.0, 0.0, 0.0), 1.0, 1.0),
      Vertex(Vec3(-h, h, -h), Vec3(-1.0, 0.0, 0.0), 0.0, 1.0),
      Vertex(Vec3(h, -h, h), Vec3(1.0, 0.0, 0.0), 0.0, 0.0),
      Vertex(Vec3(h, -h, -h), Vec3(1.0, 0.0, 0.0), 1.0, 0.0),
      Vertex(Vec3(h, h, -h), Vec3(1.0, 0.0, 0.0), 1.0, 1.0),
      Vertex(Vec3(h, h, h), Vec3(1.0, 0.0, 0.0), 0.0, 1.0),
      Vertex(Vec3(-h, -h, -h), Vec3(0.0, -1.0, 0.0), 0.0, 0.0),
      Vertex(Vec3(h, -h, -h), Vec3(0.0, -1.0, 0.0), 1.0, 0.0),
      Vertex(Vec3(h, -h, h), Vec3(0.0, -1.0, 0.0), 1.0, 1.0),
      Vertex(Vec3(-h, -h, h), Vec3(0.0, -1.0, 0.0), 0.0, 1.0),
      Vertex(Vec3(-h, h, h), Vec3(0.0, 1.0, 0.0), 0.0, 0.0),
      Vertex(Vec3(h, h, h), Vec3(0.0, 1.0, 0.0), 1.0, 0.0),
      Vertex(Vec3(h, h, -h), Vec3(0.0, 1.0, 0.0), 1.0, 1.0),
      Vertex(Vec3(-h, h, -h), Vec3(0.0, 1.0, 0.0), 0.0, 1.0)
    ]
  }

  /** generatePlane's vertex table for a hw x hh half-extent rectangle in the
      y = 0 plane, facing up. */
  function PlaneVertices(hw: real, hh: real): (vs: seq<Vertex>)
    ensures |vs| == 4
  {
    [
      Vertex(Vec3(-hw, 0.0, -hh), Vec3(0.0, 1.0, 0.0), 0.0, 0.0),
      Vertex(Vec3(hw, 0.0, -hh), Vec3(0.0, 1.0, 0.0), 1.0, 0.0),
      Vertex(Vec3(hw, 0.0, hh), Vec3(0.0, 1.0, 0.0), 1.0, 1.0),
      Vertex(Vec3(-hw, 0.0, hh), Vec3(0.0, 1.0, 0.0), 0.0, 1.0)
    ]
  }

  /** A Geometry: CPU-side vertex and index lists plus the GL names of its
      vertex array and buffers (0 when none). */
  class Geometry {
    var vao: nat
    var vbo: nat
    var ebo: nat
    var vertices: seq<Vertex>
    var indices: seq<nat>
    var initialized: bool

    /** An initialised geometry has a vertex array and a vertex buffer; an
        uninitialised one holds no GL names. */
    ghost predicate Valid()
      reads this
    {
      (initialized ==> vao != 0 && vbo != 0) && (!initialized ==> vao == 0 && vbo == 0 && ebo == 0)
    }

    constructor ()
      ensures Valid() && !initialized && vao == 0 && vbo == 0 && ebo == 0
      ensures vertices == [] && indices == []
    {
      vao, vbo, ebo := 0, 0, 0;
      vertices, indices := [], [];
      initialized := false;
    }

    /** The draw render issues: nothing before setup, then indexed when there
        are indices and otherwise one element per vertex. */
    function DrawCommands(): seq<Command>
      reads this
    {
      if !initialized then []
      else if |indices| > 0 then [DrawElements(vao, |indices|)]
      else [DrawArrays(vao, |vertices|)]
    }

    method Render(gl: Gl)
      modifies gl
      ensures gl.log == old(gl.log) + DrawCommands() && gl.lastName == old(gl.lastName)
    {
      if !initialized {
        return;
      }
      if |indices| > 0 {
        gl.Issue(DrawElements(vao, |indices|));
      } else {
        gl.Issue(DrawArrays(vao, |vertices|));
      }
    }

    /** cleanup: forgets every GL name and the initialised flag; the lists stay. */
    method Cleanup()
      modifies this
      ensures Valid() && vao == 0 && vbo == 0 && ebo == 0 && !initialized
      ensures vertices == old(vertices) && indices == old(indices)
    {
      if vao != 0 {
        vao := 0;
      }
      if vbo != 0 {
        vbo := 0;
      }
      if ebo != 0 {
        ebo := 0;
      }
      initialized := false;
    }

    /** setupMesh: with no vertices, nothing happens; otherwise the old names are
        released and fresh ones created, the element buffer only when there are
        indices, and the geometry becomes initialised. */
    method SetupMesh(gl: Gl)
      requires Valid()
      modifies this, gl
      ensures Valid() && vertices == old(vertices) && indices == old(indices) && gl.log == old(gl.log)
      ensures |vertices| == 0 ==>
                vao == old(vao) && vbo == old(vbo) && ebo == old(ebo) && initialized == old(initialized) &&
                gl.lastName == old(gl.lastName)
      ensures |vertices| > 0 ==>
                initialized && vao == old(gl.lastName) + 1 && vbo == vao + 1 &&
                (|indices| > 0 ==> ebo == vbo + 1 && gl.lastName == ebo) &&
                (|indices| == 0 ==> ebo == 0 && gl.lastName == vbo)
    {
      if |vertices| == 0 {
        return;
      }
      Cleanup();
      vao := gl.GenName();
      vbo := gl.GenName();
      if |indices| > 0 {
        ebo := gl.GenName();
      }
      initialized := true;
    }

    /** The vertex loops of generateSphere. */
    method PushSphereVertices(at: GridVertex, sectorCount: int, stackCount: int)
      modifies this
      ensures vertices == old(vertices) + GridVertices(at, Iterations(stackCount + 1), Iterations(sectorCount + 1))
      ensures indices == old(indices) && vao == old(vao) && vbo == old(vbo) && ebo == old(ebo)
      ensures initialized == old(initialized)
    {
      var columns := Iterations(sectorCount + 1);
      var i := 0;
      while i <= stackCount
        invariant 0 <= i <= Iterations(stackCount + 1)
        invariant vertices == old(vertices) + GridVertices(at, i, columns)
        invariant indices == old(indices) && vao == old(vao) && vbo == old(vbo) && ebo == old(ebo)
        invariant initialized == old(initialized)
      {
        var j := 0;
        while j <= sectorCount
          invariant 0 <= j <= columns
          invariant vertices == old(vertices) + GridVertices(at, i, columns) + GridRow(at, i, columns)[..j]
          invariant indices == old(indices) && vao == old(vao) && vbo == old(vbo) && ebo == old(ebo)
          invariant initialized == old(initialized)
        {
          vertices := vertices + [at(i, j)];
          j := j + 1;
        }
        assert GridRow(at, i, columns)[..j] == GridRow(at, i, columns);
        i := i + 1;
      }
    }

    /** The index loops of generateSphere, one stack at a time. */
    method PushSphereIndices(sectorCount: int, stackCount: int)
      modifies this
      ensures indices == old(indices) + SphereIndices(Iterations(sectorCount), stackCount, Iterations(stackCount))
      ensures vertices == old(vertices) && vao == old(vao) && vbo == old(vbo) && ebo == old(ebo)
      ensures initialized == old(initialized)
    {
      var i := 0;
      while i < stackCount
        invariant 0 <= i <= Iterations(stackCount)
        invariant indices == old(indices) + SphereIndices(Iterations(sectorCount), stackCount, i)
        invariant vertices == old(vertices) && vao == old(vao) && vbo == old(vbo) && ebo == old(ebo)
        invariant initialized == old(initialized)
      {
        PushStack(i, sectorCount, stackCount);
        AppendAssoc(old(indices), SphereIndices(Iterations(sectorCount), stackCount, i),
                    StackIndices(i, Iterations(sectorCount), stackCount, Iterations(sectorCount)));
        i := i + 1;
      }
    }

    /** The body of the inner loop: the quad's triangles that this stack keeps. */
    method PushQuad(i: nat, k1: nat, k2: nat, stackCount: int)
      modifies this
      ensures indices == old(indices) + StackQuad(i, k1, k2, stackCount)
      ensures vertices == old(vertices) && vao == old(vao) && vbo == old(vbo) && ebo == old(ebo)
      ensures initialized == old(initialized)
    {
      if i != 0 {
        indices := indices + [k1, k2, k1 + 1];
      }
      if i != stackCount - 1 {
        indices := indices + [k1 + 1, k2, k2 + 1];
      }
    }

    /** The inner loop for stack i: k1 and k2 walk this stack and the next. */
    method PushStack(i: nat, sectorCount: int, stackCount: int)
      modifies this
      ensures indices == old(indices) + StackIndices(i, Iterations(sectorCount), stackCount, Iterations(sectorCount))
      ensures vertices == old(vertices) && vao == old(vao) && vbo == old(vbo) && ebo == old(ebo)
      ensures initialized == old(initialized)
    {
      var sectors := Iterations(sectorCount);
      var k1 := i * (sectorCount + 1);
      var k2 := k1 + sectorCount + 1;
      var j := 0;
      while j < sectorCount
        invariant 0 <= j <= sectors
        invariant k1 == i * (sectorCount + 1) + j && k2 == k1 + sectorCount + 1
        invariant indices == old(indices) + StackIndices(i, sectors, stackCount, j)
        invariant vertices == old(vertices) && vao == old(vao) && vbo == old(vbo) && ebo == old(ebo)
        invariant initialized == old(initialized)
      {
        assert sectors == sectorCount && 0 <= k1;
        PushQuad(i, k1, k2, stackCount);
        AppendAssoc(old(indices), StackIndices(i, sectors, stackCount, j), StackQuad(i, k1, k2, stackCount));
        j, k1, k2 := j + 1, k1 + 1, k2 + 1;
      }
    }

    /** generateSphere(radius, sectorCount, stackCount): replaces both lists and
        sets the mesh up again. */
    method GenerateSphere(gl: Gl, at: GridVertex, sectorCount: int, stackCount: int)
      requires Valid()
      modifies this, gl
      ensures Valid() && gl.log == old(gl.log)
      ensures vertices == GridVertices(at, Iterations(stackCount + 1), Iterations(sectorCount + 1))
      ensures indices == SphereIndices(Iterations(sectorCount), stackCount, Iterations(stackCount))
      ensures |vertices| > 0 ==> initialized && vao == old(gl.lastName) + 1 && gl.lastName > old(gl.lastName)
      ensures |vertices| == 0 ==> gl.lastName == old(gl.lastName)
    {
      vertices := [];
      indices := [];
      PushSphereVertices(at, sectorCount, stackCount);
      PushSphereIndices(sectorCount, stackCount);
      SetupMesh(gl);
    }

    /** The copy loops of generateCube and generatePlane: clear both lists, then
        push the vertex table and the index table element by element. */
    method LoadTables(table: seq<Vertex>, ix: seq<nat>)
      modifies this
      ensures vertices == table && indices == ix
      ensures vao == old(vao) && vbo == old(vbo) && ebo == old(ebo) && initialized == old(initialized)
    {
      vertices := [];
      indices := [];
      var i := 0;
      while i < |table|
        invariant 0 <= i <= |table| && vertices == table[..i] && indices == []
        invariant vao == old(vao) && vbo == old(vbo) && ebo == old(ebo) && initialized == old(initialized)
      {
        vertices := vertices + [table[i]];
        i := i + 1;
      }
      i := 0;
      while i < |ix|
        invariant 0 <= i <= |ix| && vertices == table && indices == ix[..i]
        invariant vao == old(vao) && vbo == old(vbo) && ebo == old(ebo) && initialized == old(initialized)
      {
        indices := indices + [ix[i]];
        i := i + 1;
      }
    }

    /** generateCube(size): the 24-vertex, 36-index cube of edge length `size`. */
    method GenerateCube(gl: Gl, size: real)
      requires Valid()
      modifies this, gl
      ensures Valid() && gl.log == old(gl.log)
      ensures vertices == CubeVertices(size * 0.5) && indices == CubeIndices
      ensures initialized && vao == old(gl.lastName) + 1 && gl.lastName > old(gl.lastName)
    {
      LoadTables(CubeVertices(size * 0.5), CubeIndices);
      SetupMesh(gl);
    }

    /** generatePlane(width, height): the 4-vertex, 6-index rectangle. */
    method GeneratePlane(gl: Gl, width: real, height: real)
      requires Valid()
      modifies this, gl
      ensures Valid() && gl.log == old(gl.log)
      ensures vertices == PlaneVertices(width * 0.5, height * 0.5) && indices == PlaneIndices
      ensures initialized && vao == old(gl.lastName) + 1 && gl.lastName > old(gl.lastName)
    {
      LoadTables(PlaneVertices(width * 0.5, height * 0.5), PlaneIndices);
      SetupMesh(gl);
    }
  }

  /** For stackCount >= 1 the sphere has 6 * sectors * (stackCount - 1) indices:
      two triangles per quad, less one per quad on each pole stack. It is always
      a whole number of triangles. */
  lemma SphereIndexCount(sectorCount: int, stackCount: int)
    ensures var ix := SphereIndices(Iterations(sectorCount), stackCount, Iterations(stackCount));
            |ix| % 3 == 0 && (stackCount >= 1 ==> |ix| == 6 * Iterations(sectorCount) * (stackCount - 1))
  {
    var s := Iterations(sectorCount);
    SphereIndicesCount(s, stackCount, Iterations(stackCount));
    var tri := TrianglesUpTo(stackCount, Iterations(stackCount));
    Triples(s, tri);
    if stackCount >= 1 {
      TrianglesUpToAll(stackCount, stackCount);
      Triples(s, stackCount - 1);
      Triples(2 * s, stackCount - 1);
      assert 2 * (stackCount - 1) == tri;
    }
  }

  /** Every sphere index names an existing vertex, whatever the arguments. */
  lemma SphereIndicesValid(at: GridVertex, sectorCount: int, stackCount: int)
    ensures var vs := GridVertices(at, Iterations(stackCount + 1), Iterations(sectorCount + 1));
            var ix := SphereIndices(Iterations(sectorCount), stackCount, Iterations(stackCount));
            |vs| == Iterations(stackCount + 1) * Iterations(sectorCount + 1) &&
            forall k :: 0 <= k < |ix| ==> ix[k] < |vs|
  {
    var s := Iterations(sectorCount);
    var r := Iterations(stackCount);
    GridLength(at, Iterations(stackCount + 1), Iterations(sectorCount + 1));
    SphereIndicesBounded(s, stackCount, r);
    if stackCount < 0 {
      assert SphereIndices(s, stackCount, r) == [];
    } else if sectorCount < 0 {
      SphereIndicesCount(s, stackCount, r);
      assert 3 * s * TrianglesUpTo(stackCount, r) == 0;
    } else {
      assert Iterations(stackCount + 1) == r + 1 && Iterations(sectorCount + 1) == s + 1;
    }
  }

  /** The cube and plane tables: every index names one of their vertices. */
  lemma CubeAndPlaneWellFormed(size: real, width: real, height: real)
    ensures forall k :: 0 <= k < |CubeIndices| ==> CubeIndices[k] < |CubeVertices(size * 0.5)|
    ensures forall k :: 0 <= k < |PlaneIndices| ==> PlaneIndices[k] < |PlaneVertices(width * 0.5, height * 0.5)|
  {
    IndexTablesInRange();
  }
}
