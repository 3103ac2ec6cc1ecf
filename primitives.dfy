/** Vertex records and the index pattern shared by the cube and plane
    primitives of both mesh builders. */
module Primitives {
  import opened Glm

  /** One vertex: position, normal and texture coordinates (u, v). */
  datatype Vertex = Vertex(position: Vec3, normal: Vec3, u: real, v: real)

  /** The vertex a sphere generator computes for grid point (row, column); its
      trigonometry is left uninterpreted. */
  type GridVertex = (nat, nat) -> Vertex

  /** One quad face starting at vertex b, split along the diagonal from its
      corner 0 to its corner 2. */
  function QuadFace(b: nat): seq<nat> {
    [b, b + 1, b + 2, b + 2, b + 3, b]
  }

  /** Two triangles per quad face, face f owning vertices 4f .. 4f+3. */
  function QuadFaceIndices(faces: nat): (ix: seq<nat>)
    ensures |ix| == 6 * faces
  {
    if faces == 0 then [] else QuadFaceIndices(faces - 1) + QuadFace(4 * (faces - 1))
  }

  /** Index k of a quad-face list points into the face of its triangle. */
  lemma {:induction false} IndexInFace(faces: nat, k: nat)
    requires k < 6 * faces
    ensures 4 * (k / 6) <= QuadFaceIndices(faces)[k] < 4 * (k / 6) + 4
    decreases faces
  {
    var prev := QuadFaceIndices(faces - 1);
    if k < |prev| {
      IndexInFace(faces - 1, k);
      assert QuadFaceIndices(faces)[k] == prev[k];
    } else {
      var j := k - |prev|;
      assert QuadFaceIndices(faces)[k] == QuadFace(4 * (faces - 1))[j];
      assert k / 6 == faces - 1;
    }
  }

  /** Every index of a quad-face list points into its own face, so no triangle
      spans two faces and every index is below 4 * faces. */
  lemma QuadFaceIndicesInFace(faces: nat)
    ensures var ix := QuadFaceIndices(faces);
            forall k :: 0 <= k < |ix| ==> 4 * (k / 6) <= ix[k] < 4 * (k / 6) + 4 && ix[k] < 4 * faces
  {
    forall k | 0 <= k < 6 * faces
      ensures 4 * (k / 6) <= QuadFaceIndices(faces)[k] < 4 * (k / 6) + 4 < 4 * faces + 1
    {
      IndexInFace(faces, k);
    }
  }

  /** The cube's index table: six faces, two triangles each. */
  const CubeIndices: seq<nat> :=
    QuadFace(0) + QuadFace(4) + QuadFace(8) + QuadFace(12) + QuadFace(16) + QuadFace(20)

  /** The plane's index table: one quad. */
  const PlaneIndices: seq<nat> := QuadFace(0)

  /** The cube has 36 indices, all below 24, each triangle on one face; the
      plane has 6, all below 4. */
  lemma IndexTablesInRange()
    ensures CubeIndices == QuadFaceIndices(6) && |CubeIndices| == 36
    ensures forall k :: 0 <= k < 36 ==> 4 * (k / 6) <= CubeIndices[k] < 4 * (k / 6) + 4 && CubeIndices[k] < 24
    ensures PlaneIndices == QuadFaceIndices(1) && |PlaneIndices| == 6
    ensures forall k :: 0 <= k < 6 ==> PlaneIndices[k] < 4
  {
    assert QuadFaceIndices(1) == QuadFace(0);
    QuadFaceIndicesInFace(6);
    QuadFaceIndicesInFace(1);
  }

  /** How many times `for (int i = 0; i < n; i++)` runs. */
  function Iterations(n: int): (k: nat)
    ensures n >= 0 ==> k == n
    ensures n < 0 ==> k == 0
  {
    if n < 0 then 0 else n
  }

  /** Row `row` of a vertex grid: one vertex per column, in column order. */
  function GridRow(at: GridVertex, row: nat, columns: nat): (vs: seq<Vertex>)
    ensures |vs| == columns
  {
    seq(columns, c requires 0 <= c < columns => at(row, c))
  }

  /** A grid of `rows` rows of `columns` vertices, row after row, as both sphere
      generators push them. */
  function GridVertices(at: GridVertex, rows: nat, columns: nat): (vs: seq<Vertex>)
  {
    if rows == 0 then [] else GridVertices(at, rows - 1, columns) + GridRow(at, rows - 1, columns)
  }

  lemma MulMono(a: nat, b: nat, c: nat)
    requires a <= b
    ensures a * c <= b * c
  {
  }

  lemma {:induction false} GridLength(at: GridVertex, rows: nat, columns: nat)
    ensures |GridVertices(at, rows, columns)| == rows * columns
  {
    if rows > 0 {
      GridLength(at, rows - 1, columns);
      assert (rows - 1) * columns + columns == rows * columns;
    }
  }

  /** Grid point (r, c) sits at index r * columns + c. */
  lemma {:induction false} GridPoint(at: GridVertex, rows: nat, columns: nat, r: nat, c: nat)
    requires r < rows && c < columns
    ensures r * columns + c < |GridVertices(at, rows, columns)|
    ensures GridVertices(at, rows, columns)[r * columns + c] == at(r, c)
    decreases rows
  {
    GridLength(at, rows - 1, columns);
    GridLength(at, rows, columns);
    var prev := GridVertices(at, rows - 1, columns);
    var k := r * columns + c;
    if r < rows - 1 {
      GridPoint(at, rows - 1, columns, r, c);
      assert GridVertices(at, rows, columns)[k] == prev[k];
    } else {
      assert k == |prev| + c;
      assert GridVertices(at, rows, columns)[k] == GridRow(at, rows - 1, columns)[c];
    }
  }

  /** A grid has rows * columns vertices and grid point (r, c) sits at index
      r * columns + c. */
  lemma GridVertexAt(at: GridVertex, rows: nat, columns: nat)
    ensures |GridVertices(at, rows, columns)| == rows * columns
    ensures forall r, c :: 0 <= r < rows && 0 <= c < columns ==>
              r * columns + c < rows * columns && GridVertices(at, rows, columns)[r * columns + c] == at(r, c)
  {
    GridLength(at, rows, columns);
    forall r, c | 0 <= r < rows && 0 <= c < columns
      ensures r * columns + c < rows * columns && GridVertices(at, rows, columns)[r * columns + c] == at(r, c)
    {
      GridPoint(at, rows, columns, r, c);
    }
  }
}
