/** The ground grid under the camera: a line-list mesh of Divisions + 1
    columns and Divisions + 1 rows spanning a Scale x Scale square centred
    on the origin in the y = 0 plane.

    Only the vertex and index generation is modelled; the mesh starts with
    empty vertex and index lists. */
module CameraGrid {
  import opened Datatypes

  /** The four vertices line `i` contributes, in order: the two ends of
      column i (along z), then the two ends of row i (along x). */
  function Quad(scale: real, divisions: int, i: nat): (q: seq<Vec3>)
    requires divisions != 0
    ensures |q| == 4
  {
    var increment := i as real * (scale / divisions as real);
    var half := scale / 2.0;
    [Vec3(increment - half, 0.0, -half), Vec3(increment - half, 0.0, scale - half),
     Vec3(-half, 0.0, increment - half), Vec3(scale - half, 0.0, increment - half)]
  }

  /** The vertex at position `k` of the list: end k % 4 of line k / 4. */
  function GridVertex(scale: real, divisions: int, k: nat): Vec3
    requires divisions != 0
  {
    Quad(scale, divisions, k / 4)[k % 4]
  }

  lemma DivMod4(i: nat, j: nat)
    requires j < 4
    ensures (4 * i + j) / 4 == i && (4 * i + j) % 4 == j
  {
  }

  /** BuildVertices: for i = 0 .. Divisions it appends the four vertices of
      line i and their positions as indices. No vertex is generated for a
      negative Divisions. A zero Divisions divides by zero (an infinite
      factor) and is excluded. */
  method BuildVertices(scale: real, divisions: int) returns (vertices: seq<Vec3>, indices: seq<int>)
    requires divisions != 0
    ensures |vertices| == |indices|
    ensures divisions < 0 ==> vertices == []
    ensures divisions > 0 ==> |vertices| == 4 * (divisions + 1)
    ensures forall k :: 0 <= k < |indices| ==> indices[k] == k
    ensures forall k :: 0 <= k < |vertices| ==> vertices[k] == GridVertex(scale, divisions, k)
  {
    vertices := [];
    indices := [];
    var i := 0;
    while i <= divisions
      invariant 0 <= i
      invariant divisions < 0 ==> i == 0
      invariant divisions > 0 ==> i <= divisions + 1
      invariant |vertices| == |indices| == 4 * i
      invariant forall k :: 0 <= k < |indices| ==> indices[k] == k
      invariant forall k :: 0 <= k < |vertices| ==> vertices[k] == GridVertex(scale, divisions, k)
    {
      var quad := Quad(scale, divisions, i);
      var vertices' := vertices + quad;
      forall k | 4 * i <= k < |vertices'|
        ensures vertices'[k] == GridVertex(scale, divisions, k)
      {
        DivMod4(i, k - 4 * i);
      }
      vertices := vertices';
      indices := indices + [4 * i, 4 * i + 1, 4 * i + 2, 4 * i + 3];
      i := i + 1;
    }
  }

  /** Every grid vertex lies in the ground plane. */
  lemma GridIsFlat(scale: real, divisions: int, k: nat)
    requires divisions != 0
    ensures GridVertex(scale, divisions, k).y == 0.0
  {
  }

  /** i steps of size scale / divisions stay within [0, scale] when
      0 <= i <= divisions. */
  lemma StepWithinScale(scale: real, divisions: int, i: nat)
    requires divisions > 0 && scale >= 0.0 && i <= divisions
    ensures 0.0 <= i as real * (scale / divisions as real) <= scale
  {
    var f := scale / divisions as real;
    assert f >= 0.0;
    NonNegativeProduct(i as real, f);
    NonNegativeProduct((divisions - i) as real, f);
    assert divisions as real * f == scale;
    assert (divisions - i) as real * f == divisions as real * f - i as real * f;
  }

  /** For a positive number of divisions and a non-negative scale every
      vertex lies in the square [-scale/2, scale/2] x [-scale/2, scale/2]. */
  lemma GridWithinSquare(scale: real, divisions: int, k: nat)
    requires divisions > 0 && scale >= 0.0
    requires k < 4 * (divisions + 1)
    ensures -scale / 2.0 <= GridVertex(scale, divisions, k).x <= scale / 2.0
    ensures -scale / 2.0 <= GridVertex(scale, divisions, k).z <= scale / 2.0
  {
    StepWithinScale(scale, divisions, k / 4);
  }

  /** Line i is a column at x = i * scale / divisions - scale / 2 from z =
      -scale/2 to z = scale/2 (vertices 4i and 4i + 1), and a row at the same
      offset in z from x = -scale/2 to x = scale/2 (vertices 4i + 2 and 4i + 3). */
  lemma GridLinesPair(scale: real, divisions: int, i: nat)
    requires divisions != 0
    ensures var half := scale / 2.0;
            var offset := i as real * (scale / divisions as real) - half;
            && GridVertex(scale, divisions, 4 * i) == Vec3(offset, 0.0, -half)
            && GridVertex(scale, divisions, 4 * i + 1) == Vec3(offset, 0.0, half)
            && GridVertex(scale, divisions, 4 * i + 2) == Vec3(-half, 0.0, offset)
            && GridVertex(scale, divisions, 4 * i + 3) == Vec3(half, 0.0, offset)
  {
    var half := scale / 2.0;
    var offset := i as real * (scale / divisions as real) - half;
    var q := Quad(scale, divisions, i);
    HalfRemainder(scale);
    assert q == [Vec3(offset, 0.0, -half), Vec3(offset, 0.0, half), Vec3(-half, 0.0, offset), Vec3(half, 0.0, offset)];
    QuadVertex(scale, divisions, i, 0);
    QuadVertex(scale, divisions, i, 1);
    QuadVertex(scale, divisions, i, 2);
    QuadVertex(scale, divisions, i, 3);
  }

  lemma HalfRemainder(scale: real)
    ensures scale - scale / 2.0 == scale / 2.0
  {
  }

  /** Vertex 4i + j of the list is end j of line i. */
  lemma QuadVertex(scale: real, divisions: int, i: nat, j: nat)
    requires divisions != 0 && j < 4
    ensures GridVertex(scale, divisions, 4 * i + j) == Quad(scale, divisions, i)[j]
  {
    DivMod4(i, j);
  }
}
