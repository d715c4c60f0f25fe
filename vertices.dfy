/**
 * Normalisation of marching-cubes vertices from voxel units to the cube
 * [-1, 1]^3: every coordinate v becomes v / res * 2 - 1, where res is the
 * grid resolution (512 for the XL refiner, the 1024 grid size for the sign
 * refiner).  The marching-cubes call itself is not part of this model.
 */
module Vertices {

  datatype Vertex = Vertex(x: real, y: real, z: real)

  /** Coordinate `a` (0, 1 or 2) of a vertex: the column `a` of the (N, 3) array. */
  function Along(v: Vertex, a: int): real
    requires 0 <= a < 3
  {
    if a == 0 then v.x else if a == 1 then v.y else v.z
  }

  /** `v / res * 2 - 1` for one coordinate. */
  function NormalizeCoord(c: real, res: nat): (u: real)
    requires res > 0
    ensures 0.0 <= c <= res as real ==> -1.0 <= u <= 1.0
    ensures c == 0.0 ==> u == -1.0
    ensures c == res as real ==> u == 1.0
  {
    var q := c / res as real;
    FractionBounds(c, res as real);
    q * 2.0 - 1.0
  }

  /** A value in [0, r] divided by r lies in [0, 1]. */
  lemma FractionBounds(c: real, r: real)
    requires r > 0.0
    ensures 0.0 <= c <= r ==> 0.0 <= c / r <= 1.0
    ensures c == r ==> c / r == 1.0
  {
    if 0.0 <= c <= r {
      assert c / r * r == c;
    }
  }

  /** The inverse map, from [-1, 1] back to voxel units. */
  function DenormalizeCoord(u: real, res: nat): real
    requires res > 0
  {
    (u + 1.0) / 2.0 * res as real
  }

  /** Denormalising a normalised coordinate gives it back. */
  lemma NormalizeRoundTrip(c: real, res: nat)
    requires res > 0
    ensures DenormalizeCoord(NormalizeCoord(c, res), res) == c
  {
    var r := res as real;
    assert (c / r * 2.0 - 1.0 + 1.0) / 2.0 == c / r;
    assert c / r * r == c;
  }

  /** The normalisation is strictly increasing in every coordinate. */
  lemma NormalizeMonotone(c: real, d: real, res: nat)
    requires res > 0 && c < d
    ensures NormalizeCoord(c, res) < NormalizeCoord(d, res)
  {
    var r := res as real;
    assert d / r - c / r == (d - c) / r;
    assert (d - c) / r > 0.0;
  }

  function NormalizeVertex(v: Vertex, res: nat): Vertex
    requires res > 0
  {
    Vertex(NormalizeCoord(v.x, res), NormalizeCoord(v.y, res), NormalizeCoord(v.z, res))
  }

  /** Every coordinate of `v` lies in [lo, hi]. */
  predicate InBox(v: Vertex, lo: real, hi: real)
  {
    lo <= v.x <= hi && lo <= v.y <= hi && lo <= v.z <= hi
  }

  /**
   * `vertices / res * 2 - 1` over the whole vertex array: vertices in the grid
   * cube [0, res]^3 land in [-1, 1]^3, one output vertex per input vertex.
   */
  function NormalizeVertices(vs: seq<Vertex>, res: nat): (ns: seq<Vertex>)
    requires res > 0
    ensures |ns| == |vs|
    ensures forall i | 0 <= i < |vs| :: InBox(vs[i], 0.0, res as real) ==> InBox(ns[i], -1.0, 1.0)
    ensures forall i, a | 0 <= i < |vs| && 0 <= a < 3 :: Along(ns[i], a) == NormalizeCoord(Along(vs[i], a), res)
  {
    seq(|vs|, i requires 0 <= i < |vs| => NormalizeVertex(vs[i], res))
  }

  /** The normalisation keeps the order of any two vertices along every axis. */
  lemma NormalizeVerticesOrder(vs: seq<Vertex>, res: nat, i: int, j: int, a: int)
    requires res > 0 && 0 <= i < |vs| && 0 <= j < |vs| && 0 <= a < 3
    ensures Along(vs[i], a) < Along(vs[j], a) <==>
      Along(NormalizeVertices(vs, res)[i], a) < Along(NormalizeVertices(vs, res)[j], a)
  {
    var ns := NormalizeVertices(vs, res);
    if Along(vs[i], a) < Along(vs[j], a) {
      NormalizeMonotone(Along(vs[i], a), Along(vs[j], a), res);
    } else if Along(vs[j], a) < Along(vs[i], a) {
      NormalizeMonotone(Along(vs[j], a), Along(vs[i], a), res);
    }
  }
}
