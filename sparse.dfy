/**
 * Sparse-to-dense conversion of the refiners' inputs: a sparse SDF or feature
 * field, given as a list of (batch, x, y, z) coordinates and a parallel list of
 * values, is scattered into a dense batched cube pre-filled with a fill value
 * (1 for the SDF, the zero vector for the features).
 */
module Sparse {

  /** One row of a sparse index tensor: batch, then the three spatial coordinates. */
  datatype Coord = Coord(b: nat, x: nat, y: nat, z: nat)

  /** Rows per scatter chunk of the feature densification. */
  const ChunkSize: nat := 10000

  /** No two rows are the same coordinate (one value per voxel per batch). */
  predicate Distinct(coords: seq<Coord>)
  {
    forall m, n :: 0 <= m < n < |coords| ==> coords[m] != coords[n]
  }

  /** Every spatial coordinate fits a cube of side `res`. */
  predicate InGrid(coords: seq<Coord>, res: nat)
  {
    forall n :: 0 <= n < |coords| ==> coords[n].x < res && coords[n].y < res && coords[n].z < res
  }

  /** Some row among the first `k` is the voxel (b, x, y, z). */
  predicate Occupied(coords: seq<Coord>, k: int, b: int, x: int, y: int, z: int)
    requires 0 <= k <= |coords|
  {
    exists m :: 0 <= m < k && coords[m].b == b && coords[m].x == x && coords[m].y == y && coords[m].z == z
  }

  /** `int(coords[..., 0].max()) + 1`. */
  function BatchSize(coords: seq<Coord>): (r: nat)
    requires |coords| > 0
    ensures forall n :: 0 <= n < |coords| ==> coords[n].b < r
    ensures exists n :: 0 <= n < |coords| && coords[n].b == r - 1
  {
    if |coords| == 1 then coords[0].b + 1
    else
      var rest := BatchSize(coords[1..]);
      assert forall n :: 1 <= n < |coords| ==> coords[n] == coords[1..][n - 1];
      if coords[0].b + 1 >= rest then coords[0].b + 1 else rest
  }

  /**
   * `a` is the densification of the sparse field (coords, vals): the voxel of
   * every row holds that row's value, every other voxel holds `fill`.
   */
  ghost predicate Densified<T>(a: array4<T>, coords: seq<Coord>, vals: seq<T>, fill: T)
    requires |vals| == |coords|
    reads a
  {
    (forall n | 0 <= n < |coords| ::
       coords[n].b < a.Length0 && coords[n].x < a.Length1 && coords[n].y < a.Length2 && coords[n].z < a.Length3 &&
       a[coords[n].b, coords[n].x, coords[n].y, coords[n].z] == vals[n]) &&
    (forall b, x, y, z | 0 <= b < a.Length0 && 0 <= x < a.Length1 && 0 <= y < a.Length2 && 0 <= z < a.Length3 ::
       !Occupied(coords, |coords|, b, x, y, z) ==> a[b, x, y, z] == fill)
  }

  function Zeros(c: nat): (v: seq<real>)
    ensures |v| == c && forall i :: 0 <= i < c ==> v[i] == 0.0
  {
    seq(c, _ => 0.0)
  }

  /** Every row names a voxel of `a`. */
  predicate Fits<T>(a: array4<T>, coords: seq<Coord>)
  {
    forall n | 0 <= n < |coords| ::
      coords[n].b < a.Length0 && coords[n].x < a.Length1 && coords[n].y < a.Length2 && coords[n].z < a.Length3
  }

  /**
   * The batches below `i` are scattered in: their rows' voxels hold the rows'
   * values, and every voxel not written so far still holds `fill`.
   */
  ghost predicate BatchesScattered<T>(a: array4<T>, coords: seq<Coord>, vals: seq<T>, fill: T, i: int)
    requires |vals| == |coords| && Fits(a, coords)
    reads a
  {
    (forall n | 0 <= n < |coords| && coords[n].b < i ::
       a[coords[n].b, coords[n].x, coords[n].y, coords[n].z] == vals[n]) &&
    (forall b, x, y, z | 0 <= b < a.Length0 && 0 <= x < a.Length1 && 0 <= y < a.Length2 && 0 <= z < a.Length3 ::
       i <= b || !Occupied(coords, |coords|, b, x, y, z) ==> a[b, x, y, z] == fill)
  }

  /**
   * Builds the dense SDF of every batch: a cube of ones per batch, then the
   * batch's entries scattered in.  Used at resolution 512 by the XL refiner and
   * at 1024 and 512 by the sign refiner.
   */
  method DensifySdf(coords: seq<Coord>, vals: seq<real>, res: nat) returns (sdfs: array4<real>)
    requires |coords| > 0 && |vals| == |coords|
    requires InGrid(coords, res) && Distinct(coords)
    ensures fresh(sdfs)
    ensures sdfs.Length0 == BatchSize(coords) && sdfs.Length1 == res && sdfs.Length2 == res && sdfs.Length3 == res
    ensures Densified(sdfs, coords, vals, 1.0)
  {
    var batchSize := BatchSize(coords);
    sdfs := new real[batchSize, res, res, res]((b, x, y, z) => 1.0);
    var i := 0;
    while i < batchSize
      invariant 0 <= i <= batchSize
      invariant BatchesScattered(sdfs, coords, vals, 1.0, i)
    {
      ScatterBatch(sdfs, coords, vals, 1.0, i);
      i := i + 1;
    }
    AllBatchesScattered(sdfs, coords, vals, 1.0);
  }

  lemma AllBatchesScattered<T>(a: array4<T>, coords: seq<Coord>, vals: seq<T>, fill: T)
    requires |vals| == |coords| && Fits(a, coords)
    requires BatchesScattered(a, coords, vals, fill, a.Length0)
    ensures Densified(a, coords, vals, fill)
  {
  }

  /** One batch of the SDF scatter: `sdf[index_i[..., 0], index_i[..., 1], index_i[..., 2]] = sdf_i`. */
  method ScatterBatch<T>(a: array4<T>, coords: seq<Coord>, vals: seq<T>, fill: T, i: nat)
    requires |vals| == |coords| && Fits(a, coords) && Distinct(coords)
    requires BatchesScattered(a, coords, vals, fill, i)
    modifies a
    ensures BatchesScattered(a, coords, vals, fill, i + 1)
  {
    forall n | 0 <= n < |coords| && coords[n].b == i {
      a[i, coords[n].x, coords[n].y, coords[n].z] := vals[n];
    }
  }

  /**
   * The first `k` rows are scattered in: their voxels hold their values,
   * and every voxel none of them names still holds `fill`.
   */
  ghost predicate RowsScattered<T>(a: array4<T>, coords: seq<Coord>, vals: seq<T>, fill: T, k: int)
    requires |vals| == |coords| && Fits(a, coords) && 0 <= k <= |coords|
    reads a
  {
    (forall n | 0 <= n < k :: a[coords[n].b, coords[n].x, coords[n].y, coords[n].z] == vals[n]) &&
    (forall b, x, y, z | 0 <= b < a.Length0 && 0 <= x < a.Length1 && 0 <= y < a.Length2 && 0 <= z < a.Length3 ::
       !Occupied(coords, k, b, x, y, z) ==> a[b, x, y, z] == fill)
  }

  /**
   * Builds the dense feature volume: zero vectors everywhere, then the entries
   * scattered in, `chunk` rows at a time.  The result does not depend on
   * `chunk` (the ensures clauses do not mention it).
   */
  method DensifyFeatures(coords: seq<Coord>, feats: seq<seq<real>>, channels: nat, res: nat, chunk: nat)
    returns (vol: array4<seq<real>>)
    requires |coords| > 0 && |feats| == |coords| && chunk > 0
    requires forall n :: 0 <= n < |feats| ==> |feats[n]| == channels
    requires InGrid(coords, res) && Distinct(coords)
    ensures fresh(vol)
    ensures vol.Length0 == BatchSize(coords) && vol.Length1 == res && vol.Length2 == res && vol.Length3 == res
    ensures Densified(vol, coords, feats, Zeros(channels))
  {
    var batchSize := BatchSize(coords);
    vol := new seq<real>[batchSize, res, res, res]((b, x, y, z) => Zeros(channels));
    var numPoints := |coords|;
    var start := 0;
    while start < numPoints
      invariant 0 <= start <= numPoints
      invariant RowsScattered(vol, coords, feats, Zeros(channels), start)
    {
      var end := if start + chunk < numPoints then start + chunk else numPoints;
      ScatterChunk(vol, coords, feats, Zeros(channels), start, end);
      start := end;
    }
    AllRowsScattered(vol, coords, feats, Zeros(channels));
  }

  lemma AllRowsScattered<T>(a: array4<T>, coords: seq<Coord>, vals: seq<T>, fill: T)
    requires |vals| == |coords| && Fits(a, coords)
    requires RowsScattered(a, coords, vals, fill, |coords|)
    ensures Densified(a, coords, vals, fill)
  {
  }

  /** One chunk of the feature scatter: rows `start` to `end`. */
  method ScatterChunk<T>(a: array4<T>, coords: seq<Coord>, vals: seq<T>, fill: T, start: nat, end: nat)
    requires |vals| == |coords| && Fits(a, coords) && Distinct(coords) && start <= end <= |coords|
    requires RowsScattered(a, coords, vals, fill, start)
    modifies a
    ensures RowsScattered(a, coords, vals, fill, end)
  {
    forall n | start <= n < end {
      a[coords[n].b, coords[n].x, coords[n].y, coords[n].z] := vals[n];
    }
  }
}
