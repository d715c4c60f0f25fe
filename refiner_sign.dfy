/**
 * `Voxel_RefinerXL_sign.run`: the sign of the SDF is estimated at 512^3 from
 * 27 patches of side 192 at stride 128 (each patch thresholded to +-1 and
 * written over `outputs` in loop order, no blending), upsampled to 1024^3 by
 * repetition, multiplied with the magnitude of the 1024^3 SDF, and the
 * original 1024^3 sparse values are spliced back in.
 */
module RefinerSign {
  import opened Sparse
  import opened Stitch
  import opened RefinerXL
  import MeshUtils

  const LowRes: int := 512
  const HighRes: int := 1024
  const SignStride: int := 128
  /** Every tile of the sign pass ends below this bound on each axis. */
  const CoveredBound: int := 448

  /** The sign network: an SDF crop to per-voxel values after the sigmoid. */
  type SignNet = Cube<real> -> Volume

  /** `output[output >= 0.5] = 1; output[output < 0.5] = -1`. */
  function Threshold(v: real): (s: real)
    ensures s == 1.0 || s == -1.0
    ensures s == 1.0 <==> v >= 0.5
  {
    if v >= 0.5 then 1.0 else -1.0
  }

  /** Tile `i` (0, 1 or 2) of the sign pass covers `x` on one axis. */
  predicate CoversAxis(i: int, x: int)
  {
    SignStride * i <= x < SignStride * i + PatchSize
  }

  /** Offset of tile `i` of the sign pass; every tile lies inside [0, 448). */
  function SignOrigin(i: int): (o: int)
    requires 0 <= i < Steps
    ensures 0 <= o && o + PatchSize <= CoveredBound
    ensures forall x :: o <= x < o + PatchSize <==> CoversAxis(i, x)
  {
    SignStride * i
  }

  /** The last tile in loop order covering `x` on one axis. */
  function LastTile(x: int): (i: int)
    requires 0 <= x < CoveredBound
    ensures 0 <= i < Steps && CoversAxis(i, x)
    ensures forall i' :: i < i' < Steps ==> !CoversAxis(i', x)
  {
    if x < 128 then 0 else if x < 256 then 1 else 2
  }

  /** Patch number m = i*9 + j*3 + k contains voxel (x, y, z). */
  predicate Contains(m: int, x: int, y: int, z: int)
  {
    CoversAxis(m / 9, x) && CoversAxis((m / 3) % 3, y) && CoversAxis(m % 3, z)
  }

  /** The 27 network outputs, in loop order. */
  function SignPatches(sdfs: array4<real>, net: SignNet): (ps: seq<Volume>)
    requires IsVolume(sdfs, sdfs.Length0)
    reads sdfs
    ensures |ps| == 27
  {
    seq(27, m requires 0 <= m < 27 reads sdfs =>
      net(Crop(sdfs, SignOrigin(m / 9), SignOrigin((m / 3) % 3), SignOrigin(m % 3))))
  }

  /** The thresholded value patch `m` writes at global voxel (x, y, z). */
  function PatchSign(patchs: seq<Volume>, m: int, b: int, x: int, y: int, z: int): real
    requires |patchs| == 27 && 0 <= m < 27
  {
    Threshold(patchs[m](b, x - SignStride * (m / 9), y - SignStride * ((m / 3) % 3), z - SignStride * (m % 3)))
  }

  /**
   * The value of `outputs` at (b, x, y, z) after the first `n` patch
   * writes: always a sign, and still the initial +1 where none of those
   * patches reaches.
   */
  function SignAfter(patchs: seq<Volume>, n: int, b: int, x: int, y: int, z: int): (s: real)
    requires |patchs| == 27 && 0 <= n <= 27
    ensures s == 1.0 || s == -1.0
    ensures (forall m | 0 <= m < n :: !Contains(m, x, y, z)) ==> s == 1.0
    decreases n
  {
    if n == 0 then 1.0
    else if Contains(n - 1, x, y, z) then PatchSign(patchs, n - 1, b, x, y, z)
    else SignAfter(patchs, n - 1, b, x, y, z)
  }

  /** The sign volume in closed form: the last containing patch, or +1 where no patch reaches. */
  function FinalSign(patchs: seq<Volume>, b: int, x: int, y: int, z: int): (s: real)
    requires |patchs| == 27 && 0 <= x < LowRes && 0 <= y < LowRes && 0 <= z < LowRes
    ensures s == 1.0 || s == -1.0
    ensures x >= CoveredBound || y >= CoveredBound || z >= CoveredBound ==> s == 1.0
  {
    if x < CoveredBound && y < CoveredBound && z < CoveredBound then
      PatchSign(patchs, PatchIndex(LastTile(x), LastTile(y), LastTile(z)), b, x, y, z)
    else 1.0
  }

  /** The patch chosen by FinalSign is the last one in loop order that contains the voxel. */
  lemma WinnerIsLastContaining(x: int, y: int, z: int)
    requires 0 <= x < CoveredBound && 0 <= y < CoveredBound && 0 <= z < CoveredBound
    ensures Contains(PatchIndex(LastTile(x), LastTile(y), LastTile(z)), x, y, z)
    ensures forall m :: PatchIndex(LastTile(x), LastTile(y), LastTile(z)) < m < 27 ==> !Contains(m, x, y, z)
  {
    var tx, ty, tz := LastTile(x), LastTile(y), LastTile(z);
    var w := PatchIndex(tx, ty, tz);
    forall m | w < m < 27
      ensures !Contains(m, x, y, z)
    {
      var i, j, k := m / 9, (m / 3) % 3, m % 3;
      Decompose(m);
      LexOrder(i, j, k, tx, ty, tz);
    }
  }

  /** Every patch number is i*9 + j*3 + k for its three tile indices. */
  lemma Decompose(m: int)
    requires 0 <= m < 27
    ensures 0 <= m / 9 < 3 && 0 <= (m / 3) % 3 < 3 && 0 <= m % 3 < 3
    ensures m == 9 * (m / 9) + 3 * ((m / 3) % 3) + m % 3
  {
    var q := m / 3;
    assert m == 3 * q + m % 3;
    assert q == 3 * (q / 3) + q % 3;
    assert q / 3 == m / 9;
  }

  /** Patch numbers order the tile triples lexicographically. */
  lemma LexOrder(i: int, j: int, k: int, a: int, b: int, c: int)
    requires 0 <= i < 3 && 0 <= j < 3 && 0 <= k < 3 && 0 <= a < 3 && 0 <= b < 3 && 0 <= c < 3
    requires 9 * i + 3 * j + k > 9 * a + 3 * b + c
    ensures i > a || (i == a && j > b) || (i == a && j == b && k > c)
  {
  }

  /** No patch reaches a voxel with a coordinate >= 448, so it keeps the initial +1. */
  lemma {:induction false} SignAfterUncovered(patchs: seq<Volume>, n: int, b: int, x: int, y: int, z: int)
    requires |patchs| == 27 && 0 <= n <= 27
    requires 0 <= x && 0 <= y && 0 <= z
    requires x >= CoveredBound || y >= CoveredBound || z >= CoveredBound
    ensures SignAfter(patchs, n, b, x, y, z) == 1.0
    decreases n
  {
    if n > 0 {
      assert !Contains(n - 1, x, y, z);
      SignAfterUncovered(patchs, n - 1, b, x, y, z);
    }
  }

  /** After the winner has been written, later patches leave the voxel alone. */
  lemma {:induction false} SignAfterCovered(patchs: seq<Volume>, n: int, b: int, x: int, y: int, z: int)
    requires |patchs| == 27
    requires 0 <= x < CoveredBound && 0 <= y < CoveredBound && 0 <= z < CoveredBound
    requires PatchIndex(LastTile(x), LastTile(y), LastTile(z)) < n <= 27
    ensures SignAfter(patchs, n, b, x, y, z) == PatchSign(patchs, PatchIndex(LastTile(x), LastTile(y), LastTile(z)), b, x, y, z)
    decreases n
  {
    WinnerIsLastContaining(x, y, z);
    if n - 1 > PatchIndex(LastTile(x), LastTile(y), LastTile(z)) {
      SignAfterCovered(patchs, n - 1, b, x, y, z);
    }
  }

  /** The in-place writes of all 27 patches give the closed form. */
  lemma SignAfterAll(patchs: seq<Volume>, b: int, x: int, y: int, z: int)
    requires |patchs| == 27 && 0 <= x < LowRes && 0 <= y < LowRes && 0 <= z < LowRes
    ensures SignAfter(patchs, 27, b, x, y, z) == FinalSign(patchs, b, x, y, z)
  {
    if x < CoveredBound && y < CoveredBound && z < CoveredBound {
      SignAfterCovered(patchs, 27, b, x, y, z);
    } else {
      SignAfterUncovered(patchs, 27, b, x, y, z);
    }
  }

  /** `outputs` holds, at every voxel, its value after the first `n` patch writes. */
  ghost predicate SignsAfter(outputs: array4<real>, all: seq<Volume>, n: int)
    requires |all| == 27 && 0 <= n <= 27
    reads outputs
  {
    outputs.Length1 == LowRes && outputs.Length2 == LowRes && outputs.Length3 == LowRes &&
    forall b, x, y, z | 0 <= b < outputs.Length0 && 0 <= x < LowRes && 0 <= y < LowRes && 0 <= z < LowRes ::
      outputs[b, x, y, z] == SignAfter(all, n, b, x, y, z)
  }

  /**
   * `outputs[:, :, x:x+192, y:y+192, z:z+192] = output`: the patch overwrites
   * its extent and nothing else (sizes written as literals: PatchSize and LowRes).
   */
  method WriteTile(outputs: array4<real>, ox: int, oy: int, oz: int, output: Volume)
    requires 0 <= ox && ox + 192 <= 512 && 0 <= oy && oy + 192 <= 512 && 0 <= oz && oz + 192 <= 512
    requires outputs.Length1 == 512 && outputs.Length2 == 512 && outputs.Length3 == 512
    modifies outputs
    ensures forall b, x, y, z | 0 <= b < outputs.Length0 && ox <= x < ox + 192 && oy <= y < oy + 192 && oz <= z < oz + 192 ::
      outputs[b, x, y, z] == output(b, x - ox, y - oy, z - oz)
    ensures forall b, x, y, z | 0 <= b < outputs.Length0 && 0 <= x < 512 && 0 <= y < 512 && 0 <= z < 512 ::
      !(ox <= x < ox + 192 && oy <= y < oy + 192 && oz <= z < oz + 192) ==> outputs[b, x, y, z] == old(outputs[b, x, y, z])
  {
    forall b, x, y, z | 0 <= b < outputs.Length0 && ox <= x < ox + 192 && oy <= y < oy + 192 && oz <= z < oz + 192 {
      outputs[b, x, y, z] := output(b, x - ox, y - oy, z - oz);
    }
  }

  /**
   * One iteration of the tiling loops: patch (i, j, k) is thresholded and
   * written over its extent, overwriting whatever earlier patches wrote there.
   */
  method WritePatch(outputs: array4<real>, i: int, j: int, k: int, output: Volume, ghost all: seq<Volume>)
    requires 0 <= i < Steps && 0 <= j < Steps && 0 <= k < Steps && |all| == 27
    requires output == all[PatchIndex(i, j, k)]
    requires SignsAfter(outputs, all, PatchIndex(i, j, k))
    modifies outputs
    ensures SignsAfter(outputs, all, PatchIndex(i, j, k) + 1)
  {
    ghost var m := PatchIndex(i, j, k);
    var ox, oy, oz := SignOrigin(i), SignOrigin(j), SignOrigin(k);
    WriteTile(outputs, ox, oy, oz, (b, p, q, r) => Threshold(output(b, p, q, r)));
    forall b, x, y, z | 0 <= b < outputs.Length0 && 0 <= x < LowRes && 0 <= y < LowRes && 0 <= z < LowRes
      ensures outputs[b, x, y, z] == SignAfter(all, m + 1, b, x, y, z)
    {
      assert Contains(m, x, y, z) <==> CoversAxis(i, x) && CoversAxis(j, y) && CoversAxis(k, z);
      if CoversAxis(i, x) && CoversAxis(j, y) && CoversAxis(k, z) {
        assert outputs[b, x, y, z] == Threshold(output(b, x - ox, y - oy, z - oz));
      } else {
        assert outputs[b, x, y, z] == old(outputs[b, x, y, z]);
      }
    }
  }

  /**
   * The tiling loops of the sign pass: `outputs` starts as ones and each
   * thresholded patch is written over its extent, the later write winning.
   */
  method SignTiles(sdfs: array4<real>, net: SignNet) returns (outputs: array4<real>)
    requires IsVolume(sdfs, sdfs.Length0)
    ensures fresh(outputs) && IsVolume(outputs, sdfs.Length0)
    ensures forall b, x, y, z | 0 <= b < outputs.Length0 && 0 <= x < LowRes && 0 <= y < LowRes && 0 <= z < LowRes ::
      outputs[b, x, y, z] == FinalSign(SignPatches(sdfs, net), b, x, y, z)
  {
    outputs := new real[sdfs.Length0, LowRes, LowRes, LowRes]((b, x, y, z) => 1.0);
    ghost var all := SignPatches(sdfs, net);
    assert SignsAfter(outputs, all, 0);
    for i := 0 to Steps
      invariant SignsAfter(outputs, all, 9 * i)
    {
      SignPlane(sdfs, net, outputs, i, all);
    }
    SignsAfterAll(outputs, all);
  }

  /** The middle and inner tiling loops for one value of `i`. */
  method SignPlane(sdfs: array4<real>, net: SignNet, outputs: array4<real>, i: int, ghost all: seq<Volume>)
    requires IsVolume(sdfs, sdfs.Length0) && outputs != sdfs && 0 <= i < Steps
    requires all == SignPatches(sdfs, net) && SignsAfter(outputs, all, 9 * i)
    modifies outputs
    ensures SignsAfter(outputs, all, 9 * i + 9)
  {
    for j := 0 to Steps
      invariant SignsAfter(outputs, all, 9 * i + 3 * j)
    {
      SignRow(sdfs, net, outputs, i, j, all);
    }
  }

  /** The inner tiling loop for one value of `i` and `j`. */
  method SignRow(sdfs: array4<real>, net: SignNet, outputs: array4<real>, i: int, j: int, ghost all: seq<Volume>)
    requires IsVolume(sdfs, sdfs.Length0) && outputs != sdfs && 0 <= i < Steps && 0 <= j < Steps
    requires all == SignPatches(sdfs, net) && SignsAfter(outputs, all, 9 * i + 3 * j)
    modifies outputs
    ensures SignsAfter(outputs, all, 9 * i + 3 * j + 3)
  {
    for k := 0 to Steps
      invariant SignsAfter(outputs, all, 9 * i + 3 * j + k)
    {
      var output := net(Crop(sdfs, SignOrigin(i), SignOrigin(j), SignOrigin(k)));
      assert PatchIndex(i, j, k) == 9 * i + 3 * j + k;
      WritePatch(outputs, i, j, k, output, all);
    }
  }

  /** Once all 27 patches are written, `outputs` is the closed-form sign volume. */
  lemma SignsAfterAll(outputs: array4<real>, all: seq<Volume>)
    requires |all| == 27 && SignsAfter(outputs, all, 27)
    ensures forall b, x, y, z | 0 <= b < outputs.Length0 && 0 <= x < LowRes && 0 <= y < LowRes && 0 <= z < LowRes ::
      outputs[b, x, y, z] == FinalSign(all, b, x, y, z)
  {
    forall b, x, y, z | 0 <= b < outputs.Length0 && 0 <= x < LowRes && 0 <= y < LowRes && 0 <= z < LowRes
      ensures outputs[b, x, y, z] == FinalSign(all, b, x, y, z)
    {
      SignAfterAll(all, b, x, y, z);
    }
  }

  /** `repeat_interleave(2)` along each spatial axis: nearest-neighbour upsampling. */
  method Upsample(low: array4<real>) returns (up: array4<real>)
    requires IsVolume(low, low.Length0)
    ensures fresh(up)
    ensures up.Length0 == low.Length0 && up.Length1 == HighRes && up.Length2 == HighRes && up.Length3 == HighRes
    ensures forall b, x, y, z | 0 <= b < up.Length0 && 0 <= x < HighRes && 0 <= y < HighRes && 0 <= z < HighRes ::
      up[b, x, y, z] == low[b, x / 2, y / 2, z / 2]
  {
    up := new real[low.Length0, HighRes, HighRes, HighRes]((b, x, y, z) => 0.0);
    forall b, x, y, z | 0 <= b < low.Length0 && 0 <= x < HighRes && 0 <= y < HighRes && 0 <= z < HighRes {
      up[b, x, y, z] := low[b, x / 2, y / 2, z / 2];
    }
  }

  /** `sdfs1024.clone().abs() * outputs`. */
  method CombineSign(high: array4<real>, up: array4<real>) returns (combined: array4<real>)
    requires high.Length0 == up.Length0 && high.Length1 == up.Length1 && high.Length2 == up.Length2 && high.Length3 == up.Length3
    ensures fresh(combined)
    ensures combined.Length0 == high.Length0 && combined.Length1 == high.Length1
    ensures combined.Length2 == high.Length2 && combined.Length3 == high.Length3
    ensures forall b, x, y, z |
      0 <= b < high.Length0 && 0 <= x < high.Length1 && 0 <= y < high.Length2 && 0 <= z < high.Length3 ::
      combined[b, x, y, z] == MeshUtils.Abs(high[b, x, y, z]) * up[b, x, y, z]
  {
    combined := new real[high.Length0, high.Length1, high.Length2, high.Length3]((b, x, y, z) => 0.0);
    forall b, x, y, z | 0 <= b < high.Length0 && 0 <= x < high.Length1 && 0 <= y < high.Length2 && 0 <= z < high.Length3 {
      combined[b, x, y, z] := MeshUtils.Abs(high[b, x, y, z]) * up[b, x, y, z];
    }
  }

  /** `sdfs[index1024] = sdfs1024[index1024]`: the known sparse samples are written back. */
  method Splice(combined: array4<real>, high: array4<real>, coords: seq<Coord>)
    requires combined != high
    requires high.Length0 == combined.Length0 && high.Length1 == combined.Length1
    requires high.Length2 == combined.Length2 && high.Length3 == combined.Length3
    requires forall n | 0 <= n < |coords| ::
      coords[n].b < high.Length0 && coords[n].x < high.Length1 && coords[n].y < high.Length2 && coords[n].z < high.Length3
    modifies combined
    ensures forall n | 0 <= n < |coords| ::
      combined[coords[n].b, coords[n].x, coords[n].y, coords[n].z] == high[coords[n].b, coords[n].x, coords[n].y, coords[n].z]
    ensures forall b, x, y, z |
      0 <= b < high.Length0 && 0 <= x < high.Length1 && 0 <= y < high.Length2 && 0 <= z < high.Length3 ::
      !Occupied(coords, |coords|, b, x, y, z) ==> combined[b, x, y, z] == old(combined[b, x, y, z])
  {
    forall n | 0 <= n < |coords| {
      combined[coords[n].b, coords[n].x, coords[n].y, coords[n].z] := high[coords[n].b, coords[n].x, coords[n].y, coords[n].z];
    }
  }

  /**
   * The last steps of the sign pass: the signs are upsampled, multiplied by
   * the magnitudes of the dense high-resolution SDF, and the known sparse
   * samples are written back. Every sparse voxel keeps its sample; every
   * other voxel is the sign of its low-resolution parent.
   */
  method Assemble(high: array4<real>, outputs: array4<real>, coords: seq<Coord>, vals: seq<real>)
    returns (sdfs: array4<real>)
    requires |vals| == |coords|
    requires IsVolume(outputs, high.Length0)
    requires high.Length1 == HighRes && high.Length2 == HighRes && high.Length3 == HighRes
    requires Densified(high, coords, vals, 1.0)
    ensures fresh(sdfs)
    ensures sdfs.Length0 == high.Length0 && sdfs.Length1 == HighRes && sdfs.Length2 == HighRes && sdfs.Length3 == HighRes
    ensures forall n | 0 <= n < |coords| :: sdfs[coords[n].b, coords[n].x, coords[n].y, coords[n].z] == vals[n]
    ensures forall b, x, y, z | 0 <= b < sdfs.Length0 && 0 <= x < HighRes && 0 <= y < HighRes && 0 <= z < HighRes ::
      !Occupied(coords, |coords|, b, x, y, z) ==> sdfs[b, x, y, z] == outputs[b, x / 2, y / 2, z / 2]
  {
    var up := Upsample(outputs);
    sdfs := CombineSign(high, up);
    Splice(sdfs, high, coords);
    forall n | 0 <= n < |coords|
      ensures sdfs[coords[n].b, coords[n].x, coords[n].y, coords[n].z] == vals[n]
    {
    }
    forall b, x, y, z | 0 <= b < sdfs.Length0 && 0 <= x < HighRes && 0 <= y < HighRes && 0 <= z < HighRes &&
      !Occupied(coords, |coords|, b, x, y, z)
      ensures sdfs[b, x, y, z] == outputs[b, x / 2, y / 2, z / 2]
    {
      assert high[b, x, y, z] == 1.0;
    }
  }

  /**
   * `Voxel_RefinerXL_sign.run` up to the marching-cubes call.  `coords`/`vals`
   * is the 1024^3 sparse SDF; `coarseCoords`/`coarseVals` is its factor-2
   * downsampling.  Every original sparse voxel keeps its original value; every
   * other voxel is the +-1 sign of its 512^3 parent voxel.
   */
  method Run(coords: seq<Coord>, vals: seq<real>, coarseCoords: seq<Coord>, coarseVals: seq<real>, net: SignNet)
    returns (sdfs: array4<real>, ghost high: array4<real>, ghost low: array4<real>)
    requires |coords| > 0 && |vals| == |coords| && InGrid(coords, HighRes as nat) && Distinct(coords)
    requires |coarseCoords| > 0 && |coarseVals| == |coarseCoords| && InGrid(coarseCoords, LowRes as nat) && Distinct(coarseCoords)
    requires BatchSize(coarseCoords) == BatchSize(coords)
    ensures sdfs.Length0 == BatchSize(coords)
    ensures sdfs.Length1 == HighRes && sdfs.Length2 == HighRes && sdfs.Length3 == HighRes
    ensures high.Length0 == BatchSize(coords) && high.Length1 == HighRes && high.Length2 == HighRes && high.Length3 == HighRes
    ensures Densified(high, coords, vals, 1.0)
    ensures IsVolume(low, BatchSize(coords)) && Densified(low, coarseCoords, coarseVals, 1.0)
    ensures forall n | 0 <= n < |coords| :: sdfs[coords[n].b, coords[n].x, coords[n].y, coords[n].z] == vals[n]
    ensures forall b, x, y, z | 0 <= b < sdfs.Length0 && 0 <= x < HighRes && 0 <= y < HighRes && 0 <= z < HighRes ::
      !Occupied(coords, |coords|, b, x, y, z) ==>
        sdfs[b, x, y, z] == FinalSign(SignPatches(low, net), b, x / 2, y / 2, z / 2)
  {
    var sdfs1024 := DensifySdf(coords, vals, HighRes);
    var sdfs512 := DensifySdf(coarseCoords, coarseVals, LowRes);
    high, low := sdfs1024, sdfs512;
    var outputs := SignTiles(sdfs512, net);
    sdfs := Assemble(sdfs1024, outputs, coords, vals);
  }
}
