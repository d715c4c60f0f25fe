/**
 * One-dimensional stitching rule of the XL refiner, and its three-level
 * composition (patches -> lines -> layers -> volume).
 *
 * Along every stitched axis three neighbouring patches of side 192, placed at
 * offsets 0, 160 and 320, are merged into one run of 512 voxels.  The axis is
 * cut into the five segments [0,160) [160,192) [192,320) [320,352) [352,512);
 * the two 32-wide bands are linear cross-fades with weights t/31.
 */
module Stitch {

  const Res: int := 512
  const PatchSize: int := 192
  const Stride: int := 160
  const Overlap: int := 32
  const Steps: int := 3

  /** A denoised patch (or any batched volume) as a function of (batch, i, j, k). */
  type Volume = (int, int, int, int) -> real

  function Min(a: real, b: real): real { if a <= b then a else b }
  function Max(a: real, b: real): real { if a <= b then b else a }

  /** `linspace(0, 1, 32)[t]`. */
  function Weight(t: int): (w: real)
    requires 0 <= t < Overlap
    ensures 0.0 <= w <= 1.0
    ensures w == 0.0 <==> t == 0
    ensures w == 1.0 <==> t == Overlap - 1
  {
    t as real / 31.0
  }

  lemma WeightIncreasing(s: int, t: int)
    requires 0 <= s < t < Overlap
    ensures Weight(s) < Weight(t)
  {
  }

  /** Cross-fade of the tail of the earlier neighbour `a` with the head of the later one `b`. */
  function Blend(a: real, b: real, t: int): (r: real)
    requires 0 <= t < Overlap
    ensures t == 0 ==> r == a
    ensures t == Overlap - 1 ==> r == b
    ensures a == b ==> r == a
    ensures Min(a, b) <= r <= Max(a, b)
  {
    var w := Weight(t);
    MixBetween(a, b, w);
    a * (1.0 - w) + b * w
  }

  /** A convex combination of `a` and `b` lies between them. */
  lemma MixBetween(a: real, b: real, w: real)
    requires 0.0 <= w <= 1.0
    ensures Min(a, b) <= a * (1.0 - w) + b * w <= Max(a, b)
  {
    var d := b - a;
    var e := d * w;
    MixForm(a, b, w);
    FractionBetween(d, w);
    Between(a, b, e);
  }

  /** A step from `a` towards `b`, no longer than the distance, stays between them. */
  lemma Between(a: real, b: real, e: real)
    requires b - a >= 0.0 ==> 0.0 <= e <= b - a
    requires b - a < 0.0 ==> b - a <= e <= 0.0
    ensures Min(a, b) <= a + e <= Max(a, b)
  {
  }

  /** The cross-fade as a step from `a` towards `b`. */
  lemma MixForm(a: real, b: real, w: real)
    ensures a * (1.0 - w) + b * w == a + (b - a) * w
  {
  }

  lemma NonNegativeProduct(a: real, b: real)
    requires a >= 0.0 && b >= 0.0
    ensures a * b >= 0.0
  {
  }

  /** A fraction `w` in [0, 1] of `d` lies between 0 and `d`. */
  lemma FractionBetween(d: real, w: real)
    requires 0.0 <= w <= 1.0
    ensures d >= 0.0 ==> 0.0 <= d * w <= d
    ensures d < 0.0 ==> d <= d * w <= 0.0
  {
    var u := 1.0 - w;
    assert d * w + d * u == d;
    if d >= 0.0 {
      NonNegativeProduct(d, w);
      NonNegativeProduct(d, u);
    } else {
      NonNegativeProduct(-d, w);
      NonNegativeProduct(-d, u);
    }
  }

  /** Segment boundaries along a stitched axis. */
  const Bounds: seq<int> := [0, 160, 192, 320, 352, 512]

  /** The segment holding `x`; the five segments partition [0, Res). */
  function Segment(x: int): (m: nat)
    requires 0 <= x < Res
    ensures m < 5 && Bounds[m] <= x < Bounds[m + 1]
    ensures forall m' :: 0 <= m' < 5 && Bounds[m'] <= x < Bounds[m' + 1] ==> m' == m
  {
    if x < 160 then 0
    else if x < 192 then 1
    else if x < 320 then 2
    else if x < 352 then 3
    else 4
  }

  /** Patch `n` (0, 1 or 2) of a line of three covers `x`. */
  predicate InPatch(x: int, n: int)
  {
    Stride * n <= x < Stride * n + PatchSize
  }

  /** Index of `x` inside patch `n`, clamped into the patch. */
  function Local(x: int, n: int): (l: int)
    ensures 0 <= l < PatchSize
    ensures InPatch(x, n) ==> Stride * n + l == x
  {
    var l := x - Stride * n;
    if l < 0 then 0 else if l >= PatchSize then PatchSize - 1 else l
  }

  /**
   * The stitched value at `x`, where `a`, `b`, `c` are the values of the three
   * neighbours at their local index of `x` (only those covering `x` matter).
   */
  function StitchAt(x: int, a: real, b: real, c: real): (r: real)
    requires 0 <= x < Res
    // a voxel covered by one neighbour only is copied from it
    ensures InPatch(x, 0) && !InPatch(x, 1) ==> r == a
    ensures InPatch(x, 1) && !InPatch(x, 0) && !InPatch(x, 2) ==> r == b
    ensures InPatch(x, 2) && !InPatch(x, 1) ==> r == c
    // a voxel covered by two neighbours lies between their values
    ensures InPatch(x, 0) && InPatch(x, 1) ==> Min(a, b) <= r <= Max(a, b)
    ensures InPatch(x, 1) && InPatch(x, 2) ==> Min(b, c) <= r <= Max(b, c)
    // the bands start on the earlier and end on the later neighbour
    ensures x == Stride || x == 2 * Stride ==> r == (if x == Stride then a else b)
    ensures x == PatchSize - 1 || x == Stride + PatchSize - 1 ==> r == (if x == PatchSize - 1 then b else c)
  {
    match Segment(x)
    case 0 => a
    case 1 => Blend(a, b, x - 160)
    case 2 => b
    case 3 => Blend(b, c, x - 320)
    case 4 => c
  }

  /** `StitchAt` band by band, with the local indices the bands use. */
  lemma StitchAtSegments(x: int, a: real, b: real, c: real)
    requires 0 <= x < Res
    ensures x < 160 ==> StitchAt(x, a, b, c) == a && Local(x, 0) == x
    ensures 160 <= x < 192 ==> StitchAt(x, a, b, c) == Blend(a, b, x - 160) && Local(x, 0) == x && Local(x, 1) == x - 160
    ensures 192 <= x < 320 ==> StitchAt(x, a, b, c) == b && Local(x, 1) == x - 160
    ensures 320 <= x < 352 ==> StitchAt(x, a, b, c) == Blend(b, c, x - 320) && Local(x, 1) == x - 160 && Local(x, 2) == x - 320
    ensures 352 <= x ==> StitchAt(x, a, b, c) == c && Local(x, 2) == x - 320
  {
  }

  /** Where every covering neighbour agrees on `v`, the stitched value is `v`. */
  lemma StitchAtAgreeing(x: int, a: real, b: real, c: real, v: real)
    requires 0 <= x < Res
    requires InPatch(x, 0) ==> a == v
    requires InPatch(x, 1) ==> b == v
    requires InPatch(x, 2) ==> c == v
    ensures StitchAt(x, a, b, c) == v
  {
  }

  /** Every voxel of [0, Res) is covered by at least one of the three patches. */
  lemma Coverage(x: int)
    requires 0 <= x < Res
    ensures InPatch(x, 0) || InPatch(x, 1) || InPatch(x, 2)
    ensures InPatch(x, Segment(x) / 2)
  {
  }

  /** Offset of tile `i` (0, 1 or 2) along one axis; every tile lies inside [0, Res). */
  function TileOrigin(i: int): (o: int)
    requires 0 <= i < Steps
    ensures 0 <= o && o + PatchSize <= Res
    ensures forall x :: o <= x < o + PatchSize <==> InPatch(x, i)
  {
    Stride * i
  }

  /** Position of patch (i, j, k) in the list built by the tiling loops (k innermost). */
  function PatchIndex(i: int, j: int, k: int): (n: int)
    requires 0 <= i < Steps && 0 <= j < Steps && 0 <= k < Steps
    ensures 0 <= n < Steps * Steps * Steps
    ensures n / 9 == i && (n / 3) % 3 == j && n % 3 == k
  {
    i * 9 + j * 3 + k
  }

  /**
   * Line `m` (stitched along the last axis) from patches 3m, 3m+1, 3m+2:
   * each single-patch band is that patch's value, each overlap band the
   * blend of its two patches.
   */
  function LineValue(patches: seq<Volume>, m: int, b: int, p: int, q: int, z: int): (r: real)
    requires |patches| == 27 && 0 <= m < 9 && 0 <= z < Res
    ensures z < 160 ==> r == patches[3 * m](b, p, q, z)
    ensures 160 <= z < 192 ==> r == Blend(patches[3 * m](b, p, q, z), patches[3 * m + 1](b, p, q, z - 160), z - 160)
    ensures 192 <= z < 320 ==> r == patches[3 * m + 1](b, p, q, z - 160)
    ensures 320 <= z < 352 ==> r == Blend(patches[3 * m + 1](b, p, q, z - 160), patches[3 * m + 2](b, p, q, z - 320), z - 320)
    ensures 352 <= z ==> r == patches[3 * m + 2](b, p, q, z - 320)
  {
    StitchAt(z, patches[3 * m](b, p, q, Local(z, 0)),
                patches[3 * m + 1](b, p, q, Local(z, 1)),
                patches[3 * m + 2](b, p, q, Local(z, 2)))
  }

  /**
   * Layer `i` (stitched along the middle axis) from lines 3i, 3i+1, 3i+2,
   * band by band as for a line.
   */
  function LayerValue(patches: seq<Volume>, i: int, b: int, p: int, y: int, z: int): (r: real)
    requires |patches| == 27 && 0 <= i < 3 && 0 <= y < Res && 0 <= z < Res
    ensures y < 160 ==> r == LineValue(patches, 3 * i, b, p, y, z)
    ensures 160 <= y < 192 ==>
      r == Blend(LineValue(patches, 3 * i, b, p, y, z), LineValue(patches, 3 * i + 1, b, p, y - 160, z), y - 160)
    ensures 192 <= y < 320 ==> r == LineValue(patches, 3 * i + 1, b, p, y - 160, z)
    ensures 320 <= y < 352 ==>
      r == Blend(LineValue(patches, 3 * i + 1, b, p, y - 160, z), LineValue(patches, 3 * i + 2, b, p, y - 320, z), y - 320)
    ensures 352 <= y ==> r == LineValue(patches, 3 * i + 2, b, p, y - 320, z)
  {
    StitchAt(y, LineValue(patches, 3 * i, b, p, Local(y, 0), z),
                LineValue(patches, 3 * i + 1, b, p, Local(y, 1), z),
                LineValue(patches, 3 * i + 2, b, p, Local(y, 2), z))
  }

  /**
   * The final volume (stitched along the first spatial axis) from the three
   * layers, band by band as for a line.
   */
  function VolumeValue(patches: seq<Volume>, b: int, x: int, y: int, z: int): (r: real)
    requires |patches| == 27 && 0 <= x < Res && 0 <= y < Res && 0 <= z < Res
    ensures x < 160 ==> r == LayerValue(patches, 0, b, x, y, z)
    ensures 160 <= x < 192 ==>
      r == Blend(LayerValue(patches, 0, b, x, y, z), LayerValue(patches, 1, b, x - 160, y, z), x - 160)
    ensures 192 <= x < 320 ==> r == LayerValue(patches, 1, b, x - 160, y, z)
    ensures 320 <= x < 352 ==>
      r == Blend(LayerValue(patches, 1, b, x - 160, y, z), LayerValue(patches, 2, b, x - 320, y, z), x - 320)
    ensures 352 <= x ==> r == LayerValue(patches, 2, b, x - 320, y, z)
  {
    StitchAt(x, LayerValue(patches, 0, b, Local(x, 0), y, z),
                LayerValue(patches, 1, b, Local(x, 1), y, z),
                LayerValue(patches, 2, b, Local(x, 2), y, z))
  }

  /** Every patch is the crop of the global volume `g` at its tile offset. */
  ghost predicate CropsOf(patches: seq<Volume>, g: Volume)
  {
    |patches| == 27 &&
    forall i, j, k, b, p, q, r ::
      0 <= i < 3 && 0 <= j < 3 && 0 <= k < 3 &&
      0 <= p < PatchSize && 0 <= q < PatchSize && 0 <= r < PatchSize ==>
        patches[PatchIndex(i, j, k)](b, p, q, r) == g(b, Stride * i + p, Stride * j + q, Stride * k + r)
  }

  lemma LineReconstructs(patches: seq<Volume>, g: Volume, i: int, j: int, b: int, p: int, q: int, z: int)
    requires CropsOf(patches, g)
    requires 0 <= i < 3 && 0 <= j < 3 && 0 <= p < PatchSize && 0 <= q < PatchSize && 0 <= z < Res
    ensures LineValue(patches, 3 * i + j, b, p, q, z) == g(b, Stride * i + p, Stride * j + q, z)
  {
    var m := 3 * i + j;
    forall k | 0 <= k < 3
      ensures InPatch(z, k) ==> patches[3 * m + k](b, p, q, Local(z, k)) == g(b, Stride * i + p, Stride * j + q, z)
    {
      assert PatchIndex(i, j, k) == 3 * m + k;
    }
    StitchAtAgreeing(z, patches[3 * m](b, p, q, Local(z, 0)),
                        patches[3 * m + 1](b, p, q, Local(z, 1)),
                        patches[3 * m + 2](b, p, q, Local(z, 2)),
                        g(b, Stride * i + p, Stride * j + q, z));
  }

  lemma LayerReconstructs(patches: seq<Volume>, g: Volume, i: int, b: int, p: int, y: int, z: int)
    requires CropsOf(patches, g)
    requires 0 <= i < 3 && 0 <= p < PatchSize && 0 <= y < Res && 0 <= z < Res
    ensures LayerValue(patches, i, b, p, y, z) == g(b, Stride * i + p, y, z)
  {
    LineReconstructs(patches, g, i, 0, b, p, Local(y, 0), z);
    LineReconstructs(patches, g, i, 1, b, p, Local(y, 1), z);
    LineReconstructs(patches, g, i, 2, b, p, Local(y, 2), z);
    StitchAtAgreeing(y, LineValue(patches, 3 * i, b, p, Local(y, 0), z),
                        LineValue(patches, 3 * i + 1, b, p, Local(y, 1), z),
                        LineValue(patches, 3 * i + 2, b, p, Local(y, 2), z),
                        g(b, Stride * i + p, y, z));
  }

  /**
   * Reconstruction: if every patch is the crop of one global volume at its
   * offset, the three-level stitch gives back that volume exactly.
   */
  lemma VolumeReconstructs(patches: seq<Volume>, g: Volume, b: int, x: int, y: int, z: int)
    requires CropsOf(patches, g)
    requires 0 <= x < Res && 0 <= y < Res && 0 <= z < Res
    ensures VolumeValue(patches, b, x, y, z) == g(b, x, y, z)
  {
    LayerReconstructs(patches, g, 0, b, Local(x, 0), y, z);
    LayerReconstructs(patches, g, 1, b, Local(x, 1), y, z);
    LayerReconstructs(patches, g, 2, b, Local(x, 2), y, z);
    StitchAtAgreeing(x, LayerValue(patches, 0, b, Local(x, 0), y, z),
                        LayerValue(patches, 1, b, Local(x, 1), y, z),
                        LayerValue(patches, 2, b, Local(x, 2), y, z),
                        g(b, x, y, z));
  }
}
