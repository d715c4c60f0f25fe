/**
 * Mesh utilities: the device check and buffer handling of
 * `compute_valid_udf`, the affine rescale of `normalize_mesh`, and
 * `mesh2index`, which turns a dense unsigned distance field into the sorted
 * set of coarse voxel coordinates near the surface.
 */
module MeshUtils {
  import opened Vertices
  import opened Sparse
  import Stitch

  // ---------------------------------------------------------------------
  // compute_valid_udf
  // ---------------------------------------------------------------------

  datatype DeviceType = Cpu | Cuda | OtherDevice(name: string)

  /** A tensor's device: its type and its index (`cuda:1` is Device(Cuda, 1)). */
  datatype Device = Device(kind: DeviceType, index: nat)

  datatype Result<T> = Success(value: T) | Failure(error: string)

  /** The value the distance buffer is filled with before the kernel runs. */
  const UdfFill: int := 10000000
  /** The divisor that turns the kernel's integer distances into reals. */
  const UdfScale: real := 10000000.0

  /**
   * The external CUDA kernel, as the value it leaves at each flat buffer
   * index given the value it found there.
   */
  type UdfKernel = (nat, int) -> int

  /**
   * `compute_valid_udf`: fails with a ValueError when the faces and vertices
   * live on different device types (device indices are not compared);
   * otherwise fills a `dim`^3 integer buffer with 10000000, lets the kernel
   * write it, and returns the buffer divided by 10000000.
   */
  method ComputeValidUdf(vertices: Device, faces: Device, dim: nat, kernel: UdfKernel) returns (r: Result<seq<real>>)
    ensures r.Failure? <==> faces.kind != vertices.kind
    ensures r.Success? ==> |r.value| == dim * dim * dim
    ensures r.Success? ==> forall i | 0 <= i < |r.value| :: r.value[i] == kernel(i, UdfFill) as real / UdfScale
    // a voxel the kernel leaves alone reads as distance 1
    ensures r.Success? ==> forall i | 0 <= i < |r.value| :: kernel(i, UdfFill) == UdfFill ==> r.value[i] == 1.0
  {
    if faces.kind != vertices.kind {
      return Failure("Both maze and visited tensors must be CUDA tensors");
    }
    var n := dim * dim * dim;
    var udf := new int[n](_ => UdfFill);
    forall i | 0 <= i < n {
      udf[i] := kernel(i, udf[i]);
    }
    var field := new real[n](_ => 0.0);
    forall i | 0 <= i < n {
      field[i] := udf[i] as real / UdfScale;
    }
    return Success(field[..]);
  }

  // ---------------------------------------------------------------------
  // normalize_mesh
  // ---------------------------------------------------------------------

  /** A mesh whose vertex array is replaced in place. */
  class Mesh {
    var vertices: seq<Vertex>

    constructor (vs: seq<Vertex>)
      ensures vertices == vs
    {
      vertices := vs;
    }
  }

  /** Column `a` of the (N, 3) vertex array. */
  function Column(vs: seq<Vertex>, a: int): (xs: seq<real>)
    requires 0 <= a < 3
    ensures |xs| == |vs| && forall i | 0 <= i < |vs| :: xs[i] == Along(vs[i], a)
  {
    seq(|vs|, i requires 0 <= i < |vs| => Along(vs[i], a))
  }

  /** `m` is the smallest element of `xs`. */
  ghost predicate IsMin(xs: seq<real>, m: real)
  {
    m in xs && forall i | 0 <= i < |xs| :: m <= xs[i]
  }

  /** `m` is the largest element of `xs`. */
  ghost predicate IsMax(xs: seq<real>, m: real)
  {
    m in xs && forall i | 0 <= i < |xs| :: xs[i] <= m
  }

  lemma {:induction false} MinExists(xs: seq<real>)
    requires |xs| > 0
    ensures exists m :: IsMin(xs, m)
  {
    if |xs| == 1 {
      assert IsMin(xs, xs[0]);
    } else {
      MinExists(xs[1..]);
      var r :| IsMin(xs[1..], r);
      assert forall i | 1 <= i < |xs| :: xs[i] == xs[1..][i - 1];
      if xs[0] <= r {
        assert IsMin(xs, xs[0]);
      } else {
        assert IsMin(xs, r);
      }
    }
  }

  lemma {:induction false} MaxExists(xs: seq<real>)
    requires |xs| > 0
    ensures exists m :: IsMax(xs, m)
  {
    if |xs| == 1 {
      assert IsMax(xs, xs[0]);
    } else {
      MaxExists(xs[1..]);
      var r :| IsMax(xs[1..], r);
      assert forall i | 1 <= i < |xs| :: xs[i] == xs[1..][i - 1];
      if xs[0] >= r {
        assert IsMax(xs, xs[0]);
      } else {
        assert IsMax(xs, r);
      }
    }
  }

  /** `vertices.min(axis=0)` along one column. */
  ghost function MinOf(xs: seq<real>): (m: real)
    requires |xs| > 0
    ensures IsMin(xs, m)
  {
    MinExists(xs);
    var m :| IsMin(xs, m); m
  }

  /** `vertices.max(axis=0)` along one column. */
  ghost function MaxOf(xs: seq<real>): (m: real)
    requires |xs| > 0
    ensures IsMax(xs, m)
  {
    MaxExists(xs);
    var m :| IsMax(xs, m); m
  }

  /** The minimum is unique. */
  lemma MinIs(xs: seq<real>, m: real)
    requires IsMin(xs, m)
    ensures MinOf(xs) == m
  {
    var k :| 0 <= k < |xs| && xs[k] == MinOf(xs);
    var j :| 0 <= j < |xs| && xs[j] == m;
  }

  /** The maximum is unique. */
  lemma MaxIs(xs: seq<real>, m: real)
    requires IsMax(xs, m)
    ensures MaxOf(xs) == m
  {
    var k :| 0 <= k < |xs| && xs[k] == MaxOf(xs);
    var j :| 0 <= j < |xs| && xs[j] == m;
  }

  /** One pass over column `a` computing its minimum and maximum. */
  method ColumnBounds(vs: seq<Vertex>, a: int) returns (lo: real, hi: real)
    requires |vs| > 0 && 0 <= a < 3
    ensures lo == MinOf(Column(vs, a)) && hi == MaxOf(Column(vs, a))
  {
    var xs := Column(vs, a);
    lo, hi := xs[0], xs[0];
    var i := 1;
    while i < |xs|
      invariant 1 <= i <= |xs|
      invariant IsMin(xs[..i], lo) && IsMax(xs[..i], hi)
    {
      if xs[i] < lo {
        lo := xs[i];
      }
      if xs[i] > hi {
        hi := xs[i];
      }
      assert xs[..i + 1] == xs[..i] + [xs[i]];
      i := i + 1;
    }
    assert xs[..i] == xs;
    MinIs(xs, lo);
    MaxIs(xs, hi);
  }

  /** Side length of the bounding box along axis `a`. */
  ghost function Extent(vs: seq<Vertex>, a: int): (e: real)
    requires |vs| > 0 && 0 <= a < 3
    ensures e >= 0.0
  {
    var xs := Column(vs, a);
    assert MinOf(xs) in xs;
    MaxOf(xs) - MinOf(xs)
  }

  /** `max(dxyz)`: the largest side of the bounding box. */
  ghost function LargestExtent(vs: seq<Vertex>): real
    requires |vs| > 0
  {
    Stitch.Max(Stitch.Max(Extent(vs, 0), Extent(vs, 1)), Extent(vs, 2))
  }

  /** The largest side bounds every side and is one of them. */
  lemma LargestExtentBounds(vs: seq<Vertex>)
    requires |vs| > 0
    ensures forall a | 0 <= a < 3 :: Extent(vs, a) <= LargestExtent(vs)
    ensures LargestExtent(vs) in {Extent(vs, 0), Extent(vs, 1), Extent(vs, 2)}
  {
  }

  /** `2.0 * scale / dist`. */
  ghost function MeshScale(vs: seq<Vertex>, scale: real): real
    requires |vs| > 0 && LargestExtent(vs) > 0.0
  {
    2.0 * scale / LargestExtent(vs)
  }

  /** `-(min + max) / 2`: minus the centre of a column's range, one entry of `mesh_offset`. */
  ghost function Centre(xs: seq<real>): real
    requires |xs| > 0
  {
    -(MinOf(xs) + MaxOf(xs)) / 2.0
  }

  /** The coordinate map `p => (p + o) * s` applied along one axis. */
  function Affine(o: real, s: real): real -> real
  {
    p => (p + o) * s
  }

  function MapReals(xs: seq<real>, f: real -> real): (ys: seq<real>)
    ensures |ys| == |xs| && forall i | 0 <= i < |xs| :: ys[i] == f(xs[i])
  {
    seq(|xs|, i requires 0 <= i < |xs| => f(xs[i]))
  }

  /** The (N, 3) array whose columns are `c0`, `c1` and `c2`. */
  function Rows(c0: seq<real>, c1: seq<real>, c2: seq<real>): (vs: seq<Vertex>)
    requires |c1| == |c0| && |c2| == |c0|
    ensures |vs| == |c0|
    ensures forall i | 0 <= i < |c0| :: vs[i] == Vertex(c0[i], c1[i], c2[i])
  {
    seq(|c0|, i requires 0 <= i < |c0| => Vertex(c0[i], c1[i], c2[i]))
  }

  /** Column `a` of `(vertices + mesh_offset) * mesh_scale`. */
  ghost function NormalizedAxis(vs: seq<Vertex>, scale: real, a: int): (xs: seq<real>)
    requires |vs| > 0 && LargestExtent(vs) > 0.0 && 0 <= a < 3
    ensures |xs| == |vs|
    ensures var o, m := Centre(Column(vs, a)), MeshScale(vs, scale);
      forall i | 0 <= i < |vs| :: xs[i] == Affine(o, m)(Along(vs[i], a))
  {
    var col := Column(vs, a);
    var o, m := Centre(col), MeshScale(vs, scale);
    var f := Affine(o, m);
    var xs := MapReals(col, f);
    assert forall i | 0 <= i < |vs| :: xs[i] == f(col[i]);
    xs
  }

  /**
   * The vertex array `normalize_mesh` stores back into the mesh: vertex by
   * vertex, each coordinate shifted by its column's offset and scaled.
   */
  ghost function Normalized(vs: seq<Vertex>, scale: real): (ns: seq<Vertex>)
    requires |vs| > 0 && LargestExtent(vs) > 0.0
    ensures |ns| == |vs|
    ensures forall i, a | 0 <= i < |vs| && 0 <= a < 3 ::
      Along(ns[i], a) == Affine(Centre(Column(vs, a)), MeshScale(vs, scale))(Along(vs[i], a))
  {
    var c0, c1, c2 := NormalizedAxis(vs, scale, 0), NormalizedAxis(vs, scale, 1), NormalizedAxis(vs, scale, 2);
    var ns := Rows(c0, c1, c2);
    assert forall i | 0 <= i < |vs| :: Along(ns[i], 0) == c0[i] && Along(ns[i], 1) == c1[i] && Along(ns[i], 2) == c2[i];
    ns
  }

  /** The column the method computes from the plain bounds and scale is the specified one. */
  lemma AxisIs(vs: seq<Vertex>, scale: real, a: int, lo: real, hi: real, m: real)
    requires |vs| > 0 && LargestExtent(vs) > 0.0 && 0 <= a < 3
    requires lo == MinOf(Column(vs, a)) && hi == MaxOf(Column(vs, a))
    requires m == MeshScale(vs, scale)
    ensures MapReals(Column(vs, a), Affine(-(lo + hi) / 2.0, m)) == NormalizedAxis(vs, scale, a)
  {
    assert -(lo + hi) / 2.0 == Centre(Column(vs, a));
  }

  /**
   * `normalize_mesh`: computes the bounding box, its largest side, the
   * scale and the offset, and replaces the mesh's vertex array by the
   * shifted and scaled one.
   */
  method NormalizeMesh(mesh: Mesh, scale: real)
    requires |mesh.vertices| > 0 && LargestExtent(mesh.vertices) > 0.0
    modifies mesh
    ensures mesh.vertices == Normalized(old(mesh.vertices), scale)
  {
    var vs := mesh.vertices;
    var loX, hiX := ColumnBounds(vs, 0);
    var loY, hiY := ColumnBounds(vs, 1);
    var loZ, hiZ := ColumnBounds(vs, 2);
    var dist := Stitch.Max(Stitch.Max(hiX - loX, hiY - loY), hiZ - loZ);
    assert dist == LargestExtent(vs);
    var meshScale := 2.0 * scale / dist;
    assert meshScale == MeshScale(vs, scale);
    var cx := MapReals(Column(vs, 0), Affine(-(loX + hiX) / 2.0, meshScale));
    var cy := MapReals(Column(vs, 1), Affine(-(loY + hiY) / 2.0, meshScale));
    var cz := MapReals(Column(vs, 2), Affine(-(loZ + hiZ) / 2.0, meshScale));
    AxisIs(vs, scale, 0, loX, hiX, meshScale);
    AxisIs(vs, scale, 1, loY, hiY, meshScale);
    AxisIs(vs, scale, 2, loZ, hiZ, meshScale);
    mesh.vertices := Rows(cx, cy, cz);
  }

  function Abs(v: real): (r: real)
    ensures r >= 0.0 && (r == v || r == -v)
  {
    if v < 0.0 then -v else v
  }

  /** Multiplying by a non-negative factor keeps order; by a negative one, reverses it. */
  lemma ScaleOrder(p: real, q: real, s: real)
    requires p <= q
    ensures s >= 0.0 ==> p * s <= q * s
    ensures s < 0.0 ==> q * s <= p * s
  {
    assert q * s - p * s == (q - p) * s;
  }

  /** `(p + o) * s` is monotone for `s >= 0` and order-reversing for `s < 0`. */
  lemma AffineOrder(o: real, s: real)
    ensures s >= 0.0 ==> forall p: real, q: real | p <= q :: Affine(o, s)(p) <= Affine(o, s)(q)
    ensures s < 0.0 ==> forall p: real, q: real | p <= q :: Affine(o, s)(q) <= Affine(o, s)(p)
  {
    forall p: real, q: real | p <= q
      ensures s >= 0.0 ==> Affine(o, s)(p) <= Affine(o, s)(q)
      ensures s < 0.0 ==> Affine(o, s)(q) <= Affine(o, s)(p)
    {
      ScaleOrder(p + o, q + o, s);
    }
  }

  /** A monotone map sends the minimum and maximum of a list to those of its image. */
  lemma MonotoneBounds(xs: seq<real>, f: real -> real)
    requires |xs| > 0
    requires forall p: real, q: real | p <= q :: f(p) <= f(q)
    ensures MinOf(MapReals(xs, f)) == f(MinOf(xs)) && MaxOf(MapReals(xs, f)) == f(MaxOf(xs))
  {
    var ys := MapReals(xs, f);
    var kLo :| 0 <= kLo < |xs| && xs[kLo] == MinOf(xs);
    var kHi :| 0 <= kHi < |xs| && xs[kHi] == MaxOf(xs);
    assert IsMin(xs, MinOf(xs)) && IsMax(xs, MaxOf(xs));
    forall i | 0 <= i < |xs|
      ensures ys[kLo] <= ys[i] <= ys[kHi]
    {
      assert xs[kLo] <= xs[i] <= xs[kHi];
    }
    MinIs(ys, ys[kLo]);
    MaxIs(ys, ys[kHi]);
  }

  /** An order-reversing map swaps the minimum and maximum. */
  lemma AntitoneBounds(xs: seq<real>, f: real -> real)
    requires |xs| > 0
    requires forall p: real, q: real | p <= q :: f(q) <= f(p)
    ensures MinOf(MapReals(xs, f)) == f(MaxOf(xs)) && MaxOf(MapReals(xs, f)) == f(MinOf(xs))
  {
    var ys := MapReals(xs, f);
    var kLo :| 0 <= kLo < |xs| && xs[kLo] == MinOf(xs);
    var kHi :| 0 <= kHi < |xs| && xs[kHi] == MaxOf(xs);
    assert IsMin(xs, MinOf(xs)) && IsMax(xs, MaxOf(xs));
    forall i | 0 <= i < |xs|
      ensures ys[kHi] <= ys[i] <= ys[kLo]
    {
      assert xs[kLo] <= xs[i] <= xs[kHi];
    }
    MinIs(ys, ys[kHi]);
    MaxIs(ys, ys[kLo]);
  }

  /**
   * The ends of [lo, hi] after shifting by minus its centre and scaling
   * by `s`: -|s|*e/2 and |s|*e/2, in that order when `s >= 0`.
   */
  lemma CentredEnds(lo: real, hi: real, e: real, s: real, f: real)
    requires e == hi - lo && f == Abs(s)
    ensures s >= 0.0 ==>
      Affine(-(lo + hi) / 2.0, s)(lo) == -(f * e / 2.0) && Affine(-(lo + hi) / 2.0, s)(hi) == f * e / 2.0
    ensures s < 0.0 ==>
      Affine(-(lo + hi) / 2.0, s)(hi) == -(f * e / 2.0) && Affine(-(lo + hi) / 2.0, s)(lo) == f * e / 2.0
  {
    assert lo + -(lo + hi) / 2.0 == -(e / 2.0);
    assert hi + -(lo + hi) / 2.0 == e / 2.0;
  }

  /**
   * Shifting a list by minus the centre of its range and scaling by `s`
   * gives a range centred on 0 of half-width `f` = |s| times the old half-width.
   */
  lemma CentredRange(xs: seq<real>, e: real, s: real, f: real)
    requires |xs| > 0 && e == MaxOf(xs) - MinOf(xs) && f == Abs(s)
    ensures MaxOf(MapReals(xs, Affine(Centre(xs), s))) == f * e / 2.0
    ensures MinOf(MapReals(xs, Affine(Centre(xs), s))) == -(f * e / 2.0)
  {
    var lo, hi := MinOf(xs), MaxOf(xs);
    var g := Affine(-(lo + hi) / 2.0, s);
    AffineOrder(-(lo + hi) / 2.0, s);
    CentredEnds(lo, hi, e, s, f);
    if s >= 0.0 {
      MonotoneBounds(xs, g);
    } else {
      AntitoneBounds(xs, g);
    }
  }

  /** Column `a` of the normalised array is column `a` shifted by minus its centre and scaled. */
  lemma NormalizedColumn(vs: seq<Vertex>, scale: real, a: int)
    requires |vs| > 0 && LargestExtent(vs) > 0.0 && 0 <= a < 3
    ensures Column(Normalized(vs, scale), a) == NormalizedAxis(vs, scale, a)
  {
    var ns := Normalized(vs, scale);
    assert forall i | 0 <= i < |vs| :: Column(ns, a)[i] == NormalizedAxis(vs, scale, a)[i];
  }

  /**
   * Along axis `a` the normalised bounding box is centred on 0, with
   * half-side `f` = |mesh_scale| times half the old side `e`.
   */
  lemma NormalizedBox(vs: seq<Vertex>, scale: real, a: int, e: real, f: real)
    requires |vs| > 0 && LargestExtent(vs) > 0.0 && 0 <= a < 3
    requires e == Extent(vs, a) && f == Abs(MeshScale(vs, scale))
    ensures MinOf(Column(Normalized(vs, scale), a)) == -(f * e / 2.0)
    ensures MaxOf(Column(Normalized(vs, scale), a)) == f * e / 2.0
  {
    NormalizedColumn(vs, scale, a);
    CentredRange(Column(vs, a), e, MeshScale(vs, scale), f);
  }

  /** Scaling three sides by a non-negative factor scales the largest one by it. */
  lemma ScaledMax(e0: real, e1: real, e2: real, f: real)
    requires f >= 0.0
    ensures Stitch.Max(Stitch.Max(f * e0, f * e1), f * e2) == f * Stitch.Max(Stitch.Max(e0, e1), e2)
  {
    if e0 <= e1 {
      ScaleOrder(e0, e1, f);
    } else {
      ScaleOrder(e1, e0, f);
    }
    var m := Stitch.Max(e0, e1);
    if m <= e2 {
      ScaleOrder(m, e2, f);
    } else {
      ScaleOrder(e2, m, f);
    }
  }

  /** `|m| * d == 2|n|` when `m` is `2n / d` for a positive `d`. */
  lemma Quotient(n: real, d: real, m: real)
    requires d > 0.0 && m == 2.0 * n / d
    ensures Abs(m) * d == 2.0 * Abs(n)
  {
    assert m * d == 2.0 * n;
    if n < 0.0 {
      assert m < 0.0;
      assert Abs(m) * d == -(m * d);
    } else {
      assert m >= 0.0;
    }
  }

  /** After `normalize_mesh` the bounding-box centre is the origin on every axis. */
  lemma NormalizeCentres(vs: seq<Vertex>, scale: real, a: int)
    requires |vs| > 0 && LargestExtent(vs) > 0.0 && 0 <= a < 3
    ensures MinOf(Column(Normalized(vs, scale), a)) + MaxOf(Column(Normalized(vs, scale), a)) == 0.0
  {
    NormalizedBox(vs, scale, a, Extent(vs, a), Abs(MeshScale(vs, scale)));
  }

  /** Along axis `a` the normalised side is the old side `e` times `f` = |mesh_scale|. */
  lemma NormalizedExtent(vs: seq<Vertex>, scale: real, a: int, e: real, f: real)
    requires |vs| > 0 && LargestExtent(vs) > 0.0 && 0 <= a < 3
    requires e == Extent(vs, a) && f == Abs(MeshScale(vs, scale))
    ensures Extent(Normalized(vs, scale), a) == f * e
  {
    NormalizedBox(vs, scale, a, e, f);
  }

  /** The arithmetic behind the largest side: `|2 scale / d| * max(e) == 2 |scale|` when `d = max(e)`. */
  lemma LargestSideArith(e0: real, e1: real, e2: real, d: real, scale: real, m: real, f: real)
    requires d == Stitch.Max(Stitch.Max(e0, e1), e2) && d > 0.0 && m == 2.0 * scale / d && f == Abs(m)
    ensures Stitch.Max(Stitch.Max(f * e0, f * e1), f * e2) == 2.0 * Abs(scale)
  {
    ScaledMax(e0, e1, e2, f);
    Quotient(scale, d, m);
    calc {
      Stitch.Max(Stitch.Max(f * e0, f * e1), f * e2);
      f * d;
      Abs(m) * d;
      2.0 * Abs(scale);
    }
  }

  /** After `normalize_mesh` the largest side of the bounding box is 2 * |scale|. */
  lemma NormalizeLargestSide(vs: seq<Vertex>, scale: real)
    requires |vs| > 0 && LargestExtent(vs) > 0.0
    ensures LargestExtent(Normalized(vs, scale)) == 2.0 * Abs(scale)
  {
    var d, m := LargestExtent(vs), MeshScale(vs, scale);
    var f := Abs(m);
    var e0, e1, e2 := Extent(vs, 0), Extent(vs, 1), Extent(vs, 2);
    NormalizedExtent(vs, scale, 0, e0, f);
    NormalizedExtent(vs, scale, 1, e1, f);
    NormalizedExtent(vs, scale, 2, e2, f);
    LargestSideArith(e0, e1, e2, d, scale, m, f);
  }

  /** The arithmetic behind the bound: `|2 scale / d| * e / 2 <= |scale|` when `0 <= e <= d`. */
  lemma HalfSideArith(e: real, d: real, scale: real, m: real, f: real)
    requires 0.0 <= e <= d && d > 0.0 && m == 2.0 * scale / d && f == Abs(m)
    ensures f * e / 2.0 <= Abs(scale)
  {
    ScaleOrder(e, d, f);
    Quotient(scale, d, m);
  }

  /** After `normalize_mesh` every coordinate lies in [-|scale|, |scale|]. */
  lemma NormalizeBounded(vs: seq<Vertex>, scale: real, i: int, a: int)
    requires |vs| > 0 && LargestExtent(vs) > 0.0 && 0 <= i < |vs| && 0 <= a < 3
    ensures -Abs(scale) <= Along(Normalized(vs, scale)[i], a) <= Abs(scale)
  {
    var d, m := LargestExtent(vs), MeshScale(vs, scale);
    var f, e := Abs(m), Extent(vs, a);
    var ys := Column(Normalized(vs, scale), a);
    NormalizedBox(vs, scale, a, e, f);
    LargestExtentBounds(vs);
    HalfSideArith(e, d, scale, m, f);
    assert MinOf(ys) <= ys[i] <= MaxOf(ys);
  }

  // ---------------------------------------------------------------------
  // mesh2index
  // ---------------------------------------------------------------------

  /** The distance field reshaped to (size, size, size). */
  type Field = seq<seq<seq<real>>>

  predicate IsCube(field: Field, size: nat)
  {
    |field| == size &&
    (forall x | 0 <= x < size :: |field[x]| == size) &&
    (forall x, y | 0 <= x < size && 0 <= y < size :: |field[x][y]| == size)
  }

  /** `sdf < 4/size`: the voxel lies near the surface. */
  predicate Selected(field: Field, size: nat, x: int, y: int, z: int)
    requires size > 0 && IsCube(field, size)
  {
    0 <= x < size && 0 <= y < size && 0 <= z < size && field[x][y][z] < 4.0 / size as real
  }

  /** Strict lexicographic order on index rows (batch first), the order of `torch.unique`. */
  predicate Before(c: Coord, d: Coord)
  {
    c.b < d.b || (c.b == d.b && (c.x < d.x || (c.x == d.x && (c.y < d.y || (c.y == d.y && c.z < d.z)))))
  }

  predicate StrictlySorted(cs: seq<Coord>)
  {
    forall i, j | 0 <= i < j < |cs| :: Before(cs[i], cs[j])
  }

  /** Voxel (x, y, z) comes at or after (x0, y0, z0) in row-major order. */
  predicate AtOrAfter(x: int, y: int, z: int, x0: int, y0: int, z0: int)
  {
    x > x0 || (x == x0 && (y > y0 || (y == y0 && z >= z0)))
  }

  /**
   * `(sdf < 4/size).nonzero()` on the (1, size, size, size) field, from voxel
   * (x, y, z) onwards in row-major order: the selected voxels as rows
   * (0, x, y, z), in increasing order.
   */
  function Scan(field: Field, size: nat, x: nat, y: nat, z: nat): (cs: seq<Coord>)
    requires size > 0 && IsCube(field, size) && x <= size && y <= size && z <= size
    ensures StrictlySorted(cs)
    ensures forall i | 0 <= i < |cs| :: AtOrAfter(cs[i].x, cs[i].y, cs[i].z, x, y, z)
    ensures forall c :: c in cs <==>
      c.b == 0 && Selected(field, size, c.x, c.y, c.z) && AtOrAfter(c.x, c.y, c.z, x, y, z)
    decreases size - x, size - y, size - z
  {
    if x == size then []
    else if y == size then Scan(field, size, x + 1, 0, 0)
    else if z == size then Scan(field, size, x, y + 1, 0)
    else
      var rest := Scan(field, size, x, y, z + 1);
      if field[x][y][z] < 4.0 / size as real then [Coord(0, x, y, z)] + rest else rest
  }

  /** `sparse_index[..., 1:] // factor`: the batch column is kept. */
  function Coarsen(c: Coord, factor: nat): (d: Coord)
    requires factor > 0
    ensures d.b == c.b
  {
    Coord(c.b, c.x / factor, c.y / factor, c.z / factor)
  }

  function CoarsenAll(cs: seq<Coord>, factor: nat): (ds: seq<Coord>)
    requires factor > 0
    ensures |ds| == |cs| && forall i | 0 <= i < |cs| :: ds[i] == Coarsen(cs[i], factor)
  {
    seq(|cs|, i requires 0 <= i < |cs| => Coarsen(cs[i], factor))
  }

  /** Two distinct rows are ordered one way or the other. */
  lemma BeforeTotal(c: Coord, d: Coord)
    ensures c == d || Before(c, d) || Before(d, c)
  {
  }

  /** Insertion of `c` into a strictly sorted list, dropping it if already present. */
  function Insert(cs: seq<Coord>, c: Coord): (r: seq<Coord>)
    requires StrictlySorted(cs)
    ensures StrictlySorted(r)
    ensures forall d :: d in r <==> d in cs || d == c
  {
    if |cs| == 0 then [c]
    else if c == cs[0] then cs
    else if Before(c, cs[0]) then [c] + cs
    else
      var rest := Insert(cs[1..], c);
      BeforeTotal(c, cs[0]);
      assert forall d | d in rest :: Before(cs[0], d);
      [cs[0]] + rest
  }

  /** `torch.unique(..., dim=0)`: the distinct rows, sorted. */
  function SortUnique(cs: seq<Coord>): (r: seq<Coord>)
    ensures StrictlySorted(r)
    ensures forall d :: d in r <==> d in cs
  {
    if |cs| == 0 then []
    else
      var r := Insert(SortUnique(cs[1..]), cs[0]);
      assert forall d | d in cs :: d == cs[0] || d in cs[1..];
      r
  }

  /** Multiplying by a natural number keeps the order. */
  lemma MulMonotone(a: nat, b: nat, k: nat)
    requires a <= b
    ensures a * k <= b * k
  {
    var d := b - a;
    assert b * k == a * k + d * k;
  }

  /** Integer division by a positive divisor is monotone. */
  lemma DivMonotone(p: nat, q: nat, f: nat)
    requires p <= q && f > 0
    ensures p / f <= q / f
  {
    if p / f > q / f {
      MulMonotone(q / f + 1, p / f, f);
    }
  }

  /**
   * `mesh2index` on a reshaped distance field: the sorted, duplicate-free
   * rows (0, x // factor, y // factor, z // factor) of the voxels whose
   * distance is below 4/size.
   */
  function Mesh2Index(field: Field, size: nat, factor: nat): (r: seq<Coord>)
    requires size > 0 && factor > 0 && IsCube(field, size)
    ensures StrictlySorted(r)
    ensures forall i | 0 <= i < |r| ::
      r[i].b == 0 && r[i].x <= (size - 1) / factor && r[i].y <= (size - 1) / factor && r[i].z <= (size - 1) / factor
  {
    var r := SortUnique(CoarsenAll(Scan(field, size, 0, 0, 0), factor));
    forall i | 0 <= i < |r|
      ensures r[i].b == 0 && r[i].x <= (size - 1) / factor && r[i].y <= (size - 1) / factor && r[i].z <= (size - 1) / factor
    {
      var cs := Scan(field, size, 0, 0, 0);
      assert r[i] in CoarsenAll(cs, factor);
      var k :| 0 <= k < |cs| && r[i] == Coarsen(cs[k], factor);
      assert cs[k] in cs;
      DivMonotone(cs[k].x, size - 1, factor);
      DivMonotone(cs[k].y, size - 1, factor);
      DivMonotone(cs[k].z, size - 1, factor);
    }
    r
  }

  /** A row is in the index iff it is the coarsening of some selected voxel. */
  lemma Mesh2IndexMembers(field: Field, size: nat, factor: nat, c: Coord)
    requires size > 0 && factor > 0 && IsCube(field, size)
    ensures c in Mesh2Index(field, size, factor) <==>
      exists x: nat, y: nat, z: nat :: Selected(field, size, x, y, z) && c == Coarsen(Coord(0, x, y, z), factor)
  {
    if c in Mesh2Index(field, size, factor) {
      VoxelOfIndex(field, size, factor, c);
    }
    if exists x: nat, y: nat, z: nat :: Selected(field, size, x, y, z) && c == Coarsen(Coord(0, x, y, z), factor) {
      var x: nat, y: nat, z: nat :| Selected(field, size, x, y, z) && c == Coarsen(Coord(0, x, y, z), factor);
      IndexOfVoxel(field, size, factor, x, y, z);
    }
  }

  /** Every row of the index comes from a selected voxel. */
  lemma VoxelOfIndex(field: Field, size: nat, factor: nat, c: Coord)
    requires size > 0 && factor > 0 && IsCube(field, size)
    requires c in Mesh2Index(field, size, factor)
    ensures exists x: nat, y: nat, z: nat :: Selected(field, size, x, y, z) && c == Coarsen(Coord(0, x, y, z), factor)
  {
    var cs := Scan(field, size, 0, 0, 0);
    var ds := CoarsenAll(cs, factor);
    assert c in ds;
    var k :| 0 <= k < |ds| && ds[k] == c;
    var v := cs[k];
    assert v in cs;
    assert v == Coord(0, v.x, v.y, v.z);
    assert Selected(field, size, v.x, v.y, v.z);
  }

  /** Every selected voxel gives a row of the index. */
  lemma IndexOfVoxel(field: Field, size: nat, factor: nat, x: nat, y: nat, z: nat)
    requires size > 0 && factor > 0 && IsCube(field, size)
    requires Selected(field, size, x, y, z)
    ensures Coarsen(Coord(0, x, y, z), factor) in Mesh2Index(field, size, factor)
  {
    var cs := Scan(field, size, 0, 0, 0);
    var ds := CoarsenAll(cs, factor);
    var v := Coord(0, x, y, z);
    assert AtOrAfter(x, y, z, 0, 0, 0);
    assert v in cs;
    var k :| 0 <= k < |cs| && cs[k] == v;
    assert ds[k] == Coarsen(v, factor);
    assert Coarsen(v, factor) in ds;
  }
}
