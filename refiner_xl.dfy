/**
 * `Voxel_RefinerXL.run`: densify the sparse SDF and features at 512^3, cut the
 * volumes into 27 overlapping patches of side 192 (stride 160), denoise each
 * patch, and stitch the patches back one axis at a time: three patches into a
 * line (last axis), three lines into a layer (middle axis), three layers into
 * the volume (first spatial axis).
 *
 * Volumes are indexed (batch, x, y, z); the size-1 channel axis of the SDF
 * tensors is dropped.  The denoising network is the parameter `denoise`.
 */
module RefinerXL {
  import opened Stitch
  import opened Sparse

  /** A batched crop handed to the network: [batch][i][j][k]. */
  type Cube<T> = seq<seq<seq<seq<T>>>>

  /** The network: (SDF crop, feature crop) to a denoised patch. */
  type Denoiser = (Cube<real>, Cube<seq<real>>) -> Volume

  /** `a[:, ox:ox+192, oy:oy+192, oz:oz+192]` as a value. */
  function Crop<T>(a: array4<T>, ox: int, oy: int, oz: int): (c: Cube<T>)
    requires 0 <= ox && ox + PatchSize <= a.Length1
    requires 0 <= oy && oy + PatchSize <= a.Length2
    requires 0 <= oz && oz + PatchSize <= a.Length3
    reads a
    ensures |c| == a.Length0
  {
    seq(a.Length0, b requires 0 <= b < a.Length0 reads a =>
      seq(PatchSize, p requires 0 <= p < PatchSize reads a =>
        seq(PatchSize, q requires 0 <= q < PatchSize reads a =>
          seq(PatchSize, r requires 0 <= r < PatchSize reads a =>
            a[b, ox + p, oy + q, oz + r]))))
  }

  /** A batched dense volume of side Res. */
  predicate IsVolume<T>(a: array4<T>, batch: int)
    reads {}
  {
    a.Length0 == batch && a.Length1 == Res && a.Length2 == Res && a.Length3 == Res
  }

  /** Patch number `m` in loop order: the denoised crop of tile (m / 9, (m / 3) % 3, m % 3). */
  function PatchAt(sdfs: array4<real>, feats: array4<seq<real>>, denoise: Denoiser, m: int): Volume
    requires IsVolume(sdfs, sdfs.Length0) && IsVolume(feats, feats.Length0) && 0 <= m < 27
    reads sdfs, feats
  {
    var i, j, k := m / 9, (m / 3) % 3, m % 3;
    denoise(Crop(sdfs, TileOrigin(i), TileOrigin(j), TileOrigin(k)),
            Crop(feats, TileOrigin(i), TileOrigin(j), TileOrigin(k)))
  }

  /**
   * The tiling loops: patch number i*9 + j*3 + k is the denoised crop at
   * offsets (160i, 160j, 160k), each extent inside [0, 512).
   */
  method TilePatches(sdfs: array4<real>, feats: array4<seq<real>>, denoise: Denoiser)
    returns (patchs: seq<Volume>)
    requires IsVolume(sdfs, sdfs.Length0) && IsVolume(feats, feats.Length0)
    ensures |patchs| == Steps * Steps * Steps
    ensures forall i, j, k | 0 <= i < Steps && 0 <= j < Steps && 0 <= k < Steps ::
      patchs[PatchIndex(i, j, k)] ==
        denoise(Crop(sdfs, TileOrigin(i), TileOrigin(j), TileOrigin(k)),
                Crop(feats, TileOrigin(i), TileOrigin(j), TileOrigin(k)))
  {
    patchs := [];
    for i := 0 to Steps
      invariant |patchs| == 9 * i
      invariant forall m | 0 <= m < |patchs| :: patchs[m] == PatchAt(sdfs, feats, denoise, m)
    {
      for j := 0 to Steps
        invariant |patchs| == 9 * i + 3 * j
        invariant forall m | 0 <= m < |patchs| :: patchs[m] == PatchAt(sdfs, feats, denoise, m)
      {
        for k := 0 to Steps
          invariant |patchs| == 9 * i + 3 * j + k
          invariant forall m | 0 <= m < |patchs| :: patchs[m] == PatchAt(sdfs, feats, denoise, m)
        {
          var sdf := Crop(sdfs, Stride * i, Stride * j, Stride * k);
          var cropFeats := Crop(feats, Stride * i, Stride * j, Stride * k);
          assert PatchIndex(i, j, k) == |patchs|;
          patchs := patchs + [denoise(sdf, cropFeats)];
        }
      }
    }
    forall i, j, k | 0 <= i < Steps && 0 <= j < Steps && 0 <= k < Steps
      ensures patchs[PatchIndex(i, j, k)] ==
        denoise(Crop(sdfs, TileOrigin(i), TileOrigin(j), TileOrigin(k)),
                Crop(feats, TileOrigin(i), TileOrigin(j), TileOrigin(k)))
    {
      assert patchs[PatchIndex(i, j, k)] == PatchAt(sdfs, feats, denoise, PatchIndex(i, j, k));
    }
  }

  /** One line: patches `out1`, `out2`, `out3` stitched along the last axis. */
  method StitchLine(out1: Volume, out2: Volume, out3: Volume, batch: nat) returns (line: array4<real>)
    ensures fresh(line)
    ensures line.Length0 == batch && line.Length1 == PatchSize && line.Length2 == PatchSize && line.Length3 == Res
    ensures forall b, p, q, z | 0 <= b < batch && 0 <= p < PatchSize && 0 <= q < PatchSize && 0 <= z < Res ::
      line[b, p, q, z] == StitchAt(z, out1(b, p, q, Local(z, 0)), out2(b, p, q, Local(z, 1)), out3(b, p, q, Local(z, 2)))
  {
    line := new real[batch, PatchSize, PatchSize, Res]((b, p, q, z) => 2.0);
    LineCopies(line, out1, out2, out3);
    LineBlends(line, out1, out2, out3);
    forall b, p, q, z | 0 <= b < batch && 0 <= p < PatchSize && 0 <= q < PatchSize && 0 <= z < Res
      ensures line[b, p, q, z] ==
        StitchAt(z, out1(b, p, q, Local(z, 0)), out2(b, p, q, Local(z, 1)), out3(b, p, q, Local(z, 2)))
    {
      StitchAtSegments(z, out1(b, p, q, Local(z, 0)), out2(b, p, q, Local(z, 1)), out3(b, p, q, Local(z, 2)));
    }
  }

  /**
   * The three single-patch bands of a line: `line[..., 0:160] = out1[..., 0:160]`
   * and so on; the two overlap bands are left as they are.
   */
  method LineCopies(line: array4<real>, out1: Volume, out2: Volume, out3: Volume)
    requires line.Length1 == PatchSize && line.Length2 == PatchSize && line.Length3 == Res
    modifies line
    ensures forall b, p, q, z | 0 <= b < line.Length0 && 0 <= p < PatchSize && 0 <= q < PatchSize && 0 <= z < 160 ::
      line[b, p, q, z] == out1(b, p, q, z)
    ensures forall b, p, q, z | 0 <= b < line.Length0 && 0 <= p < PatchSize && 0 <= q < PatchSize && 192 <= z < 320 ::
      line[b, p, q, z] == out2(b, p, q, z - 160)
    ensures forall b, p, q, z | 0 <= b < line.Length0 && 0 <= p < PatchSize && 0 <= q < PatchSize && 352 <= z < Res ::
      line[b, p, q, z] == out3(b, p, q, z - 320)
    ensures forall b, p, q, z | 0 <= b < line.Length0 && 0 <= p < PatchSize && 0 <= q < PatchSize &&
      (160 <= z < 192 || 320 <= z < 352) ::
      line[b, p, q, z] == old(line[b, p, q, z])
  {
    var batch := line.Length0;
    forall b, p, q, z | 0 <= b < batch && 0 <= p < PatchSize && 0 <= q < PatchSize && 0 <= z < 160 {
      line[b, p, q, z] := out1(b, p, q, z);
    }
    forall b, p, q, z | 0 <= b < batch && 0 <= p < PatchSize && 0 <= q < PatchSize && 192 <= z < 320 {
      line[b, p, q, z] := out2(b, p, q, z - 160);
    }
    forall b, p, q, z | 0 <= b < batch && 0 <= p < PatchSize && 0 <= q < PatchSize && 352 <= z < Res {
      line[b, p, q, z] := out3(b, p, q, z - 320);
    }
  }

  /** The two overlap bands of a line, blended; the single-patch bands are left as they are. */
  method LineBlends(line: array4<real>, out1: Volume, out2: Volume, out3: Volume)
    requires line.Length1 == PatchSize && line.Length2 == PatchSize && line.Length3 == Res
    modifies line
    ensures forall b, p, q, z | 0 <= b < line.Length0 && 0 <= p < PatchSize && 0 <= q < PatchSize && 160 <= z < 192 ::
      line[b, p, q, z] == Blend(out1(b, p, q, z), out2(b, p, q, z - 160), z - 160)
    ensures forall b, p, q, z | 0 <= b < line.Length0 && 0 <= p < PatchSize && 0 <= q < PatchSize && 320 <= z < 352 ::
      line[b, p, q, z] == Blend(out2(b, p, q, z - 160), out3(b, p, q, z - 320), z - 320)
    ensures forall b, p, q, z | 0 <= b < line.Length0 && 0 <= p < PatchSize && 0 <= q < PatchSize && 0 <= z < Res &&
      !(160 <= z < 192) && !(320 <= z < 352) ::
      line[b, p, q, z] == old(line[b, p, q, z])
  {
    var batch := line.Length0;
    forall b, p, q, z | 0 <= b < batch && 0 <= p < PatchSize && 0 <= q < PatchSize && 160 <= z < 192 {
      line[b, p, q, z] := Blend(out1(b, p, q, z), out2(b, p, q, z - 160), z - 160);
    }
    forall b, p, q, z | 0 <= b < batch && 0 <= p < PatchSize && 0 <= q < PatchSize && 320 <= z < 352 {
      line[b, p, q, z] := Blend(out2(b, p, q, z - 160), out3(b, p, q, z - 320), z - 320);
    }
  }

  /** The nine lines; line m is built from patches 3m, 3m+1, 3m+2. */
  method StitchLines(patchs: seq<Volume>, batch: nat) returns (lines: seq<array4<real>>)
    requires |patchs| == 27
    ensures |lines| == 9
    ensures forall m | 0 <= m < 9 :: fresh(lines[m])
    ensures forall m | 0 <= m < 9 ::
      lines[m].Length0 == batch && lines[m].Length1 == PatchSize && lines[m].Length2 == PatchSize && lines[m].Length3 == Res
    ensures forall m, b, p, q, z |
      0 <= m < 9 && 0 <= b < batch && 0 <= p < PatchSize && 0 <= q < PatchSize && 0 <= z < Res ::
      lines[m][b, p, q, z] == LineValue(patchs, m, b, p, q, z)
  {
    lines := [];
    for i := 0 to 9
      invariant |lines| == i
      invariant forall m | 0 <= m < i :: fresh(lines[m])
      invariant forall m | 0 <= m < i ::
        lines[m].Length0 == batch && lines[m].Length1 == PatchSize && lines[m].Length2 == PatchSize && lines[m].Length3 == Res
      invariant forall m, b, p, q, z |
        0 <= m < i && 0 <= b < batch && 0 <= p < PatchSize && 0 <= q < PatchSize && 0 <= z < Res ::
        lines[m][b, p, q, z] == LineValue(patchs, m, b, p, q, z)
    {
      var line := StitchLine(patchs[i * 3], patchs[i * 3 + 1], patchs[i * 3 + 2], batch);
      lines := lines + [line];
    }
  }

  /** One layer: lines `line1`, `line2`, `line3` stitched along the middle axis. */
  method StitchLayer(line1: array4<real>, line2: array4<real>, line3: array4<real>, batch: nat)
    returns (layer: array4<real>)
    requires line1.Length0 == batch && line1.Length1 == PatchSize && line1.Length2 == PatchSize && line1.Length3 == Res
    requires line2.Length0 == batch && line2.Length1 == PatchSize && line2.Length2 == PatchSize && line2.Length3 == Res
    requires line3.Length0 == batch && line3.Length1 == PatchSize && line3.Length2 == PatchSize && line3.Length3 == Res
    ensures fresh(layer)
    ensures layer.Length0 == batch && layer.Length1 == PatchSize && layer.Length2 == Res && layer.Length3 == Res
    ensures forall b, p, y, z | 0 <= b < batch && 0 <= p < PatchSize && 0 <= y < Res && 0 <= z < Res ::
      layer[b, p, y, z] == StitchAt(y, line1[b, p, Local(y, 0), z], line2[b, p, Local(y, 1), z], line3[b, p, Local(y, 2), z])
  {
    layer := new real[batch, PatchSize, Res, Res]((b, p, y, z) => 2.0);
    LayerCopies(layer, line1, line2, line3);
    LayerBlends(layer, line1, line2, line3);
    forall b, p, y, z | 0 <= b < batch && 0 <= p < PatchSize && 0 <= y < Res && 0 <= z < Res
      ensures layer[b, p, y, z] ==
        StitchAt(y, line1[b, p, Local(y, 0), z], line2[b, p, Local(y, 1), z], line3[b, p, Local(y, 2), z])
    {
      StitchAtSegments(y, line1[b, p, Local(y, 0), z], line2[b, p, Local(y, 1), z], line3[b, p, Local(y, 2), z]);
    }
  }

  /**
   * The three single-line bands of a layer: `layer[..., 0:160, :] = line1[..., 0:160, :]`
   * and so on; the two overlap bands are left as they are.
   */
  method LayerCopies(layer: array4<real>, line1: array4<real>, line2: array4<real>, line3: array4<real>)
    requires layer != line1 && layer != line2 && layer != line3
    requires layer.Length1 == PatchSize && layer.Length2 == Res && layer.Length3 == Res
    requires line1.Length0 == layer.Length0 && line1.Length1 == PatchSize && line1.Length2 == PatchSize && line1.Length3 == Res
    requires line2.Length0 == layer.Length0 && line2.Length1 == PatchSize && line2.Length2 == PatchSize && line2.Length3 == Res
    requires line3.Length0 == layer.Length0 && line3.Length1 == PatchSize && line3.Length2 == PatchSize && line3.Length3 == Res
    modifies layer
    ensures forall b, p, y, z | 0 <= b < layer.Length0 && 0 <= p < PatchSize && 0 <= y < 160 && 0 <= z < Res ::
      layer[b, p, y, z] == line1[b, p, y, z]
    ensures forall b, p, y, z | 0 <= b < layer.Length0 && 0 <= p < PatchSize && 192 <= y < 320 && 0 <= z < Res ::
      layer[b, p, y, z] == line2[b, p, y - 160, z]
    ensures forall b, p, y, z | 0 <= b < layer.Length0 && 0 <= p < PatchSize && 352 <= y < Res && 0 <= z < Res ::
      layer[b, p, y, z] == line3[b, p, y - 320, z]
    ensures forall b, p, y, z | 0 <= b < layer.Length0 && 0 <= p < PatchSize && 0 <= z < Res &&
      (160 <= y < 192 || 320 <= y < 352) ::
      layer[b, p, y, z] == old(layer[b, p, y, z])
  {
    var batch := layer.Length0;
    forall b, p, y, z | 0 <= b < batch && 0 <= p < PatchSize && 0 <= y < 160 && 0 <= z < Res {
      layer[b, p, y, z] := line1[b, p, y, z];
    }
    forall b, p, y, z | 0 <= b < batch && 0 <= p < PatchSize && 192 <= y < 320 && 0 <= z < Res {
      layer[b, p, y, z] := line2[b, p, y - 160, z];
    }
    forall b, p, y, z | 0 <= b < batch && 0 <= p < PatchSize && 352 <= y < Res && 0 <= z < Res {
      layer[b, p, y, z] := line3[b, p, y - 320, z];
    }
  }

  /** The two overlap bands of a layer, blended; the single-line bands are left as they are. */
  method LayerBlends(layer: array4<real>, line1: array4<real>, line2: array4<real>, line3: array4<real>)
    requires layer != line1 && layer != line2 && layer != line3
    requires layer.Length1 == PatchSize && layer.Length2 == Res && layer.Length3 == Res
    requires line1.Length0 == layer.Length0 && line1.Length1 == PatchSize && line1.Length2 == PatchSize && line1.Length3 == Res
    requires line2.Length0 == layer.Length0 && line2.Length1 == PatchSize && line2.Length2 == PatchSize && line2.Length3 == Res
    requires line3.Length0 == layer.Length0 && line3.Length1 == PatchSize && line3.Length2 == PatchSize && line3.Length3 == Res
    modifies layer
    ensures forall b, p, y, z | 0 <= b < layer.Length0 && 0 <= p < PatchSize && 160 <= y < 192 && 0 <= z < Res ::
      layer[b, p, y, z] == Blend(line1[b, p, y, z], line2[b, p, y - 160, z], y - 160)
    ensures forall b, p, y, z | 0 <= b < layer.Length0 && 0 <= p < PatchSize && 320 <= y < 352 && 0 <= z < Res ::
      layer[b, p, y, z] == Blend(line2[b, p, y - 160, z], line3[b, p, y - 320, z], y - 320)
    ensures forall b, p, y, z | 0 <= b < layer.Length0 && 0 <= p < PatchSize && 0 <= y < Res && 0 <= z < Res ::
      !(160 <= y < 192 || 320 <= y < 352) ==> layer[b, p, y, z] == old(layer[b, p, y, z])
  {
    var batch := layer.Length0;
    forall b, p, y, z | 0 <= b < batch && 0 <= p < PatchSize && 160 <= y < 192 && 0 <= z < Res {
      layer[b, p, y, z] := Blend(line1[b, p, y, z], line2[b, p, y - 160, z], y - 160);
    }
    forall b, p, y, z | 0 <= b < batch && 0 <= p < PatchSize && 320 <= y < 352 && 0 <= z < Res {
      layer[b, p, y, z] := Blend(line2[b, p, y - 160, z], line3[b, p, y - 320, z], y - 320);
    }
  }

  /** The three layers; layer i is built from lines 3i, 3i+1, 3i+2. */
  method StitchLayers(lines: seq<array4<real>>, batch: nat) returns (layers: seq<array4<real>>)
    requires |lines| == 9
    requires forall m | 0 <= m < 9 ::
      lines[m].Length0 == batch && lines[m].Length1 == PatchSize && lines[m].Length2 == PatchSize && lines[m].Length3 == Res
    ensures |layers| == 3
    ensures forall i | 0 <= i < 3 :: fresh(layers[i])
    ensures forall i | 0 <= i < 3 ::
      layers[i].Length0 == batch && layers[i].Length1 == PatchSize && layers[i].Length2 == Res && layers[i].Length3 == Res
    ensures forall i, b, p, y, z |
      0 <= i < 3 && 0 <= b < batch && 0 <= p < PatchSize && 0 <= y < Res && 0 <= z < Res ::
      layers[i][b, p, y, z] ==
        StitchAt(y, lines[3 * i][b, p, Local(y, 0), z], lines[3 * i + 1][b, p, Local(y, 1), z], lines[3 * i + 2][b, p, Local(y, 2), z])
  {
    layers := [];
    for i := 0 to 3
      invariant |layers| == i
      invariant forall i' | 0 <= i' < i :: fresh(layers[i'])
      invariant forall i' | 0 <= i' < i ::
        layers[i'].Length0 == batch && layers[i'].Length1 == PatchSize && layers[i'].Length2 == Res && layers[i'].Length3 == Res
      invariant forall i', b, p, y, z |
        0 <= i' < i && 0 <= b < batch && 0 <= p < PatchSize && 0 <= y < Res && 0 <= z < Res ::
        layers[i'][b, p, y, z] ==
          StitchAt(y, lines[3 * i'][b, p, Local(y, 0), z], lines[3 * i' + 1][b, p, Local(y, 1), z], lines[3 * i' + 2][b, p, Local(y, 2), z])
    {
      var layer := StitchLayer(lines[i * 3], lines[i * 3 + 1], lines[i * 3 + 2], batch);
      layers := layers + [layer];
    }
  }

  /** The final assembly into `outputs`, stitched along the first spatial axis. */
  method StitchVolume(layers: seq<array4<real>>, outputs: array4<real>)
    requires |layers| == 3
    requires forall i | 0 <= i < 3 :: layers[i] != outputs
    requires forall i | 0 <= i < 3 ::
      layers[i].Length0 == outputs.Length0 && layers[i].Length1 == PatchSize && layers[i].Length2 == Res && layers[i].Length3 == Res
    requires IsVolume(outputs, outputs.Length0)
    modifies outputs
    ensures forall b, x, y, z | 0 <= b < outputs.Length0 && 0 <= x < Res && 0 <= y < Res && 0 <= z < Res ::
      outputs[b, x, y, z] ==
        StitchAt(x, layers[0][b, Local(x, 0), y, z], layers[1][b, Local(x, 1), y, z], layers[2][b, Local(x, 2), y, z])
  {
    var layer0, layer1, layer2 := layers[0], layers[1], layers[2];
    VolumeCopies(outputs, layer0, layer1, layer2);
    VolumeBlends(outputs, layer0, layer1, layer2);
    forall b, x, y, z | 0 <= b < outputs.Length0 && 0 <= x < Res && 0 <= y < Res && 0 <= z < Res
      ensures outputs[b, x, y, z] ==
        StitchAt(x, layer0[b, Local(x, 0), y, z], layer1[b, Local(x, 1), y, z], layer2[b, Local(x, 2), y, z])
    {
      StitchAtSegments(x, layer0[b, Local(x, 0), y, z], layer1[b, Local(x, 1), y, z], layer2[b, Local(x, 2), y, z]);
    }
  }

  /**
   * The three single-layer bands: `outputs[:, :, 0:160] = layer1[:, :, 0:160]`
   * and so on; the two overlap bands are left as they are.
   */
  method VolumeCopies(outputs: array4<real>, layer0: array4<real>, layer1: array4<real>, layer2: array4<real>)
    requires outputs != layer0 && outputs != layer1 && outputs != layer2
    requires IsVolume(outputs, outputs.Length0)
    requires layer0.Length0 == outputs.Length0 && layer0.Length1 == PatchSize && layer0.Length2 == Res && layer0.Length3 == Res
    requires layer1.Length0 == outputs.Length0 && layer1.Length1 == PatchSize && layer1.Length2 == Res && layer1.Length3 == Res
    requires layer2.Length0 == outputs.Length0 && layer2.Length1 == PatchSize && layer2.Length2 == Res && layer2.Length3 == Res
    modifies outputs
    ensures forall b, x, y, z | 0 <= b < outputs.Length0 && 0 <= x < 160 && 0 <= y < Res && 0 <= z < Res ::
      outputs[b, x, y, z] == layer0[b, x, y, z]
    ensures forall b, x, y, z | 0 <= b < outputs.Length0 && 192 <= x < 320 && 0 <= y < Res && 0 <= z < Res ::
      outputs[b, x, y, z] == layer1[b, x - 160, y, z]
    ensures forall b, x, y, z | 0 <= b < outputs.Length0 && 352 <= x < Res && 0 <= y < Res && 0 <= z < Res ::
      outputs[b, x, y, z] == layer2[b, x - 320, y, z]
    ensures forall b, x, y, z | 0 <= b < outputs.Length0 && 0 <= y < Res && 0 <= z < Res &&
      (160 <= x < 192 || 320 <= x < 352) ::
      outputs[b, x, y, z] == old(outputs[b, x, y, z])
  {
    var n := outputs.Length0;
    forall b, x, y, z | 0 <= b < n && 0 <= x < 160 && 0 <= y < Res && 0 <= z < Res {
      outputs[b, x, y, z] := layer0[b, x, y, z];
    }
    forall b, x, y, z | 0 <= b < n && 192 <= x < 320 && 0 <= y < Res && 0 <= z < Res {
      outputs[b, x, y, z] := layer1[b, x - 160, y, z];
    }
    forall b, x, y, z | 0 <= b < n && 352 <= x < Res && 0 <= y < Res && 0 <= z < Res {
      outputs[b, x, y, z] := layer2[b, x - 320, y, z];
    }
  }

  /** The two overlap bands, blended; the single-layer bands are left as they are. */
  method VolumeBlends(outputs: array4<real>, layer0: array4<real>, layer1: array4<real>, layer2: array4<real>)
    requires outputs != layer0 && outputs != layer1 && outputs != layer2
    requires IsVolume(outputs, outputs.Length0)
    requires layer0.Length0 == outputs.Length0 && layer0.Length1 == PatchSize && layer0.Length2 == Res && layer0.Length3 == Res
    requires layer1.Length0 == outputs.Length0 && layer1.Length1 == PatchSize && layer1.Length2 == Res && layer1.Length3 == Res
    requires layer2.Length0 == outputs.Length0 && layer2.Length1 == PatchSize && layer2.Length2 == Res && layer2.Length3 == Res
    modifies outputs
    ensures forall b, x, y, z | 0 <= b < outputs.Length0 && 160 <= x < 192 && 0 <= y < Res && 0 <= z < Res ::
      outputs[b, x, y, z] == Blend(layer0[b, x, y, z], layer1[b, x - 160, y, z], x - 160)
    ensures forall b, x, y, z | 0 <= b < outputs.Length0 && 320 <= x < 352 && 0 <= y < Res && 0 <= z < Res ::
      outputs[b, x, y, z] == Blend(layer1[b, x - 160, y, z], layer2[b, x - 320, y, z], x - 320)
    ensures forall b, x, y, z | 0 <= b < outputs.Length0 && 0 <= x < Res && 0 <= y < Res && 0 <= z < Res ::
      !(160 <= x < 192 || 320 <= x < 352) ==> outputs[b, x, y, z] == old(outputs[b, x, y, z])
  {
    var n := outputs.Length0;
    forall b, x, y, z | 0 <= b < n && 160 <= x < 192 && 0 <= y < Res && 0 <= z < Res {
      outputs[b, x, y, z] := Blend(layer0[b, x, y, z], layer1[b, x - 160, y, z], x - 160);
    }
    forall b, x, y, z | 0 <= b < n && 320 <= x < 352 && 0 <= y < Res && 0 <= z < Res {
      outputs[b, x, y, z] := Blend(layer1[b, x - 160, y, z], layer2[b, x - 320, y, z], x - 320);
    }
  }

  /**
   * Tiling, denoising and stitching of densified volumes: every voxel of the
   * output is the three-level stitch of the 27 denoised patches (so neither the
   * placeholder 2 of the line and layer buffers nor the initial 1 of `outputs`
   * survives anywhere).
   */
  method Refine(sdfs: array4<real>, feats: array4<seq<real>>, denoise: Denoiser)
    returns (outputs: array4<real>, ghost patchs: seq<Volume>)
    requires IsVolume(sdfs, sdfs.Length0) && IsVolume(feats, feats.Length0)
    ensures fresh(outputs) && IsVolume(outputs, sdfs.Length0)
    ensures |patchs| == 27
    ensures forall i, j, k | 0 <= i < Steps && 0 <= j < Steps && 0 <= k < Steps ::
      patchs[PatchIndex(i, j, k)] ==
        denoise(Crop(sdfs, TileOrigin(i), TileOrigin(j), TileOrigin(k)),
                Crop(feats, TileOrigin(i), TileOrigin(j), TileOrigin(k)))
    ensures forall b, x, y, z | 0 <= b < outputs.Length0 && 0 <= x < Res && 0 <= y < Res && 0 <= z < Res ::
      outputs[b, x, y, z] == VolumeValue(patchs, b, x, y, z)
  {
    var n := sdfs.Length0;
    outputs := new real[n, Res, Res, Res]((b, x, y, z) => 1.0);
    var ps := TilePatches(sdfs, feats, denoise);
    patchs := ps;
    var lines := StitchLines(ps, n);
    var layers := StitchLayers(lines, n);
    StitchVolume(layers, outputs);
    forall i, b, p, y, z | 0 <= i < 3 && 0 <= b < n && 0 <= p < PatchSize && 0 <= y < Res && 0 <= z < Res
      ensures layers[i][b, p, y, z] == LayerValue(ps, i, b, p, y, z)
    {
      assert lines[3 * i][b, p, Local(y, 0), z] == LineValue(ps, 3 * i, b, p, Local(y, 0), z);
      assert lines[3 * i + 1][b, p, Local(y, 1), z] == LineValue(ps, 3 * i + 1, b, p, Local(y, 1), z);
      assert lines[3 * i + 2][b, p, Local(y, 2), z] == LineValue(ps, 3 * i + 2, b, p, Local(y, 2), z);
    }
  }

  /**
   * `Voxel_RefinerXL.run` up to the marching-cubes call: densify the SDF (fill
   * 1) and the features (fill 0, in chunks of 10000 rows) at 512^3, then tile,
   * denoise and stitch.  The returned volume is the field handed to marching
   * cubes; `sdfs`, `feats` and `patchs` name the intermediate values.
   */
  method Run(coords: seq<Coord>, sdfVals: seq<real>, featVals: seq<seq<real>>, channels: nat, denoise: Denoiser)
    returns (outputs: array4<real>, ghost sdfs: array4<real>, ghost feats: array4<seq<real>>, ghost patchs: seq<Volume>)
    requires |coords| > 0 && |sdfVals| == |coords| && |featVals| == |coords|
    requires forall n | 0 <= n < |featVals| :: |featVals[n]| == channels
    requires InGrid(coords, Res as nat) && Distinct(coords)
    ensures IsVolume(sdfs, BatchSize(coords)) && Densified(sdfs, coords, sdfVals, 1.0)
    ensures IsVolume(feats, BatchSize(coords)) && Densified(feats, coords, featVals, Zeros(channels))
    ensures fresh(outputs) && IsVolume(outputs, BatchSize(coords))
    ensures |patchs| == 27
    ensures forall i, j, k | 0 <= i < Steps && 0 <= j < Steps && 0 <= k < Steps ::
      patchs[PatchIndex(i, j, k)] ==
        denoise(Crop(sdfs, TileOrigin(i), TileOrigin(j), TileOrigin(k)),
                Crop(feats, TileOrigin(i), TileOrigin(j), TileOrigin(k)))
    ensures forall b, x, y, z | 0 <= b < outputs.Length0 && 0 <= x < Res && 0 <= y < Res && 0 <= z < Res ::
      outputs[b, x, y, z] == VolumeValue(patchs, b, x, y, z)
  {
    var sdfVol := DensifySdf(coords, sdfVals, Res);
    var featVol := DensifyFeatures(coords, featVals, channels, Res, ChunkSize);
    sdfs, feats := sdfVol, featVol;
    outputs, patchs := Refine(sdfVol, featVol, denoise);
  }
}
