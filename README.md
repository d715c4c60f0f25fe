# Direct3D-S2 refiner: index arithmetic and helpers, in Dafny

This project models the deterministic core of the ComfyUI Direct3D-S2
refiner, leaving out the neural network itself. The core has four parts:

- **Sparse to dense.** A sparse signed-distance field (SDF) or feature field is a
  list of `(batch, x, y, z)` rows with values. It is scattered into a dense
  batched cube filled with `1` (SDF) or the zero vector (features). The feature
  scatter runs 10000 rows at a time.
- **`Voxel_RefinerXL.run`.** The 512³ volume is cut into 27 patches of side 192
  at stride 160, in `i, j, k` loop order. Each patch goes through the denoiser.
  The patches are then stitched back one axis at a time: patches into lines,
  lines into layers, layers into the volume. Each axis is cut into
  `[0,160) [160,192) [192,320) [320,352) [352,512)`. The two 32-wide bands are
  linear cross-fades with weight `t/31`. Marching-cubes vertices are then
  normalised by `v / res * 2 - 1`.
- **`Voxel_RefinerXL_sign.run`.** It works on 27 patches of side 192 at stride 128:
  1. Each patch is thresholded to ±1 and written over the 512³ output. The last
     write wins, and voxels outside `[0,448)³` keep `+1`.
  2. The result is upsampled to 1024³ by repetition.
  3. It is multiplied by the magnitude of the 1024³ SDF.
  4. The original sparse samples are spliced back in.
- **Smaller pieces:**
  - `adaptive_conv`, a 27-tap zero-padded stencil with per-voxel weights;
  - `mesh2index`, which thresholds a distance field, coarsens by integer
    division and returns the sorted unique rows;
  - the device check of `compute_valid_udf`;
  - `normalize_mesh`, over reals;
  - the string and listing helpers of `nodes.py`: comma-separated integer
    parsing, file stem extraction, and the folder, picture and mesh filters.

Volumes are `array4<real>` indexed `(batch, x, y, z)`; the size-1 channel axis
of the SDF tensors is dropped. The feature volume is an `array4<seq<real>>`
holding one channel vector per voxel. Voxel values are `real`, so the blend
identities are exact.

The following are parameters of the model:

- the denoiser, as a function from an SDF crop and a feature crop to a patch;
- the sign network, as a function from an SDF crop to post-sigmoid values;
- the UDF kernel;
- the directory contents, as a `Folder` value.

Slice assignments become `forall` statements. The source's loops become loops
with invariants:

- densify per batch and per chunk;
- the i/j/k tiling loops;
- the line, layer and volume stitching;
- the tap loops of `adaptive_conv`;
- the directory listing loops.

Each loop is proved against a specification function, such as `Densified`,
`VolumeValue`, `FinalSign`, `Select` or `Sum` over `TapValues`.

Facts about the code that the model keeps:

- The strides are the literals 160 (unet_refiner.py:150) and 128
  (unet_refiner.py:291).
- With stride 128 the sign pass writes only `[0, 448)` on each axis; voxels with
  a coordinate in `[448, 512)` keep `+1` (`RefinerSign.FinalSign`).
- `compute_valid_udf` compares only the `device.type` of faces and vertices
  (mesh.py:7-8), although its error message says both must be CUDA tensors. It
  raises before allocating anything.

## Model

| member | source | states |
|---|---|---|
| Sparse.BatchSize | direct3d_s2/models/refiner/unet_refiner.py:260 | the batch count is one more than the largest batch index: every row's batch is below it and some row has batch `r - 1` |
| Sparse.DensifySdf | direct3d_s2/models/refiner/unet_refiner.py:126-133 | a cube of ones per batch with that batch's rows scattered in: every row's voxel holds its value, every voxel no row names holds 1, sides `res`, batch count `BatchSize` |
| Sparse.ScatterBatch | direct3d_s2/models/refiner/unet_refiner.py:127-130 | one batch's scatter extends the scattered prefix of batches by one, leaving other voxels at the fill value |
| Sparse.AllBatchesScattered | direct3d_s2/models/refiner/unet_refiner.py:126-133 | once all batches are scattered, the cube is the densification of the sparse field |
| Sparse.DensifyFeatures | direct3d_s2/models/refiner/unet_refiner.py:134-146 | zero vectors everywhere and, after the chunk loop, every row's voxel holds its feature vector; the result is the same for every chunk size, since the contract does not depend on it |
| Sparse.ScatterChunk | direct3d_s2/models/refiner/unet_refiner.py:140-146 | the rows of `[start, end)` are written, so the scattered prefix grows from `start` to `end` and each row is written in exactly one chunk |
| Sparse.AllRowsScattered | direct3d_s2/models/refiner/unet_refiner.py:139-146 | once every row is scattered, the volume is the densification of the sparse field |
| Stitch.Weight | direct3d_s2/models/refiner/unet_refiner.py:176 | `linspace(0, 1, 32)[t]` lies in [0, 1], is 0 exactly at t = 0 and 1 exactly at t = 31 |
| Stitch.WeightIncreasing | direct3d_s2/models/refiner/unet_refiner.py:176 | the blend weights strictly increase |
| Stitch.Blend | direct3d_s2/models/refiner/unet_refiner.py:188-189 | the cross-fade equals neighbour A at t = 0 and B at t = 31, equals their common value when they agree, and lies between them |
| Stitch.MixBetween | direct3d_s2/models/refiner/unet_refiner.py:188 | `a*(1-w) + b*w` lies between a and b for w in [0, 1] |
| Stitch.Segment | direct3d_s2/models/refiner/unet_refiner.py:184-189 | the five segments partition [0, 512): every index lies in exactly one |
| Stitch.Local | direct3d_s2/models/refiner/unet_refiner.py:184-186 | inside patch n, a global index x is the patch's local index `x - 160n` |
| Stitch.StitchAt | direct3d_s2/models/refiner/unet_refiner.py:183-189 | a voxel covered by one neighbour is copied from it; in a band the value lies between the two neighbours; each band starts on the earlier and ends on the later neighbour |
| Stitch.StitchAtSegments | direct3d_s2/models/refiner/unet_refiner.py:184-189 | segment by segment: copies from out1, out2, out3 at offsets 0, -160, -320, and the two blends |
| Stitch.StitchAtAgreeing | direct3d_s2/models/refiner/unet_refiner.py:183-189 | where every covering neighbour has the same value, the stitched value is that value |
| Stitch.Coverage | direct3d_s2/models/refiner/unet_refiner.py:150-163 | every index of [0, 512) is covered by one of the three patches, so the placeholder 2 never survives |
| Stitch.TileOrigin | direct3d_s2/models/refiner/unet_refiner.py:158-163 | tile i starts at 160i, and its extent `[160i, 160i+192)` lies inside [0, 512) |
| Stitch.PatchIndex | direct3d_s2/models/refiner/unet_refiner.py:155-174 | patch (i, j, k) is list entry `i*9 + j*3 + k`, and the entry decodes back to i, j, k |
| Stitch.LineValue | direct3d_s2/models/refiner/unet_refiner.py:179-189 | line m, band by band: patch 3m, 3m+1 or 3m+2 at offset 0, -160 or -320 in a single-patch band, the cross-fade of the two neighbours in an overlap band |
| Stitch.LayerValue | direct3d_s2/models/refiner/unet_refiner.py:194-202 | layer i, band by band along the middle axis, from lines 3i, 3i+1 and 3i+2 in the same way |
| Stitch.VolumeValue | direct3d_s2/models/refiner/unet_refiner.py:204-208 | the output, band by band along the first spatial axis, from the three layers in the same way |
| Stitch.LineReconstructs | direct3d_s2/models/refiner/unet_refiner.py:178-190 | if every patch is the crop of one global volume, each stitched line is that volume's slab |
| Stitch.LayerReconstructs | direct3d_s2/models/refiner/unet_refiner.py:192-203 | likewise each stitched layer is the global volume's slab |
| Stitch.VolumeReconstructs | direct3d_s2/models/refiner/unet_refiner.py:155-208 | if every patch is the crop of one global volume at its offset, the stitched output is exactly that volume |
| RefinerXL.Crop | direct3d_s2/models/refiner/unet_refiner.py:158-163 | a crop keeps the batch count of the volume |
| RefinerXL.TilePatches | direct3d_s2/models/refiner/unet_refiner.py:154-174 | 27 patches; entry `i*9+j*3+k` is the denoised crop at offsets (160i, 160j, 160k) |
| RefinerXL.StitchLine | direct3d_s2/models/refiner/unet_refiner.py:179-189 | the line has shape (N, 192, 192, 512), and every voxel is `StitchAt` of the three patches at their local indices |
| RefinerXL.LineCopies | direct3d_s2/models/refiner/unet_refiner.py:184-186 | the three single-patch bands are copied from out1, out2 and out3 at offsets 0, -160 and -320; the two overlap bands keep their old values |
| RefinerXL.LineBlends | direct3d_s2/models/refiner/unet_refiner.py:188-189 | the two bands hold the cross-fades; every other voxel is unchanged |
| RefinerXL.StitchLines | direct3d_s2/models/refiner/unet_refiner.py:178-190 | nine lines, where line m is stitched from patches 3m, 3m+1 and 3m+2 |
| RefinerXL.StitchLayer | direct3d_s2/models/refiner/unet_refiner.py:194-202 | the layer has shape (N, 192, 512, 512), and every voxel is `StitchAt` of the three lines along the middle axis |
| RefinerXL.LayerCopies | direct3d_s2/models/refiner/unet_refiner.py:198-200 | the three single-line bands are copied at offsets 0, -160 and -320; the two overlap bands keep their old values |
| RefinerXL.LayerBlends | direct3d_s2/models/refiner/unet_refiner.py:201-202 | the two bands hold the cross-fades; every other voxel is unchanged |
| RefinerXL.StitchLayers | direct3d_s2/models/refiner/unet_refiner.py:192-203 | three layers, where layer m is stitched from lines 3m, 3m+1 and 3m+2 |
| RefinerXL.StitchVolume | direct3d_s2/models/refiner/unet_refiner.py:204-208 | every output voxel is `StitchAt` of the three layers along the first spatial axis |
| RefinerXL.VolumeCopies | direct3d_s2/models/refiner/unet_refiner.py:204-206 | the three single-layer bands are copied at offsets 0, -160 and -320; the two overlap bands keep their old values |
| RefinerXL.VolumeBlends | direct3d_s2/models/refiner/unet_refiner.py:207-208 | the two bands hold the cross-fades; every other voxel is unchanged |
| RefinerXL.Refine | direct3d_s2/models/refiner/unet_refiner.py:148-208 | the output is (N, 512, 512, 512), and every voxel is `VolumeValue` of the 27 denoised patches in loop order |
| RefinerXL.Run | direct3d_s2/models/refiner/unet_refiner.py:126-208 | densified SDF (fill 1) and features (fill 0), patches denoised from their crops, output equal to the three-level stitch |
| RefinerSign.Threshold | direct3d_s2/models/refiner/unet_refiner.py:302-303 | the result is +1 or -1, and +1 exactly when the value is >= 0.5 |
| RefinerSign.SignOrigin | direct3d_s2/models/refiner/unet_refiner.py:291-297 | tile i of the sign pass starts at 128i, and its extent ends at or below 448 |
| RefinerSign.LastTile | direct3d_s2/models/refiner/unet_refiner.py:294-304 | below 448, the returned tile covers x and no later tile does |
| RefinerSign.SignPatches | direct3d_s2/models/refiner/unet_refiner.py:294-301 | the 27 network outputs in loop order |
| RefinerSign.SignAfter | direct3d_s2/models/refiner/unet_refiner.py:290-304 | after any number of patch writes every voxel holds +1 or -1, and a voxel none of those patches reaches still holds the initial +1 |
| RefinerSign.FinalSign | direct3d_s2/models/refiner/unet_refiner.py:290-304 | every sign is ±1, and a voxel with a coordinate >= 448 is +1 |
| RefinerSign.WinnerIsLastContaining | direct3d_s2/models/refiner/unet_refiner.py:294-304 | the patch chosen for a covered voxel contains it, and no later patch in loop order does |
| RefinerSign.Decompose | direct3d_s2/models/refiner/unet_refiner.py:294-296 | every patch number is `9i + 3j + k` for its tile indices |
| RefinerSign.LexOrder | direct3d_s2/models/refiner/unet_refiner.py:294-296 | patch numbers order tile triples lexicographically, which is loop order |
| RefinerSign.SignAfterUncovered | direct3d_s2/models/refiner/unet_refiner.py:290-304 | no patch write reaches a voxel with a coordinate >= 448, so it stays +1 |
| RefinerSign.SignAfterCovered | direct3d_s2/models/refiner/unet_refiner.py:294-304 | writes after the last containing patch leave a covered voxel alone |
| RefinerSign.SignAfterAll | direct3d_s2/models/refiner/unet_refiner.py:290-304 | the 27 in-place writes give the closed form `FinalSign` at every voxel |
| RefinerSign.WriteTile | direct3d_s2/models/refiner/unet_refiner.py:304 | the patch overwrites exactly its extent |
| RefinerSign.WritePatch | direct3d_s2/models/refiner/unet_refiner.py:297-304 | one loop turn advances the state from "after n writes" to "after n+1 writes" |
| RefinerSign.SignTiles | direct3d_s2/models/refiner/unet_refiner.py:290-304 | starting from ones, the loops leave `FinalSign` of the patch outputs at every voxel |
| RefinerSign.SignPlane | direct3d_s2/models/refiner/unet_refiner.py:295-304 | the j and k loops for one i perform writes 9i to 9i+8 |
| RefinerSign.SignRow | direct3d_s2/models/refiner/unet_refiner.py:296-304 | the k loop for one i and j performs writes 9i+3j to 9i+3j+2 |
| RefinerSign.SignsAfterAll | direct3d_s2/models/refiner/unet_refiner.py:290-304 | after all 27 writes, every voxel holds `FinalSign` |
| RefinerSign.Upsample | direct3d_s2/models/refiner/unet_refiner.py:305 | the result is 1024³ with `up[x,y,z] = low[x/2, y/2, z/2]` |
| RefinerSign.CombineSign | direct3d_s2/models/refiner/unet_refiner.py:306-307 | each voxel is `abs(high) * up`, with the same shape as the high-resolution SDF |
| RefinerSign.Splice | direct3d_s2/models/refiner/unet_refiner.py:310-312 | every sparse coordinate takes the original dense value; every other voxel is unchanged |
| RefinerSign.Assemble | direct3d_s2/models/refiner/unet_refiner.py:305-312 | after upsampling, the magnitude product and the write-back, every sparse voxel holds its sample and every other voxel holds the sign of its low-resolution parent |
| RefinerSign.Run | direct3d_s2/models/refiner/unet_refiner.py:256-312 | each original sparse voxel holds its sparse value; every other voxel is the ±1 `FinalSign` of its 512³ parent voxel |
| Vertices.NormalizeCoord | direct3d_s2/models/refiner/unet_refiner.py:213 | `v/res*2-1` maps [0, res] into [-1, 1], with 0 to -1 and res to 1 |
| Vertices.NormalizeRoundTrip | direct3d_s2/models/refiner/unet_refiner.py:213 | the inverse map gives back the voxel coordinate |
| Vertices.NormalizeMonotone | direct3d_s2/models/refiner/unet_refiner.py:213 | the normalisation is strictly increasing |
| Vertices.NormalizeVertices | direct3d_s2/models/refiner/unet_refiner.py:320 | one output vertex per input, normalised coordinate-wise; vertices in [0, res]³ land in [-1, 1]³ |
| Vertices.NormalizeVerticesOrder | direct3d_s2/models/refiner/unet_refiner.py:213 | the order of two vertices along any axis is kept, in both directions |
| AdaptiveConv.TapIndex | direct3d_s2/models/refiner/unet_refiner.py:23 | channel `i*9+j*3+k` is in [0, 27) and decodes back to (i, j, k) |
| AdaptiveConv.TapSplits | direct3d_s2/models/refiner/unet_refiner.py:20-23 | every channel number is the channel of its decoded tap |
| AdaptiveConv.Padded | direct3d_s2/models/refiner/unet_refiner.py:16-17 | zero padding reads 0 outside the cube |
| AdaptiveConv.AddTap | direct3d_s2/models/refiner/unet_refiner.py:23 | each voxel gains the shifted padded input times the tap's weight channel |
| AdaptiveConv.Convolve | direct3d_s2/models/refiner/unet_refiner.py:15-24 | the output has the input's shape and holds the sum of all 27 tap contributions at every voxel |
| AdaptiveConv.AccumulatePlane | direct3d_s2/models/refiner/unet_refiner.py:21-23 | the j and k loops for one i add taps 9i to 9i+8 |
| AdaptiveConv.AccumulateRow | direct3d_s2/models/refiner/unet_refiner.py:22-23 | the k loop adds taps 9i+3j to 9i+3j+2 |
| AdaptiveConv.AccumulateTap | direct3d_s2/models/refiner/unet_refiner.py:23 | one loop turn extends the tap sum by one tap |
| AdaptiveConv.SumStep | direct3d_s2/models/refiner/unet_refiner.py:23 | the running sum after tap t is the sum before it plus tap t |
| AdaptiveConv.OneHotShifts | direct3d_s2/models/refiner/unet_refiner.py:15-24 | weights that are one-hot on tap (i, j, k) shift the input by (i-1, j-1, k-1), reading zero outside |
| AdaptiveConv.CentreTapIdentity | direct3d_s2/models/refiner/unet_refiner.py:15-24 | one-hot weights on channel 13 give back the input |
| AdaptiveConv.ZeroWeights | direct3d_s2/models/refiner/unet_refiner.py:18-24 | all-zero weights at a voxel give 0 there |
| MeshUtils.ComputeValidUdf | direct3d_s2/utils/mesh.py:6-22 | it fails exactly when the device types differ, and computes nothing then; otherwise the result has `dim³` entries, each being the kernel's value divided by 10⁷, and an untouched voxel reads 1 |
| MeshUtils.Abs | direct3d_s2/models/refiner/unet_refiner.py:307 | the magnitude is non-negative and equals v or -v; it serves `abs()` in the sign refiner and the scale magnitude in `normalize_mesh` |
| MeshUtils.Mesh.constructor | direct3d_s2/utils/mesh.py:24-25 | a mesh holds its vertex array |
| MeshUtils.ColumnBounds | direct3d_s2/utils/mesh.py:26 | `vertices.min(axis=0)` and `max(axis=0)` along one column |
| MeshUtils.MinOf | direct3d_s2/utils/mesh.py:26 | the minimum is an element of the column and bounds every element from below |
| MeshUtils.MaxOf | direct3d_s2/utils/mesh.py:26 | the maximum is an element of the column and bounds every element from above |
| MeshUtils.LargestExtentBounds | direct3d_s2/utils/mesh.py:27-28 | `max(dxyz)` is one of the three sides and bounds each of them |
| MeshUtils.Normalized | direct3d_s2/utils/mesh.py:26-31 | one vertex per input vertex, whose every coordinate is `(p + mesh_offset[a]) * mesh_scale` with the offset minus the centre of that column's range |
| MeshUtils.NormalizeMesh | direct3d_s2/utils/mesh.py:24-33 | the mesh's vertex array is replaced by `(vertices + offset) * mesh_scale` |
| MeshUtils.NormalizeCentres | direct3d_s2/utils/mesh.py:24-33 | afterwards, the bounding-box centre is the origin on every axis |
| MeshUtils.NormalizeLargestSide | direct3d_s2/utils/mesh.py:24-33 | afterwards, the largest bounding-box side is 2·|scale| |
| MeshUtils.NormalizeBounded | direct3d_s2/utils/mesh.py:24-33 | afterwards, every coordinate lies in [-|scale|, |scale|] |
| MeshUtils.NormalizedBox | direct3d_s2/utils/mesh.py:29-31 | along each axis, the new box is centred on 0 with half-side |mesh_scale| times half the old side |
| MeshUtils.NormalizedExtent | direct3d_s2/utils/mesh.py:29-31 | each new side is |mesh_scale| times the old side |
| MeshUtils.AffineOrder | direct3d_s2/utils/mesh.py:31 | `(p + o) * s` is monotone for s >= 0 and order-reversing for s < 0 |
| MeshUtils.MonotoneBounds | direct3d_s2/utils/mesh.py:26-31 | a monotone map sends a column's min and max to the min and max of its image |
| MeshUtils.AntitoneBounds | direct3d_s2/utils/mesh.py:26-31 | an order-reversing map swaps them |
| MeshUtils.Scan | direct3d_s2/utils/mesh.py:41 | `(sdf < 4/size).nonzero()`: strictly sorted rows, with a row present iff it is (0, x, y, z) for a selected voxel |
| MeshUtils.Coarsen | direct3d_s2/utils/mesh.py:42 | the spatial columns are divided by `factor`, and the batch column is kept |
| MeshUtils.Insert | direct3d_s2/utils/mesh.py:43 | sorted insertion without duplicates keeps the list strictly sorted and adds exactly the new row |
| MeshUtils.SortUnique | direct3d_s2/utils/mesh.py:43 | `torch.unique(dim=0)`: strictly sorted, so duplicate-free, with the same set of rows |
| MeshUtils.Mesh2Index | direct3d_s2/utils/mesh.py:35-44 | the rows are strictly sorted, the batch column is 0, and every coordinate is at most `(size-1) / factor` |
| MeshUtils.Mesh2IndexMembers | direct3d_s2/utils/mesh.py:41-43 | a row is in the index iff it is the coarsening of some voxel with distance < 4/size |
| MeshUtils.VoxelOfIndex | direct3d_s2/utils/mesh.py:41-43 | every row of the index comes from a selected voxel |
| MeshUtils.IndexOfVoxel | direct3d_s2/utils/mesh.py:41-43 | every selected voxel gives a row of the index |
| IntList.Split | nodes.py:61 | `str.split(',')` gives at least one field, no field contains the separator, and joining the fields gives back the string |
| IntList.JoinUnique | nodes.py:61 | two separator-free field lists with the same join are equal |
| IntList.SplitJoin | nodes.py:61 | splitting undoes joining separator-free fields |
| IntList.Strip | nodes.py:61 | `str.strip()` gives a string with no white space at either end, which is the original with only white space removed before and after it |
| IntList.StripPadded | nodes.py:61 | stripping white-space padding around a stripped string gives the string back |
| IntList.ParseInt | nodes.py:61 | `int()` succeeds exactly on an optional sign followed by digits; a leading '-' gives a value <= 0, otherwise the value is >= 0 |
| IntList.ParseIntPlus | nodes.py:61 | a '+' sign does not change a numeral's value |
| IntList.ParseIntMinus | nodes.py:61 | a '-' sign negates a numeral's value |
| IntList.LeadingZeroValue | nodes.py:61 | a leading zero adds nothing to the value of a digit run |
| IntList.ParseIntLeadingZero | nodes.py:61 | leading zeros are accepted and keep the value, as in `int("007") == 7` |
| IntList.ParseShow | nodes.py:61 | `int(str(n)) == n` |
| IntList.FieldShow | nodes.py:61 | `int(str(n).strip()) == n` |
| IntList.FieldValue | nodes.py:61 | `int(num.strip())`: a field of white space only is rejected, and an accepted field is a numeral with only white space before and after it |
| IntList.ParseAll | nodes.py:61 | when every field parses, there is one value per field |
| IntList.ParseAllOrNothing | nodes.py:59-65 | the fields parse together iff each one parses, and then result i is field i's value |
| IntList.ParseIntList | nodes.py:45-65 | None or "" gives []; when every stripped field parses, one value per field in order; when any field fails, [] |
| IntList.ParseIntListOf | nodes.py:59-62 | fields that all parse give exactly the list of their values |
| IntList.ParseJoinedInts | nodes.py:61 | parsing the ','-join of the decimal notations of a non-empty list gives back the list |
| IntList.BlankFieldRejects | nodes.py:59-65 | any comma-joined field list with a blank (empty or white-space) field, such as `"1,,2"`, gives [] |
| Paths.RFind | nodes.py:133 | the index of the last occurrence, or -1 when there is none |
| Paths.Basename | nodes.py:133 | `os.path.basename`: the suffix after the last '/', with no separator in it |
| Paths.SplitExt | nodes.py:136 | the root and the extension concatenate to the path; the extension is empty or a dot followed by neither dots nor separators; it is non-empty iff the base name has a dot after a non-dot character |
| Paths.ExtensionStart | nodes.py:136 | the extension starts at a valid index iff the last path component has an extension |
| Paths.SplitExtAppended | nodes.py:136 | appending an extension to a name that has a non-dot character is undone by `splitext` |
| Paths.SplitExtLeadingDot | nodes.py:136 | a leading-dot name such as `.rc` has no extension |
| Paths.FilenameWithoutExtension | nodes.py:122-138 | the stem has no separator and is a prefix of the base name |
| Paths.StemOfPath | nodes.py:122-138 | for `dir/stem.ext`, the result is `stem`, so only the last extension is dropped |
| Paths.StemOfDotFile | nodes.py:122-138 | a dot file such as `dir/.rc` keeps its whole name |
| Paths.Join | nodes.py:85 | `os.path.join(a, b)`: an absolute b replaces a; otherwise the path starts with a and ends with b |
| Paths.BasenameOfJoin | nodes.py:85 | the base name of a joined entry path is the entry name |
| Paths.Lower | nodes.py:90 | each character is lower-cased, and the length is kept |
| Paths.LowerIdempotent | nodes.py:90 | lower-casing twice is lower-casing once |
| Paths.LowerKeepsExtension | nodes.py:90 | a lower-cased extension is still an extension |
| Paths.EndsWithAny | nodes.py:90 | `str.endswith(tuple)`: the empty tuple matches nothing, a tuple holding the string or the empty suffix matches it, and the empty string matches only through the empty suffix |
| Paths.Contains | nodes.py:118 | `needle in hay`: the empty needle and the string itself are in every string, and a contained needle is no longer than the string |
| Paths.EndsWithExtension | nodes.py:90 | an extension ends with another extension only when they are equal |
| Paths.EndsWithAnyExtension | nodes.py:90 | `endswith(tuple)` on an extension is membership among the extensions |
| Listing.Select | nodes.py:84-91 | the selection is no longer than the listing |
| Listing.SelectMembers | nodes.py:84-91 | something is selected iff some kept entry outputs it |
| Listing.SelectAppend | nodes.py:84-91 | selection distributes over concatenation, so listing order is kept |
| Listing.GetFoldersOs | nodes.py:23-43 | the names of the sub-directories in listing order, or [] when the path is not a directory |
| Listing.FoldersMembers | nodes.py:34-43 | a name is listed iff the path is a directory holding a sub-directory of that name |
| Listing.GetPictureFiles | nodes.py:67-92 | the full paths of the picture files in listing order, or [] when the folder is missing |
| Listing.AddIfPicture | nodes.py:85-91 | one loop turn appends the entry's full path exactly when it is a picture file |
| Listing.PicturesMembers | nodes.py:80-91 | a path is listed iff the folder is a directory with a picture file at that path |
| Listing.IsPicture | nodes.py:88-90 | a picture is a file that has an extension |
| Listing.PictureByExtension | nodes.py:77-90 | an entry is a picture iff it is a file whose lower-cased extension is one of the seven |
| Listing.GetMeshFiles | nodes.py:94-120 | the full paths of the matching mesh files in listing order, or [] when the folder is missing |
| Listing.AddIfMesh | nodes.py:112-119 | one loop turn appends the entry's full path exactly when it is a matching mesh file |
| Listing.MeshesMembers | nodes.py:107-119 | a path is listed iff the folder is a directory with a matching mesh file at that path |
| Listing.PictureNames | nodes.py:80-91 | when every entry name is one a directory listing can return (non-empty, no '/', not `.` or `..`), the base name of every listed picture path is the name of a picture entry |
| Listing.MeshNames | nodes.py:107-119 | likewise, the base name of every listed mesh path is the name of a matching mesh entry |
| Listing.IsMesh | nodes.py:115-118 | a matching mesh is a file that has an extension, and a filter it matches is no longer than its stem |
| Listing.MeshByExtension | nodes.py:104-118 | an entry matches iff it is a file whose lower-cased extension is `.obj` or `.glb` and whose lower-cased stem contains the lower-cased filter |
| Listing.MeshFilterAcceptsAll | nodes.py:118 | no filter, and likewise the empty filter, accepts every mesh file |
| Listing.ExtensionTables | nodes.py:77 | each listed extension is a dot followed by neither dots nor separators |

## Left out

- The neural networks (`UNet3DModel`, the convolutions, `latent_mlp`, `tanh`, `sigmoid`, `adaptive_block`, fp16 conversion) are function parameters, because they are floating-point layers outside the core.
- Marching cubes and `trimesh.Trimesh` are external libraries. Only the vertex normalisation applied to their output is modelled.
- `SparseDownsample` (the factor-2 downsampling in the sign refiner) is not part of this model, so the coarse sparse field is an input of `RefinerSign.Run`.
- The `udf_ext.compute_valid_udf` CUDA kernel is a function parameter. `torch.cuda.synchronize`, device transfers, `tqdm` and `print` are left out: they are placement and UI, not behaviour.
- Floating point is left out. Values are exact reals and float32 rounding is not modelled, so the blend and normalisation identities hold exactly in the model.
- Volume sizes are fixed to the source's constants: 512 and 192 for the XL refiner, 1024 and 512 for the sign refiner. The stitching hard-codes 160, 192, 320 and 352.
- `RefinerXL.Run`, `RefinerSign.Run`, `Sparse.DensifySdf`, `Sparse.DensifyFeatures`: require a non-empty coordinate list, because the source's `coords[..., 0].max()` raises on an empty tensor (direct3d_s2/models/refiner/unet_refiner.py:118, :260), and coordinates inside the grid, because the source's scatter raises `IndexError` otherwise (direct3d_s2/models/refiner/unet_refiner.py:130, :146). Neither error path is modelled.
- `RefinerXL.Run`, `RefinerSign.Run`, `Sparse.DensifySdf`, `Sparse.DensifyFeatures`: require sparse coordinates to be distinct, because a scatter with duplicate indices has no defined winner in the source.
- `RefinerSign.Run`: requires the coarse and fine fields to have the same batch count. The source's `abs() * outputs` product broadcasts, so it also accepts a batch count of 1 on either side; both fields come from the same sparse input, so their counts match in practice.
- `AdaptiveConv.Convolve`: covers one batch element and one input channel. The source broadcasts the same computation over both.
- `IntList.ParseInt`: models only an optional sign and ASCII decimal digits. Underscores and non-ASCII digits, which Python's `int()` also accepts, are left out. Python 3.11 and later also reject a numeral of more than 4300 digits with `ValueError`, so the source then returns []; the model has no such limit.
- `IntList.Strip`: strips the ASCII white space `str.strip()` removes, including the separators 0x1C to 0x1F; non-ASCII white space such as U+00A0 or U+2028 is not modelled.
- `Paths.Lower`: lower-cases only ASCII letters; Unicode case mapping is not modelled.
- `Paths.Basename`, `Paths.SplitExt`, `Paths.Join`: POSIX paths only. Windows separators and drive letters are not modelled.
- The file system is a `Folder` value holding the `isdir` answer for the path and, for each entry, its name and its `isfile`/`isdir` answers. Listing order is the order of that sequence.
- The ComfyUI node classes, pipeline loading and the image tensor conversions in `nodes.py` are host glue outside the core.
- `MeshUtils.ComputeValidUdf`: returns the field as a flat sequence. The reshape to (size, size, size) is the `Field` input of `MeshUtils.Mesh2Index`, which takes the field rather than calling the kernel.
- `MeshUtils.NormalizeMesh`: requires a non-empty mesh with a non-zero largest side. For an empty mesh the source's `vertices.min(axis=0)` raises `ValueError`; for a zero largest side numpy's division gives inf or nan values without raising. Neither path is modelled.
