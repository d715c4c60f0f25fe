/**
 * `adaptive_conv`: a 27-tap stencil whose weights vary per voxel.  The input
 * cube is zero-padded by one voxel on every side, and tap (i, j, k), stored in
 * weight channel i*9 + j*3 + k, multiplies the input at (x+i-1, y+j-1, z+k-1)
 * with that channel's weight at (x, y, z).  One batch element and one input
 * channel are modelled (the source broadcasts over both).
 */
module AdaptiveConv {

  /** Number of taps of the 3x3x3 stencil. */
  const Taps: int := 27

  /** Tap number of offset (i, j, k), each in {0, 1, 2}. */
  function TapIndex(i: int, j: int, k: int): (t: int)
    requires 0 <= i < 3 && 0 <= j < 3 && 0 <= k < 3
    ensures 0 <= t < Taps
    ensures TapI(t) == i && TapJ(t) == j && TapK(t) == k
  {
    i * 9 + j * 3 + k
  }

  /** First offset of tap `t`: `t // 9`. */
  function TapI(t: int): (i: int)
    ensures 0 <= i < 3
  {
    if t < 9 then 0 else if t < 18 then 1 else 2
  }

  /** Second offset of tap `t`: `(t // 3) % 3`. */
  function TapJ(t: int): (j: int)
    ensures 0 <= j < 3
  {
    var r := t - 9 * TapI(t);
    if r < 3 then 0 else if r < 6 then 1 else 2
  }

  /** Third offset of tap `t`: `t % 3`. */
  function TapK(t: int): int
  {
    t - 9 * TapI(t) - 3 * TapJ(t)
  }

  /** Every tap number splits into its three offsets. */
  lemma TapSplits(t: int)
    requires 0 <= t < Taps
    ensures t == TapIndex(TapI(t), TapJ(t), TapK(t)) && 0 <= TapK(t) < 3
  {
  }

  /** The input after `F.pad(..., value=0)`, read at unpadded coordinates. */
  function Padded(inputs: array3<real>, x: int, y: int, z: int): (v: real)
    reads inputs
    ensures !(0 <= x < inputs.Length0 && 0 <= y < inputs.Length1 && 0 <= z < inputs.Length2) ==> v == 0.0
  {
    if 0 <= x < inputs.Length0 && 0 <= y < inputs.Length1 && 0 <= z < inputs.Length2 then inputs[x, y, z] else 0.0
  }

  /** Contribution of tap (i, j, k) at output voxel (x, y, z). */
  function TapAt(inputs: array3<real>, weights: array4<real>, i: int, j: int, k: int, x: int, y: int, z: int): real
    requires 0 <= i < 3 && 0 <= j < 3 && 0 <= k < 3 && Taps <= weights.Length0
    requires 0 <= x < weights.Length1 && 0 <= y < weights.Length2 && 0 <= z < weights.Length3
    reads inputs, weights
  {
    Padded(inputs, x + i - 1, y + j - 1, z + k - 1) * weights[TapIndex(i, j, k), x, y, z]
  }

  /** Contribution of tap number `t` at output voxel (x, y, z). */
  function Tap(inputs: array3<real>, weights: array4<real>, t: int, x: int, y: int, z: int): real
    requires 0 <= t < Taps && Taps <= weights.Length0
    requires 0 <= x < weights.Length1 && 0 <= y < weights.Length2 && 0 <= z < weights.Length3
    reads inputs, weights
  {
    TapAt(inputs, weights, TapI(t), TapJ(t), TapK(t), x, y, z)
  }

  /** The 27 tap contributions at output voxel (x, y, z), in tap order. */
  function TapValues(inputs: array3<real>, weights: array4<real>, x: int, y: int, z: int): (vs: seq<real>)
    requires Taps <= weights.Length0
    requires 0 <= x < weights.Length1 && 0 <= y < weights.Length2 && 0 <= z < weights.Length3
    reads inputs, weights
    ensures |vs| == Taps
  {
    seq(Taps, t requires 0 <= t < Taps reads inputs, weights => Tap(inputs, weights, t, x, y, z))
  }

  /** Sum of the first `n` entries of `vs`. */
  function Sum(vs: seq<real>, n: int): real
    requires 0 <= n <= |vs|
    decreases n
  {
    if n == 0 then 0.0 else Sum(vs, n - 1) + vs[n - 1]
  }

  /** The weight channels and the input have the spatial shape `size`^3. */
  predicate Shaped(inputs: array3<real>, weights: array4<real>)
  {
    inputs.Length1 == inputs.Length0 && inputs.Length2 == inputs.Length0 &&
    weights.Length0 >= Taps && weights.Length1 == inputs.Length0 &&
    weights.Length2 == inputs.Length0 && weights.Length3 == inputs.Length0
  }

  /** `output` holds the sum of the first `n` taps at every voxel. */
  ghost predicate Accumulated(output: array3<real>, inputs: array3<real>, weights: array4<real>, n: int)
    requires Shaped(inputs, weights) && 0 <= n <= Taps
    reads output, inputs, weights
  {
    output.Length0 == inputs.Length0 && output.Length1 == inputs.Length0 && output.Length2 == inputs.Length0 &&
    forall x, y, z | 0 <= x < output.Length0 && 0 <= y < output.Length1 && 0 <= z < output.Length2 ::
      output[x, y, z] == Sum(TapValues(inputs, weights, x, y, z), n)
  }

  /**
   * One iteration of the tap loops: `output + padded_input[:, :, i:i+size,
   * j:j+size, k:k+size] * weights[:, t:t+1]` with t = i*9 + j*3 + k.
   */
  method AddTap(output: array3<real>, inputs: array3<real>, weights: array4<real>, i: int, j: int, k: int)
    requires Shaped(inputs, weights) && 0 <= i < 3 && 0 <= j < 3 && 0 <= k < 3
    requires output != inputs
    requires output.Length0 == inputs.Length0 && output.Length1 == inputs.Length0 && output.Length2 == inputs.Length0
    modifies output
    ensures forall x, y, z | 0 <= x < output.Length0 && 0 <= y < output.Length1 && 0 <= z < output.Length2 ::
      output[x, y, z] == old(output[x, y, z]) + TapAt(inputs, weights, i, j, k, x, y, z)
  {
    forall x, y, z | 0 <= x < output.Length0 && 0 <= y < output.Length1 && 0 <= z < output.Length2 {
      output[x, y, z] := output[x, y, z] + TapAt(inputs, weights, i, j, k, x, y, z);
    }
  }

  /**
   * `adaptive_conv`: starting from zeros, every tap in (i, j, k) order adds the
   * shifted padded input times its weight channel.
   */
  method Convolve(inputs: array3<real>, weights: array4<real>) returns (output: array3<real>)
    requires Shaped(inputs, weights)
    ensures fresh(output)
    ensures output.Length0 == inputs.Length0 && output.Length1 == inputs.Length1 && output.Length2 == inputs.Length2
    ensures forall x, y, z | 0 <= x < output.Length0 && 0 <= y < output.Length1 && 0 <= z < output.Length2 ::
      output[x, y, z] == Sum(TapValues(inputs, weights, x, y, z), Taps)
  {
    var size := inputs.Length0;
    output := new real[size, size, size]((x, y, z) => 0.0);
    assert Accumulated(output, inputs, weights, 0);
    for i := 0 to 3
      invariant Accumulated(output, inputs, weights, 9 * i)
    {
      AccumulatePlane(output, inputs, weights, i);
    }
    assert Accumulated(output, inputs, weights, Taps);
  }

  /** The `j` and `k` loops for one `i`: adds taps 9i .. 9i+8. */
  method AccumulatePlane(output: array3<real>, inputs: array3<real>, weights: array4<real>, i: int)
    requires Shaped(inputs, weights) && 0 <= i < 3
    requires output != inputs
    requires Accumulated(output, inputs, weights, 9 * i)
    modifies output
    ensures Accumulated(output, inputs, weights, 9 * i + 9)
  {
    for j := 0 to 3
      invariant Accumulated(output, inputs, weights, 9 * i + 3 * j)
    {
      AccumulateRow(output, inputs, weights, i, j);
    }
  }

  /** The `k` loop for one `i` and `j`: adds taps 9i+3j .. 9i+3j+2. */
  method AccumulateRow(output: array3<real>, inputs: array3<real>, weights: array4<real>, i: int, j: int)
    requires Shaped(inputs, weights) && 0 <= i < 3 && 0 <= j < 3
    requires output != inputs
    requires Accumulated(output, inputs, weights, 9 * i + 3 * j)
    modifies output
    ensures Accumulated(output, inputs, weights, 9 * i + 3 * j + 3)
  {
    for k := 0 to 3
      invariant Accumulated(output, inputs, weights, 9 * i + 3 * j + k)
    {
      AccumulateTap(output, inputs, weights, i, j, k);
    }
  }

  /** Adding tap (i, j, k) to the sum of the taps before it gives the sum up to it. */
  method AccumulateTap(output: array3<real>, inputs: array3<real>, weights: array4<real>, i: int, j: int, k: int)
    requires Shaped(inputs, weights) && 0 <= i < 3 && 0 <= j < 3 && 0 <= k < 3
    requires output != inputs
    requires Accumulated(output, inputs, weights, 9 * i + 3 * j + k)
    modifies output
    ensures Accumulated(output, inputs, weights, 9 * i + 3 * j + k + 1)
  {
    ghost var t := TapIndex(i, j, k);
    assert t == 9 * i + 3 * j + k;
    AddTap(output, inputs, weights, i, j, k);
    forall x, y, z | 0 <= x < output.Length0 && 0 <= y < output.Length1 && 0 <= z < output.Length2
      ensures output[x, y, z] == Sum(TapValues(inputs, weights, x, y, z), t + 1)
    {
      SumStep(inputs, weights, i, j, k, x, y, z);
    }
  }

  /** Adding tap (i, j, k) extends the tap sum by one entry. */
  lemma SumStep(inputs: array3<real>, weights: array4<real>, i: int, j: int, k: int, x: int, y: int, z: int)
    requires 0 <= i < 3 && 0 <= j < 3 && 0 <= k < 3 && Taps <= weights.Length0
    requires 0 <= x < weights.Length1 && 0 <= y < weights.Length2 && 0 <= z < weights.Length3
    ensures Sum(TapValues(inputs, weights, x, y, z), TapIndex(i, j, k) + 1) ==
      Sum(TapValues(inputs, weights, x, y, z), TapIndex(i, j, k)) + TapAt(inputs, weights, i, j, k, x, y, z)
  {
    assert TapValues(inputs, weights, x, y, z)[TapIndex(i, j, k)] == TapAt(inputs, weights, i, j, k, x, y, z);
  }

  /** A sum whose only non-zero entry is `t0` is that entry once `t0` is included, zero before. */
  lemma {:induction false} SumOneHot(vs: seq<real>, t0: int, v: real, n: int)
    requires 0 <= n <= |vs|
    requires forall t | 0 <= t < |vs| :: vs[t] == (if t == t0 then v else 0.0)
    ensures Sum(vs, n) == (if 0 <= t0 < n then v else 0.0)
    decreases n
  {
    if n > 0 {
      SumOneHot(vs, t0, v, n - 1);
    }
  }

  /** Every weight channel is zero except channel `t0`, which is one. */
  ghost predicate OneHot(weights: array4<real>, t0: int)
    reads weights
  {
    forall t, x, y, z | 0 <= t < weights.Length0 && 0 <= x < weights.Length1 && 0 <= y < weights.Length2 && 0 <= z < weights.Length3 ::
      weights[t, x, y, z] == (if t == t0 then 1.0 else 0.0)
  }

  /** Under one-hot weights, tap `t` contributes the shifted input if it is the hot tap and zero otherwise. */
  lemma OneHotTap(inputs: array3<real>, weights: array4<real>, t0: int, t: int, x: int, y: int, z: int)
    requires 0 <= t < Taps && Taps <= weights.Length0
    requires 0 <= x < weights.Length1 && 0 <= y < weights.Length2 && 0 <= z < weights.Length3
    requires weights[t, x, y, z] == (if t == t0 then 1.0 else 0.0)
    ensures Tap(inputs, weights, t, x, y, z) ==
      (if t == t0 then Padded(inputs, x + TapI(t) - 1, y + TapJ(t) - 1, z + TapK(t) - 1) else 0.0)
  {
    TapSplits(t);
  }

  /** One-hot weights on tap (i, j, k) shift the input by (i-1, j-1, k-1), reading zero outside the cube. */
  lemma OneHotShifts(inputs: array3<real>, weights: array4<real>, i: int, j: int, k: int, x: int, y: int, z: int)
    requires 0 <= i < 3 && 0 <= j < 3 && 0 <= k < 3 && Taps <= weights.Length0
    requires 0 <= x < weights.Length1 && 0 <= y < weights.Length2 && 0 <= z < weights.Length3
    requires OneHot(weights, TapIndex(i, j, k))
    ensures Sum(TapValues(inputs, weights, x, y, z), Taps) == Padded(inputs, x + i - 1, y + j - 1, z + k - 1)
  {
    var t0 := TapIndex(i, j, k);
    var vs := TapValues(inputs, weights, x, y, z);
    var v := Padded(inputs, x + i - 1, y + j - 1, z + k - 1);
    forall t | 0 <= t < |vs|
      ensures vs[t] == (if t == t0 then v else 0.0)
    {
      OneHotTap(inputs, weights, t0, t, x, y, z);
    }
    SumOneHot(vs, t0, v, Taps);
  }

  /** One-hot weights on the centre tap 13 = (1, 1, 1) give back the input. */
  lemma CentreTapIdentity(inputs: array3<real>, weights: array4<real>, x: int, y: int, z: int)
    requires Taps <= weights.Length0
    requires 0 <= x < weights.Length1 && 0 <= y < weights.Length2 && 0 <= z < weights.Length3
    requires 0 <= x < inputs.Length0 && 0 <= y < inputs.Length1 && 0 <= z < inputs.Length2
    requires OneHot(weights, TapIndex(1, 1, 1))
    ensures Sum(TapValues(inputs, weights, x, y, z), Taps) == inputs[x, y, z]
  {
    OneHotShifts(inputs, weights, 1, 1, 1, x, y, z);
    PaddedInside(inputs, x, y, z);
  }

  /** Inside the cube the padding is invisible. */
  lemma PaddedInside(inputs: array3<real>, x: int, y: int, z: int)
    requires 0 <= x < inputs.Length0 && 0 <= y < inputs.Length1 && 0 <= z < inputs.Length2
    ensures Padded(inputs, x + 1 - 1, y + 1 - 1, z + 1 - 1) == inputs[x, y, z]
  {
  }

  /** All-zero weights at a voxel give a zero output there. */
  lemma ZeroWeights(inputs: array3<real>, weights: array4<real>, x: int, y: int, z: int)
    requires Taps <= weights.Length0
    requires 0 <= x < weights.Length1 && 0 <= y < weights.Length2 && 0 <= z < weights.Length3
    requires forall t | 0 <= t < Taps :: weights[t, x, y, z] == 0.0
    ensures Sum(TapValues(inputs, weights, x, y, z), Taps) == 0.0
  {
    var vs := TapValues(inputs, weights, x, y, z);
    forall t | 0 <= t < |vs|
      ensures vs[t] == 0.0
    {
      OneHotTap(inputs, weights, -1, t, x, y, z);
    }
    SumOneHot(vs, -1, 0.0, Taps);
  }
}
