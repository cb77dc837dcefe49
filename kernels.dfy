/**
  The three fixed 3x3 convolutions of the fragment shader: box smooth,
  sharpen and Laplacian. A texture read around the current fragment is a
  `Sampler` from the integer neighbour offset `(i, j)` to a colour.
*/
module Kernels {
  import opened Color

  /** `texture(uTexture, fTexturePosition + vec2(i, j) * uResolution)`, as a function of `(i, j)`. */
  type Sampler = (int, int) -> Rgba

  /**
    A GLSL `mat3`, its nine entries in constructor order. GLSL fills a
    `mat3` column by column, so `kernel[col][row]` is entry `3 * col + row`.
  */
  type Mat3 = m: seq<real> | |m| == 9 witness [0.0, 0.0, 0.0, 0.0, 0.0, 0.0, 0.0, 0.0, 0.0]

  /** `kernel[col][row]`. */
  function Entry(k: Mat3, col: int, row: int): real
    requires 0 <= col < 3 && 0 <= row < 3
  {
    k[3 * col + row]
  }

  const SmoothKernel: Mat3 := [1.0, 1.0, 1.0, 1.0, 1.0, 1.0, 1.0, 1.0, 1.0]
  const SharpenKernel: Mat3 := [0.0, -1.0, 0.0, -1.0, 5.0, -1.0, 0.0, -1.0, 0.0]
  const LaplacianKernel: Mat3 := [0.0, -1.0, 0.0, -1.0, 4.0, -1.0, 0.0, -1.0, 0.0]

  /** `kernelWeight` of the smooth filter. */
  const SmoothWeight: real := 9.0
  /** `kernelWeight` of the sharpen filter. */
  const SharpenWeight: real := 1.0

  /** Every sample of the 3x3 neighbourhood is `c`. */
  ghost predicate Uniform(s: Sampler, c: Rgba) {
    forall i, j :: -1 <= i <= 1 && -1 <= j <= 1 ==> s(i, j) == c
  }

  /** The kernel reads the same by columns and by rows: `kernel[c][r] == kernel[r][c]`. */
  predicate Symmetric(k: Mat3) {
    Entry(k, 0, 1) == Entry(k, 1, 0) && Entry(k, 0, 2) == Entry(k, 2, 0) && Entry(k, 1, 2) == Entry(k, 2, 1)
  }

  /** The sum of the first `n` weights, in constructor order. */
  function WeightPrefix(k: Mat3, n: nat): real
    requires n <= 9
  {
    if n == 0 then 0.0 else WeightPrefix(k, n - 1) + k[n - 1]
  }

  /**
    The sum of the first `n` terms `sample(i, j) * kernel[i+1][j+1]` taken
    in the shader's loop order: `i` outer, `j` inner, both from -1 to 1.
    Term `n` is at `i = n / 3 - 1`, `j = n % 3 - 1`.
  */
  function KernelSum(k: Mat3, s: Sampler, n: nat): Rgba
    requires n <= 9
  {
    if n == 0 then Zero
    else Add(KernelSum(k, s, n - 1), Scale(s((n - 1) / 3 - 1, (n - 1) % 3 - 1), Entry(k, (n - 1) / 3, (n - 1) % 3)))
  }

  /**
    The same sum with the kernel read by rows, `kernel[j+1][i+1]`: what the
    loop would compute had `mat3` been filled row by row.
  */
  function RowMajorSum(k: Mat3, s: Sampler, n: nat): Rgba
    requires n <= 9
  {
    if n == 0 then Zero
    else Add(RowMajorSum(k, s, n - 1), Scale(s((n - 1) / 3 - 1, (n - 1) % 3 - 1), Entry(k, (n - 1) % 3, (n - 1) / 3)))
  }

  /** The plain sum of the first `n` samples in loop order, without weights. */
  function NeighbourSum(s: Sampler, n: nat): Rgba
    requires n <= 9
  {
    if n == 0 then Zero else Add(NeighbourSum(s, n - 1), s((n - 1) / 3 - 1, (n - 1) % 3 - 1))
  }

  /** The four orthogonal neighbours of the centre, summed. */
  function CrossSum(s: Sampler): Rgba {
    Add(Add(s(0, 1), s(0, -1)), Add(s(-1, 0), s(1, 0)))
  }

  /** The cross-shaped kernel: zero corners, `-1` at the four edges, `centre` in the middle. */
  function CrossKernel(centre: real): Mat3 {
    [0.0, -1.0, 0.0, -1.0, centre, -1.0, 0.0, -1.0, 0.0]
  }

  /** The smooth filter's result: the mean of the nine samples, alpha included. */
  function Smoothed(s: Sampler): (r: Rgba)
    ensures r == DivBy(NeighbourSum(s, 9), 9.0)
  {
    BoxSumIsNeighbourSum(s, 9);
    DivBy(KernelSum(SmoothKernel, s, 9), SmoothWeight)
  }

  /** The sharpen filter's result: five times the centre minus the four orthogonal neighbours, alpha included. */
  function Sharpened(s: Sampler): (r: Rgba)
    ensures r == Sub(Scale(s(0, 0), 5.0), CrossSum(s))
  {
    KernelsCrossShaped();
    CrossKernelSum(s, 5.0);
    DivBy(KernelSum(SharpenKernel, s, 9), SharpenWeight)
  }

  /**
    The Laplacian filter's result: four times the centre minus the four
    orthogonal neighbours, with alpha set to 1; its `kernelWeight` is never used.
  */
  function LaplacianOf(s: Sampler): (r: Rgba)
    ensures r == WithAlpha(Sub(Scale(s(0, 0), 4.0), CrossSum(s)), 1.0)
    ensures r.a == 1.0
  {
    KernelsCrossShaped();
    CrossKernelSum(s, 4.0);
    WithAlpha(KernelSum(LaplacianKernel, s, 9), 1.0)
  }

  /** With every weight 1, the weighted sum is the plain sum of the samples. */
  lemma {:induction false} BoxSumIsNeighbourSum(s: Sampler, n: nat)
    requires n <= 9
    ensures KernelSum(SmoothKernel, s, n) == NeighbourSum(s, n)
  {
    if n > 0 {
      BoxSumIsNeighbourSum(s, n - 1);
      assert SmoothKernel[n - 1] == 1.0;
    }
  }

  /** A cross-shaped kernel sums to `centre` times the centre minus the four orthogonal neighbours. */
  lemma CrossKernelSum(s: Sampler, centre: real)
    ensures KernelSum(CrossKernel(centre), s, 9) == Sub(Scale(s(0, 0), centre), CrossSum(s))
  {
    var k := CrossKernel(centre);
    CrossMiddleColumn(s, centre);
    assert Entry(k, 2, 0) == 0.0 && Entry(k, 2, 1) == -1.0 && Entry(k, 2, 2) == 0.0;
    assert KernelSum(k, s, 7) == Add(KernelSum(k, s, 6), Scale(s(1, -1), 0.0));
    assert KernelSum(k, s, 8) == Add(KernelSum(k, s, 7), Scale(s(1, 0), -1.0));
    assert KernelSum(k, s, 9) == Add(KernelSum(k, s, 8), Scale(s(1, 1), 0.0));
  }

  /** The first two columns of a cross-shaped kernel: the centre term minus three neighbours. */
  lemma CrossMiddleColumn(s: Sampler, centre: real)
    ensures KernelSum(CrossKernel(centre), s, 6) == Sub(Scale(s(0, 0), centre), Add(Add(s(-1, 0), s(0, -1)), s(0, 1)))
  {
    var k := CrossKernel(centre);
    CrossFirstColumn(s, centre);
    assert Entry(k, 1, 0) == -1.0 && Entry(k, 1, 1) == centre && Entry(k, 1, 2) == -1.0;
    assert KernelSum(k, s, 4) == Add(KernelSum(k, s, 3), Scale(s(0, -1), -1.0));
    assert KernelSum(k, s, 5) == Add(KernelSum(k, s, 4), Scale(s(0, 0), centre));
    assert KernelSum(k, s, 6) == Add(KernelSum(k, s, 5), Scale(s(0, 1), -1.0));
  }

  /** The first column of a cross-shaped kernel: minus the left neighbour. */
  lemma CrossFirstColumn(s: Sampler, centre: real)
    ensures KernelSum(CrossKernel(centre), s, 3) == Sub(Zero, s(-1, 0))
  {
    var k := CrossKernel(centre);
    assert Entry(k, 0, 0) == 0.0 && Entry(k, 0, 1) == -1.0 && Entry(k, 0, 2) == 0.0;
    assert KernelSum(k, s, 1) == Add(Zero, Scale(s(-1, -1), 0.0));
    assert KernelSum(k, s, 2) == Add(KernelSum(k, s, 1), Scale(s(-1, 0), -1.0));
    assert KernelSum(k, s, 3) == Add(KernelSum(k, s, 2), Scale(s(-1, 1), 0.0));
  }

  /** The sharpen and Laplacian kernels are the cross kernel with centres 5 and 4. */
  lemma KernelsCrossShaped()
    ensures SharpenKernel == CrossKernel(5.0) && LaplacianKernel == CrossKernel(4.0)
  {
  }

  /** Loop step `(i, j)` adds term `3 * (i + 1) + (j + 1)` of the sum. */
  lemma KernelSumStep(k: Mat3, s: Sampler, i: int, j: int)
    requires -1 <= i <= 1 && -1 <= j <= 1
    ensures KernelSum(k, s, 3 * (i + 1) + (j + 1) + 1)
         == Add(KernelSum(k, s, 3 * (i + 1) + (j + 1)), Scale(s(i, j), Entry(k, i + 1, j + 1)))
  {
    var n := 3 * (i + 1) + (j + 1);
    assert n / 3 == i + 1 && n % 3 == j + 1;
  }

  /** The nested `for i` / `for j` loops that accumulate `newColor`. */
  method Accumulate(kernel: Mat3, sample: Sampler) returns (newColor: Rgba)
    ensures newColor == KernelSum(kernel, sample, 9)
  {
    newColor := Zero;
    for i := -1 to 2
      invariant newColor == KernelSum(kernel, sample, 3 * (i + 1))
    {
      for j := -1 to 2
        invariant newColor == KernelSum(kernel, sample, 3 * (i + 1) + (j + 1))
      {
        KernelSumStep(kernel, sample, i, j);
        newColor := Add(newColor, Scale(sample(i, j), Entry(kernel, i + 1, j + 1)));
      }
    }
  }

  /** `smoothColor()`: box blur of the background around the fragment. */
  method SmoothColor(sample: Sampler) returns (colorFilter: Rgba)
    ensures colorFilter == Smoothed(sample)
  {
    var newColor := Accumulate(SmoothKernel, sample);
    colorFilter := DivBy(newColor, SmoothWeight);
  }

  /** `sharpenColor()`. */
  method SharpenColor(sample: Sampler) returns (colorFilter: Rgba)
    ensures colorFilter == Sharpened(sample)
  {
    var newColor := Accumulate(SharpenKernel, sample);
    colorFilter := DivBy(newColor, SharpenWeight);
  }

  /** `laplacianColor()`. */
  method LaplacianColor(sample: Sampler) returns (colorFilter: Rgba)
    ensures colorFilter == LaplacianOf(sample)
    ensures colorFilter.a == 1.0
  {
    var newColor := Accumulate(LaplacianKernel, sample);
    colorFilter := WithAlpha(newColor, 1.0);
  }

  /** The weights of the three kernels sum to 9, 1 and 0. */
  lemma KernelWeights()
    ensures WeightPrefix(SmoothKernel, 9) == SmoothWeight
    ensures WeightPrefix(SharpenKernel, 9) == SharpenWeight
    ensures WeightPrefix(LaplacianKernel, 9) == 0.0
  {
  }

  /** All three kernels are symmetric. */
  lemma KernelsSymmetric()
    ensures Symmetric(SmoothKernel) && Symmetric(SharpenKernel) && Symmetric(LaplacianKernel)
  {
  }

  /** On a symmetric kernel the column-major and the row-major reading give the same sum. */
  lemma {:induction false} SymmetricIndexOrder(k: Mat3, s: Sampler, n: nat)
    requires n <= 9 && Symmetric(k)
    ensures KernelSum(k, s, n) == RowMajorSum(k, s, n)
  {
    if n > 0 {
      SymmetricIndexOrder(k, s, n - 1);
      var col, row := (n - 1) / 3, (n - 1) % 3;
      assert Entry(k, col, row) == Entry(k, row, col);
    }
  }

  /** On a uniform neighbourhood the weighted sum is the colour times the sum of the weights. */
  lemma {:induction false} KernelSumUniform(k: Mat3, s: Sampler, c: Rgba, n: nat)
    requires n <= 9 && Uniform(s, c)
    ensures KernelSum(k, s, n) == Scale(c, WeightPrefix(k, n))
  {
    if n > 0 {
      KernelSumUniform(k, s, c, n - 1);
      var i, j := (n - 1) / 3 - 1, (n - 1) % 3 - 1;
      assert s(i, j) == c;
      var w, x := WeightPrefix(k, n - 1), k[n - 1];
      assert c.r * w + c.r * x == c.r * (w + x);
      assert c.g * w + c.g * x == c.g * (w + x);
      assert c.b * w + c.b * x == c.b * (w + x);
      assert c.a * w + c.a * x == c.a * (w + x);
    }
  }

  /** Smoothing a uniform neighbourhood returns that colour, alpha included. */
  lemma SmoothUniform(s: Sampler, c: Rgba)
    requires Uniform(s, c)
    ensures Smoothed(s) == c
  {
    KernelSumUniform(SmoothKernel, s, c, 9);
    KernelWeights();
  }

  /** Sharpening a uniform neighbourhood returns that colour, alpha included. */
  lemma SharpenUniform(s: Sampler, c: Rgba)
    requires Uniform(s, c)
    ensures Sharpened(s) == c
  {
    KernelSumUniform(SharpenKernel, s, c, 9);
    KernelWeights();
  }

  /** The Laplacian of a uniform neighbourhood is opaque black. */
  lemma LaplacianUniform(s: Sampler, c: Rgba)
    requires Uniform(s, c)
    ensures LaplacianOf(s) == Rgba(0.0, 0.0, 0.0, 1.0)
  {
    KernelSumUniform(LaplacianKernel, s, c, 9);
    KernelWeights();
  }
}
