/**
  Concrete samplers: a texture held as rows of texels, read around a
  texel either with clamp-to-edge or with repeat (WebGL's default wrap
  mode, which the page never changes) at the borders. Row 0 is the
  bottom row, at texture coordinate 0, as after the upload's vertical flip.

  The shader steps its neighbour reads by one canvas pixel
  (`uResolution` is one over the canvas size). That step is one texel
  only when the image has the canvas's size, which is the case modelled
  here: a neighbour offset of `(i, j)` is a whole texel offset.
*/
module Texture {
  import opened Color
  import opened Kernels
  import opened Shader

  datatype Image = Image(rows: seq<seq<Rgba>>)

  /** At least one row, and every row as wide as the first, which is not empty. */
  predicate WellFormed(img: Image) {
    |img.rows| > 0 && |img.rows[0]| > 0 && forall y :: 0 <= y < |img.rows| ==> |img.rows[y]| == |img.rows[0]|
  }

  function Width(img: Image): nat
    requires WellFormed(img)
  {
    |img.rows[0]|
  }

  function Height(img: Image): nat
    requires WellFormed(img)
  {
    |img.rows|
  }

  /** The index nearest to `v` inside `[0, n)`. */
  function Clamp(v: int, n: nat): (r: int)
    requires n > 0
    ensures 0 <= r < n
    ensures 0 <= v < n ==> r == v
    ensures v < 0 ==> r == 0
    ensures v >= n ==> r == n - 1
  {
    if v < 0 then 0 else if v >= n then n - 1 else v
  }

  /** The texel at column `x`, row `y`, with both clamped to the edge. */
  function At(img: Image, x: int, y: int): (r: Rgba)
    requires WellFormed(img)
    ensures 0 <= x < Width(img) && 0 <= y < Height(img) ==> r == img.rows[y][x]
    ensures x < 0 && 0 <= y < Height(img) ==> r == img.rows[y][0]
    ensures x >= Width(img) && 0 <= y < Height(img) ==> r == img.rows[y][Width(img) - 1]
    ensures y < 0 ==> r == img.rows[0][Clamp(x, Width(img))]
    ensures y >= Height(img) ==> r == img.rows[Height(img) - 1][Clamp(x, Width(img))]
  {
    img.rows[Clamp(y, Height(img))][Clamp(x, Width(img))]
  }

  /**
    The neighbourhood of texel `(x, y)`: offset `(i, j)` reads column `x + i`, row `y + j`.
    This is the shader's neighbourhood when the image is as large as the canvas.
  */
  function NeighbourhoodAt(img: Image, x: int, y: int): (s: Sampler)
    requires WellFormed(img)
    ensures forall i, j :: 0 <= x + i < Width(img) && 0 <= y + j < Height(img) ==> s(i, j) == img.rows[y + j][x + i]
    ensures forall i, j :: x + i < 0 && 0 <= y + j < Height(img) ==> s(i, j) == img.rows[y + j][0]
    ensures forall i, j :: x + i >= Width(img) && 0 <= y + j < Height(img) ==> s(i, j) == img.rows[y + j][Width(img) - 1]
  {
    var s := (i: int, j: int) => At(img, x + i, y + j);
    assert forall i, j :: s(i, j) == At(img, x + i, y + j);
    s
  }

  /** The texel at column `x`, row `y`, with both wrapped around (repeat). */
  function WrappedAt(img: Image, x: int, y: int): (r: Rgba)
    requires WellFormed(img)
    ensures 0 <= x < Width(img) && 0 <= y < Height(img) ==> r == img.rows[y][x]
  {
    ModInRange(x, Width(img));
    ModInRange(y, Height(img));
    img.rows[y % Height(img)][x % Width(img)]
  }

  /** An index already in `[0, n)` is its own remainder. */
  lemma ModInRange(v: int, n: int)
    requires n > 0
    ensures 0 <= v % n < n
    ensures 0 <= v < n ==> v % n == v
  {
    var q, r := v / n, v % n;
    assert v == q * n + r;
    MultipleOutside(q, n);
  }

  /** Under repeat the texture is periodic: a shift by its width or its height reads the same texel. */
  lemma WrappedPeriodic(img: Image, x: int, y: int)
    requires WellFormed(img)
    ensures WrappedAt(img, x + Width(img), y) == WrappedAt(img, x, y)
    ensures WrappedAt(img, x, y + Height(img)) == WrappedAt(img, x, y)
  {
    ModShift(x, Width(img));
    ModShift(y, Height(img));
  }

  /** Adding the modulus does not change a remainder. */
  lemma ModShift(v: int, n: int)
    requires n > 0
    ensures (v + n) % n == v % n
  {
    var q, r := v / n, v % n;
    var q', r' := (v + n) / n, (v + n) % n;
    assert v == q * n + r && v + n == q' * n + r';
    var k := q' - q - 1;
    assert k * n == q' * n - q * n - n;
    MultipleOutside(k, n);
  }

  /** A non-zero multiple of `n` is at least `n` away from 0. */
  lemma MultipleOutside(k: int, n: int)
    requires n > 0
    ensures k == 0 || k * n >= n || k * n <= -n
  {
    if k >= 1 {
      assert k * n == n + (k - 1) * n;
      assert (k - 1) * n >= 0;
    } else if k <= -1 {
      assert k * n == -n + (k + 1) * n;
      assert (k + 1) * n <= 0;
    }
  }

  /** The neighbourhood of texel `(x, y)` under the repeat wrap mode, again for an image as large as the canvas. */
  function WrappedNeighbourhoodAt(img: Image, x: int, y: int): (s: Sampler)
    requires WellFormed(img)
    ensures forall i, j :: 0 <= x + i < Width(img) && 0 <= y + j < Height(img) ==> s(i, j) == img.rows[y + j][x + i]
  {
    var s := (i: int, j: int) => WrappedAt(img, x + i, y + j);
    assert forall i, j :: s(i, j) == WrappedAt(img, x + i, y + j);
    s
  }

  /** Every texel is `c`. */
  ghost predicate Solid(img: Image, c: Rgba) {
    forall y, x :: 0 <= y < |img.rows| && 0 <= x < |img.rows[y]| ==> img.rows[y][x] == c
  }

  /** A `width` by `height` texture of one colour. */
  function SolidImage(width: nat, height: nat, c: Rgba): (img: Image)
    requires width > 0 && height > 0
    ensures WellFormed(img) && Width(img) == width && Height(img) == height
    ensures Solid(img, c)
  {
    Image(seq(height, _ => seq(width, _ => c)))
  }

  /** On a single-coloured texture every neighbourhood, border texels included, is uniform. */
  lemma SolidNeighbourhoodsAreUniform(img: Image, c: Rgba, x: int, y: int)
    requires WellFormed(img) && Solid(img, c)
    ensures Uniform(NeighbourhoodAt(img, x, y), c)
  {
    var s := NeighbourhoodAt(img, x, y);
    forall i, j | -1 <= i <= 1 && -1 <= j <= 1
      ensures s(i, j) == c
    {
      var row, col := Clamp(y + j, Height(img)), Clamp(x + i, Width(img));
      assert |img.rows[row]| == Width(img);
      assert img.rows[row][col] == c;
      assert s(i, j) == At(img, x + i, y + j) == img.rows[row][col];
    }
  }

  /** The same holds under the repeat wrap mode. */
  lemma SolidWrappedNeighbourhoodsAreUniform(img: Image, c: Rgba, x: int, y: int)
    requires WellFormed(img) && Solid(img, c)
    ensures Uniform(WrappedNeighbourhoodAt(img, x, y), c)
  {
    var s := WrappedNeighbourhoodAt(img, x, y);
    forall i, j | -1 <= i <= 1 && -1 <= j <= 1
      ensures s(i, j) == c
    {
      var row, col := (y + j) % Height(img), (x + i) % Width(img);
      assert |img.rows[row]| == Width(img);
      assert img.rows[row][col] == c;
      assert s(i, j) == WrappedAt(img, x + i, y + j) == img.rows[row][col];
    }
  }

  /** Smoothing a single-coloured texture with neutral post-processing gives that colour at every texel, under either wrap mode. */
  lemma SmoothSolidImage(u: Uniforms, img: Image, c: Rgba, x: int, y: int, fg: Rgba, unset: Rgba)
    requires WellFormed(img) && Solid(img, c)
    requires u.backgroundOnly == 1.0 && u.isSmooth == 1.0 && NeutralPost(u)
    ensures Main(u, NeighbourhoodAt(img, x, y), fg, unset) == c
    ensures Main(u, WrappedNeighbourhoodAt(img, x, y), fg, unset) == c
  {
    SolidNeighbourhoodsAreUniform(img, c, x, y);
    UniformSmoothSharpen(u, NeighbourhoodAt(img, x, y), c, fg, unset);
    SolidWrappedNeighbourhoodsAreUniform(img, c, x, y);
    UniformSmoothSharpen(u, WrappedNeighbourhoodAt(img, x, y), c, fg, unset);
  }

  /**
    A 2x2 opaque red background under a 2x2 blue foreground of alpha 0.5,
    blended with neutral post-processing, is (0.5, 0, 0.5, 1) at every texel.
  */
  lemma HalfBlueOverRed(u: Uniforms, x: int, y: int, unset: Rgba)
    requires u.alphaBlend == 1.0 && u.backgroundOnly != 1.0 && NeutralPost(u)
    ensures var bg := SolidImage(2, 2, Rgba(1.0, 0.0, 0.0, 1.0));
      var fg := SolidImage(2, 2, Rgba(0.0, 0.0, 1.0, 0.5));
      Main(u, NeighbourhoodAt(bg, x, y), At(fg, x, y), unset) == Rgba(0.5, 0.0, 0.5, 1.0)
  {
    var bg := SolidImage(2, 2, Rgba(1.0, 0.0, 0.0, 1.0));
    var fg := SolidImage(2, 2, Rgba(0.0, 0.0, 1.0, 0.5));
    assert At(bg, x, y) == Rgba(1.0, 0.0, 0.0, 1.0);
    assert At(fg, x, y) == Rgba(0.0, 0.0, 1.0, 0.5);
    BlendOutput(u, NeighbourhoodAt(bg, x, y), At(fg, x, y), unset);
  }
}
