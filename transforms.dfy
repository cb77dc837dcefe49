/**
  The per-pixel colour transforms of the fragment shader: the alpha-over
  blend of the foreground onto the background, the luminance grayscale,
  the sepia matrix and the final contrast/brightness map.
*/
module Transforms {
  import opened Color

  /** The luminance weights of `grayScaleColor()`. */
  const RedLuma: real := 0.2126
  const GreenLuma: real := 0.7152
  const BlueLuma: real := 0.0722

  /** `dot(c.rgb, vec3(0.2126, 0.7152, 0.0722))`. */
  function Luma(c: Rgba): real {
    c.r * RedLuma + c.g * GreenLuma + c.b * BlueLuma
  }

  /** The luminance weights sum to 1. */
  lemma LumaWeightsSumToOne()
    ensures RedLuma + GreenLuma + BlueLuma == 1.0
  {
  }

  /** The luminance of a grey (all channels equal) is that grey level. */
  lemma LumaOfGrey(c: Rgba)
    requires c.r == c.g == c.b
    ensures Luma(c) == c.r
  {
    LumaWeightsSumToOne();
  }

  /**
    `grayScaleColor()`: every colour channel becomes the luminance; the
    result is grey, keeps the luminance of its input, and keeps alpha.
  */
  function GrayScale(c: Rgba): (r: Rgba)
    ensures r.r == r.g == r.b
    ensures Luma(r) == Luma(c)
    ensures r.a == c.a
  {
    var grayColor := Luma(c);
    LumaOfGrey(Rgba(grayColor, grayColor, grayColor, c.a));
    Rgba(grayColor, grayColor, grayColor, c.a)
  }

  /** Grayscale is idempotent. */
  lemma GrayScaleIdempotent(c: Rgba)
    ensures GrayScale(GrayScale(c)) == GrayScale(c)
  {
    LumaOfGrey(GrayScale(c));
  }

  /** A colour that is already grey is left as it is. */
  lemma GrayScaleFixesGrey(c: Rgba)
    requires c.r == c.g == c.b
    ensures GrayScale(c) == c
  {
    LumaOfGrey(c);
  }

  /**
    `sepiaColor()`: the rgb channels go through a fixed 3x3 matrix and
    alpha becomes `alpha`, the alpha of the `color` uniform; the pixel's
    own alpha is dropped.
  */
  function Sepia(c: Rgba, alpha: real): (r: Rgba)
    ensures r.a == alpha
  {
    Rgba(c.r * 0.393 + c.g * 0.769 + c.b * 0.189,
         c.r * 0.349 + c.g * 0.686 + c.b * 0.168,
         c.r * 0.272 + c.g * 0.534 + c.b * 0.131,
         alpha)
  }

  /** Pure red goes to the first column of the sepia matrix. */
  lemma SepiaOfRed(a: real, alpha: real)
    ensures Sepia(Rgba(1.0, 0.0, 0.0, a), alpha) == Rgba(0.393, 0.349, 0.272, alpha)
  {
  }

  /** Pure green goes to the second column of the sepia matrix. */
  lemma SepiaOfGreen(a: real, alpha: real)
    ensures Sepia(Rgba(0.0, 1.0, 0.0, a), alpha) == Rgba(0.769, 0.686, 0.534, alpha)
  {
  }

  /** Pure blue goes to the third column of the sepia matrix. */
  lemma SepiaOfBlue(a: real, alpha: real)
    ensures Sepia(Rgba(0.0, 0.0, 1.0, a), alpha) == Rgba(0.189, 0.168, 0.131, alpha)
  {
  }

  /** On rgb, sepia is linear: it maps `x + y * k` to `Sepia(x) + Sepia(y) * k`. */
  lemma SepiaLinear(x: Rgba, y: Rgba, k: real, alpha: real)
    ensures SameRgb(Sepia(Add(x, Scale(y, k)), alpha), Add(Sepia(x, alpha), Scale(Sepia(y, alpha), k)))
  {
    assert x.r * 0.393 + (y.r * k) * 0.393 == x.r * 0.393 + (y.r * 0.393) * k;
    assert x.g * 0.769 + (y.g * k) * 0.769 == x.g * 0.769 + (y.g * 0.769) * k;
    assert x.b * 0.189 + (y.b * k) * 0.189 == x.b * 0.189 + (y.b * 0.189) * k;
    assert x.r * 0.349 + (y.r * k) * 0.349 == x.r * 0.349 + (y.r * 0.349) * k;
    assert x.g * 0.686 + (y.g * k) * 0.686 == x.g * 0.686 + (y.g * 0.686) * k;
    assert x.b * 0.168 + (y.b * k) * 0.168 == x.b * 0.168 + (y.b * 0.168) * k;
    assert x.r * 0.272 + (y.r * k) * 0.272 == x.r * 0.272 + (y.r * 0.272) * k;
    assert x.g * 0.534 + (y.g * k) * 0.534 == x.g * 0.534 + (y.g * 0.534) * k;
    assert x.b * 0.131 + (y.b * k) * 0.131 == x.b * 0.131 + (y.b * 0.131) * k;
  }

  /** Applying grayscale then sepia differs from sepia then grayscale: the order in the shader matters. */
  lemma ToneOrderMatters()
    ensures Sepia(GrayScale(Rgba(1.0, 0.0, 0.0, 1.0)), 1.0) != GrayScale(Sepia(Rgba(1.0, 0.0, 0.0, 1.0), 1.0))
  {
    var c := Rgba(1.0, 0.0, 0.0, 1.0);
    assert GrayScale(c).r == 0.2126;
    assert Sepia(GrayScale(c), 1.0).r == 0.2126 * (0.393 + 0.769 + 0.189);
    assert GrayScale(Sepia(c, 1.0)).r == 0.393 * 0.2126 + 0.349 * 0.7152 + 0.272 * 0.0722;
  }

  /**
    The shader's `alphaBlending()`: the foreground `fg` over the background
    `bg`, weighted by the foreground's alpha; the result is opaque.
  */
  function AlphaBlend(bg: Rgba, fg: Rgba): (r: Rgba)
    ensures r.a == 1.0
    ensures fg.a == 0.0 ==> SameRgb(r, bg)
    ensures fg.a == 1.0 ==> SameRgb(r, fg)
    ensures 0.0 <= fg.a <= 1.0 ==> Between(r.r, bg.r, fg.r) && Between(r.g, bg.g, fg.g) && Between(r.b, bg.b, fg.b)
  {
    BlendBetween(bg.r, fg.r, fg.a);
    BlendBetween(bg.g, fg.g, fg.a);
    BlendBetween(bg.b, fg.b, fg.a);
    Rgba(Over(bg.r, fg.r, fg.a), Over(bg.g, fg.g, fg.a), Over(bg.b, fg.b, fg.a), 1.0)
  }

  /** One colour channel of the blend: `y` weighted by `t` over `x` weighted by `1 - t`. */
  function Over(x: real, y: real, t: real): real {
    y * t + x * (1.0 - t)
  }

  /** `v` lies between `x` and `y`, in either order. */
  predicate Between(v: real, x: real, y: real) {
    (x <= v <= y) || (y <= v <= x)
  }

  /** The product of two non-negative numbers is non-negative. */
  lemma ProductNonNegative(x: real, y: real)
    requires x >= 0.0 && y >= 0.0
    ensures x * y >= 0.0
  {
  }

  /** A weighted average `Over(x, y, t)` with `0 <= t <= 1` lies between `x` and `y`. */
  lemma BlendBetween(x: real, y: real, t: real)
    ensures 0.0 <= t <= 1.0 ==> Between(Over(x, y, t), x, y)
  {
    if 0.0 <= t <= 1.0 {
      var v := Over(x, y, t);
      assert v - x == (y - x) * t;
      assert y - v == (y - x) * (1.0 - t);
      if x <= y {
        ProductNonNegative(y - x, t);
        ProductNonNegative(y - x, 1.0 - t);
      } else {
        ProductNonNegative(x - y, t);
        ProductNonNegative(x - y, 1.0 - t);
      }
    }
  }

  /**
    The last two lines of the shader's `main()`: each colour channel is
    stretched about 0.5 by `contrast + 1` and then multiplied by
    `brightness`; alpha passes through.
  */
  function ContrastBrightness(c: Rgba, contrast: real, brightness: real): (r: Rgba)
    ensures r.a == c.a
    ensures contrast == 0.0 && brightness == 1.0 ==> r == c
    ensures brightness == 0.0 ==> BlackRgb(r)
    ensures contrast == -1.0 ==> r.r == r.g == r.b == 0.5 * brightness
  {
    Rgba(Stretch(c.r, contrast, brightness), Stretch(c.g, contrast, brightness), Stretch(c.b, contrast, brightness), c.a)
  }

  /** One colour channel of the contrast/brightness map. */
  function Stretch(v: real, contrast: real, brightness: real): real {
    ((v - 0.5) * (contrast + 1.0) + 0.5) * brightness
  }

  /** Mid grey is the fixed point of the contrast stretch: it only scales with brightness. */
  lemma ContrastKeepsMidGrey(c: Rgba, contrast: real, brightness: real)
    requires c.r == 0.5 && c.g == 0.5 && c.b == 0.5
    ensures var r := ContrastBrightness(c, contrast, brightness);
      r.r == 0.5 * brightness && r.g == 0.5 * brightness && r.b == 0.5 * brightness
  {
  }

  /**
    Grayscale commutes with the contrast/brightness map, because the
    luminance weights sum to 1.
  */
  lemma GrayScaleCommutesWithContrast(c: Rgba, contrast: real, brightness: real)
    ensures GrayScale(ContrastBrightness(c, contrast, brightness)) == ContrastBrightness(GrayScale(c), contrast, brightness)
  {
    var l := Luma(c);
    LumaOfContrast(c, contrast, brightness);
    assert GrayScale(c) == Rgba(l, l, l, c.a);
  }

  /** The luminance of a contrast/brightness-mapped colour is the mapped luminance. */
  lemma LumaOfContrast(c: Rgba, contrast: real, brightness: real)
    ensures Luma(ContrastBrightness(c, contrast, brightness)) == Stretch(Luma(c), contrast, brightness)
  {
    var k := contrast + 1.0;
    var m, q := k * brightness, (0.5 - 0.5 * k) * brightness;
    AffineChannel(c.r, k, brightness);
    AffineChannel(c.g, k, brightness);
    AffineChannel(c.b, k, brightness);
    AffineChannel(Luma(c), k, brightness);
    assert ContrastBrightness(c, contrast, brightness) == Rgba(c.r * m + q, c.g * m + q, c.b * m + q, c.a);
    LumaOfAffine(c, m, q);
  }

  /** Luminance commutes with a map `v * m + q` applied to every channel, because the weights sum to 1. */
  lemma LumaOfAffine(c: Rgba, m: real, q: real)
    ensures Luma(Rgba(c.r * m + q, c.g * m + q, c.b * m + q, c.a)) == Luma(c) * m + q
  {
    LumaWeightsSumToOne();
    assert (c.r * m + q) * RedLuma == (c.r * RedLuma) * m + q * RedLuma;
    assert (c.g * m + q) * GreenLuma == (c.g * GreenLuma) * m + q * GreenLuma;
    assert (c.b * m + q) * BlueLuma == (c.b * BlueLuma) * m + q * BlueLuma;
    assert (c.r * RedLuma) * m + (c.g * GreenLuma) * m + (c.b * BlueLuma) * m == Luma(c) * m;
  }

  /** The contrast/brightness map of one channel is affine: `v * k * brightness` plus a constant. */
  lemma AffineChannel(v: real, k: real, brightness: real)
    ensures ((v - 0.5) * k + 0.5) * brightness == v * (k * brightness) + (0.5 - 0.5 * k) * brightness
  {
  }
}
