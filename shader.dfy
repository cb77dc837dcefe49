/**
  The fragment shader's `main()`: the uniforms it reads and the fixed order
  in which it overwrites `colorFilter` before writing `fragColor`.
*/
module Shader {
  import opened Color
  import opened Kernels
  import opened Gradient
  import opened Transforms

  /**
    The uniforms of the fragment shader. Every switch is a float that the
    shader compares with `1.0`. `uResolution` does not appear: it is part of
    the `Sampler`, which takes the integer step `(i, j)` in units of
    `uResolution`, one canvas pixel.
  */
  datatype Uniforms = Uniforms(
    color: Rgba,
    contrast: real,
    brightness: real,
    alphaBlend: real,
    backgroundOnly: real,
    grayScale: real,
    sepia: real,
    isSmooth: real,
    sharpen: real,
    laplacian: real,
    gradient: real)

  /**
    The `backgroundOnly` branch of `main()`: the first switched-on filter
    among smooth, sharpen, Laplacian and gradient, and the raw background
    sample when none is.
  */
  ghost function FilterStage(u: Uniforms, bg: Sampler): (r: Rgba)
    ensures NoKernel(u) ==> r == bg(0, 0)
    ensures u.isSmooth != 1.0 && u.sharpen != 1.0 && (u.laplacian == 1.0 || u.gradient == 1.0) ==> r.a == 1.0
  {
    if u.isSmooth == 1.0 then Smoothed(bg)
    else if u.sharpen == 1.0 then Sharpened(bg)
    else if u.laplacian == 1.0 then LaplacianOf(bg)
    else if u.gradient == 1.0 then GradientOf(bg)
    else bg(0, 0)
  }

  /**
    `colorFilter` after the first two `if`s of `main()`. `unset` is the
    value the global `colorFilter` holds when neither branch assigns it,
    which GLSL leaves undefined. The blend runs first and the filter
    branch, when its switch is on, overwrites it.
  */
  ghost function Composite(u: Uniforms, bg: Sampler, fg: Rgba, unset: Rgba): (r: Rgba)
    ensures u.backgroundOnly == 1.0 ==> r == FilterStage(u, bg)
    ensures u.backgroundOnly != 1.0 && u.alphaBlend == 1.0 ==> r == AlphaBlend(bg(0, 0), fg) && r.a == 1.0
    ensures u.backgroundOnly != 1.0 && u.alphaBlend != 1.0 ==> r == unset
  {
    var blended := if u.alphaBlend == 1.0 then AlphaBlend(bg(0, 0), fg) else unset;
    if u.backgroundOnly == 1.0 then FilterStage(u, bg) else blended
  }

  /** The grayscale and then the sepia step of `main()`, each when its switch is on. */
  function ToneStage(u: Uniforms, c: Rgba): (r: Rgba)
    ensures u.sepia == 1.0 ==> r.a == u.color.a
    ensures u.sepia != 1.0 ==> r.a == c.a
    ensures u.grayScale == 1.0 && u.sepia != 1.0 ==> r.r == r.g == r.b
    ensures u.grayScale != 1.0 && u.sepia != 1.0 ==> r == c
  {
    var gray := if u.grayScale == 1.0 then GrayScale(c) else c;
    if u.sepia == 1.0 then Sepia(gray, u.color.a) else gray
  }

  /**
    `main()`: compositing, then grayscale and sepia, then contrast and
    brightness, which always run. `bg` samples `uTexture` around the
    fragment, `fg` is the `uTexture2` sample at the fragment.
  */
  ghost function Main(u: Uniforms, bg: Sampler, fg: Rgba, unset: Rgba): (fragColor: Rgba)
    ensures u.brightness == 0.0 ==> BlackRgb(fragColor)
    ensures u.sepia == 1.0 ==> fragColor.a == u.color.a
  {
    ContrastBrightness(ToneStage(u, Composite(u, bg, fg, unset)), u.contrast, u.brightness)
  }

  /** Neither grayscale nor sepia is on, and contrast and brightness are neutral. */
  predicate NeutralPost(u: Uniforms) {
    u.grayScale != 1.0 && u.sepia != 1.0 && u.contrast == 0.0 && u.brightness == 1.0
  }

  /** No convolution or gradient switch is on. */
  predicate NoKernel(u: Uniforms) {
    u.isSmooth != 1.0 && u.sharpen != 1.0 && u.laplacian != 1.0 && u.gradient != 1.0
  }

  /** With the filter branch on, any blend result is overwritten: the foreground and `unset` do not matter. */
  lemma FilterOverwritesBlend(u: Uniforms, bg: Sampler, fg: Rgba, fg': Rgba, unset: Rgba, unset': Rgba)
    requires u.backgroundOnly == 1.0
    ensures Main(u, bg, fg, unset) == Main(u, bg, fg', unset')
  {
  }

  /** In blend mode without sepia the output is opaque, whatever the two inputs' alphas. */
  lemma BlendIsOpaque(u: Uniforms, bg: Sampler, fg: Rgba, unset: Rgba)
    requires u.alphaBlend == 1.0 && u.backgroundOnly != 1.0 && u.sepia != 1.0
    ensures Main(u, bg, fg, unset).a == 1.0
  {
  }

  /** In blend mode with neutral post-processing the output is exactly the alpha-over blend. */
  lemma BlendOutput(u: Uniforms, bg: Sampler, fg: Rgba, unset: Rgba)
    requires u.alphaBlend == 1.0 && u.backgroundOnly != 1.0 && NeutralPost(u)
    ensures Main(u, bg, fg, unset)
         == Rgba(fg.r * fg.a + bg(0, 0).r * (1.0 - fg.a),
                 fg.g * fg.a + bg(0, 0).g * (1.0 - fg.a),
                 fg.b * fg.a + bg(0, 0).b * (1.0 - fg.a), 1.0)
  {
    BlendFormula(bg(0, 0), fg);
    MainBlends(u, bg, fg, unset);
  }

  /** In blend mode with neutral post-processing `main()` outputs the blend unchanged. */
  lemma MainBlends(u: Uniforms, bg: Sampler, fg: Rgba, unset: Rgba)
    requires u.alphaBlend == 1.0 && u.backgroundOnly != 1.0 && NeutralPost(u)
    ensures Main(u, bg, fg, unset) == AlphaBlend(bg(0, 0), fg)
  {
    var blended := AlphaBlend(bg(0, 0), fg);
    assert Composite(u, bg, fg, unset) == blended;
    assert ToneStage(u, blended) == blended;
    assert ContrastBrightness(blended, u.contrast, u.brightness) == blended;
  }

  /** The blend written out channel by channel. */
  lemma BlendFormula(b: Rgba, f: Rgba)
    ensures AlphaBlend(b, f) == Rgba(f.r * f.a + b.r * (1.0 - f.a), f.g * f.a + b.g * (1.0 - f.a), f.b * f.a + b.b * (1.0 - f.a), 1.0)
  {
    assert AlphaBlend(b, f) == Rgba(Over(b.r, f.r, f.a), Over(b.g, f.g, f.a), Over(b.b, f.b, f.a), 1.0);
  }

  /**
    With the filter branch on, smoothing, sharpening, the Laplacian and the
    gradient take priority in that order: each applies whenever no earlier
    one is switched on, whatever the later switches say.
  */
  lemma FilterPriority(u: Uniforms, bg: Sampler)
    ensures u.isSmooth == 1.0 ==> FilterStage(u, bg) == Smoothed(bg)
    ensures u.isSmooth != 1.0 && u.sharpen == 1.0 ==> FilterStage(u, bg) == Sharpened(bg)
    ensures u.isSmooth != 1.0 && u.sharpen != 1.0 && u.laplacian == 1.0 ==> FilterStage(u, bg) == LaplacianOf(bg)
    ensures u.isSmooth != 1.0 && u.sharpen != 1.0 && u.laplacian != 1.0 && u.gradient == 1.0 ==> FilterStage(u, bg) == GradientOf(bg)
  {
  }

  /** With the filter branch on, no kernel and neutral post-processing, the output is the raw background sample. */
  lemma BackgroundPassthrough(u: Uniforms, bg: Sampler, fg: Rgba, unset: Rgba)
    requires u.backgroundOnly == 1.0 && NoKernel(u) && NeutralPost(u)
    ensures Main(u, bg, fg, unset) == bg(0, 0)
  {
  }

  /**
    The Laplacian and the gradient make the output opaque whatever the
    background's alpha, unless sepia then replaces alpha.
  */
  lemma EdgeFiltersAreOpaque(u: Uniforms, bg: Sampler, fg: Rgba, unset: Rgba)
    requires u.backgroundOnly == 1.0 && u.isSmooth != 1.0 && u.sharpen != 1.0
    requires u.laplacian == 1.0 || u.gradient == 1.0
    requires u.sepia != 1.0
    ensures Main(u, bg, fg, unset).a == 1.0
  {
  }

  /** Smoothing or sharpening a uniform neighbourhood with neutral post-processing returns that colour. */
  lemma UniformSmoothSharpen(u: Uniforms, bg: Sampler, c: Rgba, fg: Rgba, unset: Rgba)
    requires Uniform(bg, c)
    requires u.backgroundOnly == 1.0 && NeutralPost(u)
    requires u.isSmooth == 1.0 || u.sharpen == 1.0
    ensures Main(u, bg, fg, unset) == c
  {
    if u.isSmooth == 1.0 {
      SmoothUniform(bg, c);
    } else {
      SharpenUniform(bg, c);
    }
  }

  /** Edge detection of a uniform neighbourhood with neutral post-processing is opaque black. */
  lemma UniformEdgesAreBlack(u: Uniforms, bg: Sampler, c: Rgba, fg: Rgba, unset: Rgba)
    requires Uniform(bg, c)
    requires u.backgroundOnly == 1.0 && NeutralPost(u)
    requires u.isSmooth != 1.0 && u.sharpen != 1.0
    requires u.laplacian == 1.0 || u.gradient == 1.0
    ensures Main(u, bg, fg, unset) == Rgba(0.0, 0.0, 0.0, 1.0)
  {
    if u.laplacian == 1.0 {
      LaplacianUniform(bg, c);
    } else {
      GradientUniform(bg, c);
    }
  }

  /** With both tone switches on, grayscale runs before sepia, so the output is sepia of the grey. */
  lemma GrayScaleBeforeSepia(u: Uniforms, c: Rgba)
    requires u.grayScale == 1.0 && u.sepia == 1.0
    ensures ToneStage(u, c) == Sepia(GrayScale(c), u.color.a)
    ensures ToneStage(u, c).r == Luma(c) * (0.393 + 0.769 + 0.189)
  {
  }
}
