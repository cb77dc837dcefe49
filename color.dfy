/** RGBA colour values as the fragment shader's `vec4`, with exact real channels. */
module Color {

  /** One `vec4` colour: red, green, blue and alpha. */
  datatype Rgba = Rgba(r: real, g: real, b: real, a: real)

  /** `vec4(0.0)`, the start value of every convolution accumulator. */
  const Zero: Rgba := Rgba(0.0, 0.0, 0.0, 0.0)

  /** Component-wise `+` on `vec4`. */
  function Add(x: Rgba, y: Rgba): Rgba {
    Rgba(x.r + y.r, x.g + y.g, x.b + y.b, x.a + y.a)
  }

  /** Component-wise `-` on `vec4`. */
  function Sub(x: Rgba, y: Rgba): Rgba {
    Rgba(x.r - y.r, x.g - y.g, x.b - y.b, x.a - y.a)
  }

  /** `vec4 * float`. */
  function Scale(x: Rgba, k: real): Rgba {
    Rgba(x.r * k, x.g * k, x.b * k, x.a * k)
  }

  /** `vec4 / float`. */
  function DivBy(x: Rgba, k: real): Rgba
    requires k != 0.0
  {
    Rgba(x.r / k, x.g / k, x.b / k, x.a / k)
  }

  /** The same colour with its alpha replaced, as in `vec4(c.rgb, a)`. */
  function WithAlpha(x: Rgba, a: real): Rgba {
    Rgba(x.r, x.g, x.b, a)
  }

  /** The colour channels agree (alpha is not compared). */
  predicate SameRgb(x: Rgba, y: Rgba) {
    x.r == y.r && x.g == y.g && x.b == y.b
  }

  /** All three colour channels are zero. */
  predicate BlackRgb(x: Rgba) {
    x.r == 0.0 && x.g == 0.0 && x.b == 0.0
  }
}
