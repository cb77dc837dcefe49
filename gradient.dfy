/**
  The shader's central-difference gradient magnitude, `gradientColor()`.
  GLSL's `sqrt` is the non-negative square root; it is defined here by
  choice, so the gradient is a ghost function.
*/
module Gradient {
  import opened Color
  import opened Kernels

  /** `y * y`. */
  function Square(y: real): real {
    y * y
  }

  /** `abs(y)`. */
  function Abs(y: real): real {
    if y < 0.0 then -y else y
  }

  /** `y` is a non-negative square root of `x`. */
  ghost predicate IsRoot(y: real, x: real) {
    y >= 0.0 && Square(y) == x
  }

  /** `x` has a non-negative square root. */
  ghost predicate HasRoot(x: real) {
    exists y :: IsRoot(y, x)
  }

  /** Some non-negative square root of `x`. */
  ghost function Root(x: real): (r: real)
    requires HasRoot(x)
    ensures IsRoot(r, x)
  {
    var y :| IsRoot(y, x); y
  }

  /** GLSL `sqrt`: the non-negative square root of `x`, and 0 where no root is known. */
  ghost function Sqrt(x: real): (r: real)
    ensures r >= 0.0
  {
    if HasRoot(x) then Root(x) else 0.0
  }

  /** Squaring is strictly increasing on the non-negative reals. */
  lemma SquareMonotone(y: real, z: real)
    requires 0.0 <= z < y
    ensures Square(z) < Square(y)
  {
    var d := y - z;
    assert y + z > 0.0;
    assert Square(y) - Square(z) == d * (y + z);
    assert d * (y + z) > 0.0;
  }

  /** Two non-negative numbers with the same square are equal. */
  lemma SquareInjective(y: real, z: real)
    requires y >= 0.0 && z >= 0.0 && Square(y) == Square(z)
    ensures y == z
  {
    if z < y {
      SquareMonotone(y, z);
    } else if y < z {
      SquareMonotone(z, y);
    }
  }

  /** `sqrt(y * y) == abs(y)`. */
  lemma SqrtOfSquare(y: real)
    ensures Sqrt(Square(y)) == Abs(y)
  {
    assert IsRoot(Abs(y), Square(y));
    var r := Sqrt(Square(y));
    assert r >= 0.0 && Square(r) == Square(y);
    SquareInjective(r, Abs(y));
  }

  /** One channel of `sqrt(dy * dy + dx * dx)`. */
  ghost function Magnitude(dy: real, dx: real): real {
    Sqrt(Square(dy) + Square(dx))
  }

  /** One channel of `gradientColor()`: `dy = (up - down) * 0.5`, `dx = (right - left) * 0.5`. */
  ghost function ChannelGradient(up: real, down: real, left: real, right: real): (r: real)
    ensures r >= 0.0
  {
    Magnitude((up - down) * 0.5, (right - left) * 0.5)
  }

  /**
    `gradientColor()`: half the differences up-minus-down and right-minus-left,
    combined into a per-channel Euclidean magnitude; alpha is set to 1.
  */
  ghost function GradientOf(s: Sampler): (r: Rgba)
    ensures r.a == 1.0
    ensures r.r >= 0.0 && r.g >= 0.0 && r.b >= 0.0
  {
    var up, down, left, right := s(0, 1), s(0, -1), s(-1, 0), s(1, 0);
    Rgba(ChannelGradient(up.r, down.r, left.r, right.r),
         ChannelGradient(up.g, down.g, left.g, right.g),
         ChannelGradient(up.b, down.b, left.b, right.b), 1.0)
  }

  /** With no vertical change the magnitude is the absolute horizontal change, and vice versa. */
  lemma MagnitudeOneAxis(d: real)
    ensures Magnitude(0.0, d) == Abs(d) && Magnitude(d, 0.0) == Abs(d)
  {
    assert Square(0.0) + Square(d) == Square(d);
    assert Square(d) + Square(0.0) == Square(d);
    SqrtOfSquare(d);
  }

  /** One channel of a gradient whose difference along the other axis is zero. */
  lemma FlatAxis(same: real, same': real, hi: real, lo: real)
    requires same == same'
    ensures Magnitude((same - same') * 0.5, (hi - lo) * 0.5) == Abs(hi - lo) / 2.0
    ensures Magnitude((hi - lo) * 0.5, (same - same') * 0.5) == Abs(hi - lo) / 2.0
  {
    var d := (hi - lo) * 0.5;
    assert (same - same') * 0.5 == 0.0;
    assert Abs(d) == Abs(hi - lo) / 2.0;
    MagnitudeOneAxis(d);
  }

  /** A channel with equal samples above and below: half the absolute change from left to right. */
  lemma FlatVertical(up: real, down: real, left: real, right: real)
    requires up == down
    ensures ChannelGradient(up, down, left, right) == Abs(right - left) / 2.0
  {
    FlatAxis(up, down, right, left);
  }

  /** A channel with equal samples left and right: half the absolute change from down to up. */
  lemma FlatHorizontal(up: real, down: real, left: real, right: real)
    requires left == right
    ensures ChannelGradient(up, down, left, right) == Abs(up - down) / 2.0
  {
    FlatAxis(right, left, up, down);
  }

  /** The gradient of a uniform neighbourhood is opaque black. */
  lemma GradientUniform(s: Sampler, c: Rgba)
    requires Uniform(s, c)
    ensures GradientOf(s) == Rgba(0.0, 0.0, 0.0, 1.0)
  {
    assert s(0, 1) == c && s(0, -1) == c && s(-1, 0) == c && s(1, 0) == c;
    MagnitudeOneAxis(0.0);
  }

  /**
    Where the samples above and below agree, each colour channel of the
    gradient is half the absolute difference between right and left.
  */
  lemma GradientWithoutVerticalChange(s: Sampler)
    requires s(0, 1) == s(0, -1)
    ensures GradientOf(s).r == Abs(s(1, 0).r - s(-1, 0).r) / 2.0
    ensures GradientOf(s).g == Abs(s(1, 0).g - s(-1, 0).g) / 2.0
    ensures GradientOf(s).b == Abs(s(1, 0).b - s(-1, 0).b) / 2.0
  {
    var u, d, l, r := s(0, 1), s(0, -1), s(-1, 0), s(1, 0);
    FlatVertical(u.r, d.r, l.r, r.r);
    FlatVertical(u.g, d.g, l.g, r.g);
    FlatVertical(u.b, d.b, l.b, r.b);
  }

  /**
    Where the samples left and right agree, each colour channel of the
    gradient is half the absolute difference between up and down.
  */
  lemma GradientWithoutHorizontalChange(s: Sampler)
    requires s(1, 0) == s(-1, 0)
    ensures GradientOf(s).r == Abs(s(0, 1).r - s(0, -1).r) / 2.0
    ensures GradientOf(s).g == Abs(s(0, 1).g - s(0, -1).g) / 2.0
    ensures GradientOf(s).b == Abs(s(0, 1).b - s(0, -1).b) / 2.0
  {
    var u, d, l, r := s(0, 1), s(0, -1), s(-1, 0), s(1, 0);
    FlatHorizontal(u.r, d.r, l.r, r.r);
    FlatHorizontal(u.g, d.g, l.g, r.g);
    FlatHorizontal(u.b, d.b, l.b, r.b);
  }
}
