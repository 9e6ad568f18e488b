/** The detector's letterbox: scale a picture into a square canvas with truncated sizes and floored
    margins, and map coordinates back with the exact scale and margins. Reals stand for floats. */
module Letterbox {
  const GREY := 114

  function MinReal(a: real, b: real): real { if a <= b then a else b }

  predicate Sizes(h: int, w: int, target: int) { h > 0 && w > 0 && target > 0 }

  function Scale(h: int, w: int, target: int): real
    requires Sizes(h, w, target)
  {
    MinReal(target as real / h as real, target as real / w as real)
  }

  // The side of the resized picture.
  function Resized(side: int, scale: real): int { (side as real * scale).Floor }

  // The canvas index at which the resized picture starts.
  function Offset(target: int, resized: int): int { (target - resized) / 2 }

  // The margin the inverse mapping assumes.
  function Margin(side: int, target: int, scale: real): real { (target as real - side as real * scale) / 2.0 }

  // Where a coordinate of the picture ends up on the canvas.
  function Forward(x: real, side: int, resized: int, offset: int): real
    requires side > 0
  {
    x * (resized as real / side as real) + offset as real
  }

  function Clip(x: real, low: real, high: real): real {
    if x < low then low else if x > high then high else x
  }

  function Unmapped(c: real, side: int, target: int, scale: real): real
    requires scale > 0.0
  {
    (c - Margin(side, target, scale)) / scale
  }

  function Backward(c: real, side: int, target: int, scale: real): real
    requires scale > 0.0
  {
    Clip(Unmapped(c, side, target, scale), 0.0, side as real)
  }

  lemma ProductPositive(a: real, b: real)
    requires a > 0.0 && b > 0.0
    ensures a * b > 0.0
  {}

  // Multiplying by a positive number keeps the order.
  lemma MulCompare(a: real, b: real, c: real)
    requires c > 0.0
    ensures (a < b <==> a * c < b * c) && (a <= b <==> a * c <= b * c)
  {
    assert b * c - a * c == (b - a) * c;
    if a < b { ProductPositive(b - a, c); }
    if b < a { ProductPositive(a - b, c); assert (a - b) * c == -((b - a) * c); }
  }

  lemma Quotient(a: real, b: real)
    requires b > 0.0
    ensures a / b * b == a && (a > 0.0 ==> a / b > 0.0)
  {
    MulCompare(0.0, a / b, b);
  }

  // Either side of the scaled picture is at most the canvas, and one of them fills it.
  lemma ScaledSide(h: int, w: int, target: int)
    requires Sizes(h, w, target)
    ensures var s := Scale(h, w, target);
      s > 0.0 && 0.0 < h as real * s <= target as real && 0.0 < w as real * s <= target as real
      && (h as real * s == target as real || w as real * s == target as real)
  {
    var s, t, a, b := Scale(h, w, target), target as real, h as real, w as real;
    Quotient(t, a);
    Quotient(t, b);
    MulCompare(s, t / a, a);
    MulCompare(s, t / b, b);
    ProductPositive(a, s);
    ProductPositive(b, s);
  }

  /** The resized picture fits inside the canvas, with the margins on both sides differing by at most one. */
  lemma FitsCanvas(h: int, w: int, target: int, side: int)
    requires Sizes(h, w, target) && (side == h || side == w)
    ensures var n := Resized(side, Scale(h, w, target)); var top := Offset(target, n);
      0 <= n <= target && 0 <= top && top + n <= target && 0 <= target - (top + n) - top <= 1
  {
    ScaledSide(h, w, target);
  }

  /** The resize has something to produce exactly when the picture is not longer than the canvas
      side times its other side. */
  lemma ResizeNotEmptyIff(h: int, w: int, target: int)
    requires Sizes(h, w, target)
    ensures var s := Scale(h, w, target);
      Resized(h, s) >= 1 && Resized(w, s) >= 1 <==> h <= target * w && w <= target * h
  {
    hide Scale;
    ScaledSide(h, w, target);
    var s := Scale(h, w, target);
    if h as real * s == target as real {
      SideRatio(h, w, s, target);
    } else {
      SideRatio(w, h, s, target);
    }
  }

  lemma SideRatio(long: int, short: int, s: real, target: int)
    requires long > 0 && short > 0 && s > 0.0 && target >= 1 && long as real * s == target as real && short as real * s <= target as real
    ensures Resized(long, s) == target && (Resized(short, s) >= 1 <==> long <= target * short) && short <= target * long
  {
    hide *;
    RealRatio(long as real, short as real, s, target as real);
    CastProduct(target, short);
    CastProduct(target, long);
    WholeSide(long, s, target);
    AtLeastOne(short, s);
  }

  lemma RealRatio(long: real, short: real, s: real, target: real)
    requires long > 0.0 && short > 0.0 && s > 0.0 && target >= 1.0 && long * s == target && short * s <= target
    ensures short * s >= 1.0 <==> long <= target * short
    ensures short <= target * long
  {
    assert short * s * long == target * short by { assert short * s * long == short * (long * s); }
    MulCompare(1.0, short * s, long);
    MulCompare(long, short, s);
    MulCompare(1.0, target, long);
  }

  lemma CastProduct(a: int, b: int)
    ensures (a * b) as real == a as real * b as real
  {}

  lemma WholeSide(side: int, s: real, target: int)
    requires side as real * s == target as real
    ensures Resized(side, s) == target
  {}

  lemma AtLeastOne(side: int, s: real)
    ensures Resized(side, s) >= 1 <==> side as real * s >= 1.0
  {}

  // --- Mapping there and back ---

  lemma ShareBounds(x: real, d: real, lost: real)
    requires d > 0.0 && 0.0 <= x <= d && lost >= 0.0
    ensures 0.0 <= x / d * lost <= lost
  {
    var share := x / d;
    Quotient(x, d);
    MulCompare(0.0, share, d);
    MulCompare(share, 1.0, d);
    if lost > 0.0 {
      MulCompare(0.0, share, lost);
      MulCompare(share, 1.0, lost);
    }
  }

  // A length that lost part of a pixel maps each coordinate short by its share of the loss.
  lemma ForwardExact(x: real, d: real, n: real, scale: real, lost: real)
    requires d > 0.0 && lost == d * scale - n
    ensures x * (n / d) == x * scale - x / d * lost
  {
    var share, q := x / d, n / d;
    Quotient(x, d);
    Quotient(n, d);
    assert x * q == share * n by { assert x * q == share * d * q == share * (q * d); }
    assert share * n == share * (d * scale) - share * lost by { assert share * n == share * (d * scale - lost); }
    assert share * (d * scale) == x * scale by { assert share * (d * scale) == share * d * scale; }
  }

  lemma OffsetSlack(target: int, n: int, lost: real)
    requires 0.0 <= lost < 1.0 && n <= target
    ensures var slack := Offset(target, n) as real - (target as real - n as real - lost) / 2.0;
      lost / 2.0 - 0.5 <= slack <= lost / 2.0
  {
    var k := Offset(target, n);
    assert target - n == 2 * k || target - n == 2 * k + 1;
  }

  // How far the canvas coordinate is from the exact one: the truncated size and the floored margin
  // together cost less than a canvas pixel.
  lemma ForwardDrift(x: real, side: int, target: int, scale: real) returns (drift: real)
    requires side > 0 && scale > 0.0 && 0.0 <= x <= side as real && 0.0 <= side as real * scale <= target as real
    ensures var n := Resized(side, scale);
      Forward(x, side, n, Offset(target, n)) - Margin(side, target, scale) == x * scale + drift
    ensures -1.0 < drift < 1.0
  {
    hide Offset;
    var d, n := side as real, Resized(side, scale);
    var lost := d * scale - n as real;
    var cost := x / d * lost;
    ShareBounds(x, d, lost);
    ForwardExact(x, d, n as real, scale, lost);
    OffsetSlack(target, n, lost);
    drift := Offset(target, n) as real - (target as real - n as real - lost) / 2.0 - cost;
  }

  lemma QuotientSum(x: real, scale: real, drift: real)
    requires scale > 0.0 && -1.0 < drift < 1.0
    ensures (x * scale + drift) / scale == x + drift / scale
    ensures -(1.0 / scale) < drift / scale < 1.0 / scale
  {
    var e, u := drift / scale, 1.0 / scale;
    Quotient(drift, scale);
    Quotient(1.0, scale);
    MulCompare(e, u, scale);
    assert -u * scale == -(u * scale);
    MulCompare(-u, e, scale);
    assert (x + e) * scale == x * scale + drift;
    Cancel(x + e, scale);
  }

  lemma Cancel(a: real, b: real)
    requires b > 0.0
    ensures a * b / b == a
  {
    Quotient(a * b, b);
    MulCompare(a * b / b, a, b);
    MulCompare(a, a * b / b, b);
  }

  /** There and back: every coordinate of the picture comes back inside the picture and less than
      1/scale pixels from where it started. */
  lemma RoundTripBound(h: int, w: int, target: int, side: int, x: real)
    requires Sizes(h, w, target) && (side == h || side == w) && 0.0 <= x <= side as real
    ensures Scale(h, w, target) > 0.0
    ensures var s := Scale(h, w, target);
      var n := Resized(side, s);
      var back := Backward(Forward(x, side, n, Offset(target, n)), side, target, s);
      0.0 <= back <= side as real && -(1.0 / s) < back - x < 1.0 / s
  {
    hide Scale, Resized, Offset, Margin, Forward;
    ScaledSide(h, w, target);
    var s := Scale(h, w, target);
    var drift := ForwardDrift(x, side, target, s);
    QuotientSum(x, s, drift);
    Quotient(1.0, s);
  }

  /** Along the side that fills the canvas the way back is exact. */
  lemma RoundTripExact(h: int, w: int, target: int, side: int, x: real)
    requires Sizes(h, w, target) && (side == h || side == w) && 0.0 <= x <= side as real
    requires side as real * Scale(h, w, target) == target as real
    ensures Scale(h, w, target) > 0.0
    ensures var s := Scale(h, w, target);
      var n := Resized(side, s);
      n == target && Offset(target, n) == 0 && Backward(Forward(x, side, n, 0), side, target, s) == x
  {
    hide Scale, Resized, Forward;
    ScaledSide(h, w, target);
    var s := Scale(h, w, target);
    WholeSide(side, s, target);
    ForwardWhole(x, side, target, s);
    Cancel(x, s);
  }

  lemma ForwardWhole(x: real, side: int, target: int, s: real)
    requires side > 0 && side as real * s == target as real
    ensures Forward(x, side, target, 0) == x * s
  {
    ForwardExact(x, side as real, target as real, s, 0.0);
  }

  // --- The canvas ---

  /** The canvas holds the resized picture at its offsets and grey everywhere else. */
  method FillCanvas(resized: array2<int>, target: nat) returns (canvas: array2<int>)
    requires resized.Length0 <= target && resized.Length1 <= target
    ensures fresh(canvas) && canvas.Length0 == target && canvas.Length1 == target
    ensures var top, left := Offset(target, resized.Length0), Offset(target, resized.Length1);
      forall r, c | 0 <= r < target && 0 <= c < target ::
        canvas[r, c] ==
          if top <= r < top + resized.Length0 && left <= c < left + resized.Length1 then resized[r - top, c - left] else GREY
  {
    canvas := new int[target, target]((r, c) => GREY);
    var top, left := Offset(target, resized.Length0), Offset(target, resized.Length1);
    forall r, c | 0 <= r < resized.Length0 && 0 <= c < resized.Length1 {
      canvas[top + r, left + c] := resized[r, c];
    }
    forall r, c | top <= r < top + resized.Length0 && left <= c < left + resized.Length1
      ensures canvas[r, c] == resized[r - top, c - left]
    {
      assert canvas[top + (r - top), left + (c - left)] == resized[r - top, c - left];
    }
  }
}
