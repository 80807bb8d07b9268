/** The show logo's placement in index.ts: the image is scaled, keeping its
    aspect ratio, so that its longer side is 540 (the 600-pixel ticket height
    less 60), and centred on the point (1032, 300). Arithmetic is over the
    reals, an idealisation of the source's floating point. */
module LogoFit {
  import opened Canvas2D

  const BoxSide: real := 600.0 - 60.0
  const CenterX: real := 1032.0
  const CenterY: real := 600.0 / 2.0

  /** Where `drawImage(logo, x, y, w, h)` puts the logo. */
  datatype Placement = Placement(x: real, y: real, w: real, h: real)

  function FitLogo(logo: ImageSize): (p: Placement)
    // the longer side (the width, for a square) is the box side
    ensures logo.height > logo.width ==> p.h == 540.0 && p.w < 540.0
    ensures logo.height <= logo.width ==> p.w == 540.0 && p.h <= 540.0
    ensures 0.0 < p.w && 0.0 < p.h
    // the aspect ratio is kept: w / h == width / height
    ensures p.w * logo.height as real == p.h * logo.width as real
    // centred on (1032, 300)
    ensures p.x + p.w / 2.0 == 1032.0 && p.y + p.h / 2.0 == 300.0
  {
    var w0, h0 := logo.width as real, logo.height as real;
    if logo.height > logo.width then
      var h := BoxSide;
      var w := w0 * (h / h0);
      assert w < 540.0 by { DivLess(w0, h0, h); }
      Placement(CenterX - w / 2.0, CenterY - h / 2.0, w, h)
    else
      var w := BoxSide;
      var h := h0 * (w / w0);
      assert h <= 540.0 by { DivAtMost(h0, w0, w); }
      Placement(CenterX - w / 2.0, CenterY - h / 2.0, w, h)
  }

  lemma DivLess(a: real, b: real, c: real)
    requires 0.0 < a < b && 0.0 < c
    ensures 0.0 < a * (c / b) < c
  {
    assert a * (c / b) == c * (a / b);
    var q := a / b;
    assert q * b == a;
    if q >= 1.0 {
      assert q * b >= 1.0 * b;
    }
  }

  lemma DivAtMost(a: real, b: real, c: real)
    requires 0.0 < a <= b && 0.0 < c
    ensures 0.0 < a * (c / b) <= c
  {
    assert a * (c / b) == c * (a / b);
    assert a / b <= 1.0;
  }

  /** The placement lies inside the 540 by 540 box around (1032, 300), and so
      on the 1650 by 600 ticket. */
  lemma FitLogoInsideBox(logo: ImageSize)
    ensures var p := FitLogo(logo);
            762.0 <= p.x && p.x + p.w <= 1302.0 && 30.0 <= p.y && p.y + p.h <= 570.0
  {
  }

  /** No larger copy of the logo with the same aspect ratio fits the box:
      the placement is the aspect fit. */
  lemma FitLogoIsLargest(logo: ImageSize, w: real, h: real)
    requires 0.0 <= w <= 540.0 && 0.0 <= h <= 540.0
    requires w * logo.height as real == h * logo.width as real
    ensures w <= FitLogo(logo).w && h <= FitLogo(logo).h
  {
    var p := FitLogo(logo);
    var w0, h0 := logo.width as real, logo.height as real;
    if logo.height > logo.width {
      // h <= 540 == p.h, and w = h * w0 / h0 <= 540 * w0 / h0 == p.w
      assert w * h0 == h * w0;
      assert p.w * h0 == 540.0 * w0;
      assert h * w0 <= 540.0 * w0;
      assert w * h0 <= p.w * h0;
      ScaleCancel(w, p.w, h0);
    } else {
      assert p.h * w0 == 540.0 * h0;
      assert w * h0 <= 540.0 * h0;
      assert h * w0 <= p.h * w0;
      ScaleCancel(h, p.h, w0);
    }
  }

  lemma ScaleCancel(x: real, y: real, k: real)
    requires 0.0 < k && x * k <= y * k
    ensures x <= y
  {
  }
}
