/** Geometry of the logo overlay that `generate` draws over the QR code:
    a white rounded backing plate centred on the canvas, and the logo fitted
    into a square box and centred on top of it. Everything is exact real
    arithmetic; `Math.floor` is `.Floor` and `Math.round` is `Round`. */
module Overlay {

  /** Side of the square preview canvas, in pixels. */
  const DisplaySize: int := 400
  /** Logo box side as a fraction of the canvas side. */
  const LogoScale: real := 0.2
  /** Plate padding on each side as a fraction of the logo box side. */
  const PaddingFraction: real := 0.15
  /** Corner radius as a fraction of the plate side. */
  const RadiusFraction: real := 0.15

  /** What the overlay step draws: the plate rectangle and its corner
      radius, and the rectangle the logo is drawn into. */
  datatype Layout = Layout(
    plateX: int, plateY: int, plateSize: real, radius: int,
    dx: int, dy: int, dw: real, dh: real)

  /** JavaScript's `Math.round`: the nearest integer, halves rounded up. */
  function Round(x: real): (r: int)
    ensures r as real - 0.5 <= x < r as real + 0.5
  {
    (x + 0.5).Floor
  }

  /** Offset that centres an extent on a canvas of side `display`:
      the two margins differ by less than two pixels, the far one never
      smaller. */
  function Centre(display: int, extent: real): (r: int)
    ensures 0.0 <= (display as real - extent - r as real) - r as real < 2.0
  {
    ((display as real - extent) / 2.0).Floor
  }

  /** Side of the square box the logo is fitted into: a fifth of the
      canvas side. */
  function LogoSize(display: int): (r: real)
    ensures r * 5.0 == display as real
  {
    display as real * LogoScale
  }

  /** Plate padding on each side: the whole pixels of 15% of the box. */
  function Padding(display: int): (r: int)
    ensures r as real <= LogoSize(display) * 0.15 < r as real + 1.0
    ensures display >= 0 ==> r >= 0
  {
    (LogoSize(display) * PaddingFraction).Floor
  }

  /** Side of the plate: the box with the padding on both sides, so at
      least the box and at most 30% larger. */
  function PlateSize(display: int): (r: real)
    ensures display >= 0 ==> LogoSize(display) <= r <= 1.3 * LogoSize(display)
  {
    LogoSize(display) + Padding(display) as real * 2.0
  }

  /** Corner radius of the plate: the whole pixels of 15% of its side. */
  function Radius(display: int): (r: int)
    ensures r as real <= PlateSize(display) * 0.15 < r as real + 1.0
  {
    (PlateSize(display) * RadiusFraction).Floor
  }

  /** The logo's drawn width and height for a logo of the given aspect
      ratio (width over height): one side spans the box, and the other is
      within half a pixel of what the ratio gives for it. */
  function FitLogo(box: real, aspect: real): (r: (real, real))
    requires aspect > 0.0
    ensures || (r.0 == box && -0.5 < r.1 - box / aspect <= 0.5)
            || (r.1 == box && -0.5 < r.0 - box * aspect <= 0.5)
  {
    if aspect > 1.0 then (box, Round(box / aspect) as real)
    else (Round(box * aspect) as real, box)
  }

  /** The aspect ratio of a logo of `width` by `height` pixels. */
  function Aspect(width: real, height: real): (r: real)
    requires width > 0.0 && height > 0.0
    ensures r > 0.0 && r * height == width
  {
    width / height
  }

  /** The whole overlay for a canvas of side `display` and a logo of
      `width` by `height` pixels: the plate is square and centred, the logo
      is centred by the same rule, and one side of the logo spans the
      logo box. */
  function ComputeLayout(display: int, width: int, height: int): (l: Layout)
    requires width > 0 && height > 0
    ensures l.plateX == l.plateY
    ensures 0.0 <= (display as real - l.plateX as real - l.plateSize) - l.plateX as real < 2.0
    ensures 0.0 <= (display as real - l.dx as real - l.dw) - l.dx as real < 2.0
    ensures 0.0 <= (display as real - l.dy as real - l.dh) - l.dy as real < 2.0
    ensures l.dw == LogoSize(display) || l.dh == LogoSize(display)
  {
    var plate := PlateSize(display);
    var fit := FitLogo(LogoSize(display), Aspect(width as real, height as real));
    Layout(Centre(display, plate), Centre(display, plate), plate, Radius(display),
           Centre(display, fit.0), Centre(display, fit.1), fit.0, fit.1)
  }

  /** With the component's constants the plate is 104 pixels square at
      (148, 148) with corner radius 15, around an 80-pixel logo box. */
  lemma PlateAtDisplaySize()
    ensures LogoSize(DisplaySize) == 80.0
    ensures Padding(DisplaySize) == 12
    ensures PlateSize(DisplaySize) == 104.0
    ensures Centre(DisplaySize, PlateSize(DisplaySize)) == 148
    ensures Radius(DisplaySize) == 15
  {
    assert LogoSize(DisplaySize) * PaddingFraction == 12.0;
    assert (DisplaySize as real - 104.0) / 2.0 == 148.0;
    assert PlateSize(DisplaySize) * RadiusFraction == 15.6;
  }

  /** For every positive canvas side, and whatever the logo, the plate is
      at most 0.26 of the canvas side, lies inside the canvas and is centred
      on it. */
  lemma PlateInsideCanvas(display: int, width: int, height: int)
    requires display > 0 && width > 0 && height > 0
    ensures var l := ComputeLayout(display, width, height);
      && l.plateSize <= 0.26 * display as real < display as real
      && 0 <= l.plateX && l.plateX == l.plateY
      && l.plateX as real + l.plateSize <= display as real
      && 0.0 <= (display as real - l.plateX as real - l.plateSize) - l.plateX as real < 2.0
  {
    var d := display as real;
    var p := Padding(display);
    assert 0 <= p && p as real <= d * 0.03 by {
      assert LogoSize(display) * PaddingFraction == d * 0.03;
    }
    var size := PlateSize(display);
    assert d * 0.2 <= size <= 0.26 * d;
    var x := Centre(display, size);
    assert x as real <= (d - size) / 2.0 < x as real + 1.0;
  }

  /** The corner radius is non-negative and at most half the plate side,
      so the four rounded corners fit the plate. */
  lemma RadiusFitsPlate(display: int, width: int, height: int)
    requires display > 0 && width > 0 && height > 0
    ensures var l := ComputeLayout(display, width, height);
      0 <= l.radius && 2.0 * l.radius as real <= l.plateSize
  {
    PlateInsideCanvas(display, width, height);
    var size := PlateSize(display);
    assert size >= 0.0;
    assert Radius(display) as real <= size * 0.15;
  }

  /** Aspect fit: a wide logo spans the box horizontally and its height is
      the box side scaled by height/width, rounded; any other logo spans it
      vertically and its width is the box side scaled by width/height,
      rounded. */
  lemma FitKeepsAspect(box: real, width: real, height: real)
    requires width > 0.0 && height > 0.0
    ensures var (dw, dh) := FitLogo(box, Aspect(width, height));
      && (width > height ==> dw == box && -0.5 < dh - box * height / width <= 0.5)
      && (width <= height ==> dh == box && -0.5 < dw - box * width / height <= 0.5)
  {
    RatioAboveOne(width, height);
    if width > height {
      DivideByRatio(box, width, height);
    } else {
      MultiplyByRatio(box, width, height);
    }
  }

  /** The aspect ratio exceeds one exactly when the logo is wider than tall. */
  lemma RatioAboveOne(w: real, h: real)
    requires w > 0.0 && h > 0.0
    ensures w / h > 1.0 <==> w > h
  {
    assert (w / h) * h == w;
    if w / h > 1.0 {
      assert (w / h) * h > 1.0 * h;
    }
    if w > h {
      assert (w / h - 1.0) * h == w - h;
    }
  }

  /** Scaling by the ratio w/h is multiplying by w and dividing by h. */
  lemma MultiplyByRatio(x: real, w: real, h: real)
    requires h > 0.0
    ensures x * (w / h) == x * w / h
  {
    assert (x * (w / h)) * h == x * w;
  }

  /** When the box side is a whole number of pixels, the fitted logo is a
      whole number of pixels on each side and never leaves the box. */
  lemma FitWithinBox(box: real, aspect: real)
    requires aspect > 0.0
    requires 0.0 <= box && box.Floor as real == box
    ensures var (dw, dh) := FitLogo(box, aspect);
      && dw.Floor as real == dw && dh.Floor as real == dh
      && 0.0 <= dw <= box && 0.0 <= dh <= box
  {
    if aspect > 1.0 {
      RoundedQuotient(box, aspect);
    } else {
      RoundedProduct(box, aspect);
    }
  }

  /** The rounded quotient by a ratio above one lies within a whole-number
      bound. */
  lemma RoundedQuotient(box: real, ratio: real)
    requires ratio > 1.0 && 0.0 <= box && box.Floor as real == box
    ensures 0.0 <= Round(box / ratio) as real <= box
  {
    DividedWithin(box, ratio);
    RoundWithin(box / ratio, box);
  }

  /** The rounded product with a ratio at most one lies within a
      whole-number bound. */
  lemma RoundedProduct(box: real, ratio: real)
    requires 0.0 < ratio <= 1.0 && 0.0 <= box && box.Floor as real == box
    ensures 0.0 <= Round(box * ratio) as real <= box
  {
    ScaledWithin(box, ratio);
    RoundWithin(box * ratio, box);
  }

  /** Dividing by a ratio above one shrinks a non-negative value. */
  lemma DividedWithin(x: real, ratio: real)
    requires ratio > 1.0 && x >= 0.0
    ensures 0.0 <= x / ratio <= x
  {
    var q := x / ratio;
    assert q * ratio == x;
    assert x - q == q * (ratio - 1.0);
  }

  /** Scaling by a ratio at most one shrinks a non-negative value. */
  lemma ScaledWithin(x: real, ratio: real)
    requires 0.0 < ratio <= 1.0 && x >= 0.0
    ensures 0.0 <= x * ratio <= x
  {
  }

  /** Rounding keeps a value between zero and a whole-number bound. */
  lemma RoundWithin(x: real, bound: real)
    requires 0.0 <= x <= bound && bound.Floor as real == bound
    ensures 0.0 <= Round(x) as real <= bound
  {
    var r := Round(x);
    assert r < bound.Floor + 1;
  }

  /** Dividing by the ratio w/h is scaling by h/w. */
  lemma DivideByRatio(x: real, w: real, h: real)
    requires w > 0.0 && h > 0.0
    ensures x / (w / h) == x * h / w
  {
    var q := x / (w / h);
    assert q * (w / h) == x;
    assert q * w == x * h by {
      assert q * w == q * (w / h) * h;
    }
    assert (q - x * h / w) * w == 0.0;
  }

  /** On whole numbers, halving and flooring is Euclidean division by two. */
  lemma FloorHalf(n: int)
    ensures (n as real / 2.0).Floor == n / 2
  {
    var q, m := n / 2, n % 2;
    assert n as real / 2.0 == q as real + m as real / 2.0;
  }

  /** On a canvas whose side is a multiple of five (so the logo box is a
      whole number of pixels, as 80 is for 400) the logo rectangle is
      centred by the same rule as the plate and lies inside the plate. */
  lemma LogoInsidePlate(display: int, width: int, height: int)
    requires display > 0 && display % 5 == 0
    requires width > 0 && height > 0
    ensures var l := ComputeLayout(display, width, height);
      && 0.0 <= (display as real - l.dx as real - l.dw) - l.dx as real < 2.0
      && 0.0 <= (display as real - l.dy as real - l.dh) - l.dy as real < 2.0
      && l.plateX <= l.dx && l.dx as real + l.dw <= l.plateX as real + l.plateSize
      && l.plateY <= l.dy && l.dy as real + l.dh <= l.plateY as real + l.plateSize
  {
    var box := LogoSize(display);
    assert box == (display / 5) as real;
    var aspect := Aspect(width as real, height as real);
    FitWithinBox(box, aspect);
    var (dw, dh) := FitLogo(box, aspect);
    var p := Padding(display);
    assert 0 <= p by {
      assert box * PaddingFraction >= 0.0;
    }
    ExtentInsidePlate(display, dw.Floor, display / 5, p);
    ExtentInsidePlate(display, dh.Floor, display / 5, p);
  }

  /** A whole-pixel extent no wider than the logo box, centred on the
      canvas, lies inside the plate centred the same way. */
  lemma ExtentInsidePlate(display: int, extent: int, box: int, padding: int)
    requires 0 <= extent <= box && 0 <= padding
    ensures var size := box + padding * 2;
      && Centre(display, size as real) <= Centre(display, extent as real)
      && Centre(display, extent as real) + extent <= Centre(display, size as real) + size
  {
    var size := box + padding * 2;
    FloorHalf(display - size);
    FloorHalf(display - extent);
    assert (display as real - size as real) == (display - size) as real;
    assert (display as real - extent as real) == (display - extent) as real;
  }

  /** The multiple-of-five condition of `LogoInsidePlate` is needed: on a
      7-pixel canvas the plate spans 2 to 3.4 but a square logo is drawn
      from 3 to 4, past the plate's far edge. */
  lemma LogoLeavesPlateOnSevenPixels()
    ensures var l := ComputeLayout(7, 1, 1);
      l.plateX == 2 && l.plateSize == 1.4 && l.dx == 3 && l.dw == 1.0
      && l.dx as real + l.dw > l.plateX as real + l.plateSize
  {
    assert LogoSize(7) == 1.4;
    assert Padding(7) == 0;
    assert Round(1.4 * 1.0) == 1;
  }

  /** On the 400-pixel canvas every logo is drawn within the 80-pixel box
      from (160, 160) to (240, 240), a whole number of pixels on each side. */
  lemma LogoAtDisplaySize(width: int, height: int)
    requires width > 0 && height > 0
    ensures var l := ComputeLayout(DisplaySize, width, height);
      && l.dw.Floor as real == l.dw && l.dh.Floor as real == l.dh
      && 0.0 <= l.dw <= 80.0 && 0.0 <= l.dh <= 80.0
      && 160 <= l.dx && l.dx as real + l.dw <= 240.0
      && 160 <= l.dy && l.dy as real + l.dh <= 240.0
  {
    assert LogoSize(DisplaySize) == 80.0;
    var aspect := Aspect(width as real, height as real);
    FitWithinBox(80.0, aspect);
    var (dw, dh) := FitLogo(80.0, aspect);
    FloorHalf(DisplaySize - dw.Floor);
    FloorHalf(DisplaySize - dh.Floor);
    assert DisplaySize as real - dw == (DisplaySize - dw.Floor) as real;
    assert DisplaySize as real - dh == (DisplaySize - dh.Floor) as real;
  }

  /** A 100 by 50 logo is drawn 80 by 40 at (160, 180). */
  lemma WideLogoExample()
    ensures ComputeLayout(DisplaySize, 100, 50)
         == Layout(148, 148, 104.0, 15, 160, 180, 80.0, 40.0)
  {
    PlateAtDisplaySize();
    assert Round(80.0 / 2.0) == 40;
  }

  /** A 160 by 29 logo lands on an exact half: 80 divided by 160/29 is
      14.5, which rounds up to a height of 15, drawn at (160, 192). */
  lemma HalfPixelLogoExample()
    ensures ComputeLayout(DisplaySize, 160, 29)
         == Layout(148, 148, 104.0, 15, 160, 192, 80.0, 15.0)
  {
    PlateAtDisplaySize();
    assert Aspect(160.0, 29.0) == 160.0 / 29.0;
    assert 80.0 / (160.0 / 29.0) == 14.5;
    assert Round(14.5) == 15;
  }

  /** A 50 by 100 logo is drawn 40 by 80 at (180, 160). */
  lemma TallLogoExample()
    ensures ComputeLayout(DisplaySize, 50, 100)
         == Layout(148, 148, 104.0, 15, 180, 160, 40.0, 80.0)
  {
    PlateAtDisplaySize();
    assert Round(80.0 * 0.5) == 40;
  }

  /** A square logo of any size is drawn 80 by 80 at (160, 160). */
  lemma SquareLogoExample(side: int)
    requires side > 0
    ensures ComputeLayout(DisplaySize, side, side)
         == Layout(148, 148, 104.0, 15, 160, 160, 80.0, 80.0)
  {
    PlateAtDisplaySize();
    assert side as real / side as real == 1.0;
    assert Round(80.0 * 1.0) == 80;
  }
}
