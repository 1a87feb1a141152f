/**
 * The crop of an uploaded social image. The browser editor computes it in fractions of the image;
 * the server rounds it to pixels, clamps it and refuses it when it is too small or has the wrong
 * proportions. Lengths are exact reals here, so rounding happens only where the server rounds.
 */
module SocialCrop {

  const RATIO := 1200.0 / 630.0
  const MIN_WIDTH := 600
  const MIN_HEIGHT := 315

  /** Fractions of the image, as sent to the server. */
  datatype Crop = Crop(x: real, y: real, width: real, height: real)

  datatype Rectangle = Rectangle(left: int, top: int, width: int, height: int)

  datatype Extract = Extracted(area: Rectangle) | InvalidCrop

  function Min(a: real, b: real): real {
    if a <= b then a else b
  }

  function Abs(a: real): real {
    if a < 0.0 then -a else a
  }

  /** The share of one side that is cut out, where the other side allows `other` pixels of it. */
  function Share(own: real, other: real, zoom: real): real
    requires own > 0.0 && zoom >= 1.0
  {
    Min(1.0, other / own) / zoom
  }

  /** The editor's crop for an image, two position sliders and a zoom slider. */
  function EditorCrop(width: nat, height: nat, x: real, y: real, zoom: real): Crop
    requires width > 0 && height > 0 && zoom >= 1.0
  {
    var w := Share(width as real, height as real * RATIO, zoom);
    var h := Share(height as real, width as real / RATIO, zoom);
    Crop((1.0 - w) * x, (1.0 - h) * y, w, h)
  }

  /** What the shared input schema lets through. */
  predicate InSchema(c: Crop) {
    && 0.0 <= c.x <= 1.0 && 0.0 <= c.y <= 1.0
    && 0.0 < c.width <= 1.0 && 0.0 < c.height <= 1.0
    && c.x + c.width <= 1.000001 && c.y + c.height <= 1.000001
  }

  /** The tighter bound that the editor meets: the crop ends inside the image. */
  predicate Inside(c: Crop) {
    && 0.0 <= c.x && 0.0 <= c.y && 0.0 < c.width && 0.0 < c.height
    && c.x + c.width <= 1.0 && c.y + c.height <= 1.0
  }

  /** JavaScript's `Math.round`: ties go up. */
  function Round(a: real): int {
    (a + 0.5).Floor
  }

  /** Start and length of one axis in pixels: rounded, the length clamped to what is left. */
  function Span(offset: real, length: real, size: nat): (int, int) {
    var start := Round(offset * size as real);
    var rounded := Round(length * size as real);
    (start, if size - start <= rounded then size - start else rounded)
  }

  function Pixels(c: Crop, width: nat, height: nat): Rectangle {
    var (left, w) := Span(c.x, c.width, width);
    var (top, h) := Span(c.y, c.height, height);
    Rectangle(left, top, w, h)
  }

  function Normalize(c: Crop, width: nat, height: nat): Extract {
    var area := Pixels(c, width, height);
    if area.width < MIN_WIDTH || area.height < MIN_HEIGHT then InvalidCrop
    else if Abs(area.width as real / area.height as real - RATIO) > 0.02 then InvalidCrop
    else Extracted(area)
  }

  /** The width in pixels of the largest area of the right proportions, shrunk by the zoom. */
  function ExactWidth(width: nat, height: nat, zoom: real): real
    requires zoom >= 1.0
  {
    Min(width as real, height as real * RATIO) / zoom
  }

  lemma {:induction false} QuotientAtMost(a: real, b: real, c: real)
    requires b > 0.0 && a <= c * b
    ensures a / b <= c
  {
    var q := a / b;
    assert q * b == a;
    assert (q - c) * b <= 0.0;
  }

  lemma {:induction false} QuotientAtLeast(a: real, b: real, c: real)
    requires b > 0.0 && c * b <= a
    ensures c <= a / b
  {
    var q := a / b;
    assert q * b == a;
    assert (c - q) * b <= 0.0;
  }

  lemma {:induction false} QuotientPositive(a: real, b: real)
    requires a > 0.0 && b > 0.0
    ensures a / b > 0.0
  {
    var q := a / b;
    assert q * b == a;
    assert !(q <= 0.0 && b > 0.0) || q * b <= 0.0;
  }

  /** One side of the crop before the zoom: the image's own side, or what the other side allows. */
  lemma Side(own: real, other: real)
    requires own > 0.0 && other > 0.0
    ensures 0.0 < Min(1.0, other / own) <= 1.0
    ensures Min(1.0, other / own) * own == Min(own, other)
  {
    QuotientPositive(other, own);
    if own <= other {
      QuotientAtLeast(other, own, 1.0);
    } else {
      QuotientAtMost(other, own, 1.0);
      assert other / own * own == other;
    }
  }

  lemma ShareOf(own: real, other: real, zoom: real)
    requires own > 0.0 && other > 0.0 && zoom >= 1.0
    ensures 0.0 < Share(own, other, zoom) <= 1.0
    ensures Share(own, other, zoom) * own == Min(own, other) / zoom
  {
    Side(own, other);
    var side := Min(1.0, other / own);
    hide Min;
    QuotientPositive(side, zoom);
    QuotientAtMost(side, zoom, 1.0);
    Commute(side, own, zoom);
  }

  lemma Commute(a: real, b: real, zoom: real)
    requires zoom >= 1.0
    ensures a / zoom * b == a * b / zoom
  {
  }

  /** Both sides of the editor's crop are the same exact length, measured along their own axis. */
  lemma EditorSides(width: nat, height: nat, x: real, y: real, zoom: real)
    requires width > 0 && height > 0 && zoom >= 1.0
    ensures EditorCrop(width, height, x, y, zoom).width * width as real == ExactWidth(width, height, zoom)
    ensures EditorCrop(width, height, x, y, zoom).height * height as real == ExactWidth(width, height, zoom) / RATIO
    ensures 0.0 < EditorCrop(width, height, x, y, zoom).width <= 1.0
    ensures 0.0 < EditorCrop(width, height, x, y, zoom).height <= 1.0
  {
    hide Share;
    var W, H := width as real, height as real;
    ShareOf(W, H * RATIO, zoom);
    ShareOf(H, W / RATIO, zoom);
    var area := Min(W, H * RATIO);
    assert Min(H, W / RATIO) == area / RATIO;
    hide Min;
    Commute(area, 1.0 / RATIO, zoom);
  }

  lemma NonNegative(a: real, b: real)
    requires a >= 0.0 && b >= 0.0
    ensures a * b >= 0.0
  {
  }

  lemma Offset(length: real, slider: real)
    requires 0.0 < length <= 1.0 && 0.0 <= slider <= 1.0
    ensures 0.0 <= (1.0 - length) * slider <= 1.0 - length
  {
    NonNegative(1.0 - length, slider);
    NonNegative(1.0 - length, 1.0 - slider);
    assert (1.0 - length) * (1.0 - slider) == (1.0 - length) - (1.0 - length) * slider;
  }

  /** Every crop the editor can produce lies inside the image and passes the schema. */
  lemma EditorStaysInside(width: nat, height: nat, x: real, y: real, zoom: real)
    requires width > 0 && height > 0 && zoom >= 1.0 && 0.0 <= x <= 1.0 && 0.0 <= y <= 1.0
    ensures Inside(EditorCrop(width, height, x, y, zoom))
    ensures InSchema(EditorCrop(width, height, x, y, zoom))
  {
    EditorSides(width, height, x, y, zoom);
    var c := EditorCrop(width, height, x, y, zoom);
    Offset(c.width, x);
    Offset(c.height, y);
  }

  /** Rounding the start and clamping the length move a length by at most half a pixel. */
  lemma {:induction false} HalfPixel(offset: real, length: real, size: nat)
    requires 0.0 <= offset && 0.0 < length && offset + length <= 1.0
    ensures 0 <= Span(offset, length, size).0
    ensures Abs(Span(offset, length, size).1 as real - length * size as real) <= 0.5
  {
    var s := size as real;
    assert offset * s >= 0.0;
    assert (1.0 - offset - length) * s >= 0.0;
    assert (1.0 - offset - length) * s == s - offset * s - length * s;
  }

  /** A crop that passes the schema is met to the pixel: its start to half of one, and its length too, but
      for what the schema lets stick out of the image, a millionth of its side. */
  lemma {:induction false} SchemaSpan(offset: real, length: real, size: nat)
    requires 0.0 <= offset && 0.0 < length && offset + length <= 1.000001
    ensures Abs(Span(offset, length, size).0 as real - offset * size as real) <= 0.5
    ensures Abs(Span(offset, length, size).1 as real - length * size as real) <= 0.5 + 0.000001 * size as real
  {
    var s := size as real;
    assert (1.000001 - offset - length) * s >= 0.0;
    assert (1.000001 - offset - length) * s == 1.000001 * s - offset * s - length * s;
  }

  /** So the extracted area is the crop that was sent. */
  lemma ExtractedIsTheCrop(c: Crop, width: nat, height: nat)
    requires InSchema(c) && Normalize(c, width, height).Extracted?
    ensures var area := Normalize(c, width, height).area;
      && Abs(area.left as real - c.x * width as real) <= 0.5
      && Abs(area.top as real - c.y * height as real) <= 0.5
      && Abs(area.width as real - c.width * width as real) <= 0.5 + 0.000001 * width as real
      && Abs(area.height as real - c.height * height as real) <= 0.5 + 0.000001 * height as real
  {
    SchemaSpan(c.x, c.width, width);
    SchemaSpan(c.y, c.height, height);
    hide Span;
  }

  /** Whatever passes the schema and the server's checks is an area inside the image, and large enough. */
  lemma {:induction false} ExtractedInside(c: Crop, width: nat, height: nat)
    requires InSchema(c) && Normalize(c, width, height).Extracted?
    ensures var area := Normalize(c, width, height).area;
      && 0 <= area.left && area.left + area.width <= width && MIN_WIDTH <= area.width
      && 0 <= area.top && area.top + area.height <= height && MIN_HEIGHT <= area.height
  {
    assert c.x * width as real >= 0.0;
    assert c.y * height as real >= 0.0;
  }

  /** Two lengths in the right proportion, each off by half a pixel, are off in proportion by this much. */
  lemma RatioError(cw: int, ch: int, exact: real)
    requires ch > 0
    requires Abs(cw as real - exact) <= 0.5
    requires Abs(ch as real - exact / RATIO) <= 0.5
    ensures Abs(cw as real / ch as real - RATIO) <= 0.5 * (1.0 + RATIO) / ch as real
  {
    var w, h := cw as real, ch as real;
    var e := 0.5 * (1.0 + RATIO) / h;
    assert e * h == 0.5 * (1.0 + RATIO);
    Product(RATIO, e, h);
    assert exact == exact / RATIO * RATIO;
    assert w <= exact + 0.5 <= RATIO * (h + 0.5) + 0.5;
    assert w >= exact - 0.5 >= RATIO * (h - 0.5) - 0.5;
    QuotientAtMost(w, h, RATIO + e);
    QuotientAtLeast(w, h, RATIO - e);
  }

  lemma Product(a: real, e: real, h: real)
    ensures (a + e) * h == a * h + e * h
    ensures (a - e) * h == a * h - e * h
  {
  }

  /** From the smallest accepted height on, that error is below the server's tolerance. */
  lemma {:induction false} BelowTolerance(ch: int)
    requires ch >= MIN_HEIGHT
    ensures 0.5 * (1.0 + RATIO) / ch as real < 0.02
  {
    QuotientAtMost(0.5 * (1.0 + RATIO), ch as real, 0.01);
  }

  /** The pixel sizes of an editor crop are within half a pixel of its exact sizes. */
  lemma EditorPixels(width: nat, height: nat, x: real, y: real, zoom: real)
    requires width > 0 && height > 0 && zoom >= 1.0 && 0.0 <= x <= 1.0 && 0.0 <= y <= 1.0
    ensures var area := Pixels(EditorCrop(width, height, x, y, zoom), width, height);
      && Abs(area.width as real - ExactWidth(width, height, zoom)) <= 0.5
      && Abs(area.height as real - ExactWidth(width, height, zoom) / RATIO) <= 0.5
  {
    hide EditorCrop;
    hide ExactWidth;
    hide Span;
    EditorStaysInside(width, height, x, y, zoom);
    EditorSides(width, height, x, y, zoom);
    var c := EditorCrop(width, height, x, y, zoom);
    HalfPixel(c.x, c.width, width);
    HalfPixel(c.y, c.height, height);
  }

  lemma Slid(offset: real, length: real, slider: real, size: nat, exact: real)
    requires offset == (1.0 - length) * slider && length * size as real == exact
    ensures Abs(Span(offset, length, size).0 as real - slider * (size as real - exact)) <= 0.5
  {
    assert (1.0 - length) * slider * size as real == slider * (size as real - exact);
  }

  lemma EditorOffsets(width: nat, height: nat, x: real, y: real, zoom: real)
    requires width > 0 && height > 0 && zoom >= 1.0
    ensures var c := EditorCrop(width, height, x, y, zoom);
      c.x == (1.0 - c.width) * x && c.y == (1.0 - c.height) * y
  {
    hide Share;
  }

  /** The sliders place the area: they divide the room that is left beside and above it, to half a pixel. */
  lemma SlidersPlace(width: nat, height: nat, x: real, y: real, zoom: real)
    requires width > 0 && height > 0 && zoom >= 1.0 && 0.0 <= x <= 1.0 && 0.0 <= y <= 1.0
    ensures var area := Pixels(EditorCrop(width, height, x, y, zoom), width, height);
      var exact := ExactWidth(width, height, zoom);
      && Abs(area.left as real - x * (width as real - exact)) <= 0.5
      && Abs(area.top as real - y * (height as real - exact / RATIO)) <= 0.5
  {
    hide EditorCrop, ExactWidth, Span, Abs;
    EditorSides(width, height, x, y, zoom);
    EditorOffsets(width, height, x, y, zoom);
    var c, exact := EditorCrop(width, height, x, y, zoom), ExactWidth(width, height, zoom);
    Slid(c.x, c.width, x, width, exact);
    Slid(c.y, c.height, y, height, exact / RATIO);
  }

  /**
   * For an editor crop the proportion check never decides: the server accepts exactly the crops
   * that are large enough in pixels.
   */
  lemma EditorAccepted(width: nat, height: nat, x: real, y: real, zoom: real)
    requires width > 0 && height > 0 && zoom >= 1.0 && 0.0 <= x <= 1.0 && 0.0 <= y <= 1.0
    ensures var c := EditorCrop(width, height, x, y, zoom);
      var area := Pixels(c, width, height);
      && (area.width >= MIN_WIDTH && area.height >= MIN_HEIGHT ==> Normalize(c, width, height) == Extracted(area))
      && (area.width < MIN_WIDTH || area.height < MIN_HEIGHT ==> Normalize(c, width, height) == InvalidCrop)
  {
    var area := Pixels(EditorCrop(width, height, x, y, zoom), width, height);
    EditorPixels(width, height, x, y, zoom);
    if area.height >= MIN_HEIGHT {
      RatioError(area.width, area.height, ExactWidth(width, height, zoom));
      BelowTolerance(area.height);
    }
  }

  /** In terms of the zoom alone: sure from 600 exact pixels on, refused below 599.5. */
  lemma ZoomDecides(width: nat, height: nat, x: real, y: real, zoom: real)
    requires width > 0 && height > 0 && zoom >= 1.0 && 0.0 <= x <= 1.0 && 0.0 <= y <= 1.0
    ensures ExactWidth(width, height, zoom) >= 600.0
      ==> Normalize(EditorCrop(width, height, x, y, zoom), width, height).Extracted?
    ensures ExactWidth(width, height, zoom) < 599.5
      ==> Normalize(EditorCrop(width, height, x, y, zoom), width, height).InvalidCrop?
  {
    EditorPixels(width, height, x, y, zoom);
    EditorAccepted(width, height, x, y, zoom);
    var exact := ExactWidth(width, height, zoom);
    if exact >= 600.0 {
      assert exact / RATIO >= 315.0;
    }
  }

  /** Without zoom, every image of at least 600 by 315 pixels can be used, wherever the sliders are. */
  lemma LargeEnoughImages(width: nat, height: nat, x: real, y: real)
    requires width >= MIN_WIDTH && height >= MIN_HEIGHT && 0.0 <= x <= 1.0 && 0.0 <= y <= 1.0
    ensures Normalize(EditorCrop(width, height, x, y, 1.0), width, height).Extracted?
  {
    assert height as real * RATIO >= 600.0;
    ZoomDecides(width, height, x, y, 1.0);
  }

  /** The proportion check is not idle: a hand-made crop inside the image and large enough can fail it. */
  lemma HandMadeCropRefused()
    ensures var c := Crop(0.0, 0.0, 0.5, 1.0);
      && Inside(c) && InSchema(c)
      && Pixels(c, 1400, 630).width >= MIN_WIDTH && Pixels(c, 1400, 630).height >= MIN_HEIGHT
      && Normalize(c, 1400, 630) == InvalidCrop
  {
    var c := Crop(0.0, 0.0, 0.5, 1.0);
    assert Pixels(c, 1400, 630) == Rectangle(0, 0, 700, 630);
  }
}
