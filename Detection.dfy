/**
 * The computational part of the detection overlay of the flight screen
 * (`HudViewController.drawDetections`): every inference produced by the
 * object-detection model is turned into an overlay descriptor whose border
 * rectangle is the inference's rectangle scaled from image-pixel space into
 * overlay-view space and then clamped to the view's edges, and whose label is
 * the class name followed by the truncated confidence percentage.
 *
 * Geometry is over `real` (CGFloat without rounding). Text measurement is a
 * function value supplied by the caller.
 */
module Detection {
  import opened Wrappers

  /** A CGRect: an origin and a size; either size may be negative. */
  datatype Rect = Rect(x: real, y: real, width: real, height: real) {

    /** CGRect.maxX: the largest x-coordinate of the rectangle. */
    function MaxX(): real {
      if width < 0.0 then x else x + width
    }

    /** CGRect.maxY: the largest y-coordinate of the rectangle. */
    function MaxY(): real {
      if height < 0.0 then y else y + height
    }
  }

  /** A CGSize. */
  datatype Size = Size(width: real, height: real)

  /** One model output: a rectangle in image-pixel space, a class name, a confidence, a colour. */
  datatype Inference<Color> = Inference(rect: Rect, className: string, confidence: real, displayColor: Color)

  /** What the overlay view paints for one inference. */
  datatype ObjectOverlay<Color, Font> =
    ObjectOverlay(name: string, borderRect: Rect, nameStringSize: Size, color: Color, font: Font)

  function Min(a: real, b: real): real { if a <= b then a else b }

  function Max(a: real, b: real): real { if a <= b then b else a }

  // ---------------------------------------------------------------------------
  // Scaling from image space into view space
  // ---------------------------------------------------------------------------

  /**
   * `r.applying(CGAffineTransform(scaleX: sx, y: sy))`: the smallest rectangle
   * that holds the four scaled corners of `r`.
   */
  function Scaled(r: Rect, sx: real, sy: real): Rect {
    var x0, x1 := r.x * sx, (r.x + r.width) * sx;
    var y0, y1 := r.y * sy, (r.y + r.height) * sy;
    Rect(Min(x0, x1), Min(y0, y1), Max(x0, x1) - Min(x0, x1), Max(y0, y1) - Min(y0, y1))
  }

  /** A scaled rectangle never has a negative size, and its edges are the scaled edges of the original. */
  lemma ScaledEdges(r: Rect, sx: real, sy: real)
    ensures var s := Scaled(r, sx, sy);
            && s.width >= 0.0 && s.height >= 0.0
            && {s.x, s.MaxX()} == {r.x * sx, (r.x + r.width) * sx}
            && {s.y, s.MaxY()} == {r.y * sy, (r.y + r.height) * sy}
  {
    var s := Scaled(r, sx, sy);
    var x0, x1 := r.x * sx, (r.x + r.width) * sx;
    var y0, y1 := r.y * sy, (r.y + r.height) * sy;
    if x0 <= x1 {
      assert s.x == x0 && s.MaxX() == x1;
    } else {
      assert s.x == x1 && s.MaxX() == x0;
    }
    if y0 <= y1 {
      assert s.y == y0 && s.MaxY() == y1;
    } else {
      assert s.y == y1 && s.MaxY() == y0;
    }
  }

  /** For a rectangle of non-negative size and non-negative factors, scaling is plain multiplication. */
  lemma ScaledExactly(r: Rect, sx: real, sy: real)
    requires r.width >= 0.0 && r.height >= 0.0 && sx >= 0.0 && sy >= 0.0
    ensures Scaled(r, sx, sy) == Rect(r.x * sx, r.y * sy, r.width * sx, r.height * sy)
  {
    assert (r.x + r.width) * sx == r.x * sx + r.width * sx;
    assert (r.y + r.height) * sy == r.y * sy + r.height * sy;
    assert r.width * sx >= 0.0;
    assert r.height * sy >= 0.0;
  }

  /** The inference rectangle in view space, before any clamp: x-coordinates scaled by boundsW/imageW, y by boundsH/imageH. */
  function ToViewSpace(r: Rect, imageSize: Size, bounds: Rect): Rect
    requires imageSize.width > 0.0 && imageSize.height > 0.0
  {
    Scaled(r, bounds.width / imageSize.width, bounds.height / imageSize.height)
  }

  // ---------------------------------------------------------------------------
  // The four edge clamps, in the order the overlay applies them
  // ---------------------------------------------------------------------------

  /** A rectangle starting left of the view is moved to x = edgeOffset. */
  function ClampLeft(r: Rect, edgeOffset: real): Rect {
    if r.x < 0.0 then r.(x := edgeOffset) else r
  }

  /** A rectangle starting above the view is moved to y = edgeOffset. */
  function ClampTop(r: Rect, edgeOffset: real): Rect {
    if r.y < 0.0 then r.(y := edgeOffset) else r
  }

  /** A rectangle reaching below the view is cut to end edgeOffset above the view's bottom. */
  function ClampBottom(r: Rect, bounds: Rect, edgeOffset: real): Rect {
    if r.MaxY() > bounds.MaxY() then r.(height := bounds.MaxY() - r.y - edgeOffset) else r
  }

  /** A rectangle reaching right of the view is cut to end edgeOffset left of the view's right edge. */
  function ClampRight(r: Rect, bounds: Rect, edgeOffset: real): Rect {
    if r.MaxX() > bounds.MaxX() then r.(width := bounds.MaxX() - r.x - edgeOffset) else r
  }

  /** The border rectangle of an overlay: scaled, then clamped left, top, bottom, right. */
  function ConvertedRect(r: Rect, imageSize: Size, bounds: Rect, edgeOffset: real): Rect
    requires imageSize.width > 0.0 && imageSize.height > 0.0
  {
    var scaled := ToViewSpace(r, imageSize, bounds);
    ClampRight(ClampBottom(ClampTop(ClampLeft(scaled, edgeOffset), edgeOffset), bounds, edgeOffset), bounds, edgeOffset)
  }

  /** The origin is the scaled origin, except that a negative coordinate becomes edgeOffset. */
  lemma ClampedOrigin(r: Rect, imageSize: Size, bounds: Rect, edgeOffset: real)
    requires imageSize.width > 0.0 && imageSize.height > 0.0
    ensures var s, c := ToViewSpace(r, imageSize, bounds), ConvertedRect(r, imageSize, bounds, edgeOffset);
            && c.x == (if s.x < 0.0 then edgeOffset else s.x)
            && c.y == (if s.y < 0.0 then edgeOffset else s.y)
  {
  }

  /**
   * The bottom clamp looks at the bottom computed from the already clamped y:
   * when that passes the view's bottom, the rectangle ends exactly edgeOffset
   * above it; otherwise the height is the scaled height (the top clamp never
   * changes the height).
   */
  lemma ClampedHeight(r: Rect, imageSize: Size, bounds: Rect, edgeOffset: real)
    requires imageSize.width > 0.0 && imageSize.height > 0.0
    ensures var s, c := ToViewSpace(r, imageSize, bounds), ConvertedRect(r, imageSize, bounds, edgeOffset);
            && (c.y + s.height > bounds.MaxY() ==> c.height == bounds.MaxY() - c.y - edgeOffset)
            && (c.y + s.height > bounds.MaxY() ==> c.y + c.height == bounds.MaxY() - edgeOffset)
            && (c.y + s.height <= bounds.MaxY() ==> c.height == s.height)
  {
  }

  /** The right clamp is the same rule on the x-axis, using the already clamped x. */
  lemma ClampedWidth(r: Rect, imageSize: Size, bounds: Rect, edgeOffset: real)
    requires imageSize.width > 0.0 && imageSize.height > 0.0
    ensures var s, c := ToViewSpace(r, imageSize, bounds), ConvertedRect(r, imageSize, bounds, edgeOffset);
            && (c.x + s.width > bounds.MaxX() ==> c.width == bounds.MaxX() - c.x - edgeOffset)
            && (c.x + s.width > bounds.MaxX() ==> c.x + c.width == bounds.MaxX() - edgeOffset)
            && (c.x + s.width <= bounds.MaxX() ==> c.width == s.width)
  {
  }

  /** The horizontal result depends only on the horizontal inputs. */
  lemma HorizontalIndependent(r1: Rect, r2: Rect, imageSize: Size, bounds: Rect, edgeOffset: real)
    requires imageSize.width > 0.0 && imageSize.height > 0.0
    requires r1.x == r2.x && r1.width == r2.width
    ensures var c1, c2 := ConvertedRect(r1, imageSize, bounds, edgeOffset), ConvertedRect(r2, imageSize, bounds, edgeOffset);
            c1.x == c2.x && c1.width == c2.width
  {
    var s1, s2 := ToViewSpace(r1, imageSize, bounds), ToViewSpace(r2, imageSize, bounds);
    assert s1.x == s2.x && s1.width == s2.width;
    ClampedOrigin(r1, imageSize, bounds, edgeOffset);
    ClampedOrigin(r2, imageSize, bounds, edgeOffset);
    ClampedWidth(r1, imageSize, bounds, edgeOffset);
    ClampedWidth(r2, imageSize, bounds, edgeOffset);
  }

  /** The vertical result depends only on the vertical inputs. */
  lemma VerticalIndependent(r1: Rect, r2: Rect, imageSize: Size, bounds: Rect, edgeOffset: real)
    requires imageSize.width > 0.0 && imageSize.height > 0.0
    requires r1.y == r2.y && r1.height == r2.height
    ensures var c1, c2 := ConvertedRect(r1, imageSize, bounds, edgeOffset), ConvertedRect(r2, imageSize, bounds, edgeOffset);
            c1.y == c2.y && c1.height == c2.height
  {
    var s1, s2 := ToViewSpace(r1, imageSize, bounds), ToViewSpace(r2, imageSize, bounds);
    assert s1.y == s2.y && s1.height == s2.height;
    ClampedOrigin(r1, imageSize, bounds, edgeOffset);
    ClampedOrigin(r2, imageSize, bounds, edgeOffset);
    ClampedHeight(r1, imageSize, bounds, edgeOffset);
    ClampedHeight(r2, imageSize, bounds, edgeOffset);
  }

  /**
   * When no clamp fires, the border rectangle is the inference rectangle with
   * x and width multiplied by boundsW/imageW and y and height by boundsH/imageH.
   */
  lemma NoClampIsPureScale(r: Rect, imageSize: Size, bounds: Rect, edgeOffset: real)
    requires imageSize.width > 0.0 && imageSize.height > 0.0
    requires r.width >= 0.0 && r.height >= 0.0 && bounds.width >= 0.0 && bounds.height >= 0.0
    requires var s := ToViewSpace(r, imageSize, bounds);
             s.x >= 0.0 && s.y >= 0.0 && s.MaxX() <= bounds.MaxX() && s.MaxY() <= bounds.MaxY()
    ensures var sx, sy := bounds.width / imageSize.width, bounds.height / imageSize.height;
            ConvertedRect(r, imageSize, bounds, edgeOffset) == Rect(r.x * sx, r.y * sy, r.width * sx, r.height * sy)
  {
    ScaledExactly(r, bounds.width / imageSize.width, bounds.height / imageSize.height);
  }

  /** A box off the left edge and sticking out at the bottom: x moves to the margin, the height shrinks to 8. */
  lemma DegenerateClampScenario()
    ensures ConvertedRect(Rect(-10.0, 190.0, 30.0, 30.0), Size(200.0, 200.0), Rect(0.0, 0.0, 200.0, 200.0), 2.0)
            == Rect(2.0, 190.0, 30.0, 8.0)
  {
    ScaledExactly(Rect(-10.0, 190.0, 30.0, 30.0), 1.0, 1.0);
  }

  /** A box near the bottom edge whose clamped height becomes negative; it is still a rectangle the overlay keeps. */
  lemma NegativeHeightScenario()
    ensures ConvertedRect(Rect(10.0, 199.0, 20.0, 30.0), Size(200.0, 200.0), Rect(0.0, 0.0, 200.0, 200.0), 2.0)
            == Rect(10.0, 199.0, 20.0, -1.0)
  {
    ScaledExactly(Rect(10.0, 199.0, 20.0, 30.0), 1.0, 1.0);
  }

  // ---------------------------------------------------------------------------
  // The label text
  // ---------------------------------------------------------------------------

  /**
   * Swift's `Int(v)` for a floating-point `v`: rounds toward zero, which for a
   * non-negative value is the floor.
   */
  function Truncate(v: real): (t: int)
    ensures 0.0 <= v ==> t as real <= v < t as real + 1.0
    ensures v < 0.0 ==> t as real - 1.0 < v <= t as real
  {
    if v >= 0.0 then v.Floor else -((-v).Floor)
  }

  /** The integer percentage shown for a confidence. */
  function ConfidencePercent(confidence: real): int {
    Truncate(confidence * 100.0)
  }

  predicate IsDigit(c: char) { '0' <= c <= '9' }

  predicate AllDigits(s: string) { forall i :: 0 <= i < |s| ==> IsDigit(s[i]) }

  function DigitChar(d: nat): char
    requires d < 10
  {
    ('0' as int + d) as char
  }

  function DigitValue(c: char): nat
    requires IsDigit(c)
  {
    c as int - '0' as int
  }

  /** The decimal digits of a natural number, most significant first and without leading zeros. */
  function NatDigits(n: nat): (s: string)
    ensures |s| >= 1 && AllDigits(s)
    ensures s[0] == '0' ==> n == 0
    decreases n
  {
    if n < 10 then [DigitChar(n)] else NatDigits(n / 10) + [DigitChar(n % 10)]
  }

  /** String interpolation of a Swift `Int`: a minus sign for negatives, then the digits. */
  function DecimalString(n: int): string {
    if n < 0 then "-" + NatDigits(-n) else NatDigits(n)
  }

  /** The overlay label: the class name, two spaces, and the percentage in parentheses. */
  function LabelText(className: string, percent: int): string {
    className + "  (" + DecimalString(percent) + "%)"
  }

  /**
   * The maximal run of digits at the end of `s`: where it starts, and the
   * number it spells (0 for an empty run).
   */
  function TrailingNumber(s: string): (r: (nat, nat))
    ensures r.0 <= |s|
  {
    if s == [] || !IsDigit(s[|s| - 1]) then (|s|, 0)
    else
      var (k, v) := TrailingNumber(s[..|s| - 1]);
      (k, v * 10 + DigitValue(s[|s| - 1]))
  }

  /** Reads a label back into its class name and percentage; `None` for text that is not a label. */
  function ParseLabel(s: string): Option<(string, int)> {
    if |s| < 2 || s[|s| - 2..] != "%)" then None else ParseLabelBody(s[..|s| - 2])
  }

  /** A label without its closing "%)": the number is the run of digits at the end, with an optional minus sign. */
  function ParseLabelBody(body: string): Option<(string, int)> {
    var (k, magnitude) := TrailingNumber(body);
    if k == |body| then None
    else
      var negative := k > 0 && body[k - 1] == '-';
      var value: int := magnitude;
      ParseLabelHead(if negative then body[..k - 1] else body[..k], if negative then -value else value)
  }

  /** What precedes the number: the class name followed by two spaces and an opening parenthesis. */
  function ParseLabelHead(head: string, percent: int): Option<(string, int)> {
    if |head| < 3 || head[|head| - 3..] != "  (" then None else Some((head[..|head| - 3], percent))
  }

  /** Printed digits of n after a text that does not end in a digit read back as n, starting right after that text. */
  lemma {:induction false} TrailingNumberOfDigits(x: string, n: nat)
    requires |x| > 0 && !IsDigit(x[|x| - 1])
    ensures TrailingNumber(x + NatDigits(n)) == (|x|, n)
    decreases n
  {
    var s := x + NatDigits(n);
    if n < 10 {
      assert s[..|s| - 1] == x;
    } else {
      assert s[..|s| - 1] == x + NatDigits(n / 10);
      TrailingNumberOfDigits(x, n / 10);
    }
  }

  /** Reading back the part before the number. */
  lemma ParseLabelHeadOf(className: string, percent: int)
    ensures ParseLabelHead(className + "  (", percent) == Some((className, percent))
  {
    var head := className + "  (";
    assert head[|head| - 3..] == "  (";
    assert head[..|head| - 3] == className;
  }

  /** Reading back a label body built from a negative percentage. */
  lemma ParseLabelBodyOfNegative(className: string, percent: int)
    requires percent < 0
    ensures ParseLabelBody(className + "  (" + "-" + NatDigits(-percent)) == Some((className, percent))
  {
    var prefix := className + "  (" + "-";
    var body := prefix + NatDigits(-percent);
    assert prefix[|prefix| - 1] == '-';
    TrailingNumberOfDigits(prefix, -percent);
    assert body[|prefix| - 1] == '-';
    assert body[..|prefix| - 1] == className + "  (";
    ParseLabelHeadOf(className, percent);
  }

  /** Reading back a label body built from a non-negative percentage. */
  lemma ParseLabelBodyOfNonNegative(className: string, percent: int)
    requires percent >= 0
    ensures ParseLabelBody(className + "  (" + NatDigits(percent)) == Some((className, percent))
  {
    var prefix := className + "  (";
    var body := prefix + NatDigits(percent);
    assert prefix[|prefix| - 1] == '(';
    TrailingNumberOfDigits(prefix, percent);
    assert body[|prefix| - 1] == '(';
    assert body[..|prefix|] == className + "  (";
    ParseLabelHeadOf(className, percent);
  }

  /** Reading back a label body built from a percentage. */
  lemma ParseLabelBodyOfPercent(className: string, percent: int)
    ensures ParseLabelBody(className + "  (" + DecimalString(percent)) == Some((className, percent))
  {
    if percent < 0 {
      assert className + "  (" + DecimalString(percent) == className + "  (" + "-" + NatDigits(-percent);
      ParseLabelBodyOfNegative(className, percent);
    } else {
      ParseLabelBodyOfNonNegative(className, percent);
    }
  }

  /** The label determines the class name and the percentage: reading it back gives both. */
  lemma LabelRoundTrip(className: string, percent: int)
    ensures ParseLabel(LabelText(className, percent)) == Some((className, percent))
  {
    var body := className + "  (" + DecimalString(percent);
    var s := LabelText(className, percent);
    assert s[..|s| - 2] == body;
    assert s[|s| - 2..] == "%)";
    ParseLabelBodyOfPercent(className, percent);
  }

  /** Different class names or percentages never give the same label. */
  lemma LabelInjective(c1: string, p1: int, c2: string, p2: int)
    requires LabelText(c1, p1) == LabelText(c2, p2)
    ensures c1 == c2 && p1 == p2
  {
    LabelRoundTrip(c1, p1);
    LabelRoundTrip(c2, p2);
  }

  /** For a non-negative confidence the percentage is the floor of confidence * 100 (truncation, not rounding). */
  lemma ConfidencePercentIsFloor(confidence: real)
    requires confidence >= 0.0
    ensures ConfidencePercent(confidence) == (confidence * 100.0).Floor
    ensures ConfidencePercent(confidence) as real <= confidence * 100.0 < ConfidencePercent(confidence) as real + 1.0
  {
  }

  /** 0.567 shows as 56 percent, not 57. */
  lemma CowLabelScenario()
    ensures LabelText("cow", ConfidencePercent(0.567)) == "cow  (56%)"
  {
    assert ConfidencePercent(0.567) == 56;
    assert NatDigits(56) == "56";
  }

  // ---------------------------------------------------------------------------
  // The overlay list
  // ---------------------------------------------------------------------------

  /** The overlay drawn for one inference: label, clamped border, measured label size, the colour passed through. */
  function OverlayFor<Color, Font>(inference: Inference<Color>, imageSize: Size, bounds: Rect, font: Font,
                                   edgeOffset: real, measure: (string, Font) -> Size): ObjectOverlay<Color, Font>
    requires imageSize.width > 0.0 && imageSize.height > 0.0
  {
    var name := LabelText(inference.className, ConfidencePercent(inference.confidence));
    ObjectOverlay(name, ConvertedRect(inference.rect, imageSize, bounds, edgeOffset),
                  measure(name, font), inference.displayColor, font)
  }

  /**
   * The loop of drawDetections: one overlay per inference, in input order,
   * none dropped, whatever its clamped rectangle looks like.
   */
  method ProjectDetections<Color, Font>(inferences: seq<Inference<Color>>, imageSize: Size, bounds: Rect, font: Font,
                                        edgeOffset: real, measure: (string, Font) -> Size)
    returns (objectOverlays: seq<ObjectOverlay<Color, Font>>)
    requires imageSize.width > 0.0 && imageSize.height > 0.0
    ensures |objectOverlays| == |inferences|
    ensures forall k :: 0 <= k < |inferences| ==>
              objectOverlays[k] == OverlayFor(inferences[k], imageSize, bounds, font, edgeOffset, measure)
  {
    objectOverlays := [];
    for i := 0 to |inferences|
      invariant |objectOverlays| == i
      invariant forall k :: 0 <= k < i ==>
                  objectOverlays[k] == OverlayFor(inferences[k], imageSize, bounds, font, edgeOffset, measure)
    {
      var inference := inferences[i];
      var convertedRect := Scaled(inference.rect, bounds.width / imageSize.width, bounds.height / imageSize.height);
      if convertedRect.x < 0.0 {
        convertedRect := convertedRect.(x := edgeOffset);
      }
      if convertedRect.y < 0.0 {
        convertedRect := convertedRect.(y := edgeOffset);
      }
      if convertedRect.MaxY() > bounds.MaxY() {
        convertedRect := convertedRect.(height := bounds.MaxY() - convertedRect.y - edgeOffset);
      }
      if convertedRect.MaxX() > bounds.MaxX() {
        convertedRect := convertedRect.(width := bounds.MaxX() - convertedRect.x - edgeOffset);
      }
      var confidenceValue := ConfidencePercent(inference.confidence);
      var name := LabelText(inference.className, confidenceValue);
      var size := measure(name, font);
      objectOverlays := objectOverlays + [ObjectOverlay(name, convertedRect, size, inference.displayColor, font)];
    }
  }
}
