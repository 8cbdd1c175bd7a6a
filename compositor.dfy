/**
 * Compositor: the size the logo is pasted at. The logo keeps its native
 * size when that is already the target; otherwise it is stretched to the
 * target when the two aspect ratios differ by at most 0.1, and letterboxed
 * (scaled to fit inside the target box, one side equal to the target's and
 * the other truncated) when they differ by more. Resampling, pasting and
 * colour conversion are not modelled.
 */
module Compositor {
  import opened Common
  import opened Assets

  /** Largest difference between the two aspect ratios that still allows stretching. */
  const AspectTolerance: real := 0.1

  datatype ResizePlan = KeepNative | ResizeTo(width: int, height: int)

  function AbsReal(x: real): real {
    if x < 0.0 then -x else x
  }

  /** Width over height. */
  function Ratio(d: Dimensions): real
    requires d.height > 0
  {
    d.width as real / d.height as real
  }

  /** How much the width-to-height ratios of two sizes differ, scaled by both heights. */
  function Cross(native: Dimensions, target: Dimensions): int {
    native.width * target.height - target.width * native.height
  }

  /**
   * The resize decision, in the analyzer's real arithmetic: aspect ratios
   * as quotients, the fitted side truncated towards zero.
   */
  function ResizeFor(native: Dimensions, target: Dimensions): (p: ResizePlan)
    requires native.height > 0 && target.height > 0
  {
    if native == target then KeepNative
    else
      var aspect := Ratio(native);
      var targetRatio := Ratio(target);
      if AbsReal(aspect - targetRatio) > AspectTolerance then
        if aspect > targetRatio then
          ResizeTo(target.width, (target.width as real / aspect).Floor)
        else
          ResizeTo((target.height as real * aspect).Floor, target.height)
      else
        ResizeTo(target.width, target.height)
  }

  /**
   * The same decision in integer arithmetic only: the aspect ratios are
   * compared by cross-multiplication and the truncated side is an integer
   * quotient.
   */
  function ResizeForIntegers(native: Dimensions, target: Dimensions): (p: ResizePlan)
    requires native.height > 0 && target.height > 0
  {
    if native == target then KeepNative
    else
      var cross := Cross(native, target);
      var spread := if cross < 0 then -cross else cross;
      if 10 * spread > native.height * target.height then
        if cross > 0 then ResizeTo(target.width, target.width * native.height / native.width)
        else ResizeTo(target.height * native.width / native.height, target.height)
      else
        ResizeTo(target.width, target.height)
  }

  /** Truncating a quotient of naturals is integer division. */
  lemma FloorOfQuotient(a: int, b: int)
    requires a >= 0 && b > 0
    ensures (a as real / b as real).Floor == a / b
  {
    var q, r := a / b, a % b;
    var d := b as real;
    CastProduct(q, b);
    assert a as real == q as real * d + r as real;
    QuotientOfSum(q as real, r as real, d);
    QuotientBelowOne(r as real, d);
    var x := a as real / d;
    assert x == q as real + r as real / d;
    assert q as real <= x < (q + 1) as real;
  }

  /** Dividing y * d + r by d gives y plus the quotient of the remainder. */
  lemma QuotientOfSum(y: real, r: real, d: real)
    requires d > 0.0
    ensures (y * d + r) / d == y + r / d
  {
    var z := r / d;
    assert z * d == r;
    assert (y + z) * d == y * d + r;
  }

  /** A remainder in [0, d) divided by d lies in [0, 1). */
  lemma QuotientBelowOne(r: real, d: real)
    requires d > 0.0 && 0.0 <= r < d
    ensures 0.0 <= r / d < 1.0
  {
    QuotientAbove(r, d, 1.0);
    QuotientAbove(-r, d, 0.0);
    assert (-r) / d == -(r / d);
  }

  /** Casting a product of integers to a real is the product of the casts. */
  lemma CastProduct(a: int, b: int)
    ensures (a * b) as real == a as real * b as real
  {
  }

  /** The difference of two quotients over a common denominator. */
  lemma QuotientDifference(a: real, b: real, c: real, e: real)
    requires b > 0.0 && e > 0.0
    ensures a / b - c / e == (a * e - c * b) / (b * e)
  {
    var q1, q2 := a / b, c / e;
    assert q1 * b == a;
    assert q2 * e == c;
    var x := q1 - q2;
    assert x * (b * e) == (q1 * b) * e - (q2 * e) * b;
    assert x * (b * e) == a * e - c * b;
  }

  /** The absolute value of a quotient by a positive number. */
  lemma AbsOfQuotient(x: real, d: real)
    requires d > 0.0
    ensures AbsReal(x / d) == AbsReal(x) / d
  {
    QuotientAbove(x, d, 0.0);
    assert (-x) / d == -(x / d);
  }

  /** The two aspect ratios differ by the cross product over both heights. */
  lemma RatioDifference(native: Dimensions, target: Dimensions)
    requires native.height > 0 && target.height > 0
    ensures Ratio(native) - Ratio(target) == Cross(native, target) as real / (native.height * target.height) as real
  {
    var nw, nh, tw, th := native.width as real, native.height as real, target.width as real, target.height as real;
    QuotientDifference(nw, nh, tw, th);
    CastProduct(native.width, target.height);
    CastProduct(target.width, native.height);
    CastProduct(native.height, target.height);
  }

  /** The tolerance test and the orientation test, in integers. */
  lemma RatioComparisons(native: Dimensions, target: Dimensions)
    requires native.height > 0 && target.height > 0
    ensures var cross := Cross(native, target);
            var spread := if cross < 0 then -cross else cross;
            && (AbsReal(Ratio(native) - Ratio(target)) > AspectTolerance <==> 10 * spread > native.height * target.height)
            && (Ratio(native) > Ratio(target) <==> cross > 0)
  {
    var cross := Cross(native, target);
    var spread := if cross < 0 then -cross else cross;
    var n := native.height * target.height;
    var d := n as real;
    assert d > 0.0;
    RatioDifference(native, target);
    AbsOfQuotient(cross as real, d);
    assert AbsReal(cross as real) == spread as real;
    QuotientAbove(spread as real, d, AspectTolerance);
    assert AspectTolerance * d > spread as real <==> n > 10 * spread;
    QuotientAbove(cross as real, d, 0.0);
  }

  /** The truncated height of a letterboxed wide logo is an integer quotient. */
  lemma WideSide(native: Dimensions, target: Dimensions)
    requires native.height > 0 && target.height > 0 && native.width > 0
    ensures (target.width as real / Ratio(native)).Floor == target.width * native.height / native.width
  {
    var nw, nh, tw := native.width as real, native.height as real, target.width as real;
    assert tw / (nw / nh) == (target.width * native.height) as real / nw;
    FloorOfQuotient(target.width * native.height, native.width);
  }

  /** The truncated width of a letterboxed tall logo is an integer quotient. */
  lemma TallSide(native: Dimensions, target: Dimensions)
    requires native.height > 0 && target.height > 0
    ensures (target.height as real * Ratio(native)).Floor == target.height * native.width / native.height
  {
    var nw, nh, th := native.width as real, native.height as real, target.height as real;
    assert th * (nw / nh) == (target.height * native.width) as real / nh;
    FloorOfQuotient(target.height * native.width, native.height);
  }

  /** The real-arithmetic decision agrees with the integer one on every input. */
  lemma ResizeMatchesIntegers(native: Dimensions, target: Dimensions)
    requires native.height > 0 && target.height > 0
    ensures ResizeFor(native, target) == ResizeForIntegers(native, target)
  {
    if native != target {
      RatioComparisons(native, target);
      var aspect, targetRatio := Ratio(native), Ratio(target);
      if AbsReal(aspect - targetRatio) > AspectTolerance {
        if aspect > targetRatio {
          WideSide(native, target);
        } else {
          TallSide(native, target);
        }
      }
    }
  }

  /** The integer decision keeps the native size only when it is the target, and never exceeds the target box. */
  lemma IntegerResizeFits(native: Dimensions, target: Dimensions)
    requires native.height > 0 && target.height > 0
    ensures var p := ResizeForIntegers(native, target);
            && (p == KeepNative <==> native == target)
            && (p.ResizeTo? ==> 0 <= p.width <= target.width && 0 <= p.height <= target.height)
            && (p.ResizeTo? ==> p.width == target.width || p.height == target.height)
  {
    var cross := Cross(native, target);
    var wide := target.width * native.height;
    var tall := target.height * native.width;
    assert cross == tall - wide;
    if native != target && cross > 0 {
      DivBelow(wide, native.width, target.height);
    } else if native != target {
      DivBelow(tall, native.height, target.width);
    }
  }

  /**
   * What the resize promises: no resize exactly when the native size is
   * the target; a letterboxed logo fits inside the target box with one
   * side equal to the target's; a stretched logo is the target size.
   */
  lemma ResizeFits(native: Dimensions, target: Dimensions)
    requires native.height > 0 && target.height > 0
    ensures var p := ResizeFor(native, target);
            && (p == KeepNative <==> native == target)
            && (p.ResizeTo? ==> 0 <= p.width <= target.width && 0 <= p.height <= target.height)
            && (p.ResizeTo? ==> p.width == target.width || p.height == target.height)
            && (native != target && AbsReal(Ratio(native) - Ratio(target)) <= AspectTolerance ==>
                  p == ResizeTo(target.width, target.height))
  {
    ResizeMatchesIntegers(native, target);
    IntegerResizeFits(native, target);
  }

  /**
   * A letterboxed logo keeps its aspect ratio up to truncation: the
   * fitted side is the target's, and the other side is the largest whole
   * number of pixels that does not exceed the native ratio.
   */
  lemma LetterboxKeepsRatio(native: Dimensions, target: Dimensions)
    requires native.height > 0 && target.height > 0
    requires native != target && AbsReal(Ratio(native) - Ratio(target)) > AspectTolerance
    ensures var p := ResizeFor(native, target);
            Ratio(native) > Ratio(target) ==>
              && p == ResizeTo(target.width, p.height)
              && p.height * native.width <= target.width * native.height < (p.height + 1) * native.width
    ensures var p := ResizeFor(native, target);
            Ratio(native) <= Ratio(target) ==>
              && p == ResizeTo(p.width, target.height)
              && p.width * native.height <= target.height * native.width < (p.width + 1) * native.height
  {
    ResizeMatchesIntegers(native, target);
    RatioComparisons(native, target);
    if Cross(native, target) > 0 {
      DivBounds(target.width * native.height, native.width);
    } else {
      DivBounds(target.height * native.width, native.height);
    }
  }

  /** Integer division brackets the dividend between two multiples of the divisor. */
  lemma DivBounds(a: int, b: int)
    requires a >= 0 && b > 0
    ensures (a / b) * b <= a < (a / b + 1) * b
  {
    var q, r := a / b, a % b;
    assert a == q * b + r;
    assert (q + 1) * b == q * b + b;
  }

  /** Comparing a quotient by a positive number is comparing the dividend with the scaled bound. */
  lemma QuotientAbove(x: real, d: real, t: real)
    requires d > 0.0
    ensures x / d > t <==> x > t * d
  {
    assert (x / d) * d == x;
    if x / d > t {
      assert (x / d) * d > t * d;
    }
    if x > t * d {
      assert x / d > (t * d) / d;
    }
  }

  /** a <= c * b gives a / b <= c. */
  lemma DivBelow(a: int, b: int, c: int)
    requires a >= 0 && b > 0 && c >= 0 && a <= b * c
    ensures 0 <= a / b <= c
  {
  }

  /** A 200 x 50 logo for a 100 x 50 box (ratios 4 and 2) is letterboxed to 100 x 25. */
  lemma LetterboxExample()
    ensures ResizeFor(Dimensions(200, 50), Dimensions(100, 50)) == ResizeTo(100, 25)
  {
    ResizeMatchesIntegers(Dimensions(200, 50), Dimensions(100, 50));
  }

  /**
   * A 25 x 11 logo for a 100 x 50 box is letterboxed to 100 x 44 on exact
   * reals, since 100 * 11 / 25 is exactly 44.
   */
  lemma LetterboxExactFloorExample()
    ensures ResizeFor(Dimensions(25, 11), Dimensions(100, 50)) == ResizeTo(100, 44)
  {
    ResizeMatchesIntegers(Dimensions(25, 11), Dimensions(100, 50));
  }

  /** The outcome of compositing: the original background, or the logo pasted at a position and size. */
  datatype Composite = Original | Overlaid(x: int, y: int, width: int, height: int)

  /**
   * A resize the image library refuses: one side of the requested size is
   * not positive (a 1000 x 1 logo letterboxed into 100 x 50 becomes 100 x 0).
   */
  predicate Degenerate(p: ResizePlan) {
    p.ResizeTo? && (p.width <= 0 || p.height <= 0)
  }

  /**
   * create_logo_composite: every failure on the way falls back to the
   * unchanged background. It fails when the logo cannot be fetched or
   * decoded, when the background has no three- or four-channel colour axis
   * (a grayscale or palette image, which the BGR-to-RGB conversion
   * rejects), and when the resize asks for a side of zero pixels.
   * Otherwise the logo is pasted with its top-left pixel at the placement,
   * at the size the resize decision gives.
   */
  function CompositeFor(logo: Option<Dimensions>, colourBackground: bool, x: int, y: int, target: Dimensions)
    : (c: Composite)
    requires logo.Some? ==> logo.value.height > 0
    requires target.height > 0
    ensures c == Original <==> logo.None? || !colourBackground || Degenerate(ResizeFor(logo.value, target))
    ensures c.Overlaid? ==> c.x == x && c.y == y
    ensures c.Overlaid? ==> c.width <= target.width && c.height <= target.height
    ensures c.Overlaid? && logo.value != target ==> 0 < c.width && 0 < c.height
    ensures c.Overlaid? ==>
              match ResizeFor(logo.value, target)
              case KeepNative => c.width == logo.value.width && c.height == logo.value.height
              case ResizeTo(rw, rh) => c.width == rw && c.height == rh
  {
    if logo.None? || !colourBackground then Original
    else
      var native := logo.value;
      ResizeFits(native, target);
      match ResizeFor(native, target)
      case KeepNative => Overlaid(x, y, native.width, native.height)
      case ResizeTo(nw, nh) => if nw <= 0 || nh <= 0 then Original else Overlaid(x, y, nw, nh)
  }

  /** The 1000 x 1 logo letterboxed into 100 x 50 would be 100 x 0 pixels, so the background comes back unchanged. */
  lemma ZeroSideKeepsOriginal()
    ensures CompositeFor(Some(Dimensions(1000, 1)), true, 0, 0, Dimensions(100, 50)) == Original
  {
    ResizeMatchesIntegers(Dimensions(1000, 1), Dimensions(100, 50));
  }
}
