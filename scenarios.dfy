/**
 * End-to-end decisions for an 800 x 600 background and a logo given by
 * the dark asset, for backgrounds whose four corners look alike.
 *
 * The regions of 800 x 600 are cut at x = 266 and 533 and at y = 200 and
 * 400, so the bottom-right region is 267 x 200 pixels and leaves 242 x 175
 * once the margin is taken off.
 */
module Scenarios {
  import opened Common
  import opened Geometry
  import opened Scoring
  import opened Assets
  import opened Variant
  import opened Placement

  const Logo100x50: Option<Shape> := Some(Shape(50, 100))

  function Everywhere(sig: Signals): Probe {
    Probe(sig, sig, sig, sig)
  }

  /**
   * A plain background: every corner scores 1.0, the bias picks
   * bottom-right, and the logo sits 25 pixels in from the right and bottom
   * edges, at (800 - 25 - 100, 600 - 25 - 50) = (675, 525).
   */
  lemma PlainBackground(darkLogoUrl: string, lightLogoUrl: string, brightness: Box -> real)
    ensures var d := Decide(800, 600, Logo100x50, None, darkLogoUrl, lightLogoUrl,
                            Everywhere(Signals(false, 0.0)), brightness);
            && d.Successful?
            && d.placement == Placement(BottomRight, 675, 525, 100, 50)
            && d.variant == SelectLogoVariant(brightness(Box(675, 525, 775, 575)))
  {
    UniformBackground(800, 600, Logo100x50, None, darkLogoUrl, lightLogoUrl, Signals(false, 0.0), brightness);
  }

  /**
   * Text in every corner: each base score is 0.3, bottom-right wins with
   * 0.3 * 1.25 = 0.375, which still passes the 0.3 threshold.
   */
  lemma TextEverywhere(darkLogoUrl: string, lightLogoUrl: string, brightness: Box -> real)
    ensures var d := Decide(800, 600, Logo100x50, None, darkLogoUrl, lightLogoUrl,
                            Everywhere(Signals(true, 0.0)), brightness);
            && d.Successful?
            && d.placement == Placement(BottomRight, 675, 525, 100, 50)
    ensures BiasedScore(BottomRight, 800, 600, Dimensions(100, 50), Everywhere(Signals(true, 0.0))) == 0.375
  {
    UniformBackground(800, 600, Logo100x50, None, darkLogoUrl, lightLogoUrl, Signals(true, 0.0), brightness);
    TextScore();
  }

  /** Text alone, with room for the logo, scores 0.3 at bottom-right before the bias and 0.375 after it. */
  lemma TextScore()
    ensures BiasedScore(BottomRight, 800, 600, Dimensions(100, 50), Everywhere(Signals(true, 0.0))) == 0.375
  {
    var sig := Signals(true, 0.0);
    FitsEverywhere(800, 600, 100, 50, sig);
    BottomRightBiasedScore(800, 600, Dimensions(100, 50), sig);
    assert Suitability(true, 0.0, true) == 0.3;
  }

  /** Where the logo fits, the bottom-right biased score is 1.25 times the corner's base score. */
  lemma BottomRightBiasedScore(w: nat, h: nat, logo: Dimensions, sig: Signals)
    requires AnalyzeCorner(BottomRight, w, h, logo.width, logo.height, sig).spaceSufficient
    ensures BiasedScore(BottomRight, w, h, logo, Everywhere(sig)) == 1.25 * Suitability(sig.hasText, sig.edgeDensity, true)
  {
    assert Everywhere(sig).At(BottomRight) == sig;
  }

  /**
   * Text and an edge density of 0.5 in every corner: the best biased
   * score is 0.3 * 0.5 * 1.25 = 0.1875 and the decision fails for low
   * confidence, citing that score and bottom-right.
   */
  lemma TextAndClutterEverywhere(darkLogoUrl: string, lightLogoUrl: string, brightness: Box -> real)
    ensures Decide(800, 600, Logo100x50, None, darkLogoUrl, lightLogoUrl,
                   Everywhere(Signals(true, 0.5)), brightness)
            == Failed(LowConfidence(0.1875, BottomRight))
  {
    UniformBackground(800, 600, Logo100x50, None, darkLogoUrl, lightLogoUrl, Signals(true, 0.5), brightness);
  }

  /**
   * A 300 x 250 logo fits in no corner of 800 x 600: bottom-right wins the
   * ranking, and the decision fails for lack of space there.
   */
  lemma LogoTooLarge(darkLogoUrl: string, lightLogoUrl: string, brightness: Box -> real)
    ensures Decide(800, 600, Some(Shape(250, 300)), None, darkLogoUrl, lightLogoUrl,
                   Everywhere(Signals(false, 0.0)), brightness)
            == Failed(InsufficientSpace(BottomRight, 242, 175, 300, 250))
  {
    var sig := Signals(false, 0.0);
    UniformBackgroundNoRoom(800, 600, Some(Shape(250, 300)), None, darkLogoUrl, lightLogoUrl, sig, brightness);
    var region := Region(BottomRight, 800, 600);
    assert region.x1 == 533 && region.y1 == 400;
    assert Everywhere(sig) == Probe(sig, sig, sig, sig);
  }
}
