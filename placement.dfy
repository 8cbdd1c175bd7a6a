/**
 * PlacementSelector: the evaluation of the four corners with their
 * positional bias, the choice of the best one, and the admission rules
 * that turn it into a placement decision.
 *
 * Decide is the decision as a function of the request's inputs;
 * AnalyzePlacement computes it the way the analyzer does, step by step.
 */
module Placement {
  import opened Common
  import opened Geometry
  import opened Scoring
  import opened Assets
  import opened Variant

  /** Below this biased suitability the best corner is rejected. */
  const ConfidenceThreshold: real := 0.3

  /** The corners in evaluation order, as values. */
  const OrderedCorners: seq<Corner> := [TopLeft, TopRight, BottomLeft, BottomRight]

  /**
   * The positional preference applied to a corner's record: bottom-right
   * scores 25% more, bottom-left 15%, top-right 5%, top-left as it is.
   */
  function Biased(m: CornerMetrics): CornerMetrics {
    match m.corner
    case BottomRight => m.(suitability := m.suitability * 1.25)
    case BottomLeft => m.(suitability := m.suitability * 1.15)
    case TopRight => m.(suitability := m.suitability * 1.05)
    case TopLeft => m
  }

  /** Position of a corner in the evaluation order. */
  function Index(c: Corner): (i: nat)
    ensures i < |OrderedCorners| && OrderedCorners[i] == c
  {
    match c
    case TopLeft => 0
    case TopRight => 1
    case BottomLeft => 2
    case BottomRight => 3
  }

  /**
   * The list `all_corner_results` after the loop over `names`: every name
   * the corner analysis recognises contributes its record, with the bias
   * applied to its score, in the order of the names.
   */
  function CornerResults(names: seq<string>, w: nat, h: nat, logoWidth: int, logoHeight: int, probe: Probe): (rs: seq<CornerMetrics>)
    decreases |names|
  {
    if names == [] then []
    else
      var rest := CornerResults(names[..|names| - 1], w, h, logoWidth, logoHeight, probe);
      match AnalyzeCornerSpace(w, h, names[|names| - 1], logoWidth, logoHeight, probe)
      case None => rest
      case Some(m) => rest + [Biased(m)]
  }

  /** The biased score of one corner. */
  function BiasedScore(c: Corner, w: nat, h: nat, logo: Dimensions, probe: Probe): real {
    Biased(AnalyzeCorner(c, w, h, logo.width, logo.height, probe.At(c))).suitability
  }

  /** One step of the loop: the k-th name of the evaluation order adds the k-th corner's record. */
  lemma CornerResultsStep(k: nat, w: nat, h: nat, logoWidth: int, logoHeight: int, probe: Probe)
    requires k < |CornerOrder|
    ensures CornerResults(CornerOrder[..k + 1], w, h, logoWidth, logoHeight, probe)
            == CornerResults(CornerOrder[..k], w, h, logoWidth, logoHeight, probe)
               + [Biased(AnalyzeCorner(OrderedCorners[k], w, h, logoWidth, logoHeight, probe.At(OrderedCorners[k])))]
    ensures AnalyzeCornerSpace(w, h, CornerOrder[k], logoWidth, logoHeight, probe)
            == Some(AnalyzeCorner(OrderedCorners[k], w, h, logoWidth, logoHeight, probe.At(OrderedCorners[k])))
  {
    var names := CornerOrder[..k + 1];
    assert names[..|names| - 1] == CornerOrder[..k];
    assert names[|names| - 1] == CornerOrder[k] == OrderedCorners[k].Name();
    LookupName(OrderedCorners[k]);
  }

  /**
   * Every name of the evaluation order is a key of the corner dictionary,
   * so the loop always yields four records, one per corner, in order.
   */
  lemma {:induction false} AllCornersAnalyzed(w: nat, h: nat, logoWidth: int, logoHeight: int, probe: Probe)
    ensures var rs := CornerResults(CornerOrder, w, h, logoWidth, logoHeight, probe);
            |rs| == 4 &&
            forall i :: 0 <= i < 4 ==>
              rs[i] == Biased(AnalyzeCorner(OrderedCorners[i], w, h, logoWidth, logoHeight, probe.At(OrderedCorners[i])))
  {
    assert CornerOrder[..0] == [];
    CornerResultsStep(0, w, h, logoWidth, logoHeight, probe);
    CornerResultsStep(1, w, h, logoWidth, logoHeight, probe);
    CornerResultsStep(2, w, h, logoWidth, logoHeight, probe);
    CornerResultsStep(3, w, h, logoWidth, logoHeight, probe);
    assert CornerOrder[..4] == CornerOrder;
  }

  /**
   * The head of `all_corner_results` after the stable descending sort: the
   * first record holding the highest score. Records that tie keep their
   * evaluation order, so the earliest of them wins.
   */
  function FirstBest(rs: seq<CornerMetrics>): (k: nat)
    requires |rs| > 0
    ensures k < |rs|
    ensures forall j :: 0 <= j < |rs| ==> rs[j].suitability <= rs[k].suitability
    ensures forall j :: 0 <= j < k ==> rs[j].suitability < rs[k].suitability
    decreases |rs|
  {
    if |rs| == 1 then 0
    else
      var k := FirstBest(rs[..|rs| - 1]);
      if rs[|rs| - 1].suitability > rs[k].suitability then |rs| - 1 else k
  }

  /** `best_corner`: the head of the sorted list, or None when the list is empty. */
  function BestCorner(rs: seq<CornerMetrics>): (r: Option<CornerMetrics>)
    ensures r.None? <==> rs == []
    ensures r.Some? ==> r.value in rs && forall j :: 0 <= j < |rs| ==> rs[j].suitability <= r.value.suitability
  {
    if rs == [] then None else Some(rs[FirstBest(rs)])
  }

  /** Why a request produced no placement; each reason carries its numbers. */
  datatype Reason =
    | NoSuitableCorner
    | InsufficientSpace(corner: Corner, availableWidth: int, availableHeight: int, requiredWidth: int, requiredHeight: int)
    | LowConfidence(score: real, corner: Corner)

  /** Where the logo goes: the corner, its top-left pixel and its size. */
  datatype Placement = Placement(corner: Corner, x: int, y: int, width: int, height: int)

  datatype Decision =
    | Successful(placement: Placement, variant: VariantChoice, selectedLogo: string)
    | Failed(reason: Reason)

  /**
   * The admission rules, applied in order to the best corner: none at all,
   * then a logo that does not fit, then a score below 0.3; otherwise the
   * corner's anchor with the logo size, and the logo variant chosen from the
   * brightness under that rectangle (clamped to the image).
   */
  function Admit(best: Option<CornerMetrics>, w: nat, h: nat, logo: Dimensions,
                 darkLogoUrl: string, lightLogoUrl: string, brightness: Box -> real): (d: Decision)
    ensures best.None? ==> d == Failed(NoSuitableCorner)
    ensures best.Some? && !best.value.spaceSufficient ==>
              d == Failed(InsufficientSpace(best.value.corner, best.value.availableWidth,
                                            best.value.availableHeight, logo.width, logo.height))
    ensures best.Some? && best.value.spaceSufficient && best.value.suitability < ConfidenceThreshold ==>
              d == Failed(LowConfidence(best.value.suitability, best.value.corner))
    ensures d.Successful? <==>
              best.Some? && best.value.spaceSufficient && best.value.suitability >= ConfidenceThreshold
    ensures d.Successful? ==>
              var m := best.value;
              d.placement == Placement(m.corner, m.placementX, m.placementY, logo.width, logo.height) &&
              d.variant == SelectLogoVariant(brightness(ClampRect(w, h, m.placementX, m.placementY, logo.width, logo.height))) &&
              d.selectedLogo == (if d.variant.useDarkLogo then darkLogoUrl else lightLogoUrl)
  {
    match best
    case None => Failed(NoSuitableCorner)
    case Some(m) =>
      if !m.spaceSufficient then
        Failed(InsufficientSpace(m.corner, m.availableWidth, m.availableHeight, logo.width, logo.height))
      else if m.suitability < ConfidenceThreshold then
        Failed(LowConfidence(m.suitability, m.corner))
      else
        var choice := SelectLogoVariant(brightness(ClampRect(w, h, m.placementX, m.placementY, logo.width, logo.height)));
        Successful(Placement(m.corner, m.placementX, m.placementY, logo.width, logo.height),
                   choice, SelectedLogoUrl(choice, darkLogoUrl, lightLogoUrl))
  }

  /**
   * The placement decision for an image of w x h pixels, the two logo
   * assets (by decoded shape and URL), the vision signals of the four
   * corners and the background brightness of any rectangle.
   */
  function Decide(w: nat, h: nat, dark: Option<Shape>, light: Option<Shape>,
                  darkLogoUrl: string, lightLogoUrl: string, probe: Probe, brightness: Box -> real): Decision
  {
    var logo := LogoDimensions(dark, light);
    Admit(BestCorner(CornerResults(CornerOrder, w, h, logo.width, logo.height, probe)),
          w, h, logo, darkLogoUrl, lightLogoUrl, brightness)
  }

  /** The corner the ranking picks, whether or not it is then admitted. */
  function Winner(w: nat, h: nat, logo: Dimensions, probe: Probe): Corner {
    var rs := CornerResults(CornerOrder, w, h, logo.width, logo.height, probe);
    if rs == [] then TopLeft else rs[FirstBest(rs)].corner
  }

  /**
   * The ranking picks a corner whose biased score is at least every other
   * corner's, and strictly above that of every corner evaluated before it.
   */
  lemma WinnerIsFirstBest(w: nat, h: nat, logo: Dimensions, probe: Probe)
    ensures var c := Winner(w, h, logo, probe);
            && (forall c' :: BiasedScore(c', w, h, logo, probe) <= BiasedScore(c, w, h, logo, probe))
            && (forall c' :: Index(c') < Index(c) ==> BiasedScore(c', w, h, logo, probe) < BiasedScore(c, w, h, logo, probe))
            && BestCorner(CornerResults(CornerOrder, w, h, logo.width, logo.height, probe))
               == Some(Biased(AnalyzeCorner(c, w, h, logo.width, logo.height, probe.At(c))))
  {
    var rs := CornerResults(CornerOrder, w, h, logo.width, logo.height, probe);
    AllCornersAnalyzed(w, h, logo.width, logo.height, probe);
    var k := FirstBest(rs);
    var c := OrderedCorners[k];
    assert c == Winner(w, h, logo, probe);
    assert Index(c) == k;
    assert rs[k] == Biased(AnalyzeCorner(c, w, h, logo.width, logo.height, probe.At(c)));
    forall c' ensures BiasedScore(c', w, h, logo, probe) <= BiasedScore(c, w, h, logo, probe)
                 && (Index(c') < k ==> BiasedScore(c', w, h, logo, probe) < BiasedScore(c, w, h, logo, probe))
    {
      var i := Index(c');
      assert rs[i] == Biased(AnalyzeCorner(c', w, h, logo.width, logo.height, probe.At(c')));
      assert rs[i].suitability <= rs[k].suitability;
    }
  }

  /** The decision is the admission rules applied to the winner's biased record. */
  lemma DecideAdmitsWinner(w: nat, h: nat, dark: Option<Shape>, light: Option<Shape>,
                           darkLogoUrl: string, lightLogoUrl: string, probe: Probe, brightness: Box -> real)
    ensures var logo := LogoDimensions(dark, light);
            var c := Winner(w, h, logo, probe);
            Decide(w, h, dark, light, darkLogoUrl, lightLogoUrl, probe, brightness)
            == Admit(Some(Biased(AnalyzeCorner(c, w, h, logo.width, logo.height, probe.At(c)))),
                     w, h, logo, darkLogoUrl, lightLogoUrl, brightness)
  {
    WinnerIsFirstBest(w, h, LogoDimensions(dark, light), probe);
  }

  /** The "no corners found suitable" outcome cannot happen. */
  lemma NoCornerFailureUnreachable(w: nat, h: nat, dark: Option<Shape>, light: Option<Shape>,
                                   darkLogoUrl: string, lightLogoUrl: string, probe: Probe, brightness: Box -> real)
    ensures Decide(w, h, dark, light, darkLogoUrl, lightLogoUrl, probe, brightness) != Failed(NoSuitableCorner)
  {
    DecideAdmitsWinner(w, h, dark, light, darkLogoUrl, lightLogoUrl, probe, brightness);
  }

  /**
   * A successful decision places the logo, at the resolved logo size, in
   * the winning corner's region, 25 pixels in from the two image edges
   * meeting at that corner; that corner's biased score is at least 0.3; and
   * the variant is chosen from the brightness of exactly the logo's
   * rectangle, which the clamp leaves as it is.
   */
  lemma SuccessfulPlacement(w: nat, h: nat, dark: Option<Shape>, light: Option<Shape>,
                            darkLogoUrl: string, lightLogoUrl: string, probe: Probe, brightness: Box -> real)
    requires Decide(w, h, dark, light, darkLogoUrl, lightLogoUrl, probe, brightness).Successful?
    ensures var logo := LogoDimensions(dark, light);
            var d := Decide(w, h, dark, light, darkLogoUrl, lightLogoUrl, probe, brightness);
            var p := d.placement;
            var rect := Box(p.x, p.y, p.x + p.width, p.y + p.height);
            var region := Region(p.corner, w, h);
            && p.corner == Winner(w, h, logo, probe)
            && p.width == logo.width && p.height == logo.height
            && BiasedScore(p.corner, w, h, logo, probe) >= ConfidenceThreshold
            && region.x1 <= rect.x1 && rect.x2 <= region.x2 && region.y1 <= rect.y1 && rect.y2 <= region.y2
            && rect.Within(w, h)
            && (p.corner.IsLeft() ==> p.x == PreferredMargin)
            && (!p.corner.IsLeft() ==> rect.x2 == w - PreferredMargin)
            && (p.corner.IsTop() ==> p.y == PreferredMargin)
            && (!p.corner.IsTop() ==> rect.y2 == h - PreferredMargin)
            && (d.variant.useDarkLogo <==> brightness(rect) > BrightnessThreshold)
            && d.selectedLogo == (if d.variant.useDarkLogo then darkLogoUrl else lightLogoUrl)
  {
    var logo := LogoDimensions(dark, light);
    var c := Winner(w, h, logo, probe);
    DecideAdmitsWinner(w, h, dark, light, darkLogoUrl, lightLogoUrl, probe, brightness);
    AdmittedCorner(c, w, h, logo, probe.At(c), darkLogoUrl, lightLogoUrl, brightness,
                   Decide(w, h, dark, light, darkLogoUrl, lightLogoUrl, probe, brightness));
  }

  /** What admitting one corner's biased record promises when it succeeds. */
  lemma AdmittedCorner(c: Corner, w: nat, h: nat, logo: Dimensions, sig: Signals,
                       darkLogoUrl: string, lightLogoUrl: string, brightness: Box -> real, d: Decision)
    requires d == Admit(Some(Biased(AnalyzeCorner(c, w, h, logo.width, logo.height, sig))),
                        w, h, logo, darkLogoUrl, lightLogoUrl, brightness)
    requires d.Successful?
    ensures var p := d.placement;
            var rect := Box(p.x, p.y, p.x + p.width, p.y + p.height);
            var region := Region(c, w, h);
            && p.corner == c
            && p.width == logo.width && p.height == logo.height
            && Biased(AnalyzeCorner(c, w, h, logo.width, logo.height, sig)).suitability >= ConfidenceThreshold
            && region.x1 <= rect.x1 && rect.x2 <= region.x2 && region.y1 <= rect.y1 && rect.y2 <= region.y2
            && rect.Within(w, h)
            && (c.IsLeft() ==> p.x == PreferredMargin)
            && (!c.IsLeft() ==> rect.x2 == w - PreferredMargin)
            && (c.IsTop() ==> p.y == PreferredMargin)
            && (!c.IsTop() ==> rect.y2 == h - PreferredMargin)
            && (d.variant.useDarkLogo <==> brightness(rect) > BrightnessThreshold)
            && d.selectedLogo == (if d.variant.useDarkLogo then darkLogoUrl else lightLogoUrl)
  {
    var m := AnalyzeCorner(c, w, h, logo.width, logo.height, sig);
    var rect := Box(m.placementX, m.placementY, m.placementX + logo.width, m.placementY + logo.height);
    assert m.spaceSufficient;
    assert rect.Within(w, h);
    assert ClampRect(w, h, m.placementX, m.placementY, logo.width, logo.height) == rect;
  }

  /**
   * With the four base scores equal, the bias alone decides: a positive
   * score ranks bottom-right, bottom-left, top-right, top-left and picks
   * bottom-right; four zero scores tie and the first corner, top-left, wins.
   */
  lemma EqualBaseScoresRankByBias(w: nat, h: nat, logo: Dimensions, probe: Probe)
    requires forall c :: AnalyzeCorner(c, w, h, logo.width, logo.height, probe.At(c)).suitability
                         == AnalyzeCorner(TopLeft, w, h, logo.width, logo.height, probe.At(TopLeft)).suitability
    ensures var s := AnalyzeCorner(TopLeft, w, h, logo.width, logo.height, probe.At(TopLeft)).suitability;
            s > 0.0 ==>
              && BiasedScore(BottomRight, w, h, logo, probe) > BiasedScore(BottomLeft, w, h, logo, probe)
              && BiasedScore(BottomLeft, w, h, logo, probe) > BiasedScore(TopRight, w, h, logo, probe)
              && BiasedScore(TopRight, w, h, logo, probe) > BiasedScore(TopLeft, w, h, logo, probe)
              && Winner(w, h, logo, probe) == BottomRight
    ensures var s := AnalyzeCorner(TopLeft, w, h, logo.width, logo.height, probe.At(TopLeft)).suitability;
            s == 0.0 ==> Winner(w, h, logo, probe) == TopLeft
  {
    var s := AnalyzeCorner(TopLeft, w, h, logo.width, logo.height, probe.At(TopLeft)).suitability;
    WinnerIsFirstBest(w, h, logo, probe);
    var c := Winner(w, h, logo, probe);
    assert AnalyzeCorner(TopRight, w, h, logo.width, logo.height, probe.At(TopRight)).suitability == s;
    assert AnalyzeCorner(BottomLeft, w, h, logo.width, logo.height, probe.At(BottomLeft)).suitability == s;
    assert AnalyzeCorner(BottomRight, w, h, logo.width, logo.height, probe.At(BottomRight)).suitability == s;
    var tl, tr := BiasedScore(TopLeft, w, h, logo, probe), BiasedScore(TopRight, w, h, logo, probe);
    var bl, br := BiasedScore(BottomLeft, w, h, logo, probe), BiasedScore(BottomRight, w, h, logo, probe);
    assert tl == s && tr == s * 1.05 && bl == s * 1.15 && br == s * 1.25;
  }

  /**
   * A background whose four corners look alike (the same text and edge
   * signals) and where the logo fits in every corner: bottom-right wins
   * whenever its score is positive, the logo goes 25 pixels in from the
   * right and bottom edges, and the decision succeeds exactly when the
   * biased score 1.25 * s reaches 0.3, otherwise it fails for low confidence.
   */
  lemma UniformBackground(w: nat, h: nat, dark: Option<Shape>, light: Option<Shape>,
                          darkLogoUrl: string, lightLogoUrl: string, sig: Signals, brightness: Box -> real)
    requires var logo := LogoDimensions(dark, light);
             logo.width <= w / 3 - PreferredMargin && logo.height <= h / 3 - PreferredMargin
    requires Suitability(sig.hasText, sig.edgeDensity, true) > 0.0
    ensures var logo := LogoDimensions(dark, light);
            var score := 1.25 * Suitability(sig.hasText, sig.edgeDensity, true);
            var d := Decide(w, h, dark, light, darkLogoUrl, lightLogoUrl, Probe(sig, sig, sig, sig), brightness);
            var x, y := w - PreferredMargin - logo.width, h - PreferredMargin - logo.height;
            && (score >= ConfidenceThreshold ==>
                  d == Successful(Placement(BottomRight, x, y, logo.width, logo.height),
                                  SelectLogoVariant(brightness(Box(x, y, x + logo.width, y + logo.height))),
                                  if brightness(Box(x, y, x + logo.width, y + logo.height)) > BrightnessThreshold
                                  then darkLogoUrl else lightLogoUrl))
            && (score < ConfidenceThreshold ==> d == Failed(LowConfidence(score, BottomRight)))
  {
    var logo := LogoDimensions(dark, light);
    var probe := Probe(sig, sig, sig, sig);
    FitsEverywhere(w, h, logo.width, logo.height, sig);
    UniformWinner(w, h, logo, sig, true);
    DecideAdmitsWinner(w, h, dark, light, darkLogoUrl, lightLogoUrl, probe, brightness);
    assert probe.At(BottomRight) == sig;
    AdmitBottomRight(w, h, logo, sig, darkLogoUrl, lightLogoUrl, brightness,
                     Decide(w, h, dark, light, darkLogoUrl, lightLogoUrl, probe, brightness));
  }

  /**
   * With the same signals in every corner and the logo fitting everywhere
   * or nowhere, the four base scores are equal, and a positive one makes
   * bottom-right the winner.
   */
  lemma UniformWinner(w: nat, h: nat, logo: Dimensions, sig: Signals, fits: bool)
    requires forall c :: AnalyzeCorner(c, w, h, logo.width, logo.height, sig).spaceSufficient == fits
    requires Suitability(sig.hasText, sig.edgeDensity, fits) > 0.0
    ensures Winner(w, h, logo, Probe(sig, sig, sig, sig)) == BottomRight
  {
    UniformScores(w, h, logo.width, logo.height, sig, fits);
    EqualBaseScoresRankByBias(w, h, logo, Probe(sig, sig, sig, sig));
  }

  /** The admission rules on the bottom-right record of a logo that fits there. */
  lemma AdmitBottomRight(w: nat, h: nat, logo: Dimensions, sig: Signals,
                         darkLogoUrl: string, lightLogoUrl: string, brightness: Box -> real, d: Decision)
    requires logo.width <= w / 3 - PreferredMargin && logo.height <= h / 3 - PreferredMargin
    requires d == Admit(Some(Biased(AnalyzeCorner(BottomRight, w, h, logo.width, logo.height, sig))),
                        w, h, logo, darkLogoUrl, lightLogoUrl, brightness)
    ensures var score := 1.25 * Suitability(sig.hasText, sig.edgeDensity, true);
            var x, y := w - PreferredMargin - logo.width, h - PreferredMargin - logo.height;
            && (score >= ConfidenceThreshold ==>
                  d == Successful(Placement(BottomRight, x, y, logo.width, logo.height),
                                  SelectLogoVariant(brightness(Box(x, y, x + logo.width, y + logo.height))),
                                  if brightness(Box(x, y, x + logo.width, y + logo.height)) > BrightnessThreshold
                                  then darkLogoUrl else lightLogoUrl))
            && (score < ConfidenceThreshold ==> d == Failed(LowConfidence(score, BottomRight)))
  {
    var m := AnalyzeCorner(BottomRight, w, h, logo.width, logo.height, sig);
    var x, y := w - PreferredMargin - logo.width, h - PreferredMargin - logo.height;
    assert m.availableWidth >= w / 3 - PreferredMargin && m.availableHeight >= h / 3 - PreferredMargin;
    assert m.placementX == x && m.placementY == y && m.spaceSufficient;
    assert Box(x, y, x + logo.width, y + logo.height).Within(w, h);
  }

  /**
   * A background whose four corners look alike, with a logo wider or
   * taller than any corner leaves room for: bottom-right still wins the
   * ranking, and the decision fails for lack of space there.
   */
  lemma UniformBackgroundNoRoom(w: nat, h: nat, dark: Option<Shape>, light: Option<Shape>,
                                darkLogoUrl: string, lightLogoUrl: string, sig: Signals, brightness: Box -> real)
    requires var logo := LogoDimensions(dark, light);
             logo.width > (w + 2) / 3 - PreferredMargin || logo.height > (h + 2) / 3 - PreferredMargin
    requires Suitability(sig.hasText, sig.edgeDensity, false) > 0.0
    ensures var logo := LogoDimensions(dark, light);
            var region := Region(BottomRight, w, h);
            Decide(w, h, dark, light, darkLogoUrl, lightLogoUrl, Probe(sig, sig, sig, sig), brightness)
            == Failed(InsufficientSpace(BottomRight, region.Width() - PreferredMargin, region.Height() - PreferredMargin,
                                        logo.width, logo.height))
  {
    var logo := LogoDimensions(dark, light);
    var probe := Probe(sig, sig, sig, sig);
    FitsNowhere(w, h, logo.width, logo.height, sig);
    UniformWinner(w, h, logo, sig, false);
    DecideAdmitsWinner(w, h, dark, light, darkLogoUrl, lightLogoUrl, probe, brightness);
    assert probe.At(BottomRight) == sig;
    AdmitBottomRightNoRoom(w, h, logo, sig, darkLogoUrl, lightLogoUrl, brightness,
                           Decide(w, h, dark, light, darkLogoUrl, lightLogoUrl, probe, brightness));
  }

  /** The admission rules on the bottom-right record of a logo that does not fit there. */
  lemma AdmitBottomRightNoRoom(w: nat, h: nat, logo: Dimensions, sig: Signals,
                               darkLogoUrl: string, lightLogoUrl: string, brightness: Box -> real, d: Decision)
    requires logo.width > (w + 2) / 3 - PreferredMargin || logo.height > (h + 2) / 3 - PreferredMargin
    requires d == Admit(Some(Biased(AnalyzeCorner(BottomRight, w, h, logo.width, logo.height, sig))),
                        w, h, logo, darkLogoUrl, lightLogoUrl, brightness)
    ensures var region := Region(BottomRight, w, h);
            d == Failed(InsufficientSpace(BottomRight, region.Width() - PreferredMargin, region.Height() - PreferredMargin,
                                        logo.width, logo.height))
  {
    var m := AnalyzeCorner(BottomRight, w, h, logo.width, logo.height, sig);
    assert m.availableWidth <= (w + 2) / 3 - PreferredMargin && m.availableHeight <= (h + 2) / 3 - PreferredMargin;
    assert !Biased(m).spaceSufficient;
  }

  /** A logo within a third of each side, less the margin, fits in every corner. */
  lemma FitsEverywhere(w: nat, h: nat, logoWidth: int, logoHeight: int, sig: Signals)
    requires logoWidth <= w / 3 - PreferredMargin && logoHeight <= h / 3 - PreferredMargin
    ensures forall c :: AnalyzeCorner(c, w, h, logoWidth, logoHeight, sig).spaceSufficient
  {
    forall c ensures AnalyzeCorner(c, w, h, logoWidth, logoHeight, sig).spaceSufficient {
      var m := AnalyzeCorner(c, w, h, logoWidth, logoHeight, sig);
      assert m.availableWidth >= w / 3 - PreferredMargin && m.availableHeight >= h / 3 - PreferredMargin;
    }
  }

  /** A logo wider or taller than the widest third, less the margin, fits in no corner. */
  lemma FitsNowhere(w: nat, h: nat, logoWidth: int, logoHeight: int, sig: Signals)
    requires logoWidth > (w + 2) / 3 - PreferredMargin || logoHeight > (h + 2) / 3 - PreferredMargin
    ensures forall c :: !AnalyzeCorner(c, w, h, logoWidth, logoHeight, sig).spaceSufficient
  {
    forall c ensures !AnalyzeCorner(c, w, h, logoWidth, logoHeight, sig).spaceSufficient {
      var m := AnalyzeCorner(c, w, h, logoWidth, logoHeight, sig);
      assert m.availableWidth <= (w + 2) / 3 - PreferredMargin && m.availableHeight <= (h + 2) / 3 - PreferredMargin;
    }
  }

  /** The same signals everywhere and the same fit everywhere give the same base score everywhere. */
  lemma UniformScores(w: nat, h: nat, logoWidth: int, logoHeight: int, sig: Signals, fits: bool)
    requires forall c :: AnalyzeCorner(c, w, h, logoWidth, logoHeight, sig).spaceSufficient == fits
    ensures forall c :: AnalyzeCorner(c, w, h, logoWidth, logoHeight, Probe(sig, sig, sig, sig).At(c)).suitability
                        == Suitability(sig.hasText, sig.edgeDensity, fits)
  {
    forall c ensures AnalyzeCorner(c, w, h, logoWidth, logoHeight, Probe(sig, sig, sig, sig).At(c)).suitability
                     == Suitability(sig.hasText, sig.edgeDensity, fits) {
      assert Probe(sig, sig, sig, sig).At(c) == sig;
    }
  }

  /**
   * A corner free of text and clutter where the logo fits guarantees a
   * successful decision: its biased score is at least 1, while a corner
   * where the logo does not fit scores at most 0.125.
   */
  lemma CleanCornerGuaranteesSuccess(w: nat, h: nat, dark: Option<Shape>, light: Option<Shape>,
                                     darkLogoUrl: string, lightLogoUrl: string, probe: Probe,
                                     brightness: Box -> real, c: Corner)
    requires probe.Valid()
    requires !probe.At(c).hasText && probe.At(c).edgeDensity <= EdgeDensityThreshold
    requires var logo := LogoDimensions(dark, light);
             AnalyzeCorner(c, w, h, logo.width, logo.height, probe.At(c)).spaceSufficient
    ensures Decide(w, h, dark, light, darkLogoUrl, lightLogoUrl, probe, brightness).Successful?
  {
    var logo := LogoDimensions(dark, light);
    WinnerIsFirstBest(w, h, logo, probe);
    DecideAdmitsWinner(w, h, dark, light, darkLogoUrl, lightLogoUrl, probe, brightness);
    var win := Winner(w, h, logo, probe);
    var m := AnalyzeCorner(win, w, h, logo.width, logo.height, probe.At(win));
    assert probe.At(win).Valid();
    assert BiasedScore(c, w, h, logo, probe) >= 1.0;
    assert BiasedScore(win, w, h, logo, probe) >= 1.0;
  }

  /**
   * When the logo fits in no corner, the decision fails for lack of space,
   * naming the winning corner, its available space and the logo size.
   */
  lemma NoRoomFails(w: nat, h: nat, dark: Option<Shape>, light: Option<Shape>,
                    darkLogoUrl: string, lightLogoUrl: string, probe: Probe, brightness: Box -> real)
    requires var logo := LogoDimensions(dark, light);
             forall c :: !AnalyzeCorner(c, w, h, logo.width, logo.height, probe.At(c)).spaceSufficient
    ensures var logo := LogoDimensions(dark, light);
            var c := Winner(w, h, logo, probe);
            var m := AnalyzeCorner(c, w, h, logo.width, logo.height, probe.At(c));
            Decide(w, h, dark, light, darkLogoUrl, lightLogoUrl, probe, brightness)
            == Failed(InsufficientSpace(c, m.availableWidth, m.availableHeight, logo.width, logo.height))
  {
    DecideAdmitsWinner(w, h, dark, light, darkLogoUrl, lightLogoUrl, probe, brightness);
  }

  /**
   * The corner loop of analyze_placement: every name of the evaluation
   * order is analysed, and each record the analysis yields gets the
   * corner's bias and is appended to the results.
   */
  method CollectCornerResults(w: nat, h: nat, logo: Dimensions, probe: Probe)
    returns (results: seq<CornerMetrics>)
    ensures results == CornerResults(CornerOrder, w, h, logo.width, logo.height, probe)
  {
    var corners := CornerOrder;
    results := [];
    var i := 0;
    while i < |corners|
      invariant 0 <= i <= |corners|
      invariant results == CornerResults(corners[..i], w, h, logo.width, logo.height, probe)
    {
      var cornerResult := AnalyzeCornerSpace(w, h, corners[i], logo.width, logo.height, probe);
      ResultsPrefixStep(corners, i, w, h, logo.width, logo.height, probe);
      if cornerResult.Some? {
        results := results + [Biased(cornerResult.value)];
      }
      i := i + 1;
    }
    assert corners[..i] == corners;
  }

  /** Extending the list of names by one extends the records by that name's record, if it has one. */
  lemma ResultsPrefixStep(names: seq<string>, k: nat, w: nat, h: nat, logoWidth: int, logoHeight: int, probe: Probe)
    requires k < |names|
    ensures CornerResults(names[..k + 1], w, h, logoWidth, logoHeight, probe)
            == match AnalyzeCornerSpace(w, h, names[k], logoWidth, logoHeight, probe)
               case None => CornerResults(names[..k], w, h, logoWidth, logoHeight, probe)
               case Some(m) => CornerResults(names[..k], w, h, logoWidth, logoHeight, probe) + [Biased(m)]
  {
    assert names[..k + 1][..k] == names[..k];
  }

  /**
   * analyze_placement from the resolved image size onwards: the logo size,
   * the corner records, the head of their ranking, then the admission
   * rules on it, filling in the decision as the analyzer fills in its
   * result.
   */
  method AnalyzePlacement(w: nat, h: nat, dark: Option<Shape>, light: Option<Shape>,
                          darkLogoUrl: string, lightLogoUrl: string, probe: Probe, brightness: Box -> real)
    returns (d: Decision)
    ensures d == Decide(w, h, dark, light, darkLogoUrl, lightLogoUrl, probe, brightness)
    ensures d != Failed(NoSuitableCorner)
  {
    var logo := LogoDimensions(dark, light);
    var results := CollectCornerResults(w, h, logo, probe);
    var best := BestCorner(results);

    if best.None? {
      d := Failed(NoSuitableCorner);
    } else {
      var winner := best.value;
      if !winner.spaceSufficient {
        d := Failed(InsufficientSpace(winner.corner, winner.availableWidth, winner.availableHeight,
                                      logo.width, logo.height));
      } else if winner.suitability < ConfidenceThreshold {
        d := Failed(LowConfidence(winner.suitability, winner.corner));
      } else {
        var choice := SelectLogoVariant(brightness(ClampRect(w, h, winner.placementX, winner.placementY,
                                                             logo.width, logo.height)));
        d := Successful(Placement(winner.corner, winner.placementX, winner.placementY, logo.width, logo.height),
                        choice, SelectedLogoUrl(choice, darkLogoUrl, lightLogoUrl));
      }
    }
    NoCornerFailureUnreachable(w, h, dark, light, darkLogoUrl, lightLogoUrl, probe, brightness);
  }
}
