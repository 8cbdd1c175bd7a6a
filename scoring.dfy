/**
 * CornerAnalyzer: margin arithmetic, placement anchor, space sufficiency
 * and the suitability score of one corner. Text recognition and edge
 * detection are not modelled; their answers for each corner region are
 * given as a Probe.
 */
module Scoring {
  import opened Common
  import opened Geometry

  /** What the vision libraries report for one corner region. */
  datatype Signals = Signals(hasText: bool, edgeDensity: real) {
    /** An edge density is a fraction of the region's pixels. */
    predicate Valid() { 0.0 <= edgeDensity <= 1.0 }
  }

  /** The signals of all four corner regions of one image. */
  datatype Probe = Probe(topLeft: Signals, topRight: Signals, bottomLeft: Signals, bottomRight: Signals) {
    function At(c: Corner): Signals {
      match c
      case TopLeft => topLeft
      case TopRight => topRight
      case BottomLeft => bottomLeft
      case BottomRight => bottomRight
    }

    predicate Valid() {
      topLeft.Valid() && topRight.Valid() && bottomLeft.Valid() && bottomRight.Valid()
    }
  }

  /** The analysis record of one corner. */
  datatype CornerMetrics = CornerMetrics(
    corner: Corner,
    availableWidth: int,
    availableHeight: int,
    placementX: int,
    placementY: int,
    hasText: bool,
    edgeDensity: real,
    spaceSufficient: bool,
    suitability: real)

  /** Above this edge density the score is scaled by the share of edge-free pixels. */
  const EdgeDensityThreshold: real := 0.1

  /**
   * The suitability score: 1.0, times 0.3 when the region has text, times
   * (1 - edge density) when the density exceeds 0.1, times 0.1 when the
   * logo does not fit. Each factor is a constant or depends on one signal
   * only, so the product is written with the density factor first.
   */
  function Suitability(hasText: bool, edgeDensity: real, spaceSufficient: bool): (s: real)
    ensures 0.0 <= edgeDensity <= 1.0 ==> 0.0 <= s <= 1.0
    ensures 0.0 <= edgeDensity <= 1.0 && !spaceSufficient ==> s <= 0.1
    ensures !hasText && edgeDensity <= EdgeDensityThreshold && spaceSufficient ==> s == 1.0
  {
    var edges := if edgeDensity > EdgeDensityThreshold then 1.0 - edgeDensity else 1.0;
    var afterText := if hasText then 0.3 * edges else edges;
    if spaceSufficient then afterText else 0.1 * afterText
  }

  /** Each penalty multiplies the score independently of the others. */
  lemma PenaltiesCompose(hasText: bool, edgeDensity: real, spaceSufficient: bool)
    ensures Suitability(true, edgeDensity, spaceSufficient)
            == 0.3 * Suitability(false, edgeDensity, spaceSufficient)
    ensures Suitability(hasText, edgeDensity, false)
            == 0.1 * Suitability(hasText, edgeDensity, true)
    ensures edgeDensity <= EdgeDensityThreshold ==>
              Suitability(hasText, edgeDensity, spaceSufficient) == Suitability(hasText, 0.0, spaceSufficient)
    ensures edgeDensity > EdgeDensityThreshold ==>
              Suitability(hasText, edgeDensity, spaceSufficient)
              == (1.0 - edgeDensity) * Suitability(hasText, 0.0, spaceSufficient)
  {
  }

  /** A density of 0.05 applies no penalty; a density of 0.2 scales the score by 0.8. */
  lemma EdgeDensityExamples(hasText: bool, spaceSufficient: bool)
    ensures Suitability(hasText, 0.05, spaceSufficient) == Suitability(hasText, 0.0, spaceSufficient)
    ensures Suitability(hasText, 0.2, spaceSufficient) == 0.8 * Suitability(hasText, 0.0, spaceSufficient)
  {
  }

  /**
   * analyze_corner_space for a corner that is one of the four keys: the
   * region minus the preferred margin is the available space, and the
   * anchor keeps the logo 25 pixels in from the two image edges that meet
   * at the corner.
   */
  function AnalyzeCorner(c: Corner, w: nat, h: nat, logoWidth: int, logoHeight: int, sig: Signals): (m: CornerMetrics)
    ensures m.corner == c && m.hasText == sig.hasText && m.edgeDensity == sig.edgeDensity
    ensures m.availableWidth == Region(c, w, h).Width() - PreferredMargin
    ensures m.availableHeight == Region(c, w, h).Height() - PreferredMargin
    ensures c.IsLeft() ==> m.placementX == PreferredMargin
    ensures !c.IsLeft() ==> m.placementX + logoWidth == w - PreferredMargin
    ensures c.IsTop() ==> m.placementY == PreferredMargin
    ensures !c.IsTop() ==> m.placementY + logoHeight == h - PreferredMargin
    ensures m.spaceSufficient <==> m.availableWidth >= logoWidth && m.availableHeight >= logoHeight
    ensures m.spaceSufficient ==>
              var b := Region(c, w, h);
              b.x1 <= m.placementX && m.placementX + logoWidth <= b.x2 &&
              b.y1 <= m.placementY && m.placementY + logoHeight <= b.y2
    ensures m.suitability == Suitability(sig.hasText, sig.edgeDensity, m.spaceSufficient)
  {
    var b := Region(c, w, h);
    var availableX := b.x2 - b.x1 - PreferredMargin;
    var availableY := b.y2 - b.y1 - PreferredMargin;
    var px := if c.IsLeft() then PreferredMargin else b.x1 + availableX - logoWidth;
    var py := if c.IsTop() then PreferredMargin else b.y1 + availableY - logoHeight;
    var sufficient := availableX >= logoWidth && availableY >= logoHeight;
    CornerMetrics(c, availableX, availableY, px, py, sig.hasText, sig.edgeDensity, sufficient,
                  Suitability(sig.hasText, sig.edgeDensity, sufficient))
  }

  /**
   * analyze_corner_space as called with a corner name: None for a name
   * that is not a key of the corner dictionary.
   */
  function AnalyzeCornerSpace(w: nat, h: nat, name: string, logoWidth: int, logoHeight: int, probe: Probe): Option<CornerMetrics> {
    match LookupCorner(name)
    case None => None
    case Some(c) => Some(AnalyzeCorner(c, w, h, logoWidth, logoHeight, probe.At(c)))
  }

  /**
   * The analysis yields a record exactly for the four corner names, and
   * that record is the analysis of the corner of that name with its signals.
   */
  lemma AnalyzeCornerSpaceKeys(w: nat, h: nat, name: string, logoWidth: int, logoHeight: int, probe: Probe)
    ensures var r := AnalyzeCornerSpace(w, h, name, logoWidth, logoHeight, probe);
            && (r.Some? <==> name in CornerOrder)
            && (r.Some? ==> r.value.corner.Name() == name)
            && (r.Some? ==> r.value == AnalyzeCorner(r.value.corner, w, h, logoWidth, logoHeight, probe.At(r.value.corner)))
  {
    LookupKeys(name);
  }
}
