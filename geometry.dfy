/**
 * RegionGeometry: the four fixed corner regions of an image, the margin
 * constants of the analyzer, and the clamp of a rectangle to the image
 * bounds used before sampling brightness.
 */
module Geometry {
  import opened Common

  /** Preferred space, in pixels, between a logo and the image edges it is anchored to. */
  const PreferredMargin: int := 25

  datatype Corner = TopLeft | TopRight | BottomLeft | BottomRight {

    /** The key under which the analyzer names this corner. */
    function Name(): string {
      match this
      case TopLeft => "top-left"
      case TopRight => "top-right"
      case BottomLeft => "bottom-left"
      case BottomRight => "bottom-right"
    }

    predicate IsLeft() { this == TopLeft || this == BottomLeft }

    predicate IsTop() { this == TopLeft || this == TopRight }
  }

  /** The corner names in the order the placement analysis evaluates them. */
  const CornerOrder: seq<string> := ["top-left", "top-right", "bottom-left", "bottom-right"]

  /** An axis-aligned rectangle from (x1, y1) inclusive to (x2, y2) exclusive. */
  datatype Box = Box(x1: int, y1: int, x2: int, y2: int) {
    function Width(): int { x2 - x1 }
    function Height(): int { y2 - y1 }

    /** The rectangle lies inside the image of the given size. */
    predicate Within(w: int, h: int) {
      0 <= x1 <= x2 <= w && 0 <= y1 <= y2 <= h
    }
  }

  /**
   * The dictionary lookup `corners[corner]`: a name that is not one of the
   * four keys finds nothing.
   */
  function LookupCorner(name: string): Option<Corner> {
    if name == "top-left" then Some(TopLeft)
    else if name == "top-right" then Some(TopRight)
    else if name == "bottom-left" then Some(BottomLeft)
    else if name == "bottom-right" then Some(BottomRight)
    else None
  }

  /** The lookup finds a corner exactly for the four keys, and the corner it finds has that name. */
  lemma LookupKeys(name: string)
    ensures LookupCorner(name).Some? <==> name in CornerOrder
    ensures LookupCorner(name).Some? ==> LookupCorner(name).value.Name() == name
  {
  }

  /** Looking a corner's own name up finds that corner. */
  lemma LookupName(c: Corner)
    ensures LookupCorner(c.Name()) == Some(c)
  {
    match c
    case TopLeft =>
    case TopRight =>
      assert c.Name()[4] != "top-left"[4];
    case BottomLeft =>
      assert c.Name()[0] != "top-left"[0] && c.Name()[0] != "top-right"[0];
    case BottomRight =>
      assert c.Name()[0] != "top-left"[0] && c.Name()[0] != "top-right"[0];
      assert c.Name()[7] != "bottom-left"[7];
  }

  /**
   * The bounding box of a corner: the left or right third of the width
   * (split at w//3 and w*2//3) crossed with the top or bottom third of the
   * height. The right and bottom thirds are the rounded-up third, one pixel
   * wider than the inner cut unless the side is a multiple of 3, because the
   * two cuts are rounded down independently.
   */
  function Region(c: Corner, w: nat, h: nat): (b: Box)
    ensures b.Within(w, h)
    ensures c.IsLeft() ==> b.x1 == 0 && b.Width() == w / 3
    ensures !c.IsLeft() ==> b.x1 == w * 2 / 3 && b.x2 == w && b.Width() == (w + 2) / 3
    ensures c.IsTop() ==> b.y1 == 0 && b.Height() == h / 3
    ensures !c.IsTop() ==> b.y1 == h * 2 / 3 && b.y2 == h && b.Height() == (h + 2) / 3
  {
    var xa, xb := if c.IsLeft() then 0 else w * 2 / 3, if c.IsLeft() then w / 3 else w;
    var ya, yb := if c.IsTop() then 0 else h * 2 / 3, if c.IsTop() then h / 3 else h;
    Box(xa, ya, xb, yb)
  }

  /** The left regions end where the right regions start or earlier; likewise top and bottom. */
  lemma RegionsDisjoint(w: nat, h: nat)
    ensures Region(TopLeft, w, h).x2 <= Region(TopRight, w, h).x1
    ensures Region(BottomLeft, w, h).x2 <= Region(BottomRight, w, h).x1
    ensures Region(TopLeft, w, h).y2 <= Region(BottomLeft, w, h).y1
    ensures Region(TopRight, w, h).y2 <= Region(BottomRight, w, h).y1
  {
  }

  /**
   * The rectangle actually read when sampling brightness at (x, y) with
   * the given size: its corners are pushed into [0, w] x [0, h].
   */
  function ClampRect(w: nat, h: nat, x: int, y: int, width: int, height: int): (b: Box)
    ensures 0 <= b.x1 && 0 <= b.y1 && b.x2 <= w && b.y2 <= h
    ensures Box(x, y, x + width, y + height).Within(w, h) ==> b == Box(x, y, x + width, y + height)
  {
    Box(Max(0, x), Max(0, y), Min(w, x + width), Min(h, y + height))
  }
}
