/**
 * Resolution of the target logo size from the two logo assets. Fetching
 * and decoding are not modelled: each asset is given as the shape of the
 * decoded image, or None when it could not be fetched or decoded.
 */
module Assets {
  import opened Common

  /** The shape of a decoded image in array order: rows, then columns. */
  datatype Shape = Shape(height: nat, width: nat)

  /** A width and height in pixels. */
  datatype Dimensions = Dimensions(width: nat, height: nat)

  const DefaultLogoSize: Dimensions := Dimensions(100, 50)

  /**
   * get_logo_dimensions: the size of the dark logo, else of the light logo,
   * else 100 x 50. A shape lists rows before columns, so it is read as (height, width) and reported as (width, height).
   */
  function LogoDimensions(dark: Option<Shape>, light: Option<Shape>): (d: Dimensions)
    ensures dark.Some? ==> d.width == dark.value.width && d.height == dark.value.height
    ensures dark.None? && light.Some? ==> d.width == light.value.width && d.height == light.value.height
    ensures dark.None? && light.None? ==> d == DefaultLogoSize
  {
    match dark
    case Some(s) => Dimensions(s.width, s.height)
    case None =>
      match light
      case Some(s) => Dimensions(s.width, s.height)
      case None => DefaultLogoSize
  }

  /** An asset that is either absent or, when present, has both sides positive. */
  predicate NonEmptyIfPresent(s: Option<Shape>) {
    s.None? || (s.value.width > 0 && s.value.height > 0)
  }

  /**
   * The dark logo decides the size whenever it decodes, whatever the light
   * logo is; and the resolved size is positive when every decoded asset is.
   */
  lemma LogoDimensionsPrecedence(dark: Option<Shape>, light: Option<Shape>, light': Option<Shape>)
    ensures dark.Some? ==> LogoDimensions(dark, light) == LogoDimensions(dark, light')
    ensures NonEmptyIfPresent(dark) && NonEmptyIfPresent(light) ==>
              LogoDimensions(dark, light).width > 0 && LogoDimensions(dark, light).height > 0
  {
  }
}
