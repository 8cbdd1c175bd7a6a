/**
 * VariantSelector: the choice between the dark and the light logo from the
 * mean brightness of the background under the placement. Computing the
 * mean is not modelled; the brightness is an input.
 */
module Variant {

  /** Above this mean brightness the background counts as bright. */
  const BrightnessThreshold: real := 127.0

  datatype VariantChoice = VariantChoice(useDarkLogo: bool, backgroundBrightness: real, contrastRatio: real)

  /**
   * select_logo_variant: a bright background (strictly above 127) takes the
   * dark logo, anything else the light one; the contrast ratio is the
   * brightness on the dark logo's side and its complement on the light
   * logo's side, so it always exceeds 127/255.
   */
  function SelectLogoVariant(brightness: real): (v: VariantChoice)
    ensures v.useDarkLogo <==> brightness > BrightnessThreshold
    ensures v.backgroundBrightness == brightness
    ensures v.useDarkLogo ==> v.contrastRatio == brightness / 255.0
    ensures !v.useDarkLogo ==> v.contrastRatio == (255.0 - brightness) / 255.0
    ensures v.contrastRatio > BrightnessThreshold / 255.0
    ensures 0.0 <= brightness <= 255.0 ==> v.contrastRatio <= 1.0
  {
    var useDark := brightness > BrightnessThreshold;
    VariantChoice(useDark, brightness, if useDark then brightness / 255.0 else (255.0 - brightness) / 255.0)
  }

  /** The boundary of the rule: 127 selects the light logo, 128 the dark one. */
  lemma BrightnessBoundary()
    ensures !SelectLogoVariant(127.0).useDarkLogo
    ensures SelectLogoVariant(128.0).useDarkLogo
  {
  }

  /** The URL of the chosen logo. */
  function SelectedLogoUrl(choice: VariantChoice, darkLogoUrl: string, lightLogoUrl: string): string
  {
    if choice.useDarkLogo then darkLogoUrl else lightLogoUrl
  }
}
