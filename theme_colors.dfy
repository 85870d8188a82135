/** The theme helpers of src/hooks/use-theme-colors.ts. */
module ThemeColors {
  import opened Common

  datatype ThemeFonts = ThemeFonts(heading: Option<string>, body: Option<string>)

  /** The theme part of the restaurant config; every entry may be missing. */
  datatype Theme = Theme(
    primary: Option<string>,
    secondary: Option<string>,
    accent: Option<string>,
    success: Option<string>,
    warning: Option<string>,
    error: Option<string>,
    background: Option<string>,
    foreground: Option<string>,
    fonts: Option<ThemeFonts>)

  const NoTheme := Theme(None, None, None, None, None, None, None, None, None)

  const DefaultPrimary: string := "#8B4513"
  const DefaultSecondary: string := "#FF8C00"
  const DefaultAccent: string := "#F5E6D3"
  const DefaultSuccess: string := "#16a34a"
  const DefaultWarning: string := "#ea580c"
  const DefaultError: string := "#dc2626"
  const DefaultBackground: string := "#ffffff"
  const DefaultForeground: string := "#1f2937"

  datatype Colors = Colors(
    primary: string, secondary: string, accent: string, success: string,
    warning: string, error: string, background: string, foreground: string, fonts: ThemeFonts)

  /** The colour values `useThemeColors` returns. */
  function ThemeColorValues(theme: Option<Theme>): (c: Colors)
    ensures var t := if theme.Some? then theme.value else NoTheme;
      && c.primary == OrElse(t.primary, DefaultPrimary)
      && c.secondary == OrElse(t.secondary, DefaultSecondary)
      && c.accent == OrElse(t.accent, DefaultAccent)
      && c.success == OrElse(t.success, DefaultSuccess)
      && c.warning == OrElse(t.warning, DefaultWarning)
      && c.error == OrElse(t.error, DefaultError)
      && c.background == OrElse(t.background, DefaultBackground)
      && c.foreground == OrElse(t.foreground, DefaultForeground)
      && c.fonts == (if t.fonts.Some? then t.fonts.value else ThemeFonts(Some("Inter"), Some("Inter")))
    ensures theme.None? ==> c == Colors(DefaultPrimary, DefaultSecondary, DefaultAccent, DefaultSuccess,
      DefaultWarning, DefaultError, DefaultBackground, DefaultForeground, ThemeFonts(Some("Inter"), Some("Inter")))
  {
    var t := if theme.Some? then theme.value else NoTheme;
    Colors(
      OrElse(t.primary, DefaultPrimary),
      OrElse(t.secondary, DefaultSecondary),
      OrElse(t.accent, DefaultAccent),
      OrElse(t.success, DefaultSuccess),
      OrElse(t.warning, DefaultWarning),
      OrElse(t.error, DefaultError),
      OrElse(t.background, DefaultBackground),
      OrElse(t.foreground, DefaultForeground),
      if t.fonts.Some? then t.fonts.value else ThemeFonts(Some("Inter"), Some("Inter")))
  }

  function LinearGradient(from: string, to: string): string
  {
    "linear-gradient(135deg, " + from + " 0%, " + to + " 100%)"
  }

  /** `getGradient(from, to)`: explicit colours, else the theme's, else the defaults. */
  function Gradient(t: Theme, from: Option<string>, to: Option<string>): (r: string)
    ensures StrTruthy(from) && StrTruthy(to) ==> r == LinearGradient(from.value, to.value)
    ensures !StrTruthy(from) && !StrTruthy(to) ==>
      r == LinearGradient(ThemeColorValues(Some(t)).primary, ThemeColorValues(Some(t)).secondary)
    ensures StrTruthy(from) && !StrTruthy(to) ==> r == LinearGradient(from.value, ThemeColorValues(Some(t)).secondary)
    ensures !StrTruthy(from) && StrTruthy(to) ==> r == LinearGradient(ThemeColorValues(Some(t)).primary, to.value)
    ensures t.primary.None? && t.secondary.None? && from.None? && to.None? ==>
      r == "linear-gradient(135deg, #8B4513 0%, #FF8C00 100%)"
  {
    LinearGradient(OrElse(from, OrElse(t.primary, DefaultPrimary)), OrElse(to, OrElse(t.secondary, DefaultSecondary)))
  }

  /** `getPrimaryGradient`. */
  function PrimaryGradient(t: Theme): (r: string)
    ensures r == LinearGradient(ThemeColorValues(Some(t)).primary, ThemeColorValues(Some(t)).secondary)
    ensures t.primary.None? && t.secondary.None? ==> r == "linear-gradient(135deg, #8B4513 0%, #FF8C00 100%)"
  {
    LinearGradient(OrElse(t.primary, DefaultPrimary), OrElse(t.secondary, DefaultSecondary))
  }

  /** The primary gradient is the gradient with no explicit colours. */
  lemma PrimaryIsDefaultGradient(t: Theme)
    ensures PrimaryGradient(t) == Gradient(t, None, None)
    ensures PrimaryGradient(t) == LinearGradient(ThemeColorValues(Some(t)).primary, ThemeColorValues(Some(t)).secondary)
  {
  }

  datatype ButtonVariant = PrimaryButton | SecondaryButton | SuccessButton | ErrorButton

  datatype ButtonStyle = ButtonStyle(backgroundColor: string, backgroundImage: Option<string>)

  /** `getButtonStyle(variant)` (the variant defaults to primary). */
  function ButtonStyleFor(t: Theme, variant: ButtonVariant): (r: ButtonStyle)
    ensures r.backgroundImage.Some? <==> variant == PrimaryButton
    ensures r.backgroundImage.Some? ==> r.backgroundImage.value == PrimaryGradient(t)
    ensures var c := ThemeColorValues(Some(t));
      r.backgroundColor == match variant
        case PrimaryButton => c.primary
        case SecondaryButton => c.secondary
        case SuccessButton => c.success
        case ErrorButton => c.error
  {
    var color := match variant
      case PrimaryButton => OrElse(t.primary, DefaultPrimary)
      case SecondaryButton => OrElse(t.secondary, DefaultSecondary)
      case SuccessButton => OrElse(t.success, DefaultSuccess)
      case ErrorButton => OrElse(t.error, DefaultError);
    ButtonStyle(color, if variant == PrimaryButton then Some(PrimaryGradient(t)) else None)
  }

  datatype FontType = HeadingFont | BodyFont

  /** `getFontFamily(type)` (the type defaults to body): the theme's font, or Inter. */
  function FontFamily(t: Theme, which: FontType): (r: string)
    ensures r != ""
    ensures t.fonts.None? ==> r == "Inter"
    ensures t.fonts.Some? && which == HeadingFont ==> r == OrElse(t.fonts.value.heading, "Inter")
    ensures t.fonts.Some? && which == BodyFont ==> r == OrElse(t.fonts.value.body, "Inter")
  {
    var fonts := if t.fonts.Some? then t.fonts.value else ThemeFonts(Some("Inter"), Some("Inter"));
    if which == HeadingFont then OrElse(fonts.heading, "Inter") else OrElse(fonts.body, "Inter")
  }

  datatype ThemedStyles = ThemedStyles(
    primaryButtonBackground: string,
    primaryButtonColor: string,
    secondaryButtonBackground: string,
    accentBackground: string,
    primaryText: string,
    gradientText: string,
    headingFont: string,
    bodyFont: string)

  /** `getThemedStyles(theme)`: the hook's colours, gradient and fonts, with white text on
      the primary button. */
  function ThemedStylesFor(t: Theme): (s: ThemedStyles)
    ensures var c := ThemeColorValues(Some(t));
      && s.primaryText == c.primary
      && s.secondaryButtonBackground == c.secondary
      && s.accentBackground == c.accent
      && s.primaryButtonColor == "#ffffff"
      && s.primaryButtonBackground == s.gradientText == PrimaryGradient(t)
      && s.headingFont == FontFamily(t, HeadingFont)
      && s.bodyFont == FontFamily(t, BodyFont)
  {
    ThemedStyles(
      LinearGradient(OrElse(t.primary, "#8B4513"), OrElse(t.secondary, "#FF8C00")),
      "#ffffff",
      OrElse(t.secondary, "#FF8C00"),
      OrElse(t.accent, "#F5E6D3"),
      OrElse(t.primary, "#8B4513"),
      LinearGradient(OrElse(t.primary, "#8B4513"), OrElse(t.secondary, "#FF8C00")),
      if t.fonts.Some? then OrElse(t.fonts.value.heading, "Inter") else "Inter",
      if t.fonts.Some? then OrElse(t.fonts.value.body, "Inter") else "Inter")
  }

  /** The standalone gradient is the hook's gradient with no explicit colours. */
  lemma ThemedStylesAgreeWithHook(t: Theme)
    ensures ThemedStylesFor(t).primaryButtonBackground == Gradient(t, None, None)
  {
    PrimaryIsDefaultGradient(t);
  }
}
