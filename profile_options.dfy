/**
 * The profile card's options, as the caller passes them, and the copy of them
 * (`scaledOptions`) that the renderer extends with the scale and then writes
 * into while it renders.
 */
module ProfileOptions {
  import opened Wrappers
  import opened Common
  import opened Gradient

  /** The design space every absolute coordinate of the card is written in. */
  const REFERENCE_WIDTH: real := 885.0
  const REFERENCE_HEIGHT: real := 303.0

  datatype BorderAllign = Horizontal | Vertical
  datatype XpBarStyle = Rounded | Sharp | Capsule
  datatype GradientDirection = GradientHorizontal | GradientVertical | GradientRadial

  /** A JavaScript number that may be NaN. */
  datatype Num = Num(value: real) | NaN

  /**
   * The `rankData` option. Fields with a destructuring default are Options
   * (the default applies only to `undefined`); an empty string is a falsy one.
   */
  datatype RankData = RankData(
    currentXp: Num,
    requiredXp: Num,
    level: Num,
    rank: Option<Num>,
    barColor: ColorSpec,
    levelColor: string,
    autoColorRank: bool,
    rankColor: string,
    rankPrefix: Option<string>,
    hideRank: bool,
    hideLevel: bool,
    showPercentage: bool,
    xpBarHeight: Option<real>,
    xpBarStyle: Option<XpBarStyle>,
    barGradientDirection: Option<GradientDirection>,
    barBorder: Option<BorderStyle>)

  /**
   * The profile card options. An empty string, a 0 and false stand for a
   * missing (falsy) option; Options are those read with `??`.
   */
  datatype ProfileOptions = ProfileOptions(
    customUsername: string,
    customTag: string,
    customSubtitle: string,
    multilineSubtitle: Option<seq<string>>,
    customBadges: seq<string>,
    overwriteBadges: bool,
    customBackground: string,
    usernameColor: string,
    tagColor: string,
    color: string,
    borderColor: ColorSpec,
    borderAllign: Option<BorderAllign>,
    disableProfileTheme: bool,
    disableBackgroundBlur: bool,
    moreBackgroundBlur: bool,
    backgroundBrightness: real,
    overlayColor: string,
    badgesFrame: bool,
    removeBadges: bool,
    removeBorder: bool,
    presenceStatus: string,
    squareAvatar: bool,
    customDate: string,
    localDateType: string,
    hideDate: bool,
    removeAvatarFrame: bool,
    rankData: Option<RankData>,
    customFont: string,
    usernameSize: real,
    tagSize: real,
    textShadow: bool,
    textStroke: Option<BorderStyle>,
    avatarBorder: Option<BorderStyle>,
    badgePosition: string,
    badgeSpacing: Option<real>,
    badgeOpacity: Option<real>,
    badgeScale: Option<real>,
    customWidth: nat,
    customHeight: nat)

  /** The canvas size and the factors from the reference design to it; 0 stands for an unset field. */
  datatype ScaleContext = ScaleContext(width: real, height: real, scaleX: real, scaleY: real) {
    predicate Valid() {
      width > 0.0 && height > 0.0 && scaleX > 0.0 && scaleY > 0.0
    }
  }

  /**
   * `scaledOptions`: a fresh copy of the caller's options carrying the scale
   * (`_canvasWidth`, `_scaleX`, ...). The renderer writes three of its fields.
   */
  class ScaledOptions {
    const options: ProfileOptions
    const scale: ScaleContext
    var customTag: string
    var borderColor: ColorSpec
    var borderAllign: Option<BorderAllign>

    constructor (options: ProfileOptions, scale: ScaleContext)
      ensures this.options == options && this.scale == scale
      ensures customTag == options.customTag
      ensures borderColor == options.borderColor && borderAllign == options.borderAllign
    {
      this.options := options;
      this.scale := scale;
      customTag := options.customTag;
      borderColor := options.borderColor;
      borderAllign := options.borderAllign;
    }
  }
}
