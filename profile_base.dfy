/**
 * The two profile layers drawn at the requested size: the background
 * (`genBase`) and the frame with its backdrop panels (`genFrame`).
 */
module ProfileBase {
  import opened Wrappers
  import opened Canvas
  import opened Collaborators
  import opened Common
  import opened ProfileOptions

  /** The translucency of backdrop panels. */
  const ALPHA_VALUE: real := 0.4

  function MinReal(a: real, b: real): real {
    if a <= b then a else b
  }

  /**
   * `getCanvasDimensions`: the size and scale carried by the options, each
   * falling back to the reference design when unset.
   */
  function CanvasDimensions(carried: ScaleContext): (d: ScaleContext)
    ensures d.width != 0.0 && d.height != 0.0 && d.scaleX != 0.0 && d.scaleY != 0.0
    ensures carried.Valid() ==> d == carried
    ensures carried == ScaleContext(0.0, 0.0, 0.0, 0.0) ==>
      d == ScaleContext(REFERENCE_WIDTH, REFERENCE_HEIGHT, 1.0, 1.0)
  {
    ScaleContext(
      if carried.width != 0.0 then carried.width else REFERENCE_WIDTH,
      if carried.height != 0.0 then carried.height else REFERENCE_HEIGHT,
      if carried.scaleX != 0.0 then carried.scaleX else 1.0,
      if carried.scaleY != 0.0 then carried.scaleY else 1.0)
  }

  // ---------------------------------------------------------------- genBase

  /** The background image chosen, and whether it is drawn over the whole canvas. */
  datatype CardBackground = CardBackground(image: Image, fillsCanvas: bool)

  /** What is loaded first: the custom background, else the banner, else the avatar. */
  function BackgroundSource(o: ProfileOptions, avatarData: string, bannerData: Option<string>, env: Env): string {
    if o.customBackground != "" then env.parseImg(o.customBackground) else bannerData.GetOr(avatarData)
  }

  /**
   * The fallback chain of the background: the first choice, else the avatar.
   * The image fills the canvas when a custom background is set or a banner
   * loaded; an avatar standing in for a missing banner is zoomed instead.
   */
  function ResolveBackground(o: ProfileOptions, avatarData: string, bannerData: Option<string>, env: Env)
    : (r: Result<CardBackground, Error>)
    ensures var first := env.loadImage(BackgroundSource(o, avatarData, bannerData, env));
      && (r.Failure? <==> first.None? && env.loadImage(avatarData).None?)
      && (r.Failure? ==> r.error == ImageLoadFailed(avatarData))
      && (r.Success? && first.Some? ==> r.value.image == first.value)
      && (r.Success? && first.None? ==> r.value.image == env.loadImage(avatarData).value)
      && (r.Success? ==> (r.value.fillsCanvas <==> o.customBackground != "" || (first.Some? && bannerData.Some?)))
  {
    match env.loadImage(BackgroundSource(o, avatarData, bannerData, env))
    case Some(img) => Success(CardBackground(img, o.customBackground != "" || bannerData.Some?))
    case None =>
      match env.loadImage(avatarData)
      case Some(img) => Success(CardBackground(img, o.customBackground != ""))
      // drawImage is then handed no image at all and throws
      case None => Failure(ImageLoadFailed(avatarData))
  }

  /** Where the background image is drawn: the whole canvas, or a zoomed square raised above the top edge. */
  function BackgroundRect(fillsCanvas: bool, d: ScaleContext): Rect {
    if fillsCanvas then Rect(0.0, 0.0, d.width, d.height)
    else Rect(0.0, -345.0 * d.scaleY, 900.0 * d.scaleX, 900.0 * d.scaleX)
  }

  /**
   * The zoomed avatar always spans the card's width; it reaches the bottom
   * edge exactly when 900·scaleX ≥ 648·scaleY, so always at equal scales.
   */
  lemma ZoomedBackgroundCoverage(s: ScaleContext)
    requires s.Valid()
    requires s.width == REFERENCE_WIDTH * s.scaleX && s.height == REFERENCE_HEIGHT * s.scaleY
    ensures var r := BackgroundRect(false, CanvasDimensions(s));
      && r.w == r.h
      && r.x <= 0.0 && r.Right() > s.width
      && r.y < 0.0
      && (r.Bottom() >= s.height <==> 900.0 * s.scaleX >= 648.0 * s.scaleY)
  {
  }

  /** The filter under which the background is drawn. */
  function BackgroundFilter(o: ProfileOptions): (f: Filter)
    ensures f.Blur? && (f.px == 9.0 || f.px == 3.0 || f.px == 0.0)
    ensures f.px == 9.0 <==> o.moreBackgroundBlur
    ensures f.px == 0.0 <==> !o.moreBackgroundBlur && o.disableBackgroundBlur
    ensures f.brightness.Some? <==> o.backgroundBrightness != 0.0
    ensures f.brightness.Some? ==> f.brightness.value == o.backgroundBrightness + 100.0
  {
    Blur(
      if o.moreBackgroundBlur then 9.0 else if o.disableBackgroundBlur then 0.0 else 3.0,
      if o.backgroundBrightness != 0.0 then Some(o.backgroundBrightness + 100.0) else None)
  }

  function OverlayColor(o: ProfileOptions): string {
    if o.overlayColor != "" then o.overlayColor else "rgba(42, 45, 51, 0.2)"
  }

  /**
   * `genBase`: an opaque fill, the background image, then the overlay, the
   * first and last covering the whole canvas. The filter set for the image
   * is never reset, so the overlay is filled under it too.
   */
  function BaseLayer(o: ProfileOptions, carried: ScaleContext, avatarData: string, bannerData: Option<string>, env: Env)
    : (r: Result<Layer, Error>)
    ensures r.Failure? <==> ResolveBackground(o, avatarData, bannerData, env).Failure?
    ensures r.Success? ==>
      var d := CanvasDimensions(carried);
      var bg := ResolveBackground(o, avatarData, bannerData, env).value;
      && r.value.kind == Background && |r.value.cmds| == 3
      && r.value.cmds[0].FillRect? && r.value.cmds[0].rect == Rect(0.0, 0.0, d.width, d.height)
      && r.value.cmds[1] == DrawImage(Loaded(bg.image), BackgroundRect(bg.fillsCanvas, d), 1.0, BackgroundFilter(o))
      && r.value.cmds[0].filter == NoFilter
      && r.value.cmds[2] == FillRect(Rect(0.0, 0.0, d.width, d.height), Solid(OverlayColor(o)), 1.0, BackgroundFilter(o))
  {
    var d := CanvasDimensions(carried);
    var bg :- ResolveBackground(o, avatarData, bannerData, env);
    var whole := Rect(0.0, 0.0, d.width, d.height);
    Success(Layer(Background, [
      FillRect(whole, Solid("#18191c"), 1.0, NoFilter),
      DrawImage(Loaded(bg.image), BackgroundRect(bg.fillsCanvas, d), 1.0, BackgroundFilter(o)),
      FillRect(whole, Solid(OverlayColor(o)), 1.0, BackgroundFilter(o))]))
  }

  // --------------------------------------------------------------- genFrame

  function DateBackdrop(d: ScaleContext): RoundedRect {
    RoundedRect(
      Rect(696.0 * d.scaleX, 248.0 * d.scaleY, 165.0 * d.scaleX, 33.0 * d.scaleY),
      12.0 * MinReal(d.scaleX, d.scaleY))
  }

  /** The panel behind `count` badges: it grows leftwards, its right edge fixed at 865·scaleX. */
  function BadgeBackdrop(count: nat, d: ScaleContext): (p: RoundedRect)
    ensures p.rect.Right() == 865.0 * d.scaleX
    ensures p.rect.w == (59.0 * count as real + 8.0) * d.scaleX
    ensures p.rect.y == 15.0 * d.scaleY && p.rect.h == 61.0 * d.scaleY
  {
    RoundedRect(
      Rect(857.0 * d.scaleX - count as real * 59.0 * d.scaleX, 15.0 * d.scaleY,
           (59.0 * count as real + 8.0) * d.scaleX, 61.0 * d.scaleY),
      17.0 * MinReal(d.scaleX, d.scaleY))
  }

  function Panel(p: RoundedRect): Cmd {
    FillRoundRect(p.rect, p.radius, Solid("#000"), ALPHA_VALUE)
  }

  predicate BadgeBackdropShown(count: nat, o: ProfileOptions) {
    o.badgesFrame && count > 0 && !o.removeBadges
  }

  /**
   * `genFrame`: the frame asset over the whole canvas at half opacity, then
   * the date panel unless dates are hidden, then the badge panel when asked
   * for, badges exist and are not removed.
   */
  function FrameLayer(badgeCount: nat, o: ProfileOptions, carried: ScaleContext): (l: Layer)
    ensures l.kind == Frame
    ensures var d := CanvasDimensions(carried);
      && |l.cmds| == 1 + (if o.hideDate then 0 else 1) + (if BadgeBackdropShown(badgeCount, o) then 1 else 0)
      && l.cmds[0] == DrawImage(Bundled("frame"), Rect(0.0, 0.0, d.width, d.height), 0.5, NoFilter)
      && (Panel(DateBackdrop(d)) in l.cmds <==> !o.hideDate)
      && (Panel(BadgeBackdrop(badgeCount, d)) in l.cmds <==> BadgeBackdropShown(badgeCount, o))
  {
    var d := CanvasDimensions(carried);
    Layer(Frame,
      [DrawImage(Bundled("frame"), Rect(0.0, 0.0, d.width, d.height), 0.5, NoFilter)]
      + (if !o.hideDate then [Panel(DateBackdrop(d))] else [])
      + (if BadgeBackdropShown(badgeCount, o) then [Panel(BadgeBackdrop(badgeCount, d))] else []))
  }
}
