/**
 * The three layers of a welcome or goodbye banner: the background (an image
 * cover-fitted to the canvas, or a fixed gradient when there is none), the
 * round avatar with its ring, and the headline above the username. Unlike
 * the profile card there is no reference geometry and no scaling: every
 * position is computed from the canvas size and the options directly.
 */
module WelcomeBanner {
  import opened Wrappers
  import opened Canvas
  import opened Collaborators
  import opened Common

  /** The banner's `type` option. */
  datatype BannerType = Welcome | Goodbye

  /**
   * The banner options. Numbers and strings defaulted with `||` use 0 and ""
   * for a missing value; options defaulted with `??` are `Option`s.
   */
  datatype WelcomeOptions = WelcomeOptions(
    customWidth: nat,
    customHeight: nat,
    customBackground: string,
    backgroundBlur: Option<real>,
    backgroundBrightness: real,
    overlayColor: string,
    avatarSize: real,
    avatarBorder: Option<BorderStyle>,
    avatarY: real,
    welcomeText: string,
    customUsername: string,
    customFont: string,
    welcomeColor: string,
    usernameColor: string,
    textShadow: Option<bool>,
    textStroke: Option<BorderStyle>,
    customFontSize: real,
    customUsernameSize: real,
    bannerType: Option<BannerType>)

  const DEFAULT_WIDTH: nat := 1024
  const DEFAULT_HEIGHT: nat := 500

  datatype Dimensions = Dimensions(width: nat, height: nat) {
    function Full(): Rect {
      Rect(0.0, 0.0, width as real, height as real)
    }
  }

  /** `getCanvasDimensions`: the custom size, each side defaulting on its own. */
  function CanvasDimensions(o: WelcomeOptions): (d: Dimensions)
    ensures d.width > 0 && d.height > 0
    ensures d.width == (if o.customWidth != 0 then o.customWidth else DEFAULT_WIDTH)
    ensures d.height == (if o.customHeight != 0 then o.customHeight else DEFAULT_HEIGHT)
  {
    Dimensions(if o.customWidth != 0 then o.customWidth else DEFAULT_WIDTH,
               if o.customHeight != 0 then o.customHeight else DEFAULT_HEIGHT)
  }

  // ---------------------------------------------------------------------------
  // Background
  // ---------------------------------------------------------------------------

  const GRADIENT_START: string := "#667eea"
  const GRADIENT_END: string := "#764ba2"
  const DEFAULT_OVERLAY: string := "rgba(0, 0, 0, 0.4)"
  const DEFAULT_BLUR: real := 3.0

  /** The diagonal two-colour gradient painted when there is no background image. */
  function FallbackPaint(d: Dimensions): Paint {
    Linear(Point(0.0, 0.0), Point(d.width as real, d.height as real),
      [Stop(0, 1, GRADIENT_START), Stop(1, 1, GRADIENT_END)])
  }

  /**
   * Where a background image is drawn so that it covers the canvas: scaled
   * to the canvas height when it is relatively wider than the canvas, to the
   * canvas width otherwise, and centred on the other axis.
   */
  function CoverFit(d: Dimensions, image: Image): Rect
    requires d.height > 0
  {
    var width := d.width as real;
    var height := d.height as real;
    var imgRatio := image.width / image.height;
    var canvasRatio := width / height;
    if imgRatio > canvasRatio then
      var drawWidth := height * imgRatio;
      Rect((width - drawWidth) / 2.0, 0.0, drawWidth, height)
    else
      var drawHeight := width / imgRatio;
      Rect(0.0, (height - drawHeight) / 2.0, width, drawHeight)
  }

  /** Proof helper for the cover-fit arithmetic. */
  lemma QuotientTimesDivisor(a: real, b: real)
    requires b > 0.0
    ensures (a / b) * b == a
  {
  }

  /**
   * The cover-fit rectangle contains the whole canvas, has the image's aspect
   * ratio, is centred on the canvas and meets the canvas exactly on one axis.
   */
  lemma CoverFitCovers(d: Dimensions, image: Image)
    requires d.width > 0 && d.height > 0
    ensures var r := CoverFit(d, image);
      && r.x <= 0.0 && r.y <= 0.0
      && r.Right() >= d.width as real && r.Bottom() >= d.height as real
      && r.w * image.height == r.h * image.width
      && r.x == (d.width as real - r.w) / 2.0 && r.y == (d.height as real - r.h) / 2.0
      && (r.w == d.width as real || r.h == d.height as real)
  {
    var width := d.width as real;
    var height := d.height as real;
    var imgRatio := image.width / image.height;
    var canvasRatio := width / height;
    QuotientTimesDivisor(image.width, image.height);
    QuotientTimesDivisor(width, height);
    var r := CoverFit(d, image);
    if imgRatio > canvasRatio {
      assert r.w == height * imgRatio;
      assert height * imgRatio > height * canvasRatio;
      assert r.w * image.height == height * (imgRatio * image.height);
    } else {
      assert r.h == width / imgRatio;
      QuotientTimesDivisor(width, imgRatio);
      assert imgRatio * height <= canvasRatio * height;
      assert r.h * imgRatio == width;
      assert r.h * imgRatio >= height * imgRatio;
      assert r.h * image.width == r.h * (imgRatio * image.height);
    }
  }

  /** The filter active while the background image is drawn: `blur(Npx)`, then `brightness(b+100%)` when set. */
  function BackgroundFilter(o: WelcomeOptions): Filter {
    Blur(o.backgroundBlur.GetOr(DEFAULT_BLUR),
      if o.backgroundBrightness != 0.0 then Some(o.backgroundBrightness + 100.0) else None)
  }

  /** A blur of 0 is kept; only a missing blur takes the default of 3. */
  lemma BlurDefaultsOnlyWhenMissing(o: WelcomeOptions)
    ensures BackgroundFilter(o).px == 3.0 <==> o.backgroundBlur.None? || o.backgroundBlur == Some(3.0)
    ensures o.backgroundBlur == Some(0.0) ==> BackgroundFilter(o).px == 0.0
    ensures BackgroundFilter(o).brightness.None? <==> o.backgroundBrightness == 0.0
  {
  }

  /** The overlay colour: the custom one, or translucent black. */
  function OverlayColor(o: WelcomeOptions): (color: string)
    ensures color != ""
    ensures o.overlayColor != "" ==> color == o.overlayColor
  {
    if o.overlayColor != "" then o.overlayColor else DEFAULT_OVERLAY
  }

  /** The background image, when a reference was given and it loaded. */
  function BackgroundImage(background: string, env: Env): Option<Image> {
    if background != "" then env.loadImage(env.parseImg(background)) else None
  }

  /** What is painted under the overlay. */
  function BackdropCmd(d: Dimensions, bg: Option<Image>, o: WelcomeOptions): Cmd
    requires d.height > 0
  {
    if bg.Some? then DrawImage(Loaded(bg.value), CoverFit(d, bg.value), 1.0, BackgroundFilter(o))
    else FillRect(d.Full(), FallbackPaint(d), 1.0, NoFilter)
  }

  /** `genWelcomeBase`: the backdrop, then the overlay across the whole canvas. It cannot fail. */
  function WelcomeBaseLayer(o: WelcomeOptions, background: string, env: Env): Layer {
    var d := CanvasDimensions(o);
    Layer(WelcomeBackground,
      [BackdropCmd(d, BackgroundImage(background, env), o), FillRect(d.Full(), Solid(OverlayColor(o)), 1.0, NoFilter)])
  }

  /**
   * A missing or unloadable background falls back to the gradient; a loaded
   * one is cover-fitted under the filter; the overlay always covers the canvas last.
   */
  lemma WelcomeBaseContents(o: WelcomeOptions, background: string, env: Env)
    ensures var l := WelcomeBaseLayer(o, background, env);
      var d := CanvasDimensions(o);
      && l.kind == WelcomeBackground && |l.cmds| == 2
      && l.cmds[1] == FillRect(Rect(0.0, 0.0, d.width as real, d.height as real), Solid(OverlayColor(o)), 1.0, NoFilter)
      && ((background == "" || env.loadImage(env.parseImg(background)).None?) <==> l.cmds[0].FillRect?)
      && (l.cmds[0].FillRect? ==> l.cmds[0].paint == Linear(Point(0.0, 0.0), Point(d.width as real, d.height as real),
            [Stop(0, 1, "#667eea"), Stop(1, 1, "#764ba2")]))
      && (l.cmds[0].DrawImage? ==>
            && l.cmds[0].image == Loaded(env.loadImage(env.parseImg(background)).value)
            && l.cmds[0].filter == BackgroundFilter(o))
  {
  }

  /** A loaded background is drawn over the whole canvas without distortion. */
  lemma BackgroundCoversCanvas(o: WelcomeOptions, background: string, env: Env)
    requires BackgroundImage(background, env).Some?
    ensures var cmd := WelcomeBaseLayer(o, background, env).cmds[0];
      var d := CanvasDimensions(o);
      var image := BackgroundImage(background, env).value;
      && cmd.DrawImage?
      && cmd.dst.x <= 0.0 && cmd.dst.y <= 0.0
      && cmd.dst.Right() >= d.width as real && cmd.dst.Bottom() >= d.height as real
      && cmd.dst.w * image.height == cmd.dst.h * image.width
  {
    CoverFitCovers(CanvasDimensions(o), BackgroundImage(background, env).value);
  }

  /** `genWelcomeBase`, setting the filter the way the context's `filter` property is built up. */
  method GenWelcomeBase(o: WelcomeOptions, background: string, env: Env) returns (l: Layer)
    ensures l == WelcomeBaseLayer(o, background, env)
  {
    var d := CanvasDimensions(o);
    var bgImage: Option<Image> := None;
    if background != "" {
      bgImage := env.loadImage(env.parseImg(background));
    }
    var cmds: seq<Cmd>;
    if bgImage.Some? {
      var filter := Blur(o.backgroundBlur.GetOr(DEFAULT_BLUR), None);
      if o.backgroundBrightness != 0.0 {
        filter := filter.(brightness := Some(o.backgroundBrightness + 100.0));
      }
      cmds := [DrawImage(Loaded(bgImage.value), CoverFit(d, bgImage.value), 1.0, filter)];
    } else {
      cmds := [FillRect(d.Full(), FallbackPaint(d), 1.0, NoFilter)];
    }
    cmds := cmds + [FillRect(d.Full(), Solid(OverlayColor(o)), 1.0, NoFilter)];
    l := Layer(WelcomeBackground, cmds);
  }

  // ---------------------------------------------------------------------------
  // Avatar
  // ---------------------------------------------------------------------------

  const DEFAULT_AVATAR_SIZE: real := 200.0
  const DEFAULT_AVATAR_Y: real := 80.0
  const DEFAULT_RING: BorderStyle := BorderStyle(8.0, "#FFFFFF")

  function AvatarSize(o: WelcomeOptions): real {
    if o.avatarSize != 0.0 then o.avatarSize else DEFAULT_AVATAR_SIZE
  }

  /** The avatar's top edge; 0 counts as unset. */
  function AvatarTop(o: WelcomeOptions): real {
    if o.avatarY != 0.0 then o.avatarY else DEFAULT_AVATAR_Y
  }

  /** The centre of the avatar circle: horizontally centred, one radius below its top. */
  function AvatarCenter(o: WelcomeOptions): Point {
    Point(CanvasDimensions(o).width as real / 2.0, AvatarTop(o) + AvatarSize(o) / 2.0)
  }

  function Ring(o: WelcomeOptions): BorderStyle {
    o.avatarBorder.GetOr(DEFAULT_RING)
  }

  /** The ring, when its width is positive, then the clip and the image. */
  function AvatarCmds(o: WelcomeOptions, avatar: Image, env: Env): seq<Cmd> {
    var radius := AvatarSize(o) / 2.0;
    var ring := Ring(o);
    (if ring.width > 0.0 then [StrokeArc(AvatarCenter(o), radius + ring.width / 2.0, env.parseHex(ring.color), ring.width)]
     else [])
      + [ClipArc(AvatarCenter(o), radius),
         DrawImage(Loaded(avatar), Rect(AvatarCenter(o).x - radius, AvatarTop(o), AvatarSize(o), AvatarSize(o)), 1.0, NoFilter)]
  }

  /** `genWelcomeAvatar`: fails exactly when the avatar does not load. */
  function WelcomeAvatarLayer(avatarUrl: string, o: WelcomeOptions, env: Env): (r: Result<Layer, Error>)
    ensures r.Failure? <==> env.loadImage(avatarUrl).None?
    ensures r.Failure? ==> r.error == ImageLoadFailed(avatarUrl)
    ensures r.Success? ==> r.value.kind == WelcomeAvatar
  {
    var avatar := env.loadImage(avatarUrl);
    if avatar.None? then Failure(ImageLoadFailed(avatarUrl))
    else Success(Layer(WelcomeAvatar, AvatarCmds(o, avatar.value, env)))
  }

  /**
   * The ring is drawn exactly when its width is positive, around the clip
   * circle with its inner edge on the avatar's edge; the image is the square
   * that the clip circle is inscribed in, centred horizontally on the canvas.
   */
  lemma AvatarGeometry(o: WelcomeOptions, avatar: Image, env: Env)
    ensures var cmds := AvatarCmds(o, avatar, env);
      var n := |cmds|;
      var size := if o.avatarSize != 0.0 then o.avatarSize else 200.0;
      var ring := if o.avatarBorder.Some? then o.avatarBorder.value else BorderStyle(8.0, "#FFFFFF");
      && (n == 3 <==> ring.width > 0.0) && n >= 2
      && cmds[n - 2].ClipArc? && cmds[n - 1].DrawImage?
      && cmds[n - 2].center.x == CanvasDimensions(o).width as real / 2.0
      && cmds[n - 2].radius * 2.0 == size
      && cmds[n - 1].dst.w == size && cmds[n - 1].dst.h == size
      && cmds[n - 1].dst.x + size / 2.0 == cmds[n - 2].center.x
      && cmds[n - 1].dst.y + size / 2.0 == cmds[n - 2].center.y
      && (n == 3 ==>
            && cmds[0] == StrokeArc(cmds[1].center, cmds[1].radius + ring.width / 2.0, env.parseHex(ring.color), ring.width)
            && cmds[0].radius - cmds[0].lineWidth / 2.0 == cmds[1].radius)
  {
  }

  /** `genWelcomeAvatar` after the image has loaded, drawing step by step. */
  method DrawWelcomeAvatar(o: WelcomeOptions, avatar: Image, env: Env) returns (cmds: seq<Cmd>)
    ensures cmds == AvatarCmds(o, avatar, env)
  {
    var size := AvatarSize(o);
    var radius := size / 2.0;
    var center := AvatarCenter(o);
    var ring := Ring(o);
    cmds := [];
    if ring.width > 0.0 {
      cmds := cmds + [StrokeArc(center, radius + ring.width / 2.0, env.parseHex(ring.color), ring.width)];
    }
    cmds := cmds + [ClipArc(center, radius)];
    cmds := cmds + [DrawImage(Loaded(avatar), Rect(center.x - radius, AvatarTop(o), size, size), 1.0, NoFilter)];
  }

  // ---------------------------------------------------------------------------
  // Text
  // ---------------------------------------------------------------------------

  const DEFAULT_FONT: string := "Helvetica"
  const WELCOME: string := "WELCOME"
  const GOODBYE: string := "GOODBYE"
  const DEFAULT_TEXT_COLOR: string := "#FFFFFF"
  const TEXT_SHADOW: Cmd := SetShadow("rgba(0, 0, 0, 0.8)", 10.0, 3.0, 3.0)
  const NO_SHADOW: Cmd := SetShadow("transparent", 0.0, 0.0, 0.0)

  /** The headline: the custom text, or the word for the banner's type. */
  function Headline(o: WelcomeOptions): (text: string)
    ensures o.welcomeText != "" ==> text == o.welcomeText
    ensures o.welcomeText == "" && o.bannerType == Some(Goodbye) ==> text == "GOODBYE"
    ensures o.welcomeText == "" && o.bannerType != Some(Goodbye) ==> text == "WELCOME"
    ensures text != ""
  {
    if o.welcomeText != "" then o.welcomeText
    else if o.bannerType == Some(Goodbye) then GOODBYE
    else WELCOME
  }

  function TextFont(o: WelcomeOptions): string {
    if o.customFont != "" then o.customFont else DEFAULT_FONT
  }

  function HeadlineFont(o: WelcomeOptions): Font {
    Font(true, if o.customFontSize != 0.0 then o.customFontSize else 80.0, TextFont(o))
  }

  function UsernameFont(o: WelcomeOptions): Font {
    Font(true, if o.customUsernameSize != 0.0 then o.customUsernameSize else 40.0, TextFont(o))
  }

  /**
   * The headline's baseline: 90 below the avatar's bottom, where the text
   * takes the avatar size as 220 when it is unset (the avatar itself uses 200).
   */
  function HeadlineY(o: WelcomeOptions): real {
    AvatarTop(o) + (if o.avatarSize != 0.0 then o.avatarSize else 220.0) + 90.0
  }

  function UsernameY(o: WelcomeOptions): real {
    HeadlineY(o) + 60.0
  }

  /** The username sits 60 below the headline, and the headline 90 below the avatar, or 110 when the size is unset. */
  lemma TextBelowAvatar(o: WelcomeOptions)
    ensures UsernameY(o) - HeadlineY(o) == 60.0
    ensures o.avatarSize != 0.0 ==> HeadlineY(o) - (AvatarTop(o) + AvatarSize(o)) == 90.0
    ensures o.avatarSize == 0.0 ==> HeadlineY(o) - (AvatarTop(o) + AvatarSize(o)) == 110.0
  {
  }

  /** A centred line, stroked first when the stroke option applies. */
  function CentredLine(text: string, y: real, font: Font, color: string, o: WelcomeOptions, env: Env): seq<Cmd> {
    var at := Point(CanvasDimensions(o).width as real / 2.0, y);
    (if StrokeApplies(o.textStroke)
     then [StrokeText(text, at, AlignCenter, font, env.parseHex(o.textStroke.value.color), o.textStroke.value.width)]
     else [])
      + [FillText(text, at, AlignCenter, font, color)]
  }

  function HeadlineColor(o: WelcomeOptions, env: Env): string {
    env.parseHex(if o.welcomeColor != "" then o.welcomeColor else DEFAULT_TEXT_COLOR)
  }

  function UsernameColor(o: WelcomeOptions, env: Env): string {
    env.parseHex(if o.usernameColor != "" then o.usernameColor else DEFAULT_TEXT_COLOR)
  }

  /** `genWelcomeText`: the shadow when enabled, the headline, the username, and the shadow reset. */
  function WelcomeTextLayer(username: string, o: WelcomeOptions, env: Env): Layer {
    Layer(WelcomeText,
      (if o.textShadow.GetOr(true) then [TEXT_SHADOW] else [])
        + CentredLine(Headline(o), HeadlineY(o), HeadlineFont(o), HeadlineColor(o, env), o, env)
        + CentredLine(username, UsernameY(o), UsernameFont(o), UsernameColor(o, env), o, env)
        + [NO_SHADOW])
  }

  /**
   * The headline is filled before the username, both centred on the canvas;
   * the shadow is on unless `textShadow` is false; each line is stroked
   * exactly when the stroke option has a width and a colour; the shadow is
   * reset last.
   */
  lemma WelcomeTextContents(username: string, o: WelcomeOptions, env: Env)
    ensures var cmds := WelcomeTextLayer(username, o, env).cmds;
      var shadow := if o.textShadow != Some(false) then 1 else 0;
      var line := if StrokeApplies(o.textStroke) then 2 else 1;
      var centre := CanvasDimensions(o).width as real / 2.0;
      && |cmds| == shadow + 2 * line + 1
      && (shadow == 1 <==> cmds[0] == SetShadow("rgba(0, 0, 0, 0.8)", 10.0, 3.0, 3.0))
      && cmds[shadow + line - 1] == FillText(Headline(o), Point(centre, HeadlineY(o)), AlignCenter, HeadlineFont(o), HeadlineColor(o, env))
      && cmds[shadow + 2 * line - 1] == FillText(username, Point(centre, UsernameY(o)), AlignCenter, UsernameFont(o), UsernameColor(o, env))
      && (line == 2 ==>
            && cmds[shadow].StrokeText? && cmds[shadow].text == Headline(o)
            && cmds[shadow + 2].StrokeText? && cmds[shadow + 2].text == username)
      && cmds[|cmds| - 1] == SetShadow("transparent", 0.0, 0.0, 0.0)
  {
    var cmds := WelcomeTextLayer(username, o, env).cmds;
    if o.textShadow != Some(false) {
      assert cmds[0] == TEXT_SHADOW;
    } else {
      assert cmds[0].FillText? || cmds[0].StrokeText?;
    }
  }

  /** `genWelcomeText`, setting the context's state and drawing step by step. */
  method GenWelcomeText(username: string, o: WelcomeOptions, env: Env) returns (l: Layer)
    ensures l == WelcomeTextLayer(username, o, env)
  {
    var cmds: seq<Cmd> := [];
    if o.textShadow.GetOr(true) {
      cmds := cmds + [TEXT_SHADOW];
    }
    var stroke := StrokeApplies(o.textStroke);
    var at := Point(CanvasDimensions(o).width as real / 2.0, HeadlineY(o));
    if stroke {
      cmds := cmds + [StrokeText(Headline(o), at, AlignCenter, HeadlineFont(o), env.parseHex(o.textStroke.value.color),
        o.textStroke.value.width)];
    }
    cmds := cmds + [FillText(Headline(o), at, AlignCenter, HeadlineFont(o), HeadlineColor(o, env))];
    at := Point(at.x, UsernameY(o));
    if stroke {
      cmds := cmds + [StrokeText(username, at, AlignCenter, UsernameFont(o), env.parseHex(o.textStroke.value.color),
        o.textStroke.value.width)];
    }
    cmds := cmds + [FillText(username, at, AlignCenter, UsernameFont(o), UsernameColor(o, env))];
    cmds := cmds + [NO_SHADOW];
    l := Layer(WelcomeText, cmds);
  }
}
