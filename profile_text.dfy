/**
 * The text-and-avatar layer of the profile card (`genTextAndAvatar`), the
 * presence-status notch and icon (`genStatus`, `cutAvatarStatus`), the
 * avatar-frame layer (`genAvatarFrame`) and the bot badge
 * (`genBotVerifBadge`). These layers are drawn in the fixed 885x303 space.
 */
module ProfileText {
  import opened Wrappers
  import opened Canvas
  import opened Collaborators
  import opened Common
  import opened ProfileOptions

  // ------------------------------------------------------- presence status

  /** The seven presence statuses the card accepts. */
  datatype Presence = Idle | Dnd | Online | Invisible | Offline | Streaming | Phone

  function PresenceName(p: Presence): string {
    match p
    case Idle => "idle"
    case Dnd => "dnd"
    case Online => "online"
    case Invisible => "invisible"
    case Offline => "offline"
    case Streaming => "streaming"
    case Phone => "phone"
  }

  /** The statuses `genStatus` accepts, in the order it lists them. */
  const VALID_STATUSES: seq<string> := ["idle", "dnd", "online", "invisible", "offline", "streaming", "phone"]

  /** The membership check of `genStatus`: the status named by `s`, if any. */
  function ParsePresence(s: string): (p: Option<Presence>)
    ensures p.None? <==> s !in VALID_STATUSES
    ensures p.Some? ==> PresenceName(p.value) == s
  {
    if s == "idle" then Some(Idle)
    else if s == "dnd" then Some(Dnd)
    else if s == "online" then Some(Online)
    else if s == "invisible" then Some(Invisible)
    else if s == "offline" then Some(Offline)
    else if s == "streaming" then Some(Streaming)
    else if s == "phone" then Some(Phone)
    else None
  }

  /** Every status parses back from its own name. */
  lemma PresenceRoundTrip(p: Presence)
    ensures ParsePresence(PresenceName(p)) == Some(p)
  {
  }

  /** The bundled icon a status is shown with: `offline` borrows the `invisible` one. */
  function StatusIconAsset(p: Presence): (asset: string)
    ensures asset in VALID_STATUSES && asset != "offline"
    ensures p != Offline ==> asset == PresenceName(p)
  {
    if p == Offline then "invisible" else PresenceName(p)
  }

  /** Where the status icon's top-left corner goes: `phone` has its own spot. */
  function IconOrigin(status: string): Point {
    if status == "phone" then Point(224.5, 202.0) else Point(212.0, 204.0)
  }

  /** The hole cut into the avatar for the status icon. */
  function Notch(status: string): RoundedRect {
    var c := IconOrigin(status);
    if status == "phone" then RoundedRect(Rect(c.x - 8.0, c.y - 8.0, 57.0, 78.0), 10.0)
    else RoundedRect(Rect(212.0, 204.0, 62.0, 62.0), 62.0)
  }

  /**
   * The notch geometry: for `phone` a 57x78 rounded rectangle at
   * (216.5, 194), whose corner lies 8 above and left of the icon; for every
   * other status a 62x62 square with its corner on the icon, whose radius
   * is at least half its side, so it is drawn as a circle.
   */
  lemma NotchGeometry(status: string)
    ensures var n := Notch(status); var c := IconOrigin(status);
      && n.rect.x <= c.x < n.rect.Right() && n.rect.y <= c.y < n.rect.Bottom()
      && (status == "phone" ==>
            n == RoundedRect(Rect(216.5, 194.0, 57.0, 78.0), 10.0) && c == Point(224.5, 202.0)
            && c.x - n.rect.x == 8.0 && c.y - n.rect.y == 8.0)
      && (status != "phone" ==>
            n.rect == Rect(c.x, c.y, 62.0, 62.0) && c == Point(212.0, 204.0)
            && n.rect.w == n.rect.h && 2.0 * n.radius >= n.rect.w)
  {
  }

  /**
   * `genStatus`: the layer below is copied onto a fresh canvas, the notch is
   * erased from it and the status icon is drawn into the notch. A status
   * outside the seven is an error.
   */
  function StatusLayerCmds(below: seq<Cmd>, status: string): (r: Result<seq<Cmd>, Error>)
    ensures r.Failure? <==> status !in VALID_STATUSES
    ensures r.Failure? ==> r.error == InvalidPresenceStatus(status)
    ensures r.Success? ==>
      && |r.value| == 3 && r.value[0] == DrawCanvas(below)
      && r.value[1] == PunchRoundRect(Notch(status).rect, Notch(status).radius)
      && r.value[2] == Blit(Bundled(StatusIconAsset(ParsePresence(status).value)), IconOrigin(status))
  {
    match ParsePresence(status)
    case None => Failure(InvalidPresenceStatus(status))
    case Some(p) =>
      var notch := Notch(status);
      Success([DrawCanvas(below), PunchRoundRect(notch.rect, notch.radius),
               Blit(Bundled(StatusIconAsset(p)), IconOrigin(status))])
  }

  /** `cutAvatarStatus`: the same notch erased from a layer, without checking the status. */
  function CutAvatarStatus(below: seq<Cmd>, status: string): (cmds: seq<Cmd>)
    ensures |cmds| == 2 && cmds[0] == DrawCanvas(below)
  {
    var notch := Notch(status);
    [DrawCanvas(below), PunchRoundRect(notch.rect, notch.radius)]
  }

  /**
   * The avatar frame is notched exactly where the status layer erases its
   * notch, for every accepted status.
   */
  lemma FrameNotchMatchesStatus(frame: seq<Cmd>, below: seq<Cmd>, status: string)
    requires status in VALID_STATUSES
    ensures StatusLayerCmds(below, status).Success?
    ensures CutAvatarStatus(frame, status)[1] == StatusLayerCmds(below, status).value[1]
  {
  }

  // ------------------------------------------------------------- text

  /** Discord's id of the Clyde bot. */
  const CLYDE_ID: string := "1081004946872352958"

  const USERNAME_AT: Point := Point(300.0, 155.0)
  const TAG_AT: Point := Point(300.0, 215.0)
  const DATE_AT: Point := Point(775.0, 273.0)
  const SUBTITLE_X: real := 314.0

  /** `customFont || 'Helvetica'`. */
  function CustomFont(o: ProfileOptions): string {
    if o.customFont != "" then o.customFont else "Helvetica"
  }

  /** The width the username is fitted into: bots leave room for their badge. */
  function UsernameBudget(bot: bool): (w: real)
  {
    if bot then 470.0 else 555.0
  }

  /** The fitted username: the display name fitted to the budget in the bold face of the custom font. */
  function UsernameFit(info: BasicInfo, o: ProfileOptions, env: Env): Fit {
    env.parseUsername(
      DisplayName(o.customUsername, info.globalName, info.username),
      CustomFont(o) + " Bold",
      if o.usernameSize != 0.0 then o.usernameSize else 80.0,
      UsernameBudget(info.bot))
  }

  /** The font the username is drawn in: the custom size, else the fitted size. */
  function UsernameFont(info: BasicInfo, o: ProfileOptions, env: Env): Font {
    Font(false, if o.usernameSize != 0.0 then o.usernameSize else UsernameFit(info, o, env).size,
      CustomFont(o) + " Bold")
  }

  function UsernameColor(o: ProfileOptions, env: Env): string {
    if o.usernameColor != "" then env.parseHex(o.usernameColor) else "#FFFFFF"
  }

  function TagFont(o: ProfileOptions): Font {
    Font(false, if o.tagSize != 0.0 then o.tagSize else 60.0, CustomFont(o))
  }

  function TagColor(o: ProfileOptions, env: Env): string {
    if o.tagColor != "" then env.parseHex(o.tagColor) else "#dadada"
  }

  /**
   * The `customTag` option after the Clyde rule: Clyde's id with no custom
   * tag gets `@clyde`; any other card keeps what it had.
   */
  function EffectiveCustomTag(id: string, customTag: string): (t: string)
    ensures customTag != "" ==> t == customTag
    ensures customTag == "" ==> (t != "" <==> id == CLYDE_ID)
    ensures t != "" && t != customTag ==> t == "@clyde"
  {
    if id == CLYDE_ID && customTag == "" then "@clyde" else customTag
  }

  /** The tag under the name: the custom tag, else `@username` without a discriminator, else `#discriminator`. */
  function ResolveTag(customTag: string, username: string, discriminator: string): (tag: string)
    ensures tag != ""
    ensures customTag != "" ==> tag == customTag
    ensures customTag == "" && discriminator == "" ==> tag[0] == '@' && tag[1..] == username
    ensures customTag == "" && discriminator != "" ==> tag[0] == '#' && tag[1..] == discriminator
  {
    if customTag != "" then customTag
    else if discriminator == "" then "@" + username
    else "#" + discriminator
  }

  /** Clyde, unless a custom tag is given, is tagged `@clyde` whatever its discriminator. */
  lemma ClydeTag(info: BasicInfo, customTag: string)
    requires info.id == CLYDE_ID && customTag == ""
    ensures ResolveTag(EffectiveCustomTag(info.id, customTag), info.username, info.discriminator) == "@clyde"
  {
  }

  /** The subtitle is drawn when there are lines or a subtitle, and only on a card without rank data. */
  predicate ShowsSubtitle(o: ProfileOptions) {
    (o.multilineSubtitle.Some? || o.customSubtitle != "") && o.rankData.None?
  }

  function SubtitleLines(o: ProfileOptions): seq<string> {
    if o.multilineSubtitle.Some? then o.multilineSubtitle.value else [o.customSubtitle]
  }

  /** The panel behind n subtitle lines: 25 per line plus 8, and never lower than 33. */
  function SubtitlePanel(lines: nat): (p: RoundedRect)
    ensures p.rect.x == 304.0 && p.rect.y == 248.0 && p.rect.w == 380.0 && p.radius == 12.0
    ensures p.rect.h >= 33.0 && p.rect.h >= 25.0 * lines as real + 8.0
    ensures p.rect.h == 33.0 || p.rect.h == 25.0 * lines as real + 8.0
  {
    var total := 25.0 * lines as real + 8.0;
    RoundedRect(Rect(304.0, 248.0, 380.0, if total > 33.0 then total else 33.0), 12.0)
  }

  /** One line of text is all the panel is sized for up to its minimum of 33. */
  lemma SubtitlePanelMinimum(lines: nat)
    ensures SubtitlePanel(lines).rect.h == 33.0 <==> lines <= 1
  {
  }

  function SubtitleFont(o: ProfileOptions): Font {
    Font(false, 23.0, CustomFont(o))
  }

  function SubtitleColor(o: ProfileOptions): string {
    if o.color != "" then o.color else "#dadada"
  }

  function SubtitleLine(line: string, index: nat, font: Font, color: string): Cmd {
    FillText(line, Point(SUBTITLE_X, 258.0 + 25.0 * index as real), AlignLeft, font, color)
  }

  /** The subtitle lines, one every 25 pixels from y = 258. */
  function SubtitleTextCmds(lines: seq<string>, font: Font, color: string): seq<Cmd> {
    seq(|lines|, i requires 0 <= i < |lines| => SubtitleLine(lines[i], i, font, color))
  }

  /** The `forEach` that draws the subtitle lines. */
  method SubtitleTexts(lines: seq<string>, font: Font, color: string) returns (cmds: seq<Cmd>)
    ensures cmds == SubtitleTextCmds(lines, font, color)
  {
    cmds := [];
    var index := 0;
    while index < |lines|
      invariant 0 <= index <= |lines|
      invariant cmds == SubtitleTextCmds(lines[..index], font, color)
    {
      cmds := cmds + [FillText(lines[index], Point(SUBTITLE_X, 258.0 + 25.0 * index as real), AlignLeft, font, color)];
      index := index + 1;
    }
    assert lines[..|lines|] == lines;
  }

  function SubtitleCmds(o: ProfileOptions): seq<Cmd> {
    if ShowsSubtitle(o) then
      var panel := SubtitlePanel(|SubtitleLines(o)|);
      [FillRoundRect(panel.rect, panel.radius, Solid("#2a2d33"), 0.4)]
        + SubtitleTextCmds(SubtitleLines(o), SubtitleFont(o), SubtitleColor(o))
    else []
  }

  const SHADOW_ON: Cmd := SetShadow("rgba(0, 0, 0, 0.7)", 4.0, 2.0, 2.0)
  const SHADOW_OFF: Cmd := SetShadow("transparent", 0.0, 0.0, 0.0)

  /** A text stroked (when the stroke option applies) and then filled. */
  function StrokedText(text: string, at: Point, font: Font, color: string, stroke: Option<BorderStyle>, env: Env)
    : seq<Cmd>
  {
    (if StrokeApplies(stroke) then [StrokeText(text, at, AlignLeft, font, env.parseHex(stroke.value.color), stroke.value.width)] else [])
      + [FillText(text, at, AlignLeft, font, color)]
  }

  /** The username and, on a card without rank data, the tag; shadowed when `textShadow` is set. */
  function NameCmds(info: BasicInfo, o: ProfileOptions, customTag: string, env: Env): seq<Cmd> {
    var tag := ResolveTag(customTag, info.username, info.discriminator);
    (if o.textShadow then [SHADOW_ON] else [])
      + StrokedText(UsernameFit(info, o, env).text, USERNAME_AT, UsernameFont(info, o, env), UsernameColor(o, env), o.textStroke, env)
      + (if o.rankData.None? then StrokedText(tag, TAG_AT, TagFont(o), TagColor(o, env), o.textStroke, env) else [])
      + [SHADOW_OFF]
  }

  function DateText(info: BasicInfo, o: ProfileOptions, env: Env): string {
    env.dateOrString(o.customDate, info.createdTimestamp, o.localDateType)
  }

  function DateCmds(info: BasicInfo, o: ProfileOptions, env: Env): seq<Cmd> {
    if !o.hideDate then [FillText(DateText(info, o, env), DATE_AT, AlignCenter, Font(false, 23.0, CustomFont(o)), "#dadada")]
    else []
  }

  /** Everything `genTextAndAvatar` writes before the avatar. */
  function TextCmds(info: BasicInfo, o: ProfileOptions, customTag: string, env: Env): seq<Cmd> {
    SubtitleCmds(o) + NameCmds(info, o, customTag, env) + DateCmds(info, o, env)
  }

  /** The username is always drawn, at (300, 155). */
  lemma UsernameDrawn(info: BasicInfo, o: ProfileOptions, customTag: string, env: Env)
    ensures FillText(UsernameFit(info, o, env).text, USERNAME_AT, AlignLeft, UsernameFont(info, o, env), UsernameColor(o, env))
      in TextCmds(info, o, customTag, env)
  {
    var names := NameCmds(info, o, customTag, env);
    var name := StrokedText(UsernameFit(info, o, env).text, USERNAME_AT, UsernameFont(info, o, env), UsernameColor(o, env), o.textStroke, env);
    assert name[|name| - 1] in names;
  }

  /** The tag is drawn exactly when the card has no rank data. */
  lemma TagDrawnWithoutRankData(info: BasicInfo, o: ProfileOptions, customTag: string, env: Env)
    ensures var tag := ResolveTag(customTag, info.username, info.discriminator);
      (FillText(tag, TAG_AT, AlignLeft, TagFont(o), TagColor(o, env)) in TextCmds(info, o, customTag, env)
       <==> o.rankData.None?)
  {
    var sub := SubtitleCmds(o);
    var names := NameCmds(info, o, customTag, env);
    var date := DateCmds(info, o, env);
    SubtitleAtX(o);
    var tag := ResolveTag(customTag, info.username, info.discriminator);
    var tagCmd := FillText(tag, TAG_AT, AlignLeft, TagFont(o), TagColor(o, env));
    assert tagCmd !in sub;
    assert tagCmd !in date;
    if o.rankData.None? {
      var t := StrokedText(tag, TAG_AT, TagFont(o), TagColor(o, env), o.textStroke, env);
      assert tagCmd == t[|t| - 1];
      assert tagCmd in names;
    } else {
      assert tagCmd !in names;
    }
  }

  /** The creation date is drawn exactly when it is not hidden, centred at (775, 273). */
  lemma DateDrawnUnlessHidden(info: BasicInfo, o: ProfileOptions, customTag: string, env: Env)
    ensures var cmds := TextCmds(info, o, customTag, env);
      (exists i :: 0 <= i < |cmds| && cmds[i].FillText? && cmds[i].at == DATE_AT) <==> !o.hideDate
  {
    var sub := SubtitleCmds(o);
    var names := NameCmds(info, o, customTag, env);
    var date := DateCmds(info, o, env);
    var cmds := TextCmds(info, o, customTag, env);
    assert cmds == sub + names + date;
    SubtitleAtX(o);
    NamesAtX(info, o, customTag, env);
    if !o.hideDate {
      var k := |sub| + |names|;
      assert cmds[k] == date[0];
      assert cmds[k].FillText? && cmds[k].at == DATE_AT;
    }
  }

  /** The username and the tag are both written at x = 300. */
  lemma NamesAtX(info: BasicInfo, o: ProfileOptions, customTag: string, env: Env)
    ensures forall c :: c in NameCmds(info, o, customTag, env) && c.FillText? ==> c.at.x == 300.0
  {
  }

  /** Every text command of the subtitle is at the subtitle's x. */
  lemma SubtitleAtX(o: ProfileOptions)
    ensures forall c :: c in SubtitleCmds(o) && c.FillText? ==> c.at.x == SUBTITLE_X
  {
  }

  /**
   * With `textShadow`, the shadow is switched on before the username and
   * off again before the date; without it, it is never switched on.
   */
  lemma ShadowSpansNames(info: BasicInfo, o: ProfileOptions, customTag: string, env: Env)
    ensures var names := NameCmds(info, o, customTag, env);
      && names[|names| - 1] == SHADOW_OFF
      && (o.textShadow <==> names[0] == SHADOW_ON)
      && (!o.textShadow ==> SHADOW_ON !in names)
  {
  }

  // ------------------------------------------------------------ avatar

  const AVATAR_RECT: Rect := Rect(47.0, 39.0, 225.0, 225.0)

  /** Square avatars have rounded corners of 30; others a radius of 225, which draws a circle. */
  function AvatarRadius(o: ProfileOptions): (r: real)
    ensures o.squareAvatar ==> r == 30.0 && 2.0 * r < AVATAR_RECT.w
    ensures !o.squareAvatar ==> r == 225.0 && 2.0 * r >= AVATAR_RECT.w
  {
    if o.squareAvatar then 30.0 else 225.0
  }

  /** The avatar: clipped to its rounded square, over a dark backdrop, with an optional border. */
  function AvatarCmds(o: ProfileOptions, avatar: Image, env: Env): seq<Cmd> {
    var r := AvatarRadius(o);
    [ClipRoundRect(AVATAR_RECT, r),
     FillRoundRect(AVATAR_RECT, r, Solid("#292b2f"), 1.0),
     DrawImage(Loaded(avatar), AVATAR_RECT, 1.0, NoFilter)]
    + (if StrokeApplies(o.avatarBorder)
       then [StrokeRoundRect(AVATAR_RECT, r, env.parseHex(o.avatarBorder.value.color), o.avatarBorder.value.width)]
       else [])
  }

  /**
   * `genTextAndAvatar` with the tag option already resolved: the avatar
   * must load, and a set presence status must be one of the seven.
   */
  function TextAndAvatarLayer(info: BasicInfo, o: ProfileOptions, customTag: string, avatarData: string, env: Env)
    : (r: Result<Layer, Error>)
    ensures r.Failure? <==>
      env.loadImage(avatarData).None? || (o.presenceStatus != "" && o.presenceStatus !in VALID_STATUSES)
    ensures r.Failure? && env.loadImage(avatarData).None? ==> r.error == ImageLoadFailed(avatarData)
    ensures r.Failure? && env.loadImage(avatarData).Some? ==> r.error == InvalidPresenceStatus(o.presenceStatus)
    ensures r.Success? ==> r.value.kind == TextAndAvatar
    ensures r.Success? && o.presenceStatus == "" ==>
      r.value.cmds == TextCmds(info, o, customTag, env) + AvatarCmds(o, env.loadImage(avatarData).value, env)
    ensures r.Success? && o.presenceStatus != "" ==>
      r.value.cmds
      == StatusLayerCmds(TextCmds(info, o, customTag, env) + AvatarCmds(o, env.loadImage(avatarData).value, env),
                         o.presenceStatus).value
  {
    match env.loadImage(avatarData)
    case None => Failure(ImageLoadFailed(avatarData))
    case Some(avatar) =>
      var cmds := TextCmds(info, o, customTag, env) + AvatarCmds(o, avatar, env);
      if o.presenceStatus != "" then
        var withStatus :- StatusLayerCmds(cmds, o.presenceStatus);
        Success(Layer(TextAndAvatar, withStatus))
      else Success(Layer(TextAndAvatar, cmds))
  }

  /**
   * `genTextAndAvatar` as written: it writes `@clyde` into the options'
   * `customTag` for Clyde when none is set, whatever happens next, and
   * then draws with the tag option as it now stands.
   */
  method GenTextAndAvatar(info: BasicInfo, so: ScaledOptions, avatarData: string, env: Env)
    returns (r: Result<Layer, Error>)
    modifies so
    ensures so.customTag == EffectiveCustomTag(info.id, old(so.customTag))
    ensures so.borderColor == old(so.borderColor) && so.borderAllign == old(so.borderAllign)
    ensures r == TextAndAvatarLayer(info, so.options, so.customTag, avatarData, env)
  {
    var o := so.options;
    var isClyde := info.id == CLYDE_ID;
    var subtitle: seq<Cmd> := [];
    if ShowsSubtitle(o) {
      var lines := SubtitleLines(o);
      var panel := SubtitlePanel(|lines|);
      var texts := SubtitleTexts(lines, SubtitleFont(o), SubtitleColor(o));
      subtitle := [FillRoundRect(panel.rect, panel.radius, Solid("#2a2d33"), 0.4)] + texts;
    }
    if isClyde && so.customTag == "" {
      so.customTag := "@clyde";
    }
    var cmds := subtitle + NameCmds(info, o, so.customTag, env) + DateCmds(info, o, env);
    var avatar := env.loadImage(avatarData);
    if avatar.None? {
      return Failure(ImageLoadFailed(avatarData));
    }
    cmds := cmds + AvatarCmds(o, avatar.value, env);
    if o.presenceStatus != "" {
      var withStatus := StatusLayerCmds(cmds, o.presenceStatus);
      if withStatus.Failure? {
        return Failure(withStatus.error);
      }
      cmds := withStatus.value;
    }
    r := Success(Layer(TextAndAvatar, cmds));
  }

  // ------------------------------------------------------ avatar frame

  /** `genAvatarFrame`: the decoration's frame over the avatar, notched for the status when one is set. */
  function AvatarFrameLayer(frameUrl: string, status: string, env: Env): (r: Result<Layer, Error>)
    ensures r.Failure? <==> env.loadImage(frameUrl).None?
    ensures r.Failure? ==> r.error == ImageLoadFailed(frameUrl)
    ensures r.Success? ==> r.value.kind == AvatarFrame
    ensures r.Success? && status == "" ==>
      r.value.cmds == [DrawImage(Loaded(env.loadImage(frameUrl).value), Rect(25.0, 18.0, 269.0, 269.0), 1.0, NoFilter)]
    ensures r.Success? && status != "" ==>
      && |r.value.cmds| == 2
      && r.value.cmds[0]
         == DrawCanvas([DrawImage(Loaded(env.loadImage(frameUrl).value), Rect(25.0, 18.0, 269.0, 269.0), 1.0, NoFilter)])
      && r.value.cmds[1] == PunchRoundRect(Notch(status).rect, Notch(status).radius)
  {
    match env.loadImage(frameUrl)
    case None => Failure(ImageLoadFailed(frameUrl))
    case Some(frame) =>
      var cmds := [DrawImage(Loaded(frame), Rect(25.0, 18.0, 269.0, 269.0), 1.0, NoFilter)];
      Success(Layer(AvatarFrame, if status != "" then CutAvatarStatus(cmds, status) else cmds))
  }

  /** The frame is a 269-pixel square that overhangs the 225-pixel avatar by 22 on every side. */
  lemma FrameSurroundsAvatar()
    ensures var f := Rect(25.0, 18.0, 269.0, 269.0);
      && AVATAR_RECT.x - f.x == 22.0 && f.Right() - AVATAR_RECT.Right() == 22.0
      && AVATAR_RECT.y - f.y == 21.0 && f.Bottom() - AVATAR_RECT.Bottom() == 23.0
  {
  }

  // --------------------------------------------------------- bot badge

  /** The bot badge: the AI badge for Clyde, else the verified or unverified bot badge. */
  function BotBadgeAsset(info: BasicInfo): (asset: string)
    ensures asset == "botAI" <==> info.id == CLYDE_ID
    ensures info.id != CLYDE_ID ==> (asset == "botVerif" <==> info.verified)
    ensures asset in {"botAI", "botVerif", "botNoVerif"}
  {
    if info.id == CLYDE_ID then "botAI"
    else if info.verified then "botVerif"
    else "botNoVerif"
  }

  /** The name the badge is placed after: Clyde's global name, else the username. */
  function BotBadgeFit(info: BasicInfo, env: Env): Fit {
    env.parseUsername(if info.id == CLYDE_ID then info.globalName else info.username, "Helvetica Bold", 80.0, 470.0)
  }

  /** `genBotVerifBadge`: the badge drawn 310 pixels past the measured name. */
  function BotBadgeLayer(info: BasicInfo, env: Env): (l: Layer)
  {
    Layer(BotBadge, [Blit(Bundled(BotBadgeAsset(info)), Point(BotBadgeFit(info, env).width + 310.0, 110.0))])
  }

  /**
   * For a bot other than Clyde whose drawn name is its username, in the
   * default font and size, the badge measures the very name the text layer
   * draws at x = 300, and sits 10 pixels past its end.
   */
  lemma BotBadgeBesideName(info: BasicInfo, o: ProfileOptions, env: Env)
    requires info.bot && info.id != CLYDE_ID
    requires DisplayName(o.customUsername, info.globalName, info.username) == info.username
    requires o.usernameSize == 0.0 && o.customFont == ""
    ensures BotBadgeLayer(info, env).cmds[0].at.x == USERNAME_AT.x + UsernameFit(info, o, env).width + 10.0
    ensures BotBadgeLayer(info, env).cmds[0].at.y == 110.0
  {
    assert CustomFont(o) + " Bold" == "Helvetica Bold";
  }

  /**
   * Clyde's badge is placed 10 pixels past its global name as measured in
   * bold Helvetica at size 80 within the bot budget, whatever name is drawn.
   */
  lemma ClydeBadgeBesideGlobalName(info: BasicInfo, env: Env)
    requires info.id == CLYDE_ID
    ensures BotBadgeLayer(info, env).cmds[0].image == Bundled("botAI")
    ensures BotBadgeLayer(info, env).cmds[0].at.x
         == USERNAME_AT.x + env.parseUsername(info.globalName, "Helvetica Bold", 80.0, UsernameBudget(true)).width + 10.0
  {
  }

  /**
   * As written, the badge of a bot other than Clyde measures the username
   * even when the text layer draws the global name: whenever the two names
   * measure differently, the badge is not 10 pixels past the drawn name.
   */
  lemma BotBadgeMeasuresUsername(info: BasicInfo, o: ProfileOptions, env: Env)
    requires info.bot && info.id != CLYDE_ID
    requires o.customUsername == "" && info.globalName != ""
    requires o.usernameSize == 0.0 && o.customFont == ""
    requires env.parseUsername(info.globalName, "Helvetica Bold", 80.0, 470.0).width
          != env.parseUsername(info.username, "Helvetica Bold", 80.0, 470.0).width
    ensures DisplayName(o.customUsername, info.globalName, info.username) == info.globalName
    ensures BotBadgeLayer(info, env).cmds[0].at.x != USERNAME_AT.x + UsernameFit(info, o, env).width + 10.0
  {
    assert CustomFont(o) + " Bold" == "Helvetica Bold";
  }
}
