/**
 * The profile card renderer (`genPng`): the canvas size and scale, the clip,
 * the theme colours standing in for a border colour, and the conditional,
 * ordered stack of layers.
 */
module ProfileOutput {
  import opened Wrappers
  import opened Canvas
  import opened Collaborators
  import opened Common
  import opened Gradient
  import opened ProfileOptions
  import opened ProfileBase
  import opened ProfileBadges
  import opened ProfileText
  import opened ProfileBorder
  import opened ProfileXpBar

  const DEFAULT_WIDTH: nat := 885
  const DEFAULT_HEIGHT: nat := 303

  /** `customWidth || 885`, `customHeight || 303`, and the scale from the reference design. */
  function ProfileScale(customWidth: nat, customHeight: nat): (s: ScaleContext)
    ensures s.Valid()
    ensures s.width == (if customWidth != 0 then customWidth else DEFAULT_WIDTH) as real
    ensures s.height == (if customHeight != 0 then customHeight else DEFAULT_HEIGHT) as real
    ensures s.scaleX * REFERENCE_WIDTH == s.width && s.scaleY * REFERENCE_HEIGHT == s.height
    ensures customWidth == 0 && customHeight == 0 ==> s == ScaleContext(885.0, 303.0, 1.0, 1.0)
  {
    var w := (if customWidth != 0 then customWidth else DEFAULT_WIDTH) as real;
    var h := (if customHeight != 0 then customHeight else DEFAULT_HEIGHT) as real;
    ScaleContext(w, h, w / REFERENCE_WIDTH, h / REFERENCE_HEIGHT)
  }

  /** The scaled options carry a valid scale, so the layers drawn at size see exactly it. */
  lemma LayersSeeProfileScale(customWidth: nat, customHeight: nat)
    ensures var s := ProfileScale(customWidth, customHeight); CanvasDimensions(s) == s
  {
  }

  /**
   * The clip: without a border, the border's inner edge scaled to the canvas,
   * with a 26 radius; otherwise the whole canvas with a 34 radius.
   */
  function ClipFor(removeBorder: bool, s: ScaleContext): RoundedRect {
    var m := MinReal(s.scaleX, s.scaleY);
    if removeBorder then RoundedRect(Rect(9.0 * s.scaleX, 9.0 * s.scaleY, 867.0 * s.scaleX, 285.0 * s.scaleY), 26.0 * m)
    else RoundedRect(Rect(0.0, 0.0, s.width, s.height), 34.0 * m)
  }

  /**
   * Both clips lie within the canvas. The clip of a borderless card is the
   * border's hole scaled to the canvas; the other is the canvas itself.
   */
  lemma ClipWithinCanvas(removeBorder: bool, customWidth: nat, customHeight: nat)
    ensures var s := ProfileScale(customWidth, customHeight);
      var c := ClipFor(removeBorder, s).rect;
      && 0.0 <= c.x && 0.0 <= c.y && c.Right() <= s.width && c.Bottom() <= s.height
      && (removeBorder ==>
            c == Rect(BORDER_HOLE.rect.x * s.scaleX, BORDER_HOLE.rect.y * s.scaleY,
                      BORDER_HOLE.rect.w * s.scaleX, BORDER_HOLE.rect.h * s.scaleY)
            && s.width - c.Right() == 9.0 * s.scaleX && s.height - c.Bottom() == 9.0 * s.scaleY)
      && (!removeBorder ==> c == Rect(0.0, 0.0, s.width, s.height))
  {
    var s := ProfileScale(customWidth, customHeight);
    assert s.width == 885.0 * s.scaleX && s.height == 303.0 * s.scaleY;
  }

  /** The border options after the profile theme is applied. */
  datatype BorderChoice = BorderChoice(color: ColorSpec, align: Option<BorderAllign>)

  /** The theme applies unless disabled, when the user has theme colours and no border colour is set. */
  predicate ThemeApplies(color: ColorSpec, disableTheme: bool, profileColors: Option<seq<string>>) {
    !disableTheme && profileColors.Some? && color.Unset?
  }

  /**
   * The theme colours become the border colour, running vertically unless
   * a direction was set; otherwise the options are left as they are.
   */
  function ThemeBorder(color: ColorSpec, align: Option<BorderAllign>, disableTheme: bool, profileColors: Option<seq<string>>)
    : (b: BorderChoice)
    ensures ThemeApplies(color, disableTheme, profileColors) ==>
      b.color == Many(profileColors.value) && b.align == (if align.Some? then align else Some(Vertical))
    ensures !ThemeApplies(color, disableTheme, profileColors) ==> b == BorderChoice(color, align)
  {
    if ThemeApplies(color, disableTheme, profileColors) then
      BorderChoice(Many(profileColors.value), if align.None? then Some(Vertical) else align)
    else BorderChoice(color, align)
  }

  /** A border is drawn for a non-empty colour string or a non-empty colour array. */
  predicate BorderDrawn(c: ColorSpec) {
    (c.Single? && c.color != "") || (c.Many? && |c.colors| > 0)
  }

  /**
   * Whether a border is drawn does not depend on `removeBorder`; theme
   * colours are drawn as a border exactly when there is at least one.
   */
  lemma ThemeBorderDrawn(color: ColorSpec, align: Option<BorderAllign>, disableTheme: bool, profileColors: Option<seq<string>>)
    requires ThemeApplies(color, disableTheme, profileColors)
    ensures BorderDrawn(ThemeBorder(color, align, disableTheme, profileColors).color) <==> |profileColors.value| > 0
  {
  }

  /** Whether the avatar frame is drawn. */
  predicate AvatarFrameShown(data: CardData, o: ProfileOptions) {
    !o.removeAvatarFrame && data.decoration.avatarFrame != ""
  }

  /** An optional layer, drawn as itself. */
  function Plain(l: Option<Layer>): seq<Drawn> {
    if l.Some? then [Content(l.value)] else []
  }

  /** An optional layer, drawn as its shadow and then itself. */
  function Shadowed(l: Option<Layer>): seq<Drawn> {
    if l.Some? then [Shadow(l.value), Content(l.value)] else []
  }

  /** The layers every card has. */
  datatype Lower = Lower(base: Layer, frame: Layer, text: Layer)

  /** The layers a card has depending on its options. */
  datatype Upper = Upper(border: Option<Layer>, bot: Option<Layer>, badges: Option<Layer>,
                         xp: Option<Layer>, avatarFrame: Option<Layer>)

  function LowerDrawn(lower: Lower): seq<Drawn> {
    [Content(lower.base), Content(lower.frame), Shadow(lower.text), Content(lower.text)]
  }

  function UpperDrawn(upper: Upper): seq<Drawn> {
    Plain(upper.border) + Shadowed(upper.bot) + Shadowed(upper.badges) + Plain(upper.xp) + Plain(upper.avatarFrame)
  }

  /** The drawing order of `genPng`. */
  function StackLayers(lower: Lower, upper: Upper): seq<Drawn> {
    LowerDrawn(lower) + UpperDrawn(upper)
  }

  /** Lifts a layer that may fail, or is not drawn, into an optional layer. */
  function When(cond: bool, l: Result<Layer, Error>): (r: Result<Option<Layer>, Error>)
    ensures r.Failure? <==> cond && l.Failure?
    ensures r.Success? ==> (r.value.Some? <==> cond) && (cond ==> r.value.value == l.value)
  {
    if !cond then Success(None)
    else if l.Failure? then Failure(l.error)
    else Success(Some(l.value))
  }

  /** The border options once the theme is applied. */
  function ResolvedBorder(data: CardData, o: ProfileOptions): BorderChoice {
    ThemeBorder(o.borderColor, o.borderAllign, o.disableProfileTheme, data.decoration.profileColors)
  }

  /** The border layer after the theme, when one is drawn. */
  function BorderPart(data: CardData, o: ProfileOptions, env: Env): Result<Option<Layer>, Error> {
    var b := ResolvedBorder(data, o);
    if BorderDrawn(b.color) then When(true, BorderLayer(b.color, b.align, env)) else Success(None)
  }

  function XpPart(o: ProfileOptions, env: Env): Result<Option<Layer>, Error> {
    if o.rankData.Some? then When(true, XpBarLayer(o.rankData.value, env)) else Success(None)
  }

  function AvatarFramePart(data: CardData, o: ProfileOptions, env: Env): Result<Option<Layer>, Error> {
    When(AvatarFrameShown(data, o), AvatarFrameLayer(data.decoration.avatarFrame, o.presenceStatus, env))
  }

  /** The base, the frame and the text and avatar, in the order they can fail. */
  function LowerLayers(data: CardData, o: ProfileOptions, s: ScaleContext, badgeCount: nat, env: Env)
    : Result<Lower, Error>
  {
    var avatar := AvatarUrl(data.assets);
    var base :- BaseLayer(o, s, avatar, BannerUrl(data.assets), env);
    var text :- TextAndAvatarLayer(data.basicInfo, o, EffectiveCustomTag(data.basicInfo.id, o.customTag), avatar, env);
    Success(Lower(base, FrameLayer(badgeCount, o, s), text))
  }

  /** The border, the bot badge, the badges, the XP bar and the avatar frame, in the order they can fail. */
  function UpperLayers(data: CardData, o: ProfileOptions, badges: seq<Badge>, env: Env): Result<Upper, Error> {
    var border :- BorderPart(data, o, env);
    var xp :- XpPart(o, env);
    var avatarFrame :- AvatarFramePart(data, o, env);
    Success(Upper(border,
      if data.basicInfo.bot then Some(BotBadgeLayer(data.basicInfo, env)) else None,
      if !o.removeBadges then Some(BadgesLayer(badges, o)) else None,
      xp, avatarFrame))
  }

  /**
   * `genPng` on the account badges as given. The first failing step ends it:
   * the badges, the background, the text and avatar, the border, the XP
   * bar, the avatar frame.
   */
  function ProfilePng(data: CardData, account: seq<BadgeRef>, o: ProfileOptions, env: Env): Result<Png, Error> {
    var s := ProfileScale(o.customWidth, o.customHeight);
    var badges :- BadgeList(account, o.customBadges, o.overwriteBadges, env);
    var lower :- LowerLayers(data, o, s, |badges|, env);
    var upper :- UpperLayers(data, o, badges, env);
    AssemblePng(o, s, lower, upper)
  }

  /** The card once every layer is drawn: its size, its clip and its stack. */
  function AssemblePng(o: ProfileOptions, s: ScaleContext, lower: Lower, upper: Upper): Result<Png, Error> {
    Success(Png(if o.customWidth != 0 then o.customWidth else DEFAULT_WIDTH,
                if o.customHeight != 0 then o.customHeight else DEFAULT_HEIGHT,
                Some(ClipFor(o.removeBorder, s)),
                StackLayers(lower, upper)))
  }

  /** A layer's place in the stack: the layer itself or its shadow. */
  datatype Slot = ContentOf(kind: LayerKind) | ShadowOf(kind: LayerKind)

  function SlotOf(d: Drawn): Slot {
    match d
    case Content(l) => ContentOf(l.kind)
    case Shadow(l) => ShadowOf(l.kind)
  }

  function Slots(ds: seq<Drawn>): (slots: seq<Slot>)
    ensures |slots| == |ds|
    ensures forall i :: 0 <= i < |ds| ==> slots[i] == SlotOf(ds[i])
  {
    if ds == [] then [] else Slots(ds[..|ds| - 1]) + [SlotOf(ds[|ds| - 1])]
  }

  /** The stack `genPng` draws, from which options it depends on. */
  function ExpectedSlots(border: bool, bot: bool, badges: bool, xp: bool, avatarFrame: bool): seq<Slot> {
    [ContentOf(Background), ContentOf(Frame), ShadowOf(TextAndAvatar), ContentOf(TextAndAvatar)]
      + (if border then [ContentOf(Border)] else [])
      + (if bot then [ShadowOf(BotBadge), ContentOf(BotBadge)] else [])
      + (if badges then [ShadowOf(Badges), ContentOf(Badges)] else [])
      + (if xp then [ContentOf(XpBar)] else [])
      + (if avatarFrame then [ContentOf(AvatarFrame)] else [])
  }

  /** Each optional layer holds a layer of its own kind. */
  predicate UpperKinds(u: Upper) {
    && (u.border.Some? ==> u.border.value.kind == Border)
    && (u.bot.Some? ==> u.bot.value.kind == BotBadge)
    && (u.badges.Some? ==> u.badges.value.kind == Badges)
    && (u.xp.Some? ==> u.xp.value.kind == XpBar)
    && (u.avatarFrame.Some? ==> u.avatarFrame.value.kind == AvatarFrame)
  }

  lemma {:induction false} SlotsAppend(a: seq<Drawn>, b: seq<Drawn>)
    ensures Slots(a + b) == Slots(a) + Slots(b)
  {
    assert forall i :: 0 <= i < |a + b| ==> Slots(a + b)[i] == (Slots(a) + Slots(b))[i];
  }

  /** Proof helper: appending five parts at once is appending them one after another. */
  lemma AppendFive<T>(before: seq<T>, a: seq<T>, b: seq<T>, c: seq<T>, d: seq<T>, e: seq<T>)
    ensures before + (a + b + c + d + e) == before + a + b + c + d + e
  {
  }

  function PlainSlots(present: bool, k: LayerKind): seq<Slot> {
    if present then [ContentOf(k)] else []
  }

  function ShadowedSlots(present: bool, k: LayerKind): seq<Slot> {
    if present then [ShadowOf(k), ContentOf(k)] else []
  }

  lemma SlotsPlain(l: Option<Layer>, k: LayerKind)
    requires l.Some? ==> l.value.kind == k
    ensures Slots(Plain(l)) == PlainSlots(l.Some?, k)
  {
  }

  lemma SlotsShadowed(l: Option<Layer>, k: LayerKind)
    requires l.Some? ==> l.value.kind == k
    ensures Slots(Shadowed(l)) == ShadowedSlots(l.Some?, k)
  {
    if l.Some? {
      assert Slots(Shadowed(l))[0] == ShadowOf(k);
    }
  }

  function UpperSlots(u: Upper): seq<Slot> {
    PlainSlots(u.border.Some?, Border) + ShadowedSlots(u.bot.Some?, BotBadge)
      + ShadowedSlots(u.badges.Some?, Badges) + PlainSlots(u.xp.Some?, XpBar)
      + PlainSlots(u.avatarFrame.Some?, AvatarFrame)
  }

  lemma UpperDrawnSlots(u: Upper)
    requires UpperKinds(u)
    ensures Slots(UpperDrawn(u)) == UpperSlots(u)
  {
    var p1 := Plain(u.border);
    var p2 := p1 + Shadowed(u.bot);
    var p3 := p2 + Shadowed(u.badges);
    var p4 := p3 + Plain(u.xp);
    SlotsAppend(p1, Shadowed(u.bot));
    SlotsAppend(p2, Shadowed(u.badges));
    SlotsAppend(p3, Plain(u.xp));
    SlotsAppend(p4, Plain(u.avatarFrame));
    SlotsPlain(u.border, Border);
    SlotsShadowed(u.bot, BotBadge);
    SlotsShadowed(u.badges, Badges);
    SlotsPlain(u.xp, XpBar);
    SlotsPlain(u.avatarFrame, AvatarFrame);
  }

  /** `old + UpperDrawn(u)` is the canvas after the optional layers are appended one after another. */
  lemma UpperDrawnAppended(before: seq<Drawn>, u: Upper)
    ensures before + UpperDrawn(u)
      == before + Plain(u.border) + Shadowed(u.bot) + Shadowed(u.badges) + Plain(u.xp) + Plain(u.avatarFrame)
  {
    AppendFive(before, Plain(u.border), Shadowed(u.bot), Shadowed(u.badges), Plain(u.xp), Plain(u.avatarFrame));
  }

  /** The slots of a stack follow from which optional layers are present. */
  lemma StackSlots(lower: Lower, upper: Upper)
    requires lower.base.kind == Background && lower.frame.kind == Frame && lower.text.kind == TextAndAvatar
    requires UpperKinds(upper)
    ensures Slots(StackLayers(lower, upper)) == ExpectedSlots(upper.border.Some?, upper.bot.Some?,
      upper.badges.Some?, upper.xp.Some?, upper.avatarFrame.Some?)
  {
    SlotsAppend(LowerDrawn(lower), UpperDrawn(upper));
    UpperDrawnSlots(upper);
    var head := [ContentOf(Background), ContentOf(Frame), ShadowOf(TextAndAvatar), ContentOf(TextAndAvatar)];
    assert Slots(LowerDrawn(lower)) == head;
    AppendFive(head, PlainSlots(upper.border.Some?, Border), ShadowedSlots(upper.bot.Some?, BotBadge),
      ShadowedSlots(upper.badges.Some?, Badges), PlainSlots(upper.xp.Some?, XpBar),
      PlainSlots(upper.avatarFrame.Some?, AvatarFrame));
  }

  /** Which optional layers a rendered card has, and that each is of its kind. */
  lemma UpperLayersPresent(data: CardData, o: ProfileOptions, badges: seq<Badge>, env: Env)
    requires UpperLayers(data, o, badges, env).Success?
    ensures var u := UpperLayers(data, o, badges, env).value;
      && UpperKinds(u)
      && (u.border.Some? <==> BorderDrawn(ResolvedBorder(data, o).color))
      && (u.bot.Some? <==> data.basicInfo.bot)
      && (u.badges.Some? <==> !o.removeBadges)
      && (u.xp.Some? <==> o.rankData.Some?)
      && (u.avatarFrame.Some? <==> AvatarFrameShown(data, o))
  {
  }

  /**
   * A rendered card stacks, in order: the base, the frame, the text and
   * avatar after their shadow, the border when a border colour resolved,
   * the bot badge after its shadow for bots, the badges after their shadow
   * unless removed, the XP bar for rank cards, and the avatar frame when
   * there is one and it is not removed. It has the requested size and the
   * clip for its border setting.
   */
  lemma ProfileLayerOrder(data: CardData, account: seq<BadgeRef>, o: ProfileOptions, env: Env)
    requires ProfilePng(data, account, o, env).Success?
    ensures var png := ProfilePng(data, account, o, env).value;
      && Slots(png.layers) == ExpectedSlots(BorderDrawn(ResolvedBorder(data, o).color), data.basicInfo.bot,
                                            !o.removeBadges, o.rankData.Some?, AvatarFrameShown(data, o))
      && png.width == (if o.customWidth != 0 then o.customWidth else DEFAULT_WIDTH)
      && png.height == (if o.customHeight != 0 then o.customHeight else DEFAULT_HEIGHT)
      && png.clip == Some(ClipFor(o.removeBorder, ProfileScale(o.customWidth, o.customHeight)))
  {
    var s := ProfileScale(o.customWidth, o.customHeight);
    var badges := BadgeList(account, o.customBadges, o.overwriteBadges, env).value;
    var lower := LowerLayers(data, o, s, |badges|, env).value;
    var upper := UpperLayers(data, o, badges, env).value;
    UpperLayersPresent(data, o, badges, env);
    StackSlots(lower, upper);
  }

  /** In any stack `genPng` draws, every shadow is drawn immediately before the layer it shadows. */
  lemma ShadowPrecedesContent(lower: Lower, upper: Upper)
    ensures var ds := StackLayers(lower, upper);
      forall i :: 0 <= i < |ds| && ds[i].Shadow? ==> i + 1 < |ds| && ds[i + 1] == Content(ds[i].of)
  {
    var ds := StackLayers(lower, upper);
    var head := LowerDrawn(lower);
    UpperDrawnAppended(head, upper);
    var a := head + Plain(upper.border);
    var b := a + Shadowed(upper.bot);
    var c := b + Shadowed(upper.badges);
    var d := c + Plain(upper.xp);
    assert ds == d + Plain(upper.avatarFrame);
    forall i | 0 <= i < |ds| && ds[i].Shadow?
      ensures i + 1 < |ds| && ds[i + 1] == Content(ds[i].of)
    {
      if |a| <= i < |b| {
        assert ds[i] == Shadowed(upper.bot)[i - |a|];
        assert ds[i + 1] == Shadowed(upper.bot)[1];
      } else if |b| <= i < |c| {
        assert ds[i] == Shadowed(upper.badges)[i - |b|];
        assert ds[i + 1] == Shadowed(upper.badges)[1];
      }
    }
  }

  /**
   * Rendering fails exactly when one of its steps does: a badge that does
   * not load, a background with no image, the avatar or an invalid
   * presence status, too many border colours, the XP bar's checks, or an
   * avatar frame that does not load.
   */
  lemma ProfilePngFails(data: CardData, account: seq<BadgeRef>, o: ProfileOptions, env: Env)
    ensures var s := ProfileScale(o.customWidth, o.customHeight);
      var avatar := AvatarUrl(data.assets);
      var b := ResolvedBorder(data, o);
      ProfilePng(data, account, o, env).Failure? <==>
        || BadgeList(account, o.customBadges, o.overwriteBadges, env).Failure?
        || ResolveBackground(o, avatar, BannerUrl(data.assets), env).Failure?
        || env.loadImage(avatar).None?
        || (o.presenceStatus != "" && o.presenceStatus !in VALID_STATUSES)
        || (BorderDrawn(b.color) && |ColorList(b.color)| > MAX_COLORS)
        || (o.rankData.Some? && XpBarLayer(o.rankData.value, env).Failure?)
        || (AvatarFrameShown(data, o) && env.loadImage(data.decoration.avatarFrame).None?)
  {
  }

  /**
   * `genPng` as written: the badges are gathered from (and reversed in) the
   * caller's array, the layers are drawn one by one onto one canvas, and
   * the theme is written into the scaled options before the border reads
   * them.
   */
  method GenPng(data: CardData, accountBadges: array<BadgeRef>, o: ProfileOptions, env: Env)
    returns (r: Result<Png, Error>)
    modifies accountBadges
    ensures accountBadges[..] == Reversed(old(accountBadges[..]))
    ensures r == ProfilePng(data, old(accountBadges[..]), o, env)
  {
    ghost var account := accountBadges[..];
    var s := ProfileScale(o.customWidth, o.customHeight);
    var so := new ScaledOptions(o, s);
    var canvas := new Surface(if o.customWidth != 0 then o.customWidth else DEFAULT_WIDTH,
                              if o.customHeight != 0 then o.customHeight else DEFAULT_HEIGHT);
    var badges := GetBadges(accountBadges, o.customBadges, o.overwriteBadges, env);
    if badges.Failure? {
      return Failure(badges.error);
    }
    canvas.Clip(ClipFor(o.removeBorder, s));
    var lower := DrawLower(data, so, canvas, |badges.value|, env);
    if lower.Failure? {
      return Failure(lower.error);
    }
    assert canvas.layers == LowerDrawn(lower.value);
    var upper := DrawUpper(data, so, canvas, badges.value, env);
    if upper.Failure? {
      return Failure(upper.error);
    }
    assert canvas.layers == StackLayers(lower.value, upper.value);
    r := Success(canvas.Encode());
    assert r == AssemblePng(o, s, lower.value, upper.value);
  }

  /** The first part of `genPng`: the base, the frame, and the text and avatar after their shadow. */
  method DrawLower(data: CardData, so: ScaledOptions, canvas: Surface, badgeCount: nat, env: Env)
    returns (r: Result<Lower, Error>)
    requires so.customTag == so.options.customTag
    modifies so, canvas
    ensures r == LowerLayers(data, so.options, so.scale, badgeCount, env)
    ensures so.borderColor == old(so.borderColor) && so.borderAllign == old(so.borderAllign)
    ensures so.customTag
         == if BaseLayer(so.options, so.scale, AvatarUrl(data.assets), BannerUrl(data.assets), env).Success?
            then EffectiveCustomTag(data.basicInfo.id, old(so.customTag)) else old(so.customTag)
    ensures canvas.clip == old(canvas.clip)
    ensures r.Success? ==> canvas.layers == old(canvas.layers) + LowerDrawn(r.value)
  {
    var userAvatar := AvatarUrl(data.assets);
    var cardBase := BaseLayer(so.options, so.scale, userAvatar, BannerUrl(data.assets), env);
    if cardBase.Failure? {
      return Failure(cardBase.error);
    }
    canvas.DrawLayer(Content(cardBase.value));
    var cardFrame := FrameLayer(badgeCount, so.options, so.scale);
    canvas.DrawLayer(Content(cardFrame));
    var cardTextAndAvatar := GenTextAndAvatar(data.basicInfo, so, userAvatar, env);
    if cardTextAndAvatar.Failure? {
      return Failure(cardTextAndAvatar.error);
    }
    canvas.DrawLayer(Shadow(cardTextAndAvatar.value));
    canvas.DrawLayer(Content(cardTextAndAvatar.value));
    r := Success(Lower(cardBase.value, cardFrame, cardTextAndAvatar.value));
  }

  /** The theme written into the options, then the border when a border colour resolved. */
  method DrawBorder(data: CardData, so: ScaledOptions, canvas: Surface, env: Env)
    returns (r: Result<Option<Layer>, Error>)
    requires so.borderColor == so.options.borderColor && so.borderAllign == so.options.borderAllign
    modifies so, canvas
    ensures r == BorderPart(data, so.options, env)
    ensures so.customTag == old(so.customTag)
    ensures BorderChoice(so.borderColor, so.borderAllign) == ResolvedBorder(data, so.options)
    ensures canvas.clip == old(canvas.clip)
    ensures r.Success? ==> canvas.layers == old(canvas.layers) + Plain(r.value)
  {
    if ThemeApplies(so.borderColor, so.options.disableProfileTheme, data.decoration.profileColors) {
      so.borderColor := Many(data.decoration.profileColors.value);
      if so.borderAllign.None? {
        so.borderAllign := Some(Vertical);
      }
    }
    r := Success(None);
    if BorderDrawn(so.borderColor) {
      var l := GenBorder(so.borderColor, so.borderAllign, env);
      if l.Failure? {
        return Failure(l.error);
      }
      r := Success(Some(l.value));
      canvas.DrawLayer(Content(l.value));
    }
  }

  /** The bot badge and the badges, each after its shadow, when called for. */
  method DrawBadges(data: CardData, o: ProfileOptions, canvas: Surface, badges: seq<Badge>, env: Env)
    returns (bot: Option<Layer>, badgeLayer: Option<Layer>)
    modifies canvas
    ensures bot == (if data.basicInfo.bot then Some(BotBadgeLayer(data.basicInfo, env)) else None)
    ensures badgeLayer == (if !o.removeBadges then Some(BadgesLayer(badges, o)) else None)
    ensures canvas.clip == old(canvas.clip)
    ensures canvas.layers == old(canvas.layers) + Shadowed(bot) + Shadowed(badgeLayer)
  {
    bot := None;
    if data.basicInfo.bot {
      var l := BotBadgeLayer(data.basicInfo, env);
      bot := Some(l);
      canvas.DrawLayer(Shadow(l));
      canvas.DrawLayer(Content(l));
    }
    badgeLayer := None;
    if !o.removeBadges {
      var l := GenBadges(badges, o);
      assert l == BadgesLayer(badges, o);
      badgeLayer := Some(l);
      canvas.DrawLayer(Shadow(l));
      canvas.DrawLayer(Content(l));
    }
  }

  /** The XP bar of a rank card, then the avatar frame when there is one to draw. */
  method DrawTop(data: CardData, o: ProfileOptions, canvas: Surface, env: Env)
    returns (xp: Result<Option<Layer>, Error>, avatarFrame: Result<Option<Layer>, Error>)
    modifies canvas
    ensures xp == XpPart(o, env)
    ensures xp.Success? ==> avatarFrame == AvatarFramePart(data, o, env)
    ensures canvas.clip == old(canvas.clip)
    ensures xp.Success? && avatarFrame.Success? ==>
      canvas.layers == old(canvas.layers) + Plain(xp.value) + Plain(avatarFrame.value)
  {
    xp := Success(None);
    avatarFrame := Success(None);
    if o.rankData.Some? {
      var l := GenXpBar(o.rankData.value, env);
      if l.Failure? {
        xp := Failure(l.error);
        return;
      }
      xp := Success(Some(l.value));
      canvas.DrawLayer(Content(l.value));
    }
    if AvatarFrameShown(data, o) {
      var l := AvatarFrameLayer(data.decoration.avatarFrame, o.presenceStatus, env);
      if l.Failure? {
        avatarFrame := Failure(l.error);
        return;
      }
      avatarFrame := Success(Some(l.value));
      canvas.DrawLayer(Content(l.value));
    }
  }

  /**
   * The rest of `genPng`: the theme written into the options, then the
   * border, the bot badge, the badges, the XP bar and the avatar frame, each
   * when called for.
   */
  method DrawUpper(data: CardData, so: ScaledOptions, canvas: Surface, badges: seq<Badge>, env: Env)
    returns (r: Result<Upper, Error>)
    requires so.borderColor == so.options.borderColor && so.borderAllign == so.options.borderAllign
    modifies so, canvas
    ensures r == UpperLayers(data, so.options, badges, env)
    ensures so.customTag == old(so.customTag)
    ensures BorderChoice(so.borderColor, so.borderAllign) == ResolvedBorder(data, so.options)
    ensures canvas.clip == old(canvas.clip)
    ensures r.Success? ==> canvas.layers == old(canvas.layers) + UpperDrawn(r.value)
  {
    ghost var before := canvas.layers;
    var border := DrawBorder(data, so, canvas, env);
    if border.Failure? {
      return Failure(border.error);
    }
    var bot, badgeLayer := DrawBadges(data, so.options, canvas, badges, env);
    var xp, avatarFrame := DrawTop(data, so.options, canvas, env);
    if xp.Failure? {
      return Failure(xp.error);
    }
    if avatarFrame.Failure? {
      return Failure(avatarFrame.error);
    }
    r := Success(Upper(border.value, bot, badgeLayer, xp.value, avatarFrame.value));
    UpperDrawnAppended(before, r.value);
  }
}
