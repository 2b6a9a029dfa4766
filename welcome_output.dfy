/**
 * `genWelcomeBanner`: chooses the background and the name, then draws the
 * base, the avatar and the text onto one canvas, in that order.
 */
module WelcomeOutput {
  import opened Wrappers
  import opened Canvas
  import opened Collaborators
  import opened Common
  import opened WelcomeBanner

  /** The background reference: the custom one, the raw banner URL, or the avatar; never empty. */
  function BackgroundOf(o: WelcomeOptions, assets: Assets): (background: string)
    ensures background != ""
    ensures o.customBackground != "" ==> background == o.customBackground
    ensures o.customBackground == "" && assets.bannerURL != "" ==> background == assets.bannerURL
    ensures o.customBackground == "" && assets.bannerURL == "" ==> background == AvatarUrl(assets)
  {
    if o.customBackground != "" then o.customBackground
    else if assets.bannerURL != "" then assets.bannerURL
    else AvatarUrl(assets)
  }

  /** The banner as `genWelcomeBanner` encodes it; only the avatar's load can make it fail. */
  function WelcomePng(data: CardData, o: WelcomeOptions, env: Env): Result<Png, Error> {
    var d := CanvasDimensions(o);
    var avatar := AvatarUrl(data.assets);
    var base := WelcomeBaseLayer(o, BackgroundOf(o, data.assets), env);
    var avatarLayer :- WelcomeAvatarLayer(avatar, o, env);
    var name := DisplayName(o.customUsername, data.basicInfo.globalName, data.basicInfo.username);
    Success(Png(d.width, d.height, None,
      [Content(base), Content(avatarLayer), Content(WelcomeTextLayer(name, o, env))]))
  }

  /**
   * A banner fails exactly when the avatar does not load. Otherwise it has
   * the option size, no clip, and exactly three layers: the base, the
   * avatar and the text, in that order; the text names the display name.
   */
  lemma WelcomeLayerOrder(data: CardData, o: WelcomeOptions, env: Env)
    ensures var r := WelcomePng(data, o, env);
      && (r.Failure? <==> env.loadImage(AvatarUrl(data.assets)).None?)
      && (r.Failure? ==> r.error == ImageLoadFailed(AvatarUrl(data.assets)))
      && (r.Success? ==>
            && r.value.width == (if o.customWidth != 0 then o.customWidth else 1024)
            && r.value.height == (if o.customHeight != 0 then o.customHeight else 500)
            && r.value.clip.None?
            && |r.value.layers| == 3
            && (forall i :: 0 <= i < 3 ==> r.value.layers[i].Content?)
            && r.value.layers[0].layer.kind == WelcomeBackground
            && r.value.layers[1].layer.kind == WelcomeAvatar
            && r.value.layers[2].layer
               == WelcomeTextLayer(DisplayName(o.customUsername, data.basicInfo.globalName, data.basicInfo.username), o, env))
  {
  }

  /** With no custom background and no banner, the avatar doubles as the blurred background. */
  lemma AvatarDoublesAsBackground(data: CardData, o: WelcomeOptions, env: Env)
    requires o.customBackground == "" && data.assets.bannerURL == ""
    requires env.loadImage(env.parseImg(AvatarUrl(data.assets))).Some?
    ensures WelcomeBaseLayer(o, BackgroundOf(o, data.assets), env).cmds[0].DrawImage?
  {
  }

  /** `genWelcomeBanner`: each layer drawn onto the output canvas as soon as it is made. */
  method GenWelcomeBanner(data: CardData, o: WelcomeOptions, env: Env) returns (r: Result<Png, Error>)
    ensures r == WelcomePng(data, o, env)
  {
    var d := CanvasDimensions(o);
    var canvas := new Surface(d.width, d.height);
    var avatarUrl := AvatarUrl(data.assets);
    var background := BackgroundOf(o, data.assets);

    var base := GenWelcomeBase(o, background, env);
    canvas.DrawLayer(Content(base));

    var avatar := env.loadImage(avatarUrl);
    if avatar.None? {
      return Failure(ImageLoadFailed(avatarUrl));
    }
    var avatarCmds := DrawWelcomeAvatar(o, avatar.value, env);
    canvas.DrawLayer(Content(Layer(WelcomeAvatar, avatarCmds)));

    var username := DisplayName(o.customUsername, data.basicInfo.globalName, data.basicInfo.username);
    var text := GenWelcomeText(username, o, env);
    canvas.DrawLayer(Content(text));

    assert canvas.layers == [Content(base), Content(Layer(WelcomeAvatar, avatarCmds)), Content(text)];
    r := Success(canvas.Encode());
  }
}
