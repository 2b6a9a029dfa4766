/**
 * What both renderers share: the error they throw, the user data they are
 * given, and the option rules that appear in both pipelines.
 */
module Common {
  import opened Wrappers

  /** The errors a render can end with (a `DiscordArtsError` or a rejected image load). */
  datatype Error =
    | BadgeLoadFailed(name: string)
    | CustomBadgeLoadFailed(badge: string)
    | ImageLoadFailed(source: string)
    | InvalidPresenceStatus(status: string)
    | TooManyBorderColors(count: nat)
    | TooManyBarColors(count: nat)
    | MissingXpData

  /** A user's identity; an empty string stands for a missing (falsy) value. */
  datatype BasicInfo = BasicInfo(
    id: string,
    username: string,
    globalName: string,
    discriminator: string,
    bot: bool,
    verified: bool,
    createdTimestamp: int)

  /** The user's image references; the badge list is passed on its own, as the array it is. */
  datatype Assets = Assets(avatarURL: Option<string>, defaultAvatarURL: string, bannerURL: string)

  datatype Decoration = Decoration(profileColors: Option<seq<string>>, avatarFrame: string)

  datatype CardData = CardData(basicInfo: BasicInfo, assets: Assets, decoration: Decoration)

  /** A `{ width, color }` stroke option. */
  datatype BorderStyle = BorderStyle(width: real, color: string)

  /** `style?.width && style?.color`: the stroke is applied only when both are truthy. */
  predicate StrokeApplies(style: Option<BorderStyle>) {
    style.Some? && style.value.width != 0.0 && style.value.color != ""
  }

  const AVATAR_SIZE_QUERY: string := "?size=512"

  /** The name shown on a card: `customUsername || globalName || username`. */
  function DisplayName(customUsername: string, globalName: string, username: string): (name: string)
    ensures name == customUsername || name == globalName || name == username
    ensures name == "" <==> customUsername == "" && globalName == "" && username == ""
    ensures customUsername != "" ==> name == customUsername
    ensures customUsername == "" && globalName != "" ==> name == globalName
  {
    if customUsername != "" then customUsername
    else if globalName != "" then globalName
    else username
  }

  /** `${avatarURL ?? defaultAvatarURL}?size=512`. */
  function AvatarUrl(assets: Assets): (url: string)
    ensures |url| >= |AVATAR_SIZE_QUERY| && url[|url| - |AVATAR_SIZE_QUERY|..] == AVATAR_SIZE_QUERY
    ensures assets.avatarURL.Some? ==> url[..|url| - |AVATAR_SIZE_QUERY|] == assets.avatarURL.value
    ensures assets.avatarURL.None? ==> url[..|url| - |AVATAR_SIZE_QUERY|] == assets.defaultAvatarURL
  {
    assets.avatarURL.GetOr(assets.defaultAvatarURL) + AVATAR_SIZE_QUERY
  }

  /** The banner reference, or null when the user has no banner. */
  function BannerUrl(assets: Assets): (url: Option<string>)
    ensures url.None? <==> assets.bannerURL == ""
    ensures url.Some? ==> url.value == assets.bannerURL + AVATAR_SIZE_QUERY
  {
    if assets.bannerURL != "" then Some(assets.bannerURL + AVATAR_SIZE_QUERY) else None
  }

  /** `Math.round`: the nearest integer, halves rounded up. */
  function JsRound(x: real): (r: int)
    ensures r as real - 0.5 <= x < r as real + 0.5
  {
    (x + 0.5).Floor
  }

  function Reversed<T>(s: seq<T>): seq<T> {
    if s == [] then [] else Reversed(s[1..]) + [s[0]]
  }

  lemma {:induction false} ReversedAt<T>(s: seq<T>, k: nat)
    requires k < |s|
    ensures |Reversed(s)| == |s| && Reversed(s)[k] == s[|s| - 1 - k]
  {
    ReversedLength(s);
    if k < |s| - 1 {
      ReversedAt(s[1..], k);
    }
  }

  lemma {:induction false} ReversedLength<T>(s: seq<T>)
    ensures |Reversed(s)| == |s|
  {
    if s != [] {
      ReversedLength(s[1..]);
    }
  }
}
