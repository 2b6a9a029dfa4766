# discord-arts renderer model

discord-arts draws two kinds of images for a Discord user:

- a **profile card**, by default 885×303;
- a **welcome or goodbye banner**, by default 1024×500.

Each image is made of independently drawn, full-canvas layers. They are composited in a fixed order onto one output canvas, and that canvas is encoded as a PNG.

The profile card has these layers:

- the blurred background under an overlay;
- the frame, with its date and badge panels;
- the text and avatar;
- the border gradient with a hole punched out;
- the bot badge;
- the account and custom badges;
- the XP bar;
- the avatar frame.

The text and avatar, the bot badge and the badges are each preceded by their drop shadow. The presence-status icon is cut into the avatar (and into the avatar frame).

The banner has three layers: a cover-fitted background (or a gradient), a round avatar with a ring, and the headline above the username.

This Dafny project models both pipelines at the level of the draw commands each layer issues:

- the commands and their geometry;
- the option defaults, with JavaScript's `||` and `??` told apart;
- which layers are drawn, in which order;
- the errors a render can end with.

Layout of the project:

- **Canvas** is the command vocabulary plus the output `Surface`. `Surface` is a class whose clip and layer list the pipelines update in place.
- **Collaborators** is the environment of functions the renderer calls but that lie outside the model: the image loader, the validation helpers, number abbreviation, text measurement, username fitting and date formatting.
- **Common** holds the shared data, errors and option rules.
- **Gradient** builds the N-stop gradients.
- **ProfileOptions** holds the profile options and the `ScaledOptions` object that `genPng` mutates.
- One module per profile layer file section: **ProfileBase**, **ProfileBadges**, **ProfileText**, **ProfileBorder** and **ProfileXpBar**.
- **ProfileOutput** is `genPng`.
- **WelcomeBanner** and **WelcomeOutput** are the banner.

Parts that mutate state are methods proved against specification functions:

- `genPng` and `genWelcomeBanner` draw onto a `Surface`.
- `getBadges` reverses the caller's badge array in place.
- The loops become `while` loops: badge loading, the badge cursor, gradient stops and subtitle lines.

Only the background, the frame and the output clip use the scale factors. The text, border, status, badge, bot-badge, XP-bar and avatar-frame layers are drawn on fixed 885×303 canvases at fixed coordinates, and `genPng` composites them at the origin without scaling. The model keeps those fixed coordinates.

## Model

| member | source | states |
|---|---|---|
| Common.DisplayName | src/utils/profile-image.utils.js:236 | the shown name is the first non-empty of custom name, global name, username; empty only when all three are |
| Common.AvatarUrl | src/utils/profile-image.output.utils.js:53 | the avatar reference is the avatar URL, else the default avatar URL, followed by `?size=512` |
| Common.BannerUrl | src/utils/profile-image.output.utils.js:54 | the banner is absent exactly when the banner URL is empty, otherwise it is the URL with `?size=512` |
| Common.JsRound | src/utils/profile-image.utils.js:590 | `Math.round` returns the integer within half a unit of its argument, halves rounding up |
| Common.ReversedAt | src/utils/profile-image.utils.js:41 | the reversed badge list holds element `n-1-k` at position `k` and has the same length |
| Gradient.AddColorStops | src/utils/profile-image.utils.js:191-194 | the stop loop adds, for each colour in order, a stop at offset `i/(n-1)` with the parsed colour |
| Gradient.StopsSpanGradient | src/utils/profile-image.utils.js:699-702 | for two or more colours the stops start at offset 0, end at offset 1 and strictly increase |
| ProfileBase.CanvasDimensions | src/utils/profile-image.utils.js:27-33 | each layer takes the size and scale the caller carried; a bare options object falls back to 885×303 at scale 1 |
| ProfileBase.ResolveBackground | src/utils/profile-image.utils.js:81-100 | the custom background, else the banner, else the avatar, is loaded with the avatar as second try; it fails only when both loads fail; the image fills the canvas exactly when a custom background is set or the banner itself loaded |
| ProfileBase.ZoomedBackgroundCoverage | src/utils/profile-image.utils.js:98-100 | the zoomed avatar background is a square wider than the card, starting above its top; it reaches the bottom exactly when 900·scaleX ≥ 648·scaleY |
| ProfileBase.BackgroundFilter | src/utils/profile-image.utils.js:107-115 | blur is 9 with more blur, 0 when blur is disabled, else 3; a brightness term of b+100 appears exactly when brightness is set |
| ProfileBase.BaseLayer | src/utils/profile-image.utils.js:76-127 | the base fails exactly when the background resolution fails; otherwise it fills the canvas, draws the background under the blur and brightness filter and covers it with the overlay, which is filled while that filter is still set |
| ProfileBase.BadgeBackdrop | src/utils/profile-image.utils.js:159-165 | the badge panel's right edge stays at 865·scaleX while it grows left by 59·scaleX per badge |
| ProfileBase.FrameLayer | src/utils/profile-image.utils.js:129-170 | the frame asset covers the canvas at half opacity; the date panel is drawn exactly when dates are shown; the badge panel exactly when asked for, badges exist and are not removed |
| ProfileBadges.LoadBadgesSpec | src/utils/profile-image.utils.js:41-51 | sequential loading succeeds exactly when every badge loads, yields one placed badge per request, and otherwise fails with the error of the first badge that does not load |
| ProfileBadges.LoadBadgesPrefixFailure | src/utils/profile-image.utils.js:43-48 | once a prefix of the requests fails, the later requests do not change the outcome |
| ProfileBadges.BadgeListContents | src/utils/profile-image.utils.js:35-74 | account badges come reversed at (0,15,60) unless custom badges overwrite them; custom badges follow at (10,22,46), each image being what its reference loaded |
| ProfileBadges.BadgeListFails | src/utils/profile-image.utils.js:43-67 | the badge list fails exactly when some account or custom badge does not load, with an account-badge error when an account badge is missing |
| ProfileBadges.LoadEach | src/utils/profile-image.utils.js:41-51 | the early-returning load loop computes the sequential loading function |
| ProfileBadges.GetBadges | src/utils/profile-image.utils.js:35-74 | the caller's badge array is left reversed, and the result is the badge list of the array as given |
| ProfileBadges.ReverseInPlace | src/utils/profile-image.utils.js:41 | `badges.reverse()` leaves the array holding the reversal of its old contents |
| ProfileBadges.AnchorStart | src/utils/profile-image.utils.js:464-471 | the row starts at x 85 for the left positions and y 227 for the bottom positions; any other string that is not an inherited object key falls back to top-right (800,15) |
| ProfileBadges.GenBadges | src/utils/profile-image.utils.js:453-500 | the cursor loop draws one image per badge, each at its layout rectangle with the chosen opacity |
| ProfileBadges.NeighbouringBadges | src/utils/profile-image.utils.js:487-493 | consecutive badges of the same kind sit one spacing apart, rightwards when left-aligned and leftwards otherwise, on the same row |
| ProfileBadges.AccountBadgeOnAnchorRow | src/utils/profile-image.utils.js:479-490 | an account badge sits exactly on the anchor row at the cursor, as a square of 60·scale |
| ProfileText.ParsePresence | src/utils/profile-image.utils.js:412-425 | a status string is accepted exactly when it is one of the seven valid names, and parsing returns the status of that name |
| ProfileText.PresenceRoundTrip | src/utils/profile-image.utils.js:412-420 | every status parses back from its own name |
| ProfileText.StatusIconAsset | src/utils/profile-image.utils.js:427-428 | offline shows the invisible icon; every other status shows its own icon |
| ProfileText.NotchGeometry | src/utils/profile-image.utils.js:391-400 | the notch holds the icon origin; the phone notch is the 57×78 rectangle 8 up and left of it, any other a 62-pixel circle at the origin |
| ProfileText.StatusLayerCmds | src/utils/profile-image.utils.js:408-451 | `genStatus` fails exactly on an invalid status; otherwise it copies the layer, punches the notch and draws the status icon at its origin |
| ProfileText.CutAvatarStatus | src/utils/profile-image.utils.js:387-406 | the avatar-frame cut copies the frame and punches one shape |
| ProfileText.FrameNotchMatchesStatus | src/utils/profile-image.utils.js:398-400 | the avatar frame is cut with the same notch as the avatar for every valid status |
| ProfileText.EffectiveCustomTag | src/utils/profile-image.utils.js:274-276 | a given custom tag is kept; without one, only Clyde gets a tag, and it is `@clyde` |
| ProfileText.ResolveTag | src/utils/profile-image.utils.js:278-282 | the tag is the custom tag, else `#` and the discriminator, else `@` and the username |
| ProfileText.ClydeTag | src/utils/profile-image.utils.js:274-282 | Clyde without a custom tag is tagged `@clyde` |
| ProfileText.SubtitlePanel | src/utils/profile-image.utils.js:249-255 | the subtitle panel is at least 33 high and 25 per line plus 8, and equal to one of the two |
| ProfileText.SubtitlePanelMinimum | src/utils/profile-image.utils.js:255 | the panel keeps its minimum height exactly when there is at most one line |
| ProfileText.SubtitleTexts | src/utils/profile-image.utils.js:263-265 | the line loop draws line `i` at x 314, 25·i below the first baseline |
| ProfileText.UsernameDrawn | src/utils/profile-image.utils.js:299-310 | the fitted username is always filled at (300,155) in its font and colour |
| ProfileText.TagDrawnWithoutRankData | src/utils/profile-image.utils.js:312-320 | the tag is filled at (300,215) exactly when there is no rank data |
| ProfileText.DateDrawnUnlessHidden | src/utils/profile-image.utils.js:329-335 | a text is filled at the date position exactly when the date is not hidden |
| ProfileText.NamesAtX | src/utils/profile-image.utils.js:308-319 | every filled name or tag starts at x 300 |
| ProfileText.SubtitleAtX | src/utils/profile-image.utils.js:264 | every filled subtitle line starts at x 314 |
| ProfileText.ShadowSpansNames | src/utils/profile-image.utils.js:284-326 | the text shadow is set before the names exactly when enabled, and is reset after them |
| ProfileText.AvatarRadius | src/utils/profile-image.utils.js:339 | a square avatar has corner radius 30; otherwise the radius of 225 makes it round |
| ProfileText.TextAndAvatarLayer | src/utils/profile-image.utils.js:209-369 | the layer fails when the avatar does not load or the status is invalid, with the avatar error first; without a status it is the texts then the avatar; with one, it is exactly the status layer built over that drawing: the copy, the notch and the icon |
| ProfileText.GenTextAndAvatar | src/utils/profile-image.utils.js:274-276 | the shared options gain `@clyde` as custom tag for Clyde, and nothing else changes; the layer is drawn with the updated tag |
| ProfileText.AvatarFrameLayer | src/utils/profile-image.utils.js:371-385 | the avatar frame fails exactly when it does not load; it is drawn at (25,18,269,269), and with a status set that drawing is copied and cut at the status notch |
| ProfileText.FrameSurroundsAvatar | src/utils/profile-image.utils.js:342-378 | the avatar frame extends 21 to 23 pixels beyond the avatar on every side |
| ProfileText.BotBadgeAsset | src/utils/profile-image.utils.js:521-525 | Clyde gets the AI badge; other bots get the verified badge exactly when verified |
| ProfileText.BotBadgeBesideName | src/utils/profile-image.utils.js:502-530 | for any bot other than Clyde whose drawn name is its username, in the default font and size, the badge starts 10 pixels after the end of the drawn name, at y 110 |
| ProfileText.ClydeBadgeBesideGlobalName | src/utils/profile-image.utils.js:508-530 | Clyde gets the AI badge, 10 pixels past its global name as measured in bold Helvetica at size 80 within 470 pixels |
| ProfileText.BotBadgeMeasuresUsername | src/utils/profile-image.utils.js:236-243 | a bot other than Clyde with a global name draws the global name but places its badge after the measured username, so the badge misses the drawn name whenever the two measure differently |
| ProfileBorder.BorderGradientEnd | src/utils/profile-image.utils.js:186-189 | the border gradient runs down the card when vertical and across it otherwise |
| ProfileBorder.BorderLayer | src/utils/profile-image.utils.js:172-207 | the border fails exactly with more than 20 colours; otherwise it fills the card with the colour gradient and punches out the inner rounded rectangle |
| ProfileBorder.BorderRingWidth | src/utils/profile-image.utils.js:203 | the remaining border ring is 9 pixels wide on every side |
| ProfileBorder.GenBorder | src/utils/profile-image.utils.js:176-194 | the border method with its colour and stop loops computes the border layer |
| ProfileXpBar.RoundedQuotient | src/utils/profile-image.utils.js:590 | a rounded quotient is within half a unit of the exact one; dividing by zero gives ±Infinity or NaN by the sign of the numerator |
| ProfileXpBar.FullBar | src/utils/profile-image.utils.js:671 | reaching the required XP fills all 556 pixels and shows 100% |
| ProfileXpBar.EmptyBar | src/utils/profile-image.utils.js:671 | no XP gives an empty bar and 0% |
| ProfileXpBar.FillNotClamped | src/utils/profile-image.utils.js:671 | XP beyond the requirement is not clamped: the fill reaches the full width or more, cut only by the track clip |
| ProfileXpBar.FillMonotone | src/utils/profile-image.utils.js:671 | more XP never gives a shorter bar |
| ProfileXpBar.ZeroRequirement | src/utils/profile-image.utils.js:590-671 | a zero requirement gives a non-finite width and percentage |
| ProfileXpBar.Digits | src/utils/profile-image.utils.js:592 | the decimal digits of a number denote it, without leading zeros |
| ProfileXpBar.NumberText | src/utils/profile-image.utils.js:592 | a percentage prints as its digits, with a minus sign when negative |
| ProfileXpBar.PercentageAppended | src/utils/profile-image.utils.js:591-593 | showing the percentage appends ` (p%)` to the plain XP text |
| ProfileXpBar.RankLabel | src/utils/profile-image.utils.js:580-583 | the rank label is shown exactly when not hidden and the rank is a number, and reads prefix, ` #`, abbreviated rank |
| ProfileXpBar.LevelLabel | src/utils/profile-image.utils.js:584-587 | the level label is shown exactly when not hidden, and reads `Lvl ` and the abbreviated level |
| ProfileXpBar.RankColor | src/utils/profile-image.utils.js:601-617 | a custom rank colour wins; otherwise ranks 1, 2, 3 are gold, silver and bronze when auto-colouring, else grey |
| ProfileXpBar.MedalLabelsDiffer | src/utils/profile-image.utils.js:608-612 | the three medal labels are distinct, so the colour lookup is unambiguous |
| ProfileXpBar.AutoRankColors | src/utils/profile-image.utils.js:614-617 | with auto-colouring, the colour is a medal exactly when the abbreviated rank is 1, 2 or 3, and grey otherwise |
| ProfileXpBar.RankLabelGap | src/utils/profile-image.utils.js:626 | the rank ends 10 pixels before the level label when one is shown |
| ProfileXpBar.BarRadius | src/utils/profile-image.utils.js:709-715 | sharp bars have no rounding, capsule bars half the height, all others 14 |
| ProfileXpBar.GradientAxis | src/utils/profile-image.utils.js:673-690 | every axis starts at the track's left edge: a vertical gradient runs down from the track top over the bar height, a horizontal one across the full bar width at y 197, a radial one along the track diagonal |
| ProfileXpBar.BarPaint | src/utils/profile-image.utils.js:705 | the bar is plain white exactly when no colour is given, otherwise the linear gradient along the direction's axis with the given stops |
| ProfileXpBar.XpBarLayer | src/utils/profile-image.utils.js:535-719 | the bar fails on missing XP data first, then on more than 20 colours; otherwise it draws labels, track and fill |
| ProfileXpBar.XpLabels | src/utils/profile-image.utils.js:571-637 | the panel, the XP text, the rank (right-aligned before the level) and the level are drawn on baseline 273, each only when shown |
| ProfileXpBar.FillInsideTrack | src/utils/profile-image.utils.js:639-716 | the fill is drawn after the track clip, at the track's origin and height, with the rounded width; a non-finite width draws nothing |
| ProfileXpBar.GenXpBar | src/utils/profile-image.utils.js:535-719 | the XP-bar method computes the XP-bar layer |
| ProfileOptions.ScaledOptions.constructor | src/utils/profile-image.output.utils.js:42-48 | the scaled options start as a copy of the caller's options with the scale attached |
| ProfileOutput.ProfileScale | src/utils/profile-image.output.utils.js:34-39 | the card takes the custom size or 885×303 per side, scaled against the reference; no custom size gives scale 1 |
| ProfileOutput.LayersSeeProfileScale | src/utils/profile-image.output.utils.js:42-48 | the layers read back exactly the size and scale `genPng` attached |
| ProfileOutput.ClipWithinCanvas | src/utils/profile-image.output.utils.js:57-67 | the clip lies inside the card; without a border it is the border's hole scaled, 9 scaled pixels in from every edge |
| ProfileOutput.ThemeBorder | src/utils/profile-image.output.utils.js:84-93 | with no border colour, theme enabled and profile colours present, the border takes the profile colours and defaults to vertical; otherwise nothing changes |
| ProfileOutput.ThemeBorderDrawn | src/utils/profile-image.output.utils.js:84-100 | a themed border is drawn exactly when the profile has colours |
| ProfileOutput.When | src/utils/profile-image.output.utils.js:95-127 | a conditional layer is absent when its condition is false and fails only when drawn and failing |
| ProfileOutput.StackSlots | src/utils/profile-image.output.utils.js:69-127 | the stack's layer kinds are the fixed base, frame and shadowed text, then each optional layer present, shadows first |
| ProfileOutput.UpperLayersPresent | src/utils/profile-image.output.utils.js:95-127 | border, bot badge, badges, XP bar and avatar frame are present exactly under their conditions |
| ProfileOutput.ProfileLayerOrder | src/utils/profile-image.output.utils.js:26-130 | a rendered card has the option size, the chosen clip and the layers in `genPng`'s order for its options |
| ProfileOutput.ShadowPrecedesContent | src/utils/profile-image.output.utils.js:80-116 | every shadow is immediately followed by the layer it shadows |
| ProfileOutput.ProfilePngFails | src/utils/profile-image.output.utils.js:26-130 | a card fails exactly when a badge, the background and avatar, the avatar, the status, the border colours, the XP data or the avatar frame fails |
| ProfileOutput.GenPng | src/utils/profile-image.output.utils.js:26-130 | `genPng` reverses the caller's badge array and returns the card function of the array as given |
| ProfileOutput.DrawLower | src/utils/profile-image.output.utils.js:69-82 | the base, frame, shadow and text layers are appended to the canvas in order; the options' tag becomes `@clyde` for Clyde without one once the base has loaded, and is otherwise kept |
| ProfileOutput.DrawBorder | src/utils/profile-image.output.utils.js:84-103 | the theme is written into the shared options and the border layer is appended when drawn |
| ProfileOutput.DrawBadges | src/utils/profile-image.output.utils.js:105-117 | the bot badge for bots and the badges unless removed are appended, each after its shadow |
| ProfileOutput.DrawTop | src/utils/profile-image.output.utils.js:119-127 | the XP bar with rank data and the avatar frame when shown are appended |
| ProfileOutput.DrawUpper | src/utils/profile-image.output.utils.js:84-127 | the optional layers are appended in order and the canvas ends with exactly them |
| Canvas.Surface.DrawLayer | src/utils/profile-image.output.utils.js:70 | drawing a layer appends it to the canvas and keeps the clip |
| Canvas.Surface.Clip | src/utils/profile-image.output.utils.js:67 | clipping sets the clip and keeps the layers |
| WelcomeBanner.CanvasDimensions | src/utils/welcome-banner.utils.js:6-10 | each side takes its custom value, else 1024 or 500, and is positive |
| WelcomeBanner.CoverFitCovers | src/utils/welcome-banner.utils.js:42-59 | the background rectangle covers the canvas, keeps the image's aspect ratio, is centred, and matches the canvas on one side |
| WelcomeBanner.BlurDefaultsOnlyWhenMissing | src/utils/welcome-banner.utils.js:33-39 | a blur of 0 is kept and only a missing blur becomes 3; brightness is added exactly when it is non-zero |
| WelcomeBanner.OverlayColor | src/utils/welcome-banner.utils.js:73 | the overlay is the custom colour, else translucent black |
| WelcomeBanner.WelcomeBaseContents | src/utils/welcome-banner.utils.js:15-78 | with no background or a failed load the fallback gradient from corner to corner is painted; a loaded image is drawn under the filter; the overlay is always painted last over the canvas |
| WelcomeBanner.BackgroundCoversCanvas | src/utils/welcome-banner.utils.js:41-61 | a loaded background is drawn over the whole canvas without distortion |
| WelcomeBanner.GenWelcomeBase | src/utils/welcome-banner.utils.js:15-78 | the step-by-step base drawing, filter built up in place, computes the base layer |
| WelcomeBanner.WelcomeAvatarLayer | src/utils/welcome-banner.utils.js:83-96 | the avatar layer fails exactly when the avatar does not load |
| WelcomeBanner.AvatarGeometry | src/utils/welcome-banner.utils.js:88-130 | the ring is drawn exactly when its width is positive, with its inner edge on the avatar circle; the image is the square around the clip circle, centred on the canvas |
| WelcomeBanner.DrawWelcomeAvatar | src/utils/welcome-banner.utils.js:98-130 | the step-by-step avatar drawing computes the avatar commands |
| WelcomeBanner.Headline | src/utils/welcome-banner.utils.js:144-146 | the headline is the custom text, else GOODBYE for goodbye banners, else WELCOME |
| WelcomeBanner.TextBelowAvatar | src/utils/welcome-banner.utils.js:155-158 | the username is 60 below the headline; the headline is 90 below the avatar, or 110 when the size is unset (the text assumes 220, the avatar draws 200) |
| WelcomeBanner.WelcomeTextContents | src/utils/welcome-banner.utils.js:160-198 | the shadow is set unless disabled, both lines are centred with the headline first, each stroked exactly when the stroke has a width and colour, and the shadow is reset last |
| WelcomeBanner.GenWelcomeText | src/utils/welcome-banner.utils.js:138-201 | the step-by-step text drawing computes the text layer |
| WelcomeOutput.BackgroundOf | src/utils/welcome-banner.output.utils.js:34-35 | the background is the custom one, else the raw banner URL, else the avatar, so it is never empty |
| WelcomeOutput.WelcomeLayerOrder | src/utils/welcome-banner.output.utils.js:20-52 | a banner fails exactly when the avatar does not load; otherwise it has the option size, no clip and exactly base, avatar and text layers in that order |
| WelcomeOutput.AvatarDoublesAsBackground | src/utils/welcome-banner.output.utils.js:31-38 | without a custom background or banner, the avatar is drawn as the background |
| WelcomeOutput.GenWelcomeBanner | src/utils/welcome-banner.output.utils.js:20-52 | drawing the three layers onto the output canvas yields the banner function's result |

## Left out

- Rasterisation, pixel values, compositing modes (`source-out`, `destination-out`), filter effects and PNG encoding live in the canvas library. Only the commands and their arguments are modelled. The drop shadow `addShadow` (src/utils/profile-image.utils.js:721-729) is a `Shadow` entry of the layer stack.
- Font registration (src/utils/profile-image.output.utils.js:17-24, src/utils/welcome-banner.output.utils.js:11-18) is process-wide I/O.
- Fonts, text measurement, username fitting (`parseUsername`), number abbreviation, date formatting and the validation helpers `parseImg`, `parsePng` and `parseHex` are parameters of the model. So are the `isString`/`isNumber` checks, which pass valid options through unchanged. Their own behaviour is not part of this model.
- Image loading (network and decoding) is a parameter returning an optional image. Bundled assets (the frame, status icons and bot badges) are assumed always to decode.
- Numbers are reals, not IEEE doubles: no rounding error, no `-0`, and no infinite inputs. `NaN` is modelled only for the rank-data numbers. A missing `currentXp`, `requiredXp` or `level` (`undefined`, which `Number.isNaN` lets through) is not modelled.
- Custom sizes are natural numbers. Negative or fractional canvas sizes, and negative avatar sizes (a negative arc radius raises inside the canvas library), are not modelled.
- A gradient with a single colour has its only stop at offset 0/0, which is not a number. The gradient properties are stated for two or more colours.
- The text of error messages, including the truncation of custom badge names, is left out. Errors are values naming the failing item.
- `lineJoin`, `lineWidth` resets and `globalAlpha` resets have no later effect in a layer and are not modelled.
- ProfileText.CutAvatarStatus: its own contract states only that the frame is copied and one shape punched. Which shape is stated by ProfileText.FrameNotchMatchesStatus, for valid statuses.
- ProfileBadges.AnchorStart: a `badgePosition` naming a key inherited from `Object.prototype` (`constructor`, `toString`, …) is not modelled. In the source it selects that inherited function instead of the top-right fallback, and the badges get `NaN` coordinates. The option is typed as one of the four corners.
- The avatar reference can be loaded up to three times (src/utils/profile-image.utils.js:82, :89 and :337): as the background when there is no banner, again as the background's second try, and for the text and avatar layer. The model's loader gives the same answer for the same reference each time, so repeated loads are assumed to agree. ProfileOutput.ProfilePngFails relies on this.
