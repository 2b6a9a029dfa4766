/**
 * The XP bar of a rank card (`genXpBar`): the validation of the rank data,
 * the XP, rank and level labels, the rank colour, and the bar's track and
 * fill.
 */
module ProfileXpBar {
  import opened Wrappers
  import opened Canvas
  import opened Collaborators
  import opened Common
  import opened Gradient
  import opened ProfileOptions

  // ---------------------------------------------------- rounded quotients

  /** What `Math.round` of a quotient yields: an integer, or an infinity or NaN after a division by zero. */
  datatype JsInt = Finite(n: int) | PosInfinity | NegInfinity | NotANumber

  /** `Math.round(num / den)` on exact numbers. */
  function RoundedQuotient(num: real, den: real): (q: JsInt)
    ensures den != 0.0 ==> q.Finite? && q.n as real - 0.5 <= num / den < q.n as real + 0.5
    ensures den == 0.0 ==>
      && (q == PosInfinity <==> num > 0.0)
      && (q == NegInfinity <==> num < 0.0)
      && (q == NotANumber <==> num == 0.0)
  {
    if den != 0.0 then Finite(JsRound(num / den))
    else if num > 0.0 then PosInfinity
    else if num < 0.0 then NegInfinity
    else NotANumber
  }

  /** The full width of the fill, one pixel short of the 557-pixel track. */
  const FULL_FILL: real := 556.0

  /** `Math.round((currentXp * 556) / requiredXp)`. */
  function FillWidth(cur: real, req: real): JsInt {
    RoundedQuotient(cur * FULL_FILL, req)
  }

  /** `Math.round((currentXp / requiredXp) * 100)`. */
  function Percentage(cur: real, req: real): JsInt {
    RoundedQuotient(cur * 100.0, req)
  }

  /** A level reached exactly fills the bar and reads 100%. */
  lemma FullBar(xp: real)
    requires xp != 0.0
    ensures FillWidth(xp, xp) == Finite(556) && Percentage(xp, xp) == Finite(100)
  {
    assert xp * FULL_FILL / xp == 556.0;
    assert xp * 100.0 / xp == 100.0;
  }

  /** No XP yet is an empty bar at 0%. */
  lemma EmptyBar(req: real)
    requires req != 0.0
    ensures FillWidth(0.0, req) == Finite(0) && Percentage(0.0, req) == Finite(0)
  {
  }

  /** The fill is not clamped: more XP than required overflows the track's width. */
  lemma FillNotClamped(cur: real, req: real)
    requires 0.0 < req < cur
    ensures FillWidth(cur, req).Finite? && FillWidth(cur, req).n >= 556
  {
    assert cur * FULL_FILL / req > FULL_FILL by {
      assert cur / req > 1.0;
      assert cur * FULL_FILL / req == (cur / req) * FULL_FILL;
    }
  }

  /** With a positive requirement the fill never shrinks as XP grows. */
  lemma FillMonotone(c1: real, c2: real, req: real)
    requires req > 0.0 && c1 <= c2
    ensures FillWidth(c1, req).n <= FillWidth(c2, req).n
  {
    assert c1 * FULL_FILL / req <= c2 * FULL_FILL / req by {
      assert c1 * FULL_FILL <= c2 * FULL_FILL;
    }
  }

  /** Division by zero: no finite width, so the fill command is not issued. */
  lemma ZeroRequirement(cur: real)
    ensures !FillWidth(cur, 0.0).Finite? && !Percentage(cur, 0.0).Finite?
  {
  }

  // --------------------------------------------------- number formatting

  function DigitChar(d: nat): char
    requires d < 10
  {
    "0123456789"[d]
  }

  predicate IsDigit(c: char) {
    '0' <= c <= '9'
  }

  function DigitValue(c: char): nat
    requires IsDigit(c)
  {
    (c as int - '0' as int) as nat
  }

  /** The number a string of decimal digits spells. */
  function DigitsValue(s: string): nat
    requires forall i :: 0 <= i < |s| ==> IsDigit(s[i])
  {
    if s == [] then 0 else 10 * DigitsValue(s[..|s| - 1]) + DigitValue(s[|s| - 1])
  }

  /** The decimal digits of n, without leading zeros. */
  function Digits(n: nat): (s: string)
    ensures |s| >= 1 && forall i :: 0 <= i < |s| ==> IsDigit(s[i])
    ensures DigitsValue(s) == n
    ensures |s| > 1 ==> s[0] != '0'
  {
    if n < 10 then [DigitChar(n)]
    else
      var front := Digits(n / 10);
      var s := front + [DigitChar(n % 10)];
      assert s[..|s| - 1] == front;
      s
  }

  /** How a number is written into a template string. */
  function NumberText(q: JsInt): (s: string)
    ensures s != ""
    ensures q.Finite? && q.n >= 0 ==> s == Digits(q.n)
    ensures q.Finite? && q.n < 0 ==> s[0] == '-' && s[1..] == Digits(-q.n)
  {
    match q
    case Finite(n) => if n >= 0 then Digits(n) else "-" + Digits(-n)
    case PosInfinity => "Infinity"
    case NegInfinity => "-Infinity"
    case NotANumber => "NaN"
  }

  // ---------------------------------------------------------- rank data

  /** The three numbers the bar cannot do without. */
  predicate HasXpData(rd: RankData) {
    rd.currentXp.Num? && rd.requiredXp.Num? && rd.level.Num?
  }

  function XpText(cur: real, req: real, showPercentage: bool, env: Env): string {
    var base := env.abbreviate(cur) + " / " + env.abbreviate(req) + " XP";
    if showPercentage then base + " (" + NumberText(Percentage(cur, req)) + "%)" else base
  }

  /** The percentage is appended to the plain XP text, never put in its place. */
  lemma PercentageAppended(cur: real, req: real, env: Env)
    ensures XpText(cur, req, true, env) == XpText(cur, req, false, env) + " (" + NumberText(Percentage(cur, req)) + "%)"
  {
  }

  function RankPrefix(rd: RankData): string {
    rd.rankPrefix.GetOr("RANK")
  }

  /** `${rankPrefix} #${abbreviateNumber(rank)}` unless the rank is hidden, missing or NaN. */
  function RankLabel(rd: RankData, env: Env): (text: string)
    ensures text != "" <==> !rd.hideRank && rd.rank.Some? && rd.rank.value.Num?
    ensures text != "" ==> text == RankPrefix(rd) + " #" + env.abbreviate(rd.rank.value.value)
  {
    if !rd.hideRank && rd.rank.Some? && rd.rank.value.Num?
    then RankPrefix(rd) + " #" + env.abbreviate(rd.rank.value.value)
    else ""
  }

  /** `Lvl ${abbreviateNumber(level)}` unless the level is hidden. */
  function LevelLabel(rd: RankData, env: Env): (text: string)
    requires rd.level.Num?
    ensures text != "" <==> !rd.hideLevel
    ensures text != "" ==> |text| >= 4 && text[..4] == "Lvl " && text[4..] == env.abbreviate(rd.level.value)
  {
    if !rd.hideLevel then "Lvl " + env.abbreviate(rd.level.value) else ""
  }

  const GOLD: string := "#F1C40F"
  const SILVER: string := "#a1a4c9"
  const BRONZE: string := "#AD8A56"
  const LABEL_GREY: string := "#dadada"

  /**
   * The rank colour: the custom one if given; else, with `autoColorRank`,
   * gold, silver or bronze for the labels of ranks 1, 2 and 3; else grey.
   */
  function RankColor(rankColor: string, autoColorRank: bool, prefix: string, rankLabel: string): (c: string)
    ensures rankColor != "" ==> c == rankColor
    ensures rankColor == "" && !autoColorRank ==> c == LABEL_GREY
    ensures rankColor == "" && autoColorRank ==>
      && (c == GOLD <==> rankLabel == prefix + " #1")
      && (c == SILVER <==> rankLabel == prefix + " #2")
      && (c == BRONZE <==> rankLabel == prefix + " #3")
  {
    MedalLabelsDiffer(prefix);
    if rankColor != "" then rankColor
    else if autoColorRank && rankLabel == prefix + " #1" then GOLD
    else if autoColorRank && rankLabel == prefix + " #2" then SILVER
    else if autoColorRank && rankLabel == prefix + " #3" then BRONZE
    else LABEL_GREY
  }

  /** The three medal labels of one prefix are different strings. */
  lemma MedalLabelsDiffer(prefix: string)
    ensures prefix + " #1" != prefix + " #2" && prefix + " #1" != prefix + " #3" && prefix + " #2" != prefix + " #3"
  {
    var k := |prefix| + 2;
    assert (prefix + " #1")[k] == '1' && (prefix + " #2")[k] == '2' && (prefix + " #3")[k] == '3';
  }

  /** Two strings with a common prefix are equal exactly when what follows it is. */
  lemma {:induction false} SamePrefix(p: string, a: string, b: string)
    ensures p + a == p + b <==> a == b
  {
    if p + a == p + b {
      assert a == (p + a)[|p|..];
      assert b == (p + b)[|p|..];
    }
  }

  /**
   * Automatic medal colours depend only on the abbreviated rank: gold for
   * "1", silver for "2", bronze for "3", whatever the prefix.
   */
  lemma AutoRankColors(rd: RankData, env: Env)
    requires rd.rankColor == "" && rd.autoColorRank && RankLabel(rd, env) != ""
    ensures var c := RankColor(rd.rankColor, true, RankPrefix(rd), RankLabel(rd, env));
      var a := env.abbreviate(rd.rank.value.value);
      && (c == GOLD <==> a == "1")
      && (c == SILVER <==> a == "2")
      && (c == BRONZE <==> a == "3")
      && (a != "1" && a != "2" && a != "3" ==> c == LABEL_GREY)
  {
    var p := RankPrefix(rd) + " #";
    var a := env.abbreviate(rd.rank.value.value);
    assert RankLabel(rd, env) == p + a;
    assert RankPrefix(rd) + " #1" == p + "1";
    assert RankPrefix(rd) + " #2" == p + "2";
    assert RankPrefix(rd) + " #3" == p + "3";
    SamePrefix(p, a, "1");
    SamePrefix(p, a, "2");
    SamePrefix(p, a, "3");
  }

  const LABEL_FONT: Font := Font(true, 21.0, "Helvetica")
  const LEVEL_RIGHT: real := 674.0

  /** Where the right-aligned rank label ends: left of the level label, with a gap of 10 when there is one. */
  function RankX(levelLabel: string, env: Env): real {
    LEVEL_RIGHT - env.measureText(LABEL_FONT, levelLabel) - (if levelLabel != "" then 10.0 else 0.0)
  }

  /**
   * The rank label ends 10 pixels before the level label begins; without a
   * level label it ends where the level label would, minus the width of an
   * empty text.
   */
  lemma RankLabelGap(levelLabel: string, env: Env)
    ensures levelLabel != "" ==> (LEVEL_RIGHT - env.measureText(LABEL_FONT, levelLabel)) - RankX(levelLabel, env) == 10.0
    ensures levelLabel == "" ==> RankX(levelLabel, env) == LEVEL_RIGHT - env.measureText(LABEL_FONT, "")
  {
  }

  // ---------------------------------------------------------- the bar

  const TRACK_Y: real := 179.0

  function BarHeight(rd: RankData): real {
    rd.xpBarHeight.GetOr(36.0)
  }

  function TrackRect(h: real): Rect {
    Rect(304.0, TRACK_Y, 557.0, h)
  }

  /** The fill's corner radius: square for `sharp`, half the height for `capsule`, 14 otherwise. */
  function BarRadius(style: Option<XpBarStyle>, h: real): (r: real)
    ensures style == Some(Sharp) ==> r == 0.0
    ensures style == Some(Capsule) ==> 2.0 * r == h
    ensures style != Some(Sharp) && style != Some(Capsule) ==> r == 14.0
  {
    match style
    case Some(Sharp) => 0.0
    case Some(Capsule) => h / 2.0
    case _ => 14.0
  }

  /** The gradient's axis: across the middle, down the left edge, or corner to corner for `radial`. */
  function GradientAxis(direction: Option<GradientDirection>, h: real): (axis: (Point, Point))
    ensures direction == Some(GradientVertical) ==>
      axis.0 == Point(304.0, TRACK_Y) && axis.0.x == axis.1.x && axis.1.y - axis.0.y == h
    ensures direction == Some(GradientRadial) ==> axis == (Point(304.0, TRACK_Y), Point(860.0, TRACK_Y + h))
    ensures direction != Some(GradientVertical) && direction != Some(GradientRadial) ==>
      axis.0 == Point(304.0, 197.0) && axis.0.y == axis.1.y && axis.1.x - axis.0.x == FULL_FILL
  {
    match direction
    case Some(GradientVertical) => (Point(304.0, TRACK_Y), Point(304.0, TRACK_Y + h))
    case Some(GradientRadial) => (Point(304.0, TRACK_Y), Point(860.0, TRACK_Y + h))
    case _ => (Point(304.0, 197.0), Point(860.0, 197.0))
  }

  /** A gradient over the bar colours, or plain white when there are none. */
  function BarPaint(colors: seq<Stop>, direction: Option<GradientDirection>, h: real): (p: Paint)
    ensures |colors| == 0 <==> p == Solid("#fff")
    ensures |colors| > 0 ==> p == Linear(GradientAxis(direction, h).0, GradientAxis(direction, h).1, colors)
  {
    if |colors| > 0 then
      var axis := GradientAxis(direction, h);
      Linear(axis.0, axis.1, colors)
    else Solid("#fff")
  }

  function LabelCmds(rd: RankData, env: Env): seq<Cmd>
    requires HasXpData(rd)
  {
    var rank := RankLabel(rd, env);
    var level := LevelLabel(rd, env);
    [FillRoundRect(Rect(304.0, 248.0, 380.0, 33.0), 12.0, Solid("#000"), 0.4),
     FillText(XpText(rd.currentXp.value, rd.requiredXp.value, rd.showPercentage, env), Point(314.0, 273.0),
       AlignLeft, Font(false, 21.0, "Helvetica"), LABEL_GREY)]
    + (if rank != "" then
         [FillText(rank, Point(RankX(level, env), 273.0), AlignRight, LABEL_FONT,
            RankColor(rd.rankColor, rd.autoColorRank, RankPrefix(rd), rank))]
       else [])
    + (if level != "" then
         [FillText(level, Point(LEVEL_RIGHT, 273.0), AlignRight, LABEL_FONT,
            if rd.levelColor != "" then env.parseHex(rd.levelColor) else LABEL_GREY)]
       else [])
  }

  function TrackCmds(rd: RankData, env: Env): seq<Cmd> {
    var track := TrackRect(BarHeight(rd));
    [FillRoundRect(track, 14.0, Solid("#000"), 0.4)]
    + (if StrokeApplies(rd.barBorder)
       then [StrokeRoundRect(track, 14.0, env.parseHex(rd.barBorder.value.color), rd.barBorder.value.width)]
       else [])
    + [ClipRoundRect(track, 14.0)]
  }

  /** The fill, issued only when its width is a finite number. */
  function FillCmds(rd: RankData, stops: seq<Stop>): seq<Cmd>
    requires HasXpData(rd)
  {
    var h := BarHeight(rd);
    match FillWidth(rd.currentXp.value, rd.requiredXp.value)
    case Finite(w) =>
      [FillRoundRect(Rect(304.0, TRACK_Y, w as real, h), BarRadius(rd.xpBarStyle, h),
         BarPaint(stops, rd.barGradientDirection, h), 1.0)]
    case _ => []
  }

  /**
   * `genXpBar`: missing XP data is an error, and so is a bar gradient of
   * more than twenty colours; the XP data is checked first.
   */
  function XpBarLayer(rd: RankData, env: Env): (r: Result<Layer, Error>)
    ensures r.Failure? <==> !HasXpData(rd) || |ColorList(rd.barColor)| > MAX_COLORS
    ensures r.Failure? && !HasXpData(rd) ==> r.error == MissingXpData
    ensures r.Failure? && HasXpData(rd) ==> r.error == TooManyBarColors(|ColorList(rd.barColor)|)
    ensures r.Success? ==> r.value.kind == XpBar
    ensures r.Success? ==>
      r.value.cmds == LabelCmds(rd, env) + TrackCmds(rd, env)
        + FillCmds(rd, Stops(ColorList(rd.barColor), env.parseHex))
  {
    if !HasXpData(rd) then Failure(MissingXpData)
    else
      var colors := ColorList(rd.barColor);
      if |colors| > MAX_COLORS then Failure(TooManyBarColors(|colors|))
      else Success(Layer(XpBar, LabelCmds(rd, env) + TrackCmds(rd, env) + FillCmds(rd, Stops(colors, env.parseHex))))
  }

  /**
   * The labels: the XP text always, the rank label exactly when it is not
   * empty and in its resolved colour, the level label exactly when it is
   * not hidden, both on the line y = 273.
   */
  lemma XpLabels(rd: RankData, env: Env)
    requires HasXpData(rd)
    ensures var cmds := LabelCmds(rd, env);
      var rank := RankLabel(rd, env);
      var level := LevelLabel(rd, env);
      && |cmds| == 2 + (if rank != "" then 1 else 0) + (if level != "" then 1 else 0)
      && cmds[1].FillText? && cmds[1].text == XpText(rd.currentXp.value, rd.requiredXp.value, rd.showPercentage, env)
      && (rank != "" ==> cmds[2] == FillText(rank, Point(RankX(level, env), 273.0), AlignRight, LABEL_FONT,
            RankColor(rd.rankColor, rd.autoColorRank, RankPrefix(rd), rank)))
      && (level != "" ==>
            cmds[|cmds| - 1].FillText? && cmds[|cmds| - 1].text == level && cmds[|cmds| - 1].at == Point(LEVEL_RIGHT, 273.0))
      && forall i :: 1 <= i < |cmds| ==> cmds[i].FillText? && cmds[i].at.y == 273.0
  {
  }

  /**
   * The fill is the last command, inside the track's clip, starting at the
   * track's corner with the track's height, exactly when its width is
   * finite; otherwise the clip is the last command.
   */
  lemma FillInsideTrack(rd: RankData, env: Env)
    requires XpBarLayer(rd, env).Success?
    ensures var cmds := XpBarLayer(rd, env).value.cmds;
      var w := FillWidth(rd.currentXp.value, rd.requiredXp.value);
      var track := TrackRect(BarHeight(rd));
      && (w.Finite? ==>
            cmds[|cmds| - 2] == ClipRoundRect(track, 14.0)
            && cmds[|cmds| - 1].FillRoundRect?
            && cmds[|cmds| - 1].rect == Rect(track.x, track.y, w.n as real, track.h)
            && cmds[|cmds| - 1].radius == BarRadius(rd.xpBarStyle, track.h))
      && (!w.Finite? ==> cmds[|cmds| - 1] == ClipRoundRect(track, 14.0))
  {
  }

  /** `genXpBar` as written, with the stop loop. */
  method GenXpBar(rd: RankData, env: Env) returns (r: Result<Layer, Error>)
    ensures r == XpBarLayer(rd, env)
  {
    if !HasXpData(rd) {
      return Failure(MissingXpData);
    }
    var cmds := LabelCmds(rd, env) + TrackCmds(rd, env);
    var barColors := ColorList(rd.barColor);
    if |barColors| > MAX_COLORS {
      return Failure(TooManyBarColors(|barColors|));
    }
    var stops := AddColorStops(barColors, env.parseHex);
    var h := BarHeight(rd);
    var barWidth := FillWidth(rd.currentXp.value, rd.requiredXp.value);
    if barWidth.Finite? {
      cmds := cmds + [FillRoundRect(Rect(304.0, TRACK_Y, barWidth.n as real, h), BarRadius(rd.xpBarStyle, h),
        BarPaint(stops, rd.barGradientDirection, h), 1.0)];
    }
    assert cmds == LabelCmds(rd, env) + TrackCmds(rd, env) + FillCmds(rd, stops);
    r := Success(Layer(XpBar, cmds));
  }
}
