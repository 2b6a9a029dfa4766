/**
 * The gradient border of the profile card (`genBorder`): a full-card
 * gradient with the inside erased, leaving a ring.
 */
module ProfileBorder {
  import opened Wrappers
  import opened Canvas
  import opened Collaborators
  import opened Common
  import opened Gradient
  import opened ProfileOptions

  /** Where the border gradient ends: straight down for `vertical`, straight across otherwise. */
  function BorderGradientEnd(align: Option<BorderAllign>): (p: Point)
    ensures p == Point(0.0, 303.0) <==> align == Some(Vertical)
    ensures align != Some(Vertical) ==> p == Point(885.0, 0.0)
  {
    if align == Some(Vertical) then Point(0.0, 303.0) else Point(885.0, 0.0)
  }

  /** The inner rounded rectangle erased from the gradient. */
  const BORDER_HOLE: RoundedRect := RoundedRect(Rect(9.0, 9.0, 867.0, 285.0), 25.0)

  /**
   * `genBorder`. A colour option that is neither a string nor an array is
   * never passed here (spreading `undefined` would throw), so it is not
   * accepted.
   */
  function BorderLayer(spec: ColorSpec, align: Option<BorderAllign>, env: Env): (r: Result<Layer, Error>)
    requires !spec.Unset?
    ensures r.Failure? <==> |ColorList(spec)| > MAX_COLORS
    ensures r.Failure? ==> r.error == TooManyBorderColors(|ColorList(spec)|)
    ensures r.Success? ==>
      && r.value.kind == Border && |r.value.cmds| == 2
      && r.value.cmds[0] == FillRect(Rect(0.0, 0.0, 885.0, 303.0),
           Linear(Point(0.0, 0.0), BorderGradientEnd(align), Stops(ColorList(spec), env.parseHex)), 1.0, NoFilter)
      && r.value.cmds[1] == PunchRoundRect(BORDER_HOLE.rect, BORDER_HOLE.radius)
  {
    var colors := ColorList(spec);
    if |colors| > MAX_COLORS then Failure(TooManyBorderColors(|colors|))
    else
      Success(Layer(Border, [
        FillRect(Rect(0.0, 0.0, 885.0, 303.0), Linear(Point(0.0, 0.0), BorderGradientEnd(align), Stops(colors, env.parseHex)), 1.0, NoFilter),
        PunchRoundRect(BORDER_HOLE.rect, BORDER_HOLE.radius)]))
  }

  /** What is left of the gradient is a ring 9 pixels wide on every side of the 885x303 card. */
  lemma BorderRingWidth()
    ensures BORDER_HOLE.rect.x == 9.0 && BORDER_HOLE.rect.y == 9.0
    ensures 885.0 - BORDER_HOLE.rect.Right() == 9.0 && 303.0 - BORDER_HOLE.rect.Bottom() == 9.0
  {
  }

  /** `genBorder` as written, with the stop loop. */
  method GenBorder(spec: ColorSpec, align: Option<BorderAllign>, env: Env) returns (r: Result<Layer, Error>)
    requires !spec.Unset?
    ensures r == BorderLayer(spec, align, env)
  {
    var borderColors := ColorList(spec);
    if |borderColors| > MAX_COLORS {
      return Failure(TooManyBorderColors(|borderColors|));
    }
    var grad := BorderGradientEnd(align);
    var stops := AddColorStops(borderColors, env.parseHex);
    r := Success(Layer(Border, [
      FillRect(Rect(0.0, 0.0, 885.0, 303.0), Linear(Point(0.0, 0.0), grad, stops), 1.0, NoFilter),
      PunchRoundRect(BORDER_HOLE.rect, BORDER_HOLE.radius)]));
  }
}
