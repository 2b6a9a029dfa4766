/**
 * The vocabulary of the 2D canvas: the geometry records and draw commands the
 * renderer issues, the layers it composes, and the shared output surface.
 * Pixels, filters' effects and compositing arithmetic are not modelled; only
 * the commands and their arguments are.
 */
module Canvas {
  import opened Wrappers

  type Positive = r: real | r > 0.0 witness 1.0

  datatype Point = Point(x: real, y: real)

  /** An axis-aligned rectangle given by its top-left corner and its size. */
  datatype Rect = Rect(x: real, y: real, w: real, h: real) {
    function Right(): real { x + w }
    function Bottom(): real { y + h }
  }

  /** A decoded image; every decoded image has a positive size. */
  datatype Image = Image(source: string, width: Positive, height: Positive)

  /** What a draw command paints: an image the loader returned, or an asset bundled with the package. */
  datatype ImageRef = Loaded(image: Image) | Bundled(asset: string)

  /**
   * A gradient colour stop at offset index/last. A gradient of one colour
   * has last == 0, whose offset is not a number.
   */
  datatype Stop = Stop(index: nat, last: nat, color: string) {
    function Offset(): real
      requires last > 0
    {
      index as real / last as real
    }
  }

  datatype Paint = Solid(color: string) | Linear(from: Point, to: Point, stops: seq<Stop>)

  /** The filter active while an image is drawn or a rectangle filled. */
  datatype Filter = NoFilter | Blur(px: real, brightness: Option<real>)

  datatype Font = Font(bold: bool, size: real, family: string)

  datatype TextAlign = AlignLeft | AlignRight | AlignCenter

  /** One command issued to a 2D context, in the order issued. */
  datatype Cmd =
    | FillRect(rect: Rect, paint: Paint, alpha: real, filter: Filter)
    | FillRoundRect(rect: Rect, radius: real, paint: Paint, alpha: real)
    | StrokeRoundRect(rect: Rect, radius: real, color: string, lineWidth: real)
    | ClipRoundRect(rect: Rect, radius: real)
      /** A rounded rectangle filled in `destination-out` mode: it erases what lies beneath. */
    | PunchRoundRect(rect: Rect, radius: real)
    | DrawImage(image: ImageRef, dst: Rect, alpha: real, filter: Filter)
      /** An image drawn at its natural size with its top-left corner at `at`. */
    | Blit(image: ImageRef, at: Point)
    | FillText(text: string, at: Point, align: TextAlign, font: Font, color: string)
    | StrokeText(text: string, at: Point, align: TextAlign, font: Font, color: string, lineWidth: real)
    | SetShadow(color: string, blur: real, dx: real, dy: real)
    | StrokeArc(center: Point, radius: real, color: string, lineWidth: real)
    | ClipArc(center: Point, radius: real)
      /**
       * Another full-size canvas drawn at the origin. The commands that drew
       * it, clips included, do not affect the commands after this one.
       */
    | DrawCanvas(content: seq<Cmd>)

  datatype LayerKind =
    | Background | Frame | TextAndAvatar | Border | BotBadge | Badges | XpBar | AvatarFrame
    | WelcomeBackground | WelcomeAvatar | WelcomeText

  /** A full-canvas surface holding one component's drawing. */
  datatype Layer = Layer(kind: LayerKind, cmds: seq<Cmd>)

  /** A layer composited onto the output, either itself or as its drop shadow. */
  datatype Drawn = Content(layer: Layer) | Shadow(of: Layer)

  /** A rounded rectangle: a clip, a notch or a panel outline. */
  datatype RoundedRect = RoundedRect(rect: Rect, radius: real)

  /** The encoded output: its size, the clip in force and the layers in drawing order. */
  datatype Png = Png(width: nat, height: nat, clip: Option<RoundedRect>, layers: seq<Drawn>)

  /** The output canvas: layers are drawn onto it one after another. */
  class Surface {
    const width: nat
    const height: nat
    var clip: Option<RoundedRect>
    var layers: seq<Drawn>

    constructor (width: nat, height: nat)
      ensures this.width == width && this.height == height
      ensures clip == None && layers == []
    {
      this.width := width;
      this.height := height;
      clip := None;
      layers := [];
    }

    /** Restricts every later draw to `c`. */
    method Clip(c: RoundedRect)
      modifies this
      ensures clip == Some(c) && layers == old(layers)
    {
      clip := Some(c);
    }

    /** `ctx.drawImage(layer, 0, 0)`. */
    method DrawLayer(d: Drawn)
      modifies this
      ensures layers == old(layers) + [d] && clip == old(clip)
    {
      layers := layers + [d];
    }

    /** `canvas.toBuffer('image/png')`. */
    function Encode(): Png
      reads this
    {
      Png(width, height, clip, layers)
    }
  }
}
