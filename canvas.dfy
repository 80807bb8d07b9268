/** The part of a 2D canvas context that index.ts relies on: the drawing
    state it sets (fill and stroke style, line width, font, text alignment
    and baseline, transform, current path) and the drawing calls it makes,
    each recorded as an abstract draw command that captures the state it
    was issued under. Pixels, glyph shapes and compositing are not modelled. */
module Canvas2D {
  import opened Wrappers

  /** "#ffffff" / "#FFFFFF" and "#000000". */
  datatype Color = White | Black

  datatype FontFamily = HankenGrotesk | SansSerif

  /** A CSS font shorthand such as "500 70px HankenGrotesk". */
  datatype FontSpec = FontSpec(weight: nat, size: int, family: FontFamily)

  datatype TextAlign = Start | Left | Center

  datatype TextBaseline = Alphabetic | Middle

  /** `translate(dx, dy)` and `rotate(angle)`, the angle kept in degrees. */
  datatype TransformOp = Translate(dx: real, dy: real) | Rotate(degrees: int)

  /** `arc(cx, cy, r, start, end)`, the angles kept in whole turns. */
  datatype PathSeg = Arc(cx: real, cy: real, radius: real, startTurns: real, endTurns: real)

  /** What a `fillText` call is drawn with. */
  datatype TextStyle = TextStyle(
    fill: Color,
    font: FontSpec,
    align: TextAlign,
    baseline: TextBaseline,
    transform: seq<TransformOp>)

  /** Intrinsic size of a decoded image; an image file cannot have a zero
      dimension. */
  type Dim = n: int | 0 < n witness 1

  datatype ImageSize = ImageSize(width: Dim, height: Dim)

  /** A decoded image: a file read from a path, or a generated QR code. */
  datatype ImageRef = FileImage(path: string) | QrCode(data: string, width: nat, height: nat)

  datatype DrawCmd =
    | FillRect(x: real, y: real, w: real, h: real, color: Color)
    | DrawImage(image: ImageRef, x: real, y: real, w: real, h: real, transform: seq<TransformOp>)
    | FillText(text: string, x: real, y: real, maxWidth: Option<real>, style: TextStyle)
    | FillPath(path: seq<PathSeg>, color: Color)
    | StrokePath(path: seq<PathSeg>, color: Color, lineWidth: real)

  /** The result of `measureText`: the advance width and the two bounding-box
      extents. */
  datatype TextMetrics = TextMetrics(width: real, ascent: real, descent: real)

  /** `measureText` as a function of the current font and the text; the glyph
      metrics come from the font files and are not modelled. */
  type Measure = (FontSpec, string) -> TextMetrics

  class Canvas {
    const width: nat
    const height: nat
    var fillStyle: Color
    var strokeStyle: Color
    var lineWidth: real
    var font: FontSpec
    var textAlign: TextAlign
    var textBaseline: TextBaseline
    var transform: seq<TransformOp>
    var path: seq<PathSeg>
    /** Every drawing call made so far, in order. */
    var ops: seq<DrawCmd>

    /** `createCanvas(width, height).getContext('2d')`, with the context's
        initial state. */
    constructor (width: nat, height: nat)
      ensures this.width == width && this.height == height
      ensures fillStyle == Black && strokeStyle == Black && lineWidth == 1.0
      ensures font == FontSpec(400, 10, SansSerif)
      ensures textAlign == Start && textBaseline == Alphabetic
      ensures transform == [] && path == [] && ops == []
    {
      this.width, this.height := width, height;
      fillStyle, strokeStyle, lineWidth := Black, Black, 1.0;
      font := FontSpec(400, 10, SansSerif);
      textAlign, textBaseline := Start, Alphabetic;
      transform, path, ops := [], [], [];
    }

    /** The state a `fillText` call draws with. */
    function TextStyleNow(): TextStyle
      reads this
    {
      TextStyle(fillStyle, font, textAlign, textBaseline, transform)
    }

    method FillRect(x: real, y: real, w: real, h: real)
      modifies this`ops
      ensures ops == old(ops) + [DrawCmd.FillRect(x, y, w, h, fillStyle)]
    {
      ops := ops + [DrawCmd.FillRect(x, y, w, h, fillStyle)];
    }

    method DrawImage(image: ImageRef, x: real, y: real, w: real, h: real)
      modifies this`ops
      ensures ops == old(ops) + [DrawCmd.DrawImage(image, x, y, w, h, transform)]
    {
      ops := ops + [DrawCmd.DrawImage(image, x, y, w, h, transform)];
    }

    method FillText(text: string, x: real, y: real, maxWidth: Option<real>)
      modifies this`ops
      ensures ops == old(ops) + [DrawCmd.FillText(text, x, y, maxWidth, TextStyleNow())]
    {
      ops := ops + [DrawCmd.FillText(text, x, y, maxWidth, TextStyleNow())];
    }

    method BeginPath()
      modifies this`path
      ensures path == []
    {
      path := [];
    }

    method Arc(cx: real, cy: real, radius: real, startTurns: real, endTurns: real)
      modifies this`path
      ensures path == old(path) + [PathSeg.Arc(cx, cy, radius, startTurns, endTurns)]
    {
      path := path + [PathSeg.Arc(cx, cy, radius, startTurns, endTurns)];
    }

    method Fill()
      modifies this`ops
      ensures ops == old(ops) + [FillPath(path, fillStyle)]
    {
      ops := ops + [FillPath(path, fillStyle)];
    }

    method Stroke()
      modifies this`ops
      ensures ops == old(ops) + [StrokePath(path, strokeStyle, lineWidth)]
    {
      ops := ops + [StrokePath(path, strokeStyle, lineWidth)];
    }

    method Translate(dx: real, dy: real)
      modifies this`transform
      ensures transform == old(transform) + [TransformOp.Translate(dx, dy)]
    {
      transform := transform + [TransformOp.Translate(dx, dy)];
    }

    method Rotate(degrees: int)
      modifies this`transform
      ensures transform == old(transform) + [TransformOp.Rotate(degrees)]
    {
      transform := transform + [TransformOp.Rotate(degrees)];
    }
  }
}
