/**
 * The watermark that `takePhoto` paints over a captured frame: the canvas
 * calls it makes, recorded as a sequence of commands, and the layout of its
 * two rounded-rectangle labels (a timestamp at the top left, the app name
 * "BadalaCam" at the bottom left).
 */
module Overlay {

  datatype Point = Point(x: real, y: real)

  /** One call on a 2D canvas context, with the style in force when it was made. */
  datatype Cmd =
    | DrawVideoFrame(dx: real, dy: real, dw: real, dh: real)
    | BeginPath
    | MoveTo(to: Point)
    | LineTo(to: Point)
    | QuadraticCurveTo(cp: Point, to: Point)
    | ClosePath
    | Fill(style: string)
    | Stroke(style: string)
    | FillText(text: string, at: Point, font: string, style: string)

  datatype Rect = Rect(x: real, y: real, width: real, height: real)

  /** A label: its rounded background box and where its text baseline starts. */
  datatype Label = Label(box: Rect, radius: real, text: string, textAt: Point)

  const AppName: string := "BadalaCam"
  const TimestampFont: string := "bold 32px Arial"
  const AppNameFont: string := "bold 24px Arial"
  const Background: string := "black"
  const Foreground: string := "white"

  /** Horizontal inset of both labels from the left edge of the canvas. */
  const LabelLeft: real := 5.0
  /** Top of the timestamp box. */
  const TimestampTop: real := 5.0
  const PaddingX: real := 20.0
  const Radius: real := 8.0
  const TimestampBoxHeight: real := 40.0
  const TimestampBaseline: real := 35.0
  const AppNameHeight: real := 35.0
  const BottomPadding: real := 20.0
  /** Distance from the top of the app-name box to its text baseline. */
  const AppNameBaselineOffset: real := 25.0

  predicate InRect(p: Point, x: real, y: real, width: real, height: real) {
    x <= p.x <= x + width && y <= p.y <= y + height
  }

  /** Every point a command mentions lies inside the rectangle. */
  predicate CmdInRect(c: Cmd, x: real, y: real, width: real, height: real) {
    match c
    case MoveTo(p) => InRect(p, x, y, width, height)
    case LineTo(p) => InRect(p, x, y, width, height)
    case QuadraticCurveTo(cp, p) => InRect(cp, x, y, width, height) && InRect(p, x, y, width, height)
    case _ => true
  }

  /**
   * The path `drawRoundedRect` traces and fills: a move to the top edge
   * inset by the radius, then four straight edges each followed by a corner
   * curve whose control point is the rectangle's own corner, then close and fill.
   */
  function RoundedRectPath(x: real, y: real, width: real, height: real, radius: real, style: string): (p: seq<Cmd>)
    ensures |p| == 12
    ensures p[0] == BeginPath && p[1] == MoveTo(Point(x + radius, y))
    ensures p[10] == ClosePath && p[11] == Fill(style)
    ensures p[2].LineTo? && p[4].LineTo? && p[6].LineTo? && p[8].LineTo?
    ensures p[3].QuadraticCurveTo? && p[5].QuadraticCurveTo? && p[7].QuadraticCurveTo? && p[9].QuadraticCurveTo?
    // the curves' control points are the four corners, clockwise from the top right
    ensures p[3].cp == Point(x + width, y) && p[5].cp == Point(x + width, y + height)
    ensures p[7].cp == Point(x, y + height) && p[9].cp == Point(x, y)
    // the last curve ends where the path began: the outline is closed
    ensures p[9].to == p[1].to
    // each straight edge is axis-parallel: it keeps the coordinate the previous segment ended on
    ensures p[2].to.y == p[1].to.y && p[4].to.x == p[3].to.x
    ensures p[6].to.y == p[5].to.y && p[8].to.x == p[7].to.x
    ensures forall c :: c in p ==> !c.Stroke?
    ensures 0.0 <= radius && 2.0 * radius <= width && 2.0 * radius <= height ==>
              forall c :: c in p ==> CmdInRect(c, x, y, width, height)
  {
    [ BeginPath,
      MoveTo(Point(x + radius, y)),
      LineTo(Point(x + width - radius, y)),
      QuadraticCurveTo(Point(x + width, y), Point(x + width, y + radius)),
      LineTo(Point(x + width, y + height - radius)),
      QuadraticCurveTo(Point(x + width, y + height), Point(x + width - radius, y + height)),
      LineTo(Point(x + radius, y + height)),
      QuadraticCurveTo(Point(x, y + height), Point(x, y + height - radius)),
      LineTo(Point(x, y + radius)),
      QuadraticCurveTo(Point(x, y), Point(x + radius, y)),
      ClosePath,
      Fill(style) ]
  }

  /** The timestamp label: a box at (5, 5), 40 high, the text inset by the horizontal padding. */
  function TimestampLabel(timestamp: string, textWidth: real): (l: Label)
    ensures l.box.x == LabelLeft && l.box.y == TimestampTop
    ensures l.box.height == TimestampBoxHeight && l.radius == Radius && l.text == timestamp
    // the text is inset by the padding on the left and leaves the same padding on the right
    ensures l.textAt.x == l.box.x + PaddingX && l.textAt.x + textWidth + PaddingX == l.box.x + l.box.width
    // the baseline lies inside the box
    ensures l.box.y < l.textAt.y < l.box.y + l.box.height
    ensures 0.0 <= textWidth ==> 2.0 * l.radius <= l.box.width && 2.0 * l.radius <= l.box.height
  {
    Label(Rect(LabelLeft, TimestampTop, textWidth + PaddingX * 2.0, TimestampBoxHeight), Radius,
          timestamp, Point(LabelLeft + PaddingX, TimestampBaseline))
  }

  /** The app-name label, anchored so that its box ends the bottom padding above the canvas bottom. */
  function AppNameLabel(canvasHeight: real, appNameWidth: real): (l: Label)
    ensures l.box.x == LabelLeft && l.box.height == AppNameHeight && l.radius == Radius && l.text == AppName
    ensures l.box.y + l.box.height + BottomPadding == canvasHeight
    ensures l.textAt.x == l.box.x + PaddingX && l.textAt.x + appNameWidth + PaddingX == l.box.x + l.box.width
    ensures l.box.y < l.textAt.y < l.box.y + l.box.height
    ensures 0.0 <= appNameWidth ==> 2.0 * l.radius <= l.box.width && 2.0 * l.radius <= l.box.height
  {
    var bottomY := canvasHeight - AppNameHeight - BottomPadding;
    Label(Rect(LabelLeft, bottomY, appNameWidth + PaddingX * 2.0, AppNameHeight), Radius,
          AppName, Point(LabelLeft + PaddingX, bottomY + AppNameBaselineOffset))
  }

  /** Two boxes share interior points. */
  predicate Overlap(a: Rect, b: Rect) {
    a.x < b.x + b.width && b.x < a.x + a.width && a.y < b.y + b.height && b.y < a.y + a.height
  }

  /**
   * The two labels are drawn independently, so nothing keeps them apart:
   * with non-negative text widths their boxes overlap exactly when the canvas is
   * more than 25 and less than 100 units high.
   */
  lemma LabelsOverlapIff(timestamp: string, textWidth: real, appNameWidth: real, canvasHeight: real)
    requires 0.0 <= textWidth && 0.0 <= appNameWidth
    ensures Overlap(TimestampLabel(timestamp, textWidth).box, AppNameLabel(canvasHeight, appNameWidth).box)
            <==> 25.0 < canvasHeight < 100.0
  {
  }

  /** The commands that paint one label: its filled background, then its text. */
  function LabelCmds(l: Label, font: string): seq<Cmd> {
    RoundedRectPath(l.box.x, l.box.y, l.box.width, l.box.height, l.radius, Background)
      + [FillText(l.text, l.textAt, font, Foreground)]
  }

  /**
   * Everything `takePhoto` draws on a canvas sized to the video frame:
   * the frame itself, then the timestamp label, then the app-name label.
   * `metrics(font, text)` is the width `measureText` reports.
   */
  function PhotoDrawing(width: nat, height: nat, timestamp: string, metrics: (string, string) -> real): seq<Cmd> {
    [DrawVideoFrame(0.0, 0.0, width as real, height as real)]
      + LabelCmds(TimestampLabel(timestamp, metrics(TimestampFont, timestamp)), TimestampFont)
      + LabelCmds(AppNameLabel(height as real, metrics(AppNameFont, AppName)), AppNameFont)
  }

  /** Where each part of the photo's drawing sits in the command sequence, with its coordinates. */
  lemma PhotoDrawingLayout(width: nat, height: nat, timestamp: string, metrics: (string, string) -> real)
    ensures var d := PhotoDrawing(width, height, timestamp, metrics);
      var tw, aw, h := metrics(TimestampFont, timestamp), metrics(AppNameFont, AppName), height as real;
      && |d| == 27
      && d[0] == DrawVideoFrame(0.0, 0.0, width as real, h)
      && d[1..13] == RoundedRectPath(5.0, 5.0, tw + 40.0, 40.0, 8.0, "black")
      && d[13] == FillText(timestamp, Point(25.0, 35.0), "bold 32px Arial", "white")
      && d[14..26] == RoundedRectPath(5.0, h - 55.0, aw + 40.0, 35.0, 8.0, "black")
      && d[26] == FillText("BadalaCam", Point(25.0, h - 30.0), "bold 24px Arial", "white")
  {
  }

  /**
   * When the canvas is wide enough for both texts and at least 55 high, every
   * point of both label outlines lies on the canvas.
   */
  lemma PhotoDrawingOnCanvas(width: nat, height: nat, timestamp: string, metrics: (string, string) -> real)
    requires 0.0 <= metrics(TimestampFont, timestamp) && metrics(TimestampFont, timestamp) + 45.0 <= width as real
    requires 0.0 <= metrics(AppNameFont, AppName) && metrics(AppNameFont, AppName) + 45.0 <= width as real
    requires 55 <= height
    ensures forall c :: c in PhotoDrawing(width, height, timestamp, metrics) ==> CmdInRect(c, 0.0, 0.0, width as real, height as real)
  {
  }
}
