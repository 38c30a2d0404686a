/**
 * The part of the browser's 2D canvas that `takePhoto` uses. A context keeps
 * its current font and fill style and a log of the drawing calls made since
 * the canvas was last resized; that log stands for the picture on the canvas.
 */
module Canvas {
  import opened Overlay

  /** What a context's font and fill style are reset to when its canvas is resized. */
  const DefaultFont: string := "10px sans-serif"
  const DefaultFillStyle: string := "#000000"

  /**
   * A `data:image/jpeg` URL, standing for the encoding of a canvas of this
   * size with this picture. A browser encodes a canvas with a zero side as
   * "data:,", whatever was drawn; this value keeps the drawing in that case.
   */
  datatype DataUrl = JpegOf(width: nat, height: nat, drawing: seq<Cmd>)

  class Context2D {
    /** The text metrics of the platform: `metrics(font, text)` is the width `measureText` reports. */
    const metrics: (string, string) -> real
    var font: string
    var fillStyle: string
    var commands: seq<Cmd>

    constructor (metrics: (string, string) -> real)
      ensures this.metrics == metrics && font == DefaultFont && fillStyle == DefaultFillStyle && commands == []
    {
      this.metrics := metrics;
      font, fillStyle, commands := DefaultFont, DefaultFillStyle, [];
    }

    method SetFont(f: string)
      modifies this
      ensures font == f && fillStyle == old(fillStyle) && commands == old(commands)
    {
      font := f;
    }

    method SetFillStyle(style: string)
      modifies this
      ensures fillStyle == style && font == old(font) && commands == old(commands)
    {
      fillStyle := style;
    }

    /** Width of `text` in the current font; measuring draws nothing. */
    method MeasureText(text: string) returns (width: real)
      ensures width == metrics(font, text)
    {
      width := metrics(font, text);
    }

    /** Appends one drawing call to the log, leaving font and fill style alone. */
    method Record(c: Cmd)
      modifies this
      ensures commands == old(commands) + [c] && font == old(font) && fillStyle == old(fillStyle)
    {
      commands := commands + [c];
    }

    method BeginPath()
      modifies this
      ensures commands == old(commands) + [Cmd.BeginPath] && font == old(font) && fillStyle == old(fillStyle)
    {
      Record(Cmd.BeginPath);
    }

    method MoveTo(x: real, y: real)
      modifies this
      ensures commands == old(commands) + [Cmd.MoveTo(Point(x, y))] && font == old(font) && fillStyle == old(fillStyle)
    {
      Record(Cmd.MoveTo(Point(x, y)));
    }

    method LineTo(x: real, y: real)
      modifies this
      ensures commands == old(commands) + [Cmd.LineTo(Point(x, y))] && font == old(font) && fillStyle == old(fillStyle)
    {
      Record(Cmd.LineTo(Point(x, y)));
    }

    method QuadraticCurveTo(cpx: real, cpy: real, x: real, y: real)
      modifies this
      ensures commands == old(commands) + [Cmd.QuadraticCurveTo(Point(cpx, cpy), Point(x, y))]
      ensures font == old(font) && fillStyle == old(fillStyle)
    {
      Record(Cmd.QuadraticCurveTo(Point(cpx, cpy), Point(x, y)));
    }

    method ClosePath()
      modifies this
      ensures commands == old(commands) + [Cmd.ClosePath] && font == old(font) && fillStyle == old(fillStyle)
    {
      Record(Cmd.ClosePath);
    }

    /** Fills the current path with the current fill style. */
    method Fill()
      modifies this
      ensures commands == old(commands) + [Cmd.Fill(fillStyle)] && font == old(font) && fillStyle == old(fillStyle)
    {
      Record(Cmd.Fill(fillStyle));
    }

    /** Draws `text` with its baseline starting at (x, y), in the current font and fill style. */
    method FillText(text: string, x: real, y: real)
      modifies this
      ensures commands == old(commands) + [Cmd.FillText(text, Point(x, y), font, fillStyle)]
      ensures font == old(font) && fillStyle == old(fillStyle)
    {
      Record(Cmd.FillText(text, Point(x, y), font, fillStyle));
    }

    /** Draws the current video frame scaled into the given rectangle. */
    method DrawVideoFrame(dx: real, dy: real, dw: real, dh: real)
      modifies this
      ensures commands == old(commands) + [Cmd.DrawVideoFrame(dx, dy, dw, dh)]
      ensures font == old(font) && fillStyle == old(fillStyle)
    {
      Record(Cmd.DrawVideoFrame(dx, dy, dw, dh));
    }
  }

  /**
   * A canvas element. `getContext("2d")` either always fails (null) or always
   * returns the same context; assigning its width or height clears the picture
   * and resets the context's state.
   */
  class CanvasElement {
    var width: nat
    var height: nat
    const context: Context2D?

    constructor (context: Context2D?)
      ensures this.context == context && width == 300 && height == 150
    {
      this.context := context;
      width, height := 300, 150;
    }

    /** The objects a caller that resizes or draws on this canvas may change. */
    ghost function Footprint(): set<object> {
      if context == null then {this} else {this, context}
    }

    method SetWidth(w: nat)
      modifies Footprint()
      ensures width == w && height == old(height)
      ensures context != null ==>
        context.commands == [] && context.font == DefaultFont && context.fillStyle == DefaultFillStyle
    {
      width := w;
      if context != null {
        context.commands, context.font, context.fillStyle := [], DefaultFont, DefaultFillStyle;
      }
    }

    method SetHeight(h: nat)
      modifies Footprint()
      ensures height == h && width == old(width)
      ensures context != null ==>
        context.commands == [] && context.font == DefaultFont && context.fillStyle == DefaultFillStyle
    {
      height := h;
      if context != null {
        context.commands, context.font, context.fillStyle := [], DefaultFont, DefaultFillStyle;
      }
    }

    /** `toDataURL("image/jpeg")`: the canvas's current size and picture, encoded. */
    method ToDataURL() returns (url: DataUrl)
      ensures url == JpegOf(width, height, if context == null then [] else context.commands)
    {
      url := JpegOf(width, height, if context == null then [] else context.commands);
    }
  }
}
