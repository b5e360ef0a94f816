/**
 * The 2-D drawing surface, recorded as the sequence of commands issued to it.
 * Pixels, fonts and floating-point positions are not modelled: the full-canvas
 * rectangle, the horizontal centre `canvas.width / 2` and the two alpha levels
 * the client uses appear as symbolic terms.
 */
module Canvas2D {

  /** The two `globalAlpha` values the client sets: 0.6 and 1.0. */
  datatype Alpha = Dimmed | Opaque

  /** A text anchor: a pixel column, or the centre of the canvas. */
  datatype TextX = AtX(x: int) | CanvasCenter

  datatype Rect = Rect(x: int, y: int, w: int, h: int)

  datatype DrawCmd =
    | ClearCanvas                                     // clearRect over the whole canvas
    | DrawImage(src: string, x: int, y: int)          // drawImage(image, x, y)
    | DrawImageRect(src: string, source: Rect, dest: Rect)
    | SetGlobalAlpha(alpha: Alpha)
    | SetFillStyle(color: string)
    | FillCanvas                                      // fillRect over the whole canvas
    | SetFont(font: string)
    | SetTextAlign(align: string)
    | FillText(text: string, anchor: TextX, baseline: int, fitsCanvasWidth: bool)

  /**
   * A canvas element. `hasContext` is false when the element or its 2-D
   * context cannot be obtained, the case in which the client's context
   * lookup yields `null`.
   */
  class Canvas {
    const hasContext: bool
    var trace: seq<DrawCmd>

    constructor (hasContext: bool)
      ensures this.hasContext == hasContext && trace == []
    {
      this.hasContext := hasContext;
      trace := [];
    }

    /** Issues `cmds` in order. */
    method Issue(cmds: seq<DrawCmd>)
      modifies this
      ensures trace == old(trace) + cmds
    {
      trace := trace + cmds;
    }
  }
}
