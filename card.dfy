/** The width of the lyric card, sized to the rendered width of the active line.

    The component measures text on a 2D canvas context with a fixed font. The
    canvas call is foreign: it is modelled as a measuring function that the
    context carries, and the context itself may be missing. */
module CardSizer {

  const PaddingPx: int := 22
  const BufferPx: int := 20
  /** The width used when no canvas context could be obtained. */
  const FallbackWidth: int := 600
  /** The font set on the context before every measurement. */
  const Font: string := "oblique 700 36px Helvetica, Inter, sans-serif"

  /** The 2D context of the component's private canvas, if the browser gave one.
      `measure(font, text)` is the width in pixels that `measureText` reports. */
  datatype Canvas = NoContext | Context(measure: (string, string) -> real)

  /** `Math.ceil`: the least integer not below `x`. */
  function Ceil(x: real): (c: int)
    ensures x <= c as real < x + 1.0
  {
    -((-x).Floor)
  }

  /** The card width for `text`. */
  function MeasureTextWidth(canvas: Canvas, text: string): (w: int)
    ensures canvas.NoContext? ==> w == FallbackWidth
    ensures canvas.Context? ==>
              var m := canvas.measure(Font, text);
              m + (PaddingPx + BufferPx) as real <= w as real < m + (PaddingPx + BufferPx + 1) as real
  {
    match canvas
    case NoContext => FallbackWidth
    case Context(measure) => Ceil(measure(Font, text) + PaddingPx as real + BufferPx as real)
  }

  /** With a context, the width is the least whole number of pixels that fits the
      measured text plus padding and buffer; any other width that fits is larger. */
  lemma WidthIsLeastFit(canvas: Canvas, text: string, c: int)
    requires canvas.Context?
    requires c as real >= canvas.measure(Font, text) + (PaddingPx + BufferPx) as real
    ensures MeasureTextWidth(canvas, text) <= c
  {
  }

  /** A measurement is never negative, so a measured card is at least padding plus buffer wide. */
  lemma WidthCoversPadding(canvas: Canvas, text: string)
    requires canvas.Context? && canvas.measure(Font, text) >= 0.0
    ensures MeasureTextWidth(canvas, text) >= PaddingPx + BufferPx
  {
  }
}
