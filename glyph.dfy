// `Glyph` (include/vkdl/graphics/glyph.h): the metrics of one rendered
// character and where its bitmap sits in the font's atlas.
module Glyph {
  import Rect

  /** `rect`, the float instance of `Rect`, with exact reals. */
  datatype FloatRect = FloatRect(left: real, top: real, width: real, height: real)

  datatype Glyph = Glyph(
    advance: real,
    lsbDelta: int,
    rsbDelta: int,
    bounds: FloatRect,
    textureRect: Rect.Rect)

  /** A value-initialised `Glyph`, as the font cache stores for a character
      it has nothing for. */
  const EmptyGlyph: Glyph := Glyph(0.0, 0, 0, FloatRect(0.0, 0.0, 0.0, 0.0), Rect.Rect(0, 0, 0, 0))
}
