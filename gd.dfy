/** The part of the GD library the card composer talks to, as values: colours,
    the built-in bitmap fonts' glyph sizes, rectangles given by two corners, and
    one record per drawing primitive. Pixels are not modelled: a canvas is the
    list of these records in the order they were issued. */
module Gd {
  import opened Bytes

  /** A colour as `imagecolorallocate`/`imagecolorallocatealpha` receive it;
      alpha 0 is opaque and 127 fully transparent. */
  datatype Colour = Colour(r: int, g: int, b: int, alpha: int)

  function Rgb(r: int, g: int, b: int): Colour {
    Colour(r, g, b, 0)
  }

  /** Channels in 0..255 and alpha in 0..127, the ranges GD accepts. */
  predicate ValidColour(c: Colour) {
    0 <= c.r <= 255 && 0 <= c.g <= 255 && 0 <= c.b <= 255 && 0 <= c.alpha <= 127
  }

  /** The glyph cell of a fixed-width bitmap font: `imagefontwidth` and `imagefontheight`. */
  datatype Glyph = Glyph(width: nat, height: nat)

  /** The three built-in fonts the card uses: 2 (small), 3 (medium) and 5 (giant). */
  datatype Fonts = Fonts(small: Glyph, medium: Glyph, giant: Glyph)

  const SMALL_FONT: int := 2
  const MEDIUM_FONT: int := 3
  const GIANT_FONT: int := 5

  /** GD's own metrics for fonts 2, 3 and 5. */
  const GD_FONTS: Fonts := Fonts(Glyph(6, 13), Glyph(7, 13), Glyph(9, 15))

  /** The pixel width of a string drawn in a font: glyph width times `strlen`. */
  function TextWidth(glyph: Glyph, s: Bytes): nat {
    glyph.width * |s|
  }

  /** A rectangle as GD's rectangle primitives take it: two corners, both inclusive. */
  datatype Box = Box(x1: int, y1: int, x2: int, y2: int)

  /** The box moved right and down by d pixels. */
  function Shift(b: Box, d: int): Box {
    Box(b.x1 + d, b.y1 + d, b.x2 + d, b.y2 + d)
  }

  /** One drawing call on the canvas. */
  datatype Command =
    | Fill(colour: Colour)                                              // fill of the whole canvas
    | Line(x1: int, y1: int, x2: int, y2: int, colour: Colour)          // imageline
    | FilledRect(box: Box, colour: Colour)                              // imagefilledrectangle
    | Rect(box: Box, colour: Colour)                                    // imagerectangle
    | FilledEllipse(cx: int, cy: int, w: int, h: int, colour: Colour)   // imagefilledellipse
    | Text(font: int, x: int, y: int, text: Bytes, colour: Colour)      // imagestring
}
