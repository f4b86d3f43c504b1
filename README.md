# Open Graph card composer: a Dafny model

`php-gd/api/index.php` draws a 1200×630 Open Graph card with GD. It paints a
vertical gradient and three translucent circles, then a white card with a
stepped drop shadow and a border. On the card it writes an upper-cased title, a
subtitle, a divider, three badges (PHP version, GD version, "Vercel Runtime"),
an info line and a footer on a translucent plate. Last come L-shaped accent
marks at two corners of the card.

Every coordinate is an integer expression over a few constants and GD's font
metrics. This project models that arithmetic. It does not model pixels: a
canvas is the append-only list of drawing calls made on it, and the properties
are stated about that list.

- `bytes.dfy` (module `Bytes`): PHP strings as byte sequences. `strlen` is the
  sequence length, and `strtoupper` is ASCII-only upper-casing.
- `gd.dfy` (module `Gd`): colours, glyph sizes of fonts 2, 3 and 5 (GD's own are
  6×13, 7×13 and 9×15), rectangles as two inclusive corners, and one record per
  primitive: fill, `imageline`, `imagefilledrectangle`, `imagerectangle`,
  `imagefilledellipse` and `imagestring`.
- `layout.dfy` (module `Layout`): the card rectangle, the centring formula with
  PHP's half-pixel values, the gradient colour, and the vertical rows.
- `og_card.dfy` (module `OgCard`): the script's drawing calls as pure functions,
  section by section, and `Script`, the whole ordered log. Also the lemmas about
  the log.
- `drawing.dfy` (module `Drawing`): class `Canvas`, whose `log` field the drawing
  methods extend. It has one method per step of the script, with the gradient,
  shadow and corner-mark loops written as loops. Each method is proved to append
  exactly the section that `OgCard` specifies. `ComposeCard` creates the canvas,
  applies the query defaults and draws everything.

Modelling decisions:

- **Half pixels.** PHP's `/` yields `n.5` when `(container - text)` is odd. GD's
  integer parameters truncate that toward zero. A coordinate that may carry a
  half is held as twice its value, and `TruncHalf` does the truncation. So
  `$titleX + 2`, `$footerX - 15` and similar values are exact for negative
  values too. When the text fits and the start is non-negative, the result is
  proved equal to the floor.
- **Gradient.** The colour is the integer formula `240 + 15*y/height` (floor)
  in place of PHP's float `(int)(240 + y/height*15)`. The two agree on every
  canvas of realistic height, 630 included (see "Floating point" below).
- **Gradient range.** The comments on lines 60-61 give the channel ranges as
  240-255 and 245-255. The code never reaches 255: `Layout.GradientRange`
  shows that the bottom scanline is (254, 254, 255).
- **Info line bytes.** Line 168 of the file stores the bullet of the info line
  as the seven bytes `C3 A2 E2 82 AC C2 A2`: a UTF-8 bullet encoded twice. The
  model uses those bytes, so `strlen` of the info line is 48.
- **Defaults and corners.** A missing `title` query parameter becomes
  'PHP GD' and a missing `subtitle` becomes 'Image Generation with
  Intervention/Image' (lines 37-38). Corner marks are drawn at two corners of
  the card only, the top-left and the bottom-right (lines 186-201).
- **Inputs.** `PHP_VERSION`, `gd_info()['GD Version']` and the font metrics are
  inputs (`OgCard.Env`).

## Model

| member | source | states |
|---|---|---|
| `Bytes.ToUpper` | php-gd/api/index.php:108 | Upper-casing keeps the length, maps each a-z byte to the byte 32 below it, leaves every other byte unchanged, and leaves no lower-case letter behind |
| `Bytes.ToUpperIdempotent` | php-gd/api/index.php:108 | Upper-casing an upper-cased title changes nothing |
| `Bytes.ToUpperFixedPoints` | php-gd/api/index.php:108 | A string is its own upper-casing exactly when it has no lower-case letter |
| `Layout.TruncHalf` | php-gd/api/index.php:110-117 | The integer GD receives for a value that may end in .5 is that value truncated toward zero: at most half a pixel below it when non-negative, at most half above it when negative |
| `Layout.CentredAt` | php-gd/api/index.php:110 | The centring used for title (110), subtitle (124), info (170) and footer (178). A text that fits lies inside its container and its two margins differ by at most 1. From a non-negative start the result is the floor, with the spare pixel on the right. An over-long text sticks out on both sides |
| `Layout.GradientColour` | php-gd/api/index.php:58-62 | Scanline y of a canvas of height h gets r in [240,254], g in [245,254], b = 255, opaque |
| `Layout.GradientMonotone` | php-gd/api/index.php:58-62 | Going down the canvas, red and green never decrease |
| `Layout.GradientRange` | php-gd/api/index.php:59-61 | On a canvas at least 15 rows tall the top scanline is (240,245,255) and the bottom one (254,254,255) |
| `Layout.VerticalLayout` | php-gd/api/index.php:106-174 | Rows strictly increase: title, subtitle, divider and the row below it, badges, badge bottom, info text. The badge height is font-2 height + 12 and the footer row is height − 50. When the glyphs are small enough, no two text rows touch and the info line ends above the card's bottom |
| `OgCard.GradientLines` | php-gd/api/index.php:58-65 | After n scanlines there are exactly n lines, and line y runs from (0,y) to (width,y) in row y's colour |
| `OgCard.ShadowRects` | php-gd/api/index.php:88-90 | Shadow rectangle i is the card rectangle moved by (i,i), in the translucent black |
| `OgCard.TitleDraws` | php-gd/api/index.php:105-117 | Three passes, all in font 5 with the upper-cased title: a grey shadow at (+2,+2), the title, and a bold pass at (+1,0). The width measured is font-5 width × strlen of the title as given, and a title that fits is drawn inside the card, centred: its left and right margins differ by at most one pixel |
| `OgCard.SubtitleDraw` | php-gd/api/index.php:119-125 | One font-3 call with the subtitle unchanged, on the subtitle row. When it fits it is inside the card, centred, with margins differing by at most one pixel |
| `OgCard.DividerDraws` | php-gd/api/index.php:127-132 | Two horizontal lines on adjacent rows, lineY and lineY+1, with the same span, 150 pixels in from both card edges |
| `OgCard.BadgeDraws` | php-gd/api/index.php:134-164 | PHP, GD, then Vercel badge, with their own colours, all on the badge row. Each is font-2 width × len + 20 wide and font-2 height + 12 tall, with the white label inset 10 left and right and 6 top and bottom. The first starts at cardX+80 and each next one 15 after the previous right edge, so none overlaps |
| `OgCard.InfoDraw` | php-gd/api/index.php:166-171 | One font-2 call with the info text on the info row. When it fits it is inside the card, centred, with margins differing by at most one pixel |
| `OgCard.FooterDraws` | php-gd/api/index.php:173-184 | The plate is drawn first and encloses the footer text: 5 pixels above and below, and 15 left and right (14 at worst where the centred position crosses zero). The margins are exactly 15 and the text lies within the canvas when it is 30 pixels narrower than the canvas. A footer that fits is centred on the canvas, with margins differing by at most one pixel |
| `OgCard.TopLeftMarks` | php-gd/api/index.php:191-195 | Pass i adds a 40-pixel horizontal stroke on row cardY+i and a 40-pixel vertical one on column cardX+i; n passes make 2n lines |
| `OgCard.BottomRightMarks` | php-gd/api/index.php:197-201 | Pass i adds a 40-pixel horizontal stroke on row cardY+cardHeight−i and a vertical one on column cardX+cardWidth−i; n passes make 2n lines |
| `OgCard.CornerMarksInsideCard` | php-gd/api/index.php:186-201 | The corner marks are 16 lines: the first 8 at the top-left corner, the last 8 at the bottom-right. In each corner the even calls are the 4 horizontal strokes and the odd calls the 4 vertical ones, anchored on the card's left or top edge (top-left) and its right or bottom edge (bottom-right). On a card at least 40×40, each is a 40-pixel axis-aligned stroke in the accent colour lying on the card |
| `OgCard.Script` | php-gd/api/index.php:46-201 | The whole log of one card has exactly height + 48 drawing calls |
| `OgCard.ScriptGradient` | php-gd/api/index.php:49-65 | The log opens with the background fill, then one full-width line per scanline y, top to bottom |
| `OgCard.ScriptCardFrame` | php-gd/api/index.php:76-96 | The card is [100, width−100] × [80, 550]. It is drawn white, then ten shadow rectangles moved by (i,i), then white again: the last filled rectangle before the border. Then comes the border on the same outline |
| `OgCard.ScriptColoursValid` | php-gd/api/index.php:58-187 | Every colour passed to GD has channels in 0..255 and alpha in 0..127 |
| `OgCard.ScriptEndsWithCornerMarks` | php-gd/api/index.php:186-201 | The last 16 calls are the corner strokes, each on the card, whenever the card is at least 40 wide |
| `OgCard.ScriptSections` | php-gd/api/index.php:46-201 | The log is the sections in the script's order: background, circles, card, title, subtitle, divider, badges, info line, footer, corner marks |
| `OgCard.OgFooterAndInfoPlacement` | php-gd/api/index.php:166-184 | At 1200×630 with GD's fonts, the 48-byte info line fits and lies on the card. The footer plate has its full 15-pixel margins and lies below the card and all its shadow, inside the canvas both horizontally and vertically |
| `Drawing.Canvas.constructor` | php-gd/api/index.php:46 | A new canvas has the requested size and an empty log |
| `Drawing.Canvas.PaintBackground` | php-gd/api/index.php:48-65 | The fill, then the `for $y` loop adding exactly the gradient lines |
| `Drawing.Canvas.DrawBlobs` | php-gd/api/index.php:67-74 | Appends the three circles |
| `Drawing.Canvas.DrawCard` | php-gd/api/index.php:76-96 | The card, the `for $i` shadow loop, the card again and the border: appends exactly the card section |
| `Drawing.Canvas.DrawTitle` | php-gd/api/index.php:105-117 | Appends exactly the three title passes |
| `Drawing.Canvas.DrawSubtitle` | php-gd/api/index.php:119-125 | Appends exactly the subtitle call |
| `Drawing.Canvas.DrawDivider` | php-gd/api/index.php:127-132 | Appends exactly the two divider lines |
| `Drawing.Canvas.DrawBadges` | php-gd/api/index.php:134-164 | Appends exactly the three badges with their labels |
| `Drawing.Canvas.DrawInfo` | php-gd/api/index.php:166-171 | Appends exactly the info line |
| `Drawing.Canvas.DrawFooter` | php-gd/api/index.php:173-184 | Appends exactly the footer plate and footer text |
| `Drawing.Canvas.DrawCornerMarks` | php-gd/api/index.php:186-201 | The two `for $i` loops append exactly the top-left then the bottom-right marks |
| `Drawing.Canvas.DrawAll` | php-gd/api/index.php:46-201 | Appends exactly `Script`, the whole card, to the log |
| `Drawing.ComposeCard` | php-gd/api/index.php:33-201 | A fresh 1200×630 canvas whose log is the whole card, for the query's title and subtitle or the defaults when they are missing |

## Left out

- HTTP and environment: the `extension_loaded('gd')` check and its JSON error (lines 21-29), the response headers and PNG output (203-213), and the `catch` that turns an exception into a JSON error (215-222). They are I/O, and GD failures are foreign.
- Query parsing: `$_GET` is an optional string per parameter. A non-string value (an array) is not modelled; it would make `strtoupper` or `strlen` throw a `TypeError`.
- GD and Intervention/Image internals: pixel rasterisation, clipping, alpha compositing of the translucent fills, glyph rendering, `ImageManager` create/read, `toPng`. These are foreign library calls, recorded only as opaque commands.
- Colour allocation: `imagecolorallocate(alpha)` is modelled as the colour value itself. On a true-colour canvas, allocation draws nothing and does not fail. `$accentColor` (line 102) is allocated and never used, so it leaves no trace in the log.
- Floating point: `Layout.GradientColour` uses the exact floor of `15*y/height` (and `10*y/height`) instead of IEEE double arithmetic. At an exact multiple, `y/height` is the correctly rounded double of k/15 (or k/10). Multiplying back by 15 (or 10) gives exactly k for every k the gradient reaches, and adding 240 or 245 is exact. Elsewhere the double's error is about 10⁻¹⁴. The distance to the next integer is at least 1/height, so no value can round across an integer below about 10¹³ rows. The float and integer formulas therefore agree. The model does not prove this, since doubles are not modelled.
- Diagnostics: from PHP 8.1 on, each half-pixel x coordinate passed to `imagestring` also raises an `E_DEPRECATED` notice about a lossy float-to-int conversion. At 1200×630 this happens for a title or subtitle of odd length (lines 114, 115, 117 and 125). If notices are displayed, that output precedes the PNG, and the `header()` calls of lines 208-209 then fail, unless output buffering holds the notice back. The model records only the truncated coordinate. Error reporting and response output are not modelled.
- Integer width: PHP integers are 64-bit; the model's are unbounded. The coordinates are far from overflow.
- `OgCard.TitleDraws`: the shadow (+2) and bold (+1) x offsets are stated only for a title that fits the card. For an over-long title the exact truncated positions are still modelled (`CentredAt`), but an offset can then differ from +2 or +1 by one pixel.
- `OgCard.FooterDraws`: in general the horizontal margins are stated as 14 or 15, and exactly 15 only when the footer is at least 30 pixels narrower than the canvas. This is what truncation toward zero gives.
- `php-gd/api/gd.php` and the Laravel route, router and store files: fixed primitive calls and framework tables, not part of this model.
