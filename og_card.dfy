/** The Open Graph card as the list of drawing calls the script issues, in
    order, and what that list guarantees: the gradient, the card and its
    shadow, the centred texts, the badges, the footer plate and the corner
    marks. */
module OgCard {
  import opened Bytes
  import opened Gd
  import opened Layout

  datatype Option<T> = None | Some(value: T)

  /** What the script reads from its surroundings: `PHP_VERSION`, the
      'GD Version' entry of `gd_info()`, and the metrics of GD's fonts. */
  datatype Env = Env(phpVersion: Bytes, gdVersion: Bytes, fonts: Fonts)

  /** The values used when the query string has no `title` or `subtitle`. */
  const DEFAULT_TITLE: Bytes := Ascii("PHP GD")
  const DEFAULT_SUBTITLE: Bytes := Ascii("Image Generation with Intervention/Image")

  const VERCEL_LABEL: Bytes := Ascii("Vercel Runtime")

  /** The info line. Its bullet is stored as the seven bytes C3 A2 E2 82 AC C2 A2
      (a UTF-8 bullet encoded twice), and `strlen` counts all seven. */
  const INFO_TEXT: Bytes :=
    Ascii("Intervention/Image v3 ") + [0xC3, 0xA2, 0xE2, 0x82, 0xAC, 0xC2, 0xA2] + Ascii(" PHP 8.5 Compatible")

  const FOOTER_TEXT: Bytes := Ascii("Generated with PHP GD + Intervention/Image")

  // The colours the script allocates.
  const BACKGROUND: Colour := Rgb(0xf0, 0xf5, 0xff)
  const LIGHT_BLUE: Colour := Colour(100, 150, 255, 30)
  const LIGHT_PURPLE: Colour := Colour(200, 150, 255, 25)
  const CARD_BG: Colour := Rgb(255, 255, 255)
  const SHADOW: Colour := Colour(0, 0, 0, 50)
  const BORDER: Colour := Rgb(220, 220, 230)
  const TITLE_COLOUR: Colour := Rgb(20, 30, 50)
  const TITLE_SHADOW: Colour := Rgb(200, 200, 200)
  const SUBTITLE_COLOUR: Colour := Rgb(80, 100, 140)
  const TEXT_COLOUR: Colour := Rgb(100, 120, 150)
  const WHITE: Colour := Rgb(255, 255, 255)
  const DIVIDER_DARK: Colour := Rgb(230, 235, 240)
  const DIVIDER_LIGHT: Colour := Rgb(240, 245, 250)
  const PHP_BADGE: Colour := Rgb(50, 150, 100)
  const GD_BADGE: Colour := Rgb(150, 80, 200)
  const VERCEL_BADGE: Colour := Rgb(0, 0, 0)
  const FOOTER_BG: Colour := Colour(255, 255, 255, 28)
  const CORNER: Colour := Rgb(100, 150, 255)

  // ---------------------------------------------------------------------------
  // Background

  /** The first n scanlines of the gradient: line y spans the canvas from (0, y) to (width, y). */
  function GradientLines(width: int, height: int, n: nat): (lines: seq<Command>)
    requires n <= height
    ensures |lines| == n
    ensures forall y :: 0 <= y < n ==> lines[y] == Line(0, y, width, y, GradientColour(y, height))
  {
    if n == 0 then []
    else GradientLines(width, height, n - 1) + [Line(0, n - 1, width, n - 1, GradientColour(n - 1, height))]
  }

  function Backdrop(width: int, height: nat): seq<Command> {
    [Fill(BACKGROUND)] + GradientLines(width, height, height)
  }

  /** The three translucent circles behind the card. */
  function Blobs(): seq<Command> {
    [FilledEllipse(1000, 150, 400, 400, LIGHT_BLUE),
     FilledEllipse(200, 500, 350, 350, LIGHT_PURPLE),
     FilledEllipse(1100, 450, 200, 200, LIGHT_BLUE)]
  }

  // ---------------------------------------------------------------------------
  // Card

  /** The first n shadow rectangles: rectangle i is the card moved by (i, i). */
  function ShadowRects(width: int, n: nat): (rects: seq<Command>)
    ensures |rects| == n
    ensures forall i :: 0 <= i < n ==> rects[i] == FilledRect(Shift(CardBox(width), i), SHADOW)
  {
    if n == 0 then []
    else ShadowRects(width, n - 1) + [FilledRect(Shift(CardBox(width), n - 1), SHADOW)]
  }

  /** The white card, its shadow, the card again on top, and its border. */
  function CardFrame(width: int): seq<Command> {
    var card := CardBox(width);
    [FilledRect(card, CARD_BG)] + ShadowRects(width, SHADOW_STEPS) + [FilledRect(card, CARD_BG), Rect(card, BORDER)]
  }

  // ---------------------------------------------------------------------------
  // Texts

  /** The title, upper-cased and centred on the card, drawn three times: a grey
      shadow two pixels down and right, the title itself, and a second pass one
      pixel to the right for a bold look. */
  function TitleDraws(width: int, height: int, title: Bytes, fonts: Fonts): (ds: seq<Command>)
    ensures |ds| == 3
    ensures forall i :: 0 <= i < 3 ==> ds[i].Text? && ds[i].font == GIANT_FONT && ds[i].text == ToUpper(title)
    ensures ds[1].y == VerticalLayout(height, fonts).titleY
    ensures ds[0].y == ds[1].y + 2 && ds[2].y == ds[1].y
    ensures ds[0].colour == TITLE_SHADOW && ds[1].colour == TITLE_COLOUR && ds[2].colour == TITLE_COLOUR
    // the measured width is that of the title as given, and a title that fits is drawn inside the
    // card, centred: its left and right margins differ by at most one pixel
    ensures TextWidth(fonts.giant, title) <= CardWidth(width) ==>
      ds[0].x == ds[1].x + 2 && ds[2].x == ds[1].x + 1 &&
      CARD_X <= ds[1].x && ds[1].x + TextWidth(fonts.giant, title) <= CARD_X + CardWidth(width) &&
      -1 <= (CARD_X + CardWidth(width) - (ds[1].x + TextWidth(fonts.giant, title))) - (ds[1].x - CARD_X) <= 1
  {
    var titleY := VerticalLayout(height, fonts).titleY;
    var titleText := ToUpper(title);
    var titleWidth := TextWidth(fonts.giant, titleText);
    var cardWidth := CardWidth(width);
    [Text(GIANT_FONT, CentredAt(CARD_X, cardWidth, titleWidth, 2), titleY + 2, titleText, TITLE_SHADOW),
     Text(GIANT_FONT, CentredAt(CARD_X, cardWidth, titleWidth, 0), titleY, titleText, TITLE_COLOUR),
     Text(GIANT_FONT, CentredAt(CARD_X, cardWidth, titleWidth, 1), titleY, titleText, TITLE_COLOUR)]
  }

  /** The subtitle, in its own case, centred on the card. */
  function SubtitleDraw(width: int, height: int, subtitle: Bytes, fonts: Fonts): (ds: seq<Command>)
    ensures |ds| == 1 && ds[0].Text? && ds[0].font == MEDIUM_FONT && ds[0].text == subtitle
    ensures ds[0].y == VerticalLayout(height, fonts).subtitleY
    // a subtitle that fits is drawn inside the card, with margins differing by at most one pixel
    ensures TextWidth(fonts.medium, subtitle) <= CardWidth(width) ==>
      CARD_X <= ds[0].x && ds[0].x + TextWidth(fonts.medium, subtitle) <= CARD_X + CardWidth(width) &&
      -1 <= (CARD_X + CardWidth(width) - (ds[0].x + TextWidth(fonts.medium, subtitle))) - (ds[0].x - CARD_X) <= 1
  {
    var subtitleY := VerticalLayout(height, fonts).subtitleY;
    var subtitleWidth := TextWidth(fonts.medium, subtitle);
    [Text(MEDIUM_FONT, CentredAt(CARD_X, CardWidth(width), subtitleWidth, 0), subtitleY, subtitle, SUBTITLE_COLOUR)]
  }

  /** The divider: two adjacent horizontal lines, inset 150 pixels from both sides of the card. */
  function DividerDraws(width: int, height: int, fonts: Fonts): (ds: seq<Command>)
    ensures |ds| == 2 && ds[0].Line? && ds[1].Line?
    ensures ds[0].y1 == ds[0].y2 == VerticalLayout(height, fonts).lineY
    ensures ds[1].y1 == ds[1].y2 == ds[0].y1 + 1
    ensures ds[0].x1 == ds[1].x1 && ds[0].x2 == ds[1].x2
    ensures ds[0].x1 - CARD_X == 150 && CARD_X + CardWidth(width) - ds[0].x2 == 150
  {
    var lineY := VerticalLayout(height, fonts).lineY;
    var lineX1 := CARD_X + 150;
    var lineX2 := CARD_X + CardWidth(width) - 150;
    [Line(lineX1, lineY, lineX2, lineY, DIVIDER_DARK),
     Line(lineX1, lineY + 1, lineX2, lineY + 1, DIVIDER_LIGHT)]
  }

  /** The labels of the three badges, left to right. */
  function BadgeLabels(env: Env): seq<Bytes> {
    [Ascii("PHP ") + env.phpVersion, Ascii("GD ") + env.gdVersion, VERCEL_LABEL]
  }

  /** A badge: a filled rectangle sized to its label, and the label in white,
      10 pixels in from the left and right edges and 6 from the top and bottom. */
  predicate Badge(rect: Command, text: Command, caption: Bytes, badgeY: int, glyph: Glyph) {
    rect.FilledRect? && text.Text? &&
    text.font == SMALL_FONT && text.text == caption && text.colour == WHITE &&
    rect.box.y1 == badgeY && rect.box.y2 - rect.box.y1 == glyph.height + 12 &&
    rect.box.x2 - rect.box.x1 == TextWidth(glyph, caption) + 20 &&
    text.x == rect.box.x1 + 10 && rect.box.x2 - (text.x + TextWidth(glyph, caption)) == 10 &&
    text.y == rect.box.y1 + 6 && rect.box.y2 - (text.y + glyph.height) == 6
  }

  /** The PHP, GD and Vercel badges in that order on one row, each starting 15
      pixels after the previous one ends, so that no two overlap. */
  function BadgeDraws(height: int, env: Env): (ds: seq<Command>)
    ensures |ds| == 6
    ensures Badge(ds[0], ds[1], BadgeLabels(env)[0], VerticalLayout(height, env.fonts).badgeY, env.fonts.small)
    ensures Badge(ds[2], ds[3], BadgeLabels(env)[1], VerticalLayout(height, env.fonts).badgeY, env.fonts.small)
    ensures Badge(ds[4], ds[5], BadgeLabels(env)[2], VerticalLayout(height, env.fonts).badgeY, env.fonts.small)
    ensures ds[0].colour == PHP_BADGE && ds[2].colour == GD_BADGE && ds[4].colour == VERCEL_BADGE
    ensures ds[0].box.x1 == CARD_X + 80
    ensures ds[2].box.x1 == ds[0].box.x2 + BADGE_SPACING && ds[4].box.x1 == ds[2].box.x2 + BADGE_SPACING
    ensures ds[0].box.x1 < ds[0].box.x2 < ds[2].box.x1 < ds[2].box.x2 < ds[4].box.x1 < ds[4].box.x2
  {
    var fonts := env.fonts;
    var rows := VerticalLayout(height, fonts);
    var badgeY, badgeHeight := rows.badgeY, rows.badgeHeight;
    var badgeX := CARD_X + 80;
    var phpVersion := Ascii("PHP ") + env.phpVersion;
    var phpWidth := TextWidth(fonts.small, phpVersion);
    var gdVersion := Ascii("GD ") + env.gdVersion;
    var gdX := badgeX + phpWidth + BADGE_SPACING + 20;
    var gdWidth := TextWidth(fonts.small, gdVersion);
    var vercelX := gdX + gdWidth + BADGE_SPACING + 20;
    var vercelWidth := TextWidth(fonts.small, VERCEL_LABEL);
    [FilledRect(Box(badgeX, badgeY, badgeX + phpWidth + 20, badgeY + badgeHeight), PHP_BADGE),
     Text(SMALL_FONT, badgeX + 10, badgeY + 6, phpVersion, WHITE),
     FilledRect(Box(gdX, badgeY, gdX + gdWidth + 20, badgeY + badgeHeight), GD_BADGE),
     Text(SMALL_FONT, gdX + 10, badgeY + 6, gdVersion, WHITE),
     FilledRect(Box(vercelX, badgeY, vercelX + vercelWidth + 20, badgeY + badgeHeight), VERCEL_BADGE),
     Text(SMALL_FONT, vercelX + 10, badgeY + 6, VERCEL_LABEL, WHITE)]
  }

  /** The info line, centred on the card below the badges. */
  function InfoDraw(width: int, height: int, fonts: Fonts): (ds: seq<Command>)
    ensures |ds| == 1 && ds[0].Text? && ds[0].font == SMALL_FONT && ds[0].text == INFO_TEXT
    ensures ds[0].y == VerticalLayout(height, fonts).infoTextY
    // an info line that fits is drawn inside the card, with margins differing by at most one pixel
    ensures TextWidth(fonts.small, INFO_TEXT) <= CardWidth(width) ==>
      CARD_X <= ds[0].x && ds[0].x + TextWidth(fonts.small, INFO_TEXT) <= CARD_X + CardWidth(width) &&
      -1 <= (CARD_X + CardWidth(width) - (ds[0].x + TextWidth(fonts.small, INFO_TEXT))) - (ds[0].x - CARD_X) <= 1
  {
    var infoTextY := VerticalLayout(height, fonts).infoTextY;
    var infoTextWidth := TextWidth(fonts.small, INFO_TEXT);
    [Text(SMALL_FONT, CentredAt(CARD_X, CardWidth(width), infoTextWidth, 0), infoTextY, INFO_TEXT, TEXT_COLOUR)]
  }

  /** The footer line, centred on the whole canvas, over a translucent plate that
      encloses it with 15 pixels to the left and right (14 where the centred
      position crosses zero and loses its half) and 5 above and below. */
  function FooterDraws(width: int, height: int, fonts: Fonts): (ds: seq<Command>)
    ensures |ds| == 2 && ds[0].FilledRect? && ds[1].Text?
    ensures ds[0].colour == FOOTER_BG && ds[1].font == SMALL_FONT && ds[1].text == FOOTER_TEXT
    ensures ds[1].y == height - 50
    ensures ds[0].box.y1 == ds[1].y - 5 && ds[0].box.y2 == ds[1].y + fonts.small.height + 5
    ensures ds[1].x - 15 <= ds[0].box.x1 <= ds[1].x - 14
    ensures ds[1].x + TextWidth(fonts.small, FOOTER_TEXT) + 14 <= ds[0].box.x2
    ensures ds[0].box.x2 <= ds[1].x + TextWidth(fonts.small, FOOTER_TEXT) + 15
    ensures TextWidth(fonts.small, FOOTER_TEXT) + 30 <= width ==>
      ds[0].box.x1 == ds[1].x - 15 && ds[0].box.x2 == ds[1].x + TextWidth(fonts.small, FOOTER_TEXT) + 15 &&
      0 <= ds[1].x && ds[1].x + TextWidth(fonts.small, FOOTER_TEXT) <= width
    // a footer that fits the canvas is centred on it: its margins differ by at most one pixel
    ensures TextWidth(fonts.small, FOOTER_TEXT) <= width ==>
      -1 <= (width - (ds[1].x + TextWidth(fonts.small, FOOTER_TEXT))) - ds[1].x <= 1
  {
    var footerY := VerticalLayout(height, fonts).footerY;
    var footerWidth := TextWidth(fonts.small, FOOTER_TEXT);
    var footerX := CentredAt(0, width, footerWidth, 0);
    [FilledRect(Box(CentredAt(0, width, footerWidth, -15), footerY - 5,
                    CentredAt(0, width, footerWidth, footerWidth + 15), footerY + fonts.small.height + 5),
                FOOTER_BG),
     Text(SMALL_FONT, footerX, footerY, FOOTER_TEXT, TEXT_COLOUR)]
  }

  // ---------------------------------------------------------------------------
  // Corner marks

  /** The first n passes at the top-left corner: pass i draws a horizontal stroke
      on row y1 + i and a vertical one on column x1 + i, each CORNER_SIZE long. */
  function TopLeftMarks(card: Box, n: nat): (ls: seq<Command>)
    ensures |ls| == 2 * n
    ensures forall j :: 0 <= j < |ls| && j % 2 == 0 ==>
      ls[j] == Line(card.x1, card.y1 + j / 2, card.x1 + CORNER_SIZE, card.y1 + j / 2, CORNER)
    ensures forall j :: 0 <= j < |ls| && j % 2 == 1 ==>
      ls[j] == Line(card.x1 + j / 2, card.y1, card.x1 + j / 2, card.y1 + CORNER_SIZE, CORNER)
  {
    if n == 0 then []
    else
      var i := n - 1;
      TopLeftMarks(card, i) +
      [Line(card.x1, card.y1 + i, card.x1 + CORNER_SIZE, card.y1 + i, CORNER),
       Line(card.x1 + i, card.y1, card.x1 + i, card.y1 + CORNER_SIZE, CORNER)]
  }

  /** The first n passes at the bottom-right corner: pass i draws a horizontal
      stroke on row y2 - i and a vertical one on column x2 - i, each CORNER_SIZE long. */
  function BottomRightMarks(card: Box, n: nat): (ls: seq<Command>)
    ensures |ls| == 2 * n
    ensures forall j :: 0 <= j < |ls| && j % 2 == 0 ==>
      ls[j] == Line(card.x2 - CORNER_SIZE, card.y2 - j / 2, card.x2, card.y2 - j / 2, CORNER)
    ensures forall j :: 0 <= j < |ls| && j % 2 == 1 ==>
      ls[j] == Line(card.x2 - j / 2, card.y2 - CORNER_SIZE, card.x2 - j / 2, card.y2, CORNER)
  {
    if n == 0 then []
    else
      var i := n - 1;
      BottomRightMarks(card, i) +
      [Line(card.x2 - CORNER_SIZE, card.y2 - i, card.x2, card.y2 - i, CORNER),
       Line(card.x2 - i, card.y2 - CORNER_SIZE, card.x2 - i, card.y2, CORNER)]
  }

  function CornerMarks(card: Box): seq<Command> {
    TopLeftMarks(card, CORNER_THICKNESS) + BottomRightMarks(card, CORNER_THICKNESS)
  }

  /** A line that runs left to right or top to bottom and lies inside the box. */
  predicate LineWithin(c: Command, b: Box) {
    c.Line? && b.x1 <= c.x1 <= c.x2 <= b.x2 && b.y1 <= c.y1 <= c.y2 <= b.y2
  }

  /** A stroke of a corner mark: horizontal or vertical, CORNER_SIZE long, in the accent colour. */
  predicate CornerStroke(c: Command) {
    c.Line? && c.colour == CORNER &&
    ((c.y1 == c.y2 && c.x2 - c.x1 == CORNER_SIZE) || (c.x1 == c.x2 && c.y2 - c.y1 == CORNER_SIZE))
  }

  /** Each corner gets CORNER_THICKNESS horizontal and as many vertical strokes, and
      on a card at least CORNER_SIZE wide and tall every stroke lies on the card. */
  lemma CornerMarksInsideCard(card: Box)
    requires card.x2 - card.x1 >= CORNER_SIZE && card.y2 - card.y1 >= CORNER_SIZE
    ensures |CornerMarks(card)| == 4 * CORNER_THICKNESS
    ensures forall c :: c in CornerMarks(card) ==> LineWithin(c, card) && CornerStroke(c)
    // the first eight calls are the top-left corner, the last eight the bottom-right one,
    // and in each corner the even calls are the horizontal strokes, the odd ones the vertical
    ensures forall j :: 0 <= j < 4 * CORNER_THICKNESS ==>
      (j % 2 == 0 <==> CornerMarks(card)[j].y1 == CornerMarks(card)[j].y2)
    ensures forall j :: 0 <= j < 2 * CORNER_THICKNESS ==>
      (if j % 2 == 0 then CornerMarks(card)[j].x1 == card.x1 else CornerMarks(card)[j].y1 == card.y1)
    ensures forall j :: 2 * CORNER_THICKNESS <= j < 4 * CORNER_THICKNESS ==>
      (if j % 2 == 0 then CornerMarks(card)[j].x2 == card.x2 else CornerMarks(card)[j].y2 == card.y2)
  {
    var tl, br := TopLeftMarks(card, CORNER_THICKNESS), BottomRightMarks(card, CORNER_THICKNESS);
    forall c | c in CornerMarks(card) ensures LineWithin(c, card) && CornerStroke(c) {
      if c in tl {
        var j :| 0 <= j < |tl| && tl[j] == c;
        assert j / 2 < CORNER_THICKNESS;
      } else {
        assert c in br;
        var j :| 0 <= j < |br| && br[j] == c;
        assert j / 2 < CORNER_THICKNESS;
      }
    }
  }

  // ---------------------------------------------------------------------------
  // The whole card

  /** Every drawing call of the script, in the order it issues them. */
  function Script(width: int, height: nat, title: Bytes, subtitle: Bytes, env: Env): (log: seq<Command>)
    ensures |log| == height + 48
  {
    Backdrop(width, height) + Blobs() + CardFrame(width)
    + TitleDraws(width, height, title, env.fonts) + SubtitleDraw(width, height, subtitle, env.fonts)
    + DividerDraws(width, height, env.fonts) + BadgeDraws(height, env) + InfoDraw(width, height, env.fonts)
    + FooterDraws(width, height, env.fonts) + CornerMarks(CardBox(width))
  }

  /** The log opens with the background fill and then the gradient: exactly one
      full-width scanline per row, top to bottom, in the row's colour. */
  lemma ScriptGradient(width: int, height: nat, title: Bytes, subtitle: Bytes, env: Env, y: int)
    requires 0 <= y < height
    ensures Script(width, height, title, subtitle, env)[0] == Fill(BACKGROUND)
    ensures Script(width, height, title, subtitle, env)[1 + y] == Line(0, y, width, y, GradientColour(y, height))
  {
    var log := Script(width, height, title, subtitle, env);
    var back := Backdrop(width, height);
    assert log[..|back|] == back;
    assert back[1 + y] == GradientLines(width, height, height)[y];
  }

  /** After the three circles comes the card: the white rectangle [100, width-100] x [80, 550],
      the ten shadow rectangles, rectangle i moved by (i, i), then the white card again, the
      last filled rectangle before the border, and the border itself on the card's outline. */
  lemma ScriptCardFrame(width: int, height: nat, title: Bytes, subtitle: Bytes, env: Env)
    ensures CardBox(width) == Box(100, 80, width - 100, 550)
    ensures Script(width, height, title, subtitle, env)[height + 4] == FilledRect(CardBox(width), CARD_BG)
    ensures forall i :: 0 <= i < SHADOW_STEPS ==>
      Script(width, height, title, subtitle, env)[height + 5 + i] == FilledRect(Shift(CardBox(width), i), SHADOW)
    ensures Script(width, height, title, subtitle, env)[height + 15] == FilledRect(CardBox(width), CARD_BG)
    ensures Script(width, height, title, subtitle, env)[height + 16] == Rect(CardBox(width), BORDER)
  {
    var log := Script(width, height, title, subtitle, env);
    var front := Backdrop(width, height) + Blobs() + CardFrame(width);
    assert |front| == height + 17;
    assert log[..|front|] == front;
    var frame := CardFrame(width);
    assert front[height + 4..] == frame;
    forall i | 0 <= i < SHADOW_STEPS
      ensures log[height + 5 + i] == FilledRect(Shift(CardBox(width), i), SHADOW)
    {
      assert log[height + 5 + i] == front[height + 5 + i] == frame[1 + i];
      assert frame[1 + i] == ShadowRects(width, SHADOW_STEPS)[i];
    }
    assert log[height + 15] == frame[11];
    assert log[height + 16] == frame[12];
  }

  /** Every colour in the log is one GD accepts: channels in 0..255, alpha in 0..127. */
  predicate ColoursValid(log: seq<Command>) {
    forall i :: 0 <= i < |log| ==> ValidColour(log[i].colour)
  }

  lemma ColoursValidConcat(a: seq<Command>, b: seq<Command>)
    requires ColoursValid(a) && ColoursValid(b)
    ensures ColoursValid(a + b)
  {
    forall i | 0 <= i < |a + b| ensures ValidColour((a + b)[i].colour) {
      if i >= |a| {
        assert (a + b)[i] == b[i - |a|];
      }
    }
  }

  lemma FrontColoursValid(width: int, height: nat)
    ensures ColoursValid(Backdrop(width, height) + Blobs() + CardFrame(width))
  {
    var grad := GradientLines(width, height, height);
    forall y | 0 <= y < |grad| ensures ValidColour(grad[y].colour) {
      assert grad[y].colour == GradientColour(y, height);
    }
    ColoursValidConcat([Fill(BACKGROUND)], grad);
    ColoursValidConcat(Backdrop(width, height), Blobs());
    var shadows := ShadowRects(width, SHADOW_STEPS);
    ColoursValidConcat([FilledRect(CardBox(width), CARD_BG)], shadows);
    ColoursValidConcat([FilledRect(CardBox(width), CARD_BG)] + shadows,
                       [FilledRect(CardBox(width), CARD_BG), Rect(CardBox(width), BORDER)]);
    ColoursValidConcat(Backdrop(width, height) + Blobs(), CardFrame(width));
  }

  /** Every colour the script passes to GD is one GD accepts. */
  lemma ScriptColoursValid(width: int, height: nat, title: Bytes, subtitle: Bytes, env: Env)
    ensures ColoursValid(Script(width, height, title, subtitle, env))
  {
    var fonts := env.fonts;
    var s0 := Backdrop(width, height) + Blobs() + CardFrame(width);
    FrontColoursValid(width, height);
    var s1 := s0 + TitleDraws(width, height, title, fonts);
    ColoursValidConcat(s0, TitleDraws(width, height, title, fonts));
    var s2 := s1 + SubtitleDraw(width, height, subtitle, fonts);
    ColoursValidConcat(s1, SubtitleDraw(width, height, subtitle, fonts));
    var s3 := s2 + DividerDraws(width, height, fonts);
    ColoursValidConcat(s2, DividerDraws(width, height, fonts));
    var s4 := s3 + BadgeDraws(height, env);
    ColoursValidConcat(s3, BadgeDraws(height, env));
    var s5 := s4 + InfoDraw(width, height, fonts);
    ColoursValidConcat(s4, InfoDraw(width, height, fonts));
    var s6 := s5 + FooterDraws(width, height, fonts);
    ColoursValidConcat(s5, FooterDraws(width, height, fonts));
    var marks := CornerMarks(CardBox(width));
    var tl, br := TopLeftMarks(CardBox(width), CORNER_THICKNESS), BottomRightMarks(CardBox(width), CORNER_THICKNESS);
    assert ColoursValid(tl) && ColoursValid(br);
    ColoursValidConcat(tl, br);
    ColoursValidConcat(s6, marks);
  }

  /** The log ends with the corner marks, drawn last and all on the card when the
      card is at least CORNER_SIZE wide. */
  lemma ScriptEndsWithCornerMarks(width: int, height: nat, title: Bytes, subtitle: Bytes, env: Env)
    requires CardWidth(width) >= CORNER_SIZE
    ensures forall j :: height + 32 <= j < height + 48 ==>
      LineWithin(Script(width, height, title, subtitle, env)[j], CardBox(width)) &&
      CornerStroke(Script(width, height, title, subtitle, env)[j])
  {
    var log := Script(width, height, title, subtitle, env);
    var marks := CornerMarks(CardBox(width));
    assert log[height + 32..] == marks;
    CornerMarksInsideCard(CardBox(width));
    forall j | height + 32 <= j < height + 48
      ensures LineWithin(log[j], CardBox(width)) && CornerStroke(log[j])
    {
      assert log[j] == marks[j - height - 32];
      assert log[j] in marks;
    }
  }

  /** The log in the order the script draws: background and gradient, circles, card,
      title, subtitle, divider, badges, info line, footer, corner marks. */
  lemma ScriptSections(width: int, height: nat, title: Bytes, subtitle: Bytes, env: Env)
    ensures var log := Script(width, height, title, subtitle, env);
      log[..height + 1] == Backdrop(width, height) &&
      log[height + 1..height + 4] == Blobs() &&
      log[height + 4..height + 17] == CardFrame(width) &&
      log[height + 17..height + 20] == TitleDraws(width, height, title, env.fonts) &&
      log[height + 20..height + 21] == SubtitleDraw(width, height, subtitle, env.fonts) &&
      log[height + 21..height + 23] == DividerDraws(width, height, env.fonts) &&
      log[height + 23..height + 29] == BadgeDraws(height, env) &&
      log[height + 29..height + 30] == InfoDraw(width, height, env.fonts) &&
      log[height + 30..height + 32] == FooterDraws(width, height, env.fonts) &&
      log[height + 32..] == CornerMarks(CardBox(width))
  {
    var log := Script(width, height, title, subtitle, env);
    var s0 := Backdrop(width, height);
    var s1 := s0 + Blobs();
    var s2 := s1 + CardFrame(width);
    var s3 := s2 + TitleDraws(width, height, title, env.fonts);
    var s4 := s3 + SubtitleDraw(width, height, subtitle, env.fonts);
    var s5 := s4 + DividerDraws(width, height, env.fonts);
    var s6 := s5 + BadgeDraws(height, env);
    var s7 := s6 + InfoDraw(width, height, env.fonts);
    var s8 := s7 + FooterDraws(width, height, env.fonts);
    assert log == s8 + CornerMarks(CardBox(width));
    assert log[..|s8|] == s8;
    assert s8[..|s7|] == s7;
    assert s7[..|s6|] == s6;
    assert s6[..|s5|] == s5;
    assert s5[..|s4|] == s4;
    assert s4[..|s3|] == s3;
    assert s3[..|s2|] == s2;
    assert s2[..|s1|] == s1;
    assert s1[..|s0|] == s0;
  }

  /** For the Open Graph size and GD's own fonts: the info line (48 bytes) fits on the card and
      is drawn inside it, and the footer plate has its full 15-pixel margins and lies below the
      card and all of its shadow, inside the canvas. */
  lemma OgFooterAndInfoPlacement()
    ensures |INFO_TEXT| == 48 && |FOOTER_TEXT| == 42
    ensures var info := InfoDraw(OG_WIDTH, OG_HEIGHT, GD_FONTS)[0];
      CARD_X <= info.x && info.x + TextWidth(GD_FONTS.small, INFO_TEXT) <= CARD_X + CardWidth(OG_WIDTH) &&
      info.y + GD_FONTS.small.height < CARD_Y + CARD_HEIGHT
    ensures var plate := FooterDraws(OG_WIDTH, OG_HEIGHT, GD_FONTS)[0];
      var text := FooterDraws(OG_WIDTH, OG_HEIGHT, GD_FONTS)[1];
      plate.box.x1 == text.x - 15 && plate.box.x2 == text.x + TextWidth(GD_FONTS.small, FOOTER_TEXT) + 15 &&
      CARD_Y + CARD_HEIGHT + SHADOW_STEPS - 1 < plate.box.y1 && plate.box.y2 < OG_HEIGHT &&
      0 <= plate.box.x1 && plate.box.x2 <= OG_WIDTH
  {
  }
}
