/** The script itself: a GD canvas that records every drawing call, and the
    steps that draw the card on it in order, the gradient, shadow and corner
    loops included. */
module Drawing {
  import opened Bytes
  import opened Gd
  import opened Layout
  import opened OgCard

  /** A canvas of fixed size whose state is the append-only list of the
      drawing calls made on it. */
  class Canvas {
    const width: int
    const height: nat
    var log: seq<Command>

    /** A new, empty canvas. */
    constructor (width: int, height: nat)
      ensures this.width == width && this.height == height && log == []
    {
      this.width := width;
      this.height := height;
      log := [];
    }

    // --- GD primitives: each appends one record ---------------------------------

    method FillCanvas(colour: Colour)
      modifies this
      ensures log == old(log) + [Fill(colour)]
    {
      log := log + [Fill(colour)];
    }

    method DrawLine(x1: int, y1: int, x2: int, y2: int, colour: Colour)
      modifies this
      ensures log == old(log) + [Line(x1, y1, x2, y2, colour)]
    {
      log := log + [Line(x1, y1, x2, y2, colour)];
    }

    method DrawFilledRect(x1: int, y1: int, x2: int, y2: int, colour: Colour)
      modifies this
      ensures log == old(log) + [FilledRect(Box(x1, y1, x2, y2), colour)]
    {
      log := log + [FilledRect(Box(x1, y1, x2, y2), colour)];
    }

    method DrawRect(x1: int, y1: int, x2: int, y2: int, colour: Colour)
      modifies this
      ensures log == old(log) + [Rect(Box(x1, y1, x2, y2), colour)]
    {
      log := log + [Rect(Box(x1, y1, x2, y2), colour)];
    }

    method DrawFilledEllipse(cx: int, cy: int, w: int, h: int, colour: Colour)
      modifies this
      ensures log == old(log) + [FilledEllipse(cx, cy, w, h, colour)]
    {
      log := log + [FilledEllipse(cx, cy, w, h, colour)];
    }

    method DrawString(font: int, x: int, y: int, s: Bytes, colour: Colour)
      modifies this
      ensures log == old(log) + [Text(font, x, y, s, colour)]
    {
      log := log + [Text(font, x, y, s, colour)];
    }

    // --- The card, step by step ------------------------------------------------------

    /** The initial fill, then one full-width line per scanline in the gradient colour. */
    method PaintBackground()
      modifies this
      ensures log == old(log) + Backdrop(width, height)
    {
      FillCanvas(BACKGROUND);
      var y := 0;
      while y < height
        invariant 0 <= y <= height
        invariant log == old(log) + [Fill(BACKGROUND)] + GradientLines(width, height, y)
      {
        var r := 240 + (15 * y) / height;
        var g := 245 + (10 * y) / height;
        var b := 255;
        DrawLine(0, y, width, y, Rgb(r, g, b));
        y := y + 1;
      }
    }

    method DrawBlobs()
      modifies this
      ensures log == old(log) + Blobs()
    {
      DrawFilledEllipse(1000, 150, 400, 400, LIGHT_BLUE);
      DrawFilledEllipse(200, 500, 350, 350, LIGHT_PURPLE);
      DrawFilledEllipse(1100, 450, 200, 200, LIGHT_BLUE);
    }

    /** The white card, the ten shadow steps, the card again and its border. */
    method DrawCard()
      modifies this
      ensures log == old(log) + CardFrame(width)
    {
      var cardX, cardY, cardWidth, cardHeight := CARD_X, CARD_Y, CardWidth(width), CARD_HEIGHT;
      DrawFilledRect(cardX, cardY, cardX + cardWidth, cardY + cardHeight, CARD_BG);
      ghost var start := log;
      var i := 0;
      while i < SHADOW_STEPS
        invariant 0 <= i <= SHADOW_STEPS
        invariant log == start + ShadowRects(width, i)
      {
        DrawFilledRect(cardX + i, cardY + i, cardX + cardWidth + i, cardY + cardHeight + i, SHADOW);
        i := i + 1;
      }
      DrawFilledRect(cardX, cardY, cardX + cardWidth, cardY + cardHeight, CARD_BG);
      DrawRect(cardX, cardY, cardX + cardWidth, cardY + cardHeight, BORDER);
    }

    method DrawTitle(title: Bytes, fonts: Fonts)
      modifies this
      ensures log == old(log) + TitleDraws(width, height, title, fonts)
    {
      var titleY := CARD_Y + 120;
      var titleText := ToUpper(title);
      var titleWidth := fonts.giant.width * |titleText|;
      // the centred x, kept as twice its value for the half PHP's division may leave
      var titleX2 := 2 * CARD_X + (CardWidth(width) - titleWidth);
      var shadowOffset := 2;
      DrawString(GIANT_FONT, TruncHalf(titleX2 + 2 * shadowOffset), titleY + shadowOffset, titleText, TITLE_SHADOW);
      DrawString(GIANT_FONT, TruncHalf(titleX2), titleY, titleText, TITLE_COLOUR);
      DrawString(GIANT_FONT, TruncHalf(titleX2 + 2), titleY, titleText, TITLE_COLOUR);
    }

    method DrawSubtitle(subtitle: Bytes, fonts: Fonts)
      modifies this
      ensures log == old(log) + SubtitleDraw(width, height, subtitle, fonts)
    {
      var subtitleY := CARD_Y + 120 + 80;
      var subtitleWidth := fonts.medium.width * |subtitle|;
      var subtitleX := CentredAt(CARD_X, CardWidth(width), subtitleWidth, 0);
      DrawString(MEDIUM_FONT, subtitleX, subtitleY, subtitle, SUBTITLE_COLOUR);
    }

    method DrawDivider(fonts: Fonts)
      modifies this
      ensures log == old(log) + DividerDraws(width, height, fonts)
    {
      var lineY := CARD_Y + 120 + 80 + 50;
      var lineX1 := CARD_X + 150;
      var lineX2 := CARD_X + CardWidth(width) - 150;
      DrawLine(lineX1, lineY, lineX2, lineY, DIVIDER_DARK);
      DrawLine(lineX1, lineY + 1, lineX2, lineY + 1, DIVIDER_LIGHT);
    }

    method DrawBadges(env: Env)
      modifies this
      ensures log == old(log) + BadgeDraws(height, env)
    {
      var fonts := env.fonts;
      var badgeY := CARD_Y + 120 + 80 + 120;
      var badgeHeight := fonts.small.height + 12;
      var badgeX := CARD_X + 80;

      var phpVersion := Ascii("PHP ") + env.phpVersion;
      var phpWidth := fonts.small.width * |phpVersion|;
      DrawFilledRect(badgeX, badgeY, badgeX + phpWidth + 20, badgeY + badgeHeight, PHP_BADGE);
      DrawString(SMALL_FONT, badgeX + 10, badgeY + 6, phpVersion, WHITE);

      var gdVersion := Ascii("GD ") + env.gdVersion;
      var gdX := badgeX + phpWidth + BADGE_SPACING + 20;
      var gdWidth := fonts.small.width * |gdVersion|;
      DrawFilledRect(gdX, badgeY, gdX + gdWidth + 20, badgeY + badgeHeight, GD_BADGE);
      DrawString(SMALL_FONT, gdX + 10, badgeY + 6, gdVersion, WHITE);

      var vercelX := gdX + gdWidth + BADGE_SPACING + 20;
      var vercelWidth := fonts.small.width * |VERCEL_LABEL|;
      DrawFilledRect(vercelX, badgeY, vercelX + vercelWidth + 20, badgeY + badgeHeight, VERCEL_BADGE);
      DrawString(SMALL_FONT, vercelX + 10, badgeY + 6, VERCEL_LABEL, WHITE);
    }

    method DrawInfo(fonts: Fonts)
      modifies this
      ensures log == old(log) + InfoDraw(width, height, fonts)
    {
      var infoTextY := CARD_Y + 120 + 80 + 120 + fonts.small.height + 12 + 40;
      var infoTextWidth := fonts.small.width * |INFO_TEXT|;
      var infoTextX := CentredAt(CARD_X, CardWidth(width), infoTextWidth, 0);
      DrawString(SMALL_FONT, infoTextX, infoTextY, INFO_TEXT, TEXT_COLOUR);
    }

    method DrawFooter(fonts: Fonts)
      modifies this
      ensures log == old(log) + FooterDraws(width, height, fonts)
    {
      var footerY := height - 50;
      var footerWidth := fonts.small.width * |FOOTER_TEXT|;
      // footerX, kept as twice its value
      var footerX2 := width - footerWidth;
      DrawFilledRect(TruncHalf(footerX2 - 30), footerY - 5,
                     TruncHalf(footerX2 + 2 * footerWidth + 30), footerY + fonts.small.height + 5, FOOTER_BG);
      DrawString(SMALL_FONT, TruncHalf(footerX2), footerY, FOOTER_TEXT, TEXT_COLOUR);
    }

    /** CORNER_THICKNESS passes at the top-left corner, then as many at the bottom-right. */
    method DrawCornerMarks()
      modifies this
      ensures log == old(log) + CornerMarks(CardBox(width))
    {
      var cardX, cardY, cardWidth, cardHeight := CARD_X, CARD_Y, CardWidth(width), CARD_HEIGHT;
      ghost var card := CardBox(width);
      var i := 0;
      while i < CORNER_THICKNESS
        invariant 0 <= i <= CORNER_THICKNESS
        invariant log == old(log) + TopLeftMarks(card, i)
      {
        DrawLine(cardX, cardY + i, cardX + CORNER_SIZE, cardY + i, CORNER);
        DrawLine(cardX + i, cardY, cardX + i, cardY + CORNER_SIZE, CORNER);
        i := i + 1;
      }
      ghost var topLeft := log;
      i := 0;
      while i < CORNER_THICKNESS
        invariant 0 <= i <= CORNER_THICKNESS
        invariant log == topLeft + BottomRightMarks(card, i)
      {
        DrawLine(cardX + cardWidth - CORNER_SIZE, cardY + cardHeight - i, cardX + cardWidth, cardY + cardHeight - i, CORNER);
        DrawLine(cardX + cardWidth - i, cardY + cardHeight - CORNER_SIZE, cardX + cardWidth - i, cardY + cardHeight, CORNER);
        i := i + 1;
      }
    }

    /** Every step of the script, in order. */
    method DrawAll(title: Bytes, subtitle: Bytes, env: Env)
      modifies this
      ensures log == old(log) + Script(width, height, title, subtitle, env)
    {
      var fonts := env.fonts;
      PaintBackground();
      ghost var drawn := Backdrop(width, height);
      DrawBlobs();
      AppendAssoc(old(log), drawn, Blobs());
      drawn := drawn + Blobs();
      DrawCard();
      AppendAssoc(old(log), drawn, CardFrame(width));
      drawn := drawn + CardFrame(width);
      DrawTitle(title, fonts);
      AppendAssoc(old(log), drawn, TitleDraws(width, height, title, fonts));
      drawn := drawn + TitleDraws(width, height, title, fonts);
      DrawSubtitle(subtitle, fonts);
      AppendAssoc(old(log), drawn, SubtitleDraw(width, height, subtitle, fonts));
      drawn := drawn + SubtitleDraw(width, height, subtitle, fonts);
      DrawDivider(fonts);
      AppendAssoc(old(log), drawn, DividerDraws(width, height, fonts));
      drawn := drawn + DividerDraws(width, height, fonts);
      DrawBadges(env);
      AppendAssoc(old(log), drawn, BadgeDraws(height, env));
      drawn := drawn + BadgeDraws(height, env);
      DrawInfo(fonts);
      AppendAssoc(old(log), drawn, InfoDraw(width, height, fonts));
      drawn := drawn + InfoDraw(width, height, fonts);
      DrawFooter(fonts);
      AppendAssoc(old(log), drawn, FooterDraws(width, height, fonts));
      drawn := drawn + FooterDraws(width, height, fonts);
      DrawCornerMarks();
      AppendAssoc(old(log), drawn, CornerMarks(CardBox(width)));
      drawn := drawn + CornerMarks(CardBox(width));
      assert drawn == Script(width, height, title, subtitle, env);
    }
  }

  lemma AppendAssoc(a: seq<Command>, b: seq<Command>, c: seq<Command>)
    ensures a + b + c == a + (b + c)
  {
  }

  /** The request: a 1200x630 canvas, the query's title and subtitle or their
      defaults, and every drawing call of the card. */
  method ComposeCard(title: Option<Bytes>, subtitle: Option<Bytes>, env: Env) returns (canvas: Canvas)
    ensures fresh(canvas)
    ensures canvas.width == OG_WIDTH && canvas.height == OG_HEIGHT
    ensures canvas.log == Script(OG_WIDTH, OG_HEIGHT,
                                 if title.Some? then title.value else DEFAULT_TITLE,
                                 if subtitle.Some? then subtitle.value else DEFAULT_SUBTITLE, env)
  {
    var t := if title.Some? then title.value else DEFAULT_TITLE;
    var s := if subtitle.Some? then subtitle.value else DEFAULT_SUBTITLE;
    canvas := new Canvas(OG_WIDTH, OG_HEIGHT);
    canvas.DrawAll(t, s, env);
  }
}
