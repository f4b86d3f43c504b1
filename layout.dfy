/** The layout arithmetic of the Open Graph card: every coordinate the script
    passes to GD, as a function of the canvas size, the strings and the font
    metrics. */
module Layout {
  import opened Gd

  /** The Open Graph image size the script uses. */
  const OG_WIDTH: int := 1200
  const OG_HEIGHT: nat := 630

  /** The white card: fixed left/top corner and height; its width leaves 100 pixels on each side. */
  const CARD_X: int := 100
  const CARD_Y: int := 80
  const CARD_HEIGHT: int := 470

  /** The drop shadow is this many filled rectangles, each one pixel further down and right. */
  const SHADOW_STEPS: nat := 10

  const BADGE_SPACING: int := 15
  const CORNER_SIZE: int := 40
  const CORNER_THICKNESS: nat := 4

  function CardWidth(width: int): int {
    width - 200
  }

  /** The card rectangle as the script passes it to GD. */
  function CardBox(width: int): Box {
    Box(CARD_X, CARD_Y, CARD_X + CardWidth(width), CARD_Y + CARD_HEIGHT)
  }

  // ---------------------------------------------------------------------------
  // Centring

  /** PHP's `/` keeps a half when the difference is odd, and GD's integer
      parameter truncates it toward zero. A coordinate that may carry a half is
      held here as twice its value, h; the integer GD receives is h/2 truncated
      toward zero. */
  function TruncHalf(h: int): (r: int)
    ensures 0 <= h ==> 2 * r <= h <= 2 * r + 1
    ensures h <= 0 ==> 2 * r - 1 <= h <= 2 * r
  {
    if h >= 0 then h / 2 else -((-h) / 2)
  }

  /** The x coordinate GD receives for `x0 + (container - text) / 2 + k`: the
      centring formula of the title, subtitle, info and footer lines, k being
      the extra offset of the title's shadow and bold passes and of the footer
      plate's edges. */
  function CentredAt(x0: int, container: int, text: int, k: int): (x: int)
    // a text that fits lies inside the container, and its two margins differ by at most one pixel
    ensures text <= container ==>
      x0 + k <= x <= x0 + k + container - text &&
      -1 <= (x0 + container - (x - k + text)) - (x - k - x0) <= 1
    // from a non-negative start, truncation is the floor and the spare pixel goes to the right margin
    ensures text <= container && 0 <= x0 + k ==>
      x == x0 + k + (container - text) / 2 &&
      0 <= (x0 + container - (x - k + text)) - (x - k - x0) <= 1
    // a text that does not fit sticks out on both sides
    ensures container < text ==> x - k <= x0 && x0 + container <= x - k + text
  {
    TruncHalf(2 * x0 + (container - text) + 2 * k)
  }

  // ---------------------------------------------------------------------------
  // The background gradient

  /** Multiplying both sides of a <= b by a natural number keeps the order. */
  lemma {:induction false} MulMonotone(c: nat, a: int, b: int)
    requires a <= b
    ensures c * a <= c * b
  {
    if c > 0 {
      MulMonotone(c - 1, a, b);
      assert c * a == (c - 1) * a + a;
      assert c * b == (c - 1) * b + b;
    }
  }

  /** k*y/h, for a scanline y of a canvas of height h, stays below k. */
  lemma ScaledRatioBound(k: nat, y: nat, h: int)
    requires 0 < k && y < h
    ensures 0 <= (k * y) / h < k
  {
    var q, r := (k * y) / h, (k * y) % h;
    assert k * y == h * q + r;
    MulMonotone(k, y + 1, h);
    assert k * y + k <= k * h by {
      assert k * (y + 1) == k * y + k;
    }
    if q >= k {
      MulMonotone(h, k, q);
      assert false;
    }
  }

  /** Integer division by a positive divisor is monotone. */
  lemma DivMonotone(a: int, b: int, d: int)
    requires 0 <= a <= b && 0 < d
    ensures a / d <= b / d
  {
    var qa, qb := a / d, b / d;
    assert a == d * qa + a % d;
    assert b == d * qb + b % d;
    if qa > qb {
      MulMonotone(d, qb + 1, qa);
      assert false;
    }
  }

  /** The colour of scanline y: r = 240 + 15*y/h, g = 245 + 10*y/h, b = 255, opaque. */
  function GradientColour(y: int, height: int): (c: Colour)
    requires 0 <= y < height
    ensures 240 <= c.r <= 254 && 245 <= c.g <= 254 && c.b == 255 && c.alpha == 0
  {
    ScaledRatioBound(15, y, height);
    ScaledRatioBound(10, y, height);
    Rgb(240 + (15 * y) / height, 245 + (10 * y) / height, 255)
  }

  /** Going down the canvas, red and green never decrease: the gradient only lightens. */
  lemma GradientMonotone(y1: int, y2: int, height: int)
    requires 0 <= y1 <= y2 < height
    ensures GradientColour(y1, height).r <= GradientColour(y2, height).r
    ensures GradientColour(y1, height).g <= GradientColour(y2, height).g
  {
    DivMonotone(15 * y1, 15 * y2, height);
    DivMonotone(10 * y1, 10 * y2, height);
  }

  /** a/h is q when a lies in [q*h, q*h + h). */
  lemma DivBetween(a: int, h: int, q: int)
    requires 0 < h && 0 <= q && q * h <= a < q * h + h
    ensures a / h == q
  {
    var d := a / h;
    assert a == h * d + a % h;
    assert h * (d + 1) == h * d + h && h * (q + 1) == h * q + h;
    if d < q {
      MulMonotone(h, d + 1, q);
      assert false;
    }
    if d > q {
      MulMonotone(h, q + 1, d);
      assert false;
    }
  }

  /** On a canvas at least 15 rows tall the gradient runs from (240, 245, 255) on the top
      row to (254, 254, 255) on the bottom one: 255 itself is never reached. */
  lemma GradientRange(height: int)
    requires height >= 15
    ensures GradientColour(0, height) == Rgb(240, 245, 255)
    ensures GradientColour(height - 1, height) == Rgb(254, 254, 255)
  {
    DivBetween(15 * (height - 1), height, 14);
    DivBetween(10 * (height - 1), height, 9);
  }

  // ---------------------------------------------------------------------------
  // Rows

  /** The y coordinates of the card's rows. */
  datatype Rows = Rows(titleY: int, subtitleY: int, lineY: int, badgeY: int, badgeHeight: int,
                       infoTextY: int, footerY: int)

  /** Title, subtitle, divider, badges and info text, one below the other on the card, and
      the footer a fixed distance from the bottom of the canvas. */
  function VerticalLayout(height: int, fonts: Fonts): (r: Rows)
    ensures CARD_Y < r.titleY < r.subtitleY < r.lineY < r.lineY + 1 < r.badgeY
    ensures r.badgeY + r.badgeHeight < r.infoTextY
    ensures r.badgeHeight == fonts.small.height + 12
    ensures r.footerY == height - 50
    // with glyphs no taller than the gaps, no two rows of text touch and the last stays on the card
    ensures fonts.giant.height < 78 ==> r.titleY + 2 + fonts.giant.height < r.subtitleY
    ensures fonts.medium.height < 50 ==> r.subtitleY + fonts.medium.height < r.lineY
    ensures fonts.small.height < 49 ==> r.infoTextY + fonts.small.height < CARD_Y + CARD_HEIGHT
  {
    var titleY := CARD_Y + 120;
    var subtitleY := titleY + 80;
    var lineY := subtitleY + 50;
    var badgeY := subtitleY + 120;
    var badgeHeight := fonts.small.height + 12;
    var infoTextY := badgeY + badgeHeight + 40;
    Rows(titleY, subtitleY, lineY, badgeY, badgeHeight, infoTextY, height - 50)
  }
}
