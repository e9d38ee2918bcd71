/** The three 180x180 quiz icon previews (`render_quiz_icon_variants.py`): stacked cards
    with three answer lines, a chat bubble with a question mark, and a single card with
    four answer pills. Cards and list use integer geometry only and are modelled exactly;
    the bubble's arc and tail are floating-point tests and enter as a per-pixel probe. */
module QuizPreviews {
  import opened Bytes
  import opened Wrappers
  import opened Raster
  import opened Gradient
  import opened Geometry
  import Png

  const PX: nat := 180

  const WHITE: Rgb := Rgb(255, 255, 255)
  /** System green #34C759, the selected answer. */
  const GREEN: Rgb := Rgb(52, 199, 89)
  const DOT_GREY: Rgb := Rgb(210, 215, 230)
  const SHADOW: Rgb := Rgb(245, 247, 255)
  const BRAND_BLUE: Rgb := Rgb(37, 99, 235)

  function Grey(v: byte): Rgb {
    Rgb(v, v, v)
  }

  /** One answer row painted over colour c: a radio dot of radius 5 (selected) or 4 centred
      at (dotX, cy), then a pill of half-height 3 from lx0 to lx1, which wins where the two
      overlap. */
  function Answer(x: int, y: int, dotX: int, cy: int, selected: bool, lx0: int, lx1: int, c: Rgb): Rgb {
    var rad := if selected then 5 else 4;
    var c1 := if Dist2(x, y, dotX, cy) <= rad * rad then (if selected then GREEN else DOT_GREY) else c;
    if -3 <= y - cy <= 3 && lx0 <= x <= lx1 then Grey(if selected then 210 else 230) else c1
  }

  // ----- draw_cards -----

  /** Back card (36, 38, 140, 92) and front card (24, 30, 140, 100), both with radius 14. */
  predicate InBack(x: int, y: int) {
    InRoundRect(x, y, 36, 38, 140, 92, 14)
  }

  predicate InFront(x: int, y: int) {
    InRoundRect(x, y, 24, 30, 140, 100, 14)
  }

  /** `line(yc, on)` of the front card: dot at x = 24 + 16, pill from 24 + 30 to 24 + 140 - 14. */
  function CardLine(x: int, y: int, yc: int, on: bool, c: Rgb): Rgb {
    Answer(x, y, 40, yc, on, 54, 150, c)
  }

  /** Pixel (x, y) of `draw_cards` over background bg: the back card (shadowed where the
      front card, shifted by one pixel, covers it), then the front card with its three
      lines at y 58, 82 and 106, the middle one selected. */
  function CardsPixel(x: int, y: int, bg: Rgb): Rgb {
    var c := if InBack(x, y) then (if InFront(x + 1, y + 1) then SHADOW else WHITE) else bg;
    if InFront(x, y) then
      CardLine(x, y, 106, false, CardLine(x, y, 82, true, CardLine(x, y, 58, false, WHITE)))
    else c
  }

  /** Pixels outside the cards' bounding box [24, 176] x [30, 130] keep their row's
      gradient colour. */
  lemma CardsOutsideKeepsGradient(x: int, y: int, bg: Rgb)
    requires !(24 <= x <= 176 && 30 <= y <= 130)
    ensures CardsPixel(x, y, bg) == bg
  {
    if InBack(x, y) {
      InRoundRectBounded(x, y, 36, 38, 140, 92, 14);
    }
    if InFront(x, y) {
      InRoundRectBounded(x, y, 24, 30, 140, 100, 14);
    }
  }

  /** Only the middle line is selected: over a sky background, a pixel is green exactly
      when it lies in the radius-5 dot at (40, 82). */
  lemma CardsSelectedDot(x: int, y: int, bg: Rgb)
    requires bg.b >= 234
    ensures CardsPixel(x, y, bg) == GREEN <==> Dist2(x, y, 40, 82) <= 25
  {
    if Dist2(x, y, 40, 82) <= 25 {
      SqBound(x - 40, y - 82, 5);
      NearInnerPointInside(x, y, 24, 30, 140, 100, 14, 40, 82);
      FarFrom(x, y, 40, 58, 4);
      FarFrom(x, y, 40, 106, 4);
      var l1 := CardLine(x, y, 58, false, WHITE);
      assert l1 != GREEN;
      assert CardLine(x, y, 82, true, l1) == GREEN;
    }
  }

  /** Only the middle line's pill is drawn in the darker grey 210: over a sky background, a
      pixel is (210, 210, 210) exactly when it lies in the band |y - 82| <= 3,
      54 <= x <= 150. */
  lemma CardsSelectedPill(x: int, y: int, bg: Rgb)
    requires bg.b >= 234
    ensures CardsPixel(x, y, bg) == Grey(210) <==> (-3 <= y - 82 <= 3 && 54 <= x <= 150)
  {
    if -3 <= y - 82 <= 3 && 54 <= x <= 150 {
      InnerRectInside(x, y, 24, 30, 140, 100, 14);
      FarFrom(x, y, 40, 106, 4);
    }
  }

  // ----- draw_list -----

  /** The card (24, 30, 132, 120) with radius 16. */
  predicate InCard(x: int, y: int) {
    InRoundRect(x, y, 24, 30, 132, 120, 16)
  }

  /** Centre row of answer i: 30 + 20 + 24 i. */
  function OptionY(i: int): int {
    50 + 24 * i
  }

  /** The `for i in range(4)` loop over the answers, applied to its first k iterations:
      answer i has its dot at (40, OptionY(i)), its pill from 54 to 24 + 132 - 12, and is
      selected when i == 1. */
  function ListAnswers(k: nat, x: int, y: int, c: Rgb): Rgb {
    if k == 0 then c
    else Answer(x, y, 40, OptionY(k - 1), k - 1 == 1, 54, 144, ListAnswers(k - 1, x, y, c))
  }

  /** Pixel (x, y) of `draw_list` over background bg. */
  function ListPixel(x: int, y: int, bg: Rgb): Rgb {
    if InCard(x, y) then ListAnswers(4, x, y, WHITE) else bg
  }

  /** Pixels outside the card's bounding box [24, 156] x [30, 150] keep their row's
      gradient colour. */
  lemma ListOutsideKeepsGradient(x: int, y: int, bg: Rgb)
    requires !(24 <= x <= 156 && 30 <= y <= 150)
    ensures ListPixel(x, y, bg) == bg
  {
    if InCard(x, y) {
      InRoundRectBounded(x, y, 24, 30, 132, 120, 16);
    }
  }

  /** Only answer 1 is selected: over a sky background, a pixel is green exactly when it
      lies in the radius-5 dot at (40, 74). */
  lemma ListSelectedDot(x: int, y: int, bg: Rgb)
    requires bg.b >= 234
    ensures ListPixel(x, y, bg) == GREEN <==> Dist2(x, y, 40, 74) <= 25
  {
    var a0 := ListAnswers(1, x, y, WHITE);
    var a1 := ListAnswers(2, x, y, WHITE);
    var a2 := ListAnswers(3, x, y, WHITE);
    var a3 := ListAnswers(4, x, y, WHITE);
    assert ListAnswers(0, x, y, WHITE) == WHITE;
    assert a0 == Answer(x, y, 40, 50, false, 54, 144, WHITE);
    assert a1 == Answer(x, y, 40, 74, true, 54, 144, a0);
    assert a2 == Answer(x, y, 40, 98, false, 54, 144, a1);
    assert a3 == Answer(x, y, 40, 122, false, 54, 144, a2);
    if Dist2(x, y, 40, 74) <= 25 {
      SqBound(x - 40, y - 74, 5);
      NearInnerPointInside(x, y, 24, 30, 132, 120, 16, 40, 74);
      FarFrom(x, y, 40, 98, 4);
      FarFrom(x, y, 40, 122, 4);
    }
  }

  /** The unselected answers 0, 2 and 3 have grey dots of radius 4, drawn whatever the
      background. */
  lemma ListUnselectedDots(x: int, y: int, bg: Rgb, i: int)
    requires i == 0 || i == 2 || i == 3
    requires Dist2(x, y, 40, OptionY(i)) <= 16
    ensures ListPixel(x, y, bg) == DOT_GREY
  {
    SqBound(x - 40, y - OptionY(i), 4);
    NearInnerPointInside(x, y, 24, 30, 132, 120, 16, 40, OptionY(i));
    var a0 := ListAnswers(1, x, y, WHITE);
    var a1 := ListAnswers(2, x, y, WHITE);
    var a2 := ListAnswers(3, x, y, WHITE);
    assert a1 == Answer(x, y, 40, 74, true, 54, 144, a0);
    assert a2 == Answer(x, y, 40, 98, false, 54, 144, a1);
    if i == 0 {
      FarFrom(x, y, 40, 74, 5);
      FarFrom(x, y, 40, 98, 4);
      FarFrom(x, y, 40, 122, 4);
    } else if i == 2 {
      FarFrom(x, y, 40, 122, 4);
    }
  }

  // ----- draw_bubble_q -----

  /** The floating-point parts of the bubble: the tail triangle test (`inside_triangle`) and
      the question mark's arc (`hypot` and `atan2`). */
  datatype BubbleProbe = BubbleProbe(inTail: bool, onArc: bool)

  /** The question mark's stem 92 <= x <= 98, 78 <= y <= 96. */
  predicate OnStem(x: int, y: int) {
    92 <= x <= 98 && 78 <= y <= 96
  }

  /** The question mark's dot: radius 6 around (95, 106). */
  predicate OnDot(x: int, y: int) {
    Dist2(x, y, 95, 106) <= 36
  }

  /** Pixel (x, y) of `draw_bubble_q`: the bubble (30, 30, 120, 94) with radius 20 or the
      tail is white, and the arc, stem and dot over it are brand blue. */
  function BubblePixel(x: int, y: int, bg: Rgb, p: BubbleProbe): Rgb {
    if InRoundRect(x, y, 30, 30, 120, 94, 20) || p.inTail then
      if p.onArc || OnStem(x, y) || OnDot(x, y) then BRAND_BLUE else WHITE
    else bg
  }

  /** The stem and dot of the question mark lie inside the bubble, so they are blue whatever
      the floating-point tests say. */
  lemma BubbleMarkIsBlue(x: int, y: int, bg: Rgb, p: BubbleProbe)
    requires OnStem(x, y) || OnDot(x, y)
    ensures BubblePixel(x, y, bg, p) == BRAND_BLUE
  {
    if OnStem(x, y) {
      InnerRectInside(x, y, 30, 30, 120, 94, 20);
    } else {
      DotInsideBubble(x, y);
    }
  }

  lemma DotInsideBubble(x: int, y: int)
    requires OnDot(x, y)
    ensures InRoundRect(x, y, 30, 30, 120, 94, 20)
  {
    SqBound(x - 95, y - 106, 6);
    var ny := if y <= 104 then y else 104;
    assert 0 <= y - ny <= 8;
    SqMono(y - ny, 20);
    assert Dist2(x, y, x, ny) == Sq(y - ny);
    NearInnerPointInside(x, y, 30, 30, 120, 94, 20, x, ny);
  }

  /** Outside the bubble's bounding box [30, 150] x [30, 124], only the tail can cover a
      pixel; where the tail test fails the row's gradient colour is kept. */
  lemma BubbleOutsideKeepsGradient(x: int, y: int, bg: Rgb, p: BubbleProbe)
    requires !(30 <= x <= 150 && 30 <= y <= 124) && !p.inTail
    ensures BubblePixel(x, y, bg, p) == bg
  {
    if InRoundRect(x, y, 30, 30, 120, 94, 20) {
      InRoundRectBounded(x, y, 30, 30, 120, 94, 20);
    }
  }

  // ----- The three renderers and main -----

  function CardsPainter(): Painter {
    (x, y, bg) => CardsPixel(x, y, bg)
  }

  function ListPainter(): Painter {
    (x, y, bg) => ListPixel(x, y, bg)
  }

  function BubblePainter(probe: (int, int) -> BubbleProbe): Painter {
    (x, y, bg) => BubblePixel(x, y, bg, probe(x, y))
  }

  /** The picture `draw_*` means: PX rows over the sky gradient. */
  function Preview(paint: Painter): seq<seq<Rgb>> {
    SkyDefined(SKY_TOP, SKY_BOTTOM, PX);
    Grid(PX, PX, Sky(SKY_TOP, SKY_BOTTOM, PX), paint)
  }

  /** Runs the row loop of one preview; PX is not 1, so the gradient is defined. */
  method DrawPreview(paint: Painter) returns (raw: seq<byte>)
    ensures raw == SkyRaw(PX, SKY_TOP, SKY_BOTTOM, paint)
    ensures IsRaster(raw, PX, PX)
    ensures DecodeImage(raw, PX, PX) == Some(Preview(paint))
  {
    var r := RenderOnSky(PX, SKY_TOP, SKY_BOTTOM, paint);
    raw := r.value;
  }

  /** `draw_cards()`. */
  method DrawCards() returns (raw: seq<byte>)
    ensures raw == SkyRaw(PX, SKY_TOP, SKY_BOTTOM, CardsPainter())
    ensures IsRaster(raw, PX, PX)
    ensures DecodeImage(raw, PX, PX) == Some(Preview(CardsPainter()))
  {
    raw := DrawPreview(CardsPainter());
  }

  /** `draw_bubble_q()`. */
  method DrawBubble(probe: (int, int) -> BubbleProbe) returns (raw: seq<byte>)
    ensures raw == SkyRaw(PX, SKY_TOP, SKY_BOTTOM, BubblePainter(probe))
    ensures IsRaster(raw, PX, PX)
    ensures DecodeImage(raw, PX, PX) == Some(Preview(BubblePainter(probe)))
  {
    raw := DrawPreview(BubblePainter(probe));
  }

  /** `draw_list()`. */
  method DrawList() returns (raw: seq<byte>)
    ensures raw == SkyRaw(PX, SKY_TOP, SKY_BOTTOM, ListPainter())
    ensures IsRaster(raw, PX, PX)
    ensures DecodeImage(raw, PX, PX) == Some(Preview(ListPainter()))
  {
    raw := DrawPreview(ListPainter());
  }

  /** In the rendered list preview, pixel (x, y) is green exactly when it lies in the
      selected dot: the sky never supplies green itself. */
  lemma ListPreviewSelection(x: nat, y: nat)
    requires x < PX && y < PX
    ensures Preview(ListPainter())[y][x] == GREEN <==> Dist2(x, y, 40, 74) <= 25
  {
    SkyIsBlue(y, PX);
    ListSelectedDot(x, y, Shade(SKY_TOP, SKY_BOTTOM, y, PX));
  }

  /** In the rendered cards preview, pixel (x, y) is green exactly when it lies in the middle
      line's dot. */
  lemma CardsPreviewSelection(x: nat, y: nat)
    requires x < PX && y < PX
    ensures Preview(CardsPainter())[y][x] == GREEN <==> Dist2(x, y, 40, 82) <= 25
  {
    SkyIsBlue(y, PX);
    CardsSelectedDot(x, y, Shade(SKY_TOP, SKY_BOTTOM, y, PX));
  }

  /** `main()`: the three previews, each encoded as a 180x180 PNG whose IDAT holds that
      preview's scanlines. The encoder fails only if a compressed buffer does not fit a
      chunk's 32-bit length. */
  method Previews(z: Png.Zlib, probe: (int, int) -> BubbleProbe)
    returns (cards: Result<seq<byte>, Png.PngError>, bubble: Result<seq<byte>, Png.PngError>,
             list: Result<seq<byte>, Png.PngError>)
    ensures cards == Png.PngFromRaw(PX, PX, SkyRaw(PX, SKY_TOP, SKY_BOTTOM, CardsPainter()), z)
    ensures bubble == Png.PngFromRaw(PX, PX, SkyRaw(PX, SKY_TOP, SKY_BOTTOM, BubblePainter(probe)), z)
    ensures list == Png.PngFromRaw(PX, PX, SkyRaw(PX, SKY_TOP, SKY_BOTTOM, ListPainter()), z)
    ensures cards.Ok? <==> IsU32(|z.compress(SkyRaw(PX, SKY_TOP, SKY_BOTTOM, CardsPainter()))|)
    ensures bubble.Ok? <==> IsU32(|z.compress(SkyRaw(PX, SKY_TOP, SKY_BOTTOM, BubblePainter(probe)))|)
    ensures list.Ok? <==> IsU32(|z.compress(SkyRaw(PX, SKY_TOP, SKY_BOTTOM, ListPainter()))|)
    ensures cards.Ok? ==> Png.PngHeader(cards.value) == Some(Png.Header(PX, PX, 8, 2, 0, 0, 0))
    ensures bubble.Ok? ==> Png.PngHeader(bubble.value) == Some(Png.Header(PX, PX, 8, 2, 0, 0, 0))
    ensures list.Ok? ==> Png.PngHeader(list.value) == Some(Png.Header(PX, PX, 8, 2, 0, 0, 0))
  {
    var raw := DrawCards();
    cards := Png.PngFromRaw(PX, PX, raw, z);
    if cards.Ok? { Png.PngFromRawHeader(PX, PX, raw, z); }
    raw := DrawBubble(probe);
    bubble := Png.PngFromRaw(PX, PX, raw, z);
    if bubble.Ok? { Png.PngFromRawHeader(PX, PX, raw, z); }
    raw := DrawList();
    list := Png.PngFromRaw(PX, PX, raw, z);
    if list.Ok? { Png.PngFromRawHeader(PX, PX, raw, z); }
  }
}
