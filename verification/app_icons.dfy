/** The pictures the asset-catalog scripts write for each manifest entry: the solid blue
    square of `gen_app_icons.py`, the answer-list card of `prepare_app_icons_quiz_list.py`
    and the chat bubble of `prepare_app_icons_quiz_bubble.py`. The card and bubble metrics
    are floating-point fractions of the size, so their tests enter as per-pixel samples;
    what is modelled exactly is the colour each combination of tests produces, the row
    buffer and the PNG around it. */
module AppIcons {
  import opened Bytes
  import opened Wrappers
  import opened Raster
  import opened Gradient
  import Png

  // ----- gen_app_icons.py -----

  /** The solid icon colour (46, 125, 246). */
  const SOLID_BLUE: Rgb := Rgb(46, 125, 246)

  /** Python's `s * n`: n copies of s, none when n is not positive. */
  function Repeat<T>(s: seq<T>, n: int): (r: seq<T>)
    ensures |r| == if n <= 0 then 0 else n * |s|
    decreases n
  {
    if n <= 0 then [] else
      var r := Repeat(s, n - 1) + s;
      assert |r| == (n - 1) * |s| + |s|;
      r
  }

  /** `bytes([0] + [r, g, b] * w)`. */
  function SolidRow(w: int, c: Rgb): seq<byte> {
    [FILTER_NONE] + Repeat(PixelBytes(c), w)
  }

  /** `row * h`: the raw data of `_solid_png_bytes`. */
  function SolidRaw(w: int, h: int, c: Rgb): seq<byte> {
    Repeat(SolidRow(w, c), h)
  }

  /** `_solid_png_bytes(w, h, rgb)`. */
  function SolidPng(w: int, h: int, c: Rgb, z: Png.Zlib): Result<seq<byte>, Png.PngError> {
    Png.PngFromRaw(w, h, SolidRaw(w, h, c), z)
  }

  function Flat(c: Rgb): int --> Rgb {
    y => c
  }

  function Fill(c: Rgb): Painter {
    (x, y, bg) => c
  }

  lemma {:induction false} SolidPixels(n: nat, y: int, c: Rgb)
    ensures RowPixels(n, y, c, Fill(c)) == Repeat(PixelBytes(c), n)
  {
    if n > 0 {
      SolidPixels(n - 1, y, c);
    }
  }

  /** The repeated row is the generic renderer's image of a one-colour painter. */
  lemma {:induction false} SolidRawIsImage(w: nat, h: nat, c: Rgb)
    ensures SolidRaw(w, h, c) == Image(w, h, Flat(c), Fill(c))
  {
    if h > 0 {
      SolidRawIsImage(w, h - 1, c);
      SolidPixels(w, h - 1, c);
    }
  }

  /** The solid raw data is h rows of 1 + 3w bytes, each starting with filter byte 0, and
      it decodes to an h-by-w picture in which every pixel has the given colour. */
  lemma SolidRawDecodes(w: nat, h: nat, c: Rgb)
    ensures |SolidRaw(w, h, c)| == h * (3 * w + 1)
    ensures IsRaster(SolidRaw(w, h, c), w, h)
    ensures DecodeImage(SolidRaw(w, h, c), w, h) == Some(seq(h, y => seq(w, x => c)))
  {
    SolidRawIsImage(w, h, c);
    ImageIsRaster(w, h, Flat(c), Fill(c));
    SolidGrid(w, h, c);
  }

  lemma SolidGrid(w: nat, h: nat, c: Rgb)
    ensures DecodeImage(Image(w, h, Flat(c), Fill(c)), w, h) == Some(seq(h, y => seq(w, x => c)))
  {
    DecodeImageRoundTrip(w, h, Flat(c), Fill(c));
    var g := Grid(w, h, Flat(c), Fill(c));
    forall y | 0 <= y < h
      ensures g[y] == seq(w, x => c)
    {
      assert forall x :: 0 <= x < w ==> g[y][x] == c;
    }
    assert g == seq(h, y => seq(w, x => c));
  }

  /** `gen_icon(path, px)`: a px-by-px PNG of the solid colour. The PNG is refused
      exactly when a side does not fit the IHDR's 32-bit fields or the compressed data is too
      long for one chunk; otherwise it holds the three chunks with a px-by-px header. */
  lemma SolidPngShape(px: int, z: Png.Zlib)
    ensures SolidPng(px, px, SOLID_BLUE, z).Ok?
        <==> IsU32(px) && IsU32(|z.compress(SolidRaw(px, px, SOLID_BLUE))|)
    ensures px < 0 ==> SolidPng(px, px, SOLID_BLUE, z) == Err(Png.FieldOutOfRange)
    ensures SolidPng(px, px, SOLID_BLUE, z).Ok? ==>
      && Png.PngHeader(SolidPng(px, px, SOLID_BLUE, z).value) == Some(Png.Header(px, px, 8, 2, 0, 0, 0))
      && |Png.ParsePng(SolidPng(px, px, SOLID_BLUE, z).value).value| == 3
  {
    if SolidPng(px, px, SOLID_BLUE, z).Ok? {
      Png.PngFromRawParses(px, px, SolidRaw(px, px, SOLID_BLUE), z);
      Png.PngFromRawHeader(px, px, SolidRaw(px, px, SOLID_BLUE), z);
    }
  }

  // ----- prepare_app_icons_quiz_list.py -----

  const WHITE: Rgb := Rgb(255, 255, 255)
  /** The card's 1 px border. */
  const BORDER: Rgb := Rgb(220, 226, 240)
  const GREEN: Rgb := Rgb(52, 199, 89)
  /** Unselected radio dots and the selected answer's pill share this grey. */
  const DARK_GREY: Rgb := Rgb(190, 196, 210)
  /** The pills of the unselected answers. */
  const LIGHT_GREY: Rgb := Rgb(210, 215, 228)
  const OPTIONS: nat := 4
  const SELECTED: nat := 1

  /** The floating-point tests of one pixel: inside the card, on its border (inside the
      outer and outside the inner outline), and the answers whose radio dot or pill line
      covers the pixel. */
  datatype ListSample = ListSample(inCard: bool, onBorder: bool, dots: set<nat>, pills: set<nat>)

  /** What answer i paints over colour c: its dot, then its pill. */
  function PaintOption(i: nat, c: Rgb, s: ListSample): Rgb {
    var c1 := if i in s.dots then (if i == SELECTED then GREEN else DARK_GREY) else c;
    if i in s.pills then (if i == SELECTED then DARK_GREY else LIGHT_GREY) else c1
  }

  /** Answers 0 .. n-1 painted in order over c. */
  function PaintOptions(n: nat, c: Rgb, s: ListSample): Rgb {
    if n == 0 then c else PaintOption(n - 1, PaintOptions(n - 1, c, s), s)
  }

  /** The four answers in drawing order. */
  lemma OptionsUnrolled(c: Rgb, s: ListSample)
    ensures PaintOptions(OPTIONS, c, s)
         == PaintOption(3, PaintOption(2, PaintOption(1, PaintOption(0, c, s), s), s), s)
  {
    assert PaintOptions(1, c, s) == PaintOption(0, c, s);
    assert PaintOptions(2, c, s) == PaintOption(1, PaintOptions(1, c, s), s);
    assert PaintOptions(3, c, s) == PaintOption(2, PaintOptions(2, c, s), s);
  }

  function ListPixel(bg: Rgb, s: ListSample): Rgb {
    if !s.inCard then bg else PaintOptions(OPTIONS, if s.onBorder then BORDER else WHITE, s)
  }

  /** The card branch of `_render_list`'s pixel body: white or border, then the
      `for i in range(4)` loop reassigning the colour. */
  method PaintListPixel(bg: Rgb, s: ListSample) returns (c: Rgb)
    ensures c == ListPixel(bg, s)
  {
    c := bg;
    if s.inCard {
      c := WHITE;
      if s.onBorder {
        c := BORDER;
      }
      var i := 0;
      while i < OPTIONS
        invariant 0 <= i <= OPTIONS
        invariant c == PaintOptions(i, if s.onBorder then BORDER else WHITE, s)
      {
        if i in s.dots {
          c := if i == SELECTED then GREEN else DARK_GREY;
        }
        if i in s.pills {
          c := if i == SELECTED then DARK_GREY else LIGHT_GREY;
        }
        i := i + 1;
      }
    }
  }

  /** Outside the card a pixel keeps its gradient colour; inside it, it is one of the card's
      five colours. */
  lemma ListPalette(bg: Rgb, s: ListSample)
    ensures !s.inCard ==> ListPixel(bg, s) == bg
    ensures s.inCard ==> ListPixel(bg, s) in {WHITE, BORDER, GREEN, DARK_GREY, LIGHT_GREY}
  {
    OptionsUnrolled(if s.onBorder then BORDER else WHITE, s);
  }

  /** Only answer 1 is drawn selected: over a background that is not itself green, a pixel
      is green exactly when it lies in the card on answer 1's dot and is not covered by
      answer 1's pill or by anything of the answers drawn after it. */
  lemma ListGreenIff(bg: Rgb, s: ListSample)
    requires bg != GREEN
    ensures ListPixel(bg, s) == GREEN <==>
      && s.inCard && 1 in s.dots && 1 !in s.pills
      && 2 !in s.dots && 2 !in s.pills && 3 !in s.dots && 3 !in s.pills
  {
    OptionsUnrolled(if s.onBorder then BORDER else WHITE, s);
  }

  /** The last answer is drawn last: a card pixel on its pill is light grey. */
  lemma ListLastPillWins(bg: Rgb, s: ListSample)
    requires s.inCard && 3 in s.pills
    ensures ListPixel(bg, s) == LIGHT_GREY
  {
    OptionsUnrolled(if s.onBorder then BORDER else WHITE, s);
  }

  function ListPainter(probe: (int, int) -> ListSample): Painter {
    (x, y, bg) => ListPixel(bg, probe(x, y))
  }

  /** The quiz-list icon at px pixels, as `main` writes it. */
  method ListIconPng(px: int, probe: (int, int) -> ListSample, z: Png.Zlib)
    returns (r: Result<seq<byte>, RenderError>)
    ensures px == 1 ==> r == Err(ZeroDivision)
    ensures px != 1 && !IsU32(px) ==> r == Err(Encode(Png.FieldOutOfRange))
    ensures r.Ok? <==> px != 1 && IsU32(px) && IsU32(|z.compress(SkyRaw(px, SKY_TOP, SKY_BOTTOM, ListPainter(probe)))|)
    ensures px != 1 && IsU32(px) && r.Err? ==> r.error == Encode(Png.ChunkTooLong)
    ensures r.Ok? ==> r.value == Png.PngFromRaw(px, px, SkyRaw(px, SKY_TOP, SKY_BOTTOM, ListPainter(probe)), z).value
    ensures r.Ok? ==> Png.PngHeader(r.value) == Some(Png.Header(px, px, 8, 2, 0, 0, 0))
  {
    r := RenderPng(px, SKY_TOP, SKY_BOTTOM, ListPainter(probe), z);
  }

  // ----- prepare_app_icons_quiz_bubble.py -----

  /** The brand blue of the question mark. */
  const BRAND_BLUE: Rgb := Rgb(37, 99, 235)

  /** The floating-point tests of one pixel: the bubble's rounded rectangle and tail, and
      the question mark's arc, stem and dot. */
  datatype BubbleSample = BubbleSample(inRect: bool, inTail: bool, onArc: bool, onStem: bool, onDot: bool)

  function BubblePixel(bg: Rgb, s: BubbleSample): Rgb {
    if !(s.inRect || s.inTail) then bg
    else if s.onArc || s.onStem || s.onDot then BRAND_BLUE
    else WHITE
  }

  /** Outside the bubble a pixel keeps its gradient colour; inside it, it is brand blue
      exactly on the question mark and white elsewhere. The question mark is drawn only
      inside the bubble. */
  lemma BubbleRegions(bg: Rgb, s: BubbleSample)
    ensures !(s.inRect || s.inTail) ==> BubblePixel(bg, s) == bg
    ensures (s.inRect || s.inTail) ==>
      (BubblePixel(bg, s) == BRAND_BLUE <==> s.onArc || s.onStem || s.onDot)
    ensures (s.inRect || s.inTail) ==>
      (BubblePixel(bg, s) == WHITE <==> !(s.onArc || s.onStem || s.onDot))
  {
  }

  function BubblePainter(probe: (int, int) -> BubbleSample): Painter {
    (x, y, bg) => BubblePixel(bg, probe(x, y))
  }

  /** The quiz-bubble icon at px pixels, as `main` writes it. */
  method BubbleIconPng(px: int, probe: (int, int) -> BubbleSample, z: Png.Zlib)
    returns (r: Result<seq<byte>, RenderError>)
    ensures px == 1 ==> r == Err(ZeroDivision)
    ensures px != 1 && !IsU32(px) ==> r == Err(Encode(Png.FieldOutOfRange))
    ensures r.Ok? <==> px != 1 && IsU32(px) && IsU32(|z.compress(SkyRaw(px, SKY_TOP, SKY_BOTTOM, BubblePainter(probe)))|)
    ensures px != 1 && IsU32(px) && r.Err? ==> r.error == Encode(Png.ChunkTooLong)
    ensures r.Ok? ==> r.value == Png.PngFromRaw(px, px, SkyRaw(px, SKY_TOP, SKY_BOTTOM, BubblePainter(probe)), z).value
    ensures r.Ok? ==> Png.PngHeader(r.value) == Some(Png.Header(px, px, 8, 2, 0, 0, 0))
  {
    r := RenderPng(px, SKY_TOP, SKY_BOTTOM, BubblePainter(probe), z);
  }
}
