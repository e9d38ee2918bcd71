/** The plain water-drop icons: the 1024 px master of `make_master_icon.py` (white drop,
    radial highlight on the background) and the 180 px previews of
    `render_icon_variants.py` in three kinds, "drop", "ring" (a white ring around the drop)
    and "target" (two brightened rings behind it). */
module DropVariants {
  import opened Bytes
  import opened Wrappers
  import opened Raster
  import opened Gradient
  import opened Geometry
  import opened GoalIcons
  import Png

  // ----- make_master_icon.py -----

  /** Cyan #0EA5E9, the master's gradient top; the bottom is SKY_BOTTOM. */
  const MASTER_TOP: Rgb := Rgb(14, 165, 233)
  /** Highlight disc: centre (512 - 130, 430 - 150), radius 90. */
  const HIGHLIGHT_CX: int := 382
  const HIGHLIGHT_CY: int := 280
  const HIGHLIGHT_R2: int := 8100

  function Min255(v: int): int {
    if v > 255 then 255 else v
  }

  /** `min(255, int(v * 1.10 + 20))` on a channel value. For a byte the exact value
      (11 v + 200) / 10 is either an integer or at least a tenth away from one, so its
      truncation is what the floating-point expression yields. */
  function Brighten(v: byte): byte {
    Min255((11 * v as int + 200) / 10) as byte
  }

  /** Brightening never darkens, strictly brightens every channel below 255, and saturates
      at 255 from 214 upward. */
  lemma BrightenBounds(v: byte)
    ensures v <= Brighten(v)
    ensures v < 255 ==> v < Brighten(v)
    ensures Brighten(v) == 255 <==> v >= 214
  {
  }

  /** Pixel (x, y) of the master: the drop (integer cap, floating-point tail) is pure white;
      outside it, pixels within the highlight disc are brightened. */
  function MasterPixel(x: int, y: int, bg: Rgb, inTail: bool): Rgb {
    if InCap(x, y) || inTail then GoalIcons.WHITE
    else if Dist2(x, y, HIGHLIGHT_CX, HIGHLIGHT_CY) <= HIGHLIGHT_R2 then
      Rgb(Brighten(bg.r), Brighten(bg.g), Brighten(bg.b))
    else bg
  }

  /** The highlight touches only background pixels within radius 90 of (382, 280): drop
      pixels are exactly white, pixels outside both keep their gradient colour, and a
      highlighted pixel is no darker than its gradient colour in every channel. */
  lemma MasterPixelRegions(x: int, y: int, bg: Rgb, inTail: bool)
    ensures InCap(x, y) || inTail ==> MasterPixel(x, y, bg, inTail) == GoalIcons.WHITE
    ensures !(InCap(x, y) || inTail) && Dist2(x, y, HIGHLIGHT_CX, HIGHLIGHT_CY) > HIGHLIGHT_R2
      ==> MasterPixel(x, y, bg, inTail) == bg
    ensures var c := MasterPixel(x, y, bg, inTail);
      bg.r <= c.r && bg.g <= c.g && bg.b <= c.b
  {
    BrightenBounds(bg.r);
    BrightenBounds(bg.g);
    BrightenBounds(bg.b);
  }

  /** The highlight's centre lies inside the cap (198 px from the cap's centre, radius 260),
      so the centre pixel is drawn white and the highlight shows only where the disc
      reaches past the cap's rim. */
  lemma HighlightCentreInDrop(bg: Rgb, inTail: bool)
    ensures InCap(HIGHLIGHT_CX, HIGHLIGHT_CY)
    ensures MasterPixel(HIGHLIGHT_CX, HIGHLIGHT_CY, bg, inTail) == GoalIcons.WHITE
  {
  }

  function MasterPainter(tail: (int, int) -> bool): Painter {
    (x, y, bg) => MasterPixel(x, y, bg, tail(x, y))
  }

  /** `draw_icon()`: 1024 rows over the master's gradient. */
  method DrawMasterIcon(tail: (int, int) -> bool) returns (raw: seq<byte>)
    ensures raw == SkyRaw(MASTER_PX, MASTER_TOP, SKY_BOTTOM, MasterPainter(tail))
    ensures IsRaster(raw, MASTER_PX, MASTER_PX)
    ensures DecodeImage(raw, MASTER_PX, MASTER_PX)
         == Some(Grid(MASTER_PX, MASTER_PX, Sky(MASTER_TOP, SKY_BOTTOM, MASTER_PX), MasterPainter(tail)))
  {
    var r := RenderOnSky(MASTER_PX, MASTER_TOP, SKY_BOTTOM, MasterPainter(tail));
    raw := r.value;
  }

  /** The master's gradient starts exactly at #0EA5E9 and ends exactly at #2563EB. */
  lemma MasterGradientEnds()
    ensures Shade(MASTER_TOP, SKY_BOTTOM, 0, MASTER_PX) == MASTER_TOP
    ensures Shade(MASTER_TOP, SKY_BOTTOM, MASTER_PX - 1, MASTER_PX) == SKY_BOTTOM
  {
    ShadeEndpoints(MASTER_TOP, SKY_BOTTOM, MASTER_PX);
  }

  /** `main()`: the master encoded as a 1024x1024 PNG whose IDAT holds the drawn scanlines.
      Encoding fails only when the compressed data is too long for one chunk. */
  method MasterIconPng(tail: (int, int) -> bool, z: Png.Zlib) returns (png: Result<seq<byte>, Png.PngError>)
    ensures png == Png.PngFromRaw(MASTER_PX, MASTER_PX, SkyRaw(MASTER_PX, MASTER_TOP, SKY_BOTTOM, MasterPainter(tail)), z)
    ensures png.Ok? <==> IsU32(|z.compress(SkyRaw(MASTER_PX, MASTER_TOP, SKY_BOTTOM, MasterPainter(tail)))|)
    ensures png.Ok? ==> Png.PngHeader(png.value) == Some(Png.Header(MASTER_PX, MASTER_PX, 8, 2, 0, 0, 0))
    ensures png.Err? ==> png.error == Png.ChunkTooLong
  {
    var raw := DrawMasterIcon(tail);
    png := Png.PngFromRaw(MASTER_PX, MASTER_PX, raw, z);
    if png.Ok? {
      Png.PngFromRawHeader(MASTER_PX, MASTER_PX, raw, z);
    }
  }

  // ----- render_icon_variants.py -----

  const PREVIEW_PX: nat := 180

  /** The floating-point tests of one preview pixel: on the inner and outer target rings,
      the drop's cap and tail, the cap's edge shade (`int(30 - ...)` before the clamp, present
      only near the rim) and on the white ring. */
  datatype VariantProbe = VariantProbe(
    onInnerTarget: bool, onOuterTarget: bool,
    inCap: bool, inTail: bool, shade: Option<int>,
    onRing: bool)

  /** `min(255, int(v * (1 + s) + 18 * s))` for a strength of s percent, on exact
      rationals. */
  function Boost(v: byte, s: nat): byte {
    Min255((v as int * (100 + s) + 18 * s) / 100) as byte
  }

  /** A target ring never darkens a channel and caps it at 255. */
  lemma BoostBounds(v: byte, s: nat)
    ensures v <= Boost(v, s)
  {
    assert v as int * (100 + s) + 18 * s >= v as int * 100;
  }

  function BoostAll(c: Rgb, s: nat): Rgb {
    Rgb(Boost(c.r, s), Boost(c.g, s), Boost(c.b, s))
  }

  /** Pixel of `render_variant(kind)`: target rings (strengths 8% and 5%) for "target", then
      the shaded white drop, then a white ring for "ring". */
  function VariantPixel(kind: string, bg: Rgb, p: VariantProbe): Rgb {
    var c0 := bg;
    var c1 := if kind == "target" && p.onInnerTarget then BoostAll(c0, 8) else c0;
    var c2 := if kind == "target" && p.onOuterTarget then BoostAll(c1, 5) else c1;
    var drop := DropSample(p.inCap, p.inTail, p.shade, false);
    var c3 := if InDrop(drop) then GoalPixel(c2, drop) else c2;
    if kind == "ring" && p.onRing then GoalIcons.WHITE else c3
  }

  /** The "ring" overlay is drawn last, so ring pixels are white even across the drop. */
  lemma RingIsWhite(bg: Rgb, p: VariantProbe)
    requires p.onRing
    ensures VariantPixel("ring", bg, p) == GoalIcons.WHITE
  {
  }

  /** For the "drop" kind every pixel is either its gradient colour (outside the drop) or a
      drop grey with equal channels (inside it): no ring is drawn. */
  lemma DropKindTwoTone(bg: Rgb, p: VariantProbe)
    ensures var c := VariantPixel("drop", bg, p);
      if p.inCap || p.inTail then c.r == c.g == c.b else c == bg
  {
    GoalPixelRegions(bg, DropSample(p.inCap, p.inTail, p.shade, false));
  }

  /** For the "target" kind, a background pixel is never darker than its gradient colour:
      the rings only brighten, capped at 255. */
  lemma TargetOnlyBrightens(bg: Rgb, p: VariantProbe)
    requires !(p.inCap || p.inTail)
    ensures var c := VariantPixel("target", bg, p);
      bg.r <= c.r && bg.g <= c.g && bg.b <= c.b
  {
    var c1 := if p.onInnerTarget then BoostAll(bg, 8) else bg;
    BoostBounds(bg.r, 8); BoostBounds(bg.g, 8); BoostBounds(bg.b, 8);
    BoostBounds(c1.r, 5); BoostBounds(c1.g, 5); BoostBounds(c1.b, 5);
  }

  function VariantPainter(kind: string, probe: (int, int) -> VariantProbe): Painter {
    (x, y, bg) => VariantPixel(kind, bg, probe(x, y))
  }

  /** `render_variant(kind, px)`: px rows of the variant over the gradient. */
  method RenderVariant(kind: string, px: int, probe: (int, int) -> VariantProbe)
    returns (r: Result<seq<byte>, RenderError>)
    ensures r.Err? <==> px == 1
    ensures r.Ok? ==> r.value == SkyRaw(px, SKY_TOP, SKY_BOTTOM, VariantPainter(kind, probe))
    ensures r.Ok? ==> IsRaster(r.value, Side(px), Side(px))
    ensures r.Ok? ==>
      DecodeImage(r.value, Side(px), Side(px)) == Some(Grid(Side(px), Side(px), Sky(SKY_TOP, SKY_BOTTOM, Side(px)), VariantPainter(kind, probe)))
  {
    r := RenderOnSky(px, SKY_TOP, SKY_BOTTOM, VariantPainter(kind, probe));
  }

  /** `write_png(kind, path)`: the 180 px variant encoded as a PNG whose IDAT holds the
      rendered scanlines. Encoding fails only when the compressed data is too long for one
      chunk. */
  method VariantPng(kind: string, probe: (int, int) -> VariantProbe, z: Png.Zlib)
    returns (png: Result<seq<byte>, Png.PngError>)
    ensures png == Png.PngFromRaw(PREVIEW_PX, PREVIEW_PX, SkyRaw(PREVIEW_PX, SKY_TOP, SKY_BOTTOM, VariantPainter(kind, probe)), z)
    ensures png.Ok? <==> IsU32(|z.compress(SkyRaw(PREVIEW_PX, SKY_TOP, SKY_BOTTOM, VariantPainter(kind, probe)))|)
    ensures png.Ok? ==> Png.PngHeader(png.value) == Some(Png.Header(PREVIEW_PX, PREVIEW_PX, 8, 2, 0, 0, 0))
    ensures png.Err? ==> png.error == Png.ChunkTooLong
  {
    var raw := RenderVariant(kind, PREVIEW_PX, probe);
    png := Png.PngFromRaw(PREVIEW_PX, PREVIEW_PX, raw.value, z);
    if png.Ok? {
      Png.PngFromRawHeader(PREVIEW_PX, PREVIEW_PX, raw.value, z);
    }
  }
}
