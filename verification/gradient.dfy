/** The vertical background gradient every icon script paints first: row y gets
    `int(top + (bot - top) * t)` per channel with `t = y / (H - 1)`. */
module Gradient {
  import opened Bytes
  import opened Raster
  import opened Wrappers
  import Png

  /** Cyan (#07A4EA) and blue (#2563EB), the gradient ends most scripts use. */
  const SKY_TOP: Rgb := Rgb(7, 164, 234)
  const SKY_BOTTOM: Rgb := Rgb(37, 99, 235)

  predicate Between(v: int, a: int, b: int) {
    (a <= v <= b) || (b <= v <= a)
  }

  lemma MulGap(a: int, b: int, n: nat)
    ensures a < b ==> a * n + n <= b * n
  {
    if a < b {
      assert (b - a) * n >= n by {
        assert b - a >= 1;
      }
    }
  }

  lemma DivBounds(num: int, n: int, lo: int, hi: int)
    requires 0 < n && lo * n <= num <= hi * n
    ensures lo <= num / n <= hi
  {
    var q := num / n;
    assert num == q * n + num % n;
    MulGap(q, lo, n);
    MulGap(hi, q, n);
  }

  /** One channel of the gradient: `int(a + (b - a) * (y / n))`, computed on exact rationals
      (the numerator is never negative, so truncation toward zero is the floor). */
  function Lerp(a: byte, b: byte, y: nat, n: nat): (v: byte)
    requires 0 < n && y <= n
    ensures Between(v as int, a as int, b as int)
  {
    var lo := if a <= b then a as int else b as int;
    var hi := if a <= b then b as int else a as int;
    var num := a as int * (n - y) + b as int * y;
    assert lo * n <= num <= hi * n by {
      assert lo * (n - y) <= a as int * (n - y) <= hi * (n - y);
      assert lo * y <= b as int * y <= hi * y;
    }
    DivBounds(num, n, lo, hi);
    (num / n) as byte
  }

  /** `bg(y, H)`: the colour of row y of an H-row gradient. `H - 1` is the divisor, so an
      image one row high has no gradient (the scripts raise ZeroDivisionError there). */
  function Shade(top: Rgb, bot: Rgb, y: nat, h: nat): Rgb
    requires 2 <= h && y < h
  {
    Rgb(Lerp(top.r, bot.r, y, h - 1), Lerp(top.g, bot.g, y, h - 1), Lerp(top.b, bot.b, y, h - 1))
  }

  /** The row-background function a renderer hands to `Raster.Render`. */
  function Sky(top: Rgb, bot: Rgb, h: nat): int --> Rgb {
    y requires 2 <= h && 0 <= y < h => Shade(top, bot, y, h)
  }

  lemma SkyDefined(top: Rgb, bot: Rgb, h: nat)
    requires 2 <= h
    ensures forall y :: 0 <= y < h ==> Sky(top, bot, h).requires(y)
  {
  }

  /** The first row is exactly `top`, the last exactly `bot`, and every row in between has
      each channel between the two ends. */
  lemma ShadeEndpoints(top: Rgb, bot: Rgb, h: nat)
    requires 2 <= h
    ensures Shade(top, bot, 0, h) == top
    ensures Shade(top, bot, h - 1, h) == bot
    ensures forall y :: 0 <= y < h ==>
      && Between(Shade(top, bot, y, h).r as int, top.r as int, bot.r as int)
      && Between(Shade(top, bot, y, h).g as int, top.g as int, bot.g as int)
      && Between(Shade(top, bot, y, h).b as int, top.b as int, bot.b as int)
  {
    var n := h - 1;
    LerpExact(top.r, n); LerpExact(top.g, n); LerpExact(top.b, n);
    LerpExact(bot.r, n); LerpExact(bot.g, n); LerpExact(bot.b, n);
  }

  lemma LerpExact(a: byte, n: nat)
    requires 0 < n
    ensures (a as int * n) / n == a as int
  {
    DivBounds(a as int * n, n, a as int, a as int);
  }

  /** The sky gradient never produces a green-dominant colour: its blue channel stays at
      234 or 235, so no background pixel can be mistaken for the checkmark or selection
      green (52, 199, 89). */
  lemma SkyIsBlue(y: nat, h: nat)
    requires 2 <= h && y < h
    ensures 234 <= Shade(SKY_TOP, SKY_BOTTOM, y, h).b <= 235
  {
  }

  // ----- Rendering a square icon over the gradient -----

  /** `ZeroDivision`: `y / (H - 1)` with H == 1. `Encode`: the PNG encoder refused a field. */
  datatype RenderError = ZeroDivision | Encode(error: Png.PngError)

  /** Number of iterations of `range(px)`: none when px is zero or negative. */
  function Side(px: int): (n: nat)
    ensures px > 0 ==> n == px
    ensures px <= 0 ==> n == 0
  {
    if px <= 0 then 0 else px
  }

  /** The scanlines a px-by-px renderer hands to the encoder: `Side(px)` rows over the
      gradient from `top` to `bot`, painted with `paint`. */
  function SkyRaw(px: int, top: Rgb, bot: Rgb, paint: Painter): seq<byte>
    requires px != 1
  {
    Image(Side(px), Side(px), Sky(top, bot, Side(px)), paint)
  }

  /** Those scanlines are px rows with filter byte 0, and they decode to the picture the
      painter means over the gradient. */
  lemma SkyRawDecodes(px: int, top: Rgb, bot: Rgb, paint: Painter)
    requires px != 1
    ensures IsRaster(SkyRaw(px, top, bot, paint), Side(px), Side(px))
    ensures DecodeImage(SkyRaw(px, top, bot, paint), Side(px), Side(px))
         == Some(Grid(Side(px), Side(px), Sky(top, bot, Side(px)), paint))
  {
    var n := Side(px);
    ImageIsRaster(n, n, Sky(top, bot, n), paint);
    DecodeImageRoundTrip(n, n, Sky(top, bot, n), paint);
  }

  /** The rows-over-gradient loop of a px-by-px renderer, painted with `paint`: row y gets
      background `Shade(top, bot, y, px)` and the painter decides every pixel. The only
      failure is a one-row image, whose gradient divides by zero. */
  method RenderOnSky(px: int, top: Rgb, bot: Rgb, paint: Painter) returns (r: Result<seq<byte>, RenderError>)
    ensures r.Err? <==> px == 1
    ensures r.Err? ==> r.error == ZeroDivision
    ensures r.Ok? ==> r.value == SkyRaw(px, top, bot, paint)
    ensures r.Ok? ==> IsRaster(r.value, Side(px), Side(px))
    ensures r.Ok? ==> DecodeImage(r.value, Side(px), Side(px)) == Some(Grid(Side(px), Side(px), Sky(top, bot, Side(px)), paint))
  {
    if px == 1 {
      return Err(ZeroDivision);
    }
    var n := Side(px);
    var raw := Render(n, n, Sky(top, bot, n), paint);
    ImageIsRaster(n, n, Sky(top, bot, n), paint);
    DecodeImageRoundTrip(n, n, Sky(top, bot, n), paint);
    return Ok(raw);
  }

  /** `_png_from_raw(px, px, render(px))`: a px-by-px icon over the gradient, then its PNG.
      One pixel divides by zero in the gradient. Any other size is rendered; a side that
      does not fit the IHDR's 32-bit fields is then refused by the encoder, and so is
      compressed data too long for one chunk. Otherwise the PNG carries exactly the rendered
      scanlines. */
  method RenderPng(px: int, top: Rgb, bot: Rgb, paint: Painter, z: Png.Zlib)
    returns (r: Result<seq<byte>, RenderError>)
    ensures px == 1 ==> r == Err(ZeroDivision)
    ensures px != 1 && !IsU32(px) ==> r == Err(Encode(Png.FieldOutOfRange))
    ensures r.Ok? <==> px != 1 && IsU32(px) && IsU32(|z.compress(SkyRaw(px, top, bot, paint))|)
    ensures px != 1 && IsU32(px) && r.Err? ==> r.error == Encode(Png.ChunkTooLong)
    ensures r.Ok? ==> r.value == Png.PngFromRaw(px, px, SkyRaw(px, top, bot, paint), z).value
    ensures r.Ok? ==> Png.PngHeader(r.value) == Some(Png.Header(px, px, 8, 2, 0, 0, 0))
  {
    var raw := RenderOnSky(px, top, bot, paint);
    if raw.Err? {
      return Err(raw.error);
    }
    var png := Png.PngFromRaw(px, px, raw.value, z);
    if png.Err? {
      return Err(Encode(png.error));
    }
    Png.PngFromRawHeader(px, px, raw.value, z);
    return Ok(png.value);
  }
}
