/** Raw image data of an 8-bit truecolour PNG without interlacing: `h` scanlines, each
    the filter-type byte 0 ("None", section 9.2 of the PNG specification) followed by three
    channel bytes per pixel. Every renderer in the icon scripts builds its buffer with the
    same nested loop: per row, fetch the row's background colour, then paint each pixel
    over it and append its three channels. That loop is `Render`; what differs between the
    scripts is only the painter. */
module Raster {
  import opened Bytes
  import opened Wrappers

  datatype Rgb = Rgb(r: byte, g: byte, b: byte)

  const FILTER_NONE: byte := 0

  /** Colour of pixel (x, y), given the background colour fetched for row y. */
  type Painter = (int, int, Rgb) -> Rgb

  /** Bytes per scanline: the filter byte and three channels per pixel. */
  function Stride(w: nat): nat {
    1 + 3 * w
  }

  /** Offset of row y's filter byte. */
  function RowStart(w: nat, y: nat): nat {
    y * Stride(w)
  }

  function PixelBytes(c: Rgb): seq<byte> {
    [c.r, c.g, c.b]
  }

  /** The channel bytes of pixels 0 .. n-1 of row y. */
  function RowPixels(n: nat, y: int, bg: Rgb, paint: Painter): (s: seq<byte>)
    ensures |s| == 3 * n
  {
    if n == 0 then [] else RowPixels(n - 1, y, bg, paint) + PixelBytes(paint(n - 1, y, bg))
  }

  /** One scanline: filter byte 0, then the row's pixels. */
  function Scanline(w: nat, y: int, bg: Rgb, paint: Painter): (s: seq<byte>)
    ensures |s| == Stride(w) && s[0] == FILTER_NONE
  {
    [FILTER_NONE] + RowPixels(w, y, bg, paint)
  }

  /** Rows 0 .. h-1, concatenated (`b"".join(rows)`). */
  function Image(w: nat, h: nat, background: int --> Rgb, paint: Painter): (s: seq<byte>)
    requires forall y :: 0 <= y < h ==> background.requires(y)
    ensures |s| == h * Stride(w)
  {
    if h == 0 then []
    else
      var s := Image(w, h - 1, background, paint) + Scanline(w, h - 1, background(h - 1), paint);
      assert |s| == (h - 1) * Stride(w) + Stride(w);
      s
  }

  function Join(rows: seq<seq<byte>>): seq<byte> {
    if rows == [] then [] else Join(rows[..|rows| - 1]) + rows[|rows| - 1]
  }

  /** The nested row/pixel loop every renderer runs: `for y in range(H)`, a row starting
      with the filter byte 0, the row's background colour, `for x in range(W)` appending
      the painted pixel, and finally `b"".join(rows)`. */
  method Render(w: nat, h: nat, background: int --> Rgb, paint: Painter) returns (raw: seq<byte>)
    requires forall y :: 0 <= y < h ==> background.requires(y)
    ensures raw == Image(w, h, background, paint)
  {
    var rows: seq<seq<byte>> := [];
    var y := 0;
    while y < h
      invariant 0 <= y <= h
      invariant Join(rows) == Image(w, y, background, paint)
    {
      var row := [FILTER_NONE];
      var bg := background(y);
      var x := 0;
      while x < w
        invariant 0 <= x <= w
        invariant row == [FILTER_NONE] + RowPixels(x, y, bg, paint)
      {
        var c := paint(x, y, bg);
        row := row + [c.r, c.g, c.b];
        x := x + 1;
      }
      assert (rows + [row])[..|rows|] == rows;
      rows := rows + [row];
      y := y + 1;
    }
    raw := Join(rows);
  }

  // ----- Shape of the buffer -----

  /** The shape every renderer promises: `h` rows of `Stride(w)` bytes, each starting with
      filter type 0. */
  predicate IsRaster(raw: seq<byte>, w: nat, h: nat) {
    && |raw| == h * Stride(w)
    && forall y: nat :: y < h ==> raw[RowStart(w, y)] == FILTER_NONE
  }

  lemma MulLeq(a: nat, b: nat, k: nat)
    requires a <= b
    ensures a * k <= b * k
  {
  }

  /** Row y of the image is exactly scanline y. */
  lemma {:induction false} ImageRowAt(w: nat, h: nat, background: int --> Rgb, paint: Painter, y: nat)
    requires forall y :: 0 <= y < h ==> background.requires(y)
    requires y < h
    ensures RowStart(w, y) + Stride(w) <= |Image(w, h, background, paint)|
    ensures Image(w, h, background, paint)[RowStart(w, y)..RowStart(w, y) + Stride(w)]
         == Scanline(w, y, background(y), paint)
  {
    var prev := Image(w, h - 1, background, paint);
    var line := Scanline(w, h - 1, background(h - 1), paint);
    assert Image(w, h, background, paint) == prev + line;
    assert RowStart(w, y) + Stride(w) == (y + 1) * Stride(w);
    MulLeq(y + 1, h, Stride(w));
    if y < h - 1 {
      ImageRowAt(w, h - 1, background, paint, y);
      MulLeq(y + 1, h - 1, Stride(w));
    } else {
      assert RowStart(w, y) == |prev|;
    }
  }

  /** Every rendered image has the raster shape. */
  lemma ImageIsRaster(w: nat, h: nat, background: int --> Rgb, paint: Painter)
    requires forall y :: 0 <= y < h ==> background.requires(y)
    ensures IsRaster(Image(w, h, background, paint), w, h)
  {
    var raw := Image(w, h, background, paint);
    forall y: nat | y < h
      ensures raw[RowStart(w, y)] == FILTER_NONE
    {
      ImageRowAt(w, h, background, paint, y);
      assert raw[RowStart(w, y)] == raw[RowStart(w, y)..RowStart(w, y) + Stride(w)][0];
    }
  }

  // ----- Decoding: the partner of the encoder -----

  /** Splits channel bytes into pixels. */
  function DecodePixels(s: seq<byte>): Option<seq<Rgb>>
    decreases |s|
  {
    if s == [] then Some([])
    else if |s| < 3 then None
    else
      var n := |s|;
      match DecodePixels(s[..n - 3])
      case None => None
      case Some(ps) => Some(ps + [Rgb(s[n - 3], s[n - 2], s[n - 1])])
  }

  /** Undoes filter type 0 on one scanline; other filter types are not produced here. */
  function DecodeScanline(s: seq<byte>): Option<seq<Rgb>> {
    if s == [] || s[0] != FILTER_NONE then None else DecodePixels(s[1..])
  }

  /** The bytes of scanline y of raw data of width `w` (empty when the data is too short). */
  function RowOf(raw: seq<byte>, w: nat, y: nat): seq<byte> {
    if RowStart(w, y) + Stride(w) <= |raw| then raw[RowStart(w, y)..RowStart(w, y) + Stride(w)] else []
  }

  /** Splits raw image data of width `w` and height `h` (as the IHDR chunk gives them) into
      rows of pixels: the length must be exactly `h` scanlines, and every scanline must
      decode. */
  function DecodeImage(raw: seq<byte>, w: nat, h: nat): Option<seq<seq<Rgb>>> {
    if |raw| != h * Stride(w) then None
    else if forall y: nat | y < h :: DecodeScanline(RowOf(raw, w, y)).Some? then
      Some(seq(h, (y: int) requires 0 <= y < h => DecodeScanline(RowOf(raw, w, y)).value))
    else None
  }

  /** The pixels of row y, as painted over background `bg`. */
  function Row(w: nat, y: int, bg: Rgb, paint: Painter): (r: seq<Rgb>)
    ensures |r| == w && forall x :: 0 <= x < w ==> r[x] == paint(x, y, bg)
  {
    seq(w, x => paint(x, y, bg))
  }

  /** The picture a renderer means: row y is painted over `background(y)`. */
  function Grid(w: nat, h: nat, background: int --> Rgb, paint: Painter): (g: seq<seq<Rgb>>)
    requires forall y :: 0 <= y < h ==> background.requires(y)
    ensures |g| == h && forall y :: 0 <= y < h ==> g[y] == Row(w, y, background(y), paint)
  {
    seq(h, y requires 0 <= y < h && background.requires(y) => Row(w, y, background(y), paint))
  }

  lemma {:induction false} DecodeRowPixels(n: nat, y: int, bg: Rgb, paint: Painter)
    ensures DecodePixels(RowPixels(n, y, bg, paint)) == Some(Row(n, y, bg, paint))
  {
    if n == 0 {
      assert Row(0, y, bg, paint) == [];
    } else {
      var s := RowPixels(n, y, bg, paint);
      var c := paint(n - 1, y, bg);
      DecodeRowPixels(n - 1, y, bg, paint);
      assert s == RowPixels(n - 1, y, bg, paint) + PixelBytes(c);
      assert s[..|s| - 3] == RowPixels(n - 1, y, bg, paint);
      assert s[|s| - 3] == c.r && s[|s| - 2] == c.g && s[|s| - 1] == c.b;
      assert Row(n, y, bg, paint) == Row(n - 1, y, bg, paint) + [Rgb(c.r, c.g, c.b)];
    }
  }

  /** A scanline decodes to the row it was painted from. */
  lemma ScanlineDecodes(w: nat, y: int, bg: Rgb, paint: Painter)
    ensures DecodeScanline(Scanline(w, y, bg, paint)) == Some(Row(w, y, bg, paint))
  {
    DecodeRowPixels(w, y, bg, paint);
    assert Scanline(w, y, bg, paint)[1..] == RowPixels(w, y, bg, paint);
  }

  /** Decoding a rendered image gives back the picture: every row had filter byte 0 and
      exactly `w` pixels, and every pixel is the one painted. */
  lemma DecodeImageRoundTrip(w: nat, h: nat, background: int --> Rgb, paint: Painter)
    requires forall y :: 0 <= y < h ==> background.requires(y)
    ensures DecodeImage(Image(w, h, background, paint), w, h) == Some(Grid(w, h, background, paint))
  {
    var raw := Image(w, h, background, paint);
    var g := Grid(w, h, background, paint);
    forall y: nat | y < h
      ensures DecodeScanline(RowOf(raw, w, y)).Some? && DecodeScanline(RowOf(raw, w, y)).value == g[y]
    {
      ImageRowAt(w, h, background, paint, y);
      ScanlineDecodes(w, y, background(y), paint);
    }
    var rows := seq(h, (y: int) requires 0 <= y < h => DecodeScanline(RowOf(raw, w, y)).value);
    assert rows == g;
  }
}
