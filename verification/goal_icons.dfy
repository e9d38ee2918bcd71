/** The hydration-goal icon: a white water drop (a circular cap joined to a triangular
    tail) with a green checkmark, over the sky gradient. Three scripts draw it with the
    same pixel rule: `make_master_icon_goal.py` at 1024 px with integer cap geometry,
    `render_icon_goal_size.py` and `_render_icon` of `prepare_app_icons_goal.py` at any
    size with floating-point geometry scaled from 1024. The floating-point tests enter as
    a per-pixel `DropSample`; the 1024 px cap and its edge shading are computed exactly. */
module GoalIcons {
  import opened Bytes
  import opened Wrappers
  import opened Raster
  import opened Gradient
  import opened Geometry
  import opened Numbers
  import Png

  const WHITE: Rgb := Rgb(255, 255, 255)
  /** System green #34C759, the checkmark. */
  const GREEN: Rgb := Rgb(52, 199, 89)

  /** What the geometry says about one pixel: inside the cap, inside the tail triangle,
      the edge-shade amount before it is clamped at 0 (present only where the pixel is in
      the cap and near its rim), and on the checkmark. */
  datatype DropSample = DropSample(inCap: bool, inTail: bool, shade: Option<int>, onCheck: bool)

  predicate InDrop(s: DropSample) {
    s.inCap || s.inTail
  }

  function Max0(v: int): int {
    if v < 0 then 0 else v
  }

  /** A white channel darkened by `max(0, shade)`, floored at 0: `max(0, 255 - shade)`. */
  function EdgeChannel(shade: int): byte {
    Max0(255 - Max0(shade)) as byte
  }

  /** The goal pixel rule: the gradient, replaced inside the drop by white, darkened near
      the cap's rim, and overwritten by green on the checkmark. */
  function GoalPixel(bg: Rgb, s: DropSample): Rgb {
    if !InDrop(s) then bg
    else
      var c := if s.inCap && s.shade.Some? then Rgb(EdgeChannel(s.shade.value), EdgeChannel(s.shade.value), EdgeChannel(s.shade.value))
               else WHITE;
      if s.onCheck then GREEN else c
  }

  /** Edge shading never brightens and never goes below 0: the channel is 255 exactly when
      the shade is not positive, 0 exactly when the shade reaches 255, and a larger shade
      gives a darker channel. */
  lemma EdgeChannelBounds(shade: int, more: int)
    requires shade <= more
    ensures EdgeChannel(shade) == 255 <==> shade <= 0
    ensures EdgeChannel(shade) == 0 <==> shade >= 255
    ensures EdgeChannel(more) <= EdgeChannel(shade)
  {
  }

  /** Outside the drop a pixel keeps its row's gradient colour; inside it the pixel is
      green on the checkmark and otherwise a grey (equal channels) no darker than the shade
      allows. */
  lemma GoalPixelRegions(bg: Rgb, s: DropSample)
    ensures !InDrop(s) ==> GoalPixel(bg, s) == bg
    ensures InDrop(s) && s.onCheck ==> GoalPixel(bg, s) == GREEN
    ensures InDrop(s) && !s.onCheck ==>
      var c := GoalPixel(bg, s);
      c.r == c.g == c.b && (c.r == 255 <==> !(s.inCap && s.shade.Some? && s.shade.value > 0))
  {
  }

  /** The checkmark colour appears only inside the drop: over a background that is not
      itself green, a pixel is green exactly when it is on the checkmark inside the drop. */
  lemma GoalGreenOnlyInDrop(bg: Rgb, s: DropSample)
    requires bg != GREEN
    ensures GoalPixel(bg, s) == GREEN <==> InDrop(s) && s.onCheck
  {
  }

  // ----- The 1024 px master (make_master_icon_goal.py) -----

  const MASTER_PX: nat := 1024
  /** Cap centre (W // 2, 430), radius 260, cut off below dy = int(260 * 0.35) = 91. */
  const CAP_CX: int := 512
  const CAP_CY: int := 430
  const CAP_R2: int := 67600
  const CAP_CUT: int := 91
  /** Edge shading applies where the squared-distance gap to the rim is below 2200. */
  const EDGE_BAND: int := 2200

  predicate InCap(x: int, y: int) {
    y - CAP_CY <= CAP_CUT && Dist2(x, y, CAP_CX, CAP_CY) <= CAP_R2
  }

  /** `abs(dx*dx + dy*dy - r2)`: how far the pixel is from the rim, in squared units. */
  function RimGap(x: int, y: int): nat {
    var d := Dist2(x, y, CAP_CX, CAP_CY) - CAP_R2;
    if d < 0 then -d else d
  }

  /** The integer shade `40 - d // 80` of a cap pixel near the rim (before `max(0, ...)`). */
  function MasterShade(x: int, y: int): Option<int> {
    if InCap(x, y) && RimGap(x, y) < EDGE_BAND then Some(40 - RimGap(x, y) / 80) else None
  }

  /** The floating-point parts of the master: the tail triangle (`inside_triangle`) and the
      checkmark (`inside_check`, distance to two segments). */
  datatype MasterProbe = MasterProbe(inTail: bool, onCheck: bool)

  function MasterSample(x: int, y: int, p: MasterProbe): DropSample {
    DropSample(InCap(x, y), p.inTail, MasterShade(x, y), p.onCheck)
  }

  /** In the 1024 px master the edge shade is between 13 and 40, so every drop pixel off the
      checkmark has equal channels in [215, 255], and it is below 255 exactly in the band
      near the cap's rim. */
  lemma MasterShadeRange(x: int, y: int, bg: Rgb, p: MasterProbe)
    requires InDrop(MasterSample(x, y, p)) && !p.onCheck
    ensures var c := GoalPixel(bg, MasterSample(x, y, p));
      && c.r == c.g == c.b
      && 215 <= c.r as int <= 255
      && (c.r < 255 <==> InCap(x, y) && RimGap(x, y) < EDGE_BAND)
  {
    if InCap(x, y) && RimGap(x, y) < EDGE_BAND {
      var g := RimGap(x, y);
      assert 0 <= g / 80 <= 27;
    }
  }

  function MasterPainter(probe: (int, int) -> MasterProbe): Painter {
    (x, y, bg) => GoalPixel(bg, MasterSample(x, y, probe(x, y)))
  }

  function SizedPainter(probe: (int, int) -> DropSample): Painter {
    (x, y, bg) => GoalPixel(bg, probe(x, y))
  }

  /** `draw_icon()` of the master: 1024 rows over the sky gradient. */
  method DrawMaster(probe: (int, int) -> MasterProbe) returns (raw: seq<byte>)
    ensures raw == SkyRaw(MASTER_PX, SKY_TOP, SKY_BOTTOM, MasterPainter(probe))
    ensures IsRaster(raw, MASTER_PX, MASTER_PX)
    ensures DecodeImage(raw, MASTER_PX, MASTER_PX)
         == Some(Grid(MASTER_PX, MASTER_PX, Sky(SKY_TOP, SKY_BOTTOM, MASTER_PX), MasterPainter(probe)))
  {
    var r := RenderOnSky(MASTER_PX, SKY_TOP, SKY_BOTTOM, MasterPainter(probe));
    raw := r.value;
  }

  /** `main()` of the master: the 1024x1024 PNG whose IDAT holds the drawn scanlines.
      Encoding fails only when the compressed data is too long for one chunk. */
  method MasterIcon(probe: (int, int) -> MasterProbe, z: Png.Zlib) returns (png: Result<seq<byte>, Png.PngError>)
    ensures png == Png.PngFromRaw(MASTER_PX, MASTER_PX, SkyRaw(MASTER_PX, SKY_TOP, SKY_BOTTOM, MasterPainter(probe)), z)
    ensures png.Ok? <==> IsU32(|z.compress(SkyRaw(MASTER_PX, SKY_TOP, SKY_BOTTOM, MasterPainter(probe)))|)
    ensures png.Ok? ==> Png.PngHeader(png.value) == Some(Png.Header(MASTER_PX, MASTER_PX, 8, 2, 0, 0, 0))
    ensures png.Err? ==> png.error == Png.ChunkTooLong
  {
    var raw := DrawMaster(probe);
    png := Png.PngFromRaw(MASTER_PX, MASTER_PX, raw, z);
    if png.Ok? {
      Png.PngFromRawHeader(MASTER_PX, MASTER_PX, raw, z);
    }
  }

  // ----- Any size (render_icon_goal_size.py, prepare_app_icons_goal.py) -----

  /** `render(px)`: px rows over the gradient painted by the goal rule; a one-pixel icon
      divides by zero in the gradient. */
  method RenderGoal(px: int, probe: (int, int) -> DropSample) returns (r: Result<seq<byte>, RenderError>)
    ensures r.Err? <==> px == 1
    ensures r.Err? ==> r.error == ZeroDivision
    ensures r.Ok? ==> r.value == SkyRaw(px, SKY_TOP, SKY_BOTTOM, SizedPainter(probe))
    ensures r.Ok? ==> IsRaster(r.value, Side(px), Side(px))
    ensures r.Ok? ==> DecodeImage(r.value, Side(px), Side(px)) == Some(Grid(Side(px), Side(px), Sky(SKY_TOP, SKY_BOTTOM, Side(px)), SizedPainter(probe)))
  {
    r := RenderOnSky(px, SKY_TOP, SKY_BOTTOM, SizedPainter(probe));
  }

  /** `_render_icon(px)`: the goal icon, rendered and encoded as a px-by-px PNG whose IDAT
      holds exactly the rendered scanlines. */
  method RenderIconPng(px: int, probe: (int, int) -> DropSample, z: Png.Zlib) returns (r: Result<seq<byte>, RenderError>)
    ensures px == 1 ==> r == Err(ZeroDivision)
    ensures px != 1 && !IsU32(px) ==> r == Err(Encode(Png.FieldOutOfRange))
    ensures r.Ok? <==> px != 1 && IsU32(px) && IsU32(|z.compress(SkyRaw(px, SKY_TOP, SKY_BOTTOM, SizedPainter(probe)))|)
    ensures px != 1 && IsU32(px) && r.Err? ==> r.error == Encode(Png.ChunkTooLong)
    ensures r.Ok? ==> r.value == Png.PngFromRaw(px, px, SkyRaw(px, SKY_TOP, SKY_BOTTOM, SizedPainter(probe)), z).value
    ensures r.Ok? ==> Png.PngHeader(r.value) == Some(Png.Header(px, px, 8, 2, 0, 0, 0))
  {
    r := RenderPng(px, SKY_TOP, SKY_BOTTOM, SizedPainter(probe), z);
  }

  /** How `render_icon_goal_size.py` ends: usage error (status 2), an argument that is not
      an integer, a failed render or encoding, or the PNG to write to the output path. */
  datatype GoalSizeOutcome =
    | Usage
    | NotAnInteger
    | Failed(error: RenderError)
    | Wrote(path: string, png: seq<byte>)

  function ExitStatus(o: GoalSizeOutcome): nat {
    match o
    case Usage => 2
    case Wrote(_, _) => 0
    case _ => 1
  }

  /** `main()`: needs the size and the output path after the program name; the size is
      `int(argv[1])`. */
  method GoalSizeMain(argv: seq<string>, probe: (int, int) -> DropSample, z: Png.Zlib) returns (o: GoalSizeOutcome)
    ensures |argv| < 3 <==> o == Usage
    ensures o == Usage ==> ExitStatus(o) == 2
    ensures |argv| >= 3 && ParseInt(argv[1]).None? <==> o == NotAnInteger
    ensures |argv| >= 3 && ParseInt(argv[1]).Some? ==>
      var px := ParseInt(argv[1]).value;
      && (o.Wrote? <==> px != 1 && IsU32(px) && IsU32(|z.compress(SkyRaw(px, SKY_TOP, SKY_BOTTOM, SizedPainter(probe)))|))
      && (o.Failed? ==> o.error == if px == 1 then ZeroDivision
                                   else if !IsU32(px) then Encode(Png.FieldOutOfRange)
                                   else Encode(Png.ChunkTooLong))
      && (o.Wrote? ==> o.png == Png.PngFromRaw(px, px, SkyRaw(px, SKY_TOP, SKY_BOTTOM, SizedPainter(probe)), z).value)
    ensures o.Wrote? ==>
      && o.path == argv[2]
      && ParseInt(argv[1]).Some? && ParseInt(argv[1]).value >= 0
      && Png.PngHeader(o.png)
         == Some(Png.Header(ParseInt(argv[1]).value, ParseInt(argv[1]).value, 8, 2, 0, 0, 0))
  {
    if |argv| < 3 {
      return Usage;
    }
    var px := ParseInt(argv[1]);
    if px.None? {
      return NotAnInteger;
    }
    var png := RenderIconPng(px.value, probe, z);
    if png.Err? {
      return Failed(png.error);
    }
    return Wrote(argv[2], png.value);
  }
}
