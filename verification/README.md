# Icon pipeline and interpreter bridge of the notes app, in Dafny

This project models two parts of the notes app. They share no code.

**The native bridge that embeds CPython** (`NotesApp/PythonBridge.c`) is modelled as the class
`Bridge.PyBridge`. The class has these parts:

- the `g_initialized` latch;
- the process environment, `sys.path`, and the objects bound to `sys.stdout` and `sys.stderr`;
- the caller's `char*` and `int*` out-parameters, as the small classes `StrSlot` and `IntSlot`;
- the buffers the bridge has handed out and not yet freed.

CPython is an oracle record, `Python`. It says which C-API calls succeed, whether the runtime
starts, which files exist, and what running a piece of code raises and prints. The model
contains:

- `set_error`, with the bounded `memcpy` into the caller's buffer;
- `dup_pystring`;
- the `sys.path` priming script, with its loop;
- `pybridge_initialize`;
- the whole of `pybridge_run`: automatic initialisation, the setup steps that jump to `done`,
  running the code in a fresh globals dictionary, collecting the capture buffers and restoring
  the sinks;
- `pybridge_free`.

**The asset-catalog icon scripts** (`scripts/*.py`) are modelled in several modules. Every
script carries a copy of the same PNG serializer: the signature, chunks with a big-endian
length and a CRC-32, an IHDR for 8-bit truecolour, one IDAT with the zlib stream and an empty
IEND. That serializer is `Png.PngFromRaw`. zlib's `compress` and `crc32` are uninterpreted
function parameters. A chunk parser is the partner of the serializer: the model proves that
every PNG the serializer builds parses back to its three chunks with the requested header.

Every renderer builds its raw image data with the same nested loop. That loop is
`Raster.Render`, a method with loop invariants. It emits one row per `y`: the filter byte 0,
then three channel bytes per pixel, painted over the row's gradient colour. A non-recursive
decoder, `Raster.DecodeImage`, is its partner: decoding a rendered buffer gives back the
picture the painter means.

The pixel rules are modelled one script at a time:

- the integer rounded-rectangle test `in_round_rect`, proved equal to a reference definition;
- the card, list and bubble previews;
- the water-drop master icons and their previews;
- the goal icons.

The manifest rewrite in the scripts' `main` is `Manifest.UpdateManifest`. It is a loop over an
array of entries, proved against the specification function `Manifest.Rewrite`. The loop
skips some entries, assigns a filename and pixel size to the others, and tracks the `changed`
flag. The five scripts that rewrite Contents.json differ only in their naming `Policy`.

Where the code and the behaviour described for the bridge differ, the model follows the code:

- A failed initialisation leaves the latch clear, so every later `pybridge_run` attempts
  initialisation again. It is not reported once and then remembered.
- A sink that was unbound when the run started stays bound to the capture buffer afterwards.
  The code does not restore it.

## Model

| member | source | states |
|---|---|---|
| Bytes.BE32 | scripts/prepare_app_icons_quiz_list.py:25 | the four big-endian bytes of a 32-bit value decode back to that value |
| Bytes.BE32OfDecode | scripts/prepare_app_icons_quiz_list.py:25 | conversely, every four-byte string is the encoding of the number it decodes to |
| Png.ChunkCrc | scripts/gen_app_icons.py:19 | the CRC masked with 0xffffffff always fits the 32-bit CRC field |
| Png.Chunk | scripts/gen_app_icons.py:18-19 | a chunk is built exactly when the data length fits 32 bits; it is 12 + \|data\| bytes and its length prefix decodes to \|data\| |
| Png.ParseChunkOfChunk | scripts/prepare_app_icons_goal.py:22-28 | a built chunk is read back whole (tag, data, CRC of tag and data), with whatever follows left over |
| Png.ParseChunksOfChunk | scripts/prepare_app_icons_quiz_bubble.py:22-28 | a built chunk in front of any byte string parses to its record in front of whatever the rest parses to |
| Png.IhdrPayload | scripts/prepare_app_icons_goal.py:32-34 | the IHDR payload is 13 bytes |
| Png.IhdrRoundTrip | scripts/prepare_app_icons_quiz_bubble.py:32-34 | the IHDR payload decodes to (w, h, 8, 2, 0, 0, 0) |
| Png.PngFromRaw | scripts/prepare_app_icons_quiz_list.py:28-31 | encoding fails with a field error exactly when w or h is not an unsigned 32-bit value, otherwise exactly when the compressed data is too long; a PNG is 57 + \|compressed\| bytes and starts with the signature |
| Png.PngFromRawParses | scripts/render_icon_variants.py:20-25 | a PNG parses back to exactly IHDR, IDAT (the compressed scanlines) and an empty IEND, in that order, each with a matching CRC |
| Png.ParseThreeChunks | scripts/render_quiz_icon_variants.py:17-22 | the signature followed by any three built chunks parses back to the three records |
| Png.PngFromRawLayout | scripts/make_master_icon.py:83-88 | a PNG is the signature, then the IHDR, IDAT and IEND chunks |
| Png.ParsePngAfterSignature | scripts/make_master_icon_goal.py:120 | after the signature, the PNG is read as a sequence of chunks |
| Png.PngFromRawHeader | scripts/render_icon_goal_size.py:11-17 | a PNG announces the requested width and height, 8-bit truecolour, compression 0, filter 0 and no interlacing |
| Numbers.IndexOf | scripts/gen_app_icons.py:14 | `split('x')[0]` ends at the first 'x' |
| Numbers.ParseInt | scripts/gen_app_icons.py:15 | `int(s)` succeeds only on non-empty text (see ParseShowInt for its values) |
| Numbers.ParseShowInt | scripts/gen_app_icons.py:15 | `int()` reads every printed integer back as that integer |
| Numbers.ParseFloatOfInt | scripts/gen_app_icons.py:14 | `int(float(s))` of a whole number, with or without a fractional part, is that number: the fraction is truncated |
| Manifest.Without | scripts/gen_app_icons.py:54 | `replace(c, '')` leaves no c behind and never lengthens the text |
| Manifest.PxFromExamples | scripts/gen_app_icons.py:13-16 | ("20x20", "3x") gives 60 and ("83.5x83.5", "2x") gives 166 |
| Manifest.PxFromShown | scripts/prepare_app_icons_quiz_bubble.py:16-19 | for any size "n" or "n.f" repeated around an 'x' and any scale "k" followed by 'x', `px_from` is n times k |
| Manifest.Rewrite | scripts/prepare_app_icons_goal.py:130-149 | the loop never adds or removes entries |
| Manifest.Step | scripts/prepare_app_icons_quiz_bubble.py:130-149 | one iteration handles exactly one entry |
| Manifest.UpdateManifest | scripts/gen_app_icons.py:41-61 | the in-place loop leaves the entries, `changed`, the PNGs produced and the outcome exactly as `Rewrite` says, including after an exception |
| Manifest.RewriteAfterCrash | scripts/prepare_app_icons_goal.py:142-146 | once an entry raises, every later entry is left as it was |
| Manifest.RewriteOnlyFilenames | scripts/gen_app_icons.py:45-61 | the loop changes nothing but `filename`, and a skipped entry (no size or scale) is left exactly as it was |
| Manifest.RewriteChangedIff | scripts/gen_app_icons.py:59-63 | `changed` is true exactly when some entry comes out different from how it went in |
| Manifest.RewriteAssigns | scripts/prepare_app_icons_quiz_list.py:133-135 | after a complete run, every entry that was not skipped carries its chosen filename |
| Manifest.RewriteKeepsNamed | scripts/prepare_app_icons_quiz_bubble.py:136-149 | with a planner that keeps existing names, an entry that already has a name comes out unchanged |
| Manifest.RewriteIdempotent | scripts/prepare_app_icons_goal.py:147-151 | with a stable planner, a second run over the first run's output plans the same PNGs and sets `changed` to false, so Contents.json is not written again |
| Manifest.PlanKeepsGivenNames | scripts/prepare_app_icons_from_master.py:38-44 | a script that uses `item.get('filename') or ...` never replaces a non-empty filename |
| Manifest.PlanIgnoresOldName | scripts/prepare_app_icons_quiz_list.py:122-128 | the quiz-list script's filename and size depend only on the idiom, size and scale, not on the old filename |
| Manifest.ChosenNonEmpty | scripts/gen_app_icons.py:48-54 | a chosen filename is never empty |
| Manifest.PlanStable | scripts/prepare_app_icons_quiz_list.py:116-135 | every script's planner makes the same decision again once the chosen filename is recorded |
| Manifest.DerivedNameNoSpaces | scripts/prepare_app_icons_quiz_bubble.py:141 | a derived filename contains no space |
| Manifest.RunScript | scripts/gen_app_icons.py:35-63 | `main` exits exactly when Contents.json is missing; otherwise it finishes exactly when the loop does, and it writes Contents.json, holding the rewritten entries, exactly when `changed` |
| Manifest.FromMaster | scripts/prepare_app_icons_from_master.py:18-54 | the master is `APP_ICON_MASTER` or `branding/app_icon_1024.png`; a missing master ends the script before Contents.json is looked at, and a missing Contents.json ends it next; once both exist the run completes exactly when `Rewrite` does, resizes exactly `Rewrite`'s jobs, writes Contents.json exactly when `changed` and then writes `Rewrite`'s entries, and an abort names the entry that raised |
| Raster.Scanline | scripts/prepare_app_icons_quiz_list.py:72-106 | a row is 1 + 3w bytes and starts with filter type 0 |
| Raster.Image | scripts/prepare_app_icons_quiz_list.py:107 | the joined rows are h (1 + 3w) bytes |
| Raster.Render | scripts/prepare_app_icons_quiz_list.py:71-107 | the nested row and pixel loop builds exactly `Image`: h scanlines, each pixel painted over its row's background |
| Raster.ImageRowAt | scripts/prepare_app_icons_quiz_bubble.py:95-121 | bytes RowStart(y) .. RowStart(y) + 1 + 3w of the buffer are exactly scanline y |
| Raster.ImageIsRaster | scripts/make_master_icon_goal.py:84-113 | the buffer is h rows of 1 + 3w bytes, each starting with filter byte 0 |
| Raster.DecodeImageRoundTrip | scripts/make_master_icon.py:57-81 | decoding a rendered buffer gives back, row by row and pixel by pixel, the picture that was painted |
| Gradient.Lerp | scripts/make_master_icon_goal.py:17-18 | a gradient channel lies between the two end colours |
| Gradient.ShadeEndpoints | scripts/render_quiz_icon_variants.py:25-33 | row 0 is exactly the top colour, row H - 1 exactly the bottom colour, and every row lies between them channel by channel |
| Gradient.SkyIsBlue | scripts/prepare_app_icons_quiz_bubble.py:39-47 | the cyan-to-blue gradient has blue 234 or 235 in every row, so it never equals any of the icons' greens or greys |
| Gradient.Side | scripts/prepare_app_icons_quiz_list.py:71 | `range(px)` runs px times when px is positive and never otherwise |
| Gradient.RenderOnSky | scripts/render_icon_goal_size.py:19-98 | a px-sized render fails with ZeroDivisionError exactly when px is 1; otherwise it returns exactly `SkyRaw`: px rows of 1 + 3px bytes that decode to the painter's picture over the gradient |
| Geometry.ClampNearest | scripts/prepare_app_icons_quiz_list.py:47-48 | the clamp is the nearest point of the interval |
| Geometry.InRoundRectIffNear | scripts/render_quiz_icon_variants.py:36-42 | when the radius fits, the clamp test holds exactly for points within distance r of the inner rectangle |
| Geometry.InnerRectInside | scripts/prepare_app_icons_quiz_list.py:45-50 | every point of the inner rectangle is inside |
| Geometry.NearInnerPointInside | scripts/prepare_app_icons_quiz_bubble.py:50-54 | a point within distance r of some inner-rectangle point is inside |
| Geometry.InRoundRectBounded | scripts/prepare_app_icons_quiz_bubble.py:50-54 | when the radius fits, an inside point lies in the bounding box [rx, rx+rw] x [ry, ry+rh] |
| AppIcons.Repeat | scripts/gen_app_icons.py:24-25 | `s * n` has n \|s\| elements, none when n is not positive |
| AppIcons.SolidRawIsImage | scripts/gen_app_icons.py:21-25 | the repeated row is the generic renderer's image of a one-colour painter |
| AppIcons.SolidRawDecodes | scripts/gen_app_icons.py:21-25 | the solid raw data is h (3w + 1) bytes with filter byte 0 on every row, and it decodes to an h-by-w picture of the one colour |
| AppIcons.SolidPngShape | scripts/gen_app_icons.py:21-33 | the solid icon is produced exactly when px and the compressed size fit 32 bits; a negative px is a field error; otherwise the PNG has three chunks and a px-by-px header |
| Gradient.SkyRawDecodes | scripts/prepare_app_icons_quiz_list.py:53-107 | the scanlines a renderer hands to the encoder are px rows starting with filter byte 0, and they decode to the painter's picture over the gradient |
| Gradient.RenderPng | scripts/prepare_app_icons_quiz_list.py:131 | rendering then encoding raises ZeroDivisionError exactly at one pixel; any other size outside 32 bits is refused as a field error and an over-long IDAT as a chunk error; it succeeds exactly when neither happens, and the PNG is then the encoding of the rendered scanlines with a px-by-px header |
| AppIcons.PaintListPixel | scripts/prepare_app_icons_quiz_list.py:75-105 | the card branch of the pixel body, with its `for i in range(4)` loop, computes `ListPixel` |
| AppIcons.OptionsUnrolled | scripts/prepare_app_icons_quiz_list.py:84-104 | the four answers are painted in order 0, 1, 2, 3 |
| AppIcons.ListPalette | scripts/prepare_app_icons_quiz_list.py:74-105 | outside the card a pixel keeps its gradient colour; inside, it is white, border, green or one of the two greys |
| AppIcons.ListGreenIff | scripts/prepare_app_icons_quiz_list.py:84-104 | a pixel is green exactly when it is in the card, on answer 1's dot and not under answer 1's pill or anything of answers 2 and 3 |
| AppIcons.ListLastPillWins | scripts/prepare_app_icons_quiz_list.py:96-104 | a card pixel on the last answer's pill is light grey whatever else covers it |
| AppIcons.ListIconPng | scripts/prepare_app_icons_quiz_list.py:131 | the quiz-list icon raises exactly at one pixel, is refused for a size outside 32 bits or an over-long IDAT, succeeds otherwise, and is then the PNG of the `_render_list` scanlines with a px-by-px header |
| AppIcons.BubbleRegions | scripts/prepare_app_icons_quiz_bubble.py:99-118 | outside the bubble a pixel keeps its gradient colour; inside it is brand blue exactly on the question mark and white elsewhere |
| AppIcons.BubbleIconPng | scripts/prepare_app_icons_quiz_bubble.py:145 | the quiz-bubble icon raises exactly at one pixel, is refused for a size outside 32 bits or an over-long IDAT, succeeds otherwise, and is then the PNG of the `_render_bubble` scanlines with a px-by-px header |
| QuizPreviews.CardsOutsideKeepsGradient | scripts/render_quiz_icon_variants.py:55-87 | outside [24, 176] x [30, 130] a cards pixel keeps its gradient colour |
| QuizPreviews.CardsSelectedDot | scripts/render_quiz_icon_variants.py:67-86 | over the sky, a cards pixel is green exactly in the radius-5 dot of the middle line (front y + 52) |
| QuizPreviews.CardsSelectedPill | scripts/render_quiz_icon_variants.py:78-86 | over the sky, a cards pixel is grey 210 exactly on the middle line's pill |
| QuizPreviews.ListOutsideKeepsGradient | scripts/render_quiz_icon_variants.py:158-162 | outside the card's box a list pixel keeps its gradient colour |
| QuizPreviews.ListSelectedDot | scripts/render_quiz_icon_variants.py:164-175 | over the sky, a list pixel is green exactly in answer 1's radius-5 dot |
| QuizPreviews.ListUnselectedDots | scripts/render_quiz_icon_variants.py:164-175 | answers 0, 2 and 3 have radius-4 dots of grey (210, 215, 230) |
| QuizPreviews.BubbleMarkIsBlue | scripts/render_quiz_icon_variants.py:130-145 | the question mark's stem and dot lie inside the bubble and are brand blue |
| QuizPreviews.DotInsideBubble | scripts/render_quiz_icon_variants.py:128-144 | the question mark's dot lies inside the rounded bubble |
| QuizPreviews.BubbleOutsideKeepsGradient | scripts/render_quiz_icon_variants.py:127-131 | outside the bubble's box and off the tail a pixel keeps its gradient colour |
| QuizPreviews.DrawPreview | scripts/render_quiz_icon_variants.py:52-88 | a preview is 180 rows of 541 bytes that decode to the painted picture over the gradient |
| QuizPreviews.DrawCards | scripts/render_quiz_icon_variants.py:45-89 | `draw_cards` is 180 rows that decode to the cards picture |
| QuizPreviews.DrawBubble | scripts/render_quiz_icon_variants.py:92-148 | `draw_bubble_q` is 180 rows that decode to the bubble picture |
| QuizPreviews.DrawList | scripts/render_quiz_icon_variants.py:151-184 | `draw_list` is 180 rows that decode to the list picture |
| QuizPreviews.ListPreviewSelection | scripts/render_quiz_icon_variants.py:151-184 | in the rendered list preview, a pixel is green exactly in the selected dot |
| QuizPreviews.CardsPreviewSelection | scripts/render_quiz_icon_variants.py:45-89 | in the rendered cards preview, a pixel is green exactly in the middle line's dot |
| QuizPreviews.Previews | scripts/render_quiz_icon_variants.py:187-195 | each of the three previews is exactly the PNG encoding of its drawn scanlines; it is produced exactly when its compressed data fits a chunk, and then has a 180x180 header |
| DropVariants.BrightenBounds | scripts/make_master_icon.py:76-78 | the highlight never darkens a channel, brightens every channel below 255, and caps at 255 from 214 upward |
| DropVariants.MasterPixelRegions | scripts/make_master_icon.py:64-78 | drop pixels are exactly white, pixels outside the drop and the highlight keep their gradient colour, and no channel is darkened |
| DropVariants.HighlightCentreInDrop | scripts/make_master_icon.py:55 | the highlight centre (382, 280) lies inside the drop's cap |
| DropVariants.DrawMasterIcon | scripts/make_master_icon.py:43-81 | `draw_icon` is 1024 rows that decode to the master picture |
| DropVariants.MasterGradientEnds | scripts/make_master_icon.py:18-23 | the master gradient starts exactly at (14, 165, 233) and ends exactly at (37, 99, 235) |
| DropVariants.MasterIconPng | scripts/make_master_icon.py:83-94 | the master PNG is exactly the encoding of the drawn scanlines; it is produced exactly when the compressed data fits a chunk, fails otherwise only on the over-long IDAT, and has a 1024x1024 truecolour header |
| DropVariants.BoostBounds | scripts/render_icon_variants.py:79-83 | the target rings never darken a channel |
| DropVariants.RingIsWhite | scripts/render_icon_variants.py:102-110 | the ring overlay is drawn last, so ring pixels are white even across the drop |
| DropVariants.DropKindTwoTone | scripts/render_icon_variants.py:85-100 | for "drop", a pixel is its gradient colour outside the drop and a grey with equal channels inside it |
| DropVariants.TargetOnlyBrightens | scripts/render_icon_variants.py:74-83 | for "target", a background pixel is never darker than its gradient colour |
| DropVariants.RenderVariant | scripts/render_icon_variants.py:57-114 | `render_variant` raises exactly at one pixel, and otherwise is px rows that decode to the variant's picture |
| DropVariants.VariantPng | scripts/render_icon_variants.py:117-120 | a variant PNG is exactly the encoding of the 180 px rendered scanlines; it is produced exactly when the compressed data fits a chunk, fails otherwise only on the over-long IDAT, and has a 180x180 header |
| GoalIcons.EdgeChannelBounds | scripts/render_icon_goal_size.py:87-93 | the shaded channel is 255 exactly when the shade is not positive, 0 exactly when it reaches 255, and never brighter for a larger shade |
| GoalIcons.GoalPixelRegions | scripts/prepare_app_icons_goal.py:100-118 | outside the drop a pixel keeps its gradient colour; on the checkmark inside it is green; elsewhere in the drop it is a grey, below 255 exactly where a positive shade applies |
| GoalIcons.GoalGreenOnlyInDrop | scripts/make_master_icon_goal.py:94-110 | over a non-green background, a pixel is green exactly on the checkmark inside the drop |
| GoalIcons.MasterShadeRange | scripts/make_master_icon_goal.py:100-106 | in the 1024 px master every drop pixel off the checkmark has equal channels in [215, 255], below 255 exactly in the rim band |
| GoalIcons.DrawMaster | scripts/make_master_icon_goal.py:73-113 | `draw_icon` is the goal picture's scanlines over the sky (`SkyRaw`), 1024 rows that decode to that picture |
| GoalIcons.MasterIcon | scripts/make_master_icon_goal.py:122-126 | the master PNG is `PngFromRaw(1024, 1024, ...)` of the drawn scanlines, produced exactly when its IDAT fits (otherwise the chunk-length error), with a 1024x1024 truecolour header |
| GoalIcons.RenderGoal | scripts/render_icon_goal_size.py:19-98 | `render(px)` raises exactly at one pixel, and otherwise is px rows that decode to the goal picture |
| GoalIcons.RenderIconPng | scripts/prepare_app_icons_goal.py:39-121 | `_render_icon(px)` raises exactly at one pixel, is refused for a size outside 32 bits or an over-long IDAT, succeeds otherwise, and then is the PNG of the rendered scanlines whose header width and height are both px |
| GoalIcons.GoalSizeMain | scripts/render_icon_goal_size.py:100-110 | fewer than two arguments exit with status 2; a size that is not an integer stops the script; for an integer size the PNG is written exactly when rendering and encoding succeed, with the failure reported otherwise; the PNG goes to argv[2], holds the rendered scanlines, and has width and height int(argv[1]) |
| Bridge.Strlen | NotesApp/PythonBridge.c:11 | `strlen` is the index of the first NUL |
| Bridge.Truncated | NotesApp/PythonBridge.c:11-12 | the readable message is a prefix of the message shorter than the buffer, and the whole message when it fits |
| Bridge.CopyChars | NotesApp/PythonBridge.c:13 | `memcpy` writes the first n characters and nothing after them |
| Bridge.SetError | NotesApp/PythonBridge.c:9-15 | nothing is written for a NULL buffer or zero length; otherwise `strlen(msg)` characters cut to len - 1, a NUL, and nothing past the NUL, so the buffer reads back as the cut message |
| Bridge.ReadBack | NotesApp/PythonBridge.c:14 | reading the buffer as a C string gives the cut message back |
| Bridge.MessagesFit | NotesApp/PythonBridge.c:72-79 | both initialisation messages fit the 128-byte buffer of `pybridge_run` whole |
| Bridge.PathJoin | NotesApp/PythonBridge.c:43-44 | `os.path.join` gives the directory followed by the name, with at most one separator between them, so the path ends with the name |
| Bridge.Candidates | NotesApp/PythonBridge.c:41-44 | there are archive candidates exactly when the resource directory is non-empty, and never more than two |
| Bridge.PrimedExtends | NotesApp/PythonBridge.c:45-47 | priming only puts entries in front of the old path |
| Bridge.PrimedMembers | NotesApp/PythonBridge.c:45-47 | after priming the path holds exactly the old entries and the candidates that exist |
| Bridge.PrimedNoDuplicates | NotesApp/PythonBridge.c:46 | priming never introduces a duplicate entry |
| Bridge.PrimedIdempotent | NotesApp/PythonBridge.c:39-47 | priming a second time changes nothing |
| Bridge.PrimedNoOp | NotesApp/PythonBridge.c:46-47 | a path that already holds every existing candidate is left alone |
| Bridge.BothArchives | NotesApp/PythonBridge.c:43-47 | with both archives new and present, `stdlib.zip` ends up first and `python-stdlib.zip` second |
| Bridge.WithResourceDir | NotesApp/PythonBridge.c:21-23 | the variable is set only for a non-empty directory, and no other variable changes |
| Bridge.RunCode | NotesApp/PythonBridge.c:93-120 | the return code is 0, -1 or a setup code; -1 exactly when setup succeeded and the code raised |
| Bridge.SetupCode | NotesApp/PythonBridge.c:95-105 | the setup code is 0 or one of -10 .. -13 |
| Bridge.PyBridge.PrimeSysPath | NotesApp/PythonBridge.c:39-47 | the priming loop leaves `sys.path` as `Primed` says |
| Bridge.PyBridge.Initialize | NotesApp/PythonBridge.c:17-56 | once latched it returns 0 and changes nothing; otherwise it sets the environment variable, returns -1 or -2 on failure with the message in errbuf (errbuf untouched when its length is 0, nothing written past the message's NUL), and latches exactly on success after priming `sys.path` |
| Bridge.PyBridge.DupPyString | NotesApp/PythonBridge.c:58-68 | NULL exactly for a NULL object, a failed conversion or a failed allocation; otherwise a new buffer with the text up to its first NUL, then a NUL |
| Bridge.PyBridge.CopyLine | NotesApp/PythonBridge.c:75-79 | the error line is the buffer's C string, a newline and a NUL, or NULL when allocation fails |
| Bridge.PyBridge.AutoInitialize | NotesApp/PythonBridge.c:71-84 | automatic initialisation passes no resource directory, so the environment is unchanged; it starts Python when needed, primes `sys.path` and latches exactly on success; a failure returns its code, sets exit code 1 and hands back the message and a newline as stderr |
| Bridge.PyBridge.Run | NotesApp/PythonBridge.c:70-146 | on a bridge not yet initialised it starts Python when needed and the code runs exactly when initialisation succeeds; a failed first initialisation leaves stdout untouched and reports as above; an initialised run leaves the return code, exit code, outputs and sinks as `Captured` says |
| Bridge.PyBridge.Capture | NotesApp/PythonBridge.c:86-146 | exit code 1 and rc -1 exactly when the code raised, 0 otherwise; a setup failure leaves both outputs NULL and exit code 0; the outputs hold what the code printed (stderr with the traceback); every sink that was read is restored |
| Bridge.PyBridge.ResetOutputs | NotesApp/PythonBridge.c:86-88 | both outputs start as NULL and the exit code as 0 |
| Bridge.PyBridge.Swap | NotesApp/PythonBridge.c:95-105 | the setup steps stop at the first failure with its code, bind the capture buffers only as far as they got, and save the old sinks |
| Bridge.PyBridge.Collect | NotesApp/PythonBridge.c:122-132 | each requested output is a copy of its stream's text, or NULL when reading it back fails |
| Bridge.PyBridge.Restore | NotesApp/PythonBridge.c:134-136 | each saved sink is bound again; an unread sink is left as it is |
| Bridge.PyBridge.RunTwice | NotesApp/PythonBridge.c:108-112 | each run hands the interpreter a new globals dictionary built from nothing an earlier run did, so with the interpreter as a fixed oracle two runs of the same code report the same return and exit codes |
| Bridge.PyBridge.Free | NotesApp/PythonBridge.c:148-150 | a handed-out buffer is released, and NULL is ignored |

## Left out

- CPython is an oracle. The model leaves out the GIL, reference counts, the UTF-8 encoding
  done by `PyUnicode_AsUTF8`, and the interpreter's module cache, which survives across runs.
- `PyErr_Print` on an uncaught `SystemExit` ends the process. The model treats every raised
  exception as a traceback written to the error stream.
- The failure of the `PyObject_SetAttrString` calls that restore the sinks is not modelled.
  Their result is ignored by the code, and the model assumes they succeed.
- An unbound `sys.stdout` or `sys.stderr` leaves an `AttributeError` pending. Its effect on
  the code that runs next is not modelled.
- Bridge.PyBridge.Initialize: the priming script reads the variable through the model's
  environment map. CPython takes its `os.environ` snapshot when it starts, so after a retry
  the two can differ.
- Bridge.PyBridge.RunTwice: the interpreter oracle's result depends only on the code and
  the globals dictionary. In CPython, module state survives between runs (attributes set on
  `sys`, imported modules), so two runs of the same code can report different codes.
- Bridge.PyBridge.Run: when the same slot is passed for stdout and stderr, only the stderr
  text is stated. The stdout copy written first is overwritten and not stated.
- `pybridge_run_file`, `pybridge_set_output_handlers` and `pybridge_request_stop` are declared
  in NotesApp/PythonBridge.h:21, :30 and :35 with no body in the repository. They are not part
  of this model.
- zlib's `compress` and `crc32` are uninterpreted parameters. Every property holds for any
  functions.
- The floating-point geometry is not modelled: triangle tests, segment distances, `atan2`
  arcs and size-scaled metrics. Each enters as a per-pixel probe value given to the painter.
  What is modelled exactly is the colour every combination of probe results produces.
- Gradient.Lerp: the gradient is computed on exact rationals and truncated. Python's
  floating-point `a + (b - a) * t` can land one unit lower where the exact value is a whole
  number. The two endpoints are exact in both.
- DropVariants.Boost: `int(v * (1 + s) + 18 * s)` is computed on exact rationals, with the
  same caveat about floating-point rounding at whole numbers.
- Numbers.ParseInt: only an optional sign followed by ASCII digits is accepted. Python's
  `int()` also accepts surrounding whitespace, underscores and non-ASCII digits.
- Numbers.ParseFloatTrunc: only a sign, digits and one decimal point are accepted. Exponents,
  `inf`, `nan` and whitespace are not. The value is exact, while `float()` rounds numerals
  above 2^53, so `int(float(s))` can differ for such sizes.
- File and process I/O is not modelled: reading and writing Contents.json, `mkdir`, writing
  the PNG files, `print`, and the `sips` resize of the master icon. A PNG the loop produces is
  a `Job`. Whether producing it fails is a parameter.
- Manifest.RunScript: `gen_app_icons.py` skips writing a PNG whose file already exists.
  The job is still listed, because the manifest update does not depend on it.
- A JSON `null` value is treated like a missing key. Python's `item.get('idiom', 'iphone')`
  returns `None` for an explicit `null`. Non-string sizes and scales are not modelled.
- `Raster.DecodeImage` takes the height as the IHDR gives it. It is a reference decoder for
  the round-trip, not a model of any code in the repository. It handles filter type 0 only.
