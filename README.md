# QR Code Alchemist: a verified model of the layout core

This project models the logic of a browser QR-code styling tool that is more than
UI glue:

- the **styled compositor** of the single-image generator. It builds a square export
  canvas from a resolution and a style: background, an optional solid or rounded
  frame, the QR symbol centred at 80% of the resolution, and an optional label. It
  also models the guard that ignores blank input, and the preview's symbol and logo
  sizes;
- the **batch generator**. It keeps an editable list of items (add, remove by id,
  update a field). It keeps the items whose content is not blank, and lays them out
  row-major on a `ceil(sqrt(n))`-sided grid of 220-pixel cells on a white canvas;
- the **style customizer**. Presets are merged over the style record, colours are
  randomised from an eight-colour palette, and there is one setter per input.

The canvas is the `Raster.Canvas` class. Its pixel buffer is a 2-D array.
Rectangle fills and canvas-to-canvas `drawImage` are rasterised into the buffer.
Text, the QR symbol image and the stroked rounded outline are not rasterised: each
call is kept in the canvas's `ops` log with its geometry and style. The
compositors are methods that build such a canvas step by step. Their postconditions
give every pixel and the whole log. Lemmas and the `ensures` of the geometry
functions then state what the layout promises:

- the canvas is square and its side is `resolution + 80 + 2*frameWidth`;
- the solid frame's bands are flush with the edges;
- the rounded frame's stroke runs from the edge to the frame's inner edge;
- the symbol is centred and clear of the frame;
- the label's em box ends at the inner edge of the bottom padding;
- batch cells are distinct, never overlap and lie inside the canvas;
- exactly `g*g - n` trailing cells stay white.

A batch item's `label` field is called `labelText` in the model, because `label`
is a Dafny keyword.

Coordinates that the source computes with fractions (`resolution * 0.8`,
`resolution * 0.05`) are Dafny `real`s. Pixel coordinates are integers.

The model keeps these behaviours of the code as they are:

- The preview logo is `Math.round(200 * 0.16) = 32` pixels: 16% of the 200-pixel
  preview box, but a fifth of the 160-pixel symbol's side (`PreviewImageSettings`).
- Batch cells show a text placeholder (`"QR: "`, up to 20 characters of content,
  `"..."`) on the style background. They do not show a real symbol.
- No resolution is rejected: the resolution is a `nat`, and 0 gives a canvas of
  80 pixels without a frame and 120 pixels with one.
- A `frameStyle` other than `none`, `rounded` or `solid` still reserves the 20-pixel
  frame width but draws nothing there.
- In the batch grid, a label's baseline is 15 pixels below its cell. For the
  bottom row that is 5 pixels below the canvas (`BottomRowLabelBelowCanvas`).

## Model

| member | source | states |
|---|---|---|
| Text.TrimStart | src/components/BatchGenerator.jsx:35 | the leading-whitespace cut gives a suffix of the input; everything cut is whitespace; the rest starts with a non-whitespace character |
| Text.TrimEnd | src/components/BatchGenerator.jsx:35 | the trailing-whitespace cut gives a prefix of the input; everything cut is whitespace; the rest ends with a non-whitespace character |
| Text.Trim | src/components/QRCodeGenerator.jsx:53 | `trim()` returns the slice of the input that starts right after its leading whitespace and is followed only by whitespace; that slice is empty or starts and ends with non-whitespace |
| Text.BlankIffAllWhitespace | src/components/QRCodeGenerator.jsx:53 | `!s.trim()` holds exactly when every character of `s` is whitespace |
| Text.Prefix | src/components/BatchGenerator.jsx:80 | `substring(0, n)` is a prefix of the string of length `min(n, length)`, counted in characters |
| Raster.Canvas.constructor | src/components/QRCodeGenerator.jsx:70-75 | a new canvas has the given width and height, every pixel transparent and nothing drawn |
| Raster.Canvas.StrokeRoundRect | src/components/QRCodeGenerator.jsx:84-89 | stroking a rounded rectangle records exactly that call, with its geometry, line width and colour, after the earlier calls |
| Raster.Canvas.DrawSymbol | src/components/QRCodeGenerator.jsx:105 | drawing the symbol image records exactly that call, with its position and size, after the earlier calls |
| Raster.Canvas.FillText | src/components/QRCodeGenerator.jsx:122 | writing text records exactly that call, with its anchor and text settings, after the earlier calls |
| Raster.Canvas.FillRect | src/components/QRCodeGenerator.jsx:78-79 | `fillRect` paints exactly the canvas pixels inside the rectangle and leaves every other pixel as it was |
| Raster.Canvas.DrawCanvas | src/components/BatchGenerator.jsx:83 | `drawImage(canvas, x, y)` copies the source pixels to the offset, clipped, leaves the rest unchanged and replays the source's text shifted by the offset |
| Raster.Translate | src/components/BatchGenerator.jsx:83 | shifting a drawing call keeps its kind and moves its anchor (rectangle corner, symbol corner or text anchor) by the offset; everything else about it, including a text call's text and style, is kept |
| StyleCustomizer.FrameStyleOptions | src/components/StyleCustomizer.jsx:67 | the frame buttons offer three styles, the first being `none` |
| StyleCustomizer.Presets | src/components/StyleCustomizer.jsx:9-16 | six presets with distinct names, each with a frame style that a frame button also offers |
| StyleCustomizer.ApplyPreset | src/components/StyleCustomizer.jsx:18-20 | the preset's colours, frame style and name replace the style's; `eyeRadius` and `pattern` are kept |
| StyleCustomizer.ApplyPresetOverrides | src/components/StyleCustomizer.jsx:18-20 | a later preset completely overrides an earlier one |
| StyleCustomizer.Palette | src/components/StyleCustomizer.jsx:23 | eight distinct colours, none of them `#ffffff` |
| StyleCustomizer.RandomizeColors | src/components/StyleCustomizer.jsx:22-34 | foreground and frame colour come from the palette; background is a palette entry or `#ffffff` and always differs from the foreground; frame style, eye radius, pattern and name are unchanged |
| StyleCustomizer.RandomizeColorsDraws | src/components/StyleCustomizer.jsx:24-31 | the colours are the drawn palette entries, and the background is white exactly when the foreground and background draws coincide |
| StyleCustomizer.SetFgColor | src/components/StyleCustomizer.jsx:48 | the foreground input sets `fgColor` and no other field |
| StyleCustomizer.SetBgColor | src/components/StyleCustomizer.jsx:58 | the background input sets `bgColor` and no other field |
| StyleCustomizer.SetFrameStyle | src/components/StyleCustomizer.jsx:71 | a frame button sets `frameStyle` and no other field |
| StyleCustomizer.SetFrameColor | src/components/StyleCustomizer.jsx:87 | the frame colour input sets `frameColor` and no other field |
| StyleCustomizer.SettersCommute | src/components/StyleCustomizer.jsx:48-87 | setters of different fields commute; a second write to one field wins |
| QRCodeGenerator.DefaultStyle | src/components/QRCodeGenerator.jsx:30-37 | the generator starts without a frame and without a preset name |
| QRCodeGenerator.FrameWidth | src/components/QRCodeGenerator.jsx:72 | the frame is 20 pixels wide exactly when a frame style other than `none` is selected, and 0 otherwise |
| QRCodeGenerator.CanvasSide | src/components/QRCodeGenerator.jsx:71-74 | the export canvas side is the resolution plus 40 pixels of padding and the frame width on each side |
| QRCodeGenerator.SymbolSize | src/components/QRCodeGenerator.jsx:100 | the symbol side is four fifths of the resolution, so it fits within it |
| QRCodeGenerator.SymbolOffset | src/components/QRCodeGenerator.jsx:100-105 | the symbol is centred (equal margins before and after it on both axes) and stays a tenth of the resolution inside the padding and frame |
| QRCodeGenerator.LabelFontSize | src/components/QRCodeGenerator.jsx:109 | the label font is a twentieth of the resolution |
| QRCodeGenerator.LabelTop | src/components/QRCodeGenerator.jsx:114 | the label starts one font size below the symbol, so its em box ends exactly at the inner edge of the bottom padding |
| QRCodeGenerator.LabelStyle | src/components/QRCodeGenerator.jsx:109-121 | the label is bold, in the foreground colour, centred, top-aligned and shadowed |
| QRCodeGenerator.RoundedFrameStroke | src/components/QRCodeGenerator.jsx:83-89 | the rounded outline is inset by half the line width, so its ink runs exactly from the canvas edge to the inner edge of the frame band on every side |
| QRCodeGenerator.SolidBandsInsideCanvas | src/components/QRCodeGenerator.jsx:90-96 | the four solid-frame rectangles lie inside the canvas and together cover exactly the points within a frame width of an edge |
| QRCodeGenerator.SymbolClearOfFrame | src/components/QRCodeGenerator.jsx:99-105 | every point of the symbol lies inside the canvas and outside the frame bands |
| QRCodeGenerator.StyledOps | src/components/QRCodeGenerator.jsx:82-123 | an export records first the frame's `RoundedFrameStroke` exactly when the frame is rounded, then one symbol at `SymbolOffset` on both axes with side `SymbolSize`, then, exactly when there is label text, that text as the last call, centred horizontally at `LabelTop` with `LabelStyle` |
| QRCodeGenerator.PaintBackground | src/components/QRCodeGenerator.jsx:77-79 | before any frame or symbol is drawn, every pixel is the background colour |
| QRCodeGenerator.PaintFrame | src/components/QRCodeGenerator.jsx:81-97 | a solid frame paints exactly the four edge bands in the frame colour; a rounded frame records one inset outline; any other style changes nothing |
| QRCodeGenerator.GenerateStyledQRCodeImage | src/components/QRCodeGenerator.jsx:68-129 | the export canvas is square with the stated side; each pixel is the frame colour in a solid frame's bands and the background elsewhere; the recorded drawing calls are outline, symbol and label as above |
| QRCodeGenerator.ScenarioSides | src/components/QRCodeGenerator.jsx:71-74 | a 1000-pixel export is 1080 pixels wide without a frame and 1120 pixels wide with a solid one |
| QRCodeGenerator.RoundHalfUp | src/components/QRCodeGenerator.jsx:282 | `Math.round` gives the integer within half a unit, halves rounding up |
| QRCodeGenerator.PreviewSymbolSize | src/components/QRCodeGenerator.jsx:282 | the preview symbol is 160 pixels |
| QRCodeGenerator.PreviewImageSettings | src/components/QRCodeGenerator.jsx:286-293 | a logo overlay is passed only when the logo is enabled and present; it is square, excavated and a fifth of the symbol side |
| QRCodeGenerator.Generator.constructor | src/components/QRCodeGenerator.jsx:21-37 | the generator starts empty and idle at resolution 1000 with the default style |
| QRCodeGenerator.FrameColorInputShownIffFramed | src/components/StyleCustomizer.jsx:80 | the frame colour input is shown exactly when the export reserves a frame band |
| QRCodeGenerator.Generator.CanGenerate | src/components/QRCodeGenerator.jsx:193 | the generate button is enabled exactly when the generator is idle and the input has a non-whitespace character |
| QRCodeGenerator.Generator.ShowsPreview | src/components/QRCodeGenerator.jsx:267 | when the preview is shown, the shown value is not blank |
| QRCodeGenerator.Generator.SetInputValue | src/components/QRCodeGenerator.jsx:185 | editing the input changes only the input value |
| QRCodeGenerator.Generator.GenerateQRCode | src/components/QRCodeGenerator.jsx:52-60 | blank or whitespace-only input leaves all state unchanged; otherwise, and in particular whenever the button is enabled, the generator goes busy and queues the current input to be shown, and the shown value stays empty or non-blank |
| QRCodeGenerator.Generator.HandleKeyPress | src/components/QRCodeGenerator.jsx:62-66 | Enter generates even while a generation is pending; any other key changes nothing |
| QRCodeGenerator.Generator.GenerationTimerFires | src/components/QRCodeGenerator.jsx:55-59 | when the oldest timer fires, its captured input is shown, the generator is idle and the preview appears |
| QRCodeGenerator.Generator.ExportImage | src/components/QRCodeGenerator.jsx:131-157 | copy and save export a freshly allocated styled image of the current style, resolution and label |
| BatchGenerator.InitialItems | src/components/BatchGenerator.jsx:12-14 | the list starts with one item with empty content and label |
| BatchGenerator.Filter | src/components/BatchGenerator.jsx:24-35 | a filtered list holds only elements of the input that pass, and every passing element of the input |
| BatchGenerator.FilterAppend | src/components/BatchGenerator.jsx:24-35 | filtering a concatenation filters each part in place, so kept elements keep their order |
| BatchGenerator.FilterKeepsAll | src/components/BatchGenerator.jsx:24-35 | a list whose elements all pass comes through unchanged |
| BatchGenerator.AddBatchItem | src/components/BatchGenerator.jsx:16-22 | exactly one item with the new id and empty content and label is appended; earlier items are unchanged |
| BatchGenerator.RemoveBatchItem | src/components/BatchGenerator.jsx:24-26 | an item survives exactly when it was in the list and its id differs from the removed id |
| BatchGenerator.RemoveBatchItemPreservesOrder | src/components/BatchGenerator.jsx:25 | removal distributes over concatenation, so survivors keep their order; removing an absent id changes nothing |
| BatchGenerator.RemoveSharedId | src/components/BatchGenerator.jsx:16-26 | ids need not be unique, and removing a shared id removes every item that carries it |
| BatchGenerator.RemoveUndoesAdd | src/components/BatchGenerator.jsx:16-26 | removing the id of a just-added item whose id no earlier item carries restores the list |
| BatchGenerator.SetField | src/components/BatchGenerator.jsx:30 | `{ ...item, [field]: value }` sets the named field and keeps the id and the other field |
| BatchGenerator.UpdateBatchItem | src/components/BatchGenerator.jsx:28-32 | the list keeps its length, order and ids; matching items get the value in the edited field only; other items are unchanged |
| BatchGenerator.UpdateAbsentId | src/components/BatchGenerator.jsx:28-32 | updating an id that no item carries leaves the list unchanged |
| BatchGenerator.FilterSameVerdicts | src/components/BatchGenerator.jsx:35 | two lists of equal length whose elements pass or fail the filter position by position keep equally many elements |
| BatchGenerator.ValidItems | src/components/BatchGenerator.jsx:35 | the valid items are exactly the listed items whose content is not blank, each with a non-whitespace character |
| BatchGenerator.ValidItemsAppend | src/components/BatchGenerator.jsx:35 | the valid items of a concatenation are those of each part in their original order |
| BatchGenerator.LabelEditKeepsValidCount | src/components/BatchGenerator.jsx:143-152 | editing a label never changes the number of items the batch will draw |
| BatchGenerator.CeilSqrtFrom | src/components/BatchGenerator.jsx:44 | the upward search returns the least side at or after its start whose square reaches n |
| BatchGenerator.GridSize | src/components/BatchGenerator.jsx:44 | for n >= 1 items the grid side g satisfies (g-1)^2 < n <= g^2; for none it is 0 |
| BatchGenerator.GridSizeUnique | src/components/BatchGenerator.jsx:44 | the grid side is the only g with (g-1)^2 < n <= g^2 |
| BatchGenerator.BlankCellCount | src/components/BatchGenerator.jsx:44-49 | an n-item grid has g*g - n blank cells, at most 2g - 2 |
| BatchGenerator.GridSizeExamples | src/components/BatchGenerator.jsx:44 | 5 items give a 3-sided grid with 4 blank cells; 9 items fill a 3-sided grid; 1 item gives a single cell |
| BatchGenerator.CellRow | src/components/BatchGenerator.jsx:58 | an item's row is the one whose g indices contain it |
| BatchGenerator.CellCol | src/components/BatchGenerator.jsx:59 | an item's column is within the grid |
| BatchGenerator.RowMajorPlacement | src/components/BatchGenerator.jsx:56-59 | row times g plus column recovers the index; items of the grid get rows within it; distinct items get distinct cells |
| BatchGenerator.CellX | src/components/BatchGenerator.jsx:60 | a cell's square is centred in its 220-pixel column slot, 10 pixels from either side |
| BatchGenerator.CellY | src/components/BatchGenerator.jsx:61 | a cell's square is centred in its 220-pixel row slot, 10 pixels from either side |
| BatchGenerator.CellInsideCanvas | src/components/BatchGenerator.jsx:45-61 | every grid cell's 200-pixel square lies strictly inside the square canvas of side 220 times g |
| BatchGenerator.CoveringCellCorrect | src/components/BatchGenerator.jsx:60-83 | a pixel lies in cell k's square exactly when k is the cell of the 220-pixel slot it falls in |
| BatchGenerator.CellsDisjoint | src/components/BatchGenerator.jsx:60-83 | the squares of two distinct cells share no pixel |
| BatchGenerator.OccupiedCellsBackground | src/components/BatchGenerator.jsx:75-83 | once n items are drawn, every pixel of an occupied cell is the style background |
| BatchGenerator.BlankCellsWhite | src/components/BatchGenerator.jsx:52-54 | once n items are drawn, every pixel of a trailing blank cell is white |
| BatchGenerator.GapsWhite | src/components/BatchGenerator.jsx:52-54 | pixels in the gaps between cells stay white |
| BatchGenerator.Placeholder | src/components/BatchGenerator.jsx:80 | the placeholder is `QR: `, at most the first 20 characters of the content, then `...` |
| BatchGenerator.PlaceholderStyle | src/components/BatchGenerator.jsx:77-79 | the placeholder is 12-pixel regular text in the foreground colour, centred, on the default alphabetic baseline, without shadow |
| BatchGenerator.LabelTextStyle | src/components/BatchGenerator.jsx:87-89 | a batch label is 14-pixel regular black text, centred, on the default alphabetic baseline, without shadow |
| BatchGenerator.ItemOps | src/components/BatchGenerator.jsx:77-91 | each item writes its placeholder at its cell's centre and, only when it has a label, that label, 15 pixels below the cell and centred on it, with `LabelTextStyle` (14-pixel black text, centred) |
| BatchGenerator.BatchOps | src/components/BatchGenerator.jsx:56-92 | the batch records only text calls, at least one and at most two per item; no symbol image is drawn |
| BatchGenerator.BatchOpsCount | src/components/BatchGenerator.jsx:86-91 | a batch writes one placeholder per item and one label per labelled item |
| BatchGenerator.BottomRowLabelBelowCanvas | src/components/BatchGenerator.jsx:48-90 | a bottom-row label's baseline lies 5 pixels below the canvas |
| BatchGenerator.BatchOpsSnoc | src/components/BatchGenerator.jsx:56-92 | drawing one more item appends exactly that item's text |
| BatchGenerator.DrawCellStep | src/components/BatchGenerator.jsx:83 | painting cell i over the picture of the first i cells gives the picture of the first i+1 |
| BatchGenerator.DrawCell | src/components/BatchGenerator.jsx:57-91 | one loop pass paints exactly cell i's square in the style background and appends that item's text |
| BatchGenerator.DrawCells | src/components/BatchGenerator.jsx:56-92 | the placement loop turns a white canvas into the picture of all valid items and appends their text in order |
| BatchGenerator.RenderBatch | src/components/BatchGenerator.jsx:41-92 | for a non-empty list of valid items the canvas is square with side 220 times the grid side, each pixel is the batch picture of all the items, and the recorded text is the items' text in order |
| BatchGenerator.WhiteCanvas | src/components/BatchGenerator.jsx:43-54 | the batch canvas is freshly allocated, square with the given side, entirely white and has nothing drawn on it |
| BatchGenerator.GenerateBatchQRCodes | src/components/BatchGenerator.jsx:34-106 | with no valid item it reports an error and draws nothing; otherwise the canvas is square with side 220 times the grid side, occupied cells are the style background, all else is white, and the text is the items' text in order |

## Left out

- QR symbol encoding and error correction (level H) come from an external library. The symbol is the opaque `DrawSymbol` call with its position and size.
- SVG serialisation, base64 encoding, asynchronous image loading and PNG encoding are not modelled. The compositor is synchronous, and the result is the canvas itself.
- Clipboard writes, download links, toasts and the 500 ms delay are not modelled. The delay becomes an explicit `GenerationTimerFires` step. Timers fire oldest first.
- Text metrics, fonts, shadow rendering and the rasterisation of the rounded outline are not modelled. These are recorded as drawing calls, not pixels.
- Raster.Canvas.DrawCanvas: text drawn on the source canvas is replayed on the target, shifted, and is not clipped to the source canvas's bounds. In the source that text is already part of the 200-pixel cell canvas's pixels, so a placeholder wider than 200 pixels (20 wide glyphs at 12 pixels can be) is cut at the cell edge there but not in the model.
- Alpha compositing is not modelled: every fill or copy replaces pixels. The colours used are opaque hex colours, and each batch cell canvas is fully painted before it is copied.
- Floating-point rounding is not modelled: fractional geometry is exact `real` arithmetic. `Math.ceil(Math.sqrt(n))` is modelled as the exact ceiling square root, which matches doubles for every n below 2^52.
- Text.Prefix: `substring` counts UTF-16 code units, while the model counts Unicode characters. For content with characters outside the Basic Multilingual Plane the source keeps fewer characters (25 emoji keep 10, not 20), and a cut inside a surrogate pair leaves a lone surrogate, which a Dafny `char` cannot hold.
- BatchGenerator.Placeholder: its "at most 20 characters of the content" inherits the same difference. It matches the source only when the first 20 characters of the content lie in the Basic Multilingual Plane. `Trim` is not affected, because every character it cuts lies in that plane.
- Pixels hold the fill colour as the CSS string it was given, not as a parsed colour. So `#FFFFFF` (the default background) and `#ffffff` (the batch canvas) are different pixel values, though they are the same colour on a real canvas. No contract compares colours across spellings.
- `Math.random` draws and `Date.now` ids are parameters. Ids are not assumed unique.
- UpdateBatchItem: the source's computed key `[field]` could name any property. The model covers the two fields its callers pass, `content` and `label`.
- The remove button is shown only for lists of more than one item. `RemoveBatchItem` itself is total.
- The frame colour input is shown only while a frame is selected (`FrameColorInputShown`). `SetFrameColor` itself is total.
- Generator.ExportImage requires the preview to be shown. The copy and save buttons exist only then. Without the preview, the source's lookup of the rendered symbol would fail.
- The advanced-options panel, which sets resolution, label text and logo, is not part of this model. The resolution is taken as a non-negative integer.
- The preview box's CSS sizes and the logo's centring inside the symbol are not modelled. The centring is left to the symbol library.
- The landing page (file reading, paste handling, logo persistence in local storage), the social templates and the routing table are not modelled. They are I/O plumbing or constant data.
