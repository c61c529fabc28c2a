/**
 * The single-image generator: the blank-input guard in front of generation,
 * the preview's symbol and logo sizes, and the styled compositor that lays
 * background, frame, symbol and label onto an export canvas.
 */
module QRCodeGenerator {
  import opened Common
  import opened Text
  import opened Raster
  import opened StyleCustomizer

  /** Blank space between the frame and the resolution-sized interior, on every side. */
  const Padding: nat := 40
  /** Corner radius of the rounded frame. */
  const FrameRadius: int := 20
  /** Side of the on-screen preview box in pixels. */
  const PreviewSize: nat := 200

  /** The style the generator starts with. */
  function DefaultStyle(): (s: QrStyle)
    ensures s.frameStyle == "none" && s.name == None
  {
    QrStyle("#000000", "#FFFFFF", 0, "none", "#000000", "square", None)
  }

  // ---------------------------------------------------------------------------
  // Compositor geometry

  /** Thickness of the frame: 20 pixels for any selected frame style, none otherwise. */
  function FrameWidth(style: QrStyle): (w: nat)
    ensures w == 20 <==> style.frameStyle != "none"
    ensures w == 0 <==> style.frameStyle == "none"
  {
    if style.frameStyle != "none" then 20 else 0
  }

  /** Side of the (square) export canvas: the resolution plus padding and frame on both sides. */
  function CanvasSide(style: QrStyle, resolution: nat): (side: nat)
    ensures side == resolution + 2 * Padding + 2 * FrameWidth(style)
    ensures side >= 2 * FrameWidth(style)
  {
    resolution + Padding * 2 + FrameWidth(style) * 2
  }

  /** Side of the drawn symbol: 80% of the resolution, so it fits the interior with room to spare. */
  function SymbolSize(resolution: nat): (size: real)
    ensures 0.0 <= size <= resolution as real
    ensures 5.0 * size == 4.0 * resolution as real
  {
    resolution as real * 0.8
  }

  /**
   * Offset of the symbol's top-left corner on both axes.  The symbol is centred
   * (the margin before it equals the margin after it) and stays clear of the frame
   * and the padding by a further tenth of the resolution.
   */
  function SymbolOffset(style: QrStyle, resolution: nat): (pos: real)
    ensures pos + SymbolSize(resolution) + pos == CanvasSide(style, resolution) as real
    ensures pos == (FrameWidth(style) + Padding) as real + resolution as real / 10.0
    ensures pos + SymbolSize(resolution) <= (CanvasSide(style, resolution) - FrameWidth(style) - Padding) as real
  {
    (CanvasSide(style, resolution) as real - SymbolSize(resolution)) / 2.0
  }

  /** Font size of the label: 5% of the resolution. */
  function LabelFontSize(resolution: nat): (px: real)
    ensures 20.0 * px == resolution as real
  {
    resolution as real * 0.05
  }

  /**
   * Top of the label: one font size below the symbol.  The label's em box then
   * ends exactly at the inner edge of the bottom padding.
   */
  function LabelTop(style: QrStyle, resolution: nat): (y: real)
    ensures y == SymbolOffset(style, resolution) + SymbolSize(resolution) + LabelFontSize(resolution)
    ensures y + LabelFontSize(resolution) == (CanvasSide(style, resolution) - FrameWidth(style) - Padding) as real
  {
    SymbolOffset(style, resolution) + SymbolSize(resolution) + resolution as real * 0.05
  }

  /** The label's text settings: bold, foreground colour, centred, top baseline, with a drop shadow. */
  function LabelStyle(style: QrStyle, resolution: nat): (t: TextStyle)
    ensures t.colour == style.fgColor && t.fontPx == LabelFontSize(resolution)
    ensures t.bold && t.align == Center && t.baseline == Top && t.shadow
  {
    TextStyle(LabelFontSize(resolution), true, style.fgColor, Center, Top, true)
  }

  /**
   * The rounded frame's outline.  A stroke of width `lineWidth` is centred on the
   * path, so inset by half the stroke its ink runs from the canvas edge exactly to
   * the inner edge of the frame band, on all four sides.
   */
  function RoundedFrameStroke(style: QrStyle, resolution: nat): (op: Op)
    requires style.frameStyle == "rounded"
    ensures op.StrokeRoundRect? && op.colour == style.frameColor && op.lineWidth == FrameWidth(style)
    ensures op.w == op.h && op.x == op.y
    ensures op.x - op.lineWidth / 2 == 0 && op.x + op.lineWidth / 2 == FrameWidth(style)
    ensures op.x + op.w + op.lineWidth / 2 == CanvasSide(style, resolution)
    ensures op.x + op.w - op.lineWidth / 2 == CanvasSide(style, resolution) - FrameWidth(style)
  {
    var side, fw := CanvasSide(style, resolution), FrameWidth(style);
    Op.StrokeRoundRect(fw / 2, fw / 2, side - fw, side - fw, FrameRadius, fw, style.frameColor)
  }

  /** (px, py) lies in one of the four `fw`-wide bands flush with the edges of a w x h canvas. */
  predicate InFrameBand(w: int, h: int, fw: int, px: int, py: int) {
    py < fw || px < fw || px >= w - fw || py >= h - fw
  }

  /** The four solid bands lie inside a square canvas and cover exactly the points `fw` or less from an edge. */
  lemma SolidBandsInsideCanvas(style: QrStyle, resolution: nat, px: int, py: int)
    requires style.frameStyle == "solid"
    requires 0 <= px < CanvasSide(style, resolution) && 0 <= py < CanvasSide(style, resolution)
    ensures var side, fw := CanvasSide(style, resolution), FrameWidth(style);
      && 0 <= side - fw && fw <= side
      && (InFrameBand(side, side, fw, px, py) <==>
           (InRect(px, py, 0, 0, side, fw) || InRect(px, py, 0, 0, fw, side) ||
            InRect(px, py, side - fw, 0, fw, side) || InRect(px, py, 0, side - fw, side, fw)))
  {
  }

  /** Every point of the symbol is clear of the frame bands, whatever the frame style. */
  lemma SymbolClearOfFrame(style: QrStyle, resolution: nat, px: int, py: int)
    requires SymbolOffset(style, resolution) <= px as real < SymbolOffset(style, resolution) + SymbolSize(resolution)
    requires SymbolOffset(style, resolution) <= py as real < SymbolOffset(style, resolution) + SymbolSize(resolution)
    ensures var side := CanvasSide(style, resolution);
      !InFrameBand(side, side, FrameWidth(style), px, py) && 0 <= px < side && 0 <= py < side
  {
  }

  /** The recorded drawing calls of one styled export, in order. */
  function StyledOps(style: QrStyle, resolution: nat, textBelow: string): (ops: seq<Op>)
    ensures |ops| == (if style.frameStyle == "rounded" then 1 else 0) + 1 + (if textBelow != "" then 1 else 0)
    ensures forall i :: 0 <= i < |ops| ==> (ops[i].FillText? <==> i == |ops| - 1 && textBelow != "")
    ensures style.frameStyle == "rounded" ==> ops[0] == RoundedFrameStroke(style, resolution)
    ensures ops[|ops| - 1 - (if textBelow != "" then 1 else 0)] ==
      Op.DrawSymbol(SymbolOffset(style, resolution), SymbolOffset(style, resolution), SymbolSize(resolution))
    ensures textBelow != "" ==>
      ops[|ops| - 1] == Op.FillText(textBelow, CanvasSide(style, resolution) as real / 2.0,
                                    LabelTop(style, resolution), LabelStyle(style, resolution))
  {
    (if style.frameStyle == "rounded" then [RoundedFrameStroke(style, resolution)] else [])
    + [Op.DrawSymbol(SymbolOffset(style, resolution), SymbolOffset(style, resolution), SymbolSize(resolution))]
    + (if textBelow != ""
       then [Op.FillText(textBelow, CanvasSide(style, resolution) as real / 2.0, LabelTop(style, resolution),
                         LabelStyle(style, resolution))]
       else [])
  }

  // ---------------------------------------------------------------------------
  // Compositor steps

  /** Step 1: the whole canvas is painted with the background colour. */
  method PaintBackground(c: Canvas, bgColor: Colour)
    requires c.Valid()
    modifies c.pixels
    ensures forall px, py :: 0 <= px < c.width && 0 <= py < c.height ==> c.pixels[px, py] == bgColor
  {
    c.FillRect(0, 0, c.width, c.height, bgColor);
  }

  /**
   * Step 2: the frame.  A rounded frame is stroked as an outline inset by half the
   * line width; a solid frame fills the four edge bands; any other style (including
   * "none") draws nothing.
   */
  method PaintFrame(c: Canvas, style: QrStyle)
    requires c.Valid()
    modifies c, c.pixels
    ensures forall px, py :: 0 <= px < c.width && 0 <= py < c.height ==>
      c.pixels[px, py] == (if style.frameStyle == "solid" && InFrameBand(c.width, c.height, FrameWidth(style), px, py)
                           then style.frameColor else old(c.pixels[px, py]))
    ensures c.ops == old(c.ops) + (if style.frameStyle == "rounded" then
      [Op.StrokeRoundRect(FrameWidth(style) / 2, FrameWidth(style) / 2, c.width - FrameWidth(style),
                          c.height - FrameWidth(style), FrameRadius, FrameWidth(style), style.frameColor)]
      else [])
  {
    var frameWidth := FrameWidth(style);
    if style.frameStyle != "none" {
      if style.frameStyle == "rounded" {
        c.StrokeRoundRect(frameWidth / 2, frameWidth / 2, c.width - frameWidth, c.height - frameWidth,
                          FrameRadius, frameWidth, style.frameColor);
      } else if style.frameStyle == "solid" {
        c.FillRect(0, 0, c.width, frameWidth, style.frameColor);
        c.FillRect(0, 0, frameWidth, c.height, style.frameColor);
        c.FillRect(c.width - frameWidth, 0, frameWidth, c.height, style.frameColor);
        c.FillRect(0, c.height - frameWidth, c.width, frameWidth, style.frameColor);
      }
    }
  }

  /**
   * The styled export image (`generateStyledQRCodeImage`): a square canvas whose
   * pixels are the background except, for a solid frame, the four frame bands, and
   * on which the optional rounded outline, the centred symbol and the optional label
   * are drawn in that order.
   */
  method GenerateStyledQRCodeImage(style: QrStyle, resolution: nat, textBelow: string) returns (c: Canvas)
    ensures fresh(c) && fresh(c.pixels) && c.Valid()
    ensures c.width == CanvasSide(style, resolution) && c.height == c.width
    ensures forall px, py :: 0 <= px < c.width && 0 <= py < c.height ==>
      c.pixels[px, py] == (if style.frameStyle == "solid" && InFrameBand(c.width, c.height, FrameWidth(style), px, py)
                           then style.frameColor else style.bgColor)
    ensures c.ops == StyledOps(style, resolution, textBelow)
  {
    var padding := Padding;
    var frameWidth := FrameWidth(style);
    var side := resolution + padding * 2 + frameWidth * 2;
    c := new Canvas(side, side);

    PaintBackground(c, style.bgColor);
    PaintFrame(c, style);

    var qrSize := resolution as real * 0.8;
    var qrPosition := (c.width as real - qrSize) / 2.0;
    c.DrawSymbol(qrPosition, qrPosition, qrSize);

    if textBelow != "" {
      var fontSize := resolution as real * 0.05;
      var textY := qrPosition + qrSize + resolution as real * 0.05;
      c.FillText(textBelow, c.width as real / 2.0, textY, TextStyle(fontSize, true, style.fgColor, Center, Top, true));
    }
  }

  /** Two worked examples: a 1000-pixel export is 1080 wide unframed and 1120 framed. */
  lemma ScenarioSides(style: QrStyle)
    ensures CanvasSide(DefaultStyle(), 1000) == 1080
    ensures style.frameStyle == "solid" ==> CanvasSide(style, 1000) == 1120 && FrameWidth(style) == 20
  {
  }

  /** The frame colour input appears exactly when the export reserves a frame band. */
  lemma FrameColorInputShownIffFramed(style: QrStyle)
    ensures FrameColorInputShown(style) <==> FrameWidth(style) > 0
  {
  }

  // ---------------------------------------------------------------------------
  // Preview sizing

  /** `Math.round`: the nearest integer, halves rounded up. */
  function RoundHalfUp(x: real): (n: int)
    ensures n as real - 0.5 <= x < n as real + 0.5
  {
    (x + 0.5).Floor
  }

  /** Side of the preview symbol, `Math.round(previewSize * 0.8)`. */
  function PreviewSymbolSize(): (n: int)
    ensures n == 160
  {
    RoundHalfUp(PreviewSize as real * 0.8)
  }

  /** The logo overlay handed to the symbol renderer; its position is left to the renderer. */
  datatype ImageSettings = ImageSettings(src: string, width: int, height: int, excavate: bool)

  /**
   * The preview's `imageSettings`: present only when the logo is enabled and there
   * is one, square, a fifth of the symbol side, with the modules behind it excavated.
   */
  function PreviewImageSettings(showLogo: bool, logo: string): (s: Option<ImageSettings>)
    ensures s.Some? <==> showLogo && logo != ""
    ensures s.Some? ==> s.value.src == logo && s.value.excavate
    ensures s.Some? ==> s.value.width == s.value.height && 5 * s.value.width == PreviewSymbolSize()
  {
    if showLogo && logo != "" then
      var side := RoundHalfUp(PreviewSize as real * 0.16);
      Some(ImageSettings(logo, side, side, true))
    else None
  }

  // ---------------------------------------------------------------------------
  // Generator state

  /**
   * The generator component's state.  `pending` holds, oldest first, the input
   * values captured by generation timers that have not fired yet.
   */
  class Generator {
    var inputValue: string
    var qrValue: string
    var isGenerating: bool
    var textBelow: string
    var resolution: nat
    var qrStyle: QrStyle
    var pending: seq<string>

    /** The shown value is empty or has content, and so has every value waiting to be shown. */
    ghost predicate Valid()
      reads this
    {
      (qrValue == [] || !IsBlank(qrValue)) && forall i :: 0 <= i < |pending| ==> !IsBlank(pending[i])
    }

    constructor ()
      ensures Valid()
      ensures inputValue == [] && qrValue == [] && !isGenerating && textBelow == [] && pending == []
      ensures resolution == 1000 && qrStyle == DefaultStyle()
    {
      inputValue, qrValue, isGenerating, textBelow := [], [], false, [];
      resolution, qrStyle, pending := 1000, DefaultStyle(), [];
    }

    /** The content input's `onChange`. */
    method SetInputValue(value: string)
      requires Valid()
      modifies this
      ensures Valid() && inputValue == value
      ensures qrValue == old(qrValue) && isGenerating == old(isGenerating) && pending == old(pending)
      ensures textBelow == old(textBelow) && resolution == old(resolution) && qrStyle == old(qrStyle)
    {
      inputValue := value;
    }

    /** The generate button is enabled only when idle and the input is not blank. */
    predicate CanGenerate()
      reads this
      ensures CanGenerate() <==> !isGenerating && !AllWhitespace(inputValue)
    {
      BlankIffAllWhitespace(inputValue);
      !isGenerating && !IsBlank(inputValue)
    }

    /** The preview, and with it the copy and save buttons, is shown once a value has been generated. */
    predicate ShowsPreview()
      reads this
      ensures Valid() && ShowsPreview() ==> !IsBlank(qrValue)
    {
      qrValue != []
    }

    /**
     * `generateQRCode`: a blank input changes nothing; otherwise the generator goes
     * busy and a timer is started that will show the input as it is now.
     */
    method GenerateQRCode()
      requires Valid()
      modifies this
      ensures Valid()
      ensures IsBlank(old(inputValue)) ==> unchanged(this)
      ensures old(CanGenerate()) ==> isGenerating && pending == old(pending) + [old(inputValue)]
      ensures !IsBlank(old(inputValue)) ==>
        isGenerating && pending == old(pending) + [old(inputValue)] && qrValue == old(qrValue)
      ensures inputValue == old(inputValue) && textBelow == old(textBelow)
      ensures resolution == old(resolution) && qrStyle == old(qrStyle)
    {
      if IsBlank(inputValue) {
        return;
      }
      isGenerating := true;
      pending := pending + [inputValue];
    }

    /** `handleKeyPress`: Enter generates, even while a generation is already pending. */
    method HandleKeyPress(key: string)
      requires Valid()
      modifies this
      ensures Valid()
      ensures key != "Enter" || IsBlank(old(inputValue)) ==> unchanged(this)
      ensures key == "Enter" && !IsBlank(old(inputValue)) ==>
        isGenerating && pending == old(pending) + [old(inputValue)] && qrValue == old(qrValue)
      ensures inputValue == old(inputValue) && textBelow == old(textBelow)
      ensures resolution == old(resolution) && qrStyle == old(qrStyle)
    {
      if key == "Enter" {
        GenerateQRCode();
      }
    }

    /** The oldest pending timer fires: its captured value is shown and the generator is idle again. */
    method GenerationTimerFires()
      requires Valid() && pending != []
      modifies this
      ensures Valid()
      ensures qrValue == old(pending[0]) && pending == old(pending[1..]) && !isGenerating
      ensures ShowsPreview()
      ensures inputValue == old(inputValue) && textBelow == old(textBelow)
      ensures resolution == old(resolution) && qrStyle == old(qrStyle)
    {
      qrValue := pending[0];
      pending := pending[1..];
      isGenerating := false;
    }

    /** The image the copy and save buttons export: the styled image of the current settings. */
    method ExportImage() returns (c: Canvas)
      requires ShowsPreview()
      ensures fresh(c) && fresh(c.pixels) && c.Valid()
      ensures c.width == CanvasSide(qrStyle, resolution) && c.height == c.width
      ensures forall px, py :: 0 <= px < c.width && 0 <= py < c.height ==>
        c.pixels[px, py] == (if qrStyle.frameStyle == "solid" && InFrameBand(c.width, c.height, FrameWidth(qrStyle), px, py)
                             then qrStyle.frameColor else qrStyle.bgColor)
      ensures c.ops == StyledOps(qrStyle, resolution, textBelow)
    {
      c := GenerateStyledQRCodeImage(qrStyle, resolution, textBelow);
    }
  }
}
