/**
 * The part of the browser's 2-D canvas context the compositors use.
 *
 * Rectangle fills and canvas-to-canvas `drawImage` are rasterised into a pixel
 * array.  Text, the QR symbol image and stroked outlines are not rasterised: each
 * call is recorded, with the geometry and style it was given, in a log of drawing
 * operations in the order they were issued.
 */
module Raster {
  import opened Common

  /** The colour of every pixel of a freshly allocated canvas (transparent black). */
  const Transparent: Colour := "rgba(0,0,0,0)"

  datatype TextAlign = Start | Center
  datatype TextBaseline = Alphabetic | Top

  /** The context state that matters for one `fillText` call. */
  datatype TextStyle = TextStyle(
    fontPx: real, bold: bool, colour: Colour, align: TextAlign, baseline: TextBaseline, shadow: bool)

  /** A drawing call that is recorded rather than rasterised. */
  datatype Op =
    | StrokeRoundRect(x: int, y: int, w: int, h: int, radius: int, lineWidth: int, colour: Colour)
    | DrawSymbol(sx: real, sy: real, size: real)
    | FillText(text: string, tx: real, ty: real, style: TextStyle)

  /** The operation as it lands on a canvas when its source canvas is drawn at offset (dx, dy). */
  function Translate(op: Op, dx: int, dy: int): (r: Op)
    ensures r.StrokeRoundRect? <==> op.StrokeRoundRect?
    ensures r.FillText? ==> op.FillText? && r.text == op.text && r.style == op.style &&
                            r.tx == op.tx + dx as real && r.ty == op.ty + dy as real
    ensures op.StrokeRoundRect? ==> r == op.(x := op.x + dx, y := op.y + dy)
    ensures op.DrawSymbol? ==> r == op.(sx := op.sx + dx as real, sy := op.sy + dy as real)
    ensures op.FillText? ==> r == op.(tx := op.tx + dx as real, ty := op.ty + dy as real)
  {
    match op
    case StrokeRoundRect(x, y, w, h, radius, lw, c) => StrokeRoundRect(x + dx, y + dy, w, h, radius, lw, c)
    case DrawSymbol(sx, sy, size) => DrawSymbol(sx + dx as real, sy + dy as real, size)
    case FillText(t, tx, ty, st) => FillText(t, tx + dx as real, ty + dy as real, st)
  }

  function TranslateAll(ops: seq<Op>, dx: int, dy: int): (r: seq<Op>)
    ensures |r| == |ops| && forall i :: 0 <= i < |ops| ==> r[i] == Translate(ops[i], dx, dy)
  {
    seq(|ops|, i requires 0 <= i < |ops| => Translate(ops[i], dx, dy))
  }

  /** The half-open rectangle [x, x + w) x [y, y + h) contains (px, py). */
  predicate InRect(px: int, py: int, x: int, y: int, w: int, h: int) {
    x <= px < x + w && y <= py < y + h
  }

  class Canvas {
    const width: nat
    const height: nat
    const pixels: array2<Colour>
    var ops: seq<Op>

    ghost predicate Valid() {
      pixels.Length0 == width && pixels.Length1 == height
    }

    /** `document.createElement('canvas')` with its width and height set. */
    constructor (w: nat, h: nat)
      ensures Valid() && width == w && height == h && fresh(pixels) && ops == []
      ensures forall px, py :: 0 <= px < w && 0 <= py < h ==> pixels[px, py] == Transparent
    {
      width, height := w, h;
      pixels := new Colour[w, h]((px, py) => Transparent);
      ops := [];
    }

    /** `fillRect(x, y, w, h)` with the given fill colour; the part outside the canvas is clipped. */
    method FillRect(x: int, y: int, w: nat, h: nat, colour: Colour)
      requires Valid()
      modifies pixels
      ensures forall px, py :: 0 <= px < width && 0 <= py < height ==>
        pixels[px, py] == (if InRect(px, py, x, y, w, h) then colour else old(pixels[px, py]))
    {
      var x0, y0 := Max(x, 0), Max(y, 0);
      var x1, y1 := Max(x0, Min(x + w, width)), Max(y0, Min(y + h, height));
      for px := x0 to x1
        invariant forall a, b :: 0 <= a < width && 0 <= b < height ==>
          pixels[a, b] == (if x0 <= a < px && y0 <= b < y1 then colour else old(pixels[a, b]))
      {
        for py := y0 to y1
          invariant forall a, b :: 0 <= a < width && 0 <= b < height ==>
            pixels[a, b] == (if (x0 <= a < px && y0 <= b < y1) || (a == px && y0 <= b < py)
                             then colour else old(pixels[a, b]))
        {
          pixels[px, py] := colour;
        }
      }
    }

    /**
     * `drawImage(src, x, y)`: the pixels of `src` are copied with their top-left corner
     * at (x, y), clipped to this canvas, and the operations recorded on `src` are
     * replayed here shifted by (x, y).
     */
    method DrawCanvas(src: Canvas, x: int, y: int)
      requires Valid() && src.Valid() && src.pixels != pixels
      modifies this, pixels
      ensures ops == old(ops) + TranslateAll(src.ops, x, y)
      ensures forall px, py :: 0 <= px < width && 0 <= py < height ==>
        pixels[px, py] == (if InRect(px, py, x, y, src.width, src.height)
                           then src.pixels[px - x, py - y] else old(pixels[px, py]))
    {
      var x0, y0 := Max(x, 0), Max(y, 0);
      var x1, y1 := Max(x0, Min(x + src.width, width)), Max(y0, Min(y + src.height, height));
      for px := x0 to x1
        modifies pixels
        invariant forall a, b :: 0 <= a < width && 0 <= b < height ==>
          pixels[a, b] == (if x0 <= a < px && y0 <= b < y1 then src.pixels[a - x, b - y] else old(pixels[a, b]))
      {
        for py := y0 to y1
          invariant forall a, b :: 0 <= a < width && 0 <= b < height ==>
            pixels[a, b] == (if (x0 <= a < px && y0 <= b < y1) || (a == px && y0 <= b < py)
                             then src.pixels[a - x, b - y] else old(pixels[a, b]))
        {
          pixels[px, py] := src.pixels[px - x, py - y];
        }
      }
      ops := ops + TranslateAll(src.ops, x, y);
    }

    /** `roundRect(x, y, w, h, radius)` followed by `stroke()`. */
    method StrokeRoundRect(x: int, y: int, w: int, h: int, radius: int, lineWidth: int, colour: Colour)
      modifies this
      ensures ops == old(ops) + [Op.StrokeRoundRect(x, y, w, h, radius, lineWidth, colour)]
    {
      ops := ops + [Op.StrokeRoundRect(x, y, w, h, radius, lineWidth, colour)];
    }

    /** `drawImage(img, x, y, size, size)` where `img` is the rendered QR symbol. */
    method DrawSymbol(x: real, y: real, size: real)
      modifies this
      ensures ops == old(ops) + [Op.DrawSymbol(x, y, size)]
    {
      ops := ops + [Op.DrawSymbol(x, y, size)];
    }

    /** `fillText(text, x, y)` under the given font, colour, alignment and shadow. */
    method FillText(text: string, x: real, y: real, style: TextStyle)
      modifies this
      ensures ops == old(ops) + [Op.FillText(text, x, y, style)]
    {
      ops := ops + [Op.FillText(text, x, y, style)];
    }
  }
}
