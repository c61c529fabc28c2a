/**
 * The batch generator: the editable list of batch items, the filter that keeps
 * the items with content, and the compositor that lays the kept items out on a
 * square grid of fixed-size cells.
 */
module BatchGenerator {
  import opened Common
  import opened Text
  import opened Raster
  import opened StyleCustomizer

  datatype BatchItem = BatchItem(id: int, content: string, labelText: string)

  /** The two fields the item inputs edit. */
  datatype Field = Content | Label

  // ---------------------------------------------------------------------------
  // The item list

  /** The list the component starts with: one empty item with id 1. */
  function InitialItems(): (items: seq<BatchItem>)
    ensures |items| == 1 && items[0].content == [] && items[0].labelText == []
  {
    [BatchItem(1, [], [])]
  }

  /** Keeps, in order, the elements that satisfy `keep` (JavaScript's `Array.prototype.filter`). */
  function Filter<T>(s: seq<T>, keep: T -> bool): (r: seq<T>)
    ensures |r| <= |s|
    ensures forall i :: 0 <= i < |r| ==> r[i] in s && keep(r[i])
    ensures forall i :: 0 <= i < |s| && keep(s[i]) ==> s[i] in r
  {
    if s == [] then []
    else if keep(s[0]) then [s[0]] + Filter(s[1..], keep)
    else Filter(s[1..], keep)
  }

  /** Filtering a concatenation filters each part in place: the kept elements keep their order. */
  lemma {:induction false} FilterAppend<T>(a: seq<T>, b: seq<T>, keep: T -> bool)
    ensures Filter(a + b, keep) == Filter(a, keep) + Filter(b, keep)
  {
    if a != [] {
      assert (a + b)[1..] == a[1..] + b;
      FilterAppend(a[1..], b, keep);
    } else {
      assert a + b == b;
    }
  }

  /** A list whose every element is kept comes through unchanged. */
  lemma {:induction false} FilterKeepsAll<T>(s: seq<T>, keep: T -> bool)
    requires forall i :: 0 <= i < |s| ==> keep(s[i])
    ensures Filter(s, keep) == s
  {
    if s != [] {
      FilterKeepsAll(s[1..], keep);
    }
  }

  /** `addBatchItem`: one empty item with the given (clock-derived) id is appended. */
  function AddBatchItem(items: seq<BatchItem>, id: int): (r: seq<BatchItem>)
    ensures |r| == |items| + 1 && r[..|items|] == items
    ensures r[|items|].id == id && r[|items|].content == [] && r[|items|].labelText == []
  {
    items + [BatchItem(id, [], [])]
  }

  /** `removeBatchItem`: every item carrying the id goes, the others stay in their order. */
  function RemoveBatchItem(items: seq<BatchItem>, id: int): (r: seq<BatchItem>)
    ensures |r| <= |items|
    ensures forall it :: it in r <==> it in items && it.id != id
  {
    Filter(items, (it: BatchItem) => it.id != id)
  }

  /** Removing from a concatenation removes from each part; an absent id changes nothing. */
  lemma RemoveBatchItemPreservesOrder(a: seq<BatchItem>, b: seq<BatchItem>, id: int)
    ensures RemoveBatchItem(a + b, id) == RemoveBatchItem(a, id) + RemoveBatchItem(b, id)
    ensures (forall i :: 0 <= i < |a| ==> a[i].id != id) ==> RemoveBatchItem(a, id) == a
  {
    FilterAppend(a, b, (it: BatchItem) => it.id != id);
    if forall i :: 0 <= i < |a| ==> a[i].id != id {
      FilterKeepsAll(a, (it: BatchItem) => it.id != id);
    }
  }

  /** Ids are not unique: two items added in the same millisecond share one, and removing it removes both. */
  lemma RemoveSharedId()
    ensures RemoveBatchItem([BatchItem(7, "a", ""), BatchItem(7, "b", "")], 7) == []
  {
    var items := [BatchItem(7, "a", ""), BatchItem(7, "b", "")];
    assert items[1..][1..] == [];
  }

  /** Removing the id of a just-added item, when no earlier item has that id, gives back the list before the add. */
  lemma RemoveUndoesAdd(items: seq<BatchItem>, id: int)
    requires forall i :: 0 <= i < |items| ==> items[i].id != id
    ensures RemoveBatchItem(AddBatchItem(items, id), id) == items
  {
    RemoveBatchItemPreservesOrder(items, [BatchItem(id, [], [])], id);
    assert [BatchItem(id, [], [])][1..] == [];
  }

  function SetField(item: BatchItem, field: Field, value: string): (r: BatchItem)
    ensures r.id == item.id
    ensures r.content == (if field == Content then value else item.content)
    ensures r.labelText == (if field == Label then value else item.labelText)
  {
    match field
    case Content => item.(content := value)
    case Label => item.(labelText := value)
  }

  /**
   * `updateBatchItem`: the list keeps its length and order; items with the id get
   * the new value in the edited field and keep everything else.
   */
  function UpdateBatchItem(items: seq<BatchItem>, id: int, field: Field, value: string): (r: seq<BatchItem>)
    ensures |r| == |items|
    ensures forall k :: 0 <= k < |items| ==> r[k].id == items[k].id
    ensures forall k :: 0 <= k < |items| ==>
      r[k].content == (if items[k].id == id && field == Content then value else items[k].content)
    ensures forall k :: 0 <= k < |items| ==>
      r[k].labelText == (if items[k].id == id && field == Label then value else items[k].labelText)
  {
    seq(|items|, k requires 0 <= k < |items| => if items[k].id == id then SetField(items[k], field, value) else items[k])
  }

  /** Filters that agree position by position keep equally many elements. */
  lemma {:induction false} FilterSameVerdicts<T>(a: seq<T>, b: seq<T>, keep: T -> bool)
    requires |a| == |b| && forall i :: 0 <= i < |a| ==> keep(a[i]) == keep(b[i])
    ensures |Filter(a, keep)| == |Filter(b, keep)|
  {
    if a != [] {
      FilterSameVerdicts(a[1..], b[1..], keep);
    }
  }

  /** Updating an id no item carries changes nothing. */
  lemma UpdateAbsentId(items: seq<BatchItem>, id: int, field: Field, value: string)
    requires forall i :: 0 <= i < |items| ==> items[i].id != id
    ensures UpdateBatchItem(items, id, field, value) == items
  {
  }

  /** The items that take part in a batch: those whose content is not blank, in list order. */
  function ValidItems(items: seq<BatchItem>): (r: seq<BatchItem>)
    ensures |r| <= |items|
    ensures forall it :: it in r <==> it in items && !IsBlank(it.content)
    ensures forall k :: 0 <= k < |r| ==> !AllWhitespace(r[k].content)
  {
    var r := Filter(items, (it: BatchItem) => !IsBlank(it.content));
    forall k | 0 <= k < |r| ensures !AllWhitespace(r[k].content) {
      BlankIffAllWhitespace(r[k].content);
    }
    r
  }

  /** The valid items of a concatenation are those of each part, in order. */
  lemma ValidItemsAppend(a: seq<BatchItem>, b: seq<BatchItem>)
    ensures ValidItems(a + b) == ValidItems(a) + ValidItems(b)
  {
    FilterAppend(a, b, (it: BatchItem) => !IsBlank(it.content));
  }

  /** Editing a label never changes how many items the batch will draw (the count on the generate button). */
  lemma LabelEditKeepsValidCount(items: seq<BatchItem>, id: int, value: string)
    ensures |ValidItems(UpdateBatchItem(items, id, Label, value))| == |ValidItems(items)|
  {
    FilterSameVerdicts(UpdateBatchItem(items, id, Label, value), items, (it: BatchItem) => !IsBlank(it.content));
  }

  // ---------------------------------------------------------------------------
  // Grid size

  /** The least k' >= k whose square reaches n. */
  function CeilSqrtFrom(n: nat, k: nat): (g: nat)
    requires k == 0 || (k - 1) * (k - 1) < n
    ensures k <= g && n <= g * g && (g == 0 || (g - 1) * (g - 1) < n)
    decreases n - k
  {
    if n <= k * k then k
    else
      assert k <= k * k;
      CeilSqrtFrom(n, k + 1)
  }

  /** `Math.ceil(Math.sqrt(n))`: the side of the smallest square grid holding n items. */
  function GridSize(n: nat): (g: nat)
    ensures n <= g * g
    ensures n >= 1 ==> g >= 1 && (g - 1) * (g - 1) < n
    ensures n == 0 ==> g == 0
  {
    CeilSqrtFrom(n, 0)
  }

  lemma SquareMonotonic(a: nat, b: nat)
    requires a <= b
    ensures a * a <= b * b
  {
    assert a * a <= a * b <= b * b;
  }

  /** The grid size is the only g with (g-1)^2 < n <= g^2. */
  lemma GridSizeUnique(n: nat, g: nat)
    requires n >= 1 && g >= 1 && (g - 1) * (g - 1) < n <= g * g
    ensures g == GridSize(n)
  {
    var h := GridSize(n);
    if g < h {
      SquareMonotonic(g, h - 1);
    } else if g > h {
      SquareMonotonic(h, g - 1);
    }
  }

  /** In an n-item batch, g*g - n cells stay blank, and that is fewer than two grid rows. */
  lemma BlankCellCount(n: nat)
    requires n >= 1
    ensures var g := GridSize(n); 0 <= g * g - n <= 2 * g - 2
  {
    var g: int := GridSize(n);
    assert (g - 1) * (g - 1) == g * g - 2 * g + 1;
  }

  /** The worked examples: 5 items need a 3 x 3 grid with 4 blank cells, 9 items fill it exactly. */
  lemma GridSizeExamples()
    ensures GridSize(5) == 3 && GridSize(5) * GridSize(5) - 5 == 4
    ensures GridSize(9) == 3 && GridSize(9) * GridSize(9) - 9 == 0
    ensures GridSize(1) == 1
  {
    GridSizeUnique(5, 3);
    GridSizeUnique(9, 3);
    GridSizeUnique(1, 1);
  }

  // ---------------------------------------------------------------------------
  // Cell layout

  /** Side of one cell's square, the gap between cells, and the distance from one cell to the next. */
  const QrSize: nat := 200
  const CellPadding: nat := 20
  const CellPitch: nat := 220

  /** The canvas a batch is composed on starts white. */
  const White: Colour := "#ffffff"

  /** Row-major placement: item i goes to row i / g, column i % g. */
  function CellRow(i: nat, g: nat): (row: nat)
    requires g >= 1
    ensures row * g <= i < row * g + g
  {
    i / g
  }

  function CellCol(i: nat, g: nat): (col: nat)
    requires g >= 1
    ensures col < g
  {
    i % g
  }

  /** Row and column recover the index, so distinct items get distinct cells, all within the grid. */
  lemma RowMajorPlacement(i: nat, j: nat, g: nat)
    requires g >= 1
    ensures CellRow(i, g) * g + CellCol(i, g) == i
    ensures i < g * g ==> CellRow(i, g) < g
    ensures i != j ==> (CellRow(i, g), CellCol(i, g)) != (CellRow(j, g), CellCol(j, g))
  {
    var row, col := CellRow(i, g), CellCol(i, g);
    assert row * g + col == i;
    if i < g * g {
      assert (g - row) * g == g * g - row * g;
      FactorPositive(g - row, g);
    }
    if i != j {
      assert CellRow(j, g) * g + CellCol(j, g) == j;
    }
  }

  lemma FactorPositive(a: int, g: nat)
    requires g >= 1 && a * g > 0
    ensures a > 0
  {
  }

  /** Left and top edges of cell i's 200 x 200 square: half a gap inside its 220-pixel slot. */
  function CellX(i: nat, g: nat): (x: nat)
    requires g >= 1
    ensures var slot := CellCol(i, g) * CellPitch;
      x - slot == slot + CellPitch - (x + QrSize) && x - slot == CellPadding / 2
  {
    CellCol(i, g) * CellPitch + CellPadding / 2
  }

  function CellY(i: nat, g: nat): (y: nat)
    requires g >= 1
    ensures var slot := CellRow(i, g) * CellPitch;
      y - slot == slot + CellPitch - (y + QrSize) && y - slot == CellPadding / 2
  {
    CellRow(i, g) * CellPitch + CellPadding / 2
  }

  predicate InCell(k: nat, g: nat, px: int, py: int)
    requires g >= 1
  {
    InRect(px, py, CellX(k, g), CellY(k, g), QrSize, QrSize)
  }

  /** Every cell of a g x g grid lies inside the 220g x 220g canvas. */
  lemma CellInsideCanvas(k: nat, g: nat)
    requires g >= 1 && k < g * g
    ensures 0 < CellX(k, g) && CellX(k, g) + QrSize < CellPitch * g
    ensures 0 < CellY(k, g) && CellY(k, g) + QrSize < CellPitch * g
  {
    RowMajorPlacement(k, k, g);
    assert CellRow(k, g) + 1 <= g;
    assert (CellRow(k, g) + 1) * CellPitch <= g * CellPitch;
  }

  /** The cell, if any, whose square contains the point: the only candidate is the 220-pixel slot it falls in. */
  function CoveringCell(g: nat, px: nat, py: nat): (c: Option<nat>)
    requires g >= 1
  {
    if 10 <= px % CellPitch < 210 && 10 <= py % CellPitch < 210 && px / CellPitch < g
    then Some((py / CellPitch) * g + px / CellPitch)
    else None
  }

  lemma MulAtLeast(d: int, g: nat)
    requires d >= 1
    ensures d * g >= g
  {
    assert d * g == (d - 1) * g + g;
  }

  lemma DivModUnique(q: nat, r: nat, g: nat)
    requires r < g
    ensures (q * g + r) / g == q && (q * g + r) % g == r
  {
    var n := q * g + r;
    var q', r' := n / g, n % g;
    assert n == q' * g + r';
    assert (q - q') * g == r' - r by {
      assert (q - q') * g == q * g - q' * g;
    }
    if q' < q {
      MulAtLeast(q - q', g);
    } else if q' > q {
      MulAtLeast(q' - q, g);
    }
  }

  /** A point lies in cell k exactly when k is its covering cell; in particular cells never overlap. */
  lemma CoveringCellCorrect(g: nat, k: nat, px: nat, py: nat)
    requires g >= 1
    ensures InCell(k, g, px, py) <==> CoveringCell(g, px, py) == Some(k)
  {
    var row, col := CellRow(k, g), CellCol(k, g);
    RowMajorPlacement(k, k, g);
    if InCell(k, g, px, py) {
      assert px / CellPitch == col && py / CellPitch == row;
    }
    if CoveringCell(g, px, py) == Some(k) {
      DivModUnique(py / CellPitch, px / CellPitch, g);
    }
  }

  /** Two distinct cells share no pixel. */
  lemma CellsDisjoint(g: nat, j: nat, k: nat, px: nat, py: nat)
    requires g >= 1 && j != k
    ensures !(InCell(j, g, px, py) && InCell(k, g, px, py))
  {
    CoveringCellCorrect(g, j, px, py);
    CoveringCellCorrect(g, k, px, py);
  }

  /** Colour of a batch pixel once the first `drawn` cells have been drawn: the style background inside them, white elsewhere. */
  function BatchPixel(g: nat, bgColor: Colour, drawn: nat, px: nat, py: nat): Colour
    requires g >= 1
  {
    match CoveringCell(g, px, py)
    case Some(k) => if k < drawn then bgColor else White
    case None => White
  }

  /** With n items drawn, each occupied cell is entirely the background colour. */
  lemma OccupiedCellsBackground(g: nat, bgColor: Colour, n: nat, k: nat, px: nat, py: nat)
    requires g >= 1 && k < n && InCell(k, g, px, py)
    ensures BatchPixel(g, bgColor, n, px, py) == bgColor
  {
    CoveringCellCorrect(g, k, px, py);
  }

  /** With n items drawn, the g*g - n trailing cells are entirely white. */
  lemma BlankCellsWhite(g: nat, bgColor: Colour, n: nat, k: nat, px: nat, py: nat)
    requires g >= 1 && n <= k && InCell(k, g, px, py)
    ensures BatchPixel(g, bgColor, n, px, py) == White
  {
    CoveringCellCorrect(g, k, px, py);
  }

  /** A pixel in no cell (a gap between cells) stays white. */
  lemma GapsWhite(g: nat, bgColor: Colour, n: nat, px: nat, py: nat)
    requires g >= 1 && forall k: nat :: !InCell(k, g, px, py)
    ensures BatchPixel(g, bgColor, n, px, py) == White
  {
    if CoveringCell(g, px, py).Some? {
      CoveringCellCorrect(g, CoveringCell(g, px, py).value, px, py);
    }
  }

  // ---------------------------------------------------------------------------
  // Cell contents

  /** The placeholder text drawn in each cell instead of a symbol: "QR: " and at most 20 characters of content, then "...". */
  function Placeholder(content: string): (t: string)
    ensures |t| == 7 + (if |content| < 20 then |content| else 20)
    ensures t[..4] == "QR: " && t[|t| - 3..] == "..."
    ensures t[4..|t| - 3] <= content
  {
    "QR: " + Prefix(content, 20) + "..."
  }

  /** The placeholder's text settings: 12 pixels, regular, foreground colour, centred on the alphabetic baseline. */
  function PlaceholderStyle(style: QrStyle): (t: TextStyle)
    ensures t.fontPx == 12.0 && !t.bold && t.colour == style.fgColor
    ensures t.align == Center && t.baseline == Alphabetic && !t.shadow
  {
    TextStyle(12.0, false, style.fgColor, Center, Alphabetic, false)
  }

  /** A batch label's text settings: 14 pixels, regular, black, centred on the alphabetic baseline. */
  function LabelTextStyle(): (t: TextStyle)
    ensures t.fontPx == 14.0 && !t.bold && t.colour == "#000000"
    ensures t.align == Center && t.baseline == Alphabetic && !t.shadow
  {
    TextStyle(14.0, false, "#000000", Center, Alphabetic, false)
  }

  /**
   * The text one item contributes: its placeholder in the foreground colour at the
   * centre of its cell and, when it has a label, the label in black 15 pixels below
   * the cell, centred on it.
   */
  function ItemOps(item: BatchItem, i: nat, g: nat, style: QrStyle): (ops: seq<Op>)
    requires g >= 1
    ensures |ops| == (if item.labelText != [] then 2 else 1)
    ensures ops[0] == Op.FillText(Placeholder(item.content), (CellX(i, g) + QrSize / 2) as real,
                                  (CellY(i, g) + QrSize / 2) as real, PlaceholderStyle(style))
    ensures item.labelText != [] ==>
      ops[1] == Op.FillText(item.labelText, (CellX(i, g) + QrSize / 2) as real,
                            (CellY(i, g) + QrSize + 15) as real, LabelTextStyle())
  {
    [Op.FillText(Placeholder(item.content), (CellX(i, g) + QrSize / 2) as real,
                 (CellY(i, g) + QrSize / 2) as real, PlaceholderStyle(style))]
    + (if item.labelText != []
       then [Op.FillText(item.labelText, (CellX(i, g) + QrSize / 2) as real,
                         (CellY(i, g) + QrSize + 15) as real, LabelTextStyle())]
       else [])
  }

  /** The text of a whole batch: each item's text in item order. */
  function BatchOps(items: seq<BatchItem>, g: nat, style: QrStyle): (ops: seq<Op>)
    requires g >= 1
    ensures |items| <= |ops| <= 2 * |items|
    ensures forall k :: 0 <= k < |ops| ==> ops[k].FillText?
  {
    if items == [] then []
    else BatchOps(items[..|items| - 1], g, style) + ItemOps(items[|items| - 1], |items| - 1, g, style)
  }

  /** A batch draws one placeholder per item and one label per labelled item. */
  lemma {:induction false} BatchOpsCount(items: seq<BatchItem>, g: nat, style: QrStyle)
    requires g >= 1
    ensures |BatchOps(items, g, style)| == |items| + |Filter(items, (it: BatchItem) => it.labelText != [])|
  {
    if items != [] {
      var init, last := items[..|items| - 1], items[|items| - 1];
      assert items == init + [last];
      BatchOpsCount(init, g, style);
      FilterAppend(init, [last], (it: BatchItem) => it.labelText != []);
    }
  }

  /**
   * The layout leaves no room for labels on the bottom row: its labels have their
   * baseline 5 pixels below the canvas, so at most the top few pixels of their glyphs show.
   */
  lemma BottomRowLabelBelowCanvas(item: BatchItem, i: nat, g: nat, style: QrStyle)
    requires g >= 1 && item.labelText != [] && CellRow(i, g) == g - 1
    ensures ItemOps(item, i, g, style)[1].ty == (CellPitch * g + 5) as real
  {
  }

  // ---------------------------------------------------------------------------
  // The batch compositor

  /** Extending the drawn items by one extends the batch text by that item's text. */
  lemma BatchOpsSnoc(items: seq<BatchItem>, i: nat, g: nat, style: QrStyle)
    requires g >= 1 && i < |items|
    ensures BatchOps(items[..i + 1], g, style) == BatchOps(items[..i], g, style) + ItemOps(items[i], i, g, style)
  {
    assert items[..i + 1][..i] == items[..i];
  }

  /** Drawing cell i over the picture of cells 0..i-1 gives the picture of cells 0..i. */
  lemma DrawCellStep(g: nat, bgColor: Colour, i: nat, px: nat, py: nat, before: Colour, after: Colour)
    requires g >= 1
    requires before == BatchPixel(g, bgColor, i, px, py)
    requires after == (if InCell(i, g, px, py) then bgColor else before)
    ensures after == BatchPixel(g, bgColor, i + 1, px, py)
  {
    CoveringCellCorrect(g, i, px, py);
  }

  /**
   * One pass of the placement loop: item i is drawn on a fresh 200 x 200 canvas
   * (background, then placeholder text), that canvas is drawn into cell i, and the
   * label, if any, is written below it.
   */
  method DrawCell(canvas: Canvas, item: BatchItem, i: nat, g: nat, style: QrStyle)
    requires canvas.Valid() && g >= 1
    modifies canvas, canvas.pixels
    ensures forall px: nat, py: nat :: px < canvas.width && py < canvas.height ==>
      canvas.pixels[px, py] == (if InCell(i, g, px, py) then style.bgColor else old(canvas.pixels[px, py]))
    ensures canvas.ops == old(canvas.ops) + ItemOps(item, i, g, style)
  {
    var qrSize, padding := QrSize, CellPadding;
    var row := i / g;
    var col := i % g;
    var x := col * (qrSize + padding) + padding / 2;
    var y := row * (qrSize + padding) + padding / 2;

    var cell := new Canvas(qrSize, qrSize);
    cell.FillRect(0, 0, qrSize, qrSize, style.bgColor);
    cell.FillText(Placeholder(item.content), (qrSize / 2) as real, (qrSize / 2) as real, PlaceholderStyle(style));
    assert TranslateAll(cell.ops, x, y) == ItemOps(item, i, g, style)[..1];
    canvas.DrawCanvas(cell, x, y);

    if item.labelText != [] {
      canvas.FillText(item.labelText, (x + qrSize / 2) as real, (y + qrSize + 15) as real, LabelTextStyle());
    }
  }

  /** The placement loop: the valid items are drawn cell by cell, in order, over a white canvas. */
  method DrawCells(canvas: Canvas, validItems: seq<BatchItem>, gridSize: nat, style: QrStyle)
    requires canvas.Valid() && gridSize >= 1
    requires forall px: nat, py: nat :: px < canvas.width && py < canvas.height ==> canvas.pixels[px, py] == White
    modifies canvas, canvas.pixels
    ensures forall px: nat, py: nat :: px < canvas.width && py < canvas.height ==>
      canvas.pixels[px, py] == BatchPixel(gridSize, style.bgColor, |validItems|, px, py)
    ensures canvas.ops == old(canvas.ops) + BatchOps(validItems, gridSize, style)
  {
    for i := 0 to |validItems|
      invariant forall px: nat, py: nat :: px < canvas.width && py < canvas.height ==>
        canvas.pixels[px, py] == BatchPixel(gridSize, style.bgColor, i, px, py)
      invariant canvas.ops == old(canvas.ops) + BatchOps(validItems[..i], gridSize, style)
    {
      label LoopHead:
      DrawCell(canvas, validItems[i], i, gridSize, style);
      forall px: nat, py: nat | px < canvas.width && py < canvas.height
        ensures canvas.pixels[px, py] == BatchPixel(gridSize, style.bgColor, i + 1, px, py)
      {
        DrawCellStep(gridSize, style.bgColor, i, px, py, old@LoopHead(canvas.pixels[px, py]), canvas.pixels[px, py]);
      }
      BatchOpsSnoc(validItems, i, gridSize, style);
    }
    assert validItems[..|validItems|] == validItems;
  }

  datatype BatchOutcome = NoValidItems | Rendered(canvas: Canvas, gridSize: nat)

  /**
   * `generateBatchQRCodes`: with no valid item it reports an error and draws nothing;
   * otherwise it composes the valid items on a white 220g x 220g canvas, cell i at
   * row i / g and column i % g filled with the style background and carrying the
   * item's placeholder and label.
   */
  method GenerateBatchQRCodes(items: seq<BatchItem>, style: QrStyle) returns (outcome: BatchOutcome)
    ensures outcome.NoValidItems? <==> ValidItems(items) == []
    ensures outcome.Rendered? ==>
      var c, g, valid := outcome.canvas, outcome.gridSize, ValidItems(items);
      && fresh(c) && fresh(c.pixels) && c.Valid()
      && g == GridSize(|valid|) && g >= 1
      && c.width == CellPitch * g && c.height == c.width
      && (forall px: nat, py: nat :: px < c.width && py < c.height ==>
            c.pixels[px, py] == BatchPixel(g, style.bgColor, |valid|, px, py))
      && c.ops == BatchOps(valid, g, style)
  {
    var validItems := ValidItems(items);
    if |validItems| == 0 {
      return NoValidItems;
    }
    var canvas, gridSize := RenderBatch(validItems, style);
    return Rendered(canvas, gridSize);
  }

  /** The drawing part of `generateBatchQRCodes`, for a non-empty list of valid items. */
  method RenderBatch(validItems: seq<BatchItem>, style: QrStyle) returns (canvas: Canvas, gridSize: nat)
    requires validItems != []
    ensures fresh(canvas) && fresh(canvas.pixels) && canvas.Valid()
    ensures gridSize == GridSize(|validItems|) && gridSize >= 1
    ensures canvas.width == CellPitch * gridSize && canvas.height == canvas.width
    ensures forall px: nat, py: nat :: px < canvas.width && py < canvas.height ==>
      canvas.pixels[px, py] == BatchPixel(gridSize, style.bgColor, |validItems|, px, py)
    ensures canvas.ops == BatchOps(validItems, gridSize, style)
  {
    gridSize := GridSize(|validItems|);
    var side := (QrSize + CellPadding) * gridSize;
    canvas := WhiteCanvas(side);
    DrawCells(canvas, validItems, gridSize, style);
  }

  /** A fresh square canvas painted white, with nothing drawn on it yet. */
  method WhiteCanvas(side: nat) returns (c: Canvas)
    ensures fresh(c) && fresh(c.pixels) && c.Valid()
    ensures c.width == side && c.height == side && c.ops == []
    ensures forall px: nat, py: nat :: px < c.width && py < c.height ==> c.pixels[px, py] == White
  {
    c := new Canvas(side, side);
    c.FillRect(0, 0, side, side, White);
  }
}
