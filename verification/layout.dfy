/**
 * The layout arithmetic of the presentation builder, as functions on values.
 * A call `slide.addText(text, options)` is modelled as appending one TextBox
 * record to the slide's sequence of boxes; each `…Layout` function gives the
 * boxes an `add…` routine appends and the cursor it returns.
 * All lengths are inches, as exact reals.
 */
module Layout {
  import opened Config
  import opened Parser

  /** One text box handed to the renderer: position, size, text and font. */
  datatype TextBox = TextBox(x: real, y: real, w: real, h: real, text: string, fontSize: real, fontFace: string, bold: bool)

  /** The boxes an `add…` routine appends, and the y cursor it returns. */
  datatype Placement = Placement(boxes: seq<TextBox>, nextY: real)

  function MaxReal(a: real, b: real): real { if a >= b then a else b }
  function MinReal(a: real, b: real): real { if a <= b then a else b }
  function MaxInt(a: int, b: int): int { if a >= b then a else b }
  function MinInt(a: int, b: int): int { if a <= b then a else b }

  /** `Math.ceil`, through `Floor`. */
  function Ceil(x: real): (n: int)
    ensures x <= n as real < x + 1.0
  {
    -((-x).Floor)
  }

  /** Multiplying by a positive number keeps the order (the step `Math.ceil` needs). */
  lemma ScaleBy(a: real, b: real, d: real)
    requires a <= b && d > 0.0
    ensures a * d <= b * d
    ensures a < b ==> a * d < b * d
  {
    assert b * d - a * d == (b - a) * d;
  }

  // ---- padding and widths ----

  function LeftPadding(c: LayoutConfig): (p: real)
    ensures p * 72.0 == c.contentPaddingLeft
  {
    PtToInch(c.contentPaddingLeft)
  }

  function TopPadding(c: LayoutConfig): (p: real)
    ensures p * 72.0 == c.contentPaddingTop
  {
    PtToInch(c.contentPaddingTop)
  }

  /** The right padding is the left padding: there is no separate setting. */
  function RightPadding(c: LayoutConfig): (p: real)
    ensures p == LeftPadding(c)
  {
    PtToInch(c.contentPaddingLeft)
  }

  /** The slide width less both paddings, but never below one inch. */
  function ContentWidth(c: LayoutConfig): (w: real)
    ensures w >= 1.0 && w >= c.slideWidth - 2.0 * LeftPadding(c)
    ensures w == 1.0 || w == c.slideWidth - 2.0 * LeftPadding(c)
  {
    var width := c.slideWidth - LeftPadding(c) - RightPadding(c);
    MaxReal(width, 1.0)
  }

  /** Width of heading and vertical boxes: the `min` with ContentWidth never changes the raw width. */
  function FullWidth(c: LayoutConfig): (w: real)
    ensures w == c.slideWidth - 2.0 * LeftPadding(c)
  {
    MinReal(ContentWidth(c), c.slideWidth - LeftPadding(c) - RightPadding(c))
  }

  // ---- the text-height estimate ----

  /** Height of one line: the font size plus 40% leading. */
  function LineHeight(fontSize: real): (lh: real)
    ensures lh * 72.0 == fontSize * 1.4
    ensures fontSize > 0.0 ==> lh > 0.0
  {
    PtToInch(fontSize) * 1.4
  }

  /** How many characters of 0.9 em fit across `width`; zero or negative when not even one does. */
  function CharsPerLine(fontSize: real, width: real): (n: int)
    requires fontSize != 0.0
  {
    (width / (PtToInch(fontSize) * 0.9)).Floor
  }

  /** The number of wrapped lines: the text length over the characters per line (at least one), rounded up. */
  function LineCount(text: string, fontSize: real, width: real): int
    requires fontSize != 0.0
  {
    Ceil((|text| as real) / (MaxInt(CharsPerLine(fontSize, width), 1) as real))
  }

  /** estimateTextHeight: the wrapped line count times the line height, and never less than one line. */
  function EstimateTextHeight(text: string, fontSize: real, width: real): (h: real)
    requires fontSize != 0.0
    ensures fontSize > 0.0 ==> h >= LineHeight(fontSize)
  {
    var lines := LineCount(text, fontSize, width);
    var lineHeight := LineHeight(fontSize);
    MaxReal(lines as real * lineHeight, lineHeight)
  }

  // ---- headings and vertical boxes ----

  /** addHeading: one bold full-width box at `y`; the cursor moves past it and the heading margin. */
  function HeadingLayout(c: LayoutConfig, text: string, y: real): (p: Placement)
    requires ValidConfig(c)
    ensures |p.boxes| == 1 && p.boxes[0].text == text && p.boxes[0].bold
    ensures p.boxes[0].y == y && p.boxes[0].x == LeftPadding(c) && p.boxes[0].w == FullWidth(c)
    ensures p.boxes[0].h == EstimateTextHeight(text, c.headingFontSize, FullWidth(c))
    ensures p.boxes[0].fontSize == c.headingFontSize && p.boxes[0].fontFace == c.fontFace
    ensures c.headingFontSize > 0.0 ==> p.boxes[0].h >= LineHeight(c.headingFontSize)
    ensures p.nextY == y + p.boxes[0].h + PtToInch(c.headingMarginBottom)
  {
    var width := FullWidth(c);
    var height := EstimateTextHeight(text, c.headingFontSize, width);
    Placement([TextBox(LeftPadding(c), y, width, height, text, c.headingFontSize, c.fontFace, true)],
              y + height + PtToInch(c.headingMarginBottom))
  }

  /** The box addVerticalBoxes emits for `text` at `y`. */
  function StackedBox(c: LayoutConfig, text: string, y: real): TextBox
    requires ValidConfig(c)
  {
    TextBox(LeftPadding(c), y, FullWidth(c), EstimateTextHeight(text, c.bodyFontSize, FullWidth(c)),
            text, c.bodyFontSize, c.fontFace, false)
  }

  /** addVerticalBoxes: one full-width box per text, each below the previous one and the vertical margin. */
  function VerticalLayout(c: LayoutConfig, texts: seq<string>, y: real): (p: Placement)
    requires ValidConfig(c)
    ensures |p.boxes| == |texts|
    decreases |texts|
  {
    if texts == [] then Placement([], y)
    else
      var box := StackedBox(c, texts[0], y);
      var rest := VerticalLayout(c, texts[1..], y + box.h + PtToInch(c.bodyBoxMarginVertical));
      Placement([box] + rest.boxes, rest.nextY)
  }

  // ---- horizontal boxes ----

  /** `horizontalBoxesPerRow || 3`: an unset or zero column count means three. */
  function BoxesPerRow(c: LayoutConfig): (k: nat)
    ensures k >= 1
    ensures c.horizontalBoxesPerRow != 0 ==> k == c.horizontalBoxesPerRow
  {
    if c.horizontalBoxesPerRow == 0 then 3 else c.horizontalBoxesPerRow
  }

  /** The column width: the content width less the gaps, floored at one inch per column, shared out. */
  function ColumnWidth(c: LayoutConfig): (bw: real)
    ensures bw >= 1.0
  {
    var k := BoxesPerRow(c);
    var contentWidth := c.slideWidth - LeftPadding(c) - RightPadding(c);
    var totalHMargin := PtToInch(c.bodyBoxMarginHorizontal) * ((k - 1) as real);
    var availableWidth := MaxReal(contentWidth - totalHMargin, k as real);
    availableWidth / (k as real)
  }

  /** The distance from one column's left edge to the next one's. */
  function ColumnStep(c: LayoutConfig): real
  {
    ColumnWidth(c) + PtToInch(c.bodyBoxMarginHorizontal)
  }

  /** The height of a row: the largest estimate among its texts, starting from 0. */
  function RowHeight(c: LayoutConfig, row: seq<string>): real
    requires ValidConfig(c)
    decreases |row|
  {
    if row == [] then 0.0
    else
      var m := RowHeight(c, row[..|row| - 1]);
      var h := EstimateTextHeight(row[|row| - 1], c.bodyFontSize, ColumnWidth(c));
      if h > m then h else m
  }

  /** The width of a box whose left edge is at `x`: the column width cut at the right padding, but at least half an inch. */
  function BoxWidth(c: LayoutConfig, x: real): (w: real)
    ensures 0.5 <= w <= MaxReal(ColumnWidth(c), 0.5)
  {
    MaxReal(MinReal(ColumnWidth(c), c.slideWidth - x - RightPadding(c)), 0.5)
  }

  /** The boxes of one row, left to right from `x`, all at `y` with height `h`. */
  function PlaceRow(c: LayoutConfig, row: seq<string>, x: real, y: real, h: real): (boxes: seq<TextBox>)
    requires ValidConfig(c)
    ensures |boxes| == |row|
    decreases |row|
  {
    if row == [] then []
    else
      [TextBox(x, y, BoxWidth(c, x), h, row[0], c.bodyFontSize, c.fontFace, false)]
      + PlaceRow(c, row[1..], x + ColumnStep(c), y, h)
  }

  /** The texts cut into rows of `k`; only the last row may be shorter. */
  function Rows(texts: seq<string>, k: nat): (rows: seq<seq<string>>)
    requires k >= 1
    ensures forall r :: 0 <= r < |rows| ==> 1 <= |rows[r]| <= k
    decreases |texts|
  {
    if texts == [] then []
    else
      var rowEnd := MinInt(k, |texts|);
      [texts[..rowEnd]] + Rows(texts[rowEnd..], k)
  }

  /** The rows laid out top to bottom from `y`, each as tall as its tallest estimate, separated by the vertical margin. */
  function RowsLayout(c: LayoutConfig, rows: seq<seq<string>>, y: real): (p: Placement)
    requires ValidConfig(c)
    decreases |rows|
  {
    if rows == [] then Placement([], y)
    else
      var h := RowHeight(c, rows[0]);
      var row := PlaceRow(c, rows[0], LeftPadding(c), y, h);
      var rest := RowsLayout(c, rows[1..], y + h + PtToInch(c.bodyBoxMarginVertical));
      Placement(row + rest.boxes, rest.nextY)
  }

  /** addHorizontalBoxes: nothing for no texts, otherwise the rows of `BoxesPerRow` texts. */
  function HorizontalLayout(c: LayoutConfig, texts: seq<string>, y: real): (p: Placement)
    requires ValidConfig(c)
  {
    if |texts| == 0 then Placement([], y)
    else RowsLayout(c, Rows(texts, BoxesPerRow(c)), y)
  }

  // ---- slides and the deck ----

  function BlockLayout(c: LayoutConfig, block: Block, y: real): Placement
    requires ValidConfig(c)
  {
    match block
    case Vertical(texts) => VerticalLayout(c, texts, y)
    case Horizontal(texts) => HorizontalLayout(c, texts, y)
  }

  /** The blocks of a slide, each starting where the previous one left the cursor. */
  function BlocksLayout(c: LayoutConfig, blocks: seq<Block>, y: real): Placement
    requires ValidConfig(c)
    decreases |blocks|
  {
    if blocks == [] then Placement([], y)
    else
      var first := BlockLayout(c, blocks[0], y);
      var rest := BlocksLayout(c, blocks[1..], first.nextY);
      Placement(first.boxes + rest.boxes, rest.nextY)
  }

  /** Whether addSlide emits a heading: only for a present, non-empty heading. */
  predicate ShowsHeading(s: Slide)
  {
    s.heading.Some? && s.heading.value != []
  }

  /** addSlide: from the top padding, the heading (if any) and then the blocks. */
  function SlideLayout(c: LayoutConfig, s: Slide): seq<TextBox>
    requires ValidConfig(c)
  {
    var top := TopPadding(c);
    var head := if ShowsHeading(s) then HeadingLayout(c, s.heading.value, top) else Placement([], top);
    head.boxes + BlocksLayout(c, s.blocks, head.nextY).boxes
  }

  /** build: every slide laid out on its own page, in order. */
  function DeckLayout(c: LayoutConfig, slides: seq<Slide>): (pages: seq<seq<TextBox>>)
    requires ValidConfig(c)
    ensures |pages| == |slides|
    ensures forall i :: 0 <= i < |slides| ==> pages[i] == SlideLayout(c, slides[i])
    decreases |slides|
  {
    if slides == [] then []
    else DeckLayout(c, slides[..|slides| - 1]) + [SlideLayout(c, slides[|slides| - 1])]
  }

  // ---- one step of each layout, as the builder's loops take it ----

  lemma VerticalStep(c: LayoutConfig, texts: seq<string>, i: nat, y: real)
    requires ValidConfig(c) && i < |texts|
    ensures var box := StackedBox(c, texts[i], y);
            var rest := VerticalLayout(c, texts[i + 1..], y + box.h + PtToInch(c.bodyBoxMarginVertical));
            VerticalLayout(c, texts[i..], y) == Placement([box] + rest.boxes, rest.nextY)
  {
    assert texts[i..][1..] == texts[i + 1..];
  }

  lemma PlaceRowStep(c: LayoutConfig, row: seq<string>, j: nat, x: real, y: real, h: real)
    requires ValidConfig(c) && j < |row|
    ensures PlaceRow(c, row[j..], x, y, h)
         == [TextBox(x, y, BoxWidth(c, x), h, row[j], c.bodyFontSize, c.fontFace, false)]
            + PlaceRow(c, row[j + 1..], x + ColumnStep(c), y, h)
  {
    assert row[j..][1..] == row[j + 1..];
  }

  lemma RowHeightStep(c: LayoutConfig, row: seq<string>, j: nat)
    requires ValidConfig(c) && j < |row|
    ensures var h := EstimateTextHeight(row[j], c.bodyFontSize, ColumnWidth(c));
            var m := RowHeight(c, row[..j]);
            RowHeight(c, row[..j + 1]) == if h > m then h else m
  {
    assert row[..j + 1][..j] == row[..j];
  }

  /** The row starting at `rowStart` is `texts[rowStart..rowEnd]`, followed by the rows after it. */
  lemma RowsStep(c: LayoutConfig, texts: seq<string>, k: nat, rowStart: nat, rowEnd: nat, y: real, h: real, nextY: real)
    requires ValidConfig(c) && k >= 1 && rowStart < |texts|
    requires rowEnd == MinInt(rowStart + k, |texts|) && h == RowHeight(c, texts[rowStart..rowEnd])
    requires nextY == y + h + PtToInch(c.bodyBoxMarginVertical)
    ensures RowsLayout(c, Rows(texts[rowStart..], k), y).boxes
         == PlaceRow(c, texts[rowStart..rowEnd], LeftPadding(c), y, h) + RowsLayout(c, Rows(texts[rowEnd..], k), nextY).boxes
    ensures RowsLayout(c, Rows(texts[rowStart..], k), y).nextY == RowsLayout(c, Rows(texts[rowEnd..], k), nextY).nextY
  {
    RowsCons(texts, k, rowStart, rowEnd);
    RowsLayoutCons(c, texts[rowStart..rowEnd], Rows(texts[rowEnd..], k), y, h, nextY);
  }

  /** Cutting rows from `rowStart` takes the first row and cuts the rest from `rowEnd`. */
  lemma RowsCons(texts: seq<string>, k: nat, rowStart: nat, rowEnd: nat)
    requires k >= 1 && rowStart < |texts| && rowEnd == MinInt(rowStart + k, |texts|)
    ensures Rows(texts[rowStart..], k) == [texts[rowStart..rowEnd]] + Rows(texts[rowEnd..], k)
  {
    var tail := texts[rowStart..];
    assert tail[..MinInt(k, |tail|)] == texts[rowStart..rowEnd];
    assert tail[MinInt(k, |tail|)..] == texts[rowEnd..];
  }

  /** The first row is placed at `y`, and the others from below it. */
  lemma RowsLayoutCons(c: LayoutConfig, row: seq<string>, rows: seq<seq<string>>, y: real, h: real, nextY: real)
    requires ValidConfig(c) && h == RowHeight(c, row)
    requires nextY == y + h + PtToInch(c.bodyBoxMarginVertical)
    ensures RowsLayout(c, [row] + rows, y).boxes == PlaceRow(c, row, LeftPadding(c), y, h) + RowsLayout(c, rows, nextY).boxes
    ensures RowsLayout(c, [row] + rows, y).nextY == RowsLayout(c, rows, nextY).nextY
  {
    assert ([row] + rows)[0] == row;
    assert ([row] + rows)[1..] == rows;
  }

  /** Stacking the box of text i moves the builder's loop invariant to the next text. */
  lemma VerticalAdvance(c: LayoutConfig, texts: seq<string>, i: nat, y: real,
                        before: seq<TextBox>, after: seq<TextBox>, nextY: real, target: Placement)
    requires ValidConfig(c) && i < |texts|
    requires before + VerticalLayout(c, texts[i..], y).boxes == target.boxes
    requires VerticalLayout(c, texts[i..], y).nextY == target.nextY
    requires after == before + [StackedBox(c, texts[i], y)]
    requires nextY == y + StackedBox(c, texts[i], y).h + PtToInch(c.bodyBoxMarginVertical)
    ensures after + VerticalLayout(c, texts[i + 1..], nextY).boxes == target.boxes
    ensures VerticalLayout(c, texts[i + 1..], nextY).nextY == target.nextY
  {
    VerticalStep(c, texts, i, y);
    Regroup(before, [StackedBox(c, texts[i], y)], VerticalLayout(c, texts[i + 1..], nextY).boxes, target.boxes);
  }

  /** Placing the row at `rowStart` moves the builder's loop invariant to the next row. */
  lemma RowAdvance(c: LayoutConfig, texts: seq<string>, k: nat, rowStart: nat, rowEnd: nat, y: real, h: real,
                   before: seq<TextBox>, after: seq<TextBox>, nextY: real, target: Placement)
    requires ValidConfig(c) && k >= 1 && rowStart < |texts|
    requires rowEnd == MinInt(rowStart + k, |texts|) && h == RowHeight(c, texts[rowStart..rowEnd])
    requires before + RowsLayout(c, Rows(texts[rowStart..], k), y).boxes == target.boxes
    requires RowsLayout(c, Rows(texts[rowStart..], k), y).nextY == target.nextY
    requires after == before + PlaceRow(c, texts[rowStart..rowEnd], LeftPadding(c), y, h)
    requires nextY == y + h + PtToInch(c.bodyBoxMarginVertical)
    ensures after + RowsLayout(c, Rows(texts[rowEnd..], k), nextY).boxes == target.boxes
    ensures RowsLayout(c, Rows(texts[rowEnd..], k), nextY).nextY == target.nextY
  {
    RowsStep(c, texts, k, rowStart, rowEnd, y, h, nextY);
    Regroup(before, PlaceRow(c, texts[rowStart..rowEnd], LeftPadding(c), y, h),
            RowsLayout(c, Rows(texts[rowEnd..], k), nextY).boxes, target.boxes);
  }

  /** Boxes appended to the page leave the boxes still to come unchanged. */
  lemma Regroup(before: seq<TextBox>, part: seq<TextBox>, rest: seq<TextBox>, target: seq<TextBox>)
    requires before + (part + rest) == target
    ensures (before + part) + rest == target
  {
    assert (before + part) + rest == before + (part + rest);
  }

  lemma BlocksStep(c: LayoutConfig, blocks: seq<Block>, i: nat, y: real)
    requires ValidConfig(c) && i < |blocks|
    ensures var first := BlockLayout(c, blocks[i], y);
            var rest := BlocksLayout(c, blocks[i + 1..], first.nextY);
            BlocksLayout(c, blocks[i..], y) == Placement(first.boxes + rest.boxes, rest.nextY)
  {
    assert blocks[i..][1..] == blocks[i + 1..];
  }

  /** Laying out the block at `i` moves the builder's slide invariant to the next block. */
  lemma BlockAdvance(c: LayoutConfig, blocks: seq<Block>, i: nat, y: real,
                     before: seq<TextBox>, after: seq<TextBox>, nextY: real, target: seq<TextBox>)
    requires ValidConfig(c) && i < |blocks|
    requires before + BlocksLayout(c, blocks[i..], y).boxes == target
    requires after == before + BlockLayout(c, blocks[i], y).boxes
    requires nextY == BlockLayout(c, blocks[i], y).nextY
    ensures after + BlocksLayout(c, blocks[i + 1..], nextY).boxes == target
  {
    BlocksStep(c, blocks, i, y);
    Regroup(before, BlockLayout(c, blocks[i], y).boxes, BlocksLayout(c, blocks[i + 1..], nextY).boxes, target);
  }
}
