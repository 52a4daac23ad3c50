/** What the builder's layout promises: the height estimate, the stacks, the grid and the slides. */
module LayoutProps {
  import opened Config
  import opened Parser
  import opened ParserProps
  import opened Layout

  // ---- the height estimate ----

  /** The line count is the rounded-up quotient: enough lines for the text, and one fewer would not do. */
  lemma LineCountBounds(text: string, fontSize: real, width: real)
    requires fontSize != 0.0
    ensures var n := LineCount(text, fontSize, width);
            var d := MaxInt(CharsPerLine(fontSize, width), 1);
            n >= 0 && n * d >= |text| && (n - 1) * d < |text|
  {
    var d := MaxInt(CharsPerLine(fontSize, width), 1);
    var q := (|text| as real) / (d as real);
    var n := Ceil(q);
    assert q * (d as real) == |text| as real;
    ScaleBy(q, n as real, d as real);
    ScaleBy((n - 1) as real, q, d as real);
  }

  /** The estimate is a whole number of lines, at least one. */
  lemma EstimateWholeLines(text: string, fontSize: real, width: real)
    requires fontSize > 0.0
    ensures EstimateTextHeight(text, fontSize, width)
         == (MaxInt(LineCount(text, fontSize, width), 1) as real) * LineHeight(fontSize)
  {
    var n := LineCount(text, fontSize, width);
    var lh := LineHeight(fontSize);
    if n < 1 {
      ScaleBy(n as real, 1.0, lh);
    } else {
      ScaleBy(1.0, n as real, lh);
    }
  }

  lemma CeilMonotone(a: real, b: real)
    requires a <= b
    ensures Ceil(a) <= Ceil(b)
  {
    assert (-b).Floor <= (-a).Floor;
  }

  /** A longer text never needs fewer lines. */
  lemma LineCountMonotone(shorter: string, longer: string, fontSize: real, width: real)
    requires fontSize != 0.0 && |shorter| <= |longer|
    ensures LineCount(shorter, fontSize, width) <= LineCount(longer, fontSize, width)
  {
    var d := MaxInt(CharsPerLine(fontSize, width), 1) as real;
    var a := (|shorter| as real) / d;
    var b := (|longer| as real) / d;
    assert a * d == |shorter| as real && b * d == |longer| as real;
    if a > b {
      ScaleBy(b, a, d);
    }
    CeilMonotone(a, b);
  }

  /** A longer text never gets a smaller estimate, for the same font size and width. */
  lemma EstimateMonotone(shorter: string, longer: string, fontSize: real, width: real)
    requires fontSize > 0.0 && |shorter| <= |longer|
    ensures EstimateTextHeight(shorter, fontSize, width) <= EstimateTextHeight(longer, fontSize, width)
  {
    LineCountMonotone(shorter, longer, fontSize, width);
    EstimateUnfold(shorter, fontSize, width);
    EstimateUnfold(longer, fontSize, width);
    MoreLinesTaller(LineCount(shorter, fontSize, width), LineCount(longer, fontSize, width), LineHeight(fontSize));
  }

  lemma EstimateUnfold(text: string, fontSize: real, width: real)
    requires fontSize != 0.0
    ensures EstimateTextHeight(text, fontSize, width)
         == MaxReal((LineCount(text, fontSize, width) as real) * LineHeight(fontSize), LineHeight(fontSize))
  {
  }

  /** More lines of the same height, each floored at one line, are never shorter. */
  lemma MoreLinesTaller(m: int, n: int, lineHeight: real)
    requires m <= n && lineHeight > 0.0
    ensures MaxReal((m as real) * lineHeight, lineHeight) <= MaxReal((n as real) * lineHeight, lineHeight)
  {
    ScaleBy(m as real, n as real, lineHeight);
  }

  /** Narrower than one character: the characters per line clamp to one, so every character is a line. */
  lemma NarrowWidth(text: string, fontSize: real, width: real)
    requires fontSize > 0.0 && width < PtToInch(fontSize) * 0.9
    ensures CharsPerLine(fontSize, width) <= 0
    ensures LineCount(text, fontSize, width) == |text|
  {
    var avg := PtToInch(fontSize) * 0.9;
    if width / avg >= 1.0 {
      ScaleBy(1.0, width / avg, avg);
      assert false;
    }
  }

  /** A text that fits on one line, the empty text included, is exactly one line tall. */
  lemma ShortText(text: string, fontSize: real, width: real)
    requires fontSize > 0.0 && |text| <= MaxInt(CharsPerLine(fontSize, width), 1)
    ensures EstimateTextHeight(text, fontSize, width) == LineHeight(fontSize)
  {
    LineCountBounds(text, fontSize, width);
    var n := LineCount(text, fontSize, width);
    var d := MaxInt(CharsPerLine(fontSize, width), 1);
    EstimateWholeLines(text, fontSize, width);
  }

  // ---- vertical stacks ----

  /** How far a stack of vertical boxes moves the cursor: each box's height plus the vertical margin. */
  function Advance(c: LayoutConfig, texts: seq<string>): real
    requires ValidConfig(c)
    decreases |texts|
  {
    if texts == [] then 0.0
    else StackedBox(c, texts[0], 0.0).h + PtToInch(c.bodyBoxMarginVertical) + Advance(c, texts[1..])
  }

  /**
   * addVerticalBoxes places text i at `y` plus the advance of the texts before it, at the left
   * padding and full width, and returns `y` plus the advance of all the texts.
   */
  lemma VerticalShape(c: LayoutConfig, texts: seq<string>, y: real)
    requires ValidConfig(c)
    ensures var p := VerticalLayout(c, texts, y);
            && p.nextY == y + Advance(c, texts)
            && forall i :: 0 <= i < |texts| ==> p.boxes[i] == StackedBox(c, texts[i], y + Advance(c, texts[..i]))
  {
    VerticalNext(c, texts, y);
    forall i | 0 <= i < |texts|
      ensures VerticalLayout(c, texts, y).boxes[i] == StackedBox(c, texts[i], y + Advance(c, texts[..i]))
    {
      VerticalAt(c, texts, y, i);
    }
  }

  lemma {:induction false} VerticalNext(c: LayoutConfig, texts: seq<string>, y: real)
    requires ValidConfig(c)
    ensures VerticalLayout(c, texts, y).nextY == y + Advance(c, texts)
    decreases |texts|
  {
    if texts != [] {
      var step := StackedBox(c, texts[0], 0.0).h + PtToInch(c.bodyBoxMarginVertical);
      assert StackedBox(c, texts[0], y).h == StackedBox(c, texts[0], 0.0).h;
      VerticalNext(c, texts[1..], y + step);
    }
  }

  lemma {:induction false} VerticalAt(c: LayoutConfig, texts: seq<string>, y: real, i: nat)
    requires ValidConfig(c) && i < |texts|
    ensures VerticalLayout(c, texts, y).boxes[i] == StackedBox(c, texts[i], y + Advance(c, texts[..i]))
    decreases i
  {
    if i == 0 {
      assert texts[..0] == [];
    } else {
      var step := StackedBox(c, texts[0], 0.0).h + PtToInch(c.bodyBoxMarginVertical);
      assert StackedBox(c, texts[0], y).h == StackedBox(c, texts[0], 0.0).h;
      VerticalAt(c, texts[1..], y + step, i - 1);
      assert VerticalLayout(c, texts, y).boxes[i] == VerticalLayout(c, texts[1..], y + step).boxes[i - 1];
      assert texts[..i][1..] == texts[1..][..i - 1];
      assert texts[..i][0] == texts[0];
      assert Advance(c, texts[..i]) == step + Advance(c, texts[1..][..i - 1]);
    }
  }

  /** Each vertical box starts where the one above it ends, plus the vertical margin. */
  lemma VerticalNeighbours(c: LayoutConfig, texts: seq<string>, y: real, i: nat)
    requires ValidConfig(c) && i + 1 < |texts|
    ensures var b := VerticalLayout(c, texts, y).boxes;
            b[i + 1].y == b[i].y + b[i].h + PtToInch(c.bodyBoxMarginVertical)
  {
    VerticalShape(c, texts, y);
    AdvanceSnoc(c, texts[..i + 1]);
    assert texts[..i + 1][..i] == texts[..i];
    assert texts[..i + 1][i] == texts[i];
  }

  lemma {:induction false} AdvanceSnoc(c: LayoutConfig, texts: seq<string>)
    requires ValidConfig(c) && texts != []
    ensures Advance(c, texts)
         == Advance(c, texts[..|texts| - 1]) + StackedBox(c, texts[|texts| - 1], 0.0).h + PtToInch(c.bodyBoxMarginVertical)
    decreases |texts|
  {
    if |texts| > 1 {
      AdvanceSnoc(c, texts[1..]);
      assert texts[1..][..|texts| - 2] == texts[..|texts| - 1][1..];
    }
  }

  // ---- the horizontal grid ----

  function Flatten(rows: seq<seq<string>>): seq<string>
    decreases |rows|
  {
    if rows == [] then [] else rows[0] + Flatten(rows[1..])
  }

  /** Reading the rows left to right, top to bottom gives back the texts. */
  lemma {:induction false} RowsFlatten(texts: seq<string>, k: nat)
    requires k >= 1
    ensures Flatten(Rows(texts, k)) == texts
    decreases |texts|
  {
    if texts != [] {
      var rowEnd := MinInt(k, |texts|);
      RowsFlatten(texts[rowEnd..], k);
      assert texts[..rowEnd] + texts[rowEnd..] == texts;
    }
  }

  /** There are ceil(count / k) rows: enough for the texts, and one fewer would not do. */
  lemma {:induction false} RowsCount(texts: seq<string>, k: nat)
    requires k >= 1
    ensures (|Rows(texts, k)| - 1) * k < |texts| <= |Rows(texts, k)| * k
    decreases |texts|
  {
    if texts != [] {
      var rowEnd := MinInt(k, |texts|);
      var tail := texts[rowEnd..];
      RowsCount(tail, k);
      var t := |Rows(tail, k)|;
      assert |Rows(texts, k)| == t + 1;
      assert (t + 1) * k == t * k + k;
      if |texts| <= k {
        assert tail == [];
      }
    }
  }

  /** Row r holds texts[r*k .. min(r*k + k, count)]. */
  lemma {:induction false} RowsContents(texts: seq<string>, k: nat, r: nat)
    requires k >= 1 && r < |Rows(texts, k)|
    ensures r * k < |texts| && Rows(texts, k)[r] == texts[r * k .. MinInt(r * k + k, |texts|)]
    decreases r
  {
    var rowEnd := MinInt(k, |texts|);
    var tail := texts[rowEnd..];
    assert Rows(texts, k) == [texts[..rowEnd]] + Rows(tail, k);
    if r > 0 {
      RowsContents(tail, k, r - 1);
      var s := (r - 1) * k;
      assert s + k == r * k;
      TailSlice(texts, k, s);
    }
  }

  /** Slicing after the first k texts shifts every index by k. */
  lemma TailSlice(texts: seq<string>, k: nat, s: nat)
    requires k <= |texts| && s < |texts| - k
    ensures texts[k..][s .. MinInt(s + k, |texts| - k)] == texts[s + k .. MinInt(s + k + k, |texts|)]
  {
  }

  /** The y of row r's boxes: `y` plus, for every earlier row, its height and the vertical margin. */
  function RowTop(c: LayoutConfig, rows: seq<seq<string>>, y: real, r: nat): real
    requires ValidConfig(c) && r <= |rows|
    decreases r
  {
    if r == 0 then y
    else RowTop(c, rows, y, r - 1) + RowHeight(c, rows[r - 1]) + PtToInch(c.bodyBoxMarginVertical)
  }

  /** The boxes of the rows before row r. */
  function Offset(rows: seq<seq<string>>, r: nat): nat
    requires r <= |rows|
  {
    |Flatten(rows[..r])|
  }

  lemma {:induction false} FlattenConcat(a: seq<seq<string>>, b: seq<seq<string>>)
    ensures Flatten(a + b) == Flatten(a) + Flatten(b)
    decreases |a|
  {
    if a == [] {
      assert a + b == b;
    } else {
      FlattenConcat(a[1..], b);
      assert (a + b)[0] == a[0];
      assert (a + b)[1..] == a[1..] + b;
    }
  }

  lemma {:induction false} RowTopShift(c: LayoutConfig, rows: seq<seq<string>>, y: real, r: nat)
    requires ValidConfig(c) && 0 < r <= |rows|
    ensures RowTop(c, rows, y, r)
         == RowTop(c, rows[1..], y + RowHeight(c, rows[0]) + PtToInch(c.bodyBoxMarginVertical), r - 1)
    decreases r
  {
    if r > 1 {
      RowTopShift(c, rows, y, r - 1);
    }
  }

  lemma OffsetShift(rows: seq<seq<string>>, r: nat)
    requires 0 < r <= |rows|
    ensures Offset(rows, r) == |rows[0]| + Offset(rows[1..], r - 1)
  {
    assert rows[..r] == [rows[0]] + rows[1..][..r - 1];
    FlattenConcat([rows[0]], rows[1..][..r - 1]);
    assert Flatten([rows[0]]) == rows[0] + Flatten([]);
  }

  /** A window of `rest` read through `first + rest`, with every index moved by `|first|`. */
  lemma SliceAfter<T>(whole: seq<T>, first: seq<T>, rest: seq<T>, o: nat, n: nat, at: nat, window: seq<T>)
    requires whole == first + rest && at == |first| + o && o + n <= |rest| && rest[o .. o + n] == window
    ensures at + n <= |whole| && whole[at .. at + n] == window
  {
    assert whole[at .. at + n] == rest[o .. o + n];
  }

  /**
   * In the grid, row r's boxes come after the boxes of the earlier rows: they are that row's texts
   * placed from the left padding at the row's top, all with the row's height.
   */
  lemma {:induction false} GridRow(c: LayoutConfig, rows: seq<seq<string>>, y: real, r: nat)
    requires ValidConfig(c) && r < |rows|
    ensures var b := RowsLayout(c, rows, y).boxes;
            Offset(rows, r) + |rows[r]| <= |b|
            && b[Offset(rows, r) .. Offset(rows, r) + |rows[r]|]
               == PlaceRow(c, rows[r], LeftPadding(c), RowTop(c, rows, y, r), RowHeight(c, rows[r]))
    decreases r
  {
    if r == 0 {
      GridFirstRow(c, rows, y);
    } else {
      var h := RowHeight(c, rows[0]);
      var first := PlaceRow(c, rows[0], LeftPadding(c), y, h);
      var y1 := y + h + PtToInch(c.bodyBoxMarginVertical);
      var rest := RowsLayout(c, rows[1..], y1);
      var b := RowsLayout(c, rows, y).boxes;
      var o := Offset(rows[1..], r - 1);
      var n := |rows[r]|;
      assert b == first + rest.boxes;
      assert rows[1..][r - 1] == rows[r];
      GridRow(c, rows[1..], y1, r - 1);
      RowTopShift(c, rows, y, r);
      OffsetShift(rows, r);
      var row := rows[1..][r - 1];
      var top := RowTop(c, rows[1..], y1, r - 1);
      assert rest.boxes[o .. o + |row|] == PlaceRow(c, row, LeftPadding(c), top, RowHeight(c, row));
      assert top == RowTop(c, rows, y, r) && row == rows[r];
      var window := PlaceRow(c, rows[r], LeftPadding(c), RowTop(c, rows, y, r), RowHeight(c, rows[r]));
      SliceAfter(b, first, rest.boxes, o, n, Offset(rows, r), window);
    }
  }

  lemma GridFirstRow(c: LayoutConfig, rows: seq<seq<string>>, y: real)
    requires ValidConfig(c) && rows != []
    ensures var b := RowsLayout(c, rows, y).boxes;
            Offset(rows, 0) + |rows[0]| <= |b|
            && b[Offset(rows, 0) .. Offset(rows, 0) + |rows[0]|]
               == PlaceRow(c, rows[0], LeftPadding(c), RowTop(c, rows, y, 0), RowHeight(c, rows[0]))
  {
    var first := PlaceRow(c, rows[0], LeftPadding(c), y, RowHeight(c, rows[0]));
    var b := RowsLayout(c, rows, y).boxes;
    assert b[..|first|] == first;
    assert rows[..0] == [];
    assert Offset(rows, 0) == 0;
  }

  /** Row placement: the boxes step right by the column width plus the gap, and keep the row's y and height. */
  lemma PlaceRowShape(c: LayoutConfig, row: seq<string>, x: real, y: real, h: real)
    requires ValidConfig(c)
    ensures var b := PlaceRow(c, row, x, y, h);
            forall i :: 0 <= i < |row| ==>
              && b[i].x == x + (i as real) * ColumnStep(c)
              && b[i].y == y && b[i].h == h && b[i].text == row[i] && !b[i].bold
              && 0.5 <= b[i].w <= ColumnWidth(c)
  {
    PlaceRowXs(c, row, x, y, h);
    PlaceRowFields(c, row, x, y, h);
  }

  /** The i-th box of a row starts i column steps right of the row's x. */
  lemma PlaceRowXs(c: LayoutConfig, row: seq<string>, x: real, y: real, h: real)
    requires ValidConfig(c)
    ensures var b := PlaceRow(c, row, x, y, h);
            forall i :: 0 <= i < |row| ==> b[i].x == x + (i as real) * ColumnStep(c)
  {
    forall i | 0 <= i < |row|
      ensures PlaceRow(c, row, x, y, h)[i].x == x + (i as real) * ColumnStep(c)
    {
      PlaceRowX(c, row, x, y, h, i);
    }
  }

  lemma {:induction false} PlaceRowX(c: LayoutConfig, row: seq<string>, x: real, y: real, h: real, i: nat)
    requires ValidConfig(c) && i < |row|
    ensures PlaceRow(c, row, x, y, h)[i].x == x + (i as real) * ColumnStep(c)
    decreases i
  {
    var step := ColumnStep(c);
    if i > 0 {
      PlaceRowX(c, row[1..], x + step, y, h, i - 1);
      PlaceRowTail(c, row, x, y, h, i);
      ScaleStep(i, step);
    } else {
      PlaceRowHead(c, row, x, y, h);
    }
  }

  /** One more column step: the nonlinear step kept out of the row's context. */
  lemma ScaleStep(i: nat, step: real)
    requires i > 0
    ensures step + ((i - 1) as real) * step == (i as real) * step
  {
  }

  lemma PlaceRowHead(c: LayoutConfig, row: seq<string>, x: real, y: real, h: real)
    requires ValidConfig(c) && row != []
    ensures PlaceRow(c, row, x, y, h)[0] == TextBox(x, y, BoxWidth(c, x), h, row[0], c.bodyFontSize, c.fontFace, false)
  {
  }

  lemma PlaceRowTail(c: LayoutConfig, row: seq<string>, x: real, y: real, h: real, i: nat)
    requires ValidConfig(c) && 0 < i < |row|
    ensures PlaceRow(c, row, x, y, h)[i] == PlaceRow(c, row[1..], x + ColumnStep(c), y, h)[i - 1]
  {
  }

  /** Every box of a row keeps the row's y, height and text order, is not bold, and is at most a column wide. */
  lemma {:induction false} PlaceRowFields(c: LayoutConfig, row: seq<string>, x: real, y: real, h: real)
    requires ValidConfig(c)
    ensures var b := PlaceRow(c, row, x, y, h);
            forall i :: 0 <= i < |row| ==>
              b[i].y == y && b[i].h == h && b[i].text == row[i] && !b[i].bold && 0.5 <= b[i].w <= ColumnWidth(c)
    decreases |row|
  {
    if row != [] {
      var rest := PlaceRow(c, row[1..], x + ColumnStep(c), y, h);
      PlaceRowFields(c, row[1..], x + ColumnStep(c), y, h);
      var b := PlaceRow(c, row, x, y, h);
      assert b == [b[0]] + rest;
      forall i | 0 < i < |row|
        ensures b[i] == rest[i - 1] && row[i] == row[1..][i - 1]
      {
      }
    }
  }

  /** A row is as tall as its tallest estimate: at least every estimate, and equal to one of them. */
  lemma {:induction false} RowHeightIsMax(c: LayoutConfig, row: seq<string>)
    requires ValidConfig(c) && c.bodyFontSize > 0.0 && row != []
    ensures forall i :: 0 <= i < |row| ==> RowHeight(c, row) >= EstimateTextHeight(row[i], c.bodyFontSize, ColumnWidth(c))
    ensures exists i :: 0 <= i < |row| && RowHeight(c, row) == EstimateTextHeight(row[i], c.bodyFontSize, ColumnWidth(c))
    decreases |row|
  {
    var init := row[..|row| - 1];
    var h := EstimateTextHeight(row[|row| - 1], c.bodyFontSize, ColumnWidth(c));
    if init == [] {
      assert RowHeight(c, init) == 0.0;
    } else {
      RowHeightIsMax(c, init);
      assert forall i :: 0 <= i < |init| ==> init[i] == row[i];
    }
  }

  /** The texts carried by a list of boxes, in order. */
  function Texts(boxes: seq<TextBox>): seq<string>
  {
    seq(|boxes|, i requires 0 <= i < |boxes| => boxes[i].text)
  }

  lemma TextsConcat(a: seq<TextBox>, b: seq<TextBox>)
    ensures Texts(a + b) == Texts(a) + Texts(b)
  {
  }

  /** Box lists glued together carry their texts glued together. */
  lemma TextsGlue(boxes: seq<TextBox>, first: seq<TextBox>, rest: seq<TextBox>, texts: seq<string>, more: seq<string>)
    requires boxes == first + rest && Texts(first) == texts && Texts(rest) == more
    ensures Texts(boxes) == texts + more
  {
    TextsConcat(first, rest);
  }

  /** A row's boxes carry the row's texts, in order. */
  lemma PlaceRowTexts(c: LayoutConfig, row: seq<string>, x: real, y: real, h: real)
    requires ValidConfig(c)
    ensures Texts(PlaceRow(c, row, x, y, h)) == row
  {
    PlaceRowFields(c, row, x, y, h);
  }

  lemma {:induction false} RowsTexts(c: LayoutConfig, rows: seq<seq<string>>, y: real)
    requires ValidConfig(c)
    ensures Texts(RowsLayout(c, rows, y).boxes) == Flatten(rows)
    decreases |rows|
  {
    if rows != [] {
      var h := RowHeight(c, rows[0]);
      var first := PlaceRow(c, rows[0], LeftPadding(c), y, h);
      var rest := RowsLayout(c, rows[1..], y + h + PtToInch(c.bodyBoxMarginVertical));
      assert RowsLayout(c, rows, y).boxes == first + rest.boxes;
      RowsTexts(c, rows[1..], y + h + PtToInch(c.bodyBoxMarginVertical));
      PlaceRowTexts(c, rows[0], LeftPadding(c), y, h);
      TextsGlue(RowsLayout(c, rows, y).boxes, first, rest.boxes, rows[0], Flatten(rows[1..]));
    }
  }

  /**
   * addHorizontalBoxes emits nothing and keeps the cursor for no texts; otherwise it emits
   * exactly the texts, in order, in the rows of BoxesPerRow.
   */
  lemma HorizontalShape(c: LayoutConfig, texts: seq<string>, y: real)
    requires ValidConfig(c)
    ensures texts == [] ==> HorizontalLayout(c, texts, y) == Placement([], y)
    ensures Texts(HorizontalLayout(c, texts, y).boxes) == texts
  {
    if texts != [] {
      RowsTexts(c, Rows(texts, BoxesPerRow(c)), y);
      RowsFlatten(texts, BoxesPerRow(c));
    }
  }

  /** The grid leaves the cursor below its last row: the start plus every row's height and margin. */
  lemma {:induction false} RowsCursor(c: LayoutConfig, rows: seq<seq<string>>, y: real)
    requires ValidConfig(c)
    ensures RowsLayout(c, rows, y).nextY == RowTop(c, rows, y, |rows|)
    decreases |rows|
  {
    if rows != [] {
      RowsCursor(c, rows[1..], y + RowHeight(c, rows[0]) + PtToInch(c.bodyBoxMarginVertical));
      RowTopShift(c, rows, y, |rows|);
    }
  }

  /**
   * addHorizontalBoxes returns the cursor below its last row, where the next
   * block starts; with no texts it returns the cursor it was given.
   */
  lemma HorizontalCursor(c: LayoutConfig, texts: seq<string>, y: real)
    requires ValidConfig(c)
    ensures var rows := Rows(texts, BoxesPerRow(c));
            HorizontalLayout(c, texts, y).nextY == RowTop(c, rows, y, |rows|)
    ensures texts == [] ==> HorizontalLayout(c, texts, y).nextY == y
  {
    RowsCursor(c, Rows(texts, BoxesPerRow(c)), y);
  }

  // ---- slides ----

  function BlockTexts(blocks: seq<Block>): seq<string>
    decreases |blocks|
  {
    if blocks == [] then [] else blocks[0].texts + BlockTexts(blocks[1..])
  }

  lemma {:induction false} VerticalTexts(c: LayoutConfig, texts: seq<string>, y: real)
    requires ValidConfig(c)
    ensures Texts(VerticalLayout(c, texts, y).boxes) == texts
    decreases |texts|
  {
    if texts != [] {
      var box := StackedBox(c, texts[0], y);
      var rest := VerticalLayout(c, texts[1..], y + box.h + PtToInch(c.bodyBoxMarginVertical));
      VerticalTexts(c, texts[1..], y + box.h + PtToInch(c.bodyBoxMarginVertical));
      assert VerticalLayout(c, texts, y).boxes == [box] + rest.boxes;
      TextsConcat([box], rest.boxes);
      assert Texts([box]) == [texts[0]];
      assert texts == [texts[0]] + texts[1..];
    }
  }

  lemma {:induction false} BlocksTexts(c: LayoutConfig, blocks: seq<Block>, y: real)
    requires ValidConfig(c)
    ensures Texts(BlocksLayout(c, blocks, y).boxes) == BlockTexts(blocks)
    ensures forall i :: 0 <= i < |BlocksLayout(c, blocks, y).boxes| ==> !BlocksLayout(c, blocks, y).boxes[i].bold
    decreases |blocks|
  {
    if blocks != [] {
      var first := BlockLayout(c, blocks[0], y);
      var rest := BlocksLayout(c, blocks[1..], first.nextY);
      BlocksTexts(c, blocks[1..], first.nextY);
      match blocks[0] {
        case Vertical(texts) =>
          VerticalTexts(c, texts, y);
          VerticalNotBold(c, texts, y);
        case Horizontal(texts) =>
          HorizontalShape(c, texts, y);
          HorizontalNotBold(c, texts, y);
      }
      TextsConcat(first.boxes, rest.boxes);
    }
  }

  lemma {:induction false} VerticalNotBold(c: LayoutConfig, texts: seq<string>, y: real)
    requires ValidConfig(c)
    ensures forall i :: 0 <= i < |VerticalLayout(c, texts, y).boxes| ==> !VerticalLayout(c, texts, y).boxes[i].bold
    decreases |texts|
  {
    if texts != [] {
      var box := StackedBox(c, texts[0], y);
      VerticalNotBold(c, texts[1..], y + box.h + PtToInch(c.bodyBoxMarginVertical));
    }
  }

  lemma {:induction false} RowsNotBold(c: LayoutConfig, rows: seq<seq<string>>, y: real)
    requires ValidConfig(c)
    ensures forall i :: 0 <= i < |RowsLayout(c, rows, y).boxes| ==> !RowsLayout(c, rows, y).boxes[i].bold
    decreases |rows|
  {
    if rows != [] {
      var h := RowHeight(c, rows[0]);
      PlaceRowShape(c, rows[0], LeftPadding(c), y, h);
      RowsNotBold(c, rows[1..], y + h + PtToInch(c.bodyBoxMarginVertical));
    }
  }

  lemma HorizontalNotBold(c: LayoutConfig, texts: seq<string>, y: real)
    requires ValidConfig(c)
    ensures forall i :: 0 <= i < |HorizontalLayout(c, texts, y).boxes| ==> !HorizontalLayout(c, texts, y).boxes[i].bold
  {
    if texts != [] {
      RowsNotBold(c, Rows(texts, BoxesPerRow(c)), y);
    }
  }

  /**
   * A slide's boxes carry its heading (when there is a non-empty one) and then every block's texts,
   * in order; only the heading box is bold, and it sits at the top padding.
   */
  lemma SlideShape(c: LayoutConfig, s: Slide)
    requires ValidConfig(c)
    ensures var b := SlideLayout(c, s);
            var heading := if ShowsHeading(s) then [s.heading.value] else [];
            && Texts(b) == heading + BlockTexts(s.blocks)
            && |b| == |heading| + |BlockTexts(s.blocks)|
            && (forall i :: 0 <= i < |b| ==> (b[i].bold <==> ShowsHeading(s) && i == 0))
            && (ShowsHeading(s) ==> b[0].y == TopPadding(c))
  {
    var top := TopPadding(c);
    var head := if ShowsHeading(s) then HeadingLayout(c, s.heading.value, top) else Placement([], top);
    var body := BlocksLayout(c, s.blocks, head.nextY);
    BlocksTexts(c, s.blocks, head.nextY);
    TextsConcat(head.boxes, body.boxes);
    var b := SlideLayout(c, s);
    assert b == head.boxes + body.boxes;
    if ShowsHeading(s) {
      assert Texts(head.boxes) == [s.heading.value];
    } else {
      assert Texts(head.boxes) == [];
    }
    forall i | 0 <= i < |b|
      ensures b[i].bold <==> ShowsHeading(s) && i == 0
    {
      if i >= |head.boxes| {
        assert b[i] == body.boxes[i - |head.boxes|];
      }
    }
  }

  /** The first block starts right below the heading and its margin, or at the top padding when there is none. */
  lemma FirstBlockStart(c: LayoutConfig, s: Slide)
    requires ValidConfig(c) && s.blocks != [] && s.blocks[0].texts != []
    ensures var b := SlideLayout(c, s);
            ShowsHeading(s) ==> b[1].y == b[0].y + b[0].h + PtToInch(c.headingMarginBottom)
    ensures !ShowsHeading(s) ==> SlideLayout(c, s)[0].y == TopPadding(c)
  {
    var top := TopPadding(c);
    var head := if ShowsHeading(s) then HeadingLayout(c, s.heading.value, top) else Placement([], top);
    var first := BlockLayout(c, s.blocks[0], head.nextY);
    var rest := BlocksLayout(c, s.blocks[1..], first.nextY);
    assert BlocksLayout(c, s.blocks, head.nextY).boxes == first.boxes + rest.boxes;
    match s.blocks[0]
    case Vertical(texts) =>
      VerticalShape(c, texts, head.nextY);
      assert texts[..0] == [];
    case Horizontal(texts) =>
      var rows := Rows(texts, BoxesPerRow(c));
      RowsContents(texts, BoxesPerRow(c), 0);
      GridRow(c, rows, head.nextY, 0);
      assert rows[..0] == [];
      PlaceRowShape(c, rows[0], LeftPadding(c), head.nextY, RowHeight(c, rows[0]));
      assert first.boxes[0] == first.boxes[0..|rows[0]|][0];
  }

  /** Every slide the parser emits lays out to at least one box: no slide of the deck is blank. */
  lemma ParsedSlidesHaveBoxes(c: LayoutConfig, input: string)
    requires ValidConfig(c)
    ensures forall i :: 0 <= i < |Parse(input)| ==> SlideLayout(c, Parse(input)[i]) != []
  {
    ParseWellFormed(input);
    forall i | 0 <= i < |Parse(input)|
      ensures SlideLayout(c, Parse(input)[i]) != []
    {
      var s := Parse(input)[i];
      SlideShape(c, s);
      if !ShowsHeading(s) {
        assert s.blocks != [];
        assert WellFormedBlock(s.blocks[0]);
        assert BlockTexts(s.blocks) == s.blocks[0].texts + BlockTexts(s.blocks[1..]);
      }
    }
  }
}
