/**
 * PptxBuilder: walks the parsed slides and emits positioned text boxes.
 * The renderer's slide object is modelled by the sequence of boxes added to
 * it: each `add…` method takes the boxes already on the slide and returns
 * them with its own boxes appended, together with the new y cursor. The
 * builder's own state is the list of finished slides.
 */
module Builder {
  import opened Config
  import opened Parser
  import opened Layout

  class PptxBuilder {
    const config: LayoutConfig
    /** The slides handed to the renderer so far, each as the boxes on it. */
    var slides: seq<seq<TextBox>>

    constructor(config: LayoutConfig)
      ensures this.config == config && slides == []
    {
      this.config := config;
      slides := [];
    }

    /** Adds the heading box at `y` and returns the cursor below it and its margin. */
    method AddHeading(slide: seq<TextBox>, text: string, y: real) returns (page: seq<TextBox>, nextY: real)
      requires ValidConfig(config)
      ensures page == slide + HeadingLayout(config, text, y).boxes
      ensures nextY == HeadingLayout(config, text, y).nextY
    {
      var leftPadding := LeftPadding(config);
      var rightPadding := RightPadding(config);
      var width := MinReal(ContentWidth(config), config.slideWidth - leftPadding - rightPadding);
      var height := EstimateTextHeight(text, config.headingFontSize, width);
      page := slide + [TextBox(leftPadding, y, width, height, text, config.headingFontSize, config.fontFace, true)];
      nextY := y + height + PtToInch(config.headingMarginBottom);
    }

    /** Stacks one full-width box per text from `startY` down. */
    method AddVerticalBoxes(slide: seq<TextBox>, texts: seq<string>, startY: real) returns (page: seq<TextBox>, y: real)
      requires ValidConfig(config)
      ensures page == slide + VerticalLayout(config, texts, startY).boxes
      ensures y == VerticalLayout(config, texts, startY).nextY
    {
      y := startY;
      page := slide;
      var leftPadding := LeftPadding(config);
      var rightPadding := RightPadding(config);
      var width := MinReal(ContentWidth(config), config.slideWidth - leftPadding - rightPadding);
      ghost var target := VerticalLayout(config, texts, startY);
      assert texts[0..] == texts;
      assert page + target.boxes == slide + target.boxes;
      for i := 0 to |texts|
        invariant page + VerticalLayout(config, texts[i..], y).boxes == slide + target.boxes
        invariant VerticalLayout(config, texts[i..], y).nextY == target.nextY
      {
        ghost var before := page;
        ghost var y0 := y;
        var height := EstimateTextHeight(texts[i], config.bodyFontSize, width);
        page := page + [TextBox(leftPadding, y, width, height, texts[i], config.bodyFontSize, config.fontFace, false)];
        y := y + height + PtToInch(config.bodyBoxMarginVertical);
        VerticalAdvance(config, texts, i, y0, before, page, y, Placement(slide + target.boxes, target.nextY));
      }
    }

    /** The first `forEach` of a row: the largest height estimate among its texts, from 0. */
    method RowMaxHeight(rowTexts: seq<string>, boxWidth: real) returns (maxHeight: real)
      requires ValidConfig(config) && boxWidth == ColumnWidth(config)
      ensures maxHeight == RowHeight(config, rowTexts)
    {
      maxHeight := 0.0;
      for j := 0 to |rowTexts|
        invariant maxHeight == RowHeight(config, rowTexts[..j])
      {
        RowHeightStep(config, rowTexts, j);
        var height := EstimateTextHeight(rowTexts[j], config.bodyFontSize, boxWidth);
        if height > maxHeight {
          maxHeight := height;
        }
      }
      assert rowTexts[..|rowTexts|] == rowTexts;
    }

    /** The second `forEach` of a row: one box per text, left to right, each cut at the right padding. */
    method PlaceRowBoxes(slide: seq<TextBox>, rowTexts: seq<string>, boxWidth: real, currentY: real, maxHeight: real)
      returns (page: seq<TextBox>)
      requires ValidConfig(config) && boxWidth == ColumnWidth(config)
      ensures page == slide + PlaceRow(config, rowTexts, LeftPadding(config), currentY, maxHeight)
    {
      page := slide;
      var horizontalMarginInch := PtToInch(config.bodyBoxMarginHorizontal);
      var rightPadding := RightPadding(config);
      var x := LeftPadding(config);
      for j := 0 to |rowTexts|
        invariant page + PlaceRow(config, rowTexts[j..], x, currentY, maxHeight)
                  == slide + PlaceRow(config, rowTexts, LeftPadding(config), currentY, maxHeight)
      {
        PlaceRowStep(config, rowTexts, j, x, currentY, maxHeight);
        var remainingWidth := config.slideWidth - x - rightPadding;
        var actualWidth := MinReal(boxWidth, remainingWidth);
        page := page + [TextBox(x, currentY, MaxReal(actualWidth, 0.5), maxHeight, rowTexts[j],
                                config.bodyFontSize, config.fontFace, false)];
        x := x + boxWidth + horizontalMarginInch;
      }
      assert rowTexts[|rowTexts|..] == [];
      assert page + [] == page;
    }

    /** Lays the texts out in rows of BoxesPerRow columns from `startY` down. */
    method AddHorizontalBoxes(slide: seq<TextBox>, texts: seq<string>, startY: real) returns (page: seq<TextBox>, currentY: real)
      requires ValidConfig(config)
      ensures page == slide + HorizontalLayout(config, texts, startY).boxes
      ensures currentY == HorizontalLayout(config, texts, startY).nextY
    {
      page := slide;
      var count := |texts|;
      if count == 0 {
        return slide, startY;
      }
      var boxesPerRow := BoxesPerRow(config);
      var verticalMarginInch := PtToInch(config.bodyBoxMarginVertical);
      // the content width less the gaps, at least one inch per column, shared out
      var boxWidth := ColumnWidth(config);

      currentY := startY;
      var rowIndex := 0;
      ghost var done := 0;
      ghost var target := Placement(slide + HorizontalLayout(config, texts, startY).boxes,
                                    HorizontalLayout(config, texts, startY).nextY);
      assert texts[done..] == texts;
      assert HorizontalLayout(config, texts, startY) == RowsLayout(config, Rows(texts, boxesPerRow), startY);
      while rowIndex * boxesPerRow < count
        invariant 0 <= rowIndex
        invariant done == MinInt(rowIndex * boxesPerRow, count)
        invariant page + RowsLayout(config, Rows(texts[done..], boxesPerRow), currentY).boxes == target.boxes
        invariant RowsLayout(config, Rows(texts[done..], boxesPerRow), currentY).nextY == target.nextY
        decreases count - rowIndex * boxesPerRow
      {
        var rowStart := rowIndex * boxesPerRow;
        var rowEnd := MinInt(rowStart + boxesPerRow, count);
        var rowTexts := texts[rowStart..rowEnd];
        var maxHeight := RowMaxHeight(rowTexts, boxWidth);
        ghost var before := page;
        ghost var y := currentY;
        page := PlaceRowBoxes(page, rowTexts, boxWidth, currentY, maxHeight);
        currentY := currentY + maxHeight + verticalMarginInch;
        assert done == rowStart;
        RowAdvance(config, texts, boxesPerRow, rowStart, rowEnd, y, maxHeight, before, page, currentY, target);
        assert (rowIndex + 1) * boxesPerRow == rowStart + boxesPerRow;
        rowIndex := rowIndex + 1;
        done := rowEnd;
      }
      assert texts[count..] == [];
      assert page + [] == page;
    }

    /** Lays out one slide from the top padding and hands it to the renderer. */
    method AddSlide(slideData: Slide)
      requires ValidConfig(config)
      modifies this
      ensures slides == old(slides) + [SlideLayout(config, slideData)]
    {
      var page: seq<TextBox> := [];
      var currentY := TopPadding(config);
      if ShowsHeading(slideData) {
        page, currentY := AddHeading(page, slideData.heading.value, currentY);
      }
      var blocks := slideData.blocks;
      ghost var target := SlideLayout(config, slideData);
      assert blocks[0..] == blocks;
      for i := 0 to |blocks|
        invariant slides == old(slides)
        invariant page + BlocksLayout(config, blocks[i..], currentY).boxes == target
      {
        ghost var before := page;
        ghost var y := currentY;
        match blocks[i] {
          case Vertical(texts) =>
            page, currentY := AddVerticalBoxes(page, texts, currentY);
          case Horizontal(texts) =>
            page, currentY := AddHorizontalBoxes(page, texts, currentY);
        }
        BlockAdvance(config, blocks, i, y, before, page, currentY, target);
      }
      assert blocks[|blocks|..] == [];
      assert page + [] == page;
      slides := slides + [page];
    }

    /** Adds every slide, in order. */
    method Build(data: seq<Slide>)
      requires ValidConfig(config)
      modifies this
      ensures slides == old(slides) + DeckLayout(config, data)
    {
      for i := 0 to |data|
        invariant slides == old(slides) + DeckLayout(config, data[..i])
      {
        assert data[..i + 1][..i] == data[..i];
        AddSlide(data[i]);
      }
      assert data[..|data|] == data;
    }
  }
}
