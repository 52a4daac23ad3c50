# pptxGen in Dafny

pptxGen turns a small line-oriented markup into a PowerPoint deck. The
markup has four kinds of syntax line:

- `---` starts a new slide.
- `#Title` sets the slide's heading.
- `--[a,b,c]` is a row of side-by-side text boxes.
- `--` opens a paragraph whose following text lines are joined with single spaces.

The program has two parts:

- **The parser** (`parseText`) turns the text into a list of slides. Each slide is an optional heading and a list of blocks.
- **The builder** (`PptxBuilder`) lays every slide out as positioned text boxes. It uses a text-height estimate, a vertical cursor and a wrapping column grid.

The model has these modules:

- `Text`: the two JavaScript string primitives the parser uses, `trim` and `split` on one character. It proves `split`/`join` round trips.
- `Config`: the four syntax patterns as string predicates, `ptToInch`, and the layout settings.
- `Parser`: the parser as a state machine. `Step` gives the effect of one line and `Parse` folds it over the input. The `ParseText` method is the in-place loop of the source, proved equal to `Parse`.
- `ParserProps` and `ParserExamples`: what the parser promises, and worked inputs.
- `Layout`: the layout as functions on values. A call `slide.addText(text, options)` becomes one `TextBox` record appended to the slide's sequence of boxes.
- `Builder`: the `PptxBuilder` class. Its `add…` methods run the source's loops. Each is proved to append exactly the boxes the matching `Layout` function gives, and to return the same cursor.
- `LayoutProps`: what the layout promises. This covers the height estimate, the vertical stack, the grid of rows and columns, and the slide as a whole.

## Model

| member | source | states |
|---|---|---|
| Config.PtToInch | js/config.js:39-41 | the result times 72 is the input: 1 pt is 1/72 inch |
| Config.PtToInchLinear | js/config.js:39-41 | 72 pt is exactly one inch; the conversion is additive and keeps order |
| Config.HeadingCapture | js/config.js:24 | the capture of `/^#(.+)$/` is everything after the `#`, and it is non-empty |
| Config.HorizontalCapture | js/config.js:26 | the capture of `/^--\[(.+)\]$/` is the non-empty interior between `--[` and the final `]` |
| Config.HeadingShape | js/config.js:24 | a line is a heading iff it is `#` followed by a non-empty run free of line terminators |
| Config.HorizontalShape | js/config.js:26 | a line is a horizontal list iff it is `--[`, a non-empty run free of line terminators, and `]` |
| Config.DegenerateLines | js/config.js:24-26 | a bare `#` is not a heading, and `--[]` is not a horizontal list |
| Config.PatternsDisjoint | js/config.js:24-27 | at most one of the four patterns matches any line, so the order of the tests does not matter |
| Config.DefaultConfig | js/config.js:2-20 | the shipped defaults (13.333 in wide, 60/40 pt fonts, 30/10/20 pt margins), with the two paddings supplied and the column count unset, satisfy the builder's precondition |
| Text.TrimStart | js/parser.js:31 | the result is a suffix of the input, everything dropped is whitespace, and the result does not start with whitespace |
| Text.TrimEnd | js/parser.js:31 | the result is a prefix of the input, everything dropped is whitespace, and the result does not end with whitespace |
| Text.Trim | js/parser.js:31 | the result is trimmed; it is empty iff the input is all whitespace; a trimmed input is returned unchanged |
| Text.TrimAround | js/parser.js:31 | trimming a non-empty trimmed text with whitespace on either side gives back the text |
| Text.Split | js/parser.js:25 | split on one character: at least one piece, and no piece contains the separator |
| Text.JoinSplit | js/parser.js:25 | joining the pieces of a split with the separator gives back the input |
| Text.SplitJoin | js/parser.js:25 | splitting the join of separator-free pieces gives back the pieces |
| Text.SplitAllSpace | js/parser.js:21-25 | every piece of an all-whitespace input is all whitespace |
| Parser.CreateEmptySlide | js/parser.js:124-129 | a fresh slide has no content |
| Parser.FinalizeVerticalBlock | js/parser.js:136-143 | the heading is unchanged and the existing blocks are kept as a prefix. Exactly when the open paragraph holds non-empty text, one `Vertical([text])` block is appended |
| Parser.Items | js/parser.js:70-73 | the items are trimmed and non-empty, there are no more items than pieces, and comma-free pieces give comma-free items; the lemmas `ParserProps.ItemsAt`, `ItemsAppend` and `ItemsFromPieces` pin down which items come out, in order |
| Parser.HorizontalItems | js/parser.js:64-73 | every item of a horizontal line is non-empty, trimmed and comma-free; which items come out is stated for all pieces by `ParserProps.ItemsAt`, `ItemsAppend` and `ItemsFromPieces` |
| Parser.Classify | js/parser.js:31-106 | a line is blank iff it trims to nothing; a heading's text and a text line are non-empty and trimmed; a text line is the trimmed raw line. Which pattern gives which kind, and the heading and item captures, are stated for all lines by `ParserProps.ClassifyPatterns` and `ClassifyCaptures` |
| ParserProps.ClassifyPatterns | js/parser.js:31-106 | each kind is exactly its pattern on the trimmed line: blank iff empty, page break iff `---`, heading iff `#…`, horizontal iff `--[…]`, paragraph opener iff `--`, and a text line iff non-empty and matching none |
| ParserProps.ClassifyCaptures | js/parser.js:53-73 | a heading's text is the capture after `#`, trimmed; a horizontal line's items are those of its capture; a text line is the trimmed line |
| Parser.Finish | js/parser.js:109-115 | finishing keeps the emitted slides as a prefix and adds one slide exactly when the slide, with its open paragraph committed, has content; the added slide is that committed slide |
| Parser.ParseText | js/parser.js:20-118 | the loop over the lines returns exactly `Parse(inputText)` |
| ParserProps.StepWellFormed | js/parser.js:30-107 | every line keeps the state well-formed: every emitted slide has a heading or a block, and every heading, paragraph and item is non-empty and trimmed |
| ParserProps.ParseWellFormed | js/parser.js:39-117 | no emitted slide is empty, vertical blocks carry exactly one non-empty text, horizontal blocks at least one non-empty comma-free item, and headings are non-empty and trimmed |
| ParserProps.BlankInput | js/parser.js:21-23 | whitespace-only input gives no slides, and running the loop over its lines would also give none |
| ParserProps.RunBlank | js/parser.js:34-36 | blank lines leave the parser's state unchanged |
| ParserProps.RunAppend | js/parser.js:30-107 | feeding two runs of lines in turn is feeding their concatenation |
| ParserProps.RunShift | js/parser.js:30-107 | the slides already emitted play no part in later steps |
| ParserProps.PageBreakSplits | js/parser.js:39-50 | a `---` line splits the input into two independent documents whose slides are concatenated. So leading, trailing or doubled breaks add no slide |
| ParserProps.RunToBreak | js/parser.js:39-50 | after a page break the state is the slides so far, a fresh slide, and no open paragraph |
| ParserProps.StepPageBreak | js/parser.js:39-50 | a page break finishes the current slide and starts an empty one |
| ParserProps.SlideCountBound | js/parser.js:39-117 | there is at most one more slide than there are `---` lines |
| ParserProps.StepSlideCount | js/parser.js:39-106 | a line other than `---` adds no slide, and a `---` line adds at most one |
| ParserProps.StepExtends | js/parser.js:39-106 | one line only appends: the emitted slides stay as they are, and short of a page break so do the current slide's blocks |
| ParserProps.RunExtends | js/parser.js:39-49 | slides come out in input order: the slides emitted so far are a prefix of every later list |
| ParserProps.RunBlocksExtend | js/parser.js:63-95 | blocks come out in input order: without a page break, a slide's blocks are a prefix of its later blocks |
| ParserProps.StepKeepsContent | js/parser.js:53-106 | short of a page break a line emits no slide and never takes the content from the current slide; a heading, or a horizontal line with items, gives it content |
| ParserProps.RunKeepsContent | js/parser.js:30-107 | across lines without a page break the emitted slides stay the same and a slide with content keeps it |
| ParserProps.ContentMakesSlide | js/parser.js:109-117 | no content is lost: lines without a page break that hold a heading line, or a horizontal line with items, make exactly one slide |
| ParserProps.ItemsAppend | js/parser.js:70-73 | the items keep the order of the pieces: the items of two runs of pieces are those of the first, then those of the second |
| ParserProps.ItemsAt | js/parser.js:70-73 | piece j contributes its trimmed text in its place, or nothing when it trims to nothing; every piece that trims to something is an item |
| ParserProps.ItemsFromPieces | js/parser.js:70-73 | every item is one of the pieces, trimmed |
| ParserProps.SyntaxLineCommitsParagraph | js/parser.js:39-95 | a `---`, `#`, `--[…]` or `--` line acts as if the open paragraph had been committed and none were open |
| ParserProps.HeadingReplaces | js/parser.js:53-61 | a second heading line overrides the first outright and sets the heading to its trimmed text |
| ParserProps.StrayTextDropped | js/parser.js:98-106 | a text line with no open paragraph is dropped, in particular one right after a heading |
| ParserProps.StepText | js/parser.js:98-104 | inside a paragraph a text line becomes the text, or is appended after one space |
| ParserProps.StepHeading | js/parser.js:53-61 | a heading commits the paragraph, closes it and sets the heading |
| ParserProps.StepHorizontal | js/parser.js:63-82 | a horizontal line with items commits the paragraph, closes it and appends one `Horizontal(items)` block |
| ParserProps.StepVerticalBox | js/parser.js:84-95 | `--` commits the paragraph and opens an empty one |
| ParserProps.ParagraphAccumulates | js/parser.js:34-104 | from an empty open paragraph, text and blank lines only build its text: the non-blank lines joined by single spaces |
| ParserProps.ParagraphJoins | js/parser.js:84-104 | after `--` the text lines accumulate into one space-joined paragraph, blank lines skipped; whatever was open before is committed |
| ParserProps.ParagraphCommitted | js/parser.js:84-143 | when that paragraph is committed, it becomes one vertical block holding exactly the joined text |
| ParserExamples.HoleItems | js/parser.js:70-73 | `--[a,,b,]` yields the items `["a", "b"]` |
| ParserExamples.BlankItems | js/parser.js:70-73 | `--[a, ,b, ]` yields the items `["a", "b"]` |
| ParserExamples.CaptureHoles | js/parser.js:63-73 | the line `--[a,,b,]` classifies as a horizontal list of `a` and `b` |
| ParserExamples.ClassifyHeading | js/parser.js:53-59 | a trimmed `#text` line with trimmed text is the heading `text` |
| ParserExamples.UntrimmedHeading | js/parser.js:31-59 | `  # Title ` is the heading `Title`: the line and the capture are both trimmed |
| ParserExamples.ClassifyText | js/parser.js:97-101 | a trimmed non-empty line matching no pattern is a text line of itself |
| ParserExamples.ClassifyHorizontal | js/parser.js:63-73 | a trimmed horizontal line classifies as its items |
| ParserExamples.ParagraphSlide | js/parser.js:53-115 | a heading, `--` and two text lines make one slide with the heading and one vertical block of the two texts joined by a space |
| ParserExamples.LoneHorizontal | js/parser.js:63-115 | a lone horizontal line with items makes one slide without a heading |
| ParserExamples.ExampleSplit | js/parser.js:25 | the example document splits into its six lines |
| ParserExamples.EndToEnd | js/parser.js:20-118 | the example document parses to the slide `Title` / `hello world` and the slide `a`, `b`, `c` |
| Layout.LeftPadding | js/pptxBuilder.js:25-27 | the left padding in inches is `contentPaddingLeft` pt |
| Layout.TopPadding | js/pptxBuilder.js:32-34 | the top padding in inches is `contentPaddingTop` pt |
| Layout.RightPadding | js/pptxBuilder.js:39-41 | the right padding is the left padding |
| Layout.ContentWidth | js/pptxBuilder.js:46-50 | the width is the slide width less both paddings, but never below one inch |
| Layout.FullWidth | js/pptxBuilder.js:94 | heading boxes, and at line 125 vertical boxes, are exactly `slideWidth − 2·leftPadding` wide: the `min` with the content width never changes it |
| Layout.LineHeight | js/pptxBuilder.js:237 | a line is the font size plus 40 % leading, and positive for a positive font size |
| Layout.Ceil | js/pptxBuilder.js:234 | `Math.ceil`: the least integer not below the input |
| Layout.EstimateTextHeight | js/pptxBuilder.js:226-241 | the estimate is never below one line height for a positive font size |
| Layout.HeadingLayout | js/pptxBuilder.js:90-111 | one bold box with the heading text at the left padding, `y` and full width, in the heading font size and the font face; its height is the heading-size estimate at full width, at least one line; the cursor moves down by its height plus `headingMarginBottom` |
| Layout.VerticalLayout | js/pptxBuilder.js:120-146 | one box per text |
| Layout.BoxesPerRow | js/pptxBuilder.js:159 | `horizontalBoxesPerRow || 3`: the setting when non-zero, otherwise 3; always at least 1 |
| Layout.ColumnWidth | js/pptxBuilder.js:166-171 | the column width is at least one inch, because the available width is floored at k |
| Layout.BoxWidth | js/pptxBuilder.js:193-199 | every box width lies between 0.5 and the column width |
| Layout.PlaceRow | js/pptxBuilder.js:190-209 | one box per text of the row |
| Layout.Rows | js/pptxBuilder.js:177-180 | every row holds between 1 and k texts |
| Layout.DeckLayout | js/pptxBuilder.js:56-58 | one page per slide, page i being slide i laid out |
| Layout.RowsStep | js/pptxBuilder.js:177-213 | the grid from row `rowStart` is that row placed at the cursor, then the rest of the grid from below it |
| Layout.RowAdvance | js/pptxBuilder.js:177-213 | placing one row moves the loop's invariant from that row to the next |
| Layout.VerticalAdvance | js/pptxBuilder.js:127-143 | placing one text below the cursor moves addVerticalBoxes' invariant from that text to the next |
| Layout.BlockAdvance | js/pptxBuilder.js:74-80 | laying out one block moves addSlide's invariant to the next block |
| LayoutProps.LineCountBounds | js/pptxBuilder.js:231-234 | the line count is the rounded-up quotient: enough lines for the text, and one fewer would not do |
| LayoutProps.EstimateWholeLines | js/pptxBuilder.js:226-241 | the estimate is `max(lines, 1) × lineHeight` |
| LayoutProps.LineCountMonotone | js/pptxBuilder.js:231-234 | a longer text never needs fewer lines |
| LayoutProps.EstimateMonotone | js/pptxBuilder.js:226-241 | a longer text never gets a smaller estimate, for the same font size and width |
| LayoutProps.NarrowWidth | js/pptxBuilder.js:228-234 | when the width is narrower than one character (negative widths included), characters per line clamps to one and every character is a line |
| LayoutProps.ShortText | js/pptxBuilder.js:231-240 | a text no longer than one line, including the empty text, is exactly one line height tall |
| LayoutProps.VerticalShape | js/pptxBuilder.js:120-146 | box i sits at the left padding, full width, at `startY` plus the heights and margins of the boxes before it. The returned cursor is `startY` plus the sum over all boxes |
| LayoutProps.VerticalNeighbours | js/pptxBuilder.js:127-143 | each vertical box starts where the previous one ends, plus the vertical margin |
| LayoutProps.RowsFlatten | js/pptxBuilder.js:177-180 | reading the rows left to right, top to bottom gives back the texts |
| LayoutProps.RowsCount | js/pptxBuilder.js:177 | there are `ceil(count / k)` rows |
| LayoutProps.RowsContents | js/pptxBuilder.js:178-180 | row r holds `texts[r·k .. min(r·k + k, count))` |
| LayoutProps.GridRow | js/pptxBuilder.js:177-213 | row r's boxes follow the earlier rows' boxes: that row's texts placed from the left padding, at the row's top and with the row's height |
| LayoutProps.PlaceRowShape | js/pptxBuilder.js:190-209 | within a row, box i is at `x + i·(boxWidth + hMargin)`. All boxes share the row's y and height, keep the text order, are not bold, and have a width in [0.5, boxWidth] |
| LayoutProps.PlaceRowTexts | js/pptxBuilder.js:190-209 | a row's boxes carry exactly the row's texts, in order |
| LayoutProps.RowHeightIsMax | js/pptxBuilder.js:183-187 | a row's height is at least every estimate in it and equal to one of them |
| LayoutProps.HorizontalShape | js/pptxBuilder.js:155-217 | no texts give no boxes and the unchanged cursor; otherwise the boxes carry exactly the texts, in order |
| LayoutProps.RowsCursor | js/pptxBuilder.js:177-213 | after the last row the cursor is the start plus every row's height and vertical margin |
| LayoutProps.HorizontalCursor | js/pptxBuilder.js:155-217 | the returned cursor sits below the last row, where the next block starts; with no texts it is the cursor it was given |
| LayoutProps.BlocksTexts | js/pptxBuilder.js:74-80 | a slide's blocks lay out to exactly their texts, in order, none bold |
| LayoutProps.SlideShape | js/pptxBuilder.js:64-111 | a slide's boxes carry the heading (present only when non-empty) and then every block's texts, in order; only the heading box is bold, and it sits at the top padding |
| LayoutProps.FirstBlockStart | js/pptxBuilder.js:66-110 | the first block starts below the heading and its margin, or at the top padding when there is no heading |
| LayoutProps.ParsedSlidesHaveBoxes | js/parser.js:150-152 | every slide the parser emits lays out to at least one box |
| Builder.PptxBuilder.constructor | js/pptxBuilder.js:10-11 | the builder keeps its settings and starts with no slides |
| Builder.PptxBuilder.AddHeading | js/pptxBuilder.js:90-111 | appends exactly the heading box of `HeadingLayout` and returns its cursor |
| Builder.PptxBuilder.AddVerticalBoxes | js/pptxBuilder.js:120-146 | the loop appends exactly the boxes of `VerticalLayout` and returns its cursor |
| Builder.PptxBuilder.RowMaxHeight | js/pptxBuilder.js:183-187 | the first row loop computes the row height, the largest estimate from 0 |
| Builder.PptxBuilder.PlaceRowBoxes | js/pptxBuilder.js:190-209 | the second row loop appends exactly the row's boxes |
| Builder.PptxBuilder.AddHorizontalBoxes | js/pptxBuilder.js:155-217 | the row loop appends exactly the boxes of `HorizontalLayout` and returns its cursor |
| Builder.PptxBuilder.AddSlide | js/pptxBuilder.js:64-81 | adds one page holding exactly `SlideLayout` of the slide |
| Builder.PptxBuilder.Build | js/pptxBuilder.js:56-58 | adds the pages of `DeckLayout`, one per slide, in order |

## Left out

- Builder.PptxBuilder.constructor: the constructor receives complete settings. The merge `{ ...DEFAULT_CONFIG, ...config }` at js/pptxBuilder.js:11 is left to the caller, with `DefaultConfig` as the base to merge into.
- The renderer library and file output: `new PptxGenJS()`, `defineLayout` and `layout` in the constructor (js/pptxBuilder.js:12-19), and `download`/`writeFile` (js/pptxBuilder.js:247-249). The model records the boxes handed to `addText`. The renderer's slide object is modelled as the sequence of those boxes, threaded through the `add…` methods.
- The colour `'333333'`, `align` and `valign` options are constants handed to the renderer; they are not modelled. `slideHeight` is kept as a setting but only the renderer reads it.
- js/uiController.js and js/app.js are not part of this model. They are DOM wiring, file reading, alerts and the "no slides, no build" check.
- Numbers are exact reals, not IEEE-754 doubles. The rounding of `13.333`, `/72`, `×0.9` and `×1.4` is not reproduced.
- NaN from missing settings is not modelled. The builder reads `contentPaddingLeft`, `contentPaddingTop` and `horizontalBoxesPerRow`. DEFAULT_CONFIG (js/config.js:2-20) and the settings the UI passes have none of these, so in the shipped program the paddings are `NaN`. DEFAULT_CONFIG does set `contentPadding: 0.5` and `headingY: 0.5` (js/config.js:18-19), which look meant to feed these paddings, but the builder never reads either, so they are not modelled. Here all three are explicit fields, and `DefaultConfig` takes the paddings as parameters.
- `ValidConfig` asks for non-zero font sizes, because the estimate divides by the font size. The lemmas whose statements need it (at least one line tall, monotone) ask for a positive size.
- `horizontalBoxesPerRow` is a natural number, with 0 standing for unset. A negative setting, which makes the source's row loop (js/pptxBuilder.js:177) run forever, is excluded by the type.
- Text length is counted in Unicode characters, not UTF-16 code units. A text with characters outside the Basic Multilingual Plane is one unit shorter per such character than JavaScript's `length`.
- Text trimming uses ECMAScript's WhiteSpace and LineTerminator sets. The regular expressions' `.` is "not a line terminator". Other string primitives are not modelled.
- `FONT_OPTIONS` (js/config.js:31-36) is a table for the UI only.
- Builder.PptxBuilder.RowMaxHeight and Builder.PptxBuilder.PlaceRowBoxes: in the source, the two `forEach` callbacks of a row are closures inside `addHorizontalBoxes`. Here they are separate methods, and the column width they receive is `ColumnWidth`, the value `addHorizontalBoxes` computes at lines 166-171.
- Continuation lines after a heading are discarded, as the code does (js/parser.js:98-106), not appended to the heading. The default slide width is 13.333 inches, as in js/config.js:4.
