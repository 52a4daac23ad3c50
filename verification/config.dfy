/**
 * Configuration constants, the four line patterns of the markup and the
 * point-to-inch conversion.
 */
module Config {
  import opened Text

  /** Converts points to inches (1 pt = 1/72 in). */
  function PtToInch(pt: real): (inch: real)
    ensures inch * 72.0 == pt
  {
    pt / 72.0
  }

  /** The conversion maps 72 pt to one inch, is additive and keeps order. */
  lemma PtToInchLinear(a: real, b: real)
    ensures PtToInch(72.0) == 1.0
    ensures PtToInch(a + b) == PtToInch(a) + PtToInch(b)
    ensures a <= b ==> PtToInch(a) <= PtToInch(b)
  {
  }

  // The patterns, applied to a line that has already been trimmed.

  /** `/^---$/` */
  predicate IsPageBreak(line: string)
  {
    line == "---"
  }

  /** `/^#(.+)$/`: a `#` followed by one or more characters, none a line terminator. */
  predicate IsHeading(line: string)
  {
    |line| >= 2 && line[0] == '#' && NoLineTerminator(line[1..])
  }

  /** The capture group of the heading pattern. */
  function HeadingCapture(line: string): (text: string)
    requires IsHeading(line)
    ensures line == "#" + text && text != []
  {
    line[1..]
  }

  /** `/^--\[(.+)\]$/`: `--[`, one or more characters, `]`, nothing else. */
  predicate IsHorizontalBoxes(line: string)
  {
    |line| >= 5 && line[..3] == "--[" && line[|line| - 1] == ']' && NoLineTerminator(line[3..|line| - 1])
  }

  /** The capture group of the horizontal-boxes pattern: everything between `--[` and the last `]`. */
  function HorizontalCapture(line: string): (interior: string)
    requires IsHorizontalBoxes(line)
    ensures line == "--[" + interior + "]" && interior != []
  {
    line[3..|line| - 1]
  }

  /** `/^--$/` */
  predicate IsVerticalBox(line: string)
  {
    line == "--"
  }

  /** The heading pattern is exactly "`#` followed by a non-empty run free of line terminators". */
  lemma HeadingShape(line: string)
    ensures IsHeading(line) <==> exists t :: line == "#" + t && t != [] && NoLineTerminator(t)
  {
    if IsHeading(line) {
      assert line == "#" + line[1..];
    }
  }

  /** The horizontal pattern is exactly "`--[`, a non-empty run free of line terminators, `]`". */
  lemma HorizontalShape(line: string)
    ensures IsHorizontalBoxes(line) <==> exists t :: line == "--[" + t + "]" && t != [] && NoLineTerminator(t)
  {
    if IsHorizontalBoxes(line) {
      assert line == "--[" + line[3..|line| - 1] + "]";
    }
    if exists t :: line == "--[" + t + "]" && t != [] && NoLineTerminator(t) {
      var t :| line == "--[" + t + "]" && t != [] && NoLineTerminator(t);
      assert line[3..|line| - 1] == t;
    }
  }

  /** A bare `#` is no heading and `--[]` is no horizontal block. */
  lemma DegenerateLines()
    ensures !IsHeading("#")
    ensures !IsHorizontalBoxes("--[]")
  {
  }

  /** At most one pattern matches any line, so the order of the tests does not matter. */
  lemma PatternsDisjoint(line: string)
    ensures IsPageBreak(line) ==> !IsHeading(line) && !IsHorizontalBoxes(line) && !IsVerticalBox(line)
    ensures IsHeading(line) ==> !IsHorizontalBoxes(line) && !IsVerticalBox(line)
    ensures IsHorizontalBoxes(line) ==> !IsVerticalBox(line)
  {
    if IsHorizontalBoxes(line) {
      assert line[2] == '[';
    }
  }

  /**
   * The layout settings. The shipped defaults lack contentPaddingLeft,
   * contentPaddingTop and horizontalBoxesPerRow, so they are explicit here;
   * horizontalBoxesPerRow == 0 stands for "unset or 0", which the builder
   * replaces with 3. slideHeight is only handed to the renderer.
   */
  datatype LayoutConfig = LayoutConfig(
    slideWidth: real,            // inches
    slideHeight: real,           // inches
    fontFace: string,
    headingFontSize: real,       // pt
    bodyFontSize: real,          // pt
    headingMarginBottom: real,   // pt
    bodyBoxMarginVertical: real, // pt
    bodyBoxMarginHorizontal: real, // pt
    contentPaddingLeft: real,    // pt
    contentPaddingTop: real,     // pt
    horizontalBoxesPerRow: nat)

  /** The shipped defaults, completed with the padding the caller supplies and an unset column count. */
  function DefaultConfig(contentPaddingLeft: real, contentPaddingTop: real): (c: LayoutConfig)
    ensures ValidConfig(c)
  {
    LayoutConfig(13.333, 7.5, "BIZ UDGothic", 60.0, 40.0, 30.0, 10.0, 20.0,
                 contentPaddingLeft, contentPaddingTop, 0)
  }

  /** The text-height estimate divides by the font size. */
  predicate ValidConfig(c: LayoutConfig)
  {
    c.headingFontSize != 0.0 && c.bodyFontSize != 0.0
  }
}
