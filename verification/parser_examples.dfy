/** Worked examples of the parser: small scenarios, then the same scenarios on concrete text. */
module ParserExamples {
  import opened Wrappers
  import opened Text
  import opened Config
  import opened Parser
  import opened ParserProps
  /** A heading line alone sets the heading of the first slide. */
  lemma HeadingRun(heading: string)
    requires Classify(heading).Heading?
    ensures RunFrom(Start, [heading]) == ParseState([], Slide(Some(Classify(heading).text), []), NoBlock)
  {
    RunSnoc(Start, [], heading);
    assert [] + [heading] == [heading];
    StepHeading(Start, heading);
  }

  lemma OpenerRun(heading: string, opener: string)
    requires Classify(heading).Heading? && Classify(opener) == VerticalBox
    ensures RunFrom(Start, [heading, opener])
         == ParseState([], Slide(Some(Classify(heading).text), []), VerticalBlock(None))
  {
    HeadingRun(heading);
    RunSnoc(Start, [heading], opener);
    assert [heading] + [opener] == [heading, opener];
    StepVerticalBox(ParseState([], Slide(Some(Classify(heading).text), []), NoBlock), opener);
  }

  lemma FirstLineRun(heading: string, opener: string, a: string)
    requires Classify(heading).Heading? && Classify(opener) == VerticalBox && Classify(a).TextLine?
    ensures RunFrom(Start, [heading, opener, a])
         == ParseState([], Slide(Some(Classify(heading).text), []), VerticalBlock(Some(Classify(a).text)))
  {
    OpenerRun(heading, opener);
    RunSnoc(Start, [heading, opener], a);
    Snoc3(heading, opener, a);
    StepText(ParseState([], Slide(Some(Classify(heading).text), []), VerticalBlock(None)), a);
  }

  /** List literals built one element at a time, kept generic so that no line classification is in view. */
  lemma Snoc3<T>(x: T, y: T, z: T)
    ensures [x, y] + [z] == [x, y, z]
  {
  }

  lemma Snoc4<T>(w: T, x: T, y: T, z: T)
    ensures [w, x, y] + [z] == [w, x, y, z]
  {
  }

  lemma SecondLineRun(heading: string, opener: string, a: string, b: string)
    requires Classify(heading).Heading? && Classify(opener) == VerticalBox
    requires Classify(a).TextLine? && Classify(b).TextLine?
    ensures RunFrom(Start, [heading, opener, a, b])
         == ParseState([], Slide(Some(Classify(heading).text), []), VerticalBlock(Some(Classify(a).text + " " + Classify(b).text)))
  {
    FirstLineRun(heading, opener, a);
    RunSnoc(Start, [heading, opener, a], b);
    Snoc4(heading, opener, a, b);
    StepText(ParseState([], Slide(Some(Classify(heading).text), []), VerticalBlock(Some(Classify(a).text))), b);
  }

  /** A heading followed by a `--` paragraph of two text lines makes one slide with one vertical block. */
  lemma HeadingThenParagraph(heading: string, opener: string, a: string, b: string)
    requires Classify(heading).Heading? && Classify(opener) == VerticalBox
    requires Classify(a).TextLine? && Classify(b).TextLine?
    ensures ParseLines([heading, opener, a, b])
         == [Slide(Some(Classify(heading).text), [Vertical([Classify(a).text + " " + Classify(b).text])])]
  {
    SecondLineRun(heading, opener, a, b);
  }

  /** A lone horizontal line with items makes one slide without heading. */
  lemma LoneHorizontal(line: string)
    requires Classify(line).HorizontalBoxes? && Classify(line).items != []
    ensures ParseLines([line]) == [Slide(None, [Horizontal(Classify(line).items)])]
  {
    assert [line][..0] == [];
    StepHorizontal(Start, line);
    var st := ParseState([], Slide(None, [Horizontal(Classify(line).items)]), NoBlock);
    assert RunFrom(Start, [line]) == st;
    assert Finish(st) == [st.current];
  }

  lemma ItemsExample(pieces: seq<string>)
    requires |pieces| == 4 && pieces[0] == "a" && AllSpace(pieces[1]) && pieces[2] == "b" && AllSpace(pieces[3])
    ensures Items(pieces) == ["a", "b"]
  {
    assert IsTrimmed("a") && IsTrimmed("b");
    assert pieces[1..][1..][1..][1..] == [];
    assert Items(pieces[1..][1..][1..]) == [];
    assert Items(pieces[1..][1..]) == ["b"];
    assert Items(pieces[1..]) == ["b"];
  }

  lemma HoleItems()
    ensures HorizontalItems("--[a,,b,]") == ["a", "b"]
  {
    var line := "--[a,,b,]";
    assert IsHorizontalBoxes(line);
    assert HorizontalCapture(line) == "a,,b,";
    SplitJoin(["a", "", "b", ""], ',');
    assert Join(["a", "", "b", ""], ',') == "a,,b,";
    ItemsExample(["a", "", "b", ""]);
  }

  lemma BlankItems()
    ensures HorizontalItems("--[a, ,b, ]") == ["a", "b"]
  {
    var line := "--[a, ,b, ]";
    assert IsHorizontalBoxes(line);
    assert HorizontalCapture(line) == "a, ,b, ";
    SplitJoin(["a", " ", "b", " "], ',');
    assert Join(["a", " ", "b", " "], ',') == "a, ,b, ";
    ItemsExample(["a", " ", "b", " "]);
  }

  lemma CaptureHoles()
    ensures Classify("--[a,,b,]") == HorizontalBoxes(["a", "b"])
  {
    var line := "--[a,,b,]";
    assert IsTrimmed(line);
    assert IsHorizontalBoxes(line);
    ClassifyHorizontal(line);
    HoleItems();
  }

  lemma CaptureBlanks()
    ensures Classify("--[a, ,b, ]") == HorizontalBoxes(["a", "b"])
  {
    var line := "--[a, ,b, ]";
    assert IsTrimmed(line);
    assert IsHorizontalBoxes(line);
    ClassifyHorizontal(line);
    BlankItems();
  }

  /** Space around the line and after `#` is trimmed away: `  # Title ` is the heading `Title`. */
  lemma UntrimmedHeading()
    ensures Classify("  # Title ") == Heading("Title")
  {
    SpacedTitle();
    assert "  # Title " == "  " + "# Title" + " ";
    TrimAround("  ", "# Title", " ");
    ClassifyCaptures("  # Title ");
    TrimAround(" ", "Title", "");
  }

  lemma SpacedTitle()
    ensures IsHeading("# Title") && IsTrimmed("# Title") && IsTrimmed("Title")
    ensures HeadingCapture("# Title") == " " + "Title" + ""
  {
    assert NoLineTerminator(" Title");
  }

  lemma ClassifyHeading(line: string)
    requires IsTrimmed(line) && IsHeading(line) && IsTrimmed(line[1..])
    ensures Classify(line) == Heading(line[1..])
  {
  }

  lemma ClassifyText(line: string)
    requires line != [] && IsTrimmed(line)
    requires !IsPageBreak(line) && !IsHeading(line) && !IsHorizontalBoxes(line) && !IsVerticalBox(line)
    ensures Classify(line) == TextLine(line)
  {
  }

  lemma ClassifyHorizontal(line: string)
    requires IsTrimmed(line) && IsHorizontalBoxes(line)
    ensures Classify(line) == HorizontalBoxes(HorizontalItems(line))
  {
    assert Trim(line) == line;
    assert line[0] == line[..3][0] == '-';
    assert !IsPageBreak(line) && !IsHeading(line);
  }

  lemma TitleLine()
    ensures Classify("#Title") == Heading("Title")
  {
    assert IsTrimmed("#Title");
    assert IsHeading("#Title");
    assert "#Title"[1..] == "Title";
    assert IsTrimmed("Title");
    ClassifyHeading("#Title");
  }

  lemma OpenerLine()
    ensures Classify("--") == VerticalBox
  {
    assert "--"[0] == '-' && "--"[1] == '-';
    ClassifyOpener("--");
  }

  lemma ClassifyOpener(line: string)
    requires |line| == 2 && line[0] == '-' && line[1] == '-'
    ensures Classify(line) == VerticalBox
  {
    assert IsTrimmed(line) && Trim(line) == line;
    assert !IsPageBreak(line) && !IsHeading(line) && !IsHorizontalBoxes(line);
    assert line == [line[0], line[1]] == "--";
  }

  lemma WordLine(w: string)
    requires w == "hello" || w == "world"
    ensures Classify(w) == TextLine(w)
  {
    assert IsTrimmed(w);
    assert w[0] != '#' && w[0] != '-';
    ClassifyText(w);
  }

  lemma BreakLine()
    ensures Classify("---") == PageBreak
  {
    assert IsTrimmed("---");
  }

  lemma ListSplit()
    ensures HorizontalCapture("--[a,b,c]") == "a,b,c"
    ensures Split("a,b,c", ',') == ["a", "b", "c"]
  {
    assert IsHorizontalBoxes("--[a,b,c]");
    SplitJoin(["a", "b", "c"], ',');
    assert Join(["a", "b", "c"], ',') == "a,b,c";
  }

  /** Pieces that are already non-empty and trimmed are their own items. */
  lemma {:induction false} CleanItems(pieces: seq<string>)
    requires forall i :: 0 <= i < |pieces| ==> pieces[i] != [] && IsTrimmed(pieces[i])
    ensures Items(pieces) == pieces
    decreases |pieces|
  {
    if pieces != [] {
      CleanItems(pieces[1..]);
      assert pieces == [pieces[0]] + pieces[1..];
    }
  }

  lemma ListTrimmed()
    ensures Items(["a", "b", "c"]) == ["a", "b", "c"]
  {
    var pieces := ["a", "b", "c"];
    assert IsTrimmed(pieces[0]) && IsTrimmed(pieces[1]) && IsTrimmed(pieces[2]);
    CleanItems(pieces);
  }

  lemma ListItems()
    ensures HorizontalItems("--[a,b,c]") == ["a", "b", "c"]
  {
    assert IsHorizontalBoxes("--[a,b,c]");
    ListSplit();
    ListTrimmed();
  }


  lemma ListLine()
    ensures Classify("--[a,b,c]") == HorizontalBoxes(["a", "b", "c"])
  {
    assert IsTrimmed("--[a,b,c]");
    assert IsHorizontalBoxes("--[a,b,c]");
    ClassifyHorizontal("--[a,b,c]");
    ListItems();
  }

  /** The document "#Title\n--\nhello\nworld\n---\n--[a,b,c]", written one line and its newline at a time. */
  const ExampleInput: string :=
    "#Title" + "\n" + ("--" + "\n" + ("hello" + "\n" + ("world" + "\n" + ("---" + "\n" + "--[a,b,c]"))))
  const ExampleLines: seq<string> := ["#Title", "--", "hello", "world", "---", "--[a,b,c]"]

  lemma JoinCons(piece: string, pieces: seq<string>, sep: char)
    requires |pieces| >= 1
    ensures Join([piece] + pieces, sep) == piece + [sep] + Join(pieces, sep)
  {
    assert ([piece] + pieces)[1..] == pieces;
  }

  lemma ExampleJoin()
    ensures Join(ExampleLines, '\n') == ExampleInput
  {
    var t5 := ["--[a,b,c]"];
    var t4 := ["---"] + t5;
    var t3 := ["world"] + t4;
    var t2 := ["hello"] + t3;
    var t1 := ["--"] + t2;
    var t0 := ["#Title"] + t1;
    JoinCons("---", t5, '\n');
    JoinCons("world", t4, '\n');
    JoinCons("hello", t3, '\n');
    JoinCons("--", t2, '\n');
    JoinCons("#Title", t1, '\n');
    assert t0 == ExampleLines;
  }

  lemma ExampleSplit()
    ensures Split(ExampleInput, '\n') == ExampleLines
  {
    ExampleJoin();
    SplitJoin(ExampleLines, '\n');
  }

  lemma ExampleNotBlank()
    ensures Trim(ExampleInput) != []
  {
    assert ExampleInput[0] == '#';
    assert !AllSpace(ExampleInput);
  }

  lemma ParagraphSlide(heading: string, opener: string, a: string, b: string, title: string, x: string, y: string)
    requires Classify(heading) == Heading(title) && Classify(opener) == VerticalBox
    requires Classify(a) == TextLine(x) && Classify(b) == TextLine(y)
    ensures ParseLines([heading, opener, a, b]) == [Slide(Some(title), [Vertical([x + " " + y])])]
  {
    HeadingThenParagraph(heading, opener, a, b);
  }

  lemma FirstSlide()
    ensures ParseLines(["#Title", "--", "hello", "world"]) == [Slide(Some("Title"), [Vertical(["hello world"])])]
  {
    assert "hello" + " " + "world" == "hello world";
    TitleLine();
    OpenerLine();
    WordLine("hello");
    WordLine("world");
    ParagraphSlide("#Title", "--", "hello", "world", "Title", "hello", "world");
  }

  lemma SecondSlide()
    ensures ParseLines(["--[a,b,c]"]) == [Slide(None, [Horizontal(["a", "b", "c"])])]
  {
    ListLine();
    LoneHorizontal("--[a,b,c]");
  }

  lemma ExampleSlides()
    ensures ParseLines(ExampleLines)
         == [Slide(Some("Title"), [Vertical(["hello world"])]), Slide(None, [Horizontal(["a", "b", "c"])])]
  {
    var first := ["#Title", "--", "hello", "world"];
    assert ExampleLines == first + ["---"] + ["--[a,b,c]"];
    BreakLine();
    PageBreakSplits(first, "---", ["--[a,b,c]"]);
    FirstSlide();
    SecondSlide();
  }

  /** A heading, a two-line paragraph, a page break and a horizontal list. */
  lemma EndToEnd()
    ensures Parse(ExampleInput)
         == [Slide(Some("Title"), [Vertical(["hello world"])]), Slide(None, [Horizontal(["a", "b", "c"])])]
  {
    ExampleNotBlank();
    ExampleSplit();
    ExampleSlides();
  }
}
