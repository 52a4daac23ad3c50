/**
 * The markup parser: a line-classifying state machine that turns raw text
 * into an ordered list of slides. `Step` is the effect of one input line on
 * the parser's state and `Parse` folds it over the lines; `ParseText` is the
 * loop that updates the same state variables in place.
 */
module Parser {
  import opened Wrappers
  import opened Text
  import opened Config

  datatype Block = Vertical(texts: seq<string>) | Horizontal(texts: seq<string>)

  datatype Slide = Slide(heading: Option<string>, blocks: seq<Block>)

  /** The paragraph opened by a `--` line; its text is None until the first text line arrives. */
  datatype OpenBlock = NoBlock | VerticalBlock(currentText: Option<string>)

  /** The finished slides, the slide being filled and the open paragraph, if any. */
  datatype ParseState = ParseState(slides: seq<Slide>, current: Slide, open: OpenBlock)

  /** What a raw input line is, after trimming, in the order parseText tests the patterns. */
  datatype LineKind =
    | Blank
    | PageBreak
    | Heading(text: string)
    | HorizontalBoxes(items: seq<string>)
    | VerticalBox
    | TextLine(text: string)

  predicate HasContent(s: Slide)
  {
    s.heading.Some? || |s.blocks| > 0
  }

  function CreateEmptySlide(): (s: Slide)
    ensures !HasContent(s)
  {
    Slide(None, [])
  }

  /** An open paragraph that has received at least one non-empty text line. */
  predicate HasPendingText(open: OpenBlock)
  {
    open.VerticalBlock? && open.currentText.Some? && open.currentText.value != []
  }

  /** Commits the open paragraph, if it holds text, as a one-text vertical block. */
  function FinalizeVerticalBlock(slide: Slide, open: OpenBlock): (r: Slide)
    ensures r.heading == slide.heading
    ensures |r.blocks| == |slide.blocks| + (if HasPendingText(open) then 1 else 0)
    ensures r.blocks[..|slide.blocks|] == slide.blocks
    ensures HasPendingText(open) ==> r.blocks[|slide.blocks|] == Vertical([open.currentText.value])
  {
    if HasPendingText(open) then
      Slide(slide.heading, slide.blocks + [Vertical([open.currentText.value])])
    else
      slide
  }

  /** The items of a horizontal line: every comma-separated piece, trimmed, the empty ones dropped. */
  function Items(pieces: seq<string>): (items: seq<string>)
    ensures |items| <= |pieces|
    ensures forall s :: s in items ==> s != [] && IsTrimmed(s)
    ensures (forall p :: p in pieces ==> ',' !in p) ==> forall s :: s in items ==> ',' !in s
  {
    if pieces == [] then []
    else
      var item := Trim(pieces[0]);
      TrimOmits(pieces[0], ',');
      if item == [] then Items(pieces[1..]) else [item] + Items(pieces[1..])
  }

  /** The items of a line matching the horizontal-boxes pattern. */
  function HorizontalItems(line: string): (items: seq<string>)
    requires IsHorizontalBoxes(line)
    ensures forall i :: 0 <= i < |items| ==> items[i] != [] && IsTrimmed(items[i]) && ',' !in items[i]
  {
    var pieces := Split(HorizontalCapture(line), ',');
    assert forall p :: p in pieces ==> ',' !in p;
    var items := Items(pieces);
    assert forall i :: 0 <= i < |items| ==> items[i] in items;
    items
  }

  /** Trims the line and classifies it; headings and text lines are never empty and are trimmed. */
  function Classify(raw: string): (k: LineKind)
    ensures k.Blank? <==> Trim(raw) == []
    ensures k.Heading? ==> k.text != [] && IsTrimmed(k.text)
    ensures k.TextLine? ==> k.text != [] && IsTrimmed(k.text) && k.text == Trim(raw)
    ensures k.HorizontalBoxes? ==>
              forall i :: 0 <= i < |k.items| ==> k.items[i] != [] && IsTrimmed(k.items[i]) && ',' !in k.items[i]
  {
    var line := Trim(raw);
    if line == [] then Blank
    else if IsPageBreak(line) then PageBreak
    else if IsHeading(line) then
      var capture := HeadingCapture(line);
      assert capture[|capture| - 1] == line[|line| - 1];
      assert !AllSpace(capture);
      Heading(Trim(capture))
    else if IsHorizontalBoxes(line) then HorizontalBoxes(HorizontalItems(line))
    else if IsVerticalBox(line) then VerticalBox
    else TextLine(line)
  }

  const Start: ParseState := ParseState([], CreateEmptySlide(), NoBlock)

  /** End of a slide: commit the open paragraph and keep the slide only if it has content. */
  function Finish(st: ParseState): (slides: seq<Slide>)
    ensures st.slides <= slides && |slides| <= |st.slides| + 1
    ensures |slides| == |st.slides| + 1 <==> HasContent(FinalizeVerticalBlock(st.current, st.open))
    ensures |slides| == |st.slides| + 1 ==> slides[|st.slides|] == FinalizeVerticalBlock(st.current, st.open)
  {
    var last := FinalizeVerticalBlock(st.current, st.open);
    st.slides + (if HasContent(last) then [last] else [])
  }

  /** The effect of one raw input line on the parser's state. */
  function Step(st: ParseState, raw: string): ParseState
  {
    match Classify(raw)
    case Blank => st
    case PageBreak => ParseState(Finish(st), CreateEmptySlide(), NoBlock)
    case Heading(h) =>
      var closed := FinalizeVerticalBlock(st.current, st.open);
      ParseState(st.slides, closed.(heading := Some(h)), NoBlock)
    case HorizontalBoxes(items) =>
      var closed := FinalizeVerticalBlock(st.current, st.open);
      var slide := if |items| > 0 then closed.(blocks := closed.blocks + [Horizontal(items)]) else closed;
      ParseState(st.slides, slide, NoBlock)
    case VerticalBox =>
      ParseState(st.slides, FinalizeVerticalBlock(st.current, st.open), VerticalBlock(None))
    case TextLine(line) =>
      match st.open
      case NoBlock => st
      case VerticalBlock(None) => st.(open := VerticalBlock(Some(line)))
      case VerticalBlock(Some(text)) => st.(open := VerticalBlock(Some(text + " " + line)))
  }

  /** The state after feeding `lines`, in order, to the parser in state `st`. */
  function RunFrom(st: ParseState, lines: seq<string>): ParseState
  {
    if lines == [] then st else Step(RunFrom(st, lines[..|lines| - 1]), lines[|lines| - 1])
  }

  /** The slides of a list of raw lines. */
  function ParseLines(lines: seq<string>): seq<Slide>
  {
    Finish(RunFrom(Start, lines))
  }

  /** parseText as a function: blank input gives no slides, otherwise the slides of its lines. */
  function Parse(input: string): seq<Slide>
  {
    if Trim(input) == [] then [] else ParseLines(Split(input, '\n'))
  }

  /** parseText: one pass over the lines, updating the slide list, the current slide and the open paragraph. */
  method ParseText(inputText: string) returns (slides: seq<Slide>)
    ensures slides == Parse(inputText)
  {
    if inputText == [] || Trim(inputText) == [] {
      return [];
    }
    var lines := Split(inputText, '\n');
    slides := [];
    var currentSlide := CreateEmptySlide();
    var currentVerticalBlock := NoBlock;
    for i := 0 to |lines|
      invariant RunFrom(Start, lines[..i]) == ParseState(slides, currentSlide, currentVerticalBlock)
    {
      assert lines[..i + 1][..i] == lines[..i];
      var line := Trim(lines[i]);
      if line == [] {
        continue;
      }
      if IsPageBreak(line) {
        currentSlide := FinalizeVerticalBlock(currentSlide, currentVerticalBlock);
        currentVerticalBlock := NoBlock;
        if HasContent(currentSlide) {
          slides := slides + [currentSlide];
        }
        currentSlide := CreateEmptySlide();
        continue;
      }
      if IsHeading(line) {
        currentSlide := FinalizeVerticalBlock(currentSlide, currentVerticalBlock);
        currentVerticalBlock := NoBlock;
        currentSlide := currentSlide.(heading := Some(Trim(HeadingCapture(line))));
        continue;
      }
      if IsHorizontalBoxes(line) {
        currentSlide := FinalizeVerticalBlock(currentSlide, currentVerticalBlock);
        currentVerticalBlock := NoBlock;
        var items := HorizontalItems(line);
        if |items| > 0 {
          currentSlide := currentSlide.(blocks := currentSlide.blocks + [Horizontal(items)]);
        }
        continue;
      }
      if IsVerticalBox(line) {
        currentSlide := FinalizeVerticalBlock(currentSlide, currentVerticalBlock);
        currentVerticalBlock := VerticalBlock(None);
        continue;
      }
      match currentVerticalBlock
      case NoBlock =>
      case VerticalBlock(None) =>
        currentVerticalBlock := VerticalBlock(Some(line));
      case VerticalBlock(Some(text)) =>
        currentVerticalBlock := VerticalBlock(Some(text + " " + line));
    }
    assert lines[..|lines|] == lines;
    currentSlide := FinalizeVerticalBlock(currentSlide, currentVerticalBlock);
    if HasContent(currentSlide) {
      slides := slides + [currentSlide];
    }
  }
}
