/** Properties of the markup parser. */
module ParserProps {
  import opened Wrappers
  import opened Text
  import opened Config
  import opened Parser

  // ---- Line classification -----------------------------------------------

  /**
   * Each kind of line is exactly the trimmed line matching its pattern, tested in the
   * source's order; a heading is the trimmed text after `#`, a horizontal line its items,
   * and a line matching no pattern is a text line of itself.
   */
  lemma ClassifyPatterns(raw: string)
    ensures var line := Trim(raw);
            && (Classify(raw) == Blank <==> line == [])
            && (Classify(raw) == PageBreak <==> IsPageBreak(line))
            && (Classify(raw).Heading? <==> IsHeading(line))
            && (Classify(raw).HorizontalBoxes? <==> IsHorizontalBoxes(line))
            && (Classify(raw) == VerticalBox <==> IsVerticalBox(line))
            && (Classify(raw).TextLine? <==>
                  line != [] && !IsPageBreak(line) && !IsHeading(line) && !IsHorizontalBoxes(line) && !IsVerticalBox(line))
  {
    PatternsDisjoint(Trim(raw));
  }

  /** A heading line's text is what follows `#`, trimmed, and a horizontal line's items are those of its capture. */
  lemma ClassifyCaptures(raw: string)
    ensures var line := Trim(raw);
            && (IsHeading(line) ==> Classify(raw) == Heading(Trim(HeadingCapture(line))))
            && (IsHorizontalBoxes(line) ==> Classify(raw) == HorizontalBoxes(HorizontalItems(line)))
            && (Classify(raw).TextLine? ==> Classify(raw) == TextLine(line))
  {
    PatternsDisjoint(Trim(raw));
  }

  // ---- Shape of the output -------------------------------------------------

  predicate WellFormedBlock(b: Block)
  {
    match b
    case Vertical(texts) => |texts| == 1 && texts[0] != [] && IsTrimmed(texts[0])
    case Horizontal(texts) =>
      |texts| >= 1 && forall i :: 0 <= i < |texts| ==> texts[i] != [] && IsTrimmed(texts[i]) && ',' !in texts[i]
  }

  predicate WellFormedHeading(h: Option<string>)
  {
    h.Some? ==> h.value != [] && IsTrimmed(h.value)
  }

  /** An emitted slide has a heading or a block; every heading and block text is non-empty and trimmed. */
  predicate WellFormedSlide(s: Slide)
  {
    && HasContent(s)
    && WellFormedHeading(s.heading)
    && forall i :: 0 <= i < |s.blocks| ==> WellFormedBlock(s.blocks[i])
  }

  predicate WellFormedState(st: ParseState)
  {
    && (forall i :: 0 <= i < |st.slides| ==> WellFormedSlide(st.slides[i]))
    && WellFormedHeading(st.current.heading)
    && (forall i :: 0 <= i < |st.current.blocks| ==> WellFormedBlock(st.current.blocks[i]))
    && (st.open.VerticalBlock? && st.open.currentText.Some? ==>
          st.open.currentText.value != [] && IsTrimmed(st.open.currentText.value))
  }

  /** Two trimmed non-empty texts joined by a space form a trimmed text. */
  lemma JoinedTrimmed(a: string, b: string)
    requires a != [] && IsTrimmed(a) && b != [] && IsTrimmed(b)
    ensures IsTrimmed(a + " " + b) && a + " " + b != []
  {
    assert (a + " " + b)[0] == a[0];
    assert (a + " " + b)[|a + " " + b| - 1] == b[|b| - 1];
  }

  /** Committing a paragraph keeps a well-formed state well-formed. */
  lemma FinalizeWellFormed(st: ParseState)
    requires WellFormedState(st)
    ensures var c := FinalizeVerticalBlock(st.current, st.open);
            WellFormedHeading(c.heading) && forall i :: 0 <= i < |c.blocks| ==> WellFormedBlock(c.blocks[i])
  {
    var c := FinalizeVerticalBlock(st.current, st.open);
    forall i | 0 <= i < |c.blocks| ensures WellFormedBlock(c.blocks[i]) {
      if i < |st.current.blocks| {
        assert c.blocks[i] == c.blocks[..|st.current.blocks|][i];
      }
    }
  }

  /** Every line keeps the parser's state well-formed. */
  lemma {:induction false} StepWellFormed(st: ParseState, raw: string)
    requires WellFormedState(st)
    ensures WellFormedState(Step(st, raw))
  {
    FinalizeWellFormed(st);
    var closed := FinalizeVerticalBlock(st.current, st.open);
    match Classify(raw)
    case Blank =>
    case PageBreak =>
      var s := Finish(st);
      forall i | 0 <= i < |s| ensures WellFormedSlide(s[i]) {
        if i < |st.slides| { assert s[i] == st.slides[i]; }
      }
    case Heading(h) =>
    case HorizontalBoxes(items) =>
      if |items| > 0 {
        var blocks := closed.blocks + [Horizontal(items)];
        forall i | 0 <= i < |blocks| ensures WellFormedBlock(blocks[i]) {
          if i < |closed.blocks| { assert blocks[i] == closed.blocks[i]; }
        }
      }
    case VerticalBox =>
    case TextLine(line) =>
      match st.open
      case NoBlock =>
      case VerticalBlock(None) =>
      case VerticalBlock(Some(text)) =>
        JoinedTrimmed(text, line);
  }

  lemma {:induction false} RunWellFormed(lines: seq<string>)
    ensures WellFormedState(RunFrom(Start, lines))
  {
    if lines != [] {
      RunWellFormed(lines[..|lines| - 1]);
      StepWellFormed(RunFrom(Start, lines[..|lines| - 1]), lines[|lines| - 1]);
    }
  }

  /**
   * No emitted slide is empty, vertical blocks carry exactly one non-empty
   * text, horizontal blocks at least one non-empty comma-free item, and every
   * heading is non-empty and trimmed.
   */
  lemma ParseWellFormed(input: string)
    ensures forall i :: 0 <= i < |Parse(input)| ==> WellFormedSlide(Parse(input)[i])
  {
    if Trim(input) != [] {
      var st := RunFrom(Start, Split(input, '\n'));
      RunWellFormed(Split(input, '\n'));
      FinalizeWellFormed(st);
    }
  }

  // ---- Blank input ---------------------------------------------------------

  /** Blank lines leave the state untouched. */
  lemma {:induction false} RunBlank(st: ParseState, lines: seq<string>)
    requires forall i :: 0 <= i < |lines| ==> AllSpace(lines[i])
    ensures RunFrom(st, lines) == st
  {
    if lines != [] {
      RunBlank(st, lines[..|lines| - 1]);
    }
  }

  /** Whitespace-only input yields no slides, and the loop alone would give the same answer. */
  lemma BlankInput(input: string)
    requires AllSpace(input)
    ensures Parse(input) == []
    ensures ParseLines(Split(input, '\n')) == []
  {
    SplitAllSpace(input, '\n');
    RunBlank(Start, Split(input, '\n'));
  }

  // ---- Page breaks ---------------------------------------------------------

  /** Feeding two runs of lines one after the other is feeding their concatenation. */
  lemma {:induction false} RunAppend(st: ParseState, a: seq<string>, b: seq<string>)
    ensures RunFrom(st, a + b) == RunFrom(RunFrom(st, a), b)
  {
    if b == [] {
      assert a + b == a;
    } else {
      assert (a + b)[..|a + b| - 1] == a + b[..|b| - 1];
      RunAppend(st, a, b[..|b| - 1]);
    }
  }

  /** Finishing a slide only appends to the slides already emitted. */
  lemma FinishShift(prefix: seq<Slide>, q: ParseState)
    ensures Finish(ParseState(prefix + q.slides, q.current, q.open)) == prefix + Finish(q)
  {
    var last := FinalizeVerticalBlock(q.current, q.open);
    var extra := if HasContent(last) then [last] else [];
    assert (prefix + q.slides) + extra == prefix + (q.slides + extra);
  }

  /** One step does not look at the slides already emitted. */
  lemma StepShift(prefix: seq<Slide>, q: ParseState, line: string)
    ensures var r := Step(q, line);
            Step(ParseState(prefix + q.slides, q.current, q.open), line) == ParseState(prefix + r.slides, r.current, r.open)
  {
    if Classify(line).PageBreak? {
      FinishShift(prefix, q);
    }
  }

  lemma {:induction false} RunShift(prefix: seq<Slide>, current: Slide, open: OpenBlock, lines: seq<string>)
    ensures var r := RunFrom(ParseState([], current, open), lines);
            RunFrom(ParseState(prefix, current, open), lines) == ParseState(prefix + r.slides, r.current, r.open)
  {
    if lines == [] {
      assert prefix + [] == prefix;
    } else {
      var init := lines[..|lines| - 1];
      RunShift(prefix, current, open, init);
      StepShift(prefix, RunFrom(ParseState([], current, open), init), lines[|lines| - 1]);
    }
  }


  /**
   * A page-break line splits the input into two independent documents:
   * the slides before it, then the slides after it. Nothing leaks across it,
   * and a leading, trailing or doubled page break adds no slide.
   */
  lemma PageBreakSplits(before: seq<string>, pageBreak: string, after: seq<string>)
    requires Classify(pageBreak) == PageBreak
    ensures ParseLines(before + [pageBreak] + after) == ParseLines(before) + ParseLines(after)
  {
    var withBreak := before + [pageBreak];
    RunToBreak(before, pageBreak);
    RunAppend(Start, withBreak, after);
    RunShift(ParseLines(before), CreateEmptySlide(), NoBlock, after);
    FinishShift(ParseLines(before), RunFrom(Start, after));
  }

  /** After a page break the parser is back at its start, with the slides so far emitted. */
  lemma RunToBreak(before: seq<string>, pageBreak: string)
    requires Classify(pageBreak) == PageBreak
    ensures RunFrom(Start, before + [pageBreak]) == ParseState(ParseLines(before), CreateEmptySlide(), NoBlock)
  {
    var withBreak := before + [pageBreak];
    assert withBreak[..|before|] == before;
    StepPageBreak(RunFrom(Start, before), pageBreak);
  }

  lemma StepPageBreak(st: ParseState, raw: string)
    requires Classify(raw) == PageBreak
    ensures Step(st, raw) == ParseState(Finish(st), CreateEmptySlide(), NoBlock)
  {
  }

  /** The number of page-break lines among raw lines. */
  function PageBreakCount(lines: seq<string>): nat
  {
    if lines == [] then 0
    else PageBreakCount(lines[..|lines| - 1]) + (if Classify(lines[|lines| - 1]).PageBreak? then 1 else 0)
  }

  lemma {:induction false} RunSlideCount(lines: seq<string>)
    ensures |RunFrom(Start, lines).slides| <= PageBreakCount(lines)
  {
    if lines != [] {
      var init := lines[..|lines| - 1];
      RunSlideCount(init);
      StepSlideCount(RunFrom(Start, init), lines[|lines| - 1]);
    }
  }

  /** Only a page-break line adds a slide, and at most one. */
  lemma StepSlideCount(st: ParseState, raw: string)
    ensures |Step(st, raw).slides| <= |st.slides| + (if Classify(raw).PageBreak? then 1 else 0)
  {
    if Classify(raw).PageBreak? {
      StepPageBreak(st, raw);
    } else {
      StepKeepsContent(st, raw);
    }
  }

  /** There are at most one more slides than page-break lines. */
  lemma SlideCountBound(input: string)
    ensures |Parse(input)| <= 1 + PageBreakCount(Split(input, '\n'))
  {
    RunSlideCount(Split(input, '\n'));
  }

  // ---- Order -------------------------------------------------------------

  /** One line only appends: emitted slides stay as they are, and short of a page break so do the current slide's blocks. */
  lemma StepExtends(st: ParseState, raw: string)
    ensures st.slides <= Step(st, raw).slides
    ensures !Classify(raw).PageBreak? ==> st.current.blocks <= Step(st, raw).current.blocks
  {
    var k := Classify(raw);
    var closed := FinalizeVerticalBlock(st.current, st.open);
    assert st.current.blocks <= closed.blocks;
    if k.PageBreak? {
      StepPageBreak(st, raw);
    } else if k.Heading? {
      StepHeading(st, raw);
    } else if k.HorizontalBoxes? && k.items != [] {
      StepHorizontal(st, raw);
      PrefixSnoc(st.current.blocks, closed.blocks, Horizontal(k.items));
    } else if k.VerticalBox? {
      StepVerticalBox(st, raw);
    }
  }

  lemma PrefixSnoc<T>(a: seq<T>, b: seq<T>, x: T)
    requires a <= b
    ensures a <= b + [x]
  {
    assert (b + [x])[..|a|] == b[..|a|];
  }

  /** Slides come out in input order: the slides emitted so far are a prefix of every later list. */
  lemma {:induction false} RunExtends(st: ParseState, lines: seq<string>)
    ensures st.slides <= RunFrom(st, lines).slides
  {
    if lines != [] {
      var init := lines[..|lines| - 1];
      RunExtends(st, init);
      StepExtends(RunFrom(st, init), lines[|lines| - 1]);
    }
  }

  /** Blocks come out in input order: without a page break, a slide's blocks are a prefix of its later blocks. */
  lemma {:induction false} RunBlocksExtend(st: ParseState, lines: seq<string>)
    requires forall i :: 0 <= i < |lines| ==> !Classify(lines[i]).PageBreak?
    ensures st.current.blocks <= RunFrom(st, lines).current.blocks
  {
    if lines != [] {
      var init := lines[..|lines| - 1];
      RunBlocksExtend(st, init);
      StepExtends(RunFrom(st, init), lines[|lines| - 1]);
    }
  }

  // ---- Content is kept ----------------------------------------------------

  /**
   * Short of a page break, a line emits no slide and never empties the
   * current slide; a heading, or a horizontal line with items, gives it content.
   */
  lemma StepKeepsContent(st: ParseState, raw: string)
    requires !Classify(raw).PageBreak?
    ensures Step(st, raw).slides == st.slides
    ensures HasContent(st.current) ==> HasContent(Step(st, raw).current)
    ensures Classify(raw).Heading? || (Classify(raw).HorizontalBoxes? && Classify(raw).items != []) ==>
              HasContent(Step(st, raw).current)
  {
    var k := Classify(raw);
    StepExtends(st, raw);
    if k.Heading? {
      StepHeading(st, raw);
    } else if k.HorizontalBoxes? && k.items != [] {
      StepHorizontal(st, raw);
    } else if k.VerticalBox? {
      StepVerticalBox(st, raw);
    }
  }

  lemma {:induction false} RunKeepsContent(st: ParseState, lines: seq<string>)
    requires forall i :: 0 <= i < |lines| ==> !Classify(lines[i]).PageBreak?
    ensures RunFrom(st, lines).slides == st.slides
    ensures HasContent(st.current) ==> HasContent(RunFrom(st, lines).current)
  {
    if lines != [] {
      var init := lines[..|lines| - 1];
      RunKeepsContent(st, init);
      StepKeepsContent(RunFrom(st, init), lines[|lines| - 1]);
    }
  }

  /** One more line is one more step. */
  lemma RunSnoc(st: ParseState, lines: seq<string>, raw: string)
    ensures RunFrom(st, lines + [raw]) == Step(RunFrom(st, lines), raw)
  {
    assert (lines + [raw])[..|lines|] == lines;
  }

  /**
   * No content is lost: lines without a page break that hold a heading line,
   * or a horizontal line with items, make exactly one slide.
   */
  lemma ContentMakesSlide(before: seq<string>, line: string, after: seq<string>)
    requires forall i :: 0 <= i < |before| ==> !Classify(before[i]).PageBreak?
    requires forall i :: 0 <= i < |after| ==> !Classify(after[i]).PageBreak?
    requires Classify(line).Heading? || (Classify(line).HorizontalBoxes? && Classify(line).items != [])
    ensures |ParseLines(before + [line] + after)| == 1
  {
    var s0 := RunFrom(Start, before);
    var s1 := RunFrom(Start, before + [line]);
    RunSnoc(Start, before, line);
    RunKeepsContent(Start, before);
    StepKeepsContent(s0, line);
    RunKeepsContent(s1, after);
    RunAppend(Start, before + [line], after);
  }

  // ---- The items of a horizontal line ---------------------------------------

  /** Items keeps the order of the pieces: the items of two runs of pieces are those of each, in turn. */
  lemma {:induction false} ItemsAppend(a: seq<string>, b: seq<string>)
    ensures Items(a + b) == Items(a) + Items(b)
    decreases |a|
  {
    if a == [] {
      assert a + b == b;
    } else {
      var head := if Trim(a[0]) == [] then [] else [Trim(a[0])];
      ConsAppend(a, b);
      ItemsCons(a + b);
      ItemsCons(a);
      ItemsAppend(a[1..], b);
      assert Items(a + b) == head + (Items(a[1..]) + Items(b));
      Assoc(head, Items(a[1..]), Items(b));
    }
  }

  /** The first piece's item, if any, comes before the items of the other pieces. */
  lemma ItemsCons(pieces: seq<string>)
    requires pieces != []
    ensures Items(pieces) == (if Trim(pieces[0]) == [] then [] else [Trim(pieces[0])]) + Items(pieces[1..])
  {
    if Trim(pieces[0]) == [] {
      assert [] + Items(pieces[1..]) == Items(pieces[1..]);
    }
  }

  lemma ConsAppend<T>(a: seq<T>, b: seq<T>)
    requires a != []
    ensures a + b != [] && (a + b)[0] == a[0] && (a + b)[1..] == a[1..] + b
  {
  }

  lemma Assoc<T>(x: seq<T>, y: seq<T>, z: seq<T>)
    ensures x + (y + z) == (x + y) + z
  {
  }

  /**
   * Piece j contributes its trimmed text, in its place, or nothing when it
   * trims to nothing; so every piece that trims to something is an item.
   */
  lemma ItemsAt(pieces: seq<string>, j: nat)
    requires j < |pieces|
    ensures Items(pieces)
         == Items(pieces[..j]) + ((if Trim(pieces[j]) == [] then [] else [Trim(pieces[j])]) + Items(pieces[j + 1..]))
    ensures Trim(pieces[j]) != [] ==> Trim(pieces[j]) in Items(pieces)
  {
    var rest := pieces[j..];
    var item := if Trim(pieces[j]) == [] then [] else [Trim(pieces[j])];
    var before := Items(pieces[..j]);
    var after := Items(pieces[j + 1..]);
    Around(pieces, j);
    ItemsAppend(pieces[..j], rest);
    assert Items(rest) == item + after;
    assert Items(pieces) == before + (item + after);
    if item != [] {
      assert Items(pieces)[|before|] == Trim(pieces[j]);
    }
  }

  /** A sequence around index j: what comes before j, then j and what follows it. */
  lemma Around<T>(s: seq<T>, j: nat)
    requires j < |s|
    ensures s == s[..j] + s[j..] && s[j..][0] == s[j] && s[j..][1..] == s[j + 1..]
  {
  }

  /** Every item is one of the pieces, trimmed. */
  lemma {:induction false} ItemsFromPieces(pieces: seq<string>, item: string)
    requires item in Items(pieces)
    ensures exists j :: 0 <= j < |pieces| && item == Trim(pieces[j])
    decreases |pieces|
  {
    assert pieces != [];
    if item != Trim(pieces[0]) {
      var tail := pieces[1..];
      var head := if Trim(pieces[0]) == [] then [] else [Trim(pieces[0])];
      assert Items(pieces) == head + Items(tail);
      assert item in Items(tail);
      ItemsFromPieces(tail, item);
      var j :| 0 <= j < |tail| && item == Trim(tail[j]);
      assert tail[j] == pieces[j + 1];
    }
  }

  // ---- Headings and paragraphs --------------------------------------------

  /**
   * A syntax line commits the open paragraph first: the step acts as if the
   * paragraph had already been committed to the slide and none were open.
   */
  lemma SyntaxLineCommitsParagraph(st: ParseState, raw: string)
    requires !Classify(raw).Blank? && !Classify(raw).TextLine?
    ensures Step(st, raw) == Step(ParseState(st.slides, FinalizeVerticalBlock(st.current, st.open), NoBlock), raw)
  {
  }

  /** A later heading line replaces the earlier one outright. */
  lemma HeadingReplaces(st: ParseState, first: string, second: string)
    requires Classify(first).Heading? && Classify(second).Heading?
    ensures Step(Step(st, first), second) == Step(st, second)
    ensures Step(st, second).current.heading == Some(Classify(second).text)
  {
  }

  /** A text line with no open paragraph is dropped, in particular one right after a heading. */
  lemma StrayTextDropped(st: ParseState, heading: string, text: string)
    requires Classify(heading).Heading? && Classify(text).TextLine?
    ensures st.open == NoBlock ==> Step(st, text) == st
    ensures Step(Step(st, heading), text) == Step(st, heading)
  {
  }

  /** The trimmed text lines among raw lines, blank lines skipped. */
  function TextLines(lines: seq<string>): seq<string>
  {
    if lines == [] then []
    else
      var k := Classify(lines[|lines| - 1]);
      TextLines(lines[..|lines| - 1]) + (if k.TextLine? then [k.text] else [])
  }

  /** The paragraph accumulated from text lines: None before the first, then their join with single spaces. */
  function Paragraph(lines: seq<string>): Option<string>
  {
    var ws := TextLines(lines);
    if ws == [] then None else Some(Join(ws, ' '))
  }

  /** A text line extends an open paragraph: it becomes the text, or is appended after a single space. */
  lemma StepText(st: ParseState, raw: string)
    requires Classify(raw).TextLine? && st.open.VerticalBlock?
    ensures var t := Classify(raw).text;
            Step(st, raw) == st.(open := VerticalBlock(Some(
              if st.open.currentText.None? then t else st.open.currentText.value + " " + t)))
  {
  }

  lemma StepHeading(st: ParseState, raw: string)
    requires Classify(raw).Heading?
    ensures Step(st, raw)
         == ParseState(st.slides, FinalizeVerticalBlock(st.current, st.open).(heading := Some(Classify(raw).text)), NoBlock)
  {
  }

  lemma StepHorizontal(st: ParseState, raw: string)
    requires Classify(raw).HorizontalBoxes? && Classify(raw).items != []
    ensures var closed := FinalizeVerticalBlock(st.current, st.open);
            Step(st, raw) == ParseState(st.slides, closed.(blocks := closed.blocks + [Horizontal(Classify(raw).items)]), NoBlock)
  {
  }

  lemma StepVerticalBox(st: ParseState, raw: string)
    requires Classify(raw) == VerticalBox
    ensures Step(st, raw) == ParseState(st.slides, FinalizeVerticalBlock(st.current, st.open), VerticalBlock(None))
  {
  }

  /** Text and blank lines only ever touch the open paragraph's text. */
  lemma {:induction false} ParagraphAccumulates(s0: ParseState, body: seq<string>)
    requires s0.open == VerticalBlock(None)
    requires forall i :: 0 <= i < |body| ==> Classify(body[i]).Blank? || Classify(body[i]).TextLine?
    ensures RunFrom(s0, body) == s0.(open := VerticalBlock(Paragraph(body)))
  {
    if body != [] {
      var init := body[..|body| - 1];
      var last := body[|body| - 1];
      ParagraphAccumulates(s0, init);
      var prev := RunFrom(s0, init);
      assert RunFrom(s0, body) == Step(prev, last);
      var k := Classify(last);
      assert TextLines(body) == TextLines(init) + (if k.TextLine? then [k.text] else []);
      if k.TextLine? {
        StepText(prev, last);
        if TextLines(init) != [] {
          JoinSnoc(TextLines(init), k.text, ' ');
        } else {
          assert TextLines(body) == [k.text];
        }
      } else {
        assert Step(prev, last) == prev;
        assert TextLines(body) == TextLines(init) + [];
        assert TextLines(init) + [] == TextLines(init);
      }
    }
  }

  /**
   * After a `--` line, text lines accumulate into one paragraph joined by
   * single spaces; blank lines are skipped and do not end it. Whatever was
   * open before the `--` has been committed to the slide.
   */
  lemma ParagraphJoins(st: ParseState, opener: string, body: seq<string>)
    requires Classify(opener) == VerticalBox
    requires forall i :: 0 <= i < |body| ==> Classify(body[i]).Blank? || Classify(body[i]).TextLine?
    ensures RunFrom(Step(st, opener), body)
         == ParseState(st.slides, FinalizeVerticalBlock(st.current, st.open), VerticalBlock(Paragraph(body)))
  {
    StepVerticalBox(st, opener);
    ParagraphAccumulates(Step(st, opener), body);
  }

  /** The committed paragraph is one vertical block holding exactly the joined text. */
  lemma ParagraphCommitted(st: ParseState, opener: string, body: seq<string>)
    requires Classify(opener) == VerticalBox
    requires forall i :: 0 <= i < |body| ==> Classify(body[i]).Blank? || Classify(body[i]).TextLine?
    requires TextLines(body) != []
    ensures var s := RunFrom(Step(st, opener), body);
            FinalizeVerticalBlock(s.current, s.open).blocks
              == FinalizeVerticalBlock(st.current, st.open).blocks + [Vertical([Join(TextLines(body), ' ')])]
  {
    ParagraphJoins(st, opener, body);
    TextLinesNonEmpty(body);
    JoinNonEmpty(TextLines(body));
    var c := FinalizeVerticalBlock(st.current, st.open);
    var open := VerticalBlock(Paragraph(body));
    assert HasPendingText(open);
    var d := FinalizeVerticalBlock(c, open);
    assert d.blocks == d.blocks[..|c.blocks|] + [d.blocks[|c.blocks|]];
  }

  lemma {:induction false} TextLinesNonEmpty(lines: seq<string>)
    ensures forall i :: 0 <= i < |TextLines(lines)| ==> TextLines(lines)[i] != []
  {
    if lines != [] {
      TextLinesNonEmpty(lines[..|lines| - 1]);
    }
  }

  lemma {:induction false} JoinNonEmpty(ws: seq<string>)
    requires ws != [] && forall i :: 0 <= i < |ws| ==> ws[i] != []
    ensures Join(ws, ' ') != []
  {
    if |ws| > 1 {
      JoinNonEmpty(ws[1..]);
    }
  }
}
