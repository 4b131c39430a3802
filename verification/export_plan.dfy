/**
 * Rendering a Markdown travel plan as plain text lines on PDF pages
 * (scripts/export_plan.py). The PDF canvas is a recorder of the calls made on
 * it; the page height is a parameter (A4 in the script).
 */
module ExportPlan {
  import opened Wrappers
  import opened Text

  const Margin: int := 40
  const LineHeight: int := 12
  const WrapWidth: nat := 100

  /** One call made on the canvas. */
  datatype Event = Drawn(x: int, y: real, text: string) | PageShown | Saved

  /** The PDF canvas, as the sequence of calls made on it. */
  class Canvas {
    var events: seq<Event>

    constructor()
      ensures events == []
    {
      events := [];
    }

    method DrawString(x: int, y: real, text: string)
      modifies this
      ensures events == old(events) + [Drawn(x, y, text)]
    {
      events := events + [Drawn(x, y, text)];
    }

    method ShowPage()
      modifies this
      ensures events == old(events) + [PageShown]
    {
      events := events + [PageShown];
    }

    method Save()
      modifies this
      ensures events == old(events) + [Saved]
    {
      events := events + [Saved];
    }
  }

  // ---------------------------------------------------------------------------
  // Wrapping one line

  /** How many strings a line of length n is drawn as: one if it is short, else one per started 100 characters. */
  function NumChunks(n: nat): nat
  {
    if n <= WrapWidth then 1 else (n + WrapWidth - 1) / WrapWidth
  }

  /** For a line longer than `WrapWidth`, chunk k exists exactly when it starts inside the line. */
  lemma ChunkCount(n: nat, k: nat)
    requires n > WrapWidth
    ensures k < NumChunks(n) <==> WrapWidth * k < n
  {
  }

  function Min(a: int, b: int): int
  {
    if a <= b then a else b
  }

  /** The strings a line is drawn as: the whole line when it has at most 100 characters, else `line[i:i+100]` for i = 0, 100, …. */
  function Wrap(line: string): (r: seq<string>)
    ensures |r| == NumChunks(|line|)
  {
    if |line| <= WrapWidth then [line]
    else (seq(NumChunks(|line|), k requires 0 <= k < NumChunks(|line|) =>
            line[WrapWidth * k .. Min(WrapWidth * k + WrapWidth, |line|)]))
  }

  /** `"".join(parts)`, built from the right end. */
  function Concat(parts: seq<string>): string
  {
    if parts == [] then "" else Concat(parts[..|parts| - 1]) + parts[|parts| - 1]
  }

  lemma {:induction false} WrapPrefixConcat(line: string, k: nat)
    requires |line| > WrapWidth && k <= NumChunks(|line|)
    ensures Concat(Wrap(line)[..k]) == line[..Min(WrapWidth * k, |line|)]
  {
    if k > 0 {
      WrapPrefixConcat(line, k - 1);
      assert Wrap(line)[..k][..k - 1] == Wrap(line)[..k - 1];
    }
  }

  /** The wrapped pieces, put back together, are the line. */
  lemma WrapConcat(line: string)
    ensures Concat(Wrap(line)) == line
  {
    if |line| <= WrapWidth {
      assert Wrap(line)[..0] == [];
    } else {
      WrapPrefixConcat(line, NumChunks(|line|));
      assert Wrap(line)[..NumChunks(|line|)] == Wrap(line);
    }
  }

  /** A line of at most 100 characters, the empty line included, is one string; every piece of a longer line has 1 to 100 characters. */
  lemma WrapSizes(line: string)
    ensures |line| <= WrapWidth <==> Wrap(line) == [line]
    ensures |line| > WrapWidth ==> |Wrap(line)| >= 2
    ensures forall k :: 0 <= k < |Wrap(line)| ==> |Wrap(line)[k]| <= WrapWidth || |line| <= WrapWidth
    ensures |line| > WrapWidth ==> forall k :: 0 <= k < |Wrap(line)| ==> |Wrap(line)[k]| >= 1
  {
  }

  // ---------------------------------------------------------------------------
  // Layout

  /** The calls made so far and the current height `y`. */
  datatype Layout = Layout(events: seq<Event>, y: real)

  /** Drawing pieces one under the other from height y, each `LineHeight` lower. */
  function Draws(y: real, pieces: seq<string>): (r: seq<Event>)
    ensures |r| == |pieces|
  {
    seq(|pieces|, j requires 0 <= j < |pieces| => Drawn(Margin, y - (LineHeight * j) as real, pieces[j]))
  }

  /** Drawing one more piece adds one event, `LineHeight` below the previous one. */
  lemma DrawsSnoc(y: real, pieces: seq<string>, k: nat)
    requires k < |pieces|
    ensures Draws(y, pieces[..k + 1]) == Draws(y, pieces[..k]) + [Drawn(Margin, y - (LineHeight * k) as real, pieces[k])]
  {
    var a, b := Draws(y, pieces[..k + 1]), Draws(y, pieces[..k]) + [Drawn(Margin, y - (LineHeight * k) as real, pieces[k])];
    assert |a| == |b|;
    forall j | 0 <= j < |a| ensures a[j] == b[j] {
      if j < k {
        assert pieces[..k + 1][j] == pieces[..k][j];
      }
    }
  }

  /** One source line: a new page first if y is below the margin, then its pieces. */
  function LineStep(st: Layout, line: string, height: real): Layout
  {
    var start := if st.y < Margin as real then Layout(st.events + [PageShown], height - Margin as real) else st;
    var pieces := Wrap(line);
    Layout(start.events + Draws(start.y, pieces), start.y - (LineHeight * |pieces|) as real)
  }

  /** The lines of one paragraph, in order. */
  function LinesStep(st: Layout, lines: seq<string>, height: real): Layout
  {
    if lines == [] then st
    else LineStep(LinesStep(st, lines[..|lines| - 1], height), lines[|lines| - 1], height)
  }

  /** One paragraph: its lines, then one more line height of space. */
  function ParagraphStep(st: Layout, paragraph: string, height: real): Layout
  {
    var after := LinesStep(st, SplitLines(paragraph), height);
    Layout(after.events, after.y - LineHeight as real)
  }

  /** The paragraphs, in order. */
  function Paragraphs(st: Layout, paragraphs: seq<string>, height: real): Layout
  {
    if paragraphs == [] then st
    else ParagraphStep(Paragraphs(st, paragraphs[..|paragraphs| - 1], height), paragraphs[|paragraphs| - 1], height)
  }

  /** One more paragraph is one more `ParagraphStep`. */
  lemma ParagraphsSnoc(st: Layout, paragraphs: seq<string>, p: nat, height: real)
    requires p < |paragraphs|
    ensures Paragraphs(st, paragraphs[..p + 1], height) ==
      ParagraphStep(Paragraphs(st, paragraphs[..p], height), paragraphs[p], height)
  {
    assert paragraphs[..p + 1][..p] == paragraphs[..p];
  }

  /** Every call made on the canvas for a document, ending with the save. */
  function Render(text: string, height: real): seq<Event>
  {
    Paragraphs(Layout([], height - Margin as real), Split(text, "\n\n"), height).events + [Saved]
  }

  // ---------------------------------------------------------------------------
  // The renderer

  /** Draws one source line on the canvas, breaking the page first if needed, and returns the new y. */
  method DrawLine(c: Canvas, line: string, y: real, height: real) returns (y': real)
    modifies c
    ensures Layout(c.events, y') == LineStep(Layout(old(c.events), y), line, height)
  {
    y' := y;
    if y' < Margin as real {
      c.ShowPage();
      y' := height - Margin as real;
    }
    ghost var e0 := c.events;
    ghost var y0 := y';
    if |line| > WrapWidth {
      var i := 0;
      ghost var k := 0;
      ChunkCount(|line|, 0);
      while i < |line|
        invariant i == WrapWidth * k && 0 <= k <= NumChunks(|line|)
        invariant k < NumChunks(|line|) <==> i < |line|
        invariant c.events == e0 + Draws(y0, Wrap(line)[..k])
        invariant y' == y0 - (LineHeight * k) as real
      {
        ChunkCount(|line|, k + 1);
        assert Wrap(line)[k] == line[i..Min(i + WrapWidth, |line|)];
        DrawsSnoc(y0, Wrap(line), k);
        c.DrawString(Margin, y', line[i..Min(i + WrapWidth, |line|)]);
        y' := y' - LineHeight as real;
        i := i + WrapWidth;
        k := k + 1;
      }
      assert Wrap(line)[..k] == Wrap(line);
    } else {
      c.DrawString(Margin, y', line);
      y' := y' - LineHeight as real;
    }
  }

  /** The line loop of one paragraph. */
  method DrawLines(c: Canvas, lines: seq<string>, y: real, height: real) returns (y': real)
    modifies c
    ensures Layout(c.events, y') == LinesStep(Layout(old(c.events), y), lines, height)
  {
    ghost var start := Layout(c.events, y);
    y' := y;
    var j := 0;
    while j < |lines|
      invariant 0 <= j <= |lines|
      invariant Layout(c.events, y') == LinesStep(start, lines[..j], height)
    {
      assert lines[..j + 1][..j] == lines[..j];
      y' := DrawLine(c, lines[j], y', height);
      j := j + 1;
    }
    assert lines[..|lines|] == lines;
  }

  /** `md_to_pdf_simple`: every paragraph, every line, then the save. */
  method MdToPdfSimple(text: string, height: real) returns (c: Canvas)
    ensures fresh(c)
    ensures c.events == Render(text, height)
  {
    c := new Canvas();
    var y := height - Margin as real;
    var paragraphs := Split(text, "\n\n");
    ghost var start := Layout([], height - Margin as real);
    var p := 0;
    while p < |paragraphs|
      invariant 0 <= p <= |paragraphs|
      invariant Layout(c.events, y) == Paragraphs(start, paragraphs[..p], height)
    {
      ParagraphsSnoc(start, paragraphs, p, height);
      y := DrawLines(c, SplitLines(paragraphs[p]), y, height);
      y := y - LineHeight as real;
      p := p + 1;
    }
    assert paragraphs[..|paragraphs|] == paragraphs;
    c.Save();
  }

  /** How `main` ends: its exit code, and the canvas calls when a PDF was written. */
  datatype Exit = Exit(code: int, pdf: Option<seq<Event>>)

  /**
   * `main`: `argv` includes the script name; `files` maps existing paths to
   * their contents.
   */
  method RunExport(argv: seq<string>, files: map<string, string>, height: real) returns (r: Exit)
    ensures |argv| < 3 ==> r == Exit(1, None)
    ensures |argv| >= 3 && argv[1] !in files ==> r == Exit(2, None)
    ensures |argv| >= 3 && argv[1] in files ==> r == Exit(0, Some(Render(files[argv[1]], height)))
  {
    if |argv| < 3 {
      return Exit(1, None);
    }
    var mdPath := argv[1];
    if mdPath !in files {
      return Exit(2, None);
    }
    var c := MdToPdfSimple(files[mdPath], height);
    return Exit(0, Some(c.events));
  }

  // ---------------------------------------------------------------------------
  // Properties of the layout

  /** Every string is drawn at x = 40. */
  predicate AtMargin(events: seq<Event>)
  {
    forall i :: 0 <= i < |events| && events[i].Drawn? ==> events[i].x == Margin
  }

  lemma {:induction false} LinesAtMargin(st: Layout, lines: seq<string>, height: real)
    requires AtMargin(st.events)
    ensures AtMargin(LinesStep(st, lines, height).events)
  {
    if lines != [] {
      LinesAtMargin(st, lines[..|lines| - 1], height);
    }
  }

  lemma {:induction false} ParagraphsAtMargin(st: Layout, paragraphs: seq<string>, height: real)
    requires AtMargin(st.events)
    ensures AtMargin(Paragraphs(st, paragraphs, height).events)
  {
    if paragraphs != [] {
      var before := Paragraphs(st, paragraphs[..|paragraphs| - 1], height);
      ParagraphsAtMargin(st, paragraphs[..|paragraphs| - 1], height);
      LinesAtMargin(before, SplitLines(paragraphs[|paragraphs| - 1]), height);
    }
  }

  /** Whatever the document, every string is drawn at x = 40, and the last call is the save. */
  lemma RenderAtMargin(text: string, height: real)
    ensures AtMargin(Render(text, height))
    ensures Render(text, height)[|Render(text, height)| - 1] == Saved
  {
    ParagraphsAtMargin(Layout([], height - Margin as real), Split(text, "\n\n"), height);
  }

  /** The strings drawn, in order. */
  function Texts(events: seq<Event>): seq<string>
  {
    if events == [] then []
    else
      var last := events[|events| - 1];
      Texts(events[..|events| - 1]) + (if last.Drawn? then [last.text] else [])
  }

  lemma {:induction false} TextsAppend(a: seq<Event>, b: seq<Event>)
    ensures Texts(a + b) == Texts(a) + Texts(b)
    decreases |b|
  {
    if b == [] {
      assert a + b == a;
    } else {
      assert (a + b)[..|a + b| - 1] == a + b[..|b| - 1];
      TextsAppend(a, b[..|b| - 1]);
    }
  }

  lemma {:induction false} TextsOfDraws(y: real, pieces: seq<string>)
    ensures Texts(Draws(y, pieces)) == pieces
  {
    if pieces != [] {
      var init := pieces[..|pieces| - 1];
      assert Draws(y, pieces)[..|pieces| - 1] == Draws(y, init);
      TextsOfDraws(y, init);
    }
  }

  /** The pieces of the lines, in order. */
  function LinesPieces(lines: seq<string>): seq<string>
  {
    if lines == [] then [] else LinesPieces(lines[..|lines| - 1]) + Wrap(lines[|lines| - 1])
  }

  /** The pieces of every line of every paragraph, in order. */
  function DocumentPieces(paragraphs: seq<string>): seq<string>
  {
    if paragraphs == [] then []
    else DocumentPieces(paragraphs[..|paragraphs| - 1]) + LinesPieces(SplitLines(paragraphs[|paragraphs| - 1]))
  }

  lemma LineTexts(st: Layout, line: string, height: real)
    ensures Texts(LineStep(st, line, height).events) == Texts(st.events) + Wrap(line)
  {
    var start := if st.y < Margin as real then Layout(st.events + [PageShown], height - Margin as real) else st;
    assert Texts(start.events) == Texts(st.events) by {
      if st.y < Margin as real {
        assert (st.events + [PageShown])[..|st.events|] == st.events;
      }
    }
    TextsAppend(start.events, Draws(start.y, Wrap(line)));
    TextsOfDraws(start.y, Wrap(line));
  }

  lemma {:induction false} LinesTexts(st: Layout, lines: seq<string>, height: real)
    ensures Texts(LinesStep(st, lines, height).events) == Texts(st.events) + LinesPieces(lines)
  {
    if lines != [] {
      var before := LinesStep(st, lines[..|lines| - 1], height);
      LinesTexts(st, lines[..|lines| - 1], height);
      LineTexts(before, lines[|lines| - 1], height);
    }
  }

  lemma {:induction false} ParagraphsTexts(st: Layout, paragraphs: seq<string>, height: real)
    ensures Texts(Paragraphs(st, paragraphs, height).events) == Texts(st.events) + DocumentPieces(paragraphs)
  {
    if paragraphs != [] {
      var before := Paragraphs(st, paragraphs[..|paragraphs| - 1], height);
      ParagraphsTexts(st, paragraphs[..|paragraphs| - 1], height);
      LinesTexts(before, SplitLines(paragraphs[|paragraphs| - 1]), height);
    }
  }

  /** Nothing is lost or reordered: the drawn strings are the pieces of every line of every paragraph, in order. */
  lemma RenderTexts(text: string, height: real)
    ensures Texts(Render(text, height)) == DocumentPieces(Split(text, "\n\n"))
  {
    var st := Layout([], height - Margin as real);
    var paragraphs := Split(text, "\n\n");
    ParagraphsTexts(st, paragraphs, height);
    TextsAppend(Paragraphs(st, paragraphs, height).events, [Saved]);
    assert Texts([Saved]) == [] by {
      assert [Saved][..0] == [];
    }
    assert Texts(st.events) == [];
  }

  /**
   * A line drawn from y at or above the margin causes no page break and moves
   * y down by one line height per piece; from below the margin it starts a new
   * page at height - 40.
   */
  lemma LineStepHeights(st: Layout, line: string, height: real)
    ensures st.y >= Margin as real ==>
      LineStep(st, line, height) == Layout(st.events + Draws(st.y, Wrap(line)), st.y - (LineHeight * |Wrap(line)|) as real)
    ensures st.y < Margin as real ==>
      LineStep(st, line, height) == Layout(st.events + [PageShown] + Draws(height - Margin as real, Wrap(line)),
                                           height - Margin as real - (LineHeight * |Wrap(line)|) as real)
  {
  }

  /** The first piece of every line is drawn at or above the margin, on a page at least 80 high. */
  lemma FirstPieceAboveMargin(st: Layout, line: string, height: real)
    requires height >= 2.0 * Margin as real
    ensures var after := LineStep(st, line, height);
      var first := after.events[|after.events| - |Wrap(line)|];
      first.Drawn? && first.y >= Margin as real
  {
  }

  /** An empty paragraph still adds one line height of space, and draws nothing. */
  lemma EmptyParagraphSpace(st: Layout, height: real)
    ensures ParagraphStep(st, "", height) == Layout(st.events, st.y - LineHeight as real)
  {
  }

  /**
   * The page break is only considered before a line: a 201-character line
   * started at y = 40 draws its pieces at 40, 28 and 16, below the margin.
   */
  lemma WrappedLineBelowMargin(st: Layout, line: string, height: real)
    requires st.y == Margin as real && |line| == 201
    ensures LineStep(st, line, height).events ==
      st.events + [Drawn(40, 40.0, line[..100]), Drawn(40, 28.0, line[100..200]), Drawn(40, 16.0, line[200..])]
  {
    assert NumChunks(201) == 3;
    var pieces := [line[..100], line[100..200], line[200..]];
    assert Wrap(line)[0] == line[0..Min(100, 201)] == pieces[0];
    assert Wrap(line)[1] == line[100..Min(200, 201)] == pieces[1];
    assert Wrap(line)[2] == line[200..Min(300, 201)] == pieces[2];
    assert Wrap(line) == pieces;
    assert Draws(40.0, pieces) == [Drawn(40, 40.0, line[..100]), Drawn(40, 28.0, line[100..200]), Drawn(40, 16.0, line[200..])];
  }
}
