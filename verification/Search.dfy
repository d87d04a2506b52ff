/**
 Searching the screen. The lines are flattened into one text with a list of source spans; a match in
 the text is mapped back to segments of the screen with one pointer that never moves back.
 */
module Search {
  import opened Wrappers

  /** A stretch of the text and the columns of a row that it came from. */
  datatype Span = Span(textStart: nat, textEnd: nat, row: nat, startCol: nat, endCol: nat, linearColumns: bool)

  datatype Segment = Segment(row: nat, startCol: nat, endCol: nat)

  /** A match in the text: from start to end. */
  datatype Hit = Hit(start: nat, end: nat)

  function Max(a: int, b: int): int { if a < b then b else a }

  function Min(a: int, b: int): int { if a < b then a else b }

  predicate Overlaps(span: Span, hit: Hit) { hit.start < span.textEnd && span.textStart < hit.end }

  /** The columns of a span that a hit covers; a span without linear columns is taken whole. */
  function Covered(span: Span, hit: Hit): (s: Segment)
    requires span.textStart < span.textEnd && Overlaps(span, hit)
    ensures s.row == span.row && s.startCol >= span.startCol
  {
    if span.linearColumns then
      Segment(span.row, span.startCol + Max(hit.start, span.textStart) - span.textStart,
              span.startCol + Min(hit.end, span.textEnd) - span.textStart)
    else Segment(span.row, span.startCol, span.endCol)
  }

  /** Adding a segment, which may extend the one before it. */
  function Add(segments: seq<Segment>, s: Segment): seq<Segment> {
    if segments != [] && segments[|segments| - 1].row == s.row && s.startCol <= segments[|segments| - 1].endCol then
      var last := segments[|segments| - 1];
      segments[|segments| - 1 := last.(endCol := Max(last.endCol, s.endCol))]
    else segments + [s]
  }

  predicate SpansSorted(spans: seq<Span>) {
    && (forall i :: 0 <= i < |spans| ==> spans[i].textStart < spans[i].textEnd)
    && (forall i, j :: 0 <= i < j < |spans| ==> spans[i].textEnd <= spans[j].textStart)
  }

  predicate HitsSorted(hits: seq<Hit>) {
    && (forall i :: 0 <= i < |hits| ==> hits[i].start < hits[i].end)
    && (forall i, j :: 0 <= i < j < |hits| ==> hits[i].end <= hits[j].start)
  }

  /** The segments of a hit, from all spans: the naive form. */
  function SegmentsOf(spans: seq<Span>, hit: Hit, count: nat): seq<Segment>
    requires count <= |spans| && SpansSorted(spans)
  {
    if count == 0 then []
    else
      var before := SegmentsOf(spans, hit, count - 1);
      if Overlaps(spans[count - 1], hit) then Add(before, Covered(spans[count - 1], hit)) else before
  }

  /** The matches of all hits: the naive form. */
  function MatchesOf(spans: seq<Span>, hits: seq<Hit>): seq<seq<Segment>>
    requires SpansSorted(spans)
  {
    if hits == [] then []
    else
      var segments := SegmentsOf(spans, hits[|hits| - 1], |spans|);
      MatchesOf(spans, hits[..|hits| - 1]) + if segments != [] then [segments] else []
  }

  lemma {:induction false} NothingOverlaps(spans: seq<Span>, hit: Hit, from: nat, to: nat)
    requires from <= to <= |spans| && SpansSorted(spans)
    requires forall i :: from <= i < to ==> !Overlaps(spans[i], hit)
    ensures SegmentsOf(spans, hit, to) == SegmentsOf(spans, hit, from)
  {
    if from < to { NothingOverlaps(spans, hit, from, to - 1); }
  }

  /** The scan of findSearchCorpusMatches finds for every hit exactly what looking at all spans would find. */
  method FindMatches(spans: seq<Span>, hits: seq<Hit>) returns (matches: seq<seq<Segment>>)
    requires SpansSorted(spans) && HitsSorted(hits)
    ensures matches == MatchesOf(spans, hits)
  {
    matches := [];
    var spanIndex := 0;
    for k := 0 to |hits|
      invariant 0 <= spanIndex <= |spans| && matches == MatchesOf(spans, hits[..k])
      invariant forall i :: 0 <= i < spanIndex && k < |hits| ==> spans[i].textEnd <= hits[k].start
    {
      var hit := hits[k];
      while spanIndex < |spans| && spans[spanIndex].textEnd <= hit.start
        invariant 0 <= spanIndex <= |spans|
        invariant forall i :: 0 <= i < spanIndex ==> spans[i].textEnd <= hit.start
      {
        spanIndex := spanIndex + 1;
      }
      var segments := ScanFrom(spans, hit, spanIndex);
      while spanIndex < |spans| && spans[spanIndex].textEnd <= hit.end
        invariant 0 <= spanIndex <= |spans|
        invariant forall i :: 0 <= i < spanIndex ==> spans[i].textEnd <= hit.end
      {
        spanIndex := spanIndex + 1;
      }
      if segments != [] { matches := matches + [segments]; }
      assert hits[..k + 1][..k] == hits[..k];
    }
    assert hits[..|hits|] == hits;
  }

  method ScanFrom(spans: seq<Span>, hit: Hit, spanIndex: nat) returns (segments: seq<Segment>)
    requires spanIndex <= |spans| && SpansSorted(spans) && hit.start < hit.end
    requires forall i :: 0 <= i < spanIndex ==> spans[i].textEnd <= hit.start
    ensures segments == SegmentsOf(spans, hit, |spans|)
  {
    segments := [];
    NothingOverlaps(spans, hit, 0, spanIndex);
    var index := spanIndex;
    while index < |spans|
      invariant spanIndex <= index <= |spans| && segments == SegmentsOf(spans, hit, index)
    {
      var span := spans[index];
      if span.textStart >= hit.end {
        NothingOverlaps(spans, hit, index, |spans|);
        break;
      }
      if span.textEnd > hit.start {
        var next := Covered(span, hit);
        if segments != [] && segments[|segments| - 1].row == span.row
            && next.startCol <= segments[|segments| - 1].endCol {
          var last := segments[|segments| - 1];
          segments := segments[|segments| - 1 := last.(endCol := Max(last.endCol, next.endCol))];
        } else {
          segments := segments + [next];
        }
      }
      index := index + 1;
    }
  }

  // ---------------------------------------------------------------------------
  // Where segments lie
  // ---------------------------------------------------------------------------

  /** One span lies before another on the screen. */
  predicate Before(a: Span, b: Span) { a.row < b.row || (a.row == b.row && a.endCol <= b.startCol) }

  ghost predicate SpansPlaced(spans: seq<Span>) {
    && (forall i :: 0 <= i < |spans| ==>
          spans[i].startCol <= spans[i].endCol
          && (spans[i].linearColumns ==> spans[i].endCol - spans[i].startCol == spans[i].textEnd - spans[i].textStart))
    && (forall i, j :: 0 <= i < j < |spans| ==> Before(spans[i], spans[j]))
  }

  /** Segments follow one another on the screen and are strictly separated within a row. */
  ghost predicate Separated(segments: seq<Segment>) {
    && (forall i :: 0 <= i < |segments| ==> segments[i].startCol <= segments[i].endCol)
    && (forall i, j :: 0 <= i < j < |segments| ==> Apart(segments[i], segments[j]))
  }

  predicate Apart(a: Segment, b: Segment) { a.row < b.row || (a.row == b.row && a.endCol < b.startCol) }

  lemma CoveredInside(span: Span, hit: Hit)
    requires span.textStart < span.textEnd && Overlaps(span, hit) && span.startCol <= span.endCol && hit.start < hit.end
    requires span.linearColumns ==> span.endCol - span.startCol == span.textEnd - span.textStart
    ensures var s := Covered(span, hit); span.startCol <= s.startCol <= s.endCol <= span.endCol
  {
  }

  /** Every hit yields segments in screen order, strictly separated within each row. */
  lemma {:induction false} SegmentsAreSeparated(spans: seq<Span>, hit: Hit, count: nat)
    requires SpansSorted(spans) && SpansPlaced(spans) && count <= |spans| && hit.start < hit.end
    ensures var segments := SegmentsOf(spans, hit, count);
            && Separated(segments)
            && (segments != [] ==>
                  count > 0 && var last, span := segments[|segments| - 1], spans[count - 1];
                  last.row < span.row || (last.row == span.row && last.endCol <= span.endCol))
  {
    if count > 0 {
      var before, span := SegmentsOf(spans, hit, count - 1), spans[count - 1];
      SegmentsAreSeparated(spans, hit, count - 1);
      if count > 1 { assert Before(spans[count - 2], span); }
      if Overlaps(span, hit) {
        CoveredInside(span, hit);
        AddSeparates(before, Covered(span, hit));
        hide Covered;
      }
    }
  }

  lemma AddSeparates(segments: seq<Segment>, s: Segment)
    requires Separated(segments) && s.startCol <= s.endCol
    requires segments != [] ==> segments[|segments| - 1].row <= s.row
                                && (segments[|segments| - 1].row == s.row ==>
                                   segments[|segments| - 1].endCol <= s.endCol)
    ensures Separated(Add(segments, s)) && Add(segments, s) != []
    ensures var last := Add(segments, s)[|Add(segments, s)| - 1]; last.row == s.row && last.endCol == s.endCol
  {
  }

  // ---------------------------------------------------------------------------
  // What is lit on the screen
  // ---------------------------------------------------------------------------

  /** A column that shows a position of the text: its own one in a span with linear columns, else any of the span. */
  predicate ShowsAt(span: Span, position: nat, col: nat) {
    && span.textStart <= position < span.textEnd
    && if span.linearColumns then col == span.startCol + (position - span.textStart)
       else span.startCol <= col < span.endCol
  }

  predicate Contains(s: Segment, row: nat, col: nat) { s.row == row && s.startCol <= col < s.endCol }

  predicate Lit(segments: seq<Segment>, row: nat, col: nat) {
    exists k :: 0 <= k < |segments| && Contains(segments[k], row, col)
  }

  /** The column shows some part of the hit. */
  predicate InHit(span: Span, hit: Hit, row: nat, col: nat) {
    span.row == row && exists p: nat :: hit.start <= p < hit.end && ShowsAt(span, p, col)
  }

  lemma CoveredLights(span: Span, hit: Hit, row: nat, col: nat)
    requires span.textStart < span.textEnd && hit.start < hit.end
    ensures InHit(span, hit, row, col) <==> Overlaps(span, hit) && Contains(Covered(span, hit), row, col)
  {
    if Overlaps(span, hit) && Contains(Covered(span, hit), row, col) {
      var p := if span.linearColumns then col - span.startCol + span.textStart else Max(hit.start, span.textStart);
      assert ShowsAt(span, p, col);
    }
  }

  lemma AddLights(segments: seq<Segment>, s: Segment, row: nat, col: nat)
    requires segments != [] && segments[|segments| - 1].row == s.row ==>
             segments[|segments| - 1].startCol <= segments[|segments| - 1].endCol <= s.startCol <= s.endCol
    ensures Lit(Add(segments, s), row, col) <==> Lit(segments, row, col) || Contains(s, row, col)
  {
    var added, n := Add(segments, s), |segments|;
    if k :| 0 <= k < n && Contains(segments[k], row, col) { assert Contains(added[k], row, col); }
    if Contains(s, row, col) { assert Contains(added[|added| - 1], row, col); }
    if k :| 0 <= k < |added| && Contains(added[k], row, col) {
      if k < n && !Contains(segments[k], row, col) { assert Contains(s, row, col); }
    }
  }

  /** The segments of a hit light exactly the columns that show some part of it. */
  lemma {:induction false} SegmentsLight(spans: seq<Span>, hit: Hit, count: nat, row: nat, col: nat)
    requires SpansSorted(spans) && SpansPlaced(spans) && count <= |spans| && hit.start < hit.end
    ensures Lit(SegmentsOf(spans, hit, count), row, col) <==>
            exists i :: 0 <= i < count && InHit(spans[i], hit, row, col)
  {
    if count > 0 {
      var before, span := SegmentsOf(spans, hit, count - 1), spans[count - 1];
      SegmentsLight(spans, hit, count - 1, row, col);
      CoveredLights(span, hit, row, col);
      SegmentsAreSeparated(spans, hit, count - 1);
      if count > 1 { assert Before(spans[count - 2], span); }
      if Overlaps(span, hit) {
        CoveredInside(span, hit);
        AddLights(before, Covered(span, hit), row, col);
      }
      hide Covered, Lit, InHit, Add;
    }
  }

  lemma {:induction false} SomeSegment(spans: seq<Span>, hit: Hit, count: nat)
    requires SpansSorted(spans) && count <= |spans|
    ensures SegmentsOf(spans, hit, count) != [] <==> exists i :: 0 <= i < count && Overlaps(spans[i], hit)
  {
    if count > 0 { SomeSegment(spans, hit, count - 1); }
  }

  predicate OverlapsSome(spans: seq<Span>, hit: Hit) { exists i :: 0 <= i < |spans| && Overlaps(spans[i], hit) }

  /** If every hit overlaps a span, there is one match for each of them, in order. */
  lemma {:induction false} MatchesAreAll(spans: seq<Span>, hits: seq<Hit>)
    requires SpansSorted(spans)
    requires forall k :: 0 <= k < |hits| ==> OverlapsSome(spans, hits[k])
    ensures |MatchesOf(spans, hits)| == |hits|
    ensures forall k :: 0 <= k < |hits| ==> MatchesOf(spans, hits)[k] == SegmentsOf(spans, hits[k], |spans|)
  {
    if hits != [] {
      var front, last := hits[..|hits| - 1], |hits| - 1;
      assert OverlapsSome(spans, hits[last]);
      SomeSegment(spans, hits[last], |spans|);
      hide OverlapsSome, SegmentsOf;
      forall k | 0 <= k < |front| ensures OverlapsSome(spans, front[k]) { assert front[k] == hits[k]; }
      MatchesAreAll(spans, front);
      var before, segments := MatchesOf(spans, front), SegmentsOf(spans, hits[last], |spans|);
      assert MatchesOf(spans, hits) == before + [segments];
      hide MatchesOf;
      forall k | 0 <= k < |hits| ensures (before + [segments])[k] == SegmentsOf(spans, hits[k], |spans|) {
        if k < last { assert hits[k] == front[k]; }
      }
    }
  }

  // ---------------------------------------------------------------------------
  // The corpus
  // ---------------------------------------------------------------------------

  /** A grapheme, its display width and whether it is white space. */
  datatype Cell = Cell(text: string, width: nat, space: bool)

  /** A line of the screen without its control sequences: printable ASCII, or graphemes. */
  datatype Line = Ascii(text: string) | Graphemes(cells: seq<Cell>)

  datatype Corpus = Corpus(text: string, spans: seq<Span>)

  /** What a span stands for: a word of an ASCII line by its columns, or one grapheme. */
  ghost predicate FromSource(lines: seq<Line>, text: string, span: Span) {
    && span.row < |lines| && span.textStart < span.textEnd <= |text| && span.startCol <= span.endCol
    && match lines[span.row]
       case Ascii(line) =>
         span.linearColumns && span.endCol <= |line|
             && line[span.startCol..span.endCol] == text[span.textStart..span.textEnd]
         && ' ' !in text[span.textStart..span.textEnd]
       case Graphemes(cells) =>
         !span.linearColumns && exists k :: 0 <= k < |cells| && cells[k].text == text[span.textStart..span.textEnd]
                                            && Columns(cells[..k]) == span.startCol
                                            && cells[k].width == span.endCol - span.startCol && !cells[k].space
  }

  /** The columns that some graphemes take. */
  function Columns(cells: seq<Cell>): nat {
    if cells == [] then 0 else Columns(cells[..|cells| - 1]) + cells[|cells| - 1].width
  }

  /** What the text of the screen is made of: characters to be found, and gaps between words. */
  datatype Mark = Gap | Ink(c: char)

  function Inked(text: string): seq<Mark> {
    seq(|text|, i requires 0 <= i < |text| => Ink(text[i]))
  }

  function AsciiMarks(text: string): seq<Mark> {
    seq(|text|, i requires 0 <= i < |text| => if text[i] == ' ' then Gap else Ink(text[i]))
  }

  function GraphemeMarks(cells: seq<Cell>): seq<Mark> {
    if cells == [] then []
    else
      var last := cells[|cells| - 1];
      GraphemeMarks(cells[..|cells| - 1]) + if last.space then [Gap] else Inked(last.text)
  }

  /** The marks of a screen; every row ends in a gap. */
  function Marks(lines: seq<Line>): seq<Mark> {
    if lines == [] then []
    else
      Marks(lines[..|lines| - 1])
      + (match lines[|lines| - 1] case Ascii(text) => AsciiMarks(text) case Graphemes(cells) => GraphemeMarks(cells))
      + [Gap]
  }

  predicate AtGap(marks: seq<Mark>) { marks == [] || marks[|marks| - 1].Gap? }

  /** The words: the longest stretches without a gap, in order. */
  function Words(marks: seq<Mark>): (words: seq<string>)
    ensures !AtGap(marks) ==> words != []
    ensures forall i :: 0 <= i < |words| ==> words[i] != ""
  {
    if marks == [] then []
    else
      var front, last := marks[..|marks| - 1], marks[|marks| - 1];
      var words := Words(front);
      if last.Gap? then words
      else if AtGap(front) then words + [[last.c]]
      else words[|words| - 1 := words[|words| - 1] + [last.c]]
  }

  /** Words with one space between any two. */
  function Joined(words: seq<string>): string {
    if words == [] then ""
    else if |words| == 1 then words[0]
    else Joined(words[..|words| - 1]) + " " + words[|words| - 1]
  }

  function Text(marks: seq<Mark>): string { Joined(Words(marks)) }

  /** All characters to be found, in order. */
  function Characters(marks: seq<Mark>): string {
    if marks == [] then ""
    else Characters(marks[..|marks| - 1]) + if marks[|marks| - 1].Gap? then "" else [marks[|marks| - 1].c]
  }

  function Concatenated(words: seq<string>): string {
    if words == [] then "" else Concatenated(words[..|words| - 1]) + words[|words| - 1]
  }

  /** The words hold every character of the screen that is not white space, in order and nothing else. */
  lemma {:induction false} WordsHoldAll(marks: seq<Mark>)
    ensures Concatenated(Words(marks)) == Characters(marks)
  {
    if marks != [] {
      var front, last := marks[..|marks| - 1], marks[|marks| - 1];
      WordsHoldAll(front);
      var words := Words(front);
      if last.Ink? {
        assert (words + [[last.c]])[..|words|] == words;
        if !AtGap(front) {
          var word := words[|words| - 1];
          assert words[|words| - 1 := word + [last.c]][..|words| - 1] == words[..|words| - 1];
          assert Concatenated(words[..|words| - 1]) + (word + [last.c]) == Concatenated(words) + [last.c];
        }
      }
    }
  }

  /** The marks of a row. */
  function RowMarks(line: Line): seq<Mark> {
    match line case Ascii(text) => AsciiMarks(text) case Graphemes(cells) => GraphemeMarks(cells)
  }

  /** After a gap words begin anew. */
  lemma {:induction false} WordsApart(before: seq<Mark>, after: seq<Mark>)
    requires AtGap(before)
    ensures Words(before + after) == Words(before) + Words(after)
    ensures after != [] ==> AtGap(before + after) == AtGap(after)
  {
    if after == [] {
      assert before + after == before;
    } else {
      var front, last := after[..|after| - 1], after[|after| - 1];
      assert (before + after)[..|before + after| - 1] == before + front;
      assert (before + after)[|before + after| - 1] == last;
      WordsApart(before, front);
      if last.Ink? && !AtGap(front) {
        var a, b := Words(before), Words(front);
        assert (a + b)[|a + b| - 1] == b[|b| - 1];
        assert (a + b)[|a + b| - 1 := b[|b| - 1] + [last.c]] == a + b[|b| - 1 := b[|b| - 1] + [last.c]];
      }
    }
  }

  /** No word reaches from one row into the next: those of a screen are those of its rows, in order. */
  lemma WordsOfRows(lines: seq<Line>, line: Line)
    ensures Words(Marks(lines + [line])) == Words(Marks(lines)) + Words(RowMarks(line))
  {
    assert (lines + [line])[..|lines|] == lines;
    assert AtGap(Marks(lines));
    var row := RowMarks(line);
    assert Marks(lines + [line]) == Marks(lines) + (row + [Gap]);
    WordsApart(Marks(lines), row + [Gap]);
    assert (row + [Gap])[..|row|] == row;
  }

  /** The characters to be found in a row: all but the spaces of ASCII text, all graphemes but white space. */
  lemma {:induction false} AsciiCharacters(text: string)
    ensures Characters(AsciiMarks(text)) == NoSpaces(text)
    decreases |text|
  {
    if text != "" {
      var front, c := text[..|text| - 1], text[|text| - 1];
      AsciiCharacters(front);
      assert AsciiMarks(text)[..|text| - 1] == AsciiMarks(front);
      assert text == front + [c] && [c][1..] == "";
      NoSpacesOfSum(front, [c]);
      assert NoSpaces([c]) == (if c == ' ' then "" else [c]) + NoSpaces("");
    }
  }

  function Shown(cells: seq<Cell>): string {
    if cells == [] then ""
    else Shown(cells[..|cells| - 1]) + if cells[|cells| - 1].space then "" else cells[|cells| - 1].text
  }

  lemma {:induction false} GraphemeCharacters(cells: seq<Cell>)
    ensures Characters(GraphemeMarks(cells)) == Shown(cells)
  {
    if cells != [] {
      var front, last := cells[..|cells| - 1], cells[|cells| - 1];
      GraphemeCharacters(front);
      var marks := GraphemeMarks(front);
      if last.space {
        assert (marks + [Gap])[..|marks|] == marks;
      } else {
        InkCharacters(marks, last.text);
      }
    }
  }

  lemma {:induction false} InkCharacters(marks: seq<Mark>, text: string)
    ensures Characters(marks + Inked(text)) == Characters(marks) + text
    decreases |text|
  {
    if text == "" {
      assert marks + Inked(text) == marks;
    } else {
      var front, c := text[..|text| - 1], text[|text| - 1];
      InkCharacters(marks, front);
      assert marks + Inked(text) == (marks + Inked(front)) + [Ink(c)];
      assert ((marks + Inked(front)) + [Ink(c)])[..|marks + Inked(front)|] == marks + Inked(front);
      assert text == front + [c];
    }
  }

  /** The text of the screen read as a row of its own: nothing but its words, with one space between any two. */
  lemma {:induction false} JoinedSplits(words: seq<string>)
    requires forall i :: 0 <= i < |words| ==> words[i] != "" && ' ' !in words[i]
    ensures Words(AsciiMarks(Joined(words))) == words && (words != [] ==> !AtGap(AsciiMarks(Joined(words))))
  {
    if words != [] {
      var front, last := words[..|words| - 1], words[|words| - 1];
      JoinedSplits(front);
      var marks := AsciiMarks(Joined(front));
      WordMarksOf(last);
      assert words == front + [last];
      if front == [] {
        assert Joined(words) == last && [] + Inked(last) == Inked(last);
        hide AsciiMarks, Inked;
        InkWords([], last);
      } else {
        assert Joined(words) == Joined(front) + " " + last;
        hide Joined;
        NextWordMarks(Joined(front), last);
        hide AsciiMarks, Inked;
        assert (marks + [Gap])[..|marks|] == marks;
        InkWords(marks + [Gap], last);
      }
    }
  }

  lemma WordMarksOf(word: string)
    requires ' ' !in word
    ensures AsciiMarks(word) == Inked(word)
  {
  }

  lemma NextWordMarks(text: string, word: string)
    requires ' ' !in word
    ensures AsciiMarks(text + " " + word) == (AsciiMarks(text) + [Gap]) + Inked(word)
  {
    assert forall i :: 0 <= i < |word| ==> (text + " " + word)[|text| + 1 + i] == word[i];
  }

  lemma GapAdds(marks: seq<Mark>)
    ensures Text(marks + [Gap]) == Text(marks) && AtGap(marks + [Gap])
  {
    assert (marks + [Gap])[..|marks|] == marks;
  }

  /** A piece of text goes on with the last word, or begins another one. */
  lemma {:induction false} InkWords(marks: seq<Mark>, piece: string)
    requires piece != ""
    ensures var words := Words(marks);
            && !AtGap(marks + Inked(piece))
            && Words(marks + Inked(piece)) ==
                 if AtGap(marks) then words + [piece] else words[|words| - 1 := words[|words| - 1] + piece]
    decreases piece
  {
    var front, c := piece[..|piece| - 1], piece[|piece| - 1];
    assert piece == front + [c];
    assert marks + Inked(piece) == (marks + Inked(front)) + [Ink(c)];
    assert ((marks + Inked(front)) + [Ink(c)])[..|marks + Inked(front)|] == marks + Inked(front);
    if front == [] {
      assert marks + Inked(front) == marks && piece == [c];
    } else {
      InkWords(marks, front);
      var words := Words(marks);
      if AtGap(marks) {
        assert (words + [front])[|words| := piece] == words + [piece];
      } else {
        assert (words[|words| - 1] + front) + [c] == words[|words| - 1] + piece;
      }
      hide AtGap;
    }
  }

  lemma JoinAdds(words: seq<string>, piece: string)
    requires piece != "" && forall i :: 0 <= i < |words| ==> words[i] != ""
    ensures Joined(words) == "" <==> words == []
    ensures Joined(words + [piece]) == Joined(words) + (if words == [] then "" else " ") + piece
    ensures words != [] ==> Joined(words[|words| - 1 := words[|words| - 1] + piece]) == Joined(words) + piece
  {
    assert (words + [piece])[..|words|] == words;
    if words != [] {
      var last := words[|words| - 1];
      var words' := words[|words| - 1 := last + piece];
      assert words'[..|words| - 1] == words[..|words| - 1];
      var front := if |words| == 1 then "" else Joined(words[..|words| - 1]) + " ";
      assert Joined(words) == front + last && Joined(words') == front + (last + piece);
      assert front + (last + piece) == (front + last) + piece;
    }
  }

  lemma InkAdds(marks: seq<Mark>, piece: string)
    requires piece != ""
    ensures !AtGap(marks + Inked(piece)) && Text(marks + Inked(piece)) != ""
    ensures Text(marks + Inked(piece)) == Text(marks) + (if AtGap(marks) && Text(marks) != "" then " " else "") + piece
  {
    InkWords(marks, piece);
    JoinAdds(Words(marks), piece);
    hide Words;
  }

  /** The text so far is that of the marks so far, and a separator is pending exactly at a gap after some text. */
  ghost predicate Laid(c: Corpus, pending: bool, marks: seq<Mark>) {
    c.text == Text(marks) && (pending <==> AtGap(marks) && c.text != "")
  }

  lemma LayPiece(c: Corpus, pending: bool, marks: seq<Mark>, piece: string, row: nat, startCol: nat, endCol: nat,
                 linear: bool)
    requires Laid(c, pending, marks) && piece != ""
    ensures Laid(AddPiece(c, pending, piece, row, startCol, endCol, linear), false, marks + Inked(piece))
  {
    InkAdds(marks, piece);
    hide Text, Inked, AtGap;
  }

  lemma LayGap(c: Corpus, pending: bool, marks: seq<Mark>)
    requires Laid(c, pending, marks)
    ensures Laid(c, pending || |c.text| > 0, marks + [Gap])
  {
    GapAdds(marks);
    hide Text;
  }

  /** A span follows another directly or after one separating space, and lies after it on the screen. */
  ghost predicate Follows(text: string, a: Span, b: Span) {
    && (b.textStart == a.textEnd || (b.textStart == a.textEnd + 1 && a.textEnd < |text| && text[a.textEnd] == ' '))
    && Before(a, b) && (a.row == b.row && b.linearColumns ==> a.endCol < b.startCol)
  }

  ghost predicate Faithful(lines: seq<Line>, c: Corpus) {
    && (forall i :: 0 <= i < |c.spans| ==> FromSource(lines, c.text, c.spans[i]))
    && (forall i :: 0 < i < |c.spans| ==> Follows(c.text, c.spans[i - 1], c.spans[i]))
    && (if c.spans == [] then c.text == "" else c.spans[0].textStart == 0 && c.spans[|c.spans| - 1].textEnd == |c.text|)
  }

  /** All spans so far lie before a position of the screen. */
  ghost predicate Reached(c: Corpus, row: nat, column: nat) {
    c.spans != [] ==>
      var last := c.spans[|c.spans| - 1];
      last.row < row || (last.row == row && last.endCol <= column)
  }

  /** One more piece of text, after a separator if one is pending. */
  function AddPiece(c: Corpus, pending: bool, piece: string, row: nat, startCol: nat, endCol: nat,
                    linear: bool): Corpus {
    var text := if pending then c.text + " " else c.text;
    Corpus(text + piece, c.spans + [Span(|text|, |text| + |piece|, row, startCol, endCol, linear)])
  }

  lemma PieceSource(lines: seq<Line>, c: Corpus, pending: bool, piece: string, row: nat, startCol: nat, endCol: nat,
                    linear: bool)
    requires piece != "" && row < |lines| && startCol <= endCol
    requires match lines[row]
             case Ascii(line) => linear && endCol <= |line| && line[startCol..endCol] == piece && ' ' !in piece
             case Graphemes(cells) =>
               !linear && exists k :: 0 <= k < |cells| && cells[k].text == piece && Columns(cells[..k]) == startCol
                                      && cells[k].width == endCol - startCol && !cells[k].space
    ensures var c', n := AddPiece(c, pending, piece, row, startCol, endCol, linear), |c.spans|;
            && c'.text == c.text + ((if pending then " " else "") + piece)
            && |c'.spans| == n + 1 && c'.spans[..n] == c.spans && FromSource(lines, c'.text, c'.spans[n])
            && c'.spans[n].row == row && c'.spans[n].endCol == endCol
  {
    TailSlice(if pending then c.text + " " else c.text, piece);
  }

  lemma AddPieceKeeps(lines: seq<Line>, c: Corpus, pending: bool, piece: string, row: nat, startCol: nat, endCol: nat,
                      linear: bool)
    requires Faithful(lines, c) && Reached(c, row, startCol) && (pending ==> c.text != "") && piece != ""
             && row < |lines|
    requires startCol <= endCol
    requires linear && c.spans != [] && c.spans[|c.spans| - 1].row == row ==> c.spans[|c.spans| - 1].endCol < startCol
    requires match lines[row]
             case Ascii(line) => linear && endCol <= |line| && line[startCol..endCol] == piece && ' ' !in piece
             case Graphemes(cells) =>
               !linear && exists k :: 0 <= k < |cells| && cells[k].text == piece && Columns(cells[..k]) == startCol
                                      && cells[k].width == endCol - startCol && !cells[k].space
    ensures var c' := AddPiece(c, pending, piece, row, startCol, endCol, linear);
            Faithful(lines, c') && Reached(c', row, endCol)
  {
    var c' := AddPiece(c, pending, piece, row, startCol, endCol, linear);
    var n, more := |c.spans|, (if pending then " " else "") + piece;
    assert c'.text == c.text + more;
    PieceSource(lines, c, pending, piece, row, startCol, endCol, linear);
    hide AddPiece;
    if n > 0 {
      assert FromSource(lines, c.text, c.spans[n - 1]);
      LastFollows(lines, c, pending, piece, row, startCol, endCol, linear);
    }
    forall i | 0 <= i < n ensures FromSource(lines, c'.text, c.spans[i]) {
      SourceStays(lines, c.text, more, c.spans[i]);
    }
    forall i | 0 < i < n ensures Follows(c'.text, c.spans[i - 1], c.spans[i]) {
      assert FromSource(lines, c.text, c.spans[i]) && Follows(c.text, c.spans[i - 1], c.spans[i]);
      FollowsStays(c.text, more, c.spans[i - 1], c.spans[i]);
    }
    hide FromSource, Follows;
  }

  lemma LastFollows(lines: seq<Line>, c: Corpus, pending: bool, piece: string, row: nat, startCol: nat, endCol: nat,
                    linear: bool)
    requires c.spans != [] && c.spans[|c.spans| - 1].textEnd == |c.text| && Reached(c, row, startCol)
    requires linear && c.spans[|c.spans| - 1].row == row ==> c.spans[|c.spans| - 1].endCol < startCol
    ensures var c' := AddPiece(c, pending, piece, row, startCol, endCol, linear);
            Follows(c'.text, c'.spans[|c.spans| - 1], c'.spans[|c.spans|])
  {
  }

  lemma TailSlice(front: string, piece: string)
    ensures (front + piece)[|front|..|front| + |piece|] == piece
  {
  }

  lemma SourceStays(lines: seq<Line>, text: string, more: string, span: Span)
    requires FromSource(lines, text, span)
    ensures FromSource(lines, text + more, span)
  {
    assert (text + more)[span.textStart..span.textEnd] == text[span.textStart..span.textEnd];
  }

  lemma FollowsStays(text: string, more: string, a: Span, b: Span)
    requires Follows(text, a, b)
    ensures Follows(text + more, a, b)
  {
  }

  /** Faithful spans are sorted in the text and placed in order on the screen. */
  lemma FaithfulIsSorted(lines: seq<Line>, c: Corpus)
    requires Faithful(lines, c)
    ensures SpansSorted(c.spans) && SpansPlaced(c.spans)
  {
    forall i | 0 <= i < |c.spans|
      ensures c.spans[i].textStart < c.spans[i].textEnd && c.spans[i].startCol <= c.spans[i].endCol
      ensures c.spans[i].linearColumns ==>
              c.spans[i].endCol - c.spans[i].startCol == c.spans[i].textEnd - c.spans[i].textStart
    {
      assert FromSource(lines, c.text, c.spans[i]);
      LinearWidth(lines, c.text, c.spans[i]);
    }
    forall i, j | 0 <= i < j < |c.spans|
      ensures c.spans[i].textEnd <= c.spans[j].textStart && Before(c.spans[i], c.spans[j])
    {
      EarlierIsBefore(lines, c, i, j);
    }
    hide Faithful, FromSource, Before;
  }

  lemma {:induction false} EarlierIsBefore(lines: seq<Line>, c: Corpus, i: nat, j: nat)
    requires Faithful(lines, c) && i < j < |c.spans|
    ensures c.spans[i].textEnd <= c.spans[j].textStart && Before(c.spans[i], c.spans[j])
    decreases j
  {
    assert Follows(c.text, c.spans[j - 1], c.spans[j]) && FromSource(lines, c.text, c.spans[j - 1]);
    if i < j - 1 {
      EarlierIsBefore(lines, c, i, j - 1);
    }
  }

  lemma LinearWidth(lines: seq<Line>, text: string, span: Span)
    requires FromSource(lines, text, span)
    ensures span.linearColumns ==> span.endCol - span.startCol == span.textEnd - span.textStart
  {
    if span.linearColumns {
      assert |lines[span.row].text[span.startCol..span.endCol]| == |text[span.textStart..span.textEnd]|;
    }
  }

  /**
   buildSearchCorpus: the text is the words of the screen, joined by single spaces, and every piece of it
   knows its source.
   */
  method BuildCorpus(lines: seq<Line>) returns (corpus: Corpus)
    requires forall l :: l in lines && l.Graphemes? ==> forall cell :: cell in l.cells ==> cell.text != ""
    ensures Faithful(lines, corpus) && SpansSorted(corpus.spans) && SpansPlaced(corpus.spans)
    ensures corpus.text == Joined(Words(Marks(lines)))
  {
    hide Text, AtGap, Inked, AsciiMarks, GraphemeMarks;
    corpus := Corpus("", []);
    var pendingSeparator := false;
    assert Laid(corpus, pendingSeparator, Marks(lines[..0])) by { LaidNothing(); }
    for row := 0 to |lines|
      invariant Faithful(lines, corpus) && Laid(corpus, pendingSeparator, Marks(lines[..row]))
      invariant corpus.spans != [] ==> corpus.spans[|corpus.spans| - 1].row < row
    {
      assert lines[row] in lines;
      assert lines[..row + 1][..row] == lines[..row];
      ghost var marks := Marks(lines[..row]);
      match lines[row] {
        case Ascii(line) =>
          corpus, pendingSeparator := AddWords(lines, row, line, corpus, pendingSeparator, marks);
          LayGap(corpus, pendingSeparator, marks + AsciiMarks(line));
        case Graphemes(cells) =>
          corpus, pendingSeparator := AddGraphemes(lines, row, cells, corpus, pendingSeparator, marks);
          LayGap(corpus, pendingSeparator, marks + GraphemeMarks(cells));
      }
      hide Laid, Faithful;
      if |corpus.text| > 0 { pendingSeparator := true; }
    }
    assert lines[..|lines|] == lines;
    FaithfulIsSorted(lines, corpus);
    TextIsWords(lines, corpus, pendingSeparator);
  }

  lemma LaidNothing()
    ensures Laid(Corpus("", []), false, [])
  {
  }

  lemma TextIsWords(lines: seq<Line>, c: Corpus, pending: bool)
    requires Laid(c, pending, Marks(lines))
    ensures c.text == Joined(Words(Marks(lines)))
  {
  }

  /** The words of a line of printable ASCII. */
  method AddWords(lines: seq<Line>, row: nat, line: string, before: Corpus, pending: bool, ghost marks: seq<Mark>)
    returns (corpus: Corpus, pendingSeparator: bool)
    requires row < |lines| && lines[row] == Ascii(line) && Faithful(lines, before) && Laid(before, pending, marks)
    requires before.spans != [] ==> before.spans[|before.spans| - 1].row < row
    ensures Faithful(lines, corpus) && Laid(corpus, pendingSeparator, marks + AsciiMarks(line))
    ensures corpus.spans != [] ==> corpus.spans[|corpus.spans| - 1].row <= row
  {
    hide Faithful, Laid, AsciiMarks, Inked;
    corpus, pendingSeparator := before, pending;
    var index := 0;
    NoAsciiMarks(marks, line);
    while index < |line|
      invariant 0 <= index <= |line| && Faithful(lines, corpus) && Reached(corpus, row, index)
      invariant Laid(corpus, pendingSeparator, marks + AsciiMarks(line[..index]))
      invariant index < |line| && line[index] != ' ' && corpus.spans != []
                && corpus.spans[|corpus.spans| - 1].row == row ==>
                  corpus.spans[|corpus.spans| - 1].endCol < index
    {
      if line[index] == ' ' {
        SpaceMarks(marks, line, index);
        LayGap(corpus, pendingSeparator, marks + AsciiMarks(line[..index]));
        if |corpus.text| > 0 { pendingSeparator := true; }
        index := index + 1;
      } else {
        var end := index + 1;
        while end < |line| && line[end] != ' '
          invariant index < end <= |line| && ' ' !in line[index..end]
        {
          end := end + 1;
        }
        WordMarks(marks, line, index, end);
        PendingAfterText(corpus, pendingSeparator, marks + AsciiMarks(line[..index]));
        LayPiece(corpus, pendingSeparator, marks + AsciiMarks(line[..index]), line[index..end], row, index, end, true);
        AddPieceKeeps(lines, corpus, pendingSeparator, line[index..end], row, index, end, true);
        corpus := AddPiece(corpus, pendingSeparator, line[index..end], row, index, end, true);
        pendingSeparator := false;
        index := end;
      }
    }
    assert line[..|line|] == line;
  }

  lemma PendingAfterText(c: Corpus, pending: bool, marks: seq<Mark>)
    requires Laid(c, pending, marks)
    ensures pending ==> c.text != ""
  {
  }

  lemma NoAsciiMarks(marks: seq<Mark>, line: string)
    ensures marks + AsciiMarks(line[..0]) == marks
  {
  }

  lemma SpaceMarks(marks: seq<Mark>, line: string, index: nat)
    requires index < |line| && line[index] == ' '
    ensures marks + AsciiMarks(line[..index + 1]) == (marks + AsciiMarks(line[..index])) + [Gap]
  {
  }

  lemma WordMarks(marks: seq<Mark>, line: string, index: nat, end: nat)
    requires index < end <= |line| && ' ' !in line[index..end]
    ensures marks + AsciiMarks(line[..end]) == (marks + AsciiMarks(line[..index])) + Inked(line[index..end])
  {
    forall i | index <= i < end ensures line[i] != ' ' { assert line[index..end][i - index] == line[i]; }
  }

  /** The graphemes of any other line. */
  method AddGraphemes(lines: seq<Line>, row: nat, cells: seq<Cell>, before: Corpus, pending: bool,
                      ghost marks: seq<Mark>)
    returns (corpus: Corpus, pendingSeparator: bool)
    requires row < |lines| && lines[row] == Graphemes(cells) && Faithful(lines, before) && Laid(before, pending, marks)
    requires forall cell :: cell in cells ==> cell.text != ""
    requires before.spans != [] ==> before.spans[|before.spans| - 1].row < row
    ensures Faithful(lines, corpus) && Laid(corpus, pendingSeparator, marks + GraphemeMarks(cells))
    ensures corpus.spans != [] ==> corpus.spans[|corpus.spans| - 1].row <= row
  {
    hide Faithful, Laid, Inked;
    corpus, pendingSeparator := before, pending;
    var column: nat := 0;
    assert marks + GraphemeMarks(cells[..0]) == marks;
    for k := 0 to |cells|
      invariant Faithful(lines, corpus) && Reached(corpus, row, column) && column == Columns(cells[..k])
      invariant Laid(corpus, pendingSeparator, marks + GraphemeMarks(cells[..k]))
    {
      var cell := cells[k];
      ghost var sofar := marks + GraphemeMarks(cells[..k]);
      assert cells[..k + 1][..k] == cells[..k];
      if cell.space {
        LayGap(corpus, pendingSeparator, sofar);
        assert marks + GraphemeMarks(cells[..k + 1]) == sofar + [Gap];
        if |corpus.text| > 0 { pendingSeparator := true; }
      } else {
        assert cell in cells;
        PendingAfterText(corpus, pendingSeparator, sofar);
        LayPiece(corpus, pendingSeparator, sofar, cell.text, row, column, column + cell.width, false);
        assert marks + GraphemeMarks(cells[..k + 1]) == sofar + Inked(cell.text);
        AddPieceKeeps(lines, corpus, pendingSeparator, cell.text, row, column, column + cell.width, false);
        corpus := AddPiece(corpus, pendingSeparator, cell.text, row, column, column + cell.width, false);
        pendingSeparator := false;
      }
      column := column + cell.width;
    }
    assert cells[..|cells|] == cells;
  }

  // ---------------------------------------------------------------------------
  // What the segments show
  // ---------------------------------------------------------------------------

  function NoSpaces(s: string): string {
    if s == "" then "" else (if s[0] == ' ' then "" else [s[0]]) + NoSpaces(s[1..])
  }

  lemma {:induction false} NoSpacesOfSum(a: string, b: string)
    ensures NoSpaces(a + b) == NoSpaces(a) + NoSpaces(b)
  {
    if a == "" {
      assert a + b == b;
    } else {
      assert (a + b)[1..] == a[1..] + b;
      NoSpacesOfSum(a[1..], b);
    }
  }

  /** The characters under some segments, spaces aside. */
  function Spelled(lines: seq<Line>, segments: seq<Segment>): string {
    if segments == [] then ""
    else
      var s := segments[|segments| - 1];
      Spelled(lines, segments[..|segments| - 1]) +
      if s.row < |lines| && lines[s.row].Ascii? && s.startCol <= s.endCol <= |lines[s.row].text|
      then NoSpaces(lines[s.row].text[s.startCol..s.endCol]) else ""
  }

  /** The part of a hit that lies before a position of the text. */
  function UpTo(text: string, hit: Hit, position: nat): string
    requires hit.start < hit.end <= |text|
  {
    text[hit.start..Max(hit.start, Min(hit.end, position))]
  }

  /** Where the spans so far end in the text. */
  function EndOf(spans: seq<Span>, count: nat): nat
    requires count <= |spans|
  {
    if count == 0 then 0 else spans[count - 1].textEnd
  }

  lemma SpanSpells(lines: seq<Line>, text: string, span: Span, hit: Hit)
    requires FromSource(lines, text, span) && lines[span.row].Ascii? && hit.start < hit.end <= |text|
             && Overlaps(span, hit)
    ensures var s := Covered(span, hit); var line := lines[span.row].text;
            && s.startCol <= s.endCol <= |line|
            && line[s.startCol..s.endCol] == text[Max(hit.start, span.textStart)..Min(hit.end, span.textEnd)]
  {
    var line, word := lines[span.row].text, text[span.textStart..span.textEnd];
    var from, to := Max(hit.start, span.textStart) - span.textStart, Min(hit.end, span.textEnd) - span.textStart;
    assert |line[span.startCol..span.endCol]| == |word|;
    SliceOfSlice(text, span.textStart, span.textEnd, from, to);
    SliceOfSlice(line, span.startCol, span.endCol, from, to);
  }

  lemma SliceOfSlice(s: string, a: nat, b: nat, i: nat, j: nat)
    requires a <= b <= |s| && i <= j <= b - a
    ensures s[a..b][i..j] == s[a + i..a + j]
  {
    var left, right := s[a..b][i..j], s[a + i..a + j];
    assert |left| == |right|;
    assert forall k :: 0 <= k < |left| ==> left[k] == s[a + i + k] == right[k];
  }

  /** Between two spans there is nothing or one space, which spells nothing. */
  lemma GapSpellsNothing(text: string, hit: Hit, a: nat, b: nat)
    requires hit.start < hit.end <= |text| && a <= b <= |text| && (b == a || (b == a + 1 && text[a] == ' '))
    ensures NoSpaces(UpTo(text, hit, a)) == NoSpaces(UpTo(text, hit, b))
  {
    var x, y := Max(hit.start, Min(hit.end, a)), Max(hit.start, Min(hit.end, b));
    assert text[hit.start..y] == text[hit.start..x] + text[x..y];
    NoSpacesOfSum(text[hit.start..x], text[x..y]);
    if x < y { assert text[x..y] == " "; }
  }

  lemma AddedSpells(lines: seq<Line>, segments: seq<Segment>, s: Segment)
    requires s.row < |lines| && lines[s.row].Ascii? && s.startCol <= s.endCol <= |lines[s.row].text|
    requires segments != [] && segments[|segments| - 1].row == s.row ==> segments[|segments| - 1].endCol < s.startCol
    ensures Spelled(lines, Add(segments, s)) == Spelled(lines, segments)
            + NoSpaces(lines[s.row].text[s.startCol..s.endCol])
  {
    assert (segments + [s])[..|segments|] == segments;
  }

  /** On ASCII lines the characters under the segments of a hit, so far, spell the hit without its spaces. */
  lemma {:induction false} SegmentsSpell(lines: seq<Line>, c: Corpus, hit: Hit, count: nat)
    requires Faithful(lines, c) && SpansSorted(c.spans) && SpansPlaced(c.spans) && (forall l :: l in lines ==> l.Ascii?)
    requires hit.start < hit.end <= |c.text| && count <= |c.spans|
    ensures Spelled(lines, SegmentsOf(c.spans, hit, count)) == NoSpaces(UpTo(c.text, hit, EndOf(c.spans, count)))
  {
    if count > 0 {
      hide NoSpaces, Spelled, Covered;
      var span, before := c.spans[count - 1], SegmentsOf(c.spans, hit, count - 1);
      assert FromSource(lines, c.text, span);
      assert lines[span.row] in lines;
      SegmentsSpell(lines, c, hit, count - 1);
      SegmentsAreSeparated(c.spans, hit, count - 1);
      if count > 1 { assert Follows(c.text, c.spans[count - 2], span); }
      GapSpellsNothing(c.text, hit, EndOf(c.spans, count - 1), span.textStart);
      SpanAdds(lines, c.text, span, hit);
      if Overlaps(span, hit) {
        SpanSpells(lines, c.text, span, hit);
        AddedSpells(lines, before, Covered(span, hit));
      }
    }
  }

  lemma SpanAdds(lines: seq<Line>, text: string, span: Span, hit: Hit)
    requires span.textStart < span.textEnd <= |text| && hit.start < hit.end <= |text|
    ensures NoSpaces(UpTo(text, hit, span.textEnd)) == NoSpaces(UpTo(text, hit, span.textStart)) +
              if Overlaps(span, hit) then NoSpaces(text[Max(hit.start, span.textStart)..Min(hit.end, span.textEnd)])
                else ""
  {
    var x, y := Max(hit.start, Min(hit.end, span.textStart)), Max(hit.start, Min(hit.end, span.textEnd));
    assert text[hit.start..y] == text[hit.start..x] + text[x..y];
    NoSpacesOfSum(text[hit.start..x], text[x..y]);
  }

  /** For printable ASCII lines the characters under the segments of a match are the match without its spaces. */
  lemma MatchIsShown(lines: seq<Line>, c: Corpus, hit: Hit)
    requires Faithful(lines, c) && SpansSorted(c.spans) && SpansPlaced(c.spans) && (forall l :: l in lines ==> l.Ascii?)
    requires hit.start < hit.end <= |c.text|
    ensures Spelled(lines, SegmentsOf(c.spans, hit, |c.spans|)) == NoSpaces(c.text[hit.start..hit.end])
  {
    SegmentsSpell(lines, c, hit, |c.spans|);
  }

  // ---------------------------------------------------------------------------
  // The index
  // ---------------------------------------------------------------------------

  /** AltScreenSearchIndex, for any way to build a corpus from lines, to normalize a query and to find it. */
  class AltScreenSearchIndex<L(==), C, M> {
    const build: seq<L> -> C
    const normalize: string -> string
    const find: (C, string) -> seq<M>
    var sourceLines: Option<seq<L>>
    var corpus: Option<C>
    var normalizedQuery: Option<string>
    var matches: seq<M>

    /** What is cached is what was last asked for. */
    ghost predicate Valid()
      reads this
    {
      && (sourceLines.Some? <==> corpus.Some?)
      && (sourceLines.Some? ==> corpus == Some(build(sourceLines.value)))
      && (normalizedQuery.Some? ==>
         sourceLines.Some? && matches == find(build(sourceLines.value), normalizedQuery.value))
    }

    constructor (build: seq<L> -> C, normalize: string -> string, find: (C, string) -> seq<M>)
      ensures Valid() && sourceLines == None && normalizedQuery == None
      ensures this.build == build && this.normalize == normalize && this.find == find
    {
      this.build, this.normalize, this.find := build, normalize, find;
      sourceLines, corpus, normalizedQuery, matches := None, None, None, [];
    }

    /** After any history of calls the answer is that of a fresh search, and changes are reported exactly. */
    method Search(lines: seq<L>, query: string) returns (result: seq<M>, changed: bool)
      requires Valid()
      modifies this
      ensures Valid() && result == find(build(lines), normalize(query))
      ensures changed <==> old(sourceLines) != Some(lines) || old(normalizedQuery) != Some(normalize(query))
      ensures sourceLines == Some(lines) && normalizedQuery == Some(normalize(query))
    {
      var sourceChanged := sourceLines.None? || |sourceLines.value| != |lines|;
      if !sourceChanged {
        var index := 0;
        while index < |lines|
          invariant 0 <= index <= |lines|
          invariant !sourceChanged && sourceLines.value[..index] == lines[..index]
        {
          if sourceLines.value[index] != lines[index] {
            sourceChanged := true;
            break;
          }
          index := index + 1;
        }
        if !sourceChanged { assert sourceLines.value == sourceLines.value[..|lines|] == lines[..|lines|] == lines; }
      }
      if sourceChanged || corpus.None? {
        sourceLines := Some(lines);
        corpus := Some(build(lines));
      }
      var normalized := normalize(query);
      changed := sourceChanged || normalizedQuery != Some(normalized);
      if changed {
        normalizedQuery := Some(normalized);
        matches := find(corpus.value, normalized);
      }
      result := matches;
    }
  }
}
