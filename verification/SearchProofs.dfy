/** What the corpus contains and what the segments of a match cover. */
module SearchProofs {
  import opened Search

  // ---- Spans are ordered in the text and on the screen ----

  ghost predicate SpanOk(s: Span) {
    && s.textStart < s.textEnd && s.startCol <= s.endCol
    && (s.linear ==> s.endCol - s.startCol == s.textEnd - s.textStart)
  }

  ghost predicate Before(a: Span, b: Span) {
    && a.textEnd <= b.textStart
    && a.row <= b.row
    && (a.row == b.row ==> a.endCol <= b.startCol)
  }

  ghost predicate Ordered(spans: seq<Span>) {
    && (forall i :: 0 <= i < |spans| ==> SpanOk(spans[i]))
    && (forall i, j :: 0 <= i < j < |spans| ==> Before(spans[i], spans[j]))
  }

  /** A draft whose spans all lie before the given screen position and reach the end of the text. */
  ghost predicate Tidy(d: Draft, row: nat, column: nat) {
    && Ordered(d.spans)
    && (forall i :: 0 <= i < |d.spans| ==>
          && d.spans[i].textEnd <= |d.text| && d.spans[i].row <= row
          && (d.spans[i].row == row ==> d.spans[i].endCol <= column))
    && (d.pending ==> |d.text| > 0)
  }

  lemma AppendTidy(d: Draft, text: string, row: nat, startCol: nat, endCol: nat, linear: bool)
    requires Tidy(d, row, startCol) && text != "" && startCol <= endCol
    requires linear ==> endCol - startCol == |text|
    ensures Tidy(Append(d, text, row, startCol, endCol, linear), row, endCol)
  {
    var d' := Append(d, text, row, startCol, endCol, linear);
    var n := |d.spans|;
    assert forall i :: 0 <= i < n ==> d'.spans[i] == d.spans[i];
  }

  lemma {:induction false} RunsTidy(d: Draft, line: string, index: nat, row: nat)
    requires index <= |line| && Tidy(d, row, index)
    ensures Tidy(RunsFrom(d, line, index, row), row, |line|)
    decreases |line| - index
  {
    hide Tidy;
    if index == |line| {
    } else if line[index] == ' ' {
      StepTidy(d, row, index, row, index + 1);
      RunsTidy(Separate(d), line, index + 1, row);
    } else {
      var end := RunEnd(line, index + 1);
      AppendTidy(d, line[index..end], row, index, end, true);
      RunsTidy(Append(d, line[index..end], row, index, end, true), line, end, row);
    }
  }

  /** Moving on over blanks, or to a later row. */
  lemma StepTidy(d: Draft, row: nat, column: nat, row': nat, column': nat)
    requires Tidy(d, row, column) && (row < row' || (row == row' && column <= column'))
    ensures Tidy(Separate(d), row', column') && Tidy(d, row', column')
  {
  }

  function TotalWidth(cells: seq<Cell>): nat {
    if cells == [] then 0 else cells[0].width + TotalWidth(cells[1..])
  }

  ghost predicate AllNonEmpty(cells: seq<Cell>) {
    forall i :: 0 <= i < |cells| ==> cells[i].text != ""
  }

  lemma {:induction false} CellsTidy(d: Draft, cells: seq<Cell>, row: nat, column: nat)
    requires Tidy(d, row, column) && AllNonEmpty(cells)
    ensures Tidy(CellsFrom(d, cells, row, column), row, column + TotalWidth(cells))
    decreases |cells|
  {
    hide Tidy;
    if cells != [] {
      var next := column + cells[0].width;
      if cells[0].blank {
        StepTidy(d, row, column, row, next);
        CellsTidy(Separate(d), cells[1..], row, next);
      } else {
        AppendTidy(d, cells[0].text, row, column, next, false);
        CellsTidy(Append(d, cells[0].text, row, column, next, false), cells[1..], row, next);
      }
    }
  }

  lemma {:induction false} CorpusOrdered(p: Platform, lines: seq<string>)
    requires Faithful(p)
    ensures Tidy(IndexLines(p, lines), |lines|, 0)
    ensures Ordered(BuildCorpus(p, lines).spans)
    decreases |lines|
  {
    hide RunsFrom, CellsFrom;
    if lines != [] {
      var n := |lines| - 1;
      var d := IndexLines(p, lines[..n]);
      var line := p.strip(lines[n]);
      CorpusOrdered(p, lines[..n]);
      if Printable(line) {
        RunsTidy(d, line, 0, n);
        StepTidy(RunsFrom(d, line, 0, n), n, |line|, n + 1, 0);
      } else {
        var cells := Graphemes(p, line);
        CellsTidy(d, cells, n, 0);
        StepTidy(CellsFrom(d, cells, n, 0), n, TotalWidth(cells), n + 1, 0);
      }
    }
  }

  // ---- The text is the words, joined by single spaces ----

  function AsciiCells(line: string): seq<Cell> {
    seq(|line|, i requires 0 <= i < |line| => Cell([line[i]], 1, line[i] == ' '))
  }

  function LineCells(p: Platform, line: string): seq<Cell> {
    if Printable(line) then AsciiCells(line) else Graphemes(p, line)
  }

  /** A line of printable ASCII has one cell per character, blank for the space; any other line has one per
    grapheme, as wide and as blank as the platform says. */
  lemma CellsOfLine(p: Platform, line: string)
    ensures var ascii := forall i :: 0 <= i < |line| ==> 0x20 <= line[i] as int <= 0x7e;
            var cells, parts := LineCells(p, line), p.graphemes(line);
            && (ascii ==> |cells| == |line| && forall i :: 0 <= i < |line| ==> cells[i] == Cell([line[i]], 1, line[i] as int == 0x20))
            && (!ascii ==> |cells| == |parts| && forall i :: 0 <= i < |parts| ==> cells[i] == Cell(parts[i], p.width(parts[i]), p.blank(parts[i])))
  {
    assert Printable(line) <==> forall i :: 0 <= i < |line| ==> 0x20 <= line[i] as int <= 0x7e;
  }

  /** The maximal runs of non-blank cells. */
  function Words(cells: seq<Cell>): (r: seq<string>)
    ensures cells != [] && !cells[0].blank ==> r != []
  {
    if cells == [] then []
    else if cells[0].blank then Words(cells[1..])
    else if |cells| == 1 || cells[1].blank then [cells[0].text] + Words(cells[1..])
    else
      var rest := Words(cells[1..]);
      [cells[0].text + rest[0]] + rest[1..]
  }

  function AllWords(p: Platform, lines: seq<string>): seq<string> {
    if lines == [] then []
    else AllWords(p, lines[..|lines| - 1]) + Words(LineCells(p, p.strip(lines[|lines| - 1])))
  }

  function Join(words: seq<string>): string {
    if words == [] then ""
    else if |words| == 1 then words[0]
    else Join(words[..|words| - 1]) + " " + words[|words| - 1]
  }

  /** The word list after more cells: the last word grows while it is still open. */
  function Extend(words: seq<string>, open: bool, cells: seq<Cell>): seq<string> {
    var more := Words(cells);
    if !open || words == [] || cells == [] || cells[0].blank then words + more
    else words[..|words| - 1] + [words[|words| - 1] + more[0]] + more[1..]
  }

  ghost predicate Spells(d: Draft, words: seq<string>) {
    && d.text == Join(words)
    && (forall i :: 0 <= i < |words| ==> words[i] != "")
    && (d.pending ==> words != [])
  }

  lemma SpelledEmpty(d: Draft, words: seq<string>)
    requires Spells(d, words)
    ensures d.text == "" <==> words == []
  {
  }

  /** One more cell of text, as a new word or at the end of the open one. */
  lemma AppendSpells(d: Draft, words: seq<string>, text: string, row: nat, startCol: nat, endCol: nat, linear: bool)
    requires Spells(d, words) && text != ""
    ensures var d' := Append(d, text, row, startCol, endCol, linear);
            if d.pending || words == [] then Spells(d', words + [text])
            else Spells(d', words[..|words| - 1] + [words[|words| - 1] + text])
  {
    hide Join;
    if d.pending || words == [] { JoinNext(words, text); } else { JoinGrown(words, text); }
  }

  lemma JoinNext(words: seq<string>, text: string)
    ensures Join(words + [text]) == if words == [] then text else Join(words) + " " + text
    ensures words == [] ==> Join(words) == "" && "" + text == text
  {
    assert (words + [text])[..|words|] == words;
  }

  lemma Regroup(one: string, two: string, three: string)
    ensures one + two + three == one + (two + three)
  {
  }

  lemma {:induction false} JoinGrown(words: seq<string>, text: string)
    requires words != []
    ensures Join(words[..|words| - 1] + [words[|words| - 1] + text]) == Join(words) + text
  {
    hide Join;
    var init, last := words[..|words| - 1], words[|words| - 1];
    assert words == init + [last];
    JoinNext(init, last);
    JoinNext(init, last + text);
    Regroup(Join(init) + " ", last, text);
  }

  lemma {:induction false} CellsSpell(d: Draft, cells: seq<Cell>, row: nat, column: nat, words: seq<string>)
    requires Spells(d, words) && AllNonEmpty(cells)
    ensures Spells(CellsFrom(d, cells, row, column), Extend(words, !d.pending, cells))
    decreases |cells|
  {
    hide Spells;
    if cells == [] {
      assert words + [] == words;
    } else {
      var next := column + cells[0].width;
      if cells[0].blank {
        SeparateSpells(d, words);
        CellsSpell(Separate(d), cells[1..], row, next, words);
      } else {
        var t := cells[0].text;
        AppendSpells(d, words, t, row, column, next, false);
        var words' := if d.pending || words == [] then words + [t]
                      else words[..|words| - 1] + [words[|words| - 1] + t];
        CellsSpell(Append(d, t, row, column, next, false), cells[1..], row, next, words');
        ExtendStep(words, !d.pending, cells);
      }
    }
  }

  lemma SeparateSpells(d: Draft, words: seq<string>)
    requires Spells(d, words)
    ensures Spells(Separate(d), words) && (words == [] || Separate(d).pending)
  {
    SpelledEmpty(d, words);
  }

  /** The words before the one being written, and what it holds so far. */
  function Written(words: seq<string>, open: bool): (seq<string>, string) {
    if !open || words == [] then (words, "") else (words[..|words| - 1], words[|words| - 1])
  }

  lemma {:induction false} ExtendWritten(words: seq<string>, open: bool, cells: seq<Cell>)
    requires cells != [] && !cells[0].blank
    ensures var (done, current) := Written(words, open);
            var more := Words(cells);
            Extend(words, open, cells) == done + [current + more[0]] + more[1..]
  {
    var more := Words(cells);
    if !open || words == [] {
      assert "" + more[0] == more[0];
      assert words + more == words + [more[0]] + more[1..];
    }
  }

  lemma {:induction false} ExtendStep(words: seq<string>, open: bool, cells: seq<Cell>)
    requires cells != [] && !cells[0].blank
    ensures var t := cells[0].text;
            var words' := if !open || words == [] then words + [t]
                          else words[..|words| - 1] + [words[|words| - 1] + t];
            Extend(words', true, cells[1..]) == Extend(words, open, cells)
  {
    hide Extend;
    var t := cells[0].text;
    var (done, current) := Written(words, open);
    var words' := done + [current + t];
    assert "" + t == t;
    ExtendWritten(words, open, cells);
    if |cells| > 1 && !cells[1].blank {
      var rest := Words(cells[1..]);
      assert Words(cells) == [t + rest[0]] + rest[1..];
      assert words'[..|done|] == done;
      ExtendWritten(words', true, cells[1..]);
      assert current + t + rest[0] == current + (t + rest[0]);
    } else {
      ExtendClosed(words', cells[1..]);
      assert Words(cells) == [t] + Words(cells[1..]);
    }
  }

  lemma {:induction false} ExtendClosed(words: seq<string>, cells: seq<Cell>)
    requires cells == [] || cells[0].blank
    ensures Extend(words, true, cells) == words + Words(cells)
  {
  }

  // ---- The corpus indexed cell by cell throughout ----

  function CellDraft(p: Platform, lines: seq<string>): Draft {
    if lines == [] then EMPTY_DRAFT
    else
      var n := |lines| - 1;
      Separate(CellsFrom(CellDraft(p, lines[..n]), LineCells(p, p.strip(lines[n])), n, 0))
  }

  lemma LineCellsNonEmpty(p: Platform, line: string)
    requires Faithful(p)
    ensures AllNonEmpty(LineCells(p, line))
  {
  }

  lemma {:induction false} CellTextIsWords(p: Platform, lines: seq<string>)
    requires Faithful(p)
    ensures Spells(CellDraft(p, lines), AllWords(p, lines))
    ensures AllWords(p, lines) == [] || CellDraft(p, lines).pending
    decreases |lines|
  {
    hide Spells, CellsFrom, LineCells, Words;
    if lines == [] {
      assert Spells(EMPTY_DRAFT, []) by { SpellsNothing(); }
    } else {
      var n := |lines| - 1;
      var d := CellDraft(p, lines[..n]);
      var cells := LineCells(p, p.strip(lines[n]));
      CellTextIsWords(p, lines[..n]);
      LineCellsNonEmpty(p, p.strip(lines[n]));
      CellsSpell(d, cells, n, 0, AllWords(p, lines[..n]));
      SeparateSpells(CellsFrom(d, cells, n, 0), AllWords(p, lines));
    }
  }

  lemma SpellsNothing()
    ensures Spells(EMPTY_DRAFT, [])
  {
  }

  // ---- Runs mean the same as their cells ----

  /** Drafts with the same text whose spans map every match to the same segments. */
  ghost predicate SameMeaning(a: Draft, b: Draft) {
    && a.text == b.text && a.pending == b.pending
    && forall m: Range :: m.start < m.end ==> Naive(a.spans, m) == Naive(b.spans, m)
  }

  /** The spans of n single-column characters. */
  function CharSpans(textStart: nat, row: nat, column: nat, n: nat): seq<Span> {
    if n == 0 then []
    else CharSpans(textStart, row, column, n - 1)
         + [Span(textStart + n - 1, textStart + n, row, column + n - 1, column + n, false)]
  }

  lemma {:induction false} NaiveLast(spans: seq<Span>, s: Span, m: Range)
    ensures Naive(spans + [s], m) == if Overlaps(s, m) then AddSpan(Naive(spans, m), s, m) else Naive(spans, m)
  {
    assert (spans + [s])[..|spans|] == spans;
  }

  function AddIfOverlapping(segments: seq<Segment>, s: Span, m: Range): seq<Segment> {
    if Overlaps(s, m) then AddSpan(segments, s, m) else segments
  }

  /** A linear span and the character after it add what the longer linear span adds. */
  lemma {:induction false} LongerRun(segments: seq<Segment>, textStart: nat, row: nat, column: nat, n: nat, m: Range)
    requires m.start < m.end && n > 0
    ensures var shorter := Span(textStart, textStart + n, row, column, column + n, true);
            var next := Span(textStart + n, textStart + n + 1, row, column + n, column + n + 1, false);
            var longer := Span(textStart, textStart + n + 1, row, column, column + n + 1, true);
            AddIfOverlapping(AddIfOverlapping(segments, shorter, m), next, m) == AddIfOverlapping(segments, longer, m)
  {
    var shorter := Span(textStart, textStart + n, row, column, column + n, true);
    var next := Span(textStart + n, textStart + n + 1, row, column + n, column + n + 1, false);
    var longer := Span(textStart, textStart + n + 1, row, column, column + n + 1, true);
    var k := |segments|;
    if Overlaps(shorter, m) && Overlaps(next, m) {
      var middle := AddSpan(segments, shorter, m);
      assert EndCol(shorter, m) == column + n && StartCol(longer, m) == StartCol(shorter, m);
      var l := |middle| - 1;
      assert middle[l].row == row && middle[l].endCol >= column + n;
      if k > 0 && segments[k - 1].row == row && StartCol(shorter, m) <= segments[k - 1].endCol {
        assert middle[..l] == segments[..k - 1];
      } else {
        assert middle[..l] == segments;
      }
    }
  }

  /** A run of characters adds the same segments as one linear span over it. */
  lemma {:induction false} RunIsItsChars(spans: seq<Span>, textStart: nat, row: nat, column: nat, n: nat, m: Range)
    requires m.start < m.end && n > 0
    ensures Naive(spans + CharSpans(textStart, row, column, n), m)
         == Naive(spans + [Span(textStart, textStart + n, row, column, column + n, true)], m)
    decreases n
  {
    hide Naive, AddSpan;
    var run := Span(textStart, textStart + n, row, column, column + n, true);
    var last := Span(textStart + n - 1, textStart + n, row, column + n - 1, column + n, false);
    NaiveLast(spans, run, m);
    if n == 1 {
      assert CharSpans(textStart, row, column, 0) + [last] == [last];
      NaiveLast(spans, last, m);
      SingleChar(Naive(spans, m), textStart, row, column, m);
    } else {
      var init := CharSpans(textStart, row, column, n - 1);
      assert spans + CharSpans(textStart, row, column, n) == (spans + init) + [last];
      RunIsItsChars(spans, textStart, row, column, n - 1, m);
      NaiveLast(spans + init, last, m);
      NaiveLast(spans, Span(textStart, textStart + n - 1, row, column, column + n - 1, true), m);
      LongerRun(Naive(spans, m), textStart, row, column, n - 1, m);
    }
  }

  lemma SingleChar(segments: seq<Segment>, textStart: nat, row: nat, column: nat, m: Range)
    requires m.start < m.end
    ensures AddIfOverlapping(segments, Span(textStart, textStart + 1, row, column, column + 1, false), m)
         == AddIfOverlapping(segments, Span(textStart, textStart + 1, row, column, column + 1, true), m)
  {
  }

  /** The draft after the characters from..index of a run, one at a time. */
  function CharsDraft(d: Draft, line: string, from: nat, index: nat, row: nat): Draft
    requires from <= index <= |line|
    decreases index - from
  {
    if index == from then d
    else Append(CharsDraft(d, line, from, index - 1, row), [line[index - 1]], row, index - 1, index, false)
  }

  lemma {:induction false} CharsDraftIs(d: Draft, line: string, from: nat, index: nat, row: nat)
    requires from < index <= |line|
    ensures CharsDraft(d, line, from, index, row)
         == Draft(Joined(d) + line[from..index], d.spans + CharSpans(|Joined(d)|, row, from, index - from), false)
    decreases index - from
  {
    hide Joined, CharSpans;
    var text, n := Joined(d), index - 1 - from;
    assert line[from..index] == line[from..index - 1] + [line[index - 1]];
    CharSpansNext(|text|, row, from, n);
    if n > 0 {
      CharsDraftIs(d, line, from, index - 1, row);
      JoinedOpen(text + line[from..index - 1], d.spans + CharSpans(|text|, row, from, n));
      assert text + line[from..index - 1] + [line[index - 1]] == text + line[from..index];
    } else {
      assert line[from..index] == [line[index - 1]];
    }
  }

  lemma JoinedOpen(text: string, spans: seq<Span>)
    ensures Joined(Draft(text, spans, false)) == text
  {
  }

  lemma CharSpansNext(textStart: nat, row: nat, column: nat, n: nat)
    ensures CharSpans(textStart, row, column, 0) == []
    ensures CharSpans(textStart, row, column, n + 1) ==
            CharSpans(textStart, row, column, n) + [Span(textStart + n, textStart + n + 1, row, column + n, column + n + 1, false)]
  {
  }

  /** Indexing the characters of a run one at a time. */
  lemma {:induction false} CharsOfRun(d: Draft, line: string, from: nat, index: nat, end: nat, row: nat)
    requires from <= index <= end <= |line|
    requires forall k :: from <= k < end ==> line[k] != ' '
    ensures CellsFrom(CharsDraft(d, line, from, index, row), AsciiCells(line)[index..], row, index)
         == CellsFrom(CharsDraft(d, line, from, end, row), AsciiCells(line)[end..], row, end)
    decreases end - index
  {
    hide Append;
    if index < end {
      var cells := AsciiCells(line)[index..];
      assert cells[0] == Cell([line[index]], 1, false) && cells[1..] == AsciiCells(line)[index + 1..];
      CharsOfRun(d, line, from, index + 1, end, row);
    }
  }

  lemma {:induction false} RunsMeanCells(a: Draft, b: Draft, line: string, index: nat, row: nat)
    requires index <= |line| && SameMeaning(a, b)
    ensures SameMeaning(RunsFrom(a, line, index, row), CellsFrom(b, AsciiCells(line)[index..], row, index))
    decreases |line| - index
  {
    hide SameMeaning, CharSpans, Append;
    if index == |line| {
    } else if line[index] == ' ' {
      var cells := AsciiCells(line)[index..];
      assert cells[0] == Cell([' '], 1, true) && cells[1..] == AsciiCells(line)[index + 1..];
      SeparateKeepsMeaning(a, b);
      RunsMeanCells(Separate(a), Separate(b), line, index + 1, row);
    } else {
      var end := RunEnd(line, index + 1);
      CharsOfRun(b, line, index, index, end, row);
      CharsDraftIs(b, line, index, end, row);
      var a' := Append(a, line[index..end], row, index, end, true);
      var b' := Draft(Joined(b) + line[index..end], b.spans + CharSpans(|Joined(b)|, row, index, end - index), false);
      RunMeansChars(a, b, line[index..end], row, index);
      RunsMeanCells(a', b', line, end, row);
    }
  }

  lemma RunMeansChars(a: Draft, b: Draft, text: string, row: nat, column: nat)
    requires SameMeaning(a, b) && text != ""
    ensures SameMeaning(Append(a, text, row, column, column + |text|, true),
                        Draft(Joined(b) + text, b.spans + CharSpans(|Joined(b)|, row, column, |text|), false))
  {
    hide Naive;
    var run := Span(|Joined(a)|, |Joined(a)| + |text|, row, column, column + |text|, true);
    forall m: Range | m.start < m.end
      ensures Naive(a.spans + [run], m) == Naive(b.spans + CharSpans(|Joined(b)|, row, column, |text|), m)
    {
      RunIsItsChars(b.spans, |Joined(b)|, row, column, |text|, m);
      NaiveLast(a.spans, run, m);
      NaiveLast(b.spans, run, m);
    }
  }

  /** Cell by cell, drafts that mean the same go on meaning the same. */
  lemma {:induction false} CellsKeepMeaning(a: Draft, b: Draft, cells: seq<Cell>, row: nat, column: nat)
    requires SameMeaning(a, b)
    ensures SameMeaning(CellsFrom(a, cells, row, column), CellsFrom(b, cells, row, column))
    decreases |cells|
  {
    if cells != [] {
      var next := column + cells[0].width;
      if cells[0].blank {
        CellsKeepMeaning(Separate(a), Separate(b), cells[1..], row, next);
      } else {
        AppendKeepsMeaning(a, b, cells[0].text, row, column, next);
        CellsKeepMeaning(Append(a, cells[0].text, row, column, next, false),
                         Append(b, cells[0].text, row, column, next, false), cells[1..], row, next);
      }
    }
  }

  lemma AppendKeepsMeaning(a: Draft, b: Draft, text: string, row: nat, startCol: nat, endCol: nat)
    requires SameMeaning(a, b)
    ensures SameMeaning(Append(a, text, row, startCol, endCol, false), Append(b, text, row, startCol, endCol, false))
  {
    hide Naive;
    var s := Span(|Joined(a)|, |Joined(a)| + |text|, row, startCol, endCol, false);
    forall m: Range | m.start < m.end ensures Naive(a.spans + [s], m) == Naive(b.spans + [s], m) {
      NaiveLast(a.spans, s, m);
      NaiveLast(b.spans, s, m);
    }
  }

  /** The ASCII fast path is invisible: same text, and same segments for every match. */
  lemma {:induction false} FastPathInvisible(p: Platform, lines: seq<string>)
    ensures SameMeaning(IndexLines(p, lines), CellDraft(p, lines))
    decreases |lines|
  {
    hide SameMeaning;
    if lines == [] {
      assert SameMeaning(EMPTY_DRAFT, EMPTY_DRAFT) by { MeansItself(); }
    } else {
      var n := |lines| - 1;
      var a, b := IndexLines(p, lines[..n]), CellDraft(p, lines[..n]);
      var line := p.strip(lines[n]);
      FastPathInvisible(p, lines[..n]);
      if Printable(line) {
        RunsMeanCells(a, b, line, 0, n);
        assert AsciiCells(line)[0..] == AsciiCells(line);
        SeparateKeepsMeaning(RunsFrom(a, line, 0, n), CellsFrom(b, AsciiCells(line), n, 0));
      } else {
        CellsKeepMeaning(a, b, Graphemes(p, line), n, 0);
        SeparateKeepsMeaning(CellsFrom(a, Graphemes(p, line), n, 0), CellsFrom(b, Graphemes(p, line), n, 0));
      }
    }
  }

  lemma MeansItself()
    ensures SameMeaning(EMPTY_DRAFT, EMPTY_DRAFT)
  {
  }

  lemma SeparateKeepsMeaning(a: Draft, b: Draft)
    requires SameMeaning(a, b)
    ensures SameMeaning(Separate(a), Separate(b))
  {
  }

  /** The corpus text is exactly the words of all rows joined by single spaces. */
  lemma CorpusTextIsWords(p: Platform, lines: seq<string>)
    requires Faithful(p)
    ensures BuildCorpus(p, lines).text == Join(AllWords(p, lines))
  {
    hide IndexLines, CellDraft, AllWords, Join;
    FastPathInvisible(p, lines);
    CellTextIsWords(p, lines);
  }

  // ---- What the segments of a match cover ----

  ghost predicate InSegment(s: Segment, row: nat, col: nat) {
    s.row == row && s.startCol <= col < s.endCol
  }

  ghost predicate Covered(segments: seq<Segment>, row: nat, col: nat) {
    exists k :: 0 <= k < |segments| && InSegment(segments[k], row, col)
  }

  /** The screen position belongs to the part of the span the match reaches. */
  ghost predicate Reached(s: Span, m: Range, row: nat, col: nat) {
    Overlaps(s, m) && s.row == row && StartCol(s, m) <= col < EndCol(s, m)
  }

  ghost predicate ReachedBySome(spans: seq<Span>, m: Range, row: nat, col: nat) {
    exists k :: 0 <= k < |spans| && Reached(spans[k], m, row, col)
  }

  /** Segments run down the screen and never touch each other. */
  ghost predicate Apart(segments: seq<Segment>) {
    forall i, j :: 0 <= i < j < |segments| ==>
      segments[i].row < segments[j].row
      || (segments[i].row == segments[j].row && segments[i].endCol < segments[j].startCol)
  }

  /** Every segment is well formed and starts, on its row, no later than the given span ends the list. */
  ghost predicate Below(segments: seq<Segment>, row: nat, col: int) {
    forall i :: 0 <= i < |segments| ==>
      && segments[i].startCol <= segments[i].endCol
      && segments[i].row <= row
      && (segments[i].row == row ==> segments[i].endCol <= col)
  }

  lemma ColumnsInSpan(s: Span, m: Range)
    requires SpanOk(s) && Overlaps(s, m) && m.start < m.end
    ensures s.startCol <= StartCol(s, m) <= EndCol(s, m) <= s.endCol
  {
  }

  lemma BelowLater(segments: seq<Segment>, a: Span, b: Span)
    requires Below(segments, a.row, a.endCol) && Before(a, b) && SpanOk(b)
    ensures Below(segments, b.row, b.startCol) && Below(segments, b.row, b.endCol)
  {
  }

  lemma AddSpanCovers(segments: seq<Segment>, s: Span, m: Range, row: nat, col: nat)
    requires SpanOk(s) && Overlaps(s, m) && m.start < m.end
    requires Below(segments, s.row, s.startCol) && Apart(segments)
    ensures Covered(AddSpan(segments, s, m), row, col) <==> Covered(segments, row, col) || Reached(s, m, row, col)
    ensures Below(AddSpan(segments, s, m), s.row, s.endCol) && Apart(AddSpan(segments, s, m))
  {
    ColumnsInSpan(s, m);
    var n := |segments|;
    var r := AddSpan(segments, s, m);
    if n > 0 && segments[n - 1].row == s.row && StartCol(s, m) <= segments[n - 1].endCol {
      assert forall k :: 0 <= k < n - 1 ==> r[k] == segments[k];
      assert InSegment(r[n - 1], row, col) <==> InSegment(segments[n - 1], row, col) || Reached(s, m, row, col);
    } else {
      assert forall k :: 0 <= k < n ==> r[k] == segments[k];
      assert InSegment(r[n], row, col) <==> Reached(s, m, row, col);
    }
  }

  /**
   * The segments of a match cover exactly the screen positions its spans
   * reach, and no two of them touch.
   */
  lemma {:induction false} SegmentsExact(spans: seq<Span>, m: Range, row: nat, col: nat)
    requires Ordered(spans) && m.start < m.end
    ensures Covered(Naive(spans, m), row, col) <==> ReachedBySome(spans, m, row, col)
    ensures Apart(Naive(spans, m))
    ensures spans != [] ==> Below(Naive(spans, m), spans[|spans| - 1].row, spans[|spans| - 1].endCol)
    decreases |spans|
  {
    hide AddSpan, Below, Apart, Covered, Reached;
    if spans == [] {
      assert Covered([], row, col) == false && Apart([]) by { NothingCovered(row, col); }
    } else {
      var n := |spans| - 1;
      var last := spans[n];
      var before := Naive(spans[..n], m);
      SegmentsExact(spans[..n], m, row, col);
      assert Below(before, last.row, last.startCol) && Below(before, last.row, last.endCol) by {
        if n > 0 { BelowLater(before, spans[n - 1], last); } else { NothingBelow(last.row, last.startCol); NothingBelow(last.row, last.endCol); }
      }
      if Overlaps(last, m) { AddSpanCovers(before, last, m, row, col); }
      ReachedLast(spans, m, row, col);
    }
  }

  lemma NothingCovered(row: nat, col: nat)
    ensures !Covered([], row, col) && Apart([])
  {
  }

  lemma NothingBelow(row: nat, col: int)
    ensures Below([], row, col)
  {
  }

  lemma ReachedLast(spans: seq<Span>, m: Range, row: nat, col: nat)
    requires spans != []
    ensures ReachedBySome(spans, m, row, col)
        <==> ReachedBySome(spans[..|spans| - 1], m, row, col) || Reached(spans[|spans| - 1], m, row, col)
    ensures Reached(spans[|spans| - 1], m, row, col) ==> Overlaps(spans[|spans| - 1], m)
  {
    var init := spans[..|spans| - 1];
    if ReachedBySome(spans, m, row, col) {
      var k :| 0 <= k < |spans| && Reached(spans[k], m, row, col);
      if k < |init| { assert Reached(init[k], m, row, col); }
    }
    if ReachedBySome(init, m, row, col) {
      var k :| 0 <= k < |init| && Reached(init[k], m, row, col);
      assert Reached(spans[k], m, row, col);
    }
  }

  lemma {:induction false} CellDraftOrdered(p: Platform, lines: seq<string>)
    requires Faithful(p)
    ensures Tidy(CellDraft(p, lines), |lines|, 0)
    decreases |lines|
  {
    hide CellsFrom, LineCells, Tidy;
    if lines == [] {
      assert Tidy(EMPTY_DRAFT, 0, 0) by { EmptyTidy(); }
    } else {
      var n := |lines| - 1;
      var d := CellDraft(p, lines[..n]);
      var cells := LineCells(p, p.strip(lines[n]));
      CellDraftOrdered(p, lines[..n]);
      LineCellsNonEmpty(p, p.strip(lines[n]));
      CellsTidy(d, cells, n, 0);
      StepTidy(CellsFrom(d, cells, n, 0), n, TotalWidth(cells), n + 1, 0);
    }
  }

  lemma EmptyTidy()
    ensures Tidy(EMPTY_DRAFT, 0, 0)
  {
  }

  /** A non-blank cell of the screen. */
  datatype Placed = Placed(row: nat, startCol: nat, endCol: nat, text: string)

  function PlacedFrom(cells: seq<Cell>, row: nat, column: nat): seq<Placed>
    decreases |cells|
  {
    if cells == [] then []
    else
      var rest := PlacedFrom(cells[1..], row, column + cells[0].width);
      if cells[0].blank then rest
      else [Placed(row, column, column + cells[0].width, cells[0].text)] + rest
  }

  /** All non-blank cells of the screen in reading order. */
  function PlacedCells(p: Platform, lines: seq<string>): seq<Placed> {
    if lines == [] then []
    else PlacedCells(p, lines[..|lines| - 1]) + PlacedFrom(LineCells(p, p.strip(lines[|lines| - 1])), |lines| - 1, 0)
  }

  ghost predicate SlicesOk(d: Draft) {
    forall i :: 0 <= i < |d.spans| ==> d.spans[i].textStart <= d.spans[i].textEnd <= |d.text|
  }

  /** What the spans of a draft say about the screen. */
  function PlacedBy(d: Draft): seq<Placed>
    requires SlicesOk(d)
  {
    seq(|d.spans|, i requires 0 <= i < |d.spans| =>
      var s := d.spans[i];
      Placed(s.row, s.startCol, s.endCol, d.text[s.textStart..s.textEnd]))
  }

  lemma AppendPlaces(d: Draft, text: string, row: nat, startCol: nat, endCol: nat, linear: bool)
    requires SlicesOk(d)
    ensures var d' := Append(d, text, row, startCol, endCol, linear);
            SlicesOk(d') && PlacedBy(d') == PlacedBy(d) + [Placed(row, startCol, endCol, text)]
  {
    var d' := Append(d, text, row, startCol, endCol, linear);
    forall i | 0 <= i < |d.spans|
      ensures d'.spans[i] == d.spans[i]
      ensures d'.text[d.spans[i].textStart..d.spans[i].textEnd] == d.text[d.spans[i].textStart..d.spans[i].textEnd]
    {
      assert d'.text[..|d.text|] == d.text;
    }
    var n := |d.spans|;
    assert d'.text[|Joined(d)|..|Joined(d)| + |text|] == text;
    assert PlacedBy(d')[n] == Placed(row, startCol, endCol, text);
    assert PlacedBy(d') == PlacedBy(d) + [Placed(row, startCol, endCol, text)];
  }

  lemma SeparatePlaces(d: Draft)
    requires SlicesOk(d)
    ensures SlicesOk(Separate(d)) && PlacedBy(Separate(d)) == PlacedBy(d)
  {
  }

  lemma {:induction false} CellsPlaced(d: Draft, cells: seq<Cell>, row: nat, column: nat)
    requires SlicesOk(d)
    ensures var r := CellsFrom(d, cells, row, column);
            SlicesOk(r) && PlacedBy(r) == PlacedBy(d) + PlacedFrom(cells, row, column)
    decreases |cells|
  {
    hide Append, Separate, PlacedBy, SlicesOk;
    if cells == [] {
      assert PlacedBy(d) + [] == PlacedBy(d);
    } else {
      var next := column + cells[0].width;
      if cells[0].blank {
        SeparatePlaces(d);
        CellsPlaced(Separate(d), cells[1..], row, next);
      } else {
        AppendPlaces(d, cells[0].text, row, column, next, false);
        CellsPlaced(Append(d, cells[0].text, row, column, next, false), cells[1..], row, next);
        var cell, rest := Placed(row, column, next, cells[0].text), PlacedFrom(cells[1..], row, next);
        assert PlacedBy(d) + [cell] + rest == PlacedBy(d) + ([cell] + rest);
      }
    }
  }

  /** The per-cell spans are the screen's non-blank cells, each with its own slice of the text. */
  lemma {:induction false} SpansAreCells(p: Platform, lines: seq<string>)
    ensures SlicesOk(CellDraft(p, lines)) && PlacedBy(CellDraft(p, lines)) == PlacedCells(p, lines)
    decreases |lines|
  {
    hide CellsFrom, LineCells, PlacedFrom;
    if lines != [] {
      var n := |lines| - 1;
      var d := CellDraft(p, lines[..n]);
      var cells := LineCells(p, p.strip(lines[n]));
      SpansAreCells(p, lines[..n]);
      CellsPlaced(d, cells, n, 0);
      assert PlacedBy(CellDraft(p, lines)) == PlacedBy(CellsFrom(d, cells, n, 0));
    }
  }

  lemma {:induction false} CellsNotLinear(d: Draft, cells: seq<Cell>, row: nat, column: nat)
    requires forall k :: 0 <= k < |d.spans| ==> !d.spans[k].linear
    ensures forall k :: 0 <= k < |CellsFrom(d, cells, row, column).spans| ==> !CellsFrom(d, cells, row, column).spans[k].linear
    decreases |cells|
  {
    if cells != [] {
      var next := column + cells[0].width;
      CellsNotLinear(if cells[0].blank then Separate(d) else Append(d, cells[0].text, row, column, next, false), cells[1..], row, next);
    }
  }

  lemma {:induction false} CellSpansNotLinear(p: Platform, lines: seq<string>)
    ensures forall k :: 0 <= k < |CellDraft(p, lines).spans| ==> !CellDraft(p, lines).spans[k].linear
    decreases |lines|
  {
    hide CellsFrom, LineCells;
    if lines != [] {
      var n := |lines| - 1;
      CellSpansNotLinear(p, lines[..n]);
      CellsNotLinear(CellDraft(p, lines[..n]), LineCells(p, p.strip(lines[n])), n, 0);
    }
  }

  /** The screen position lies in the cell of a span, and the match touches the cell's text. */
  ghost predicate TouchedCell(s: Span, m: Range, row: nat, col: nat) {
    s.textStart < m.end && m.start < s.textEnd && s.row == row && s.startCol <= col < s.endCol
  }

  /**
   * On the screen: a position is highlighted for a match if and only if it
   * lies in a non-blank cell whose text the match touches.
   */
  lemma MatchHighlightsItsCells(p: Platform, lines: seq<string>, m: Range, row: nat, col: nat)
    requires Faithful(p) && m.start < m.end
    ensures Covered(Naive(BuildCorpus(p, lines).spans, m), row, col)
        <==> exists k :: 0 <= k < |CellDraft(p, lines).spans| && TouchedCell(CellDraft(p, lines).spans[k], m, row, col)
  {
    hide IndexLines, CellDraft, Naive, Covered;
    FastPathInvisible(p, lines);
    CellDraftOrdered(p, lines);
    CellSpansNotLinear(p, lines);
    var spans := CellDraft(p, lines).spans;
    SegmentsExact(spans, m, row, col);
    forall k | 0 <= k < |spans| ensures Reached(spans[k], m, row, col) <==> TouchedCell(spans[k], m, row, col) {
    }
  }

  // ---- One entry per match ----

  lemma {:induction false} MatchesAppend(spans: seq<Span>, ranges: seq<Range>, more: seq<Range>)
    ensures NaiveMatches(spans, ranges + more) == NaiveMatches(spans, ranges) + NaiveMatches(spans, more)
    decreases |more|
  {
    hide Naive;
    if more == [] {
      assert ranges + more == ranges;
    } else {
      var n := |more| - 1;
      assert (ranges + more)[..|ranges + more| - 1] == ranges + more[..n];
      MatchesAppend(spans, ranges, more[..n]);
    }
  }

  lemma {:induction false} TouchedOrEmpty(spans: seq<Span>, m: Range)
    ensures Naive(spans, m) == [] <==> forall k :: 0 <= k < |spans| ==> !(spans[k].textStart < m.end && m.start < spans[k].textEnd)
    decreases |spans|
  {
    if spans != [] {
      var n := |spans| - 1;
      TouchedOrEmpty(spans[..n], m);
      if Naive(spans[..n], m) != [] {
        var k :| 0 <= k < n && spans[..n][k].textStart < m.end && m.start < spans[..n][k].textEnd;
        assert spans[k] == spans[..n][k];
      }
    }
  }

  /** A match has one entry, its segments, if it touches a span, and none otherwise; matches keep their order. */
  lemma OneEntryPerMatch(spans: seq<Span>, ranges: seq<Range>, m: Range, more: seq<Range>)
    ensures NaiveMatches(spans, ranges + [m] + more) ==
            NaiveMatches(spans, ranges)
            + (if exists k :: 0 <= k < |spans| && spans[k].textStart < m.end && m.start < spans[k].textEnd then [Naive(spans, m)] else [])
            + NaiveMatches(spans, more)
    ensures NaiveMatches(spans, []) == []
  {
    hide Naive;
    MatchesAppend(spans, ranges + [m], more);
    MatchesAppend(spans, ranges, [m]);
    TouchedOrEmpty(spans, m);
    assert [m][..0] == [];
    assert NaiveMatches(spans, [m]) == if Naive(spans, m) == [] then [] else [Naive(spans, m)];
  }

  /** A search answers with the matches of the normalised query in the corpus, and with nothing for a blank one. */
  lemma SearchAsksForMatches(p: Platform, lines: seq<string>, query: string)
    ensures p.normalize(query) == "" ==> Find(p, lines, query) == []
    ensures p.normalize(query) != "" ==>
              Find(p, lines, query) ==
              NaiveMatches(BuildCorpus(p, lines).spans, p.scan(BuildCorpus(p, lines).text, p.normalize(query)))
  {
  }
}
