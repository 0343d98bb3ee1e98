/**
 * The loops that build and search the corpus, and the cache in front of them
 * (packages/tui/src/alt-screen-search.ts).
 */
module SearchIndex {
  import opened Wrappers
  import opened Helpers
  import opened Search
  import opened SearchProofs

  /** The corpus under construction: chunks of text, spans, and the running length. */
  class CorpusBuilder {
    var chunks: seq<string>
    var spans: seq<Span>
    var textLength: nat
    var pendingSeparator: bool

    constructor ()
      ensures Shows(EMPTY_DRAFT)
    {
      chunks, spans, textLength, pendingSeparator := [], [], 0, false;
    }

    ghost predicate Shows(d: Draft)
      reads this
    {
      d == Draft(Concat(chunks), spans, pendingSeparator) && textLength == |d.text|
    }

    method MarkBlank(ghost d: Draft)
      requires Shows(d)
      modifies this
      ensures Shows(Separate(d))
    {
      if textLength > 0 { pendingSeparator := true; }
    }

    method AppendSeparator(ghost d: Draft)
      requires Shows(d)
      modifies this
      ensures Shows(Draft(Joined(d), d.spans, false))
    {
      if !pendingSeparator { return; }
      ConcatLast(chunks, " ");
      chunks := chunks + [" "];
      textLength := textLength + 1;
      pendingSeparator := false;
    }

    method AppendText(text: string, row: nat, startCol: nat, endCol: nat, linear: bool, ghost d: Draft)
      requires Shows(d)
      modifies this
      ensures Shows(Append(d, text, row, startCol, endCol, linear))
    {
      AppendSeparator(d);
      ConcatLast(chunks, text);
      chunks := chunks + [text];
      spans := spans + [Span(textLength, textLength + |text|, row, startCol, endCol, linear)];
      textLength := textLength + |text|;
    }

    /** One printable ASCII line, a run at a time. */
    method IndexRuns(line: string, row: nat, ghost d: Draft)
      requires Shows(d)
      modifies this
      ensures Shows(RunsFrom(d, line, 0, row))
    {
      hide CorpusBuilder.Shows, Append, Separate;
      var index, column := 0, 0;
      ghost var now := d;
      while index < |line|
        invariant 0 <= index <= |line| && column == index
        invariant Shows(now)
        invariant RunsFrom(now, line, index, row) == RunsFrom(d, line, 0, row)
      {
        if line[index] == ' ' {
          MarkBlank(now);
          now := Separate(now);
          column := column + 1;
          index := index + 1;
        } else {
          var end := index + 1;
          while end < |line| && line[end] != ' '
            invariant index < end <= |line|
            invariant RunEnd(line, end) == RunEnd(line, index + 1)
          {
            end := end + 1;
          }
          var text := line[index..end];
          AppendText(text, row, column, column + |text|, true, now);
          now := Append(now, text, row, column, column + |text|, true);
          column := column + |text|;
          index := end;
        }
      }
    }

    /** Any other line, a grapheme at a time. */
    method IndexGraphemes(p: Platform, line: string, row: nat, ghost d: Draft)
      requires Shows(d)
      modifies this
      ensures Shows(CellsFrom(d, Graphemes(p, line), row, 0))
    {
      hide CorpusBuilder.Shows, Append, Separate;
      var parts := p.graphemes(line);
      ghost var cells := Graphemes(p, line);
      var column := 0;
      ghost var now := d;
      assert cells[0..] == cells;
      for i := 0 to |parts|
        invariant Shows(now)
        invariant CellsFrom(now, cells[i..], row, column) == CellsFrom(d, cells, row, 0)
      {
        var text := parts[i];
        var width := p.width(text);
        assert cells[i..][0] == Cell(text, width, p.blank(text)) && cells[i..][1..] == cells[i + 1..];
        if p.blank(text) {
          MarkBlank(now);
          now := Separate(now);
        } else {
          AppendText(text, row, column, column + width, false, now);
          now := Append(now, text, row, column, column + width, false);
        }
        column := column + width;
      }
    }
  }

  method BuildSearchCorpus(p: Platform, lines: seq<string>) returns (corpus: Corpus)
    ensures corpus == BuildCorpus(p, lines)
  {
    hide RunsFrom, CellsFrom;
    var builder := new CorpusBuilder();
    for row := 0 to |lines|
      invariant fresh(builder)
      invariant builder.Shows(IndexLines(p, lines[..row]))
    {
      var line := p.strip(lines[row]);
      ghost var d := IndexLines(p, lines[..row]);
      assert lines[..row + 1][..row] == lines[..row];
      if Printable(line) {
        builder.IndexRuns(line, row, d);
        builder.MarkBlank(RunsFrom(d, line, 0, row));
      } else {
        builder.IndexGraphemes(p, line, row, d);
        builder.MarkBlank(CellsFrom(d, Graphemes(p, line), row, 0));
      }
    }
    assert lines[..|lines|] == lines;
    corpus := Corpus(Concat(builder.chunks), builder.spans);
  }

  // ---- The match mapper ----

  /** Spans that end by the start of a match, or start at its end or later, add nothing. */
  lemma {:induction false} SkippedSpans(spans: seq<Span>, m: Range)
    requires forall k :: 0 <= k < |spans| ==> !Overlaps(spans[k], m)
    ensures Naive(spans, m) == []
    decreases |spans|
  {
    if spans != [] { SkippedSpans(spans[..|spans| - 1], m); }
  }

  lemma {:induction false} RestAddsNothing(spans: seq<Span>, i: nat, m: Range)
    requires i <= |spans| && forall k :: i <= k < |spans| ==> !Overlaps(spans[k], m)
    ensures Naive(spans, m) == Naive(spans[..i], m)
    decreases |spans|
  {
    var n := |spans| - 1;
    if i <= n {
      RestAddsNothing(spans[..n], i, m);
      assert spans[..n][..i] == spans[..i];
    } else {
      assert spans[..i] == spans;
    }
  }

  lemma NaiveNext(spans: seq<Span>, i: nat, m: Range)
    requires i < |spans|
    ensures Naive(spans[..i + 1], m) == if Overlaps(spans[i], m) then AddSpan(Naive(spans[..i], m), spans[i], m) else Naive(spans[..i], m)
  {
    assert spans[..i + 1][..i] == spans[..i];
  }

  /** Grow the last segment when the columns of a span touch it, or start a new one. */
  method GrowSegments(before: seq<Segment>, span: Span, m: Range) returns (segments: seq<Segment>)
    requires Overlaps(span, m)
    ensures segments == AddSpan(before, span, m)
  {
    var n := |before|;
    var startCol, endCol := StartCol(span, m), EndCol(span, m);
    if n > 0 && before[n - 1].row == span.row && startCol <= before[n - 1].endCol {
      segments := before[n - 1 := before[n - 1].(endCol := Max(before[n - 1].endCol, endCol))];
    } else {
      segments := before + [Segment(span.row, startCol, endCol)];
    }
  }

  /** The segments of one match, scanning forward from the first span that can reach it. */
  method SegmentsOf(spans: seq<Span>, m: Range, first: nat) returns (segments: seq<Segment>)
    requires Ordered(spans) && m.start < m.end && first <= |spans|
    requires forall k :: 0 <= k < first ==> spans[k].textEnd <= m.start
    ensures segments == Naive(spans, m)
  {
    hide Naive, AddSpan;
    segments := [];
    SkippedSpans(spans[..first], m);
    var index := first;
    while index < |spans|
      invariant first <= index <= |spans|
      invariant segments == Naive(spans[..index], m)
    {
      var span := spans[index];
      NaiveNext(spans, index, m);
      if span.textStart >= m.end {
        forall k | index <= k < |spans| ensures !Overlaps(spans[k], m) {
          assert k > index ==> Before(spans[index], spans[k]);
        }
        break;
      }
      if span.textEnd > m.start { segments := GrowSegments(segments, span, m); }
      index := index + 1;
    }
    RestAddsNothing(spans, index, m);
  }

  method SkipEnded(spans: seq<Span>, from: nat, position: nat) returns (index: nat)
    requires from <= |spans| && forall k :: 0 <= k < from ==> spans[k].textEnd <= position
    ensures from <= index <= |spans| && forall k :: 0 <= k < index ==> spans[k].textEnd <= position
  {
    index := from;
    while index < |spans| && spans[index].textEnd <= position
      invariant from <= index <= |spans|
      invariant forall k :: 0 <= k < index ==> spans[k].textEnd <= position
    {
      index := index + 1;
    }
  }

  /** The span index that only moves forward finds what scanning all spans for every match finds. */
  method FindSearchCorpusMatches(p: Platform, corpus: Corpus, query: string) returns (matches: seq<seq<Segment>>)
    requires Faithful(p) && Ordered(corpus.spans)
    ensures matches == if query == "" then [] else NaiveMatches(corpus.spans, p.scan(corpus.text, query))
  {
    hide Ordered, Naive;
    matches := [];
    if query == "" { return; }
    var ranges := p.scan(corpus.text, query);
    var spanIndex := 0;
    for i := 0 to |ranges|
      invariant 0 <= spanIndex <= |corpus.spans|
      invariant forall k :: 0 <= k < spanIndex && i < |ranges| ==> corpus.spans[k].textEnd <= ranges[i].start
      invariant matches == NaiveMatches(corpus.spans, ranges[..i])
    {
      var m := ranges[i];
      spanIndex := SkipEnded(corpus.spans, spanIndex, m.start);
      var segments := SegmentsOf(corpus.spans, m, spanIndex);
      assert ranges[..i + 1][..i] == ranges[..i];
      spanIndex := SkipEnded(corpus.spans, spanIndex, m.end);
      if segments != [] { matches := matches + [segments]; }
    }
    assert ranges[..|ranges|] == ranges;
  }

  method FindAltScreenSearchMatches(p: Platform, lines: seq<string>, query: string) returns (matches: seq<seq<Segment>>)
    requires Faithful(p)
    ensures matches == Find(p, lines, query)
  {
    var q := p.normalize(query);
    if q == "" { return []; }
    CorpusOrdered(p, lines);
    var corpus := BuildSearchCorpus(p, lines);
    matches := FindSearchCorpusMatches(p, corpus, q);
  }

  // ---- The cache ----

  class AltScreenSearchIndex {
    const platform: Platform
    var sourceLines: Option<seq<string>>
    var corpus: Option<Corpus>
    var normalizedQuery: Option<string>
    var matches: seq<seq<Segment>>

    constructor (platform: Platform)
      requires Faithful(platform)
      ensures this.platform == platform && Valid() && sourceLines == None && normalizedQuery == None
    {
      this.platform := platform;
      sourceLines, corpus, normalizedQuery, matches := None, None, None, [];
    }

    /** The cached corpus is that of the cached lines, the cached matches those of both. */
    ghost predicate Valid()
      reads this
    {
      && Faithful(platform)
      && (sourceLines.Some? <==> corpus.Some?)
      && (sourceLines.Some? <==> normalizedQuery.Some?)
      && (sourceLines.Some? ==>
            && corpus.value == BuildCorpus(platform, sourceLines.value)
            && matches == if normalizedQuery.value == "" then []
                          else NaiveMatches(corpus.value.spans, platform.scan(corpus.value.text, normalizedQuery.value)))
    }

    method LinesChanged(lines: seq<string>) returns (changed: bool)
      ensures changed <==> sourceLines != Some(lines)
    {
      changed := sourceLines.None? || |sourceLines.value| != |lines|;
      if !changed {
        var index := 0;
        while index < |lines|
          invariant 0 <= index <= |lines|
          invariant sourceLines.value[..index] == lines[..index]
        {
          if sourceLines.value[index] != lines[index] { return true; }
          index := index + 1;
        }
        assert sourceLines.value == sourceLines.value[..index] && lines == lines[..index];
      }
    }

    /**
     * Whatever was asked before, the answer is the uncached one; it is
     * reported unchanged exactly when the lines and the normalised query are
     * those of the previous call, and then it is the previous answer.
     */
    method Search(lines: seq<string>, query: string) returns (found: seq<seq<Segment>>, changed: bool)
      requires Valid()
      modifies this
      ensures Valid()
      ensures sourceLines == Some(lines) && normalizedQuery == Some(platform.normalize(query)) && found == matches
      ensures found == Find(platform, lines, query)
      ensures changed <==> old(sourceLines) != Some(lines) || old(normalizedQuery) != Some(platform.normalize(query))
      ensures !changed ==> found == old(matches)
    {
      hide Faithful, BuildCorpus, NaiveMatches;
      var sourceChanged := LinesChanged(lines);
      CorpusOrdered(platform, lines);
      if sourceChanged || corpus.None? {
        sourceLines := Some(lines);
        var built := BuildSearchCorpus(platform, lines);
        corpus := Some(built);
      }
      var q := platform.normalize(query);
      changed := sourceChanged || normalizedQuery != Some(q);
      if changed {
        normalizedQuery := Some(q);
        matches := FindSearchCorpusMatches(platform, corpus.value, q);
      }
      found := matches;
    }
  }
}
