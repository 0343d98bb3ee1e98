/**
 * The searchable corpus of a rendered transcript and the mapping of matches
 * back to screen cells (packages/tui/src/alt-screen-search.ts).
 *
 * Terminal-sequence stripping, grapheme segmentation, cell widths, query
 * normalisation and the regular-expression scan belong to the platform.
 */
module Search {
  import opened Helpers

  datatype Platform = Platform(
    strip: string -> string,
    graphemes: string -> seq<string>,
    width: string -> nat,
    blank: string -> bool,
    normalize: string -> string,
    scan: (string, string) -> seq<Range>)

  /** A half-open range of corpus text. */
  datatype Range = Range(start: nat, end: nat)

  /** Regular-expression matches come in order, disjoint and non-empty. */
  ghost predicate OrderedRanges(ranges: seq<Range>) {
    && (forall i :: 0 <= i < |ranges| ==> ranges[i].start < ranges[i].end)
    && (forall i, j :: 0 <= i < j < |ranges| ==> ranges[i].end <= ranges[j].start)
  }

  /** What the platform promises: graphemes are non-empty, scans are ordered. */
  ghost predicate Faithful(p: Platform) {
    && (forall s, k :: 0 <= k < |p.graphemes(s)| ==> p.graphemes(s)[k] != "")
    && (forall text, query :: OrderedRanges(p.scan(text, query)))
  }

  datatype Span = Span(textStart: nat, textEnd: nat, row: nat, startCol: nat, endCol: nat, linear: bool)

  datatype Corpus = Corpus(text: string, spans: seq<Span>)

  datatype Segment = Segment(row: nat, startCol: int, endCol: int)

  // ---- Building the corpus ----

  /** The text and spans so far, and whether a separator is due before more text. */
  datatype Draft = Draft(text: string, spans: seq<Span>, pending: bool)

  const EMPTY_DRAFT: Draft := Draft("", [], false)

  function Separate(d: Draft): Draft {
    if |d.text| > 0 then d.(pending := true) else d
  }

  function Joined(d: Draft): string {
    if d.pending then d.text + " " else d.text
  }

  function Append(d: Draft, text: string, row: nat, startCol: nat, endCol: nat, linear: bool): Draft {
    var before := Joined(d);
    Draft(before + text,
          d.spans + [Span(|before|, |before| + |text|, row, startCol, endCol, linear)],
          false)
  }

  predicate Printable(line: string) {
    forall i :: 0 <= i < |line| ==> ' ' <= line[i] <= '~'
  }

  /** The end of the run of non-space characters that reaches at least to `end`. */
  function RunEnd(line: string, end: nat): (r: nat)
    requires end <= |line|
    ensures end <= r <= |line|
    ensures forall k :: end <= k < r ==> line[k] != ' '
    ensures r < |line| ==> line[r] == ' '
    decreases |line| - end
  {
    if end < |line| && line[end] != ' ' then RunEnd(line, end + 1) else end
  }

  /** A printable ASCII line is indexed run by run. */
  function RunsFrom(d: Draft, line: string, index: nat, row: nat): Draft
    requires index <= |line|
    decreases |line| - index
  {
    if index == |line| then d
    else if line[index] == ' ' then RunsFrom(Separate(d), line, index + 1, row)
    else
      var end := RunEnd(line, index + 1);
      RunsFrom(Append(d, line[index..end], row, index, end, true), line, end, row)
  }

  datatype Cell = Cell(text: string, width: nat, blank: bool)

  /** Any other line is indexed cell by cell. */
  function CellsFrom(d: Draft, cells: seq<Cell>, row: nat, column: nat): Draft
    decreases |cells|
  {
    if cells == [] then d
    else
      var d' := if cells[0].blank then Separate(d)
                else Append(d, cells[0].text, row, column, column + cells[0].width, false);
      CellsFrom(d', cells[1..], row, column + cells[0].width)
  }

  function Graphemes(p: Platform, line: string): seq<Cell> {
    var parts := p.graphemes(line);
    seq(|parts|, i requires 0 <= i < |parts| => Cell(parts[i], p.width(parts[i]), p.blank(parts[i])))
  }

  function IndexLine(p: Platform, d: Draft, line: string, row: nat): Draft {
    Separate(if Printable(line) then RunsFrom(d, line, 0, row) else CellsFrom(d, Graphemes(p, line), row, 0))
  }

  function IndexLines(p: Platform, lines: seq<string>): Draft {
    if lines == [] then EMPTY_DRAFT
    else
      var n := |lines| - 1;
      IndexLine(p, IndexLines(p, lines[..n]), p.strip(lines[n]), n)
  }

  function BuildCorpus(p: Platform, lines: seq<string>): Corpus {
    var d := IndexLines(p, lines);
    Corpus(d.text, d.spans)
  }

  // ---- Mapping a match back to the screen ----

  predicate Overlaps(s: Span, m: Range) {
    s.textStart < m.end && m.start < s.textEnd
  }

  /** The columns of a span that a match reaches. */
  function StartCol(s: Span, m: Range): int {
    if s.linear then s.startCol + Max(m.start, s.textStart) - s.textStart else s.startCol
  }

  function EndCol(s: Span, m: Range): int {
    if s.linear then s.startCol + Min(m.end, s.textEnd) - s.textStart else s.endCol
  }

  /** Add the columns of one overlapping span, growing the last segment when they touch it. */
  function AddSpan(segments: seq<Segment>, s: Span, m: Range): seq<Segment>
    requires Overlaps(s, m)
  {
    var n := |segments|;
    if n > 0 && segments[n - 1].row == s.row && StartCol(s, m) <= segments[n - 1].endCol
    then segments[..n - 1] + [segments[n - 1].(endCol := Max(segments[n - 1].endCol, EndCol(s, m)))]
    else segments + [Segment(s.row, StartCol(s, m), EndCol(s, m))]
  }

  /** The meaning of a match: scan every span of the corpus. */
  function Naive(spans: seq<Span>, m: Range): seq<Segment> {
    if spans == [] then []
    else
      var n := |spans| - 1;
      if Overlaps(spans[n], m) then AddSpan(Naive(spans[..n], m), spans[n], m) else Naive(spans[..n], m)
  }

  function NaiveMatches(spans: seq<Span>, ranges: seq<Range>): seq<seq<Segment>> {
    if ranges == [] then []
    else
      var n := |ranges| - 1;
      var segments := Naive(spans, ranges[n]);
      if segments == [] then NaiveMatches(spans, ranges[..n]) else NaiveMatches(spans, ranges[..n]) + [segments]
  }

  /** The uncached search. */
  function Find(p: Platform, lines: seq<string>, query: string): seq<seq<Segment>> {
    var q := p.normalize(query);
    if q == "" then []
    else
      var corpus := BuildCorpus(p, lines);
      NaiveMatches(corpus.spans, p.scan(corpus.text, q))
  }
}
