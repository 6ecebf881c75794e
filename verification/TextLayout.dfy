/**
 * Wrapping of text into terminal rows, and the maps between bytes, cells and positions. A text is a
 * sequence of grapheme clusters; a place in it is a number of clusters, which `Offset` turns into bytes.
 */
module TextLayout {
  const TAB_WIDTH := 4

  type Positive = n: nat | n > 0 witness 1

  /** Text clusters carry their bytes, their width (a tab has none of its own) and whether rows may break behind. */
  datatype Cluster =
    | Glyph(size: Positive, cells: nat, blank: bool)
    | Tab
    | CarriageReturn
    | LineFeed
    | LineSeparator
    | ParagraphSeparator

  type Content = seq<Cluster>

  function Size(cluster: Cluster): Positive {
    match cluster
    case Glyph(size, _, _) => size
    case Tab | CarriageReturn | LineFeed => 1
    case LineSeparator | ParagraphSeparator => 3
  }

  predicate Separates(cluster: Cluster) {
    cluster.LineFeed? || cluster.LineSeparator? || cluster.ParagraphSeparator?
  }

  /** A tab reaches the next stop; control characters take one cell. */
  function CellWidth(cluster: Cluster, column: nat): nat {
    match cluster
    case Tab => TAB_WIDTH - column % TAB_WIDTH
    case Glyph(_, cells, _) => cells
    case _ => 1
  }

  predicate Blank(cluster: Cluster) { if cluster.Glyph? then cluster.blank else true }

  function Offset(content: Content, k: nat): nat
    requires k <= |content|
  {
    if k == 0 then 0 else Offset(content, k - 1) + Size(content[k - 1])
  }

  /** The column reached at `k` by a row that starts at `from`. */
  function Cells(content: Content, from: nat, k: nat): nat
    requires k <= |content|
  {
    if k <= from then 0
    else Cells(content, from, k - 1) + CellWidth(content[k - 1], Cells(content, from, k - 1))
  }

  lemma {:induction false} OffsetsGrow(content: Content, i: nat, j: nat)
    requires i <= j <= |content|
    ensures Offset(content, i) <= Offset(content, j) && (i < j ==> Offset(content, i) < Offset(content, j))
  {
    if i < j { OffsetsGrow(content, i, j - 1); }
  }

  lemma {:induction false} CellsGrow(content: Content, from: nat, i: nat, j: nat)
    requires i <= j <= |content|
    ensures Cells(content, from, i) <= Cells(content, from, j)
  {
    if i < j { CellsGrow(content, from, i, j - 1); }
  }

  /** Behind a tab the column is the next multiple of the tab width. */
  lemma TabReachesNextStop(content: Content, from: nat, k: nat)
    requires from <= k < |content| && content[k].Tab?
    ensures Cells(content, from, k + 1) % TAB_WIDTH == 0
    ensures forall column :: Cells(content, from, k) < column < Cells(content, from, k + 1) ==> column % TAB_WIDTH != 0
    ensures Cells(content, from, k) < Cells(content, from, k + 1)
  {
    var column := Cells(content, from, k);
    assert column == column / TAB_WIDTH * TAB_WIDTH + column % TAB_WIDTH;
  }

  // ---------------------------------------------------------------------------------------------
  // Logical lines

  /** A line's text is [first, last); its separator is [last, next). */
  datatype Line = Line(first: nat, last: nat, next: nat)

  /** `[last, next)` is one separator, and a carriage return before a line feed belongs to it. */
  predicate Separator(content: Content, line: Line) {
    && line.first <= line.last < line.next <= |content| && Separates(content[line.next - 1])
    && (line.next == line.last + 1 ||
        (line.next == line.last + 2 && content[line.last].CarriageReturn? && content[line.last + 1].LineFeed?))
    && (content[line.last].LineFeed? && line.first < line.last ==> !content[line.last - 1].CarriageReturn?)
  }

  predicate NoSeparator(content: Content, from: nat, to: nat) {
    to <= |content| && forall k :: from <= k < to ==> !Separates(content[k])
  }

  function StartOf(lines: seq<Line>, i: nat): nat
    requires i <= |lines|
  {
    if i == 0 then 0 else lines[i - 1].next
  }

  /** Lines in a row, each but for a last open one closed by its separator. */
  predicate Closed(content: Content, lines: seq<Line>, n: nat) {
    && n <= |lines|
    && forall i {:trigger StartOf(lines, i)} :: 0 <= i < n ==>
         && lines[i].first == StartOf(lines, i) && Separator(content, lines[i])
         && NoSeparator(content, lines[i].first, lines[i].last)
  }

  predicate Split(content: Content, lines: seq<Line>) {
    && lines != [] && Closed(content, lines, |lines| - 1)
    && var open := lines[|lines| - 1];
       && open.first == StartOf(lines, |lines| - 1) && open.first <= open.last == open.next == |content|
       && NoSeparator(content, open.first, open.last)
  }

  method LogicalLines(content: Content) returns (lines: seq<Line>)
    ensures Split(content, lines)
  {
    lines := [];
    var start := 0;
    for i := 0 to |content|
      invariant start == StartOf(lines, |lines|) <= i && Closed(content, lines, |lines|)
      invariant NoSeparator(content, start, i)
    {
      if Separates(content[i]) {
        var last := if content[i].LineFeed? && i > start && content[i - 1].CarriageReturn? then i - 1 else i;
        ghost var before := lines;
        lines := lines + [Line(start, last, i + 1)];
        ClosedByOne(content, before, Line(start, last, i + 1));
        start := i + 1;
      }
    }
    ghost var before := lines;
    lines := lines + [Line(start, |content|, |content|)];
    ClosedBefore(content, before, Line(start, |content|, |content|));
  }

  lemma ClosedBefore(content: Content, lines: seq<Line>, line: Line)
    requires Closed(content, lines, |lines|)
    ensures Closed(content, lines + [line], |lines|)
    ensures StartOf(lines + [line], |lines|) == StartOf(lines, |lines|)
  {
    forall i | 0 <= i < |lines|
      ensures (lines + [line])[i] == lines[i] && StartOf(lines + [line], i) == StartOf(lines, i)
    {
    }
  }

  lemma ClosedByOne(content: Content, lines: seq<Line>, line: Line)
    requires Closed(content, lines, |lines|) && line.first == StartOf(lines, |lines|)
    requires Separator(content, line) && NoSeparator(content, line.first, line.last)
    ensures Closed(content, lines + [line], |lines + [line]|)
  {
    ClosedBefore(content, lines, line);
  }

  /** Every line has its place: in order, without overlap, the last one at the end. */
  lemma {:induction false} LinesInOrder(content: Content, lines: seq<Line>, i: nat, j: nat)
    requires Split(content, lines) && i <= j < |lines|
    ensures lines[i].first <= lines[i].last <= lines[i].next <= |content|
    ensures lines[j].first <= lines[j].last <= lines[j].next <= |content|
    ensures i < j ==> lines[i].last < lines[i].next <= lines[j].first
    decreases j - i
  {
    OneLine(content, lines, i);
    OneLine(content, lines, j);
    if i < j {
      OneLine(content, lines, j - 1);
      LinesInOrder(content, lines, i, j - 1);
    }
  }

  lemma OneLine(content: Content, lines: seq<Line>, i: nat)
    requires Split(content, lines) && i < |lines|
    ensures lines[i].first == StartOf(lines, i)
    ensures lines[i].first <= lines[i].last <= lines[i].next <= |content|
    ensures i < |lines| - 1 ==> Separator(content, lines[i])
  {
    assert lines[i].first == StartOf(lines, i);
  }

  // ---------------------------------------------------------------------------------------------
  // Where a row breaks

  /** [from, end) fits the width, or is no more than one cluster. Columns grow, so every shorter row fits too. */
  predicate Fits(content: Content, from: nat, end: nat, width: nat) {
    end <= |content| && (end <= from + 1 || Cells(content, from, end) <= width)
  }

  /** `q` is the first cluster that does not fit behind others. */
  predicate Overflows(content: Content, from: nat, width: nat, q: nat) {
    from < q < |content| && Fits(content, from, q, width) && !Fits(content, from, q + 1, width)
  }

  predicate NoBlank(content: Content, from: nat, to: nat) {
    to <= |content| && forall k :: from <= k < to ==> !Blank(content[k])
  }

  /** Behind the last blank before the first cluster that does not fit, or else right before that one. */
  predicate BreaksBefore(content: Content, from: nat, width: nat, q: nat, end: nat) {
    && Overflows(content, from, width, q)
    && (if NoBlank(content, from, q) then end == q
        else from < end <= q && Blank(content[end - 1]) && NoBlank(content, end, q))
  }

  /** A row takes all that is left if it fits. */
  predicate Breaks(content: Content, from: nat, to: nat, width: nat, end: nat) {
    || (end == to && from < to && Fits(content, from, to, width))
    || exists q :: from < q < to <= |content| && BreaksBefore(content, from, width, q, end)
  }

  method SegmentEnd(content: Content, from: nat, to: nat, width: nat) returns (end: nat, cells: nat)
    requires from < to <= |content|
    ensures from < end <= to && cells == Cells(content, from, end) && Breaks(content, from, to, width, end)
  {
    end, cells := from, 0;
    var found, breakEnd, breakCells := false, from, 0;
    while end < to
      invariant from <= end <= to && cells == Cells(content, from, end)
      invariant Fits(content, from, end, width)
      invariant found ==> from < breakEnd <= end && Blank(content[breakEnd - 1]) && NoBlank(content, breakEnd, end)
      invariant found ==> breakCells == Cells(content, from, breakEnd)
      invariant !found ==> NoBlank(content, from, end)
    {
      var clusterCells := CellWidth(content[end], cells);
      if end > from && cells + clusterCells > width {
        ghost var q := end;
        assert Overflows(content, from, width, q);
        if found {
          end, cells := breakEnd, breakCells;
        }
        assert BreaksBefore(content, from, width, q, end);
        return;
      }
      cells := cells + clusterCells;
      end := end + 1;
      if Blank(content[end - 1]) {
        found, breakEnd, breakCells := true, end, cells;
      }
    }
  }

  /** A row fits the width or is a single cluster. */
  lemma RowFits(content: Content, from: nat, to: nat, width: nat, end: nat)
    requires from < to <= |content| && Breaks(content, from, to, width, end)
    ensures from < end <= to && Fits(content, from, end, width)
  {
    if end != to || !Fits(content, from, to, width) {
      var q :| from < q < to <= |content| && BreaksBefore(content, from, width, q, end);
      CellsGrow(content, from, end, q);
    }
  }

  // ---------------------------------------------------------------------------------------------
  // Rows

  /** One terminal row of a logical line: the clusters [first, end) and the cells they take. */
  datatype Row = Row(line: nat, first: nat, end: nat, cells: nat)

  /** A row lies in its line and breaks where it should; an empty one sits at the end of its line's text. */
  predicate Sits(content: Content, lines: seq<Line>, width: nat, row: Row) {
    && row.line < |lines|
    && var line := lines[row.line];
       && line.first <= row.first <= row.end <= line.last <= |content|
       && row.cells == Cells(content, row.first, row.end)
       && if row.first < row.end then Breaks(content, row.first, line.last, width, row.end) else row.first == line.last
  }

  /** More rows of the line must follow: for the text left, or to hold the cursor behind a full row. */
  predicate Unfinished(lines: seq<Line>, width: nat, row: Row)
    requires row.line < |lines|
  {
    row.end < lines[row.line].last || (row.first < row.end && row.cells == width)
  }

  predicate Follows(lines: seq<Line>, width: nat, row: Row, next: Row) {
    && row.line < |lines| && next.line < |lines|
    && if Unfinished(lines, width, row) then next.line == row.line && next.first == row.end
       else next.line == row.line + 1 && next.first == lines[next.line].first
  }

  predicate Chained(content: Content, lines: seq<Line>, width: nat, rows: seq<Row>) {
    && (forall i :: 0 <= i < |rows| ==> Sits(content, lines, width, rows[i]))
    && (forall i, j :: 0 <= i && j == i + 1 < |rows| ==> Follows(lines, width, rows[i], rows[j]))
    && (rows != [] ==> rows[0].line == 0 && lines != [] && rows[0].first == lines[0].first)
  }

  /** The rows of a whole text: from its first line to the end of its last. */
  predicate Wrapped(content: Content, lines: seq<Line>, width: nat, rows: seq<Row>) {
    && Split(content, lines) && width > 0 && rows != [] && Chained(content, lines, width, rows)
    && var row := rows[|rows| - 1]; row.line == |lines| - 1 && !Unfinished(lines, width, row)
  }

  /** `row` may be pushed next. */
  predicate Next(lines: seq<Line>, width: nat, rows: seq<Row>, row: Row) {
    if rows == [] then row.line == 0 && lines != [] && row.first == lines[0].first
    else Follows(lines, width, rows[|rows| - 1], row)
  }

  lemma Pushed(content: Content, lines: seq<Line>, width: nat, rows: seq<Row>, row: Row)
    requires Chained(content, lines, width, rows) && Sits(content, lines, width, row) && Next(lines, width, rows, row)
    ensures Chained(content, lines, width, rows + [row])
  {
    var more := rows + [row];
    forall i, j | 0 <= i && j == i + 1 < |more|
      ensures Follows(lines, width, more[i], more[j])
    {
      if j < |rows| { assert Follows(lines, width, rows[i], rows[j]); }
    }
  }

  /** The rows so far end where the lines before `n` end. */
  predicate Complete(lines: seq<Line>, width: nat, rows: seq<Row>, n: nat) {
    if n == 0 then rows == []
    else && rows != [] && n <= |lines|
         && var row := rows[|rows| - 1]; row.line == n - 1 && !Unfinished(lines, width, row)
  }

  method WrapRows(content: Content, requested: nat) returns (rows: seq<Row>, lines: seq<Line>)
    ensures Wrapped(content, lines, if requested == 0 then 1 else requested, rows)
  {
    var width := if requested == 0 then 1 else requested;
    rows := [];
    lines := LogicalLines(content);
    for n := 0 to |lines|
      invariant Chained(content, lines, width, rows) && Complete(lines, width, rows, n)
    {
      rows := WrapLine(content, lines, n, width, rows);
    }
  }

  method WrapLine(content: Content, lines: seq<Line>, n: nat, width: nat, before: seq<Row>) returns (rows: seq<Row>)
    requires Split(content, lines) && n < |lines| && width > 0
    requires Chained(content, lines, width, before) && Complete(lines, width, before, n)
    ensures Chained(content, lines, width, rows) && Complete(lines, width, rows, n + 1)
  {
    rows := before;
    LinesInOrder(content, lines, n, n);
    var line := lines[n];
    if line.first == line.last {
      Pushed(content, lines, width, rows, Row(n, line.first, line.first, 0));
      return rows + [Row(n, line.first, line.first, 0)];
    }
    var start := line.first;
    while start < line.last
      invariant line.first <= start <= line.last && Chained(content, lines, width, rows)
      invariant start == line.first ==> rows == before
      invariant start > line.first ==>
        rows != [] && var row := rows[|rows| - 1]; row.line == n && row.first < row.end == start
    {
      var end, cells := SegmentEnd(content, start, line.last, width);
      Pushed(content, lines, width, rows, Row(n, start, end, cells));
      rows := rows + [Row(n, start, end, cells)];
      start := end;
    }
    if rows[|rows| - 1].cells == width {
      Pushed(content, lines, width, rows, Row(n, line.last, line.last, 0));
      rows := rows + [Row(n, line.last, line.last, 0)];
    }
  }

  /** Rows come in the order of the text, and never overlap. */
  lemma {:induction false} RowsInOrder(content: Content, lines: seq<Line>, width: nat, rows: seq<Row>, i: nat, j: nat)
    requires Wrapped(content, lines, width, rows) && i < j < |rows|
    ensures rows[i].line <= rows[j].line && rows[i].end <= rows[j].first
    ensures rows[i].line < rows[j].line ==> lines[rows[i].line].next <= rows[j].first
    decreases j
  {
    if i + 1 < j { RowsInOrder(content, lines, width, rows, i, j - 1); }
    NextRow(content, lines, width, rows, j - 1, j);
  }

  lemma NextRow(content: Content, lines: seq<Line>, width: nat, rows: seq<Row>, i: nat, j: nat)
    requires Wrapped(content, lines, width, rows) && j == i + 1 < |rows|
    ensures Sits(content, lines, width, rows[i]) && Sits(content, lines, width, rows[j])
    ensures Follows(lines, width, rows[i], rows[j])
    ensures rows[i].line < rows[j].line ==>
              rows[i].end == lines[rows[i].line].last && lines[rows[i].line].next == rows[j].first
    ensures rows[i].end <= rows[j].first
  {
    assert Follows(lines, width, rows[i], rows[j]);
    LinesInOrder(content, lines, rows[i].line, rows[j].line);
    if rows[i].line < rows[j].line { assert rows[j].first == StartOf(lines, rows[j].line); }
  }

  // ---------------------------------------------------------------------------------------------
  // Every place of every line is on one row

  predicate Holds(row: Row, n: nat, k: nat, last: nat) {
    row.line == n && row.first <= k <= row.end && (k < last ==> k < row.end)
  }

  lemma {:induction false} SomeRow(content: Content, lines: seq<Line>, width: nat, rows: seq<Row>, n: nat, k: nat,
                                   i: nat)
    returns (found: nat)
    requires Wrapped(content, lines, width, rows) && n < |lines| && lines[n].first <= k <= lines[n].last
    requires i < |rows| && rows[i].line <= n && (rows[i].line == n ==> rows[i].first <= k)
    ensures found < |rows| && Holds(rows[found], n, k, lines[n].last)
    decreases |rows| - i
  {
    assert Sits(content, lines, width, rows[i]);
    if Holds(rows[i], n, k, lines[n].last) {
      found := i;
    } else {
      if i + 1 < |rows| { NextRow(content, lines, width, rows, i, i + 1); }
      found := SomeRow(content, lines, width, rows, n, k, i + 1);
    }
  }

  /**
   * The rows cover every line's text exactly once and in order: a place of the text is on one row, which
   * belongs to its line; rows show no separator; every line, empty ones too, has a row; and a row fits the
   * width or is a single cluster.
   */
  lemma RowsCoverLines(content: Content, lines: seq<Line>, width: nat, rows: seq<Row>)
    requires Wrapped(content, lines, width, rows)
    ensures forall n, k :: 0 <= n < |lines| && lines[n].first <= k < lines[n].last ==> OnOneRow(rows, n, k)
    ensures forall n :: 0 <= n < |lines| ==> HasRow(rows, n)
    ensures forall row :: row in rows ==> RowIsText(content, lines, width, row)
  {
    forall n, k | 0 <= n < |lines| && lines[n].first <= k < lines[n].last
      ensures OnOneRow(rows, n, k)
    {
      var i := SomeRow(content, lines, width, rows, n, k, 0);
      forall j | 0 <= j < |rows| && rows[j].first <= k < rows[j].end
        ensures j == i
      {
        if i < j { RowsInOrder(content, lines, width, rows, i, j); }
        if j < i { RowsInOrder(content, lines, width, rows, j, i); }
      }
    }
    forall n | 0 <= n < |lines|
      ensures HasRow(rows, n)
    {
      LinesInOrder(content, lines, n, n);
      var i := SomeRow(content, lines, width, rows, n, lines[n].first, 0);
      assert rows[i] in rows;
    }
    forall row | row in rows
      ensures RowIsText(content, lines, width, row)
    {
      assert Sits(content, lines, width, row);
      LinesInOrder(content, lines, row.line, row.line);
      if row.first < row.end { RowFits(content, row.first, lines[row.line].last, width, row.end); }
      LineIsText(content, lines, row.line);
    }
  }

  ghost predicate HasRow(rows: seq<Row>, n: nat) { exists row :: row in rows && row.line == n }

  ghost predicate OnOneRow(rows: seq<Row>, n: nat, k: nat) {
    exists i :: && 0 <= i < |rows| && rows[i].line == n && rows[i].first <= k < rows[i].end
                && forall j :: 0 <= j < |rows| && rows[j].first <= k < rows[j].end ==> j == i
  }

  predicate RowIsText(content: Content, lines: seq<Line>, width: nat, row: Row) {
    && row.line < |lines| && lines[row.line].first <= row.first <= row.end <= lines[row.line].last
    && NoSeparator(content, row.first, row.end) && Fits(content, row.first, row.end, width)
  }

  lemma LineIsText(content: Content, lines: seq<Line>, n: nat)
    requires Split(content, lines) && n < |lines|
    ensures NoSeparator(content, lines[n].first, lines[n].last)
  {
    assert lines[n].first == StartOf(lines, n);
  }

  // ---------------------------------------------------------------------------------------------
  // Finding lines and rows by byte

  /** The line a byte belongs to, its separator included; bytes behind the text belong to the last line. */
  predicate LineHas(content: Content, lines: seq<Line>, byte: nat, n: nat) {
    && n < |lines| && lines[n].first <= lines[n].next <= |content| && Offset(content, lines[n].first) <= byte
    && (byte < Offset(content, lines[n].next) || n == |lines| - 1)
  }

  lemma OneLineHas(content: Content, lines: seq<Line>, byte: nat, m: nat, n: nat)
    requires Split(content, lines) && LineHas(content, lines, byte, m) && LineHas(content, lines, byte, n)
    ensures m == n
  {
    var low, high := if m < n then m else n, if m < n then n else m;
    LinesInOrder(content, lines, low, high);
    if low < high { OffsetsGrow(content, lines[low].next, lines[high].first); }
  }

  predicate RowHas(content: Content, row: Row, byte: nat) {
    && row.first <= row.end <= |content|
    && ((row.first == row.end && byte == Offset(content, row.first))
        || Offset(content, row.first) <= byte < Offset(content, row.end))
  }

  /** The first row that holds the byte, or else the last row that starts at or before it. */
  method WrappedRowIndex(content: Content, ghost lines: seq<Line>, ghost width: nat, rows: seq<Row>, byte: nat)
    returns (index: nat)
    requires Wrapped(content, lines, width, rows)
    ensures index < |rows| && LineHas(content, lines, byte, rows[index].line)
    ensures (exists i :: 0 <= i < |rows| && RowHas(content, rows[i], byte)) ==> RowHas(content, rows[index], byte)
    ensures forall i :: 0 <= i < index ==> !RowHas(content, rows[i], byte)
  {
    index := 0;
    while index < |rows|
      invariant index <= |rows| && forall i :: 0 <= i < index ==> !RowHas(content, rows[i], byte)
    {
      assert Sits(content, lines, width, rows[index]);
      if RowHas(content, rows[index], byte) {
        FoundRow(content, lines, width, rows, byte, index);
        return;
      }
      index := index + 1;
    }
    index := |rows| - 1;
    assert rows[0].first == StartOf(lines, 0) && Offset(content, 0) == 0;
    assert Sits(content, lines, width, rows[index]);
    while Offset(content, rows[index].first) > byte
      invariant index < |rows| && rows[index].first <= |content|
      invariant forall i :: index < i < |rows| ==> rows[i].first <= |content| && Offset(content, rows[i].first) > byte
      decreases index
    {
      index := index - 1;
      assert Sits(content, lines, width, rows[index]);
    }
    LastStart(content, lines, width, rows, byte, index);
  }

  lemma FoundRow(content: Content, lines: seq<Line>, width: nat, rows: seq<Row>, byte: nat, i: nat)
    requires Wrapped(content, lines, width, rows) && i < |rows| && RowHas(content, rows[i], byte)
    ensures LineHas(content, lines, byte, rows[i].line)
  {
    var row := rows[i];
    assert Sits(content, lines, width, row);
    var line := lines[row.line];
    LinesInOrder(content, lines, row.line, row.line);
    if row.line < |lines| - 1 { LinesInOrder(content, lines, row.line, row.line + 1); }
    OffsetsGrow(content, line.first, row.first);
    OffsetsGrow(content, row.end, line.last);
    OffsetsGrow(content, line.last, line.next);
  }

  lemma LastStart(content: Content, lines: seq<Line>, width: nat, rows: seq<Row>, byte: nat, i: nat)
    requires Wrapped(content, lines, width, rows) && i < |rows|
    requires forall j :: 0 <= j < |rows| ==> !RowHas(content, rows[j], byte)
    requires rows[i].first <= |content| && Offset(content, rows[i].first) <= byte
    requires i + 1 < |rows| ==> rows[i + 1].first <= |content| && Offset(content, rows[i + 1].first) > byte
    ensures LineHas(content, lines, byte, rows[i].line)
  {
    var row := rows[i];
    assert Sits(content, lines, width, row) && !RowHas(content, row, byte);
    LinesInOrder(content, lines, row.line, row.line);
    OffsetsGrow(content, lines[row.line].first, row.first);
    if i + 1 < |rows| { NextRow(content, lines, width, rows, i, i + 1); }
  }

  datatype Affinity = PreviousRow | NextRow

  /** The end of a row and the start of the next are one byte; the affinity chooses, within the line. */
  method WrappedRowIndexWithAffinity(content: Content, ghost lines: seq<Line>, ghost width: nat, rows: seq<Row>,
                                     byte: nat, affinity: Affinity)
    returns (index: nat)
    requires Wrapped(content, lines, width, rows)
    ensures index < |rows| && LineHas(content, lines, byte, rows[index].line)
    ensures forall i, j :: 0 <= i && j == i + 1 < |rows| && Meet(content, rows[i], rows[j], byte) ==>
              index == if affinity == PreviousRow then i else j
  {
    index := WrappedRowIndex(content, lines, width, rows, byte);
    forall i, j | 0 <= i && j == i + 1 < |rows| && Meet(content, rows[i], rows[j], byte)
      ensures index == j
    {
      MeetingRows(content, lines, width, rows, byte, i, j, index);
    }
    if index > 0 {
      NextRow(content, lines, width, rows, index - 1, index);
      if affinity == PreviousRow && Offset(content, rows[index].first) == byte
         && Offset(content, rows[index - 1].end) == byte
      {
        SameLine(content, lines, width, rows, index - 1, index);
        index := index - 1;
      }
    }
  }

  lemma SameLine(content: Content, lines: seq<Line>, width: nat, rows: seq<Row>, i: nat, j: nat)
    requires Wrapped(content, lines, width, rows) && j == i + 1 < |rows|
    requires rows[i].end <= |content| && rows[j].first <= |content|
    requires Offset(content, rows[i].end) == Offset(content, rows[j].first)
    ensures rows[i].line == rows[j].line && rows[i].end == rows[j].first
  {
    NextRow(content, lines, width, rows, i, j);
    OffsetsGrow(content, rows[i].end, rows[j].first);
    LinesInOrder(content, lines, rows[i].line, rows[j].line);
  }

  predicate Meet(content: Content, row: Row, next: Row, byte: nat) {
    row.end == next.first <= |content| && Offset(content, row.end) == byte
  }

  lemma MeetingRows(content: Content, lines: seq<Line>, width: nat, rows: seq<Row>, byte: nat, i: nat, j: nat,
                    index: nat)
    requires Wrapped(content, lines, width, rows) && j == i + 1 < |rows| && index < |rows|
    requires Meet(content, rows[i], rows[j], byte)
    requires RowHas(content, rows[j], byte) ==> RowHas(content, rows[index], byte)
    requires forall k :: 0 <= k < index ==> !RowHas(content, rows[k], byte)
    ensures index == j
  {
    NextRow(content, lines, width, rows, i, j);
    OffsetsGrow(content, rows[j].first, rows[j].end);
    assert RowHas(content, rows[j], byte);
    if index < j {
      RowsInOrder(content, lines, width, rows, index, j);
      EmptyRowIsLast(content, lines, width, rows, index);
      if index + 1 < j { RowsInOrder(content, lines, width, rows, index + 1, j); }
      OffsetsGrow(content, rows[index].end, rows[j].first);
    }
  }

  /** Only the next line starts behind an empty row. */
  lemma EmptyRowIsLast(content: Content, lines: seq<Line>, width: nat, rows: seq<Row>, i: nat)
    requires Wrapped(content, lines, width, rows) && i + 1 < |rows|
    ensures rows[i].first == rows[i].end ==> rows[i].end < rows[i + 1].first
  {
    NextRow(content, lines, width, rows, i, i + 1);
    LinesInOrder(content, lines, rows[i].line, rows[i + 1].line);
  }

  // ---------------------------------------------------------------------------------------------
  // Bytes and cells of a row

  predicate InText(content: Content, row: Row) { row.first <= row.end <= |content| }

  /** `k` is the cluster that covers the cell, or the end of a row too short for it. */
  predicate Hit(content: Content, row: Row, cell: nat, k: nat)
    requires InText(content, row)
  {
    && row.first <= k <= row.end && Cells(content, row.first, k) <= cell
    && (k < row.end ==> cell < Cells(content, row.first, k + 1))
  }

  method ByteAtCell(content: Content, row: Row, target: nat) returns (k: nat)
    requires InText(content, row)
    ensures Hit(content, row, target, k)
  {
    var cells := 0;
    for i := row.first to row.end
      invariant cells == Cells(content, row.first, i) <= target
    {
      var width := CellWidth(content[i], cells);
      if target < cells + width {
        return i;
      }
      cells := cells + width;
    }
    k := row.end;
  }

  /** Places behind the row count as its end. */
  method CellColumnAtByte(content: Content, row: Row, k: nat) returns (cells: nat)
    requires InText(content, row) && row.first <= k
    ensures cells == Cells(content, row.first, if k < row.end then k else row.end)
  {
    var end := if k < row.end then k else row.end;
    cells := 0;
    for i := row.first to end
      invariant cells == Cells(content, row.first, i)
    {
      cells := cells + CellWidth(content[i], cells);
    }
  }

  lemma CellsOfNext(content: Content, from: nat, k: nat)
    requires from <= k < |content|
    ensures Cells(content, from, k + 1) == Cells(content, from, k) + CellWidth(content[k], Cells(content, from, k))
  {
  }

  /** From a place to its cell and back: the same place exactly if its cluster takes cells, or the row ends there. */
  lemma CellsLeadBack(content: Content, row: Row, k: nat, back: nat)
    requires InText(content, row) && row.first <= k <= row.end
    requires Hit(content, row, Cells(content, row.first, k), back)
    ensures back >= k
    ensures back == k <==> (k == row.end || CellWidth(content[k], Cells(content, row.first, k)) > 0)
  {
    if back < k { CellsGrow(content, row.first, back + 1, k); }
    if k < row.end { CellsOfNext(content, row.first, k); }
    if back > k { CellsGrow(content, row.first, k + 1, back); }
  }

  // ---------------------------------------------------------------------------------------------
  // Bytes and positions

  /** A logical line and a number of clusters in it. */
  datatype Position = Position(line: nat, grapheme: nat)

  function Min(a: nat, b: nat): nat { if a < b then a else b }

  /** The first place of the line's text at or behind the byte: a cluster cut by the byte counts. */
  predicate FirstPlace(content: Content, line: Line, byte: nat, k: nat)
    requires line.last <= |content|
  {
    && line.first <= k <= line.last && Offset(content, k) >= Min(byte, Offset(content, line.last))
    && (k > line.first ==> Offset(content, k - 1) < Min(byte, Offset(content, line.last)))
  }

  predicate PositionIs(content: Content, lines: seq<Line>, byte: nat, position: Position) {
    && LineHas(content, lines, byte, position.line) && lines[position.line].last <= |content|
    && FirstPlace(content, lines[position.line], byte, lines[position.line].first + position.grapheme)
  }

  method PositionForByte(content: Content, byte: nat) returns (position: Position, lines: seq<Line>)
    ensures Split(content, lines) && PositionIs(content, lines, byte, position)
  {
    var all := LogicalLines(content);
    lines := all;
    var n := LineForByte(content, all, Min(byte, Offset(content, |content|)));
    LinesInOrder(content, all, n, n);
    OffsetsGrow(content, all[n].next, |content|);
    OffsetsGrow(content, all[n].last, |content|);
    var end := Min(Min(byte, Offset(content, |content|)), Offset(content, all[n].last));
    var k := all[n].first;
    while k < all[n].last && Offset(content, k) < end
      invariant all[n].first <= k <= all[n].last
      invariant k > all[n].first ==> Offset(content, k - 1) < end
    {
      k := k + 1;
    }
    position := Position(n, k - all[n].first);
  }

  method LineForByte(content: Content, lines: seq<Line>, byte: nat) returns (n: nat)
    requires Split(content, lines)
    ensures LineHas(content, lines, byte, n)
  {
    n := 0;
    assert lines[0].first == StartOf(lines, 0);
    LinesInOrder(content, lines, 0, 0);
    while n + 1 < |lines| && byte >= Offset(content, lines[n].next)
      invariant n < |lines| && lines[n].first <= lines[n].next <= |content|
      invariant Offset(content, lines[n].first) <= byte
      decreases |lines| - n
    {
      LinesInOrder(content, lines, n, n + 1);
      assert lines[n + 1].first == StartOf(lines, n + 1);
      n := n + 1;
    }
  }

  function PlaceOf(lines: seq<Line>, position: Position): nat
    requires lines != []
  {
    var line := lines[Min(position.line, |lines| - 1)];
    if line.first + position.grapheme < line.last then line.first + position.grapheme else line.last
  }

  method ByteForPosition(content: Content, position: Position) returns (byte: nat, lines: seq<Line>)
    ensures Split(content, lines) && PlaceOf(lines, position) <= |content|
    ensures byte == Offset(content, PlaceOf(lines, position))
  {
    var all := LogicalLines(content);
    lines := all;
    LinesInOrder(content, all, Min(position.line, |all| - 1), Min(position.line, |all| - 1));
    byte := Offset(content, PlaceOf(all, position));
  }

  lemma OneFirstPlace(content: Content, line: Line, byte: nat, i: nat, j: nat)
    requires line.last <= |content| && FirstPlace(content, line, byte, i) && FirstPlace(content, line, byte, j)
    ensures i == j
  {
    if i < j { OffsetsGrow(content, i, j - 1); }
    if j < i { OffsetsGrow(content, j, i - 1); }
  }

  /** From a place to its position and back: the same place, or the end of the text for one in a separator. */
  lemma PositionsLeadBack(content: Content, lines: seq<Line>, k: nat, position: Position)
    requires Split(content, lines) && k <= |content|
    requires PositionIs(content, lines, Offset(content, k), position)
    ensures PlaceOf(lines, position) == Min(k, lines[position.line].last)
  {
    var line := lines[position.line];
    LinesInOrder(content, lines, position.line, position.line);
    if k < line.first { OffsetsGrow(content, k, line.first); }
    ClampedIsFirst(content, line, k);
    OneFirstPlace(content, line, Offset(content, k), Min(k, line.last), line.first + position.grapheme);
  }

  lemma ClampedIsFirst(content: Content, line: Line, k: nat)
    requires line.first <= line.last <= |content| && line.first <= k <= |content|
    ensures FirstPlace(content, line, Offset(content, k), Min(k, line.last))
  {
    OffsetsGrow(content, Min(k, line.last), k);
    OffsetsGrow(content, Min(k, line.last), line.last);
    if k > line.first && line.last > line.first { OffsetsGrow(content, Min(k, line.last) - 1, Min(k, line.last)); }
  }

  /** From a position to its byte and back: the same position, cut down to the lines and clusters there are. */
  lemma PlacesLeadBack(content: Content, lines: seq<Line>, position: Position, back: Position)
    requires Split(content, lines) && PlaceOf(lines, position) <= |content|
    requires PositionIs(content, lines, Offset(content, PlaceOf(lines, position)), back)
    ensures back.line == Min(position.line, |lines| - 1)
    ensures back.grapheme == Min(position.grapheme, lines[back.line].last - lines[back.line].first)
  {
    var n, k := Min(position.line, |lines| - 1), PlaceOf(lines, position);
    LinesInOrder(content, lines, n, n);
    OffsetsGrow(content, lines[n].first, k);
    OffsetsGrow(content, k, lines[n].next);
    if n < |lines| - 1 { LinesInOrder(content, lines, n, n + 1); }
    OneLineHas(content, lines, Offset(content, k), n, back.line);
    PositionsLeadBack(content, lines, k, back);
  }

  // ---------------------------------------------------------------------------------------------
  // Row lookup and positions agree

  /** Places before a closed line's separator character, and the place itself. */
  lemma FirstSeparator(content: Content, lines: seq<Line>, i: nat)
    requires Split(content, lines) && i < |lines|
    ensures lines[i].first == StartOf(lines, i)
    ensures i < |lines| - 1 ==> Separator(content, lines[i]) && NoSeparator(content, lines[i].first, lines[i].next - 1)
    ensures i == |lines| - 1 ==> NoSeparator(content, lines[i].first, |content|)
  {
    assert lines[i].first == StartOf(lines, i);
    if i < |lines| - 1 { assert Separator(content, lines[i]); }
  }

  lemma {:induction false} SameLines(content: Content, a: seq<Line>, b: seq<Line>, i: nat)
    requires Split(content, a) && Split(content, b) && i <= |a| && i <= |b|
    ensures a[..i] == b[..i]
    ensures i < |a| && i < |b| ==> (i == |a| - 1 <==> i == |b| - 1) && a[i] == b[i]
  {
    if i > 0 {
      SameLines(content, a, b, i - 1);
      assert a[..i] == a[..i - 1] + [a[i - 1]] && b[..i] == b[..i - 1] + [b[i - 1]];
    }
    if i < |a| && i < |b| {
      FirstSeparator(content, a, i);
      FirstSeparator(content, b, i);
      assert StartOf(a, i) == StartOf(b, i);
    }
  }

  /** A text has one split into lines. */
  lemma LinesAreUnique(content: Content, a: seq<Line>, b: seq<Line>)
    requires Split(content, a) && Split(content, b)
    ensures a == b
  {
    var n := Min(|a|, |b|);
    SameLines(content, a, b, n - 1);
    SameLines(content, a, b, n);
    assert a[..n] == b[..n] && a == a[..|a|] && b == b[..|b|];
  }

  /** The row found for a byte, with either affinity, is on the line that the byte's position names. */
  method RowOnPositionLine(content: Content, requested: nat, byte: nat, affinity: Affinity)
    returns (rows: seq<Row>, index: nat, position: Position)
    ensures index < |rows| && rows[index].line == position.line
  {
    var all, lines;
    rows, all := WrapRows(content, requested);
    index := WrappedRowIndexWithAffinity(content, all, if requested == 0 then 1 else requested, rows, byte, affinity);
    position, lines := PositionForByte(content, byte);
    LinesAreUnique(content, all, lines);
    OneLineHas(content, all, byte, rows[index].line, position.line);
  }
}
