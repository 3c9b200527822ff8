/** Rendering tables and splitting oversized ones at row, then cell, boundaries. */
module Tables {
  import opened Wrappers
  import opened Grouping
  import opened Text
  import opened Tokens

  type Row = seq<string>

  const CELL_SEPARATOR: string := " | "

  function RenderRow(row: Row): string
  {
    Join(row, CELL_SEPARATOR)
  }

  function Lines(rows: seq<Row>): seq<string>
  {
    if rows == [] then [] else Lines(rows[..|rows| - 1]) + [RenderRow(rows[|rows| - 1])]
  }

  function RenderRows(rows: seq<Row>): string
  {
    Join(Lines(rows), "\n")
  }

  function RenderTable(rows: seq<Row>, caption: Option<string>): string
  {
    var body := RenderRows(rows);
    if caption.None? || caption.value == [] then body
    else if body == [] then caption.value
    else caption.value + "\n\n" + body
  }

  function NonEmptyParts(parts: seq<string>): seq<string>
  {
    if parts == [] then []
    else NonEmptyParts(parts[..|parts| - 1]) + if parts[|parts| - 1] == [] then [] else [parts[|parts| - 1]]
  }

  function Joined(parts: seq<string>): string
  {
    Join(NonEmptyParts(parts), "\n\n")
  }

  // ---- token counts of the two renderings -----------------------------------------------

  function RowWeight(tok: Tokenizer): Row -> nat
  {
    (row: Row) => tok.Count(RenderRow(row))
  }

  lemma {:induction false} CountOfLines(tok: Tokenizer, rows: seq<Row>)
    ensures Sum(Weight(tok), Lines(rows)) == Sum(RowWeight(tok), rows)
    decreases |rows|
  {
    if rows != [] {
      CountOfLines(tok, rows[..|rows| - 1]);
      SumSnoc(Weight(tok), Lines(rows[..|rows| - 1]), RenderRow(rows[|rows| - 1]));
    }
  }

  lemma CountOfRows(tok: Tokenizer, rows: seq<Row>)
    ensures tok.Count(RenderRows(rows)) == Sum(RowWeight(tok), rows)
  {
    CountOfJoin(tok, Lines(rows), "\n");
    CountOfLines(tok, rows);
  }

  lemma {:induction false} CountOfNonEmpty(tok: Tokenizer, parts: seq<string>)
    ensures Sum(Weight(tok), NonEmptyParts(parts)) == Sum(Weight(tok), parts)
    decreases |parts|
  {
    if parts != [] {
      var front, last := NonEmptyParts(parts[..|parts| - 1]), parts[|parts| - 1];
      CountOfNonEmpty(tok, parts[..|parts| - 1]);
      SumSnoc(Weight(tok), front, last);
      assert front + [] == front;
    }
  }

  lemma CountOfJoined(tok: Tokenizer, parts: seq<string>)
    ensures tok.Count(Joined(parts)) == Sum(Weight(tok), parts)
  {
    CountOfJoin(tok, NonEmptyParts(parts), "\n\n");
    CountOfNonEmpty(tok, parts);
  }

  lemma CountOfThree(tok: Tokenizer, a: string, b: string, c: string)
    ensures tok.Count(Joined([a, b, c])) == tok.Count(a) + tok.Count(b) + tok.Count(c)
  {
    CountOfJoined(tok, [a, b, c]);
    SumThree(Weight(tok), a, b, c);
  }

  /** What is repeated in front of every group of data rows. */
  function Overhead(tok: Tokenizer, header: seq<Row>, caption: string): nat
  {
    tok.Count(caption) + Sum(RowWeight(tok), header)
  }

  lemma CountOfTable(tok: Tokenizer, rows: seq<Row>, caption: Option<string>)
    ensures tok.Count(RenderTable(rows, caption))
      == (if caption.Some? then tok.Count(caption.value) else 0) + Sum(RowWeight(tok), rows)
  {
    CountOfRows(tok, rows);
    if caption.Some? && caption.value != [] && RenderRows(rows) != [] {
      CountAcross(tok, caption.value, "\n\n", RenderRows(rows));
    }
  }

  /** The text a group is measured with and the text its chunk carries differ,
      but they have the same number of tokens. */
  lemma BothRenderingsCountTheSame(
    tok: Tokenizer, header: seq<Row>, group: seq<Row>, caption: string, shown: Option<string>)
    requires shown == Some(caption) || (shown == None && caption == [])
    ensures tok.Count(Joined([caption, RenderRows(header), RenderRows(group)]))
      == tok.Count(RenderTable(header + group, shown))
      == Overhead(tok, header, caption) + Sum(RowWeight(tok), group)
  {
    CountOfThree(tok, caption, RenderRows(header), RenderRows(group));
    CountOfRows(tok, header);
    CountOfRows(tok, group);
    CountOfTable(tok, header + group, shown);
    SumAppend(RowWeight(tok), header, group);
  }

  // ---- data rows ---------------------------------------------------------------------------

  lemma MeasuredCount(tok: Tokenizer, header: seq<Row>, group: seq<Row>, caption: string)
    ensures tok.Count(Joined([caption, RenderRows(header), RenderRows(group)]))
      == Overhead(tok, header, caption) + Sum(RowWeight(tok), group)
  {
    BothRenderingsCountTheSame(tok, header, group, caption, Some(caption));
  }

  /** Groups the data rows greedily under the repeated header; an oversized row stays alone. */
  method SplitDataRows(tok: Tokenizer, data: seq<Row>, header: seq<Row>, maxTokens: int, caption: string)
    returns (groups: seq<seq<Row>>)
    ensures IsPacking(RowWeight(tok), groups, data, maxTokens - Overhead(tok, header, caption))
  {
    groups := [];
    var current: seq<Row> := [];
    ghost var weight, budget := RowWeight(tok), maxTokens - Overhead(tok, header, caption);
    for i := 0 to |data|
      invariant Filling(weight, groups, current, data[..i], budget)
    {
      assert data[..i + 1] == data[..i] + [data[i]];
      MeasuredCount(tok, header, current + [data[i]], caption);
      SumSnoc(weight, current, data[i]);
      if current != [] &&
         tok.Count(Joined([caption, RenderRows(header), RenderRows(current + [data[i]])])) > maxTokens {
        StartGroup(weight, groups, current, data[..i], budget, data[i]);
        groups, current := groups + [current], [data[i]];
      } else {
        FillGroup(weight, groups, current, data[..i], budget, data[i]);
        current := current + [data[i]];
      }
    }
    assert data[..|data|] == data;
    if current != [] {
      groups := groups + [current];
    }
  }

  // ---- cells of one row ------------------------------------------------------------------------

  /** A segment of a row: the sliced header and the data cells. */
  datatype Segment = Segment(header: seq<Row>, cells: Row)

  /** What a row is measured with: the repeated header, the budget and the caption. */
  datatype Layout = Layout(tok: Tokenizer, header: seq<Row>, maxTokens: int, caption: string)
  {
    function Header(a: nat, b: nat): seq<Row>
    {
      seq(|header|, i requires 0 <= i < |header| => SliceRow(header[i], a, b))
    }

    /** Columns `a` to `b` of the row fit under the repeated header. */
    predicate Fits(row: Row, a: nat, b: nat)
    {
      tok.Count(Joined([caption, RenderRows(Header(a, b)), RenderRows([SliceRow(row, a, b)])])) <= maxTokens
    }

    /** What is left for a cell that does not fit under its own header. */
    function CellBudget(a: nat): (n: nat)
      ensures n > 0
    {
      var overhead := tok.Count(Joined([caption, RenderRows(Header(a, a + 1))]));
      if maxTokens - overhead > 1 then maxTokens - overhead else 1
    }
  }

  /** Columns `a` to `b`; a missing cell is empty. */
  function SliceRow(row: Row, a: nat, b: nat): (r: Row)
    ensures |r| == if a < b then b - a else 0
    ensures forall c :: 0 <= c < |r| ==> r[c] == if a + c < |row| then row[a + c] else []
    decreases b - a
  {
    if a >= b then [] else [if a < |row| then row[a] else []] + SliceRow(row, a + 1, b)
  }

  function Fragments(header: seq<Row>, pieces: seq<string>): seq<Segment>
  {
    if pieces == [] then [] else Fragments(header, pieces[..|pieces| - 1]) + [Segment(header, [pieces[|pieces| - 1]])]
  }

  /** How a row is measured and cut: whether columns fit together, the segment
      of columns that do, and the fragments of a column that does not fit alone. */
  datatype Cutter = Cutter(fits: (nat, nat) -> bool, whole: (nat, nat) -> Segment, cut: nat -> seq<Segment>)
  {
    /** The segments of one range of columns. */
    function SegmentsOf(r: Range): seq<Segment>
    {
      if fits(r.0, r.0 + 1) then [whole(r.0, r.1)] else cut(r.0)
    }

    function All(ranges: seq<Range>): seq<Segment>
    {
      if ranges == [] then [] else All(ranges[..|ranges| - 1]) + SegmentsOf(ranges[|ranges| - 1])
    }

    /** A range that fits and could not be longer, or a single overflowing column. */
    ghost predicate GoodRange(n: nat, r: Range)
    {
      if fits(r.0, r.0 + 1) then fits(r.0, r.1) && (r.1 < n ==> !fits(r.0, r.1 + 1)) else r.1 == r.0 + 1
    }

    /** The ranges cover the columns `0` to `end` in order. */
    ghost predicate GoodRanges(n: nat, ranges: seq<Range>, end: nat)
    {
      Tiles(ranges, 0, end) && forall k :: 0 <= k < |ranges| ==> GoodRange(n, ranges[k])
    }
  }

  type Positive = n: nat | n > 0 witness 1

  /** A row under a layout: which of its columns fit together, their headers, and
      the budget of a column that does not fit alone. */
  datatype RowView = RowView(
    tok: Tokenizer, row: Row, fits: (nat, nat) -> bool, header: (nat, nat) -> seq<Row>, budget: nat -> Positive)
  {
    function PiecesOf(a: nat): seq<string>
    {
      Pieces(tok, if a < |row| then row[a] else [], budget(a))
    }

    function FragmentsOf(a: nat): seq<Segment>
    {
      Fragments(header(a, a + 1), PiecesOf(a))
    }

    function AsCutter(): Cutter
    {
      Cutter(fits, (a: nat, b: nat) => Segment(header(a, b), SliceRow(row, a, b)),
             (a: nat) => FragmentsOf(a))
    }
  }

  function ViewOf(l: Layout, row: Row): RowView
  {
    RowView(l.tok, row, (a: nat, b: nat) => l.Fits(row, a, b), (a: nat, b: nat) => l.Header(a, b),
            (a: nat) => l.CellBudget(a))
  }

  /** The cutter of one row under a layout. */
  function RowCutter(l: Layout, row: Row): Cutter
  {
    ViewOf(l, row).AsCutter()
  }

  lemma OneMoreColumnRange(c: Cutter, n: nat, ranges: seq<Range>, i: nat, j: nat)
    requires c.GoodRanges(n, ranges, i) && i < j && c.GoodRange(n, (i, j))
    ensures c.GoodRanges(n, ranges + [(i, j)], j)
    ensures c.All(ranges + [(i, j)]) == c.All(ranges) + c.SegmentsOf((i, j))
  {
    assert (ranges + [(i, j)])[..|ranges|] == ranges;
  }

  /** The longest range of columns from `i` on that fits. */
  method ExtendRange(c: Cutter, n: nat, i: nat) returns (j: nat)
    requires i < n && c.fits(i, i + 1)
    ensures i < j <= n && c.GoodRange(n, (i, j))
  {
    j := i + 1;
    while j < n && c.fits(i, j + 1)
      invariant i < j <= n && c.fits(i, j)
    {
      j := j + 1;
    }
  }

  /** Cuts `n` columns into segments; the columns appear in order and each in one range. */
  method CutColumns(c: Cutter, n: nat) returns (segments: seq<Segment>, ghost ranges: seq<Range>)
    ensures c.GoodRanges(n, ranges, n) && segments == c.All(ranges)
  {
    segments, ranges := [], [];
    var i := 0;
    while i < n
      invariant i <= n && c.GoodRanges(n, ranges, i) && segments == c.All(ranges)
      decreases n - i
    {
      var j := i + 1;
      var more := c.cut(i);
      if c.fits(i, i + 1) {
        j := ExtendRange(c, n, i);
        more := [c.whole(i, j)];
      }
      OneMoreColumnRange(c, n, ranges, i, j);
      segments, ranges, i := segments + more, ranges + [(i, j)], j;
    }
  }

  // ---- what the segments of a row show -------------------------------------------------------

  lemma MeasuredColumns(l: Layout, row: Row, a: nat, b: nat)
    ensures l.Fits(row, a, b) <==>
      Overhead(l.tok, l.Header(a, b), l.caption) + l.tok.Count(RenderRow(SliceRow(row, a, b))) <= l.maxTokens
  {
    MeasuredCount(l.tok, l.Header(a, b), [SliceRow(row, a, b)], l.caption);
    SumOne(RowWeight(l.tok), SliceRow(row, a, b));
  }

  /** A joined row has at least the tokens of each of its cells. */
  lemma {:induction false} CellWeighsLess(tok: Tokenizer, cells: seq<string>, k: nat)
    requires k < |cells|
    ensures tok.Count(cells[k]) <= tok.Count(Join(cells, CELL_SEPARATOR))
    decreases |cells|
  {
    if |cells| > 1 {
      var front, last := Join(cells[..|cells| - 1], CELL_SEPARATOR), cells[|cells| - 1];
      assert front + CELL_SEPARATOR + last == front + " " + ("|" + " " + last);
      CountAcross(tok, front, " ", "|" + " " + last);
      CountAcross(tok, "|", " ", last);
      if k < |cells| - 1 { CellWeighsLess(tok, cells[..|cells| - 1], k); }
    }
  }

  lemma FewerColumnsWeighLess(tok: Tokenizer, row: Row, a: nat, b: nat, col: nat)
    requires a <= col < b
    ensures tok.Count(RenderRow(SliceRow(row, col, col + 1))) <= tok.Count(RenderRow(SliceRow(row, a, b)))
  {
    var one, all := SliceRow(row, col, col + 1), SliceRow(row, a, b);
    assert one == [all[col - a]];
    CellWeighsLess(tok, all, col - a);
  }

  /** Columns that fit together fit alone. */
  lemma FitsAlone(l: Layout, row: Row, a: nat, b: nat, col: nat)
    requires a <= col < b && l.Fits(row, a, b)
    ensures l.Fits(row, col, col + 1)
  {
    MeasuredColumns(l, row, a, b);
    MeasuredColumns(l, row, col, col + 1);
    FewerColumnsWeighLess(l.tok, row, a, b, col);
    forall k | 0 <= k < |l.header|
      ensures RowWeight(l.tok)(l.Header(col, col + 1)[k]) <= RowWeight(l.tok)(l.Header(a, b)[k])
    {
      FewerColumnsWeighLess(l.tok, l.header[k], a, b, col);
    }
    SumIsMonotone(RowWeight(l.tok), l.Header(col, col + 1), l.Header(a, b));
  }

  /** Segments come in column order; only those of a cut column share a column. */
  ghost predicate InColumnOrder(fits: (nat, nat) -> bool, shown: seq<Range>)
  {
    forall j, k :: 0 <= j < k < |shown| ==>
      shown[j].1 <= shown[k].0 || (shown[j] == shown[k] && !fits(shown[j].0, shown[j].1))
  }

  /** The segments `from` to `to` and no others show column `col`: a single one
      if it fits alone, otherwise what it is cut into. */
  ghost predicate ColumnAt(c: Cutter, segments: seq<Segment>, shown: seq<Range>, col: nat, from: nat, to: nat)
  {
    && from <= to <= |segments|
    && (forall k :: 0 <= k < |shown| ==> (shown[k].0 <= col < shown[k].1 <==> from <= k < to))
    && if c.fits(col, col + 1) then to == from + 1 else segments[from..to] == c.cut(col)
  }

  ghost predicate ColumnShown(c: Cutter, segments: seq<Segment>, shown: seq<Range>, col: nat)
  {
    exists from: nat, to: nat :: ColumnAt(c, segments, shown, col, from, to)
  }

  /** Segment `k` shows the columns `shown[k]`: all of them, or some of a single one that is cut. */
  ghost predicate SegmentShows(c: Cutter, s: Segment, r: Range)
  {
    r.0 < r.1 && if c.fits(r.0, r.1) then s == c.whole(r.0, r.1) else r.1 == r.0 + 1 && s in c.cut(r.0)
  }

  /** The first `end` columns are shown in order. */
  ghost predicate ColumnsShown(c: Cutter, segments: seq<Segment>, shown: seq<Range>, end: nat)
  {
    && |shown| == |segments|
    && (forall k :: 0 <= k < |segments| ==> SegmentShows(c, segments[k], shown[k]) && shown[k].1 <= end)
    && InColumnOrder(c.fits, shown)
    && (forall col :: 0 <= col < end ==> ColumnShown(c, segments, shown, col))
  }

  /** Columns that fit together fit alone. */
  ghost predicate FitAlone(fits: (nat, nat) -> bool)
  {
    forall a: nat, b: nat, col: nat, next: nat :: a <= col < b && next == col + 1 && fits(a, b) ==> fits(col, next)
  }

  lemma ColumnStaysShown(
    c: Cutter, segments: seq<Segment>, shown: seq<Range>, more: seq<Segment>, also: seq<Range>, col: nat)
    requires |shown| == |segments| && |more| == |also| && ColumnShown(c, segments, shown, col)
    requires forall k :: 0 <= k < |also| ==> col < also[k].0
    ensures ColumnShown(c, segments + more, shown + also, col)
  {
    var from: nat, to: nat :| ColumnAt(c, segments, shown, col, from, to);
    assert (segments + more)[from..to] == segments[from..to];
    assert ColumnAt(c, segments + more, shown + also, col, from, to);
  }

  lemma NewColumnShown(
    c: Cutter, segments: seq<Segment>, shown: seq<Range>, more: seq<Segment>, also: seq<Range>, r: Range, col: nat)
    requires |shown| == |segments| && forall k :: 0 <= k < |shown| ==> shown[k].1 <= r.0
    requires |also| == |more| && forall k :: 0 <= k < |also| ==> also[k] == r
    requires r.0 <= col < r.1 && if c.fits(col, col + 1) then |more| == 1 else more == c.cut(col)
    ensures ColumnShown(c, segments + more, shown + also, col)
  {
    assert (segments + more)[|segments|..|segments| + |more|] == more;
    assert ColumnAt(c, segments + more, shown + also, col, |segments|, |segments| + |more|);
  }

  /** One more range of columns. */
  lemma OneMoreShown(
    c: Cutter, n: nat, segments: seq<Segment>, shown: seq<Range>, r: Range, more: seq<Segment>, also: seq<Range>)
    requires FitAlone(c.fits) && ColumnsShown(c, segments, shown, r.0)
    requires r.0 < r.1 && c.GoodRange(n, r) && more == c.SegmentsOf(r)
    requires |also| == |more| && forall k :: 0 <= k < |also| ==> also[k] == r
    ensures ColumnsShown(c, segments + more, shown + also, r.1)
  {
    forall col | 0 <= col < r.1
      ensures ColumnShown(c, segments + more, shown + also, col)
    {
      if col < r.0 {
        ColumnStaysShown(c, segments, shown, more, also, col);
      } else {
        NewColumnShown(c, segments, shown, more, also, r, col);
      }
    }
  }

  lemma FrontIsGood(c: Cutter, n: nat, ranges: seq<Range>, end: nat)
    requires ranges != [] && c.GoodRanges(n, ranges, end)
    ensures c.GoodRanges(n, ranges[..|ranges| - 1], ranges[|ranges| - 1].0)
    ensures c.GoodRange(n, ranges[|ranges| - 1])
    ensures ranges[|ranges| - 1].0 < ranges[|ranges| - 1].1 == end
  {
    var front, last := ranges[..|ranges| - 1], ranges[|ranges| - 1];
    forall k | 0 <= k < |front|
      ensures front[k].1 <= last.0
    {
      RangesAscend(ranges, 0, end, k, |ranges| - 1);
    }
    if front != [] {
      assert ranges[|front| - 1].1 == ranges[|front| - 1 + 1].0;
    }
  }

  /** The segments of good ranges show every column they cover. */
  lemma {:induction false} RangesShow(c: Cutter, n: nat, ranges: seq<Range>, end: nat) returns (shown: seq<Range>)
    requires FitAlone(c.fits) && c.GoodRanges(n, ranges, end)
    ensures ColumnsShown(c, c.All(ranges), shown, end)
    ensures forall k :: 0 <= k < |shown| ==> c.GoodRange(n, shown[k])
    decreases |ranges|
  {
    shown := [];
    if ranges != [] {
      var front, last := ranges[..|ranges| - 1], ranges[|ranges| - 1];
      FrontIsGood(c, n, ranges, end);
      shown := RangesShow(c, n, front, last.0);
      var also := seq(|c.SegmentsOf(last)|, k => last);
      OneMoreShown(c, n, c.All(front), shown, last, c.SegmentsOf(last), also);
      shown := shown + also;
    }
  }

  /** The segment shows the columns `r` under their headers: their cells, and no
      further one would have fitted; or a piece of one column that does not fit alone. */
  ghost predicate ShowsColumns(v: RowView, s: Segment, r: Range)
  {
    && r.0 < r.1 <= |v.row| && s.header == v.header(r.0, r.1)
    && if v.fits(r.0, r.1) then s.cells == v.row[r.0..r.1] && (r.1 < |v.row| ==> !v.fits(r.0, r.1 + 1))
       else r.1 == r.0 + 1 && |s.cells| == 1
  }

  function OnlyCells(segments: seq<Segment>): (r: seq<string>)
    ensures |r| == |segments|
  {
    seq(|segments|, k requires 0 <= k < |segments| => if segments[k].cells == [] then [] else segments[k].cells[0])
  }

  /** The segments `from` to `to` and no others show column `col`: if it fits
      alone its cell is in a single one, otherwise they hold the pieces of its cell. */
  ghost predicate CellAt(v: RowView, segments: seq<Segment>, shown: seq<Range>, col: nat, from: nat, to: nat)
  {
    && col < |v.row| && from <= to <= |segments| && |shown| == |segments|
    && (forall k :: 0 <= k < |shown| ==> (shown[k].0 <= col < shown[k].1 <==> from <= k < to))
    && if v.fits(col, col + 1) then
         to == from + 1 && 0 <= col - shown[from].0 < |segments[from].cells| &&
         segments[from].cells[col - shown[from].0] == v.row[col]
       else ShowText(v.tok, v.row[col], v.budget(col), OnlyCells(segments[from..to]))
  }

  ghost predicate CellShown(v: RowView, segments: seq<Segment>, shown: seq<Range>, col: nat)
  {
    exists from: nat, to: nat :: CellAt(v, segments, shown, col, from, to)
  }

  /** What the segments of a row are: segment `k` shows the columns `shown[k]`,
      the columns come in order, and every cell of the row is shown. */
  ghost predicate IsRowCut(v: RowView, segments: seq<Segment>, shown: seq<Range>)
  {
    && |shown| == |segments|
    && (forall k :: 0 <= k < |segments| ==> ShowsColumns(v, segments[k], shown[k]))
    && InColumnOrder(v.fits, shown)
    && (forall col :: 0 <= col < |v.row| ==> CellShown(v, segments, shown, col))
  }

  lemma ColumnsFitAlone(l: Layout, row: Row)
    ensures FitAlone(ViewOf(l, row).fits)
  {
    forall a: nat, b: nat, col: nat, next: nat | a <= col < b && next == col + 1 && ViewOf(l, row).fits(a, b)
      ensures ViewOf(l, row).fits(col, next)
    {
      FitsAlone(l, row, a, b, col);
    }
  }

  lemma {:induction false} FragmentsShow(header: seq<Row>, pieces: seq<string>)
    ensures |Fragments(header, pieces)| == |pieces|
    ensures forall k :: 0 <= k < |pieces| ==> Fragments(header, pieces)[k] == Segment(header, [pieces[k]])
    decreases |pieces|
  {
    if pieces != [] {
      FragmentsShow(header, pieces[..|pieces| - 1]);
    }
  }

  lemma OnlyCellsOfFragments(header: seq<Row>, pieces: seq<string>)
    ensures OnlyCells(Fragments(header, pieces)) == pieces
  {
    FragmentsShow(header, pieces);
  }

  /** `c` cuts the row as the view says. */
  ghost predicate Cuts(c: Cutter, v: RowView)
  {
    && c.fits == v.fits
    && (forall a: nat, b: nat :: c.whole(a, b) == Segment(v.header(a, b), SliceRow(v.row, a, b)))
    && (forall a: nat :: c.cut(a) == v.FragmentsOf(a))
  }

  lemma CutterCuts(v: RowView)
    ensures Cuts(v.AsCutter(), v)
  {
    var c := v.AsCutter();
    forall a: nat, b: nat
      ensures c.whole(a, b) == Segment(v.header(a, b), SliceRow(v.row, a, b))
    {
    }
    forall a: nat
      ensures c.cut(a) == v.FragmentsOf(a)
    {
    }
  }

  lemma FragmentOfRow(v: RowView, s: Segment, a: nat)
    requires a < |v.row| && !v.fits(a, a + 1) && s in v.FragmentsOf(a)
    ensures ShowsColumns(v, s, (a, a + 1))
  {
    FragmentsShow(v.header(a, a + 1), v.PiecesOf(a));
  }

  lemma WholeOfRow(v: RowView, a: nat, b: nat)
    requires a < b <= |v.row| && v.fits(a, b) && (b < |v.row| ==> !v.fits(a, b + 1))
    ensures ShowsColumns(v, Segment(v.header(a, b), SliceRow(v.row, a, b)), (a, b))
  {
    assert SliceRow(v.row, a, b) == v.row[a..b];
  }

  lemma SegmentOfRow(v: RowView, c: Cutter, s: Segment, r: Range)
    requires Cuts(c, v) && r.1 <= |v.row| && SegmentShows(c, s, r) && c.GoodRange(|v.row|, r)
    requires c.fits(r.0, r.1) ==> c.fits(r.0, r.0 + 1)
    ensures ShowsColumns(v, s, r)
  {
    if c.fits(r.0, r.1) {
      WholeOfRow(v, r.0, r.1);
    } else {
      FragmentOfRow(v, s, r.0);
    }
  }

  lemma CutCell(v: RowView, c: Cutter, col: nat)
    requires Cuts(c, v) && col < |v.row|
    ensures ShowText(v.tok, v.row[col], v.budget(col), OnlyCells(c.cut(col)))
  {
    var pieces := Pieces(v.tok, v.row[col], v.budget(col));
    OnlyCellsOfFragments(v.header(col, col + 1), pieces);
    assert c.cut(col) == v.FragmentsOf(col);
    PiecesShowText(v.tok, v.row[col], v.budget(col), pieces);
  }

  lemma CellOfSegment(v: RowView, s: Segment, r: Range, col: nat)
    requires ShowsColumns(v, s, r) && r.0 <= col < r.1 && v.fits(col, col + 1)
    ensures 0 <= col - r.0 < |s.cells| && s.cells[col - r.0] == v.row[col]
  {
  }

  lemma WholeCellAt(
    v: RowView, c: Cutter, segments: seq<Segment>, shown: seq<Range>, col: nat, from: nat, to: nat)
    requires c.fits == v.fits && col < |v.row| && |shown| == |segments| && ColumnAt(c, segments, shown, col, from, to)
    requires c.fits(col, col + 1) && (from < |segments| ==> ShowsColumns(v, segments[from], shown[from]))
    ensures CellAt(v, segments, shown, col, from, to)
  {
    CellOfSegment(v, segments[from], shown[from], col);
  }

  lemma CutCellAt(
    v: RowView, c: Cutter, segments: seq<Segment>, shown: seq<Range>, col: nat, from: nat, to: nat)
    requires c.fits == v.fits && col < |v.row| && |shown| == |segments| && ColumnAt(c, segments, shown, col, from, to)
    requires !c.fits(col, col + 1) && ShowText(v.tok, v.row[col], v.budget(col), OnlyCells(c.cut(col)))
    ensures CellAt(v, segments, shown, col, from, to)
  {
    assert segments[from..to] == c.cut(col);
  }

  lemma CellOfRow(v: RowView, c: Cutter, segments: seq<Segment>, shown: seq<Range>, col: nat)
    requires c.fits == v.fits && col < |v.row| && |shown| == |segments| && ColumnShown(c, segments, shown, col)
    requires ShowText(v.tok, v.row[col], v.budget(col), OnlyCells(c.cut(col)))
    requires forall k :: 0 <= k < |segments| ==> ShowsColumns(v, segments[k], shown[k])
    ensures CellShown(v, segments, shown, col)
  {
    var from: nat, to: nat :| ColumnAt(c, segments, shown, col, from, to);
    if c.fits(col, col + 1) {
      WholeCellAt(v, c, segments, shown, col, from, to);
    } else {
      CutCellAt(v, c, segments, shown, col, from, to);
    }
  }

  lemma RowIsCut(v: RowView, c: Cutter, ranges: seq<Range>) returns (shown: seq<Range>)
    requires Cuts(c, v) && FitAlone(v.fits) && c.GoodRanges(|v.row|, ranges, |v.row|)
    ensures IsRowCut(v, c.All(ranges), shown)
  {
    shown := RangesShow(c, |v.row|, ranges, |v.row|);
    forall k | 0 <= k < |shown|
      ensures ShowsColumns(v, c.All(ranges)[k], shown[k])
    {
      assert SegmentShows(c, c.All(ranges)[k], shown[k]) && c.GoodRange(|v.row|, shown[k]);
      SegmentOfRow(v, c, c.All(ranges)[k], shown[k]);
    }
    forall col | 0 <= col < |v.row|
      ensures CellShown(v, c.All(ranges), shown, col)
    {
      CutCell(v, c, col);
      CellOfRow(v, c, c.All(ranges), shown, col);
    }
  }

  /** A column is in no segment exactly if it does not fit alone and has no text to show. */
  lemma ColumnWithoutSegmentIff(v: RowView, segments: seq<Segment>, shown: seq<Range>, col: nat)
    requires IsRowCut(v, segments, shown) && col < |v.row|
    ensures (forall k :: 0 <= k < |shown| ==> !(shown[k].0 <= col < shown[k].1))
      <==> (!v.fits(col, col + 1) && HasNoPiece(v.tok, v.row[col], v.budget(col)))
  {
    assert CellShown(v, segments, shown, col);
    var from: nat, to: nat :| CellAt(v, segments, shown, col, from, to);
    NoPieceIff(v.tok, v.row[col], v.budget(col));
    if from < to {
      assert shown[from].0 <= col < shown[from].1;
    }
    if !v.fits(col, col + 1) {
      PiecesShowText(v.tok, v.row[col], v.budget(col), OnlyCells(segments[from..to]));
    }
  }

  /** The segments cut the row; those of a row without cells are a single empty one. */
  ghost predicate IsSegmentation(l: Layout, row: Row, segments: seq<Segment>)
  {
    if row == [] then segments == [Segment([], [])]
    else exists shown :: IsRowCut(ViewOf(l, row), segments, shown)
  }

  /** Splits one oversized row at cell boundaries, repeating the sliced header
      on every segment and slicing a single overflowing cell. */
  method SegmentOversizedRow(l: Layout, row: Row) returns (segments: seq<Segment>, ghost ranges: seq<Range>)
    ensures row != [] ==> RowCutter(l, row).GoodRanges(|row|, ranges, |row|)
    ensures row != [] ==> segments == RowCutter(l, row).All(ranges)
    ensures IsSegmentation(l, row, segments)
  {
    if row == [] {
      return [Segment([], [])], [];
    }
    segments, ranges := CutColumns(RowCutter(l, row), |row|);
    ColumnsFitAlone(l, row);
    CutterCuts(ViewOf(l, row));
    ghost var shown := RowIsCut(ViewOf(l, row), RowCutter(l, row), ranges);
  }

  /** Every column is in exactly one range: either its segment holds all
      columns of the range, or the column is alone there and cut. */
  lemma ColumnInOneRange(c: Cutter, n: nat, ranges: seq<Range>, col: nat) returns (k: nat)
    requires col < n && c.GoodRanges(n, ranges, n)
    ensures k < |ranges| && ranges[k].0 <= col < ranges[k].1
    ensures forall j :: 0 <= j < |ranges| && ranges[j].0 <= col < ranges[j].1 ==> j == k
    ensures if c.fits(ranges[k].0, ranges[k].0 + 1) then c.SegmentsOf(ranges[k]) == [c.whole(ranges[k].0, ranges[k].1)]
            else ranges[k] == (col, col + 1) && c.SegmentsOf(ranges[k]) == c.cut(col)
  {
    TokenInOneRange(ranges, n, col);
    k :| 0 <= k < |ranges| && ranges[k].0 <= col < ranges[k].1;
    assert c.GoodRange(n, ranges[k]);
  }

  // ---- whole tables ----------------------------------------------------------------------------

  datatype TableUnit = TableUnit(rows: seq<Row>, headerRows: nat, caption: Option<string>)
  {
    function HeaderCount(): (n: nat)
      ensures n <= |rows|
    {
      if headerRows < |rows| then headerRows else |rows|
    }

    function Header(): seq<Row>
    {
      rows[..HeaderCount()]
    }

    function Data(): seq<Row>
    {
      rows[HeaderCount()..]
    }

    function BaseCaption(): string
    {
      if caption.Some? then caption.value else []
    }
  }

  datatype TableChunk = TableChunk(rows: seq<Row>, caption: Option<string>, tokens: nat)

  function ChunkOf(tok: Tokenizer, rows: seq<Row>, caption: Option<string>): TableChunk
  {
    TableChunk(rows, caption, tok.Count(RenderTable(rows, caption)))
  }

  /** A stretch of data rows: some in one chunk, or one that is cut into segments. */
  datatype Part = Together(rows: seq<Row>) | Alone(row: Row, number: nat, segments: seq<Segment>)
  {
    function Rows(): seq<Row>
    {
      if Together? then rows else [row]
    }
  }

  function Digits(n: nat): string
  {
    var last := ['0' + (n % 10) as char];
    if n < 10 then last else Digits(n / 10) + last
  }

  function RowCaption(unit: TableUnit, number: nat): string
  {
    if unit.BaseCaption() == [] then "Row " + Digits(number) else unit.BaseCaption() + "\nRow " + Digits(number)
  }

  function SegmentChunks(tok: Tokenizer, segments: seq<Segment>, caption: string): seq<TableChunk>
  {
    if segments == [] then []
    else
      var last := segments[|segments| - 1];
      SegmentChunks(tok, segments[..|segments| - 1], caption) +
      [ChunkOf(tok, last.header + [last.cells], Some(caption))]
  }

  function PartChunks(tok: Tokenizer, unit: TableUnit, part: Part): seq<TableChunk>
  {
    match part
    case Together(rows) => [ChunkOf(tok, unit.Header() + rows, unit.caption)]
    case Alone(_, number, segments) => SegmentChunks(tok, segments, RowCaption(unit, number))
  }

  function ChunksOf(tok: Tokenizer, unit: TableUnit, parts: seq<Part>): seq<TableChunk>
  {
    if parts == [] then []
    else ChunksOf(tok, unit, parts[..|parts| - 1]) + PartChunks(tok, unit, parts[|parts| - 1])
  }

  function RowsOf(parts: seq<Part>): seq<Row>
  {
    if parts == [] then [] else RowsOf(parts[..|parts| - 1]) + parts[|parts| - 1].Rows()
  }

  /** What the row `number` of the table is cut under. */
  function RowLayout(tok: Tokenizer, unit: TableUnit, number: nat, bodyMax: int): Layout
  {
    Layout(tok, unit.Header(), bodyMax, RowCaption(unit, number))
  }

  /** A part that fits, or a single row that does not and is cut under its own number. */
  ghost predicate GoodPart(tok: Tokenizer, unit: TableUnit, part: Part, before: nat, bodyMax: int)
  {
    if part.Together? then
      part.rows != [] && ChunkOf(tok, unit.Header() + part.rows, unit.caption).tokens <= bodyMax
    else
      && ChunkOf(tok, unit.Header() + [part.row], unit.caption).tokens > bodyMax
      && part.number == before + 1
      && IsSegmentation(RowLayout(tok, unit, part.number, bodyMax), part.row, part.segments)
  }

  /** `GoodPart` as a condition on a part and the number of rows before it. */
  ghost function Judge(tok: Tokenizer, unit: TableUnit, bodyMax: int): (Part, nat) -> bool
  {
    (part: Part, before: nat) => GoodPart(tok, unit, part, before, bodyMax)
  }

  ghost predicate GoodParts(good: (Part, nat) -> bool, parts: seq<Part>)
  {
    forall k :: 0 <= k < |parts| ==> good(parts[k], |RowsOf(parts[..k])|)
  }

  lemma OneMorePart(good: (Part, nat) -> bool, parts: seq<Part>, part: Part)
    requires GoodParts(good, parts) && good(part, |RowsOf(parts)|)
    ensures GoodParts(good, parts + [part])
    ensures RowsOf(parts + [part]) == RowsOf(parts) + part.Rows()
  {
    var more := parts + [part];
    assert more[..|parts|] == parts;
    forall k | 0 <= k < |more|
      ensures good(more[k], |RowsOf(more[..k])|)
    {
      if k < |parts| { assert more[..k] == parts[..k]; }
    }
  }

  lemma ChunksOfMore(tok: Tokenizer, unit: TableUnit, parts: seq<Part>, part: Part)
    ensures ChunksOf(tok, unit, parts + [part]) == ChunksOf(tok, unit, parts) + PartChunks(tok, unit, part)
  {
    assert (parts + [part])[..|parts|] == parts;
  }

  /** A group that turns out too long for its chunk is a single row, so taking
      its first row takes all of it. */
  lemma OversizedGroupIsSingle(tok: Tokenizer, unit: TableUnit, group: seq<Row>, bodyMax: int)
    requires GroupFits(RowWeight(tok), group, bodyMax - Overhead(tok, unit.Header(), unit.BaseCaption()))
    requires ChunkOf(tok, unit.Header() + group, unit.caption).tokens > bodyMax
    ensures group == [group[0]]
  {
    BothRenderingsCountTheSame(tok, unit.Header(), group, unit.BaseCaption(), unit.caption);
  }

  method ChunksOfSegments(tok: Tokenizer, segments: seq<Segment>, caption: string) returns (chunks: seq<TableChunk>)
    ensures chunks == SegmentChunks(tok, segments, caption)
  {
    chunks := [];
    for k := 0 to |segments|
      invariant chunks == SegmentChunks(tok, segments[..k], caption)
    {
      assert segments[..k + 1][..k] == segments[..k];
      chunks := chunks + [ChunkOf(tok, segments[k].header + [segments[k].cells], Some(caption))];
    }
    assert segments[..|segments|] == segments;
  }

  /** The chunks of one group of rows. */
  method ChunksOfGroup(tok: Tokenizer, unit: TableUnit, group: seq<Row>, offset: nat, bodyMax: int)
    returns (chunks: seq<TableChunk>, ghost part: Part)
    requires GroupFits(RowWeight(tok), group, bodyMax - Overhead(tok, unit.Header(), unit.BaseCaption()))
    ensures Judge(tok, unit, bodyMax)(part, offset) && part.Rows() == group
    ensures chunks == PartChunks(tok, unit, part)
  {
    var chunk := ChunkOf(tok, unit.Header() + group, unit.caption);
    if chunk.tokens <= bodyMax {
      return [chunk], Together(group);
    }
    OversizedGroupIsSingle(tok, unit, group, bodyMax);
    var row := group[0];
    var caption := RowCaption(unit, offset + 1);
    ghost var ranges;
    var segments;
    segments, ranges := SegmentOversizedRow(RowLayout(tok, unit, offset + 1, bodyMax), row);
    chunks := ChunksOfSegments(tok, segments, caption);
    part := Alone(row, offset + 1, segments);
  }

  /** The groups chunked so far, and how many rows they have. */
  ghost predicate Chunked(
    tok: Tokenizer, unit: TableUnit, groups: seq<seq<Row>>, parts: seq<Part>, chunks: seq<TableChunk>, offset: nat,
    bodyMax: int)
  {
    && RowsOf(parts) == Flatten(groups) && offset == |RowsOf(parts)|
    && chunks == ChunksOf(tok, unit, parts) && GoodParts(Judge(tok, unit, bodyMax), parts)
  }

  lemma OneMoreGroup(
    tok: Tokenizer, unit: TableUnit, groups: seq<seq<Row>>, k: nat, parts: seq<Part>, chunks: seq<TableChunk>,
    offset: nat, bodyMax: int, part: Part)
    requires k < |groups| && Chunked(tok, unit, groups[..k], parts, chunks, offset, bodyMax)
    requires Judge(tok, unit, bodyMax)(part, offset) && part.Rows() == groups[k]
    ensures Chunked(tok, unit, groups[..k + 1], parts + [part], chunks + PartChunks(tok, unit, part),
                    offset + |groups[k]|, bodyMax)
  {
    FlattenOneMore(groups, k);
    OneMorePart(Judge(tok, unit, bodyMax), parts, part);
    ChunksOfMore(tok, unit, parts, part);
  }

  lemma FlattenOneMore(groups: seq<seq<Row>>, k: nat)
    requires k < |groups|
    ensures Flatten(groups[..k + 1]) == Flatten(groups[..k]) + groups[k]
  {
    assert groups[..k + 1] == groups[..k] + [groups[k]];
    FlattenSnoc(groups[..k], groups[k]);
  }

  /** The chunks of every group, with the rows counted on the way. */
  method ChunksOfGroups(tok: Tokenizer, unit: TableUnit, groups: seq<seq<Row>>, bodyMax: int)
    returns (chunks: seq<TableChunk>, ghost parts: seq<Part>)
    requires forall k :: 0 <= k < |groups| ==>
      GroupFits(RowWeight(tok), groups[k], bodyMax - Overhead(tok, unit.Header(), unit.BaseCaption()))
    ensures RowsOf(parts) == Flatten(groups) && chunks == ChunksOf(tok, unit, parts)
    ensures GoodParts(Judge(tok, unit, bodyMax), parts)
  {
    chunks, parts := [], [];
    var offset: nat := 0;
    for k := 0 to |groups|
      invariant Chunked(tok, unit, groups[..k], parts, chunks, offset, bodyMax)
    {
      ghost var part;
      var more;
      more, part := ChunksOfGroup(tok, unit, groups[k], offset, bodyMax);
      OneMoreGroup(tok, unit, groups, k, parts, chunks, offset, bodyMax, part);
      chunks, parts, offset := chunks + more, parts + [part], offset + |groups[k]|;
    }
    assert groups[..|groups|] == groups;
  }

  /** What the chunks of a table are: the table itself if it fits, otherwise
      `parts` that hold its data rows once each and in order. */
  ghost predicate IsTableChunking(
    tok: Tokenizer, unit: TableUnit, bodyMax: int, chunks: seq<TableChunk>, parts: seq<Part>)
  {
    var whole := ChunkOf(tok, unit.rows, unit.caption);
    if whole.tokens <= bodyMax || unit.Data() == [] then chunks == [whole]
    else
      && RowsOf(parts) == unit.Data() && chunks == ChunksOf(tok, unit, parts)
      && GoodParts(Judge(tok, unit, bodyMax), parts)
  }

  /** The chunks of a table: itself if it fits, otherwise its data rows under
      the repeated header. Over all chunks the data rows appear once each and
      in order; only a row that does not fit alone is cut. */
  method TableChunks(tok: Tokenizer, unit: TableUnit, bodyMax: int)
    returns (chunks: seq<TableChunk>, ghost parts: seq<Part>)
    ensures IsTableChunking(tok, unit, bodyMax, chunks, parts)
  {
    parts := [];
    var whole := ChunkOf(tok, unit.rows, unit.caption);
    if whole.tokens <= bodyMax || unit.rows == [] {
      return [whole], [];
    }
    var groups := SplitDataRows(tok, unit.Data(), unit.Header(), bodyMax, unit.BaseCaption());
    if groups == [] {
      return [whole], [];
    }
    chunks, parts := ChunksOfGroups(tok, unit, groups, bodyMax);
  }

  // ---- what the chunks of a table hold ----------------------------------------------------------

  lemma {:induction false} SegmentChunksCount(tok: Tokenizer, segments: seq<Segment>, caption: string)
    ensures |SegmentChunks(tok, segments, caption)| == |segments|
    decreases |segments|
  {
    if segments != [] {
      SegmentChunksCount(tok, segments[..|segments| - 1], caption);
    }
  }

  lemma {:induction false} SegmentChunkAt(tok: Tokenizer, segments: seq<Segment>, caption: string, k: nat)
    requires k < |segments| == |SegmentChunks(tok, segments, caption)|
    ensures SegmentChunks(tok, segments, caption)[k]
      == ChunkOf(tok, segments[k].header + [segments[k].cells], Some(caption))
    decreases |segments|
  {
    SegmentChunksCount(tok, segments[..|segments| - 1], caption);
    if k < |segments| - 1 {
      SegmentChunkAt(tok, segments[..|segments| - 1], caption, k);
    }
  }

  lemma CountOfSegment(tok: Tokenizer, s: Segment, caption: string)
    ensures ChunkOf(tok, s.header + [s.cells], Some(caption)).tokens
      == Overhead(tok, s.header, caption) + tok.Count(RenderRow(s.cells))
  {
    BothRenderingsCountTheSame(tok, s.header, [s.cells], caption, Some(caption));
    SumOne(RowWeight(tok), s.cells);
  }

  lemma CellBudgetLeft(l: Layout, a: nat)
    ensures var overhead := Overhead(l.tok, l.Header(a, a + 1), l.caption);
      if overhead < l.maxTokens then l.CellBudget(a) + overhead == l.maxTokens else l.CellBudget(a) == 1
  {
    CountOfJoined(l.tok, [l.caption, RenderRows(l.Header(a, a + 1))]);
    CountOfRows(l.tok, l.Header(a, a + 1));
    assert [l.caption, RenderRows(l.Header(a, a + 1))] == [l.caption] + [RenderRows(l.Header(a, a + 1))];
    SumSnoc(Weight(l.tok), [l.caption], RenderRows(l.Header(a, a + 1)));
    SumOne(Weight(l.tok), l.caption);
  }

  lemma PieceOfSegment(v: RowView, segments: seq<Segment>, shown: seq<Range>, k: nat)
    requires IsRowCut(v, segments, shown) && k < |segments| && !v.fits(shown[k].0, shown[k].1)
    ensures |segments[k].cells| == 1 && shown[k] == (shown[k].0, shown[k].0 + 1) && shown[k].0 < |v.row|
    ensures segments[k].cells[0] in Pieces(v.tok, v.row[shown[k].0], v.budget(shown[k].0))
  {
    var col := shown[k].0;
    assert ShowsColumns(v, segments[k], shown[k]) && CellShown(v, segments, shown, col);
    var from: nat, to: nat :| CellAt(v, segments, shown, col, from, to);
    PiecesShowText(v.tok, v.row[col], v.budget(col), OnlyCells(segments[from..to]));
    assert OnlyCells(segments[from..to])[k - from] == segments[k].cells[0];
  }

  /** The chunk shows one piece of a cell of the row that cannot be cut further. */
  predicate ShowsUncuttable(tok: Tokenizer, row: Row, chunk: TableChunk)
  {
    chunk.rows != [] && |chunk.rows[|chunk.rows| - 1]| == 1 &&
    exists col | 0 <= col < |row| :: IsUncuttable(tok, row[col], chunk.rows[|chunk.rows| - 1][0])
  }

  lemma WholeFits(l: Layout, row: Row, a: nat, b: nat)
    requires l.Fits(row, a, b)
    ensures ChunkOf(l.tok, l.Header(a, b) + [SliceRow(row, a, b)], Some(l.caption)).tokens <= l.maxTokens
  {
    CountOfSegment(l.tok, Segment(l.Header(a, b), SliceRow(row, a, b)), l.caption);
    MeasuredColumns(l, row, a, b);
  }

  lemma FragmentFits(l: Layout, header: seq<Row>, cell: string, p: string, a: nat)
    requires header == l.Header(a, a + 1) && p in Pieces(l.tok, cell, l.CellBudget(a))
    ensures ChunkOf(l.tok, header + [[p]], Some(l.caption)).tokens <= l.maxTokens || IsUncuttable(l.tok, cell, p)
  {
    CountOfSegment(l.tok, Segment(header, [p]), l.caption);
    PieceFitsOrIsUncuttable(l.tok, cell, l.CellBudget(a), p);
    CellBudgetLeft(l, a);
  }

  lemma FragmentChunkFits(l: Layout, row: Row, s: Segment, col: nat)
    requires col < |row| && |s.cells| == 1 && s.header == l.Header(col, col + 1)
    requires s.cells[0] in Pieces(l.tok, row[col], l.CellBudget(col))
    ensures
      var chunk := ChunkOf(l.tok, s.header + [s.cells], Some(l.caption));
      chunk.tokens <= l.maxTokens || ShowsUncuttable(l.tok, row, chunk)
  {
    assert s.cells == [s.cells[0]];
    FragmentFits(l, s.header, row[col], s.cells[0], col);
  }

  lemma SegmentFits(l: Layout, row: Row, v: RowView, segments: seq<Segment>, shown: seq<Range>, k: nat)
    requires v == ViewOf(l, row) && IsRowCut(v, segments, shown) && k < |segments|
    ensures
      var chunk := ChunkOf(l.tok, segments[k].header + [segments[k].cells], Some(l.caption));
      chunk.tokens <= l.maxTokens || ShowsUncuttable(l.tok, row, chunk)
  {
    var a, b := shown[k].0, shown[k].1;
    assert ShowsColumns(v, segments[k], shown[k]);
    if v.fits(a, b) {
      WholeFits(l, row, a, b);
      assert SliceRow(row, a, b) == segments[k].cells;
    } else {
      PieceOfSegment(v, segments, shown, k);
      FragmentChunkFits(l, row, segments[k], a);
    }
  }

  lemma RowChunkFits(l: Layout, row: Row, segments: seq<Segment>, chunk: TableChunk)
    requires row != [] && IsSegmentation(l, row, segments) && chunk in SegmentChunks(l.tok, segments, l.caption)
    ensures chunk.tokens <= l.maxTokens || ShowsUncuttable(l.tok, row, chunk)
  {
    var shown :| IsRowCut(ViewOf(l, row), segments, shown);
    SegmentChunksCount(l.tok, segments, l.caption);
    var k :| 0 <= k < |segments| && chunk == SegmentChunks(l.tok, segments, l.caption)[k];
    SegmentChunkAt(l.tok, segments, l.caption, k);
    SegmentFits(l, row, ViewOf(l, row), segments, shown, k);
  }

  lemma {:induction false} PartOfChunk(tok: Tokenizer, unit: TableUnit, parts: seq<Part>, chunk: TableChunk)
    returns (k: nat)
    requires chunk in ChunksOf(tok, unit, parts)
    ensures k < |parts| && chunk in PartChunks(tok, unit, parts[k])
    decreases |parts|
  {
    if chunk in PartChunks(tok, unit, parts[|parts| - 1]) {
      k := |parts| - 1;
    } else {
      k := PartOfChunk(tok, unit, parts[..|parts| - 1], chunk);
    }
  }

  lemma {:induction false} ChunksOfPartListed(tok: Tokenizer, unit: TableUnit, parts: seq<Part>, k: nat)
    requires k < |parts|
    ensures forall chunk :: chunk in PartChunks(tok, unit, parts[k]) ==> chunk in ChunksOf(tok, unit, parts)
    ensures |PartChunks(tok, unit, parts[k])| <= |ChunksOf(tok, unit, parts)|
    decreases |parts|
  {
    if k < |parts| - 1 {
      ChunksOfPartListed(tok, unit, parts[..|parts| - 1], k);
    }
  }

  /** The part that holds data row `i`, and the row's place in it. */
  lemma {:induction false} PartOfRow(parts: seq<Part>, i: nat) returns (k: nat, j: nat)
    requires i < |RowsOf(parts)|
    ensures k < |parts| && j < |parts[k].Rows()| && i == |RowsOf(parts[..k])| + j
    ensures RowsOf(parts)[i] == parts[k].Rows()[j]
    decreases |parts|
  {
    var front := parts[..|parts| - 1];
    if i < |RowsOf(front)| {
      k, j := PartOfRow(front, i);
      assert front[..k] == parts[..k];
    } else {
      k, j := |parts| - 1, i - |RowsOf(front)|;
    }
  }

  lemma {:induction false} FirstRowOfPart(parts: seq<Part>, k: nat)
    requires k < |parts| && parts[k].Rows() != []
    ensures |RowsOf(parts[..k])| < |RowsOf(parts)| && RowsOf(parts)[|RowsOf(parts[..k])|] == parts[k].Rows()[0]
    decreases |parts|
  {
    if k < |parts| - 1 {
      assert parts[..|parts| - 1][..k] == parts[..k];
      FirstRowOfPart(parts[..|parts| - 1], k);
    }
  }

  /** No group of rows under a header is shorter than a row without cells. */
  lemma EmptyRowIsShortest(tok: Tokenizer, header: seq<Row>, rows: seq<Row>, caption: Option<string>)
    ensures ChunkOf(tok, header + [[]], caption).tokens <= ChunkOf(tok, header + rows, caption).tokens
  {
    CountOfTable(tok, header + [[]], caption);
    CountOfTable(tok, header + rows, caption);
    SumAppend(RowWeight(tok), header, [[]]);
    SumAppend(RowWeight(tok), header, rows);
    SumOne(RowWeight(tok), []);
  }

  lemma CountOfCaption(tok: Tokenizer, caption: string)
    ensures ChunkOf(tok, [[]], Some(caption)).tokens == tok.Count(caption)
  {
    CountOfTable(tok, [[]], Some(caption));
    SumOne(RowWeight(tok), []);
  }

  lemma OneSegmentChunk(tok: Tokenizer, s: Segment, caption: string)
    ensures SegmentChunks(tok, [s], caption) == [ChunkOf(tok, s.header + [s.cells], Some(caption))]
  {
    SegmentChunksCount(tok, [s], caption);
    SegmentChunkAt(tok, [s], caption, 0);
  }

  /** A row without cells is cut into its caption alone. */
  lemma CaptionChunk(tok: Tokenizer, unit: TableUnit, part: Part, before: nat, bodyMax: int)
    requires GoodPart(tok, unit, part, before, bodyMax) && part.Alone? && part.row == []
    ensures PartChunks(tok, unit, part) == [ChunkOf(tok, [[]], Some(RowCaption(unit, before + 1)))]
  {
    OneSegmentChunk(tok, Segment([], []), RowCaption(unit, before + 1));
  }

  /** The chunk shows a piece of some row's cell that cannot be cut further. */
  predicate Excused(tok: Tokenizer, unit: TableUnit, chunk: TableChunk)
  {
    exists i | 0 <= i < |unit.Data()| :: ShowsUncuttable(tok, unit.Data()[i], chunk)
  }

  /** What the source promises of its chunks: each fits, unless it cannot be cut further. */
  ghost predicate AllFit(tok: Tokenizer, unit: TableUnit, bodyMax: int, chunks: seq<TableChunk>)
  {
    forall chunk :: chunk in chunks ==> chunk.tokens <= bodyMax || Excused(tok, unit, chunk)
  }

  /** Data row `i` has no cells, is too long under the header and has a caption
      that alone is too long. */
  predicate CaptionOverflows(tok: Tokenizer, unit: TableUnit, bodyMax: int, i: nat)
    requires i < |unit.Data()|
  {
    && unit.Data()[i] == [] && ChunkOf(tok, unit.Header() + [[]], unit.caption).tokens > bodyMax
    && tok.Count(RowCaption(unit, i + 1)) > bodyMax
  }

  /** The table fits as a whole, or has data rows and none whose caption overflows. */
  predicate CanFit(tok: Tokenizer, unit: TableUnit, bodyMax: int)
  {
    || ChunkOf(tok, unit.rows, unit.caption).tokens <= bodyMax
    || (unit.Data() != [] && forall i | 0 <= i < |unit.Data()| :: !CaptionOverflows(tok, unit, bodyMax, i))
  }

  lemma CutRowIsExcused(tok: Tokenizer, unit: TableUnit, l: Layout, segments: seq<Segment>, i: nat, chunk: TableChunk)
    requires i < |unit.Data()| && unit.Data()[i] != [] && l.tok == tok
    requires IsSegmentation(l, unit.Data()[i], segments) && chunk in SegmentChunks(tok, segments, l.caption)
    ensures chunk.tokens <= l.maxTokens || Excused(tok, unit, chunk)
  {
    RowChunkFits(l, unit.Data()[i], segments, chunk);
  }

  /** A chunk of a cut row fits or is excused, or it is the row's caption. */
  lemma OverflowIsCaption(tok: Tokenizer, unit: TableUnit, part: Part, before: nat, bodyMax: int, chunk: TableChunk)
    requires part.Alone? && before < |unit.Data()| && unit.Data()[before] == part.row
    requires GoodPart(tok, unit, part, before, bodyMax) && chunk in PartChunks(tok, unit, part)
    ensures chunk.tokens <= bodyMax || Excused(tok, unit, chunk) || CaptionOverflows(tok, unit, bodyMax, before)
  {
    if part.row == [] {
      CaptionChunk(tok, unit, part, before, bodyMax);
      CountOfCaption(tok, RowCaption(unit, before + 1));
    } else {
      CutRowIsExcused(tok, unit, RowLayout(tok, unit, part.number, bodyMax), part.segments, before, chunk);
    }
  }

  lemma PartsFit(tok: Tokenizer, unit: TableUnit, bodyMax: int, parts: seq<Part>, chunk: TableChunk)
    requires RowsOf(parts) == unit.Data() && GoodParts(Judge(tok, unit, bodyMax), parts)
    requires forall i | 0 <= i < |unit.Data()| :: !CaptionOverflows(tok, unit, bodyMax, i)
    requires chunk in ChunksOf(tok, unit, parts)
    ensures chunk.tokens <= bodyMax || Excused(tok, unit, chunk)
  {
    var k := PartOfChunk(tok, unit, parts, chunk);
    var before := |RowsOf(parts[..k])|;
    assert Judge(tok, unit, bodyMax)(parts[k], before);
    if parts[k].Alone? {
      assert parts[k].Rows()[0] == parts[k].row;
      FirstRowOfPart(parts, k);
      OverflowIsCaption(tok, unit, parts[k], before, bodyMax, chunk);
    }
  }

  lemma EmptyRowIsAlone(tok: Tokenizer, unit: TableUnit, bodyMax: int, part: Part, before: nat)
    requires GoodPart(tok, unit, part, before, bodyMax)
    requires ChunkOf(tok, unit.Header() + [[]], unit.caption).tokens > bodyMax
    ensures part.Alone?
  {
    if part.Together? {
      EmptyRowIsShortest(tok, unit.Header(), part.rows, unit.caption);
    }
  }

  /** A row whose caption overflows leaves a chunk that does not fit. */
  lemma CaptionDoesNotFit(tok: Tokenizer, unit: TableUnit, bodyMax: int, parts: seq<Part>, i: nat)
    requires RowsOf(parts) == unit.Data() && GoodParts(Judge(tok, unit, bodyMax), parts)
    requires i < |unit.Data()| && CaptionOverflows(tok, unit, bodyMax, i)
    ensures !AllFit(tok, unit, bodyMax, ChunksOf(tok, unit, parts))
  {
    var k, j := PartOfRow(parts, i);
    assert Judge(tok, unit, bodyMax)(parts[k], |RowsOf(parts[..k])|);
    EmptyRowIsAlone(tok, unit, bodyMax, parts[k], |RowsOf(parts[..k])|);
    CaptionChunk(tok, unit, parts[k], i, bodyMax);
    CountOfCaption(tok, RowCaption(unit, i + 1));
    ChunksOfPartListed(tok, unit, parts, k);
    assert PartChunks(tok, unit, parts[k])[0] in PartChunks(tok, unit, parts[k]);
  }

  /** Exactly when the chunks of a table fit the body budget, those aside that
      show a piece of a cell that cannot be cut further: the table fits as it is,
      or it has data rows and no row without cells has to be cut and has a
      caption that is too long. */
  lemma TableChunksFitIff(
    tok: Tokenizer, unit: TableUnit, bodyMax: int, chunks: seq<TableChunk>, parts: seq<Part>)
    requires IsTableChunking(tok, unit, bodyMax, chunks, parts)
    ensures AllFit(tok, unit, bodyMax, chunks) <==> CanFit(tok, unit, bodyMax)
  {
    var whole := ChunkOf(tok, unit.rows, unit.caption);
    if whole.tokens > bodyMax {
      if unit.Data() == [] {
        assert whole in chunks;
      } else if CanFit(tok, unit, bodyMax) {
        forall chunk | chunk in chunks
          ensures chunk.tokens <= bodyMax || Excused(tok, unit, chunk)
        {
          PartsFit(tok, unit, bodyMax, parts, chunk);
        }
      } else {
        var i :| 0 <= i < |unit.Data()| && CaptionOverflows(tok, unit, bodyMax, i);
        CaptionDoesNotFit(tok, unit, bodyMax, parts, i);
      }
    }
  }

  /** A chunk carries the number of tokens of what it renders. */
  lemma ChunkCountsItself(
    tok: Tokenizer, unit: TableUnit, bodyMax: int, chunks: seq<TableChunk>, parts: seq<Part>, chunk: TableChunk)
    requires IsTableChunking(tok, unit, bodyMax, chunks, parts) && chunk in chunks
    ensures chunk == ChunkOf(tok, chunk.rows, chunk.caption)
  {
    if ChunkOf(tok, unit.rows, unit.caption).tokens > bodyMax && unit.Data() != [] {
      var k := PartOfChunk(tok, unit, parts, chunk);
      PartChunkCountsItself(tok, unit, parts[k], chunk);
    }
  }

  lemma PartChunkCountsItself(tok: Tokenizer, unit: TableUnit, part: Part, chunk: TableChunk)
    requires chunk in PartChunks(tok, unit, part)
    ensures chunk == ChunkOf(tok, chunk.rows, chunk.caption)
  {
    if part.Alone? {
      var caption := RowCaption(unit, part.number);
      SegmentChunksCount(tok, part.segments, caption);
      var k :| 0 <= k < |part.segments| && chunk == SegmentChunks(tok, part.segments, caption)[k];
      SegmentChunkAt(tok, part.segments, caption, k);
    }
  }

  /** A row that was cut has no chunk at all exactly if it has cells, none of them
      fits alone, and none of them has text to show. */
  lemma RowWithoutChunkIff(tok: Tokenizer, unit: TableUnit, part: Part, before: nat, bodyMax: int)
    requires GoodPart(tok, unit, part, before, bodyMax) && part.Alone?
    ensures
      var v := ViewOf(RowLayout(tok, unit, part.number, bodyMax), part.row);
      PartChunks(tok, unit, part) == [] <==>
        part.row != [] && AllUnshown(v)
  {
    SegmentChunksCount(tok, part.segments, RowCaption(unit, part.number));
    if part.row != [] {
      var v := ViewOf(RowLayout(tok, unit, part.number, bodyMax), part.row);
      var shown :| IsRowCut(v, part.segments, shown);
      RowWithoutSegmentIff(v, part.segments, shown);
    }
  }

  ghost predicate Unshown(v: RowView, col: nat)
    requires col < |v.row|
  {
    !v.fits(col, col + 1) && HasNoPiece(v.tok, v.row[col], v.budget(col))
  }

  ghost predicate AllUnshown(v: RowView)
  {
    forall col :: 0 <= col < |v.row| ==> Unshown(v, col)
  }

  lemma SegmentHasText(v: RowView, segments: seq<Segment>, shown: seq<Range>, k: nat)
    requires IsRowCut(v, segments, shown) && k < |segments|
    ensures shown[k].0 < |v.row| && !Unshown(v, shown[k].0)
  {
    assert ShowsColumns(v, segments[k], shown[k]);
    assert shown[k].0 <= shown[k].0 < shown[k].1;
    ColumnWithoutSegmentIff(v, segments, shown, shown[k].0);
  }

  lemma RowWithoutSegmentIff(v: RowView, segments: seq<Segment>, shown: seq<Range>)
    requires IsRowCut(v, segments, shown)
    ensures segments == [] <==> AllUnshown(v)
  {
    if segments == [] {
      forall col | 0 <= col < |v.row|
        ensures Unshown(v, col)
      {
        ColumnWithoutSegmentIff(v, segments, shown, col);
      }
    } else {
      SegmentHasText(v, segments, shown, 0);
    }
  }

  /** Data row `i` is too long under the header, and when cut it leaves no chunk. */
  ghost predicate Vanishes(tok: Tokenizer, unit: TableUnit, bodyMax: int, i: nat)
    requires i < |unit.Data()|
  {
    var row := unit.Data()[i];
    && ChunkOf(tok, unit.Header() + [row], unit.caption).tokens > bodyMax && row != []
    && AllUnshown(ViewOf(RowLayout(tok, unit, i + 1, bodyMax), row))
  }

  lemma FirstRowIsNoLonger(tok: Tokenizer, header: seq<Row>, rows: seq<Row>, caption: Option<string>)
    requires rows != []
    ensures ChunkOf(tok, header + [rows[0]], caption).tokens <= ChunkOf(tok, header + rows, caption).tokens
  {
    CountOfTable(tok, header + [rows[0]], caption);
    CountOfTable(tok, header + rows, caption);
    SumAppend(RowWeight(tok), header, [rows[0]]);
    SumAppend(RowWeight(tok), header, rows);
    SumOne(RowWeight(tok), rows[0]);
    SumAtLeastFirst(RowWeight(tok), rows);
  }

  /** A part has no chunk exactly if its first row vanishes; it is then alone. */
  lemma PartVanishesIff(tok: Tokenizer, unit: TableUnit, bodyMax: int, part: Part, before: nat)
    requires GoodPart(tok, unit, part, before, bodyMax)
    requires before < |unit.Data()| && part.Rows() != [] && unit.Data()[before] == part.Rows()[0]
    ensures PartChunks(tok, unit, part) == [] <==> Vanishes(tok, unit, bodyMax, before)
    ensures PartChunks(tok, unit, part) == [] ==> part.Alone?
  {
    if part.Together? {
      FirstRowIsNoLonger(tok, unit.Header(), part.rows, unit.caption);
    } else {
      assert part.row == part.Rows()[0];
      RowWithoutChunkIff(tok, unit, part, before, bodyMax);
    }
  }

  lemma {:induction false} NoChunks(tok: Tokenizer, unit: TableUnit, parts: seq<Part>)
    requires forall k :: 0 <= k < |parts| ==> PartChunks(tok, unit, parts[k]) == []
    ensures ChunksOf(tok, unit, parts) == []
    decreases |parts|
  {
    if parts != [] {
      NoChunks(tok, unit, parts[..|parts| - 1]);
    }
  }

  lemma PartAt(tok: Tokenizer, unit: TableUnit, bodyMax: int, parts: seq<Part>, k: nat)
    requires RowsOf(parts) == unit.Data() && GoodParts(Judge(tok, unit, bodyMax), parts) && k < |parts|
    ensures
      var before := |RowsOf(parts[..k])|;
      before < |unit.Data()| && (PartChunks(tok, unit, parts[k]) == [] <==> Vanishes(tok, unit, bodyMax, before))
    ensures PartChunks(tok, unit, parts[k]) == [] ==> parts[k].Alone?
  {
    var before := |RowsOf(parts[..k])|;
    assert Judge(tok, unit, bodyMax)(parts[k], before);
    FirstRowOfPart(parts, k);
    PartVanishesIff(tok, unit, bodyMax, parts[k], before);
  }

  ghost predicate AllVanish(tok: Tokenizer, unit: TableUnit, bodyMax: int)
  {
    forall i :: 0 <= i < |unit.Data()| ==> Vanishes(tok, unit, bodyMax, i)
  }

  lemma RowVanishes(tok: Tokenizer, unit: TableUnit, bodyMax: int, parts: seq<Part>, i: nat)
    requires RowsOf(parts) == unit.Data() && GoodParts(Judge(tok, unit, bodyMax), parts)
    requires ChunksOf(tok, unit, parts) == [] && i < |unit.Data()|
    ensures Vanishes(tok, unit, bodyMax, i)
  {
    var k, j := PartOfRow(parts, i);
    ChunksOfPartListed(tok, unit, parts, k);
    PartAt(tok, unit, bodyMax, parts, k);
    assert |parts[k].Rows()| == 1 && i == |RowsOf(parts[..k])|;
  }

  lemma PartsVanish(tok: Tokenizer, unit: TableUnit, bodyMax: int, parts: seq<Part>)
    requires RowsOf(parts) == unit.Data() && GoodParts(Judge(tok, unit, bodyMax), parts)
    requires AllVanish(tok, unit, bodyMax)
    ensures ChunksOf(tok, unit, parts) == []
  {
    forall k | 0 <= k < |parts|
      ensures PartChunks(tok, unit, parts[k]) == []
    {
      PartAt(tok, unit, bodyMax, parts, k);
    }
    NoChunks(tok, unit, parts);
  }

  lemma PartsVanishIff(tok: Tokenizer, unit: TableUnit, bodyMax: int, parts: seq<Part>)
    requires RowsOf(parts) == unit.Data() && GoodParts(Judge(tok, unit, bodyMax), parts)
    ensures ChunksOf(tok, unit, parts) == [] <==> AllVanish(tok, unit, bodyMax)
  {
    if ChunksOf(tok, unit, parts) == [] {
      forall i | 0 <= i < |unit.Data()|
        ensures Vanishes(tok, unit, bodyMax, i)
      {
        RowVanishes(tok, unit, bodyMax, parts, i);
      }
    } else if AllVanish(tok, unit, bodyMax) {
      PartsVanish(tok, unit, bodyMax, parts);
    }
  }

  /** A table leaves no chunk at all exactly if it is too long, has data rows and
      each of them vanishes. */
  lemma TableVanishesIff(tok: Tokenizer, unit: TableUnit, bodyMax: int, chunks: seq<TableChunk>, parts: seq<Part>)
    requires IsTableChunking(tok, unit, bodyMax, chunks, parts)
    ensures chunks == [] <==>
      (ChunkOf(tok, unit.rows, unit.caption).tokens > bodyMax && unit.Data() != [] &&
       AllVanish(tok, unit, bodyMax))
  {
    if ChunkOf(tok, unit.rows, unit.caption).tokens > bodyMax && unit.Data() != [] {
      PartsVanishIff(tok, unit, bodyMax, parts);
    }
  }

  // ---- tables that do not fit -------------------------------------------------------------------

  /** A tokenizer with one token for every word. */
  function OnePerWord(): (tok: Tokenizer)
    ensures tok.Valid()
  {
    Tokenizer((w: string) => [(0, |w|)], 0)
  }

  lemma TwoWords()
    ensures OnePerWord().Count("a b") == 2
  {
    var tok := OnePerWord();
    assert "a b" == "a" + " " + "b";
    CountAcross(tok, "a", " ", "b");
    OneWord("a");
    OneWord("b");
  }

  lemma OneWord(w: string)
    requires IsWord(w)
    ensures OnePerWord().Count(w) == 1
  {
    WordsOfWord(w);
    CountIsOverWords(OnePerWord(), w);
  }

  /** A table of header rows only is not split, however long it is. */
  method HeaderOnlyTableOverflows() returns (unit: TableUnit, chunks: seq<TableChunk>, ghost parts: seq<Part>)
    ensures unit == TableUnit([["a b"]], 1, None) && IsTableChunking(OnePerWord(), unit, 1, chunks, parts)
    ensures |chunks| == 1 && chunks[0].tokens == 2 && !AllFit(OnePerWord(), unit, 1, chunks)
  {
    unit := TableUnit([["a b"]], 1, None);
    chunks, parts := TableChunks(OnePerWord(), unit, 1);
    TwoWords();
    CountOfTable(OnePerWord(), unit.rows, None);
    SumOne(RowWeight(OnePerWord()), ["a b"]);
    TableChunksFitIff(OnePerWord(), unit, 1, chunks, parts);
  }

  /** One row without cells under a caption. */
  function CaptionOnlyTable(caption: string): TableUnit
  {
    TableUnit([[]], 0, Some(caption))
  }

  lemma CaptionTableOverflows(tok: Tokenizer, caption: string, bodyMax: int)
    requires tok.Count(caption) > bodyMax && caption != []
    ensures !CanFit(tok, CaptionOnlyTable(caption), bodyMax)
  {
    var unit := CaptionOnlyTable(caption);
    CountOfCaption(tok, caption);
    CountAcross(tok, caption, "\n", "Row " + Digits(1));
    assert RowCaption(unit, 1) == caption + "\n" + ("Row " + Digits(1));
    assert unit.Header() + [[]] == unit.rows;
    assert CaptionOverflows(tok, unit, bodyMax, 0);
  }

  /** Nor is the caption of a row without cells. */
  method CaptionOnlyRowOverflows() returns (chunks: seq<TableChunk>, ghost parts: seq<Part>)
    ensures IsTableChunking(OnePerWord(), CaptionOnlyTable("a b"), 1, chunks, parts)
    ensures !AllFit(OnePerWord(), CaptionOnlyTable("a b"), 1, chunks)
  {
    chunks, parts := TableChunks(OnePerWord(), CaptionOnlyTable("a b"), 1);
    TwoWords();
    CaptionTableOverflows(OnePerWord(), "a b", 1);
    TableChunksFitIff(OnePerWord(), CaptionOnlyTable("a b"), 1, chunks, parts);
  }

  /** One empty cell under a header cell of two words. */
  function BlankTable(cell: string): TableUnit
  {
    TableUnit([[cell], [[]]], 1, None)
  }

  lemma BlankCellDoesNotFit(l: Layout, row: Row)
    requires l.header != [] && l.tok.Count(RenderRow(l.Header(0, 1)[0])) > l.maxTokens
    ensures !l.Fits(row, 0, 1)
  {
    MeasuredColumns(l, row, 0, 1);
    SumAtLeastFirst(RowWeight(l.tok), l.Header(0, 1));
  }

  lemma BlankCellsAreUnshown(v: RowView)
    requires |v.row| == 1 && v.row[0] == [] && !v.fits(0, 1)
    ensures AllUnshown(v)
  {
  }

  lemma BlankRowVanishes(tok: Tokenizer, cell: string, bodyMax: int)
    requires tok.Count(cell) > bodyMax
    ensures Vanishes(tok, BlankTable(cell), bodyMax, 0)
  {
    var unit := BlankTable(cell);
    var l, row := RowLayout(tok, unit, 1, bodyMax), unit.Data()[0];
    BlankTableIsTooLong(tok, cell, bodyMax);
    assert unit.Header() + [row] == unit.rows;
    assert l.Header(0, 1)[0] == [cell];
    BlankCellDoesNotFit(l, row);
    BlankCellsAreUnshown(ViewOf(l, row));
  }

  lemma BlankTableIsTooLong(tok: Tokenizer, cell: string, bodyMax: int)
    requires tok.Count(cell) > bodyMax
    ensures ChunkOf(tok, BlankTable(cell).rows, None).tokens > bodyMax
  {
    CountOfTable(tok, BlankTable(cell).rows, None);
    SumAtLeastFirst(RowWeight(tok), BlankTable(cell).rows);
  }

  /** A table that disappears. */
  method BlankTableVanishes() returns (chunks: seq<TableChunk>, ghost parts: seq<Part>)
    ensures IsTableChunking(OnePerWord(), BlankTable("a b"), 1, chunks, parts) && chunks == []
  {
    chunks, parts := TableChunks(OnePerWord(), BlankTable("a b"), 1);
    TwoWords();
    BlankTableIsTooLong(OnePerWord(), "a b", 1);
    BlankRowVanishes(OnePerWord(), "a b", 1);
    TableVanishesIff(OnePerWord(), BlankTable("a b"), 1, chunks, parts);
  }

  // ---- what is rendered ----------------------------------------------------------------------------

  /** Cells stand side by side, rows below each other. */
  lemma RowsRendered(row: Row, cell: string, rows: seq<Row>, last: Row)
    ensures RenderRow([cell]) == cell && (row != [] ==> RenderRow(row + [cell]) == RenderRow(row) + " | " + cell)
    ensures RenderRows([]) == [] && RenderRows([last]) == RenderRow(last)
    ensures rows != [] ==> RenderRows(rows + [last]) == RenderRows(rows) + "\n" + RenderRow(last)
  {
    JoinMeans(row, cell, CELL_SEPARATOR);
    assert [last][..0] == [] && Lines([last]) == [RenderRow(last)];
    JoinMeans(Lines(rows), RenderRow(last), "\n");
    assert (rows + [last])[..|rows|] == rows;
  }

  /** A table is its caption, an empty line and its rows; what is empty is left out. */
  lemma TableRendered(rows: seq<Row>, caption: string)
    ensures RenderTable(rows, None) == RenderRows(rows)
    ensures caption == [] || RenderRows(rows) == [] ==> RenderTable(rows, Some(caption)) == caption + RenderRows(rows)
    ensures caption != [] && RenderRows(rows) != [] ==>
      RenderTable(rows, Some(caption)) == caption + "\n\n" + RenderRows(rows)
  {
  }

  /** The rows of a table are its header rows, as many as there are, and its data rows. */
  lemma HeaderAndData(unit: TableUnit)
    ensures unit.Header() + unit.Data() == unit.rows
    ensures |unit.Header()| == unit.headerRows || (unit.Data() == [] && |unit.Header()| < unit.headerRows)
    ensures unit.BaseCaption() == [] <==> unit.caption == None || unit.caption == Some([])
    ensures unit.caption == Some(unit.BaseCaption()) || unit.caption == None
  {
  }

  /** The number that decimal digits denote. */
  function ValueOf(digits: string): nat
    requires forall i :: 0 <= i < |digits| ==> '0' <= digits[i] <= '9'
  {
    if digits == [] then 0
    else 10 * ValueOf(digits[..|digits| - 1]) + (digits[|digits| - 1] as int - '0' as int)
  }

  /** Decimal digits denote the number, without leading zeros. */
  lemma {:induction false} DigitsDenote(n: nat)
    ensures Digits(n) != [] && (forall i :: 0 <= i < |Digits(n)| ==> '0' <= Digits(n)[i] <= '9')
    ensures ValueOf(Digits(n)) == n && (n > 0 ==> Digits(n)[0] != '0')
    decreases n
  {
    var last := ['0' + (n % 10) as char];
    if n >= 10 {
      DigitsDenote(n / 10);
      assert (Digits(n / 10) + last)[..|Digits(n / 10)|] == Digits(n / 10);
    } else {
      assert last[..0] == [];
    }
  }

  /** A cut row is captioned with its number, below the caption of the table. */
  lemma RowCaptionMeans(unit: TableUnit, number: nat)
    ensures RowCaption(unit, number)
      == (if unit.caption == None || unit.caption == Some([]) then "" else unit.caption.value + "\n") +
         "Row " + Digits(number)
  {
    var base := unit.BaseCaption();
    assert base + "\nRow " + Digits(number) == base + "\n" + "Row " + Digits(number);
    assert "" + "Row " + Digits(number) == "Row " + Digits(number);
  }

  /** The chunk shows these rows under this caption, and carries the tokens of what it renders. */
  ghost predicate ShowsRows(tok: Tokenizer, chunk: TableChunk, rows: seq<Row>, caption: Option<string>)
  {
    chunk.rows == rows && chunk.caption == caption && chunk.tokens == tok.Count(RenderTable(rows, caption))
  }

  /** Rows that fit together are one chunk under the header and the caption of
      the table; a row that is cut has one chunk for every segment, its cells
      under their columns of the header and the caption of the row. */
  lemma PartChunksShow(tok: Tokenizer, unit: TableUnit, part: Part)
    ensures part.Together? ==>
      |PartChunks(tok, unit, part)| == 1 &&
      ShowsRows(tok, PartChunks(tok, unit, part)[0], unit.Header() + part.rows, unit.caption)
    ensures part.Alone? ==>
      |PartChunks(tok, unit, part)| == |part.segments| &&
      forall k :: 0 <= k < |part.segments| ==>
        ShowsRows(tok, PartChunks(tok, unit, part)[k], part.segments[k].header + [part.segments[k].cells],
                  Some(RowCaption(unit, part.number)))
  {
    if part.Alone? {
      SegmentChunksCount(tok, part.segments, RowCaption(unit, part.number));
      forall k | 0 <= k < |part.segments|
        ensures ShowsRows(tok, PartChunks(tok, unit, part)[k], part.segments[k].header + [part.segments[k].cells],
                          Some(RowCaption(unit, part.number)))
      {
        SegmentChunkAt(tok, part.segments, RowCaption(unit, part.number), k);
      }
    }
  }

  /** The header over the columns `a` to `b` has their cells of every header row. */
  lemma HeaderColumns(l: Layout, a: nat, b: nat, i: nat, c: nat)
    requires i < |l.header| && a <= c < b
    ensures |l.Header(a, b)| == |l.header| && |l.Header(a, b)[i]| == b - a
    ensures l.Header(a, b)[i][c - a] == if c < |l.header[i]| then l.header[i][c] else []
  {
  }
}
