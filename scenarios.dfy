/**
 * The documented behaviour of the position context replayed on the model:
 * each method builds a fresh context (a 400 x 800 portrait page with
 * margins 40/40/60/60), drives it as the suite in tests/documentContext.js
 * does (including its direct writes to the cursor fields), and returns what
 * that suite observes; the contracts of those methods are the suite's
 * expectations. Staged helpers split a long scenario and pin the model's
 * intermediate state, which the suite does not assert. The module closes
 * with two worked writer examples and general properties over all inputs.
 */
module Scenarios {
  import opened Layout
  import opened Context
  import opened Writer

  const TestPageSize := PageSize(400.0, 800.0, Some(PortraitName))
  const TestMargins := Margins(40.0, 40.0, 60.0, 60.0)

  method BeginColumnGroupSavesSettings() returns (depth: nat, savedX: real, savedPage: int)
    ensures depth == 1 && savedX == 40.0 && savedPage == 0
  {
    var pc := new DocumentContext(TestPageSize, TestMargins);
    pc.BeginColumnGroup();
    pc.x := 80.0;
    pc.page := 3;
    depth := |pc.snapshots|;
    savedX := pc.snapshots[0].x;
    savedPage := pc.snapshots[0].page;
  }

  method BeginColumnRestoresVerticalPosition() returns (y: real, page: int, availableHeight: real)
    ensures y == 60.0 && page == 0 && availableHeight == 800.0 - 60.0 - 60.0
  {
    var pc := new DocumentContext(TestPageSize, TestMargins);
    pc.BeginColumnGroup();
    pc.y := 150.0;
    pc.page := 5;
    pc.availableHeight := 123.0;
    pc.BeginColumn(0.0, None, None);
    y, page, availableHeight := pc.y, pc.page, pc.availableHeight;
  }

  method BeginColumnAddsOffset() returns (x: real)
    ensures x == 40.0 + 30.0
  {
    var pc := new DocumentContext(TestPageSize, TestMargins);
    pc.BeginColumnGroup();
    pc.BeginColumn(50.0, Some(30.0), None);
    x := pc.x;
  }

  method BeginColumnAddsPreviousWidth() returns (first: real, second: real)
    ensures first == 40.0 && second == 40.0 + 30.0
  {
    var pc := new DocumentContext(TestPageSize, TestMargins);
    pc.BeginColumnGroup();
    pc.BeginColumn(30.0, None, None);
    first := pc.x;
    pc.BeginColumn(20.0, None, None);
    second := pc.x;
  }

  method BeginColumnSetsWidth() returns (availableWidth: real)
    ensures availableWidth == 30.0
  {
    var pc := new DocumentContext(TestPageSize, TestMargins);
    pc.BeginColumnGroup();
    pc.BeginColumn(30.0, None, None);
    availableWidth := pc.availableWidth;
  }

  method BeginColumnSavesEndingCell() returns (ending: EndingContext)
    ensures ending.y == 150.0 && ending.page == 3 && ending.availableHeight == 123.0
  {
    var cell: CellId := 1;
    var pc := new DocumentContext(TestPageSize, TestMargins);
    pc.BeginColumnGroup();
    pc.BeginColumn(30.0, Some(0.0), Some(cell));
    pc.y := 150.0;
    pc.page := 3;
    pc.availableHeight := 123.0;
    pc.BeginColumn(30.0, Some(0.0), None);
    ending := pc.endings[cell];
  }

  method CompleteColumnGroupRestoresX() returns (x: real)
    ensures x == 40.0
  {
    var pc := new DocumentContext(TestPageSize, TestMargins);
    pc.BeginColumnGroup();
    pc.x := 150.0;
    pc.CompleteColumnGroup(None);
    x := pc.x;
  }

  /** The first column ends on page 3 while the second begins back on the group's page 0. */
  method LongestColumnFirstTwo(pc: DocumentContext)
    requires ContextIs(pc, StartCursor, [], None, None, map[])
    modifies pc
    ensures ContextIs(pc, Position(0, 70.0, 60.0, 680.0, 30.0),
                      [Snapshot(40.0, 60.0, 680.0, 320.0, 0, None, None, Some(Position(3, 40.0, 60.0, 680.0, 30.0)))],
                      Some(30.0), None, map[])
  {
    pc.BeginColumnGroup();
    pc.BeginColumn(30.0, None, None);
    pc.page := 3;
    pc.BeginColumn(30.0, None, None);
  }

  /** The second column ends on page 7, deeper than the first column's page 3. */
  method LongestColumnThird(pc: DocumentContext)
    requires ContextIs(pc, Position(0, 70.0, 60.0, 680.0, 30.0),
                       [Snapshot(40.0, 60.0, 680.0, 320.0, 0, None, None, Some(Position(3, 40.0, 60.0, 680.0, 30.0)))],
                       Some(30.0), None, map[])
    modifies pc
    ensures ContextIs(pc, Position(0, 100.0, 60.0, 680.0, 30.0),
                      [Snapshot(40.0, 60.0, 680.0, 320.0, 0, None, None, Some(Position(7, 70.0, 60.0, 680.0, 30.0)))],
                      Some(30.0), None, map[])
  {
    pc.page := 7;
    pc.BeginColumn(30.0, None, None);
  }

  /** Columns ending on pages 3, 7 and 4: the group resumes on page 7. */
  method CompleteColumnGroupTakesLongestColumn() returns (page: int)
    ensures page == 7
  {
    var pc := new DocumentContext(TestPageSize, TestMargins);
    LongestColumnFirstTwo(pc);
    LongestColumnThird(pc);
    pc.page := 4;
    pc.CompleteColumnGroup(None);
    page := pc.page;
  }

  /** A first column that spans rows is parked at page 3, y 150; the second column begins at the group's top. */
  method SkipFirstColumn(pc: DocumentContext)
    requires ContextIs(pc, StartCursor, [], None, None, map[])
    modifies pc
    ensures ContextIs(pc, Position(0, 70.0, 60.0, 680.0, 30.0),
                      [Snapshot(40.0, 60.0, 680.0, 320.0, 0, None, None, Some(StartCursor))],
                      Some(30.0), None, map[OuterCell := EndingContext(3, 40.0, 150.0, 123.0, 30.0, Some(30.0))])
  {
    pc.BeginColumnGroup();
    pc.BeginColumn(30.0, Some(0.0), Some(OuterCell));
    pc.y := 150.0;
    pc.page := 3;
    pc.availableHeight := 123.0;
    pc.BeginColumn(30.0, Some(0.0), None);
  }

  /** The spanning column's parked end does not count: the group resumes where its last column ended. */
  method CompleteColumnGroupSkipsSpanningCells() returns (page: int, y: real)
    ensures page == 3 && y == 100.0
  {
    var pc := new DocumentContext(TestPageSize, TestMargins);
    SkipFirstColumn(pc);
    pc.y := 100.0;
    pc.page := 3;
    pc.CompleteColumnGroup(None);
    page, y := pc.page, pc.y;
  }

  /**
   * What a staged scenario pins down between stages: the cursor, the
   * snapshot stack, the column width, the pending ending cell and the
   * recorded column ends.
   */
  ghost predicate ContextIs(pc: DocumentContext, cursor: Position, snapshots: seq<Snapshot>, lastColumnWidth: Option<real>,
                            endingCell: Option<CellId>, endings: map<CellId, EndingContext>)
    reads pc
  {
    && pc.Valid() && pc.Cursor() == cursor && pc.snapshots == snapshots
    && pc.lastColumnWidth == lastColumnWidth && pc.endingCell == endingCell && pc.endings == endings
  }

  const StartCursor := Position(0, 40.0, 60.0, 680.0, 320.0)
  const OuterCell: CellId := 1
  const NestedCell: CellId := 2
  /** The outer table's first row after its third column began: the second column reached y 100. */
  const SpanOuterGroup := Snapshot(40.0, 60.0, 680.0, 320.0, 0, None, None, Some(Position(0, 70.0, 100.0, 680.0, 40.0)))
  const SpanOuterEnd := EndingContext(0, 40.0, 350.0, 680.0, 30.0, Some(30.0))
  const SpanNestedEnd := EndingContext(0, 150.0, 180.0, 680.0, 40.0, Some(40.0))

  /** Outer row 1, first column: it spans two rows and is parked at y 350. */
  method SpanOuterRow1Start(pc: DocumentContext)
    requires ContextIs(pc, StartCursor, [], None, None, map[])
    modifies pc
    ensures ContextIs(pc, Position(0, 70.0, 60.0, 680.0, 40.0),
                      [Snapshot(40.0, 60.0, 680.0, 320.0, 0, None, None, Some(StartCursor))],
                      Some(40.0), None, map[OuterCell := SpanOuterEnd])
  {
    pc.BeginColumnGroup();
    pc.BeginColumn(30.0, Some(0.0), Some(OuterCell));
    pc.y := 350.0;
    pc.BeginColumn(40.0, None, None);
  }

  /** Outer row 1: column 1 spans two rows (parked at y 350), column 2 ends at 100, column 3 opens a nested table. */
  method SpanOuterRow1(pc: DocumentContext)
    requires ContextIs(pc, StartCursor, [], None, None, map[])
    modifies pc
    ensures ContextIs(pc, Position(0, 110.0, 60.0, 680.0, 100.0),
                      [SpanOuterGroup, Snapshot(110.0, 60.0, 680.0, 100.0, 0, None, Some(100.0), Some(Position(0, 110.0, 60.0, 680.0, 100.0)))],
                      Some(0.0), None, map[OuterCell := SpanOuterEnd])
  {
    SpanOuterRow1Start(pc);
    pc.y := 100.0;
    pc.BeginColumn(100.0, None, None);
    pc.BeginColumnGroup();
  }

  /** Nested row 1, first column: it ends at y 100 and the second column begins. */
  method SpanNestedRow1Start(pc: DocumentContext)
    requires ContextIs(pc, Position(0, 110.0, 60.0, 680.0, 100.0),
                       [SpanOuterGroup, Snapshot(110.0, 60.0, 680.0, 100.0, 0, None, Some(100.0), Some(Position(0, 110.0, 60.0, 680.0, 100.0)))],
                       Some(0.0), None, map[OuterCell := SpanOuterEnd])
    modifies pc
    ensures ContextIs(pc, Position(0, 130.0, 60.0, 680.0, 20.0),
                      [SpanOuterGroup, Snapshot(110.0, 60.0, 680.0, 100.0, 0, None, Some(100.0), Some(Position(0, 110.0, 100.0, 680.0, 20.0)))],
                      Some(20.0), None, map[OuterCell := SpanOuterEnd])
  {
    pc.BeginColumn(20.0, None, None);
    pc.y := 100.0;
    pc.BeginColumn(20.0, None, None);
  }

  /** Nested row 1, rest: the second column ends at 120; the third spans two rows (parked at y 180). */
  method SpanNestedRow1(pc: DocumentContext)
    requires ContextIs(pc, Position(0, 130.0, 60.0, 680.0, 20.0),
                       [SpanOuterGroup, Snapshot(110.0, 60.0, 680.0, 100.0, 0, None, Some(100.0), Some(Position(0, 110.0, 100.0, 680.0, 20.0)))],
                       Some(20.0), None, map[OuterCell := SpanOuterEnd])
    modifies pc
    ensures ContextIs(pc, Position(0, 110.0, 120.0, 680.0, 100.0), [SpanOuterGroup], Some(100.0), None,
                      map[OuterCell := SpanOuterEnd, NestedCell := SpanNestedEnd])
  {
    pc.y := 120.0;
    pc.BeginColumn(40.0, Some(0.0), Some(NestedCell));
    pc.y := 180.0;
    pc.CompleteColumnGroup(None);
  }

  /** Nested row 2, first column: it ends at y 10, above the row's top at 120. */
  method SpanNestedRow2Start(pc: DocumentContext)
    requires ContextIs(pc, Position(0, 110.0, 120.0, 680.0, 100.0), [SpanOuterGroup], Some(100.0), None,
                       map[OuterCell := SpanOuterEnd, NestedCell := SpanNestedEnd])
    modifies pc
    ensures ContextIs(pc, Position(0, 130.0, 120.0, 680.0, 20.0),
                      [SpanOuterGroup, Snapshot(110.0, 120.0, 680.0, 100.0, 0, None, Some(100.0), Some(Position(0, 110.0, 120.0, 680.0, 100.0)))],
                      Some(20.0), None, map[OuterCell := SpanOuterEnd, NestedCell := SpanNestedEnd])
  {
    pc.BeginColumnGroup();
    pc.BeginColumn(20.0, None, None);
    pc.y := 10.0;
    pc.BeginColumn(20.0, None, None);
  }

  /** Nested row 2: columns end at 10 and 20; the third is the end of the span parked in row 1. */
  method SpanNestedRow2(pc: DocumentContext)
    requires ContextIs(pc, Position(0, 110.0, 120.0, 680.0, 100.0), [SpanOuterGroup], Some(100.0), None,
                       map[OuterCell := SpanOuterEnd, NestedCell := SpanNestedEnd])
    modifies pc
    ensures ContextIs(pc, Position(0, 110.0, 180.0, 680.0, 100.0), [SpanOuterGroup], Some(100.0), None,
                      map[OuterCell := SpanOuterEnd, NestedCell := SpanNestedEnd])
  {
    SpanNestedRow2Start(pc);
    pc.y := 20.0;
    pc.BeginColumn(40.0, Some(0.0), None);
    pc.MarkEnding(NestedCell);
    pc.CompleteColumnGroup(None);
  }

  /** Outer row 2: column 1 is the end of the span parked in row 1; the others end at 50 and 10. */
  method SpanOuterRow2(pc: DocumentContext)
    requires ContextIs(pc, Position(0, 40.0, 180.0, 680.0, 320.0), [], None, None,
                       map[OuterCell := SpanOuterEnd, NestedCell := SpanNestedEnd])
    modifies pc
    ensures pc.Valid() && pc.y == 350.0
  {
    pc.BeginColumnGroup();
    pc.BeginColumn(30.0, None, None);
    pc.MarkEnding(OuterCell);
    pc.BeginColumn(40.0, None, None);
    pc.y := 50.0;
    pc.BeginColumn(100.0, None, None);
    pc.y := 10.0;
    pc.CompleteColumnGroup(None);
  }

  /** Row spans across a nested table: a parked column end counts only in the row that marks it. */
  method SpanningCellsInNestedGroups() returns (nestedRow1: real, nestedRow2: real, outerRow1: real, outerRow2: real)
    ensures nestedRow1 == 120.0 && nestedRow2 == 180.0 && outerRow1 == 180.0 && outerRow2 == 350.0
  {
    var pc := new DocumentContext(TestPageSize, TestMargins);
    SpanOuterRow1(pc);
    SpanNestedRow1Start(pc);
    SpanNestedRow1(pc);
    nestedRow1 := pc.y;
    SpanNestedRow2(pc);
    nestedRow2 := pc.y;
    pc.CompleteColumnGroup(None);
    outerRow1 := pc.y;
    SpanOuterRow2(pc);
    outerRow2 := pc.y;
  }

  method InitializePageKeepsColumnWidth() returns (inColumn: real, afterGroup: real)
    ensures inColumn == 100.0 && afterGroup == 400.0 - 40.0 - 40.0
  {
    var cell: CellId := 1;
    var pc := new DocumentContext(TestPageSize, TestMargins);
    pc.BeginColumnGroup();
    pc.BeginColumn(100.0, Some(0.0), Some(cell));
    pc.InitializePage();
    inColumn := pc.availableWidth;
    pc.CompleteColumnGroup(None);
    afterGroup := pc.availableWidth;
  }

  method BottomMostExamples() returns (acrossPages: Position, samePage: Position)
    ensures acrossPages.page == 3 && acrossPages.y == 5.0
    ensures samePage.page == 3 && samePage.y == 100.0
  {
    acrossPages := BottomMostContext(Position(2, 0.0, 10.0, 0.0, 0.0), Position(3, 0.0, 5.0, 0.0, 0.0));
    samePage := BottomMostContext(Position(3, 0.0, 100.0, 0.0, 0.0), Position(3, 0.0, 50.0, 0.0, 0.0));
  }

  /** The outer group after three columns (the first deepest, at y 200) and the start of a nested group. */
  const NestOuterGroup := Snapshot(40.0, 60.0, 680.0, 320.0, 0, None, None, Some(Position(0, 40.0, 200.0, 680.0, 50.0)))
  const NestInnerGroup := Snapshot(130.0, 60.0, 680.0, 80.0, 0, None, Some(80.0), Some(Position(0, 130.0, 60.0, 680.0, 80.0)))

  /** Three outer columns ending at 200, 150 and (open), then a nested group in the third. */
  method NestOuterColumns(pc: DocumentContext)
    requires ContextIs(pc, StartCursor, [], None, None, map[])
    modifies pc
    ensures ContextIs(pc, Position(0, 130.0, 60.0, 680.0, 80.0), [NestOuterGroup, NestInnerGroup], Some(0.0), None, map[])
  {
    pc.BeginColumnGroup();
    pc.BeginColumn(50.0, None, None);
    pc.y := 200.0;
    pc.BeginColumn(40.0, None, None);
    pc.y := 150.0;
    pc.BeginColumn(80.0, None, None);
    pc.BeginColumnGroup();
  }

  /** Two nested columns, the first ending on page 2 at y 240, then the nested group closes. */
  method NestInnerColumns(pc: DocumentContext)
    requires ContextIs(pc, Position(0, 130.0, 60.0, 680.0, 80.0), [NestOuterGroup, NestInnerGroup], Some(0.0), None, map[])
    modifies pc
    ensures ContextIs(pc, Position(2, 130.0, 240.0, 680.0, 80.0), [NestOuterGroup], Some(80.0), None, map[])
  {
    pc.BeginColumn(20.0, None, None);
    pc.y := 240.0;
    pc.page := 2;
    pc.BeginColumn(20.0, None, None);
    pc.y := 260.0;
    pc.CompleteColumnGroup(None);
  }

  /** Nested groups: each close returns to its own x and to the deepest point below it, across pages. */
  method NestedGroups() returns (inner: (nat, real), middle: (nat, real, int, real), outer: (nat, real, int, real))
    ensures inner == (2, 40.0 + 50.0 + 40.0)
    ensures middle == (1, 40.0 + 50.0 + 40.0, 2, 240.0)
    ensures outer == (0, 40.0, 2, 240.0)
  {
    var pc := new DocumentContext(TestPageSize, TestMargins);
    NestOuterColumns(pc);
    inner := (|pc.snapshots|, pc.snapshots[1].x);
    NestInnerColumns(pc);
    middle := (|pc.snapshots|, pc.x, pc.page, pc.y);
    pc.CompleteColumnGroup(None);
    outer := (|pc.snapshots|, pc.x, pc.page, pc.y);
  }

  /** A group of two columns, however deep they run, closes at the x where it began. */
  method ColumnGroupRestoresX(pc: DocumentContext, w1: real, w2: real, h1: real, h2: real)
    requires pc.Valid()
    modifies pc
    ensures pc.Valid()
    ensures pc.x == old(pc.x) && pc.snapshots == old(pc.snapshots) && pc.endingCell == None
  {
    pc.BeginColumnGroup();
    pc.BeginColumn(w1, None, None);
    var room1 := pc.MoveDown(h1);
    pc.BeginColumn(w2, None, None);
    var room2 := pc.MoveDown(h2);
    pc.CompleteColumnGroup(None);
  }

  /** The sum of a sequence of lengths. */
  function Sum(s: seq<real>): real
  {
    if s == [] then 0.0 else Sum(s[..|s| - 1]) + s[|s| - 1]
  }

  /**
   * The innermost of `n + 1` stack entries is a column group opened at
   * `page`, `y` with height `availableHeight`, and a column width is defined.
   */
  ghost predicate GroupOpen(pc: DocumentContext, n: nat, page: int, y: real, availableHeight: real)
    reads pc
  {
    && pc.Valid() && |pc.snapshots| == n + 1 && pc.snapshots[n].bottomMost.Some?
    && pc.snapshots[n].page == page && pc.snapshots[n].y == y && pc.snapshots[n].availableHeight == availableHeight
    && pc.lastColumnWidth.Some?
  }

  /** The next column of the innermost group, seen only through where it starts. */
  method OpenColumn(pc: DocumentContext, width: real, offset: real, ghost n: nat, ghost page: int, ghost y: real,
                    ghost availableHeight: real)
    requires GroupOpen(pc, n, page, y, availableHeight)
    modifies pc
    ensures GroupOpen(pc, n, page, y, availableHeight)
    ensures pc.Cursor() == Position(page, old(pc.x) + old(pc.lastColumnWidth).value + offset, y, availableHeight, width)
    ensures pc.lastColumnWidth == Some(width)
  {
    pc.BeginColumn(width, Some(offset), None);
  }

  /** Where column k starts: past the widths of the columns before it and the offsets up to its own. */
  function ColumnX(x: real, widths: seq<real>, offsets: seq<real>, k: nat): real
    requires k < |widths| && |offsets| == |widths|
  {
    x + Sum(widths[..k]) + Sum(offsets[..k + 1])
  }

  /**
   * With nothing moving x between columns, column k of a new group starts on
   * the group's page and y, at the group's x plus the widths of the columns
   * before it plus the offsets of columns 0 through k, with its own width.
   */
  method ColumnsStartPastEarlierColumns(pc: DocumentContext, widths: seq<real>, offsets: seq<real>)
    returns (starts: seq<Position>)
    requires pc.Valid() && |offsets| == |widths|
    modifies pc
    ensures pc.Valid()
    ensures |starts| == |widths|
    ensures forall k :: 0 <= k < |starts| ==>
              starts[k] == Position(old(pc.page), old(pc.x) + Sum(widths[..k]) + Sum(offsets[..k + 1]),
                                    old(pc.y), old(pc.availableHeight), widths[k])
  {
    ghost var page, x, y, height := pc.page, pc.x, pc.y, pc.availableHeight;
    pc.BeginColumnGroup();
    ghost var n := |pc.snapshots| - 1;
    starts := [];
    for k := 0 to |widths|
      invariant GroupOpen(pc, n, page, y, height)
      invariant pc.x + pc.lastColumnWidth.value == x + Sum(widths[..k]) + Sum(offsets[..k])
      invariant |starts| == k
      invariant forall j :: 0 <= j < k ==> starts[j] == Position(page, ColumnX(x, widths, offsets, j), y, height, widths[j])
    {
      assert widths[..k + 1][..k] == widths[..k] && offsets[..k + 1][..k] == offsets[..k];
      OpenColumn(pc, widths[k], offsets[k], n, page, y, height);
      starts := starts + [pc.Cursor()];
    }
  }

  /** What a detached block's body may do to the cursor. */
  datatype BlockStep =
    | Down(offset: real)
    | Margin(left: real, right: Option<real>)
    | Relocate(newX: Option<real>, newY: Option<real>)
    | NextPage(requested: OrientationOverride)
    | ResetPage

  /** The steps that initialise a page and so rewrite the page snapshot's width. */
  predicate TurnsPage(step: BlockStep)
  {
    step.NextPage? || step.ResetPage?
  }

  /** The stack after the page snapshot's width was last set to `width`, if ever. */
  function Rewidth(snapshots: seq<Snapshot>, width: Option<real>): seq<Snapshot>
  {
    if width.Some? then WithPageSnapshotWidth(snapshots, width.value) else snapshots
  }

  /** Runs one step; `pageWidth` is the printable width given to the page snapshot, if the step set one. */
  method RunBlockStep(pc: DocumentContext, step: BlockStep) returns (pageWidth: Option<real>)
    requires pc.Valid() && pc.HasCurrentPage()
    modifies pc
    ensures pc.Valid() && pc.HasCurrentPage()
    ensures pageWidth.Some? <==> TurnsPage(step)
    ensures pageWidth.Some? ==> pageWidth.value == pc.InnerWidth(pc.pages[pc.page].pageSize)
    ensures pc.snapshots == Rewidth(old(pc.snapshots), pageWidth)
    ensures |pc.pages| >= old(|pc.pages|) && forall p :: 0 <= p < old(|pc.pages|) ==> pc.pages[p].pageSize == old(pc.pages[p].pageSize)
    ensures pc.syncLog == old(pc.syncLog) && pc.endingCell == old(pc.endingCell)
    ensures pc.lastColumnWidth == old(pc.lastColumnWidth) && pc.endings == old(pc.endings)
  {
    pageWidth := None;
    match step
    case Down(offset) =>
      var hasRoom := pc.MoveDown(offset);
    case Margin(left, right) =>
      pc.AddMargin(left, right);
    case Relocate(newX, newY) =>
      pc.MoveTo(newX, newY);
    case NextPage(requested) =>
      var turn := pc.MoveToNextPage(requested);
      pageWidth := Some(pc.InnerWidth(pc.pages[pc.page].pageSize));
    case ResetPage =>
      pc.InitializePage();
      pageWidth := Some(pc.InnerWidth(pc.pages[pc.page].pageSize));
  }

  /** Runs the steps in order; `pageWidth` is the printable width last given to the page snapshot, if any. */
  method RunBlockSteps(pc: DocumentContext, steps: seq<BlockStep>) returns (pageWidth: Option<real>)
    requires pc.Valid() && pc.HasCurrentPage()
    modifies pc
    ensures pc.Valid() && pc.HasCurrentPage()
    ensures pageWidth.None? <==> forall k :: 0 <= k < |steps| ==> !TurnsPage(steps[k])
    ensures pageWidth.Some? ==> exists p :: 0 <= p < |pc.pages| && pageWidth.value == pc.InnerWidth(pc.pages[p].pageSize)
    ensures pc.snapshots == Rewidth(old(pc.snapshots), pageWidth)
    ensures pc.syncLog == old(pc.syncLog) && pc.endingCell == old(pc.endingCell)
    ensures pc.lastColumnWidth == old(pc.lastColumnWidth)
  {
    pageWidth := None;
    for k := 0 to |steps|
      invariant pc.Valid() && pc.HasCurrentPage()
      invariant pc.snapshots == Rewidth(old(pc.snapshots), pageWidth) && pc.syncLog == old(pc.syncLog)
      invariant pc.endingCell == old(pc.endingCell) && pc.lastColumnWidth == old(pc.lastColumnWidth)
      invariant pageWidth.None? <==> forall j :: 0 <= j < k ==> !TurnsPage(steps[j])
      invariant pageWidth.Some? ==> exists p :: 0 <= p < |pc.pages| && pageWidth.value == pc.InnerWidth(pc.pages[p].pageSize)
    {
      var width := RunBlockStep(pc, steps[k]);
      if width.Some? {
        pageWidth := width;
      }
    }
  }

  /**
   * A detached block gives back the cursor, the ending cell and the column
   * width whatever steps run inside it. The one exception is the available
   * width of a block opened on an empty stack: the block is then the page
   * snapshot, and a page initialisation inside it overwrites the width it
   * saved. Only the stack's page snapshot keeps the new printable width.
   */
  method DetachedBlockRoundTrip(pc: DocumentContext, steps: seq<BlockStep>) returns (pageWidth: Option<real>)
    requires pc.Valid() && pc.HasCurrentPage()
    modifies pc
    ensures pc.Valid()
    ensures pc.page == old(pc.page) && pc.x == old(pc.x) && pc.y == old(pc.y)
    ensures pc.availableHeight == old(pc.availableHeight)
    ensures pc.endingCell == old(pc.endingCell) && pc.lastColumnWidth == old(pc.lastColumnWidth)
    ensures pageWidth.None? <==> forall k :: 0 <= k < |steps| ==> !TurnsPage(steps[k])
    ensures pageWidth.Some? ==> exists p :: 0 <= p < |pc.pages| && pageWidth.value == pc.InnerWidth(pc.pages[p].pageSize)
    ensures pc.availableWidth == if old(|pc.snapshots|) == 0 && pageWidth.Some? then pageWidth.value else old(pc.availableWidth)
    ensures pc.snapshots == Rewidth(old(pc.snapshots), pageWidth) && pc.syncLog == old(pc.syncLog)
  {
    pc.BeginDetachedBlock();
    ghost var n := |pc.snapshots| - 1;
    pageWidth := RunBlockSteps(pc, steps);
    assert pc.snapshots[..n] == Rewidth(old(pc.snapshots), pageWidth);
    pc.EndDetachedBlock();
  }

  /** Pushing a context and popping it again restores the writer's active context and its stack. */
  method PushPopRoundTrip(w: ElementWriter, ctx: DocumentContext)
    requires w.Valid() && ctx.Valid()
    modifies w
    ensures w.Valid()
    ensures w.context == old(w.context) && w.contextStack == old(w.contextStack)
  {
    w.PushContext(ctx);
    w.PopContext();
  }

  /** A line of width 100 in 400 units of room, aligned three ways. */
  method AlignmentExamples() returns (centered: real, flushRight: real, shifts: seq<real>)
    ensures centered == 150.0 && flushRight == 300.0
    ensures shifts == [0.0, 150.0, 300.0]
  {
    var c := AlignLine(Line(0.0, 0.0, 100.0, 10.0, false, false, [Inline(0.0, AlignCenter, None)]), 400.0);
    var r := AlignLine(Line(0.0, 0.0, 100.0, 10.0, false, false, [Inline(0.0, AlignRight, None)]), 400.0);
    var runs := [Inline(0.0, AlignJustify, None), Inline(0.0, AlignNone, None), Inline(0.0, AlignNone, None)];
    var justified := Line(0.0, 0.0, 100.0, 10.0, false, false, runs);
    assert Justifies(justified);
    assert JustifiedRun(runs[1], 1, 150.0) == Inline(150.0, AlignNone, Some(150.0));
    assert JustifiedRun(runs[2], 2, 150.0) == Inline(300.0, AlignNone, Some(150.0));
    var j := AlignLine(justified, 400.0);
    assert j.inlines == Aligned(justified, 400.0).inlines;
    centered, flushRight := c.x, r.x;
    shifts := [j.inlines[0].x, j.inlines[1].x, j.inlines[2].x];
  }

  /** A centred line written at the top of the first page: placed mid-way across the printable width, then the cursor moves down. */
  method AddLineAtTop() returns (position: Option<PositionInfo>, placedX: real, cursorY: real)
    ensures position.Some? && position.value.pageNumber == 1 && position.value.top == 60.0
    ensures placedX == 40.0 + (320.0 - 100.0) / 2.0
    ensures cursorY == 60.0 + 10.0
  {
    var pc := new DocumentContext(TestPageSize, TestMargins);
    var w := new ElementWriter(pc);
    var line := Line(0.0, 0.0, 100.0, 10.0, false, false, [Inline(0.0, AlignCenter, None)]);
    var placed := Line(150.0, 60.0, 100.0, 10.0, false, false, [Inline(0.0, AlignCenter, None)]);
    assert Aligned(line.(x := 40.0, y := 60.0), 320.0) == placed;
    position := w.AddLine(line, false, None);
    assert pc.pages[0].items == [LineItem(placed)];
    placedX := pc.pages[0].items[0].line.x;
    cursorY := pc.y;
  }
}
