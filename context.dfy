/**
 * The position context: cursor, remaining space, pages, and the single
 * snapshot stack shared by column groups and detached blocks.
 */
module Context {
  import opened Layout

  /** Identity of an externally owned table cell that ends a row span. */
  type CellId = nat

  /** The record bottomMostContext builds: what vertical synchronisation compares and keeps. */
  datatype Position = Position(page: int, x: real, y: real, availableHeight: real, availableWidth: real)

  /**
   * One entry of the snapshot stack. Column groups carry `bottomMost`;
   * detached blocks push the same saved fields with no `bottomMost`.
   */
  datatype Snapshot = Snapshot(
    x: real,
    y: real,
    availableHeight: real,
    availableWidth: real,
    page: int,
    endingCell: Option<CellId>,
    lastColumnWidth: Option<real>,
    bottomMost: Option<Position>)

  /** What a row-spanning cell remembers about its column's end. */
  datatype EndingContext = EndingContext(
    page: int,
    x: real,
    y: real,
    availableHeight: real,
    availableWidth: real,
    lastColumnWidth: Option<real>)

  /** Proof-only record of a column group: where it started and every column end folded in. */
  datatype SyncLog = SyncLog(start: Position, ends: seq<Position>)

  /** The result of moveToNextPage. */
  datatype PageTurn = PageTurn(newPageCreated: bool, prevPage: int, prevY: real, y: real)

  /**
   * The result of getCurrentPosition. A ratio is None where the printable
   * dimension is zero (the source then divides by zero).
   */
  datatype PositionInfo = PositionInfo(
    pageNumber: int,
    pageOrientation: Option<string>,
    pageInnerHeight: real,
    pageInnerWidth: real,
    left: real,
    top: real,
    verticalRatio: Option<real>,
    horizontalRatio: Option<real>)

  /** The argument of moveToNextPage: undefined, a string, or some other value. */
  datatype OrientationOverride = Unspecified | Named(name: string) | NotAString

  const LandscapeName: string := "landscape"
  const PortraitName: string := "portrait"

  /** `a` lies strictly further down than `b`: a later page, or the same page and a larger y. */
  predicate Deeper(a: Position, b: Position)
  {
    a.page > b.page || (a.page == b.page && a.y > b.y)
  }

  /** The deeper of two positions; on a tie the second (the existing bottom-most) is kept. */
  function BottomMostContext(c1: Position, c2: Position): (r: Position)
    ensures r == c1 || r == c2
    ensures !Deeper(c1, r) && !Deeper(c2, r)
    ensures !Deeper(c1, c2) ==> r == c2
  {
    if c1.page > c2.page then c1
    else if c2.page > c1.page then c2
    else if c1.y > c2.y then c1 else c2
  }

  /**
   * The bottom-most position after folding the column ends `ends`, in order,
   * into a group that started at `start`: it is at least as deep as every one
   * of them and is one of them.
   */
  function Deepest(start: Position, ends: seq<Position>): Position
    decreases |ends|
  {
    if ends == [] then start
    else BottomMostContext(ends[|ends| - 1], Deepest(start, ends[..|ends| - 1]))
  }

  /** Vertical synchronisation: the fold reaches the deepest of the start and all column ends. */
  lemma {:induction false} DeepestIsBottomMost(start: Position, ends: seq<Position>)
    ensures Deepest(start, ends) == start || Deepest(start, ends) in ends
    ensures !Deeper(start, Deepest(start, ends))
    ensures forall i :: 0 <= i < |ends| ==> !Deeper(ends[i], Deepest(start, ends))
    decreases |ends|
  {
    if ends != [] {
      var prefix := ends[..|ends| - 1];
      DeepestIsBottomMost(start, prefix);
      assert forall i :: 0 <= i < |prefix| ==> prefix[i] == ends[i];
    }
  }

  /**
   * ASCII lower-casing; for equality with "landscape" it agrees with `toLowerCase`.
   * Each upper-case letter becomes its lower-case partner (32 code points
   * up) and every other character is kept.
   */
  function LowerAscii(s: string): (r: string)
    ensures |r| == |s|
    ensures forall i :: 0 <= i < |s| && 'A' <= s[i] <= 'Z' ==> 'a' <= r[i] <= 'z' && r[i] as int == s[i] as int + 32
    ensures forall i :: 0 <= i < |s| && !('A' <= s[i] <= 'Z') ==> r[i] == s[i]
    ensures forall i :: 0 <= i < |r| ==> !('A' <= r[i] <= 'Z')
  {
    seq(|s|, i requires 0 <= i < |s| =>
      if 'A' <= s[i] <= 'Z' then (s[i] as int + 32) as char else s[i])
  }

  /** Lower-casing a lower-cased string changes nothing. */
  lemma LowerAsciiIdempotent(s: string)
    ensures LowerAscii(LowerAscii(s)) == LowerAscii(s)
  {
  }

  /** Any capitalisation of "landscape" names the landscape orientation. */
  lemma LandscapeIgnoresCase()
    ensures LowerAscii("LANDSCAPE") == LandscapeName && LowerAscii("Landscape") == LandscapeName
    ensures PageOrientation(Named("LANDSCAPE"), Some(PortraitName)) == Some(LandscapeName)
    ensures PageOrientation(Named("Portrait"), Some(LandscapeName)) == Some(PortraitName)
  {
    assert LowerAscii("Portrait") != LandscapeName by {
      assert |LowerAscii("Portrait")| != |LandscapeName|;
    }
  }

  /**
   * The orientation a new page gets: the current one when no override is
   * given, "landscape" for a string that lower-cases to it, "portrait" otherwise.
   */
  function PageOrientation(requested: OrientationOverride, current: Option<string>): (r: Option<string>)
    ensures requested.Unspecified? ==> r == current
    ensures !requested.Unspecified? ==> r == Some(LandscapeName) || r == Some(PortraitName)
    ensures !requested.Unspecified? ==>
              (r == Some(LandscapeName) <==> requested.Named? && LowerAscii(requested.name) == LandscapeName)
  {
    match requested
    case Unspecified => current
    case Named(name) => if LowerAscii(name) == LandscapeName then Some(LandscapeName) else Some(PortraitName)
    case NotAString => Some(PortraitName)
  }

  /**
   * The size of a page created after `current`: it has the resolved
   * orientation, keeps the dimensions when that orientation is unchanged and
   * swaps width and height when it changes.
   */
  function GetPageSize(current: PageSize, requested: OrientationOverride): (r: PageSize)
    ensures r.orientation == PageOrientation(requested, current.orientation)
    ensures r.orientation == current.orientation ==> r == current
    ensures r.orientation != current.orientation ==> r.width == current.height && r.height == current.width
  {
    var orientation := PageOrientation(requested, current.orientation);
    if orientation != current.orientation then
      PageSize(current.height, current.width, orientation)
    else
      PageSize(current.width, current.height, current.orientation)
  }

  /** Turning to a new page twice with the same override changes nothing the second time. */
  lemma GetPageSizeIdempotent(current: PageSize, requested: OrientationOverride)
    ensures GetPageSize(GetPageSize(current, requested), requested) == GetPageSize(current, requested)
  {
  }

  /** A portrait page turned landscape and back has its original size. */
  lemma GetPageSizeFlipBack(current: PageSize)
    requires current.orientation == Some(PortraitName)
    ensures GetPageSize(current, Named(LandscapeName)).width == current.height
    ensures GetPageSize(GetPageSize(current, Named(LandscapeName)), Named(PortraitName)) == current
  {
    assert LowerAscii(LandscapeName) == LandscapeName;
    assert LowerAscii(PortraitName) != LandscapeName by {
      assert |LowerAscii(PortraitName)| != |LandscapeName|;
    }
  }

  /**
   * The y at which a column group closes. Without a (truthy) minimum height
   * it is the bottom-most y. With one, on the group's own page it is the
   * larger of that y and the group's y plus the height; on a later page the
   * height is added to the bottom-most y unconditionally.
   */
  function GroupEndY(savedPage: int, savedY: real, bottom: Position, height: Option<real>): (y: real)
    ensures !Truthy(height) ==> y == bottom.y
    ensures Truthy(height) && savedPage == bottom.page ==>
              y >= bottom.y && y >= savedY + height.value && (y == bottom.y || y == savedY + height.value)
    ensures Truthy(height) && savedPage != bottom.page ==> y == bottom.y + height.value
  {
    if !Truthy(height) then bottom.y
    else if savedPage == bottom.page then
      (if savedY + height.value > bottom.y then savedY + height.value else bottom.y)
    else bottom.y + height.value
  }

  /** The page snapshot (the outermost stack entry) with its remembered width replaced. */
  function WithPageSnapshotWidth(snapshots: seq<Snapshot>, width: real): (r: seq<Snapshot>)
    ensures |r| == |snapshots|
    ensures |r| > 0 ==> r[0].availableWidth == width && r[0] == snapshots[0].(availableWidth := width)
    ensures forall i :: 0 < i < |r| ==> r[i] == snapshots[i]
  {
    if |snapshots| > 0 then snapshots[0 := snapshots[0].(availableWidth := width)] else snapshots
  }

  /** The bottom-most record of every open column group is the fold of its log. */
  ghost predicate LogsMatch(snapshots: seq<Snapshot>, logs: seq<SyncLog>)
  {
    && |logs| == |snapshots|
    && forall i {:trigger logs[i]} :: 0 <= i < |snapshots| && snapshots[i].bottomMost.Some? ==>
         snapshots[i].bottomMost.value == Deepest(logs[i].start, logs[i].ends)
  }

  /**
   * Inside a column group the last column width is defined: live, and in
   * every snapshot pushed after the group began.
   */
  predicate WidthsDefined(snapshots: seq<Snapshot>, live: Option<real>)
  {
    forall j :: 0 <= j < |snapshots| && snapshots[j].bottomMost.Some? ==>
      live.Some? && forall i :: j < i < |snapshots| ==> snapshots[i].lastColumnWidth.Some?
  }

  /** Every recorded column end has a defined column width. */
  predicate EndingsDefined(endings: map<CellId, EndingContext>)
  {
    forall c :: c in endings ==> endings[c].lastColumnWidth.Some?
  }

  /**
   * A saved position is on an existing page and its available height is the
   * room left from its y down to the bottom margin of that page.
   */
  predicate HeightFits(pages: seq<Page>, marginBottom: real, page: int, y: real, availableHeight: real)
  {
    0 <= page < |pages| && availableHeight == pages[page].pageSize.height - y - marginBottom
  }

  predicate SnapshotFits(pages: seq<Page>, marginBottom: real, s: Snapshot)
  {
    && HeightFits(pages, marginBottom, s.page, s.y, s.availableHeight)
    && (s.bottomMost.Some? ==>
          HeightFits(pages, marginBottom, s.bottomMost.value.page, s.bottomMost.value.y, s.bottomMost.value.availableHeight))
  }

  /** The height invariant for every snapshot with its bottom-most, and every stored column end. */
  predicate SavedHeightsFit(pages: seq<Page>, marginBottom: real, snapshots: seq<Snapshot>,
                            endings: map<CellId, EndingContext>)
  {
    && (forall i :: 0 <= i < |snapshots| ==> SnapshotFits(pages, marginBottom, snapshots[i]))
    && (forall c :: c in endings ==> HeightFits(pages, marginBottom, endings[c].page, endings[c].y, endings[c].availableHeight))
  }

  /** The height invariant, for the live cursor and for every position saved from it. */
  predicate HeightsFit(pages: seq<Page>, marginBottom: real, cursor: Position, snapshots: seq<Snapshot>,
                       endings: map<CellId, EndingContext>)
  {
    HeightFits(pages, marginBottom, cursor.page, cursor.y, cursor.availableHeight) &&
    SavedHeightsFit(pages, marginBottom, snapshots, endings)
  }

  /** Page contents may change and pages may be appended: every saved height that fit still fits. */
  lemma SavedHeightsFitGrow(pages: seq<Page>, pages': seq<Page>, marginBottom: real,
                            snapshots: seq<Snapshot>, endings: map<CellId, EndingContext>)
    requires SavedHeightsFit(pages, marginBottom, snapshots, endings)
    requires |pages| <= |pages'| && forall i :: 0 <= i < |pages| ==> pages'[i].pageSize == pages[i].pageSize
    ensures SavedHeightsFit(pages', marginBottom, snapshots, endings)
  {
    forall i | 0 <= i < |snapshots|
      ensures SnapshotFits(pages', marginBottom, snapshots[i])
    {
      assert SnapshotFits(pages, marginBottom, snapshots[i]);
    }
    forall c | c in endings
      ensures HeightFits(pages', marginBottom, endings[c].page, endings[c].y, endings[c].availableHeight)
    {
      assert HeightFits(pages, marginBottom, endings[c].page, endings[c].y, endings[c].availableHeight);
    }
  }

  lemma LogsMatchPush(snapshots: seq<Snapshot>, logs: seq<SyncLog>, s: Snapshot, log: SyncLog)
    requires LogsMatch(snapshots, logs)
    requires s.bottomMost.Some? ==> s.bottomMost.value == Deepest(log.start, log.ends)
    ensures LogsMatch(snapshots + [s], logs + [log])
  {
  }

  lemma LogsMatchPop(snapshots: seq<Snapshot>, logs: seq<SyncLog>)
    requires LogsMatch(snapshots, logs) && |snapshots| > 0
    ensures LogsMatch(snapshots[..|snapshots| - 1], logs[..|logs| - 1])
  {
  }

  lemma LogsMatchSet(snapshots: seq<Snapshot>, logs: seq<SyncLog>, k: nat, s: Snapshot, log: SyncLog)
    requires LogsMatch(snapshots, logs) && k < |snapshots|
    requires s.bottomMost.Some? ==> s.bottomMost.value == Deepest(log.start, log.ends)
    ensures LogsMatch(snapshots[k := s], logs[k := log])
  {
  }

  lemma WidthsDefinedPush(snapshots: seq<Snapshot>, live: Option<real>, s: Snapshot, live': Option<real>)
    requires WidthsDefined(snapshots, live) && s.lastColumnWidth == live
    requires live.Some? ==> live'.Some?
    requires s.bottomMost.Some? ==> live'.Some?
    ensures WidthsDefined(snapshots + [s], live')
  {
    var t := snapshots + [s];
    forall j | 0 <= j < |t| && t[j].bottomMost.Some?
      ensures live'.Some? && forall i :: j < i < |t| ==> t[i].lastColumnWidth.Some?
    {
      if j < |snapshots| {
        assert snapshots[j].bottomMost.Some?;
      }
    }
  }

  lemma WidthsDefinedPop(snapshots: seq<Snapshot>, live: Option<real>)
    requires WidthsDefined(snapshots, live) && |snapshots| > 0
    ensures WidthsDefined(snapshots[..|snapshots| - 1], snapshots[|snapshots| - 1].lastColumnWidth)
    ensures WidthsDefined(snapshots[..|snapshots| - 1], live)
  {
    var n := |snapshots| - 1;
    var t := snapshots[..n];
    forall j | 0 <= j < |t| && t[j].bottomMost.Some?
      ensures live.Some? && snapshots[n].lastColumnWidth.Some?
      ensures forall i :: j < i < |t| ==> t[i].lastColumnWidth.Some?
    {
      assert snapshots[j].bottomMost.Some?;
    }
  }

  lemma WidthsDefinedSet(snapshots: seq<Snapshot>, live: Option<real>, k: nat, s: Snapshot)
    requires WidthsDefined(snapshots, live) && k < |snapshots|
    requires s.bottomMost.Some? == snapshots[k].bottomMost.Some?
    requires s.lastColumnWidth == snapshots[k].lastColumnWidth
    ensures WidthsDefined(snapshots[k := s], live)
  {
    var t := snapshots[k := s];
    forall j | 0 <= j < |t| && t[j].bottomMost.Some?
      ensures live.Some? && forall i :: j < i < |t| ==> t[i].lastColumnWidth.Some?
    {
      assert snapshots[j].bottomMost.Some?;
    }
  }

  class DocumentContext {
    var pages: seq<Page>
    const pageMargins: Margins
    var x: real
    var y: real
    var availableWidth: real
    var availableHeight: real
    var page: int
    var snapshots: seq<Snapshot>
    var endingCell: Option<CellId>
    var lastColumnWidth: Option<real>
    /** The `_columnEndingContext` written onto ending cells, as a side-table. */
    var endings: map<CellId, EndingContext>
    /** One log per snapshot; only the logs of column groups are meaningful. */
    ghost var syncLog: seq<SyncLog>
    /** Number of `pageAdded` notifications emitted. */
    ghost var pagesAdded: nat

    ghost predicate Valid()
      reads this
    {
      LogsMatch(snapshots, syncLog) && WidthsDefined(snapshots, lastColumnWidth) && EndingsDefined(endings)
    }

    /**
     * The available height is the room from y to the bottom margin of the
     * current page, for the cursor and for every position saved from it.
     */
    ghost predicate HeightsTrackPages()
      reads this
    {
      HeightsFit(pages, pageMargins.bottom, Cursor(), snapshots, endings)
    }

    /** The live position, as bottomMostContext reads it. */
    function Cursor(): Position
      reads this
    {
      Position(page, x, y, availableHeight, availableWidth)
    }

    /** The live ending context, as saveContextInEndingCell records it. */
    function EndingOf(): EndingContext
      reads this
    {
      EndingContext(page, x, y, availableHeight, availableWidth, lastColumnWidth)
    }

    /** Everything about nesting: the stack, its logs, the pending cell and the side-table. */
    ghost function Nesting(): (seq<Snapshot>, seq<SyncLog>, Option<CellId>, Option<real>, map<CellId, EndingContext>)
      reads this
    {
      (snapshots, syncLog, endingCell, lastColumnWidth, endings)
    }

    predicate HasCurrentPage()
      reads this
    {
      0 <= page < |pages|
    }

    function InnerWidth(size: PageSize): real
    {
      size.width - pageMargins.left - pageMargins.right
    }

    function InnerHeight(size: PageSize): real
    {
      size.height - pageMargins.top - pageMargins.bottom
    }

    /** The current page, or None when the page index is out of range. */
    function GetCurrentPage(): (r: Option<Page>)
      reads this
      ensures r.Some? <==> HasCurrentPage()
      ensures r.Some? ==> r.value == pages[page]
    {
      if page < 0 || page >= |pages| then None else Some(pages[page])
    }

    /**
     * The position report: 1-based page number, printable size, cursor, and
     * the cursor's offset from the margins as a fraction of the printable size.
     */
    function CurrentPosition(): (p: PositionInfo)
      reads this
      requires HasCurrentPage()
      ensures p.pageNumber == page + 1 && p.pageNumber >= 1
      ensures p.pageOrientation == pages[page].pageSize.orientation
      ensures p.pageInnerHeight == InnerHeight(pages[page].pageSize) && p.pageInnerWidth == InnerWidth(pages[page].pageSize)
      ensures p.left == x && p.top == y
      ensures p.verticalRatio.Some? <==> p.pageInnerHeight != 0.0
      ensures p.verticalRatio.Some? ==> p.top == pageMargins.top + p.verticalRatio.value * p.pageInnerHeight
      ensures p.horizontalRatio.Some? <==> p.pageInnerWidth != 0.0
      ensures p.horizontalRatio.Some? ==> p.left == pageMargins.left + p.horizontalRatio.value * p.pageInnerWidth
    {
      var size := pages[page].pageSize;
      var innerHeight := InnerHeight(size);
      var innerWidth := InnerWidth(size);
      PositionInfo(
        page + 1, size.orientation, innerHeight, innerWidth, x, y,
        if innerHeight != 0.0 then Some((y - pageMargins.top) / innerHeight) else None,
        if innerWidth != 0.0 then Some((x - pageMargins.left) / innerWidth) else None)
    }

    constructor (pageSize: PageSize, pageMargins: Margins)
      ensures Valid()
      ensures HeightsTrackPages()
      ensures this.pageMargins == pageMargins
      ensures pages == [Page([], pageSize)] && page == 0
      ensures x == pageMargins.left && y == pageMargins.top
      ensures availableWidth == pageSize.width - pageMargins.left - pageMargins.right
      ensures availableHeight == pageSize.height - pageMargins.top - pageMargins.bottom
      ensures snapshots == [] && syncLog == [] && endingCell == None && lastColumnWidth == None
      ensures endings == map[]
      ensures pagesAdded == 1
    {
      pages := [];
      this.pageMargins := pageMargins;
      x := pageMargins.left;
      availableWidth := pageSize.width - pageMargins.left - pageMargins.right;
      availableHeight := 0.0;
      page := -1;
      snapshots := [];
      endingCell := None;
      lastColumnWidth := None;
      endings := map[];
      syncLog := [];
      pagesAdded := 0;
      new;
      var added := AddPage(pageSize);
    }

    method BeginColumnGroup()
      requires Valid()
      modifies this
      ensures Valid()
      ensures old(HeightsTrackPages()) ==> HeightsTrackPages()
      ensures snapshots == old(snapshots) + [Snapshot(old(x), old(y), old(availableHeight), old(availableWidth),
                                                      old(page), old(endingCell), old(lastColumnWidth), Some(old(Cursor())))]
      ensures syncLog == old(syncLog) + [SyncLog(old(Cursor()), [])]
      ensures lastColumnWidth == Some(0.0)
      ensures Cursor() == old(Cursor()) && endingCell == old(endingCell) && endings == old(endings)
      ensures pages == old(pages) && pagesAdded == old(pagesAdded)
    {
      snapshots := snapshots + [Snapshot(x, y, availableHeight, availableWidth, page, endingCell, lastColumnWidth,
                                         Some(Position(page, x, y, availableHeight, availableWidth)))];
      syncLog := syncLog + [SyncLog(Cursor(), [])];
      lastColumnWidth := Some(0.0);
    }

    /**
     * Closes the current column against `dest`: a column with a pending
     * ending cell is parked on that cell (and the cell cleared); any other
     * column is folded into `dest.bottomMost`.
     */
    method CalculateBottomMost(dest: Snapshot) returns (updated: Snapshot)
      requires Valid() && lastColumnWidth.Some? && dest.bottomMost.Some?
      modifies this
      ensures Valid()
      ensures old(HeightsTrackPages()) && SnapshotFits(pages, pageMargins.bottom, dest) ==>
                HeightsTrackPages() && SnapshotFits(pages, pageMargins.bottom, updated)
      ensures old(endingCell).Some? ==>
                updated == dest && endingCell == None &&
                endings == old(endings)[old(endingCell).value := old(EndingOf())]
      ensures old(endingCell).None? ==>
                updated == dest.(bottomMost := Some(BottomMostContext(old(Cursor()), dest.bottomMost.value))) &&
                endingCell == None && endings == old(endings)
      ensures Cursor() == old(Cursor()) && lastColumnWidth == old(lastColumnWidth)
      ensures snapshots == old(snapshots) && syncLog == old(syncLog)
      ensures pages == old(pages) && pagesAdded == old(pagesAdded)
    {
      if endingCell.Some? {
        SaveContextInEndingCell(endingCell.value);
        endingCell := None;
        updated := dest;
      } else {
        updated := dest.(bottomMost := Some(BottomMostContext(Cursor(), dest.bottomMost.value)));
      }
    }

    /** Records the live column end for `cell`. */
    method SaveContextInEndingCell(cell: CellId)
      requires Valid() && lastColumnWidth.Some?
      modifies this
      ensures Valid()
      ensures old(HeightsTrackPages()) ==> HeightsTrackPages()
      ensures endings == old(endings)[cell := old(EndingOf())]
      ensures Cursor() == old(Cursor()) && lastColumnWidth == old(lastColumnWidth) && endingCell == old(endingCell)
      ensures snapshots == old(snapshots) && syncLog == old(syncLog)
      ensures pages == old(pages) && pagesAdded == old(pagesAdded)
    {
      endings := endings[cell := EndingContext(page, x, y, availableHeight, availableWidth, lastColumnWidth)];
    }

    /**
     * Starts the next column of the innermost group: the previous column is
     * closed, then the cursor returns to the group's page and y, moves right
     * by the previous column's width plus `offset`, and gets `width` as its
     * available width.
     */
    method BeginColumn(width: real, offset: Option<real>, cell: Option<CellId>)
      requires Valid()
      requires |snapshots| > 0 && snapshots[|snapshots| - 1].bottomMost.Some?
      modifies this
      ensures Valid()
      ensures old(HeightsTrackPages()) ==> HeightsTrackPages()
      ensures var saved := old(snapshots[|snapshots| - 1]);
              && page == saved.page && y == saved.y && availableHeight == saved.availableHeight
              && x == old(x) + old(lastColumnWidth).value + OrZero(offset)
              && availableWidth == width && lastColumnWidth == Some(width)
              && endingCell == cell
      ensures old(endingCell).Some? ==>
                snapshots == old(snapshots) && syncLog == old(syncLog) &&
                endings == old(endings)[old(endingCell).value := old(EndingOf())]
      ensures |snapshots| == old(|snapshots|)
      ensures old(endingCell).None? ==>
                var n := old(|snapshots|) - 1;
                var saved := old(snapshots[n]);
                && snapshots == old(snapshots)[n := saved.(bottomMost := Some(BottomMostContext(old(Cursor()), saved.bottomMost.value)))]
                && syncLog == old(syncLog)[n := old(syncLog[n]).(ends := old(syncLog[n]).ends + [old(Cursor())])]
                && endings == old(endings)
      ensures pages == old(pages) && pagesAdded == old(pagesAdded)
    {
      CloseColumn();
      StartColumn(width, offset, cell);
    }

    /**
     * The second half of beginColumn: with the previous column closed, the
     * cursor returns to the group's page, y and height, moves right by the
     * previous column's width plus `offset`, and gets `width`.
     */
    method StartColumn(width: real, offset: Option<real>, cell: Option<CellId>)
      requires Valid() && lastColumnWidth.Some?
      requires |snapshots| > 0 && snapshots[|snapshots| - 1].bottomMost.Some?
      modifies this
      ensures Valid()
      ensures snapshots == old(snapshots) && syncLog == old(syncLog) && endings == old(endings)
      ensures old(SavedHeightsFit(pages, pageMargins.bottom, snapshots, endings)) ==> HeightsTrackPages()
      ensures var saved := snapshots[|snapshots| - 1];
              && page == saved.page && y == saved.y && availableHeight == saved.availableHeight
              && x == old(x) + old(lastColumnWidth).value + OrZero(offset)
              && availableWidth == width && lastColumnWidth == Some(width)
              && endingCell == cell
      ensures pages == old(pages) && pagesAdded == old(pagesAdded)
    {
      var saved := snapshots[|snapshots| - 1];
      ghost var stack, logs := snapshots, syncLog;
      assert LogsMatch(stack, logs) && WidthsDefined(stack, Some(width)) && EndingsDefined(endings);
      ghost var fits := SavedHeightsFit(pages, pageMargins.bottom, snapshots, endings);
      if fits {
        assert SnapshotFits(pages, pageMargins.bottom, saved);
      }

      endingCell := cell;
      page := saved.page;
      x := x + lastColumnWidth.value + OrZero(offset);
      y := saved.y;
      availableWidth := width;
      availableHeight := saved.availableHeight;

      lastColumnWidth := Some(width);
    }

    /** Closes the current column against the innermost group's snapshot. */
    method CloseColumn()
      requires Valid()
      requires |snapshots| > 0 && snapshots[|snapshots| - 1].bottomMost.Some?
      modifies this
      ensures Valid()
      ensures old(HeightsTrackPages()) ==> HeightsTrackPages()
      ensures |snapshots| == old(|snapshots|)
      ensures snapshots[|snapshots| - 1].page == old(snapshots[|snapshots| - 1]).page
      ensures snapshots[|snapshots| - 1].y == old(snapshots[|snapshots| - 1]).y
      ensures snapshots[|snapshots| - 1].availableHeight == old(snapshots[|snapshots| - 1]).availableHeight
      ensures old(endingCell).Some? ==>
                snapshots == old(snapshots) && syncLog == old(syncLog) &&
                endings == old(endings)[old(endingCell).value := old(EndingOf())]
      ensures old(endingCell).None? ==>
                var n := old(|snapshots|) - 1;
                var saved := old(snapshots[n]);
                && snapshots == old(snapshots)[n := saved.(bottomMost := Some(BottomMostContext(old(Cursor()), saved.bottomMost.value)))]
                && syncLog == old(syncLog)[n := old(syncLog[n]).(ends := old(syncLog[n]).ends + [old(Cursor())])]
                && endings == old(endings)
      ensures Cursor() == old(Cursor()) && lastColumnWidth == old(lastColumnWidth) && endingCell == None
      ensures pages == old(pages) && pagesAdded == old(pagesAdded)
    {
      var n := |snapshots| - 1;
      var saved := snapshots[n];
      ghost var log := syncLog[n];
      ghost var closing := Cursor();
      ghost var folded := endingCell.None?;
      ghost var newLog := if folded then log.(ends := log.ends + [closing]) else log;
      assert saved.bottomMost.value == Deepest(log.start, log.ends);
      if folded {
        assert newLog.ends[..|log.ends|] == log.ends;
        assert Deepest(newLog.start, newLog.ends) == BottomMostContext(closing, saved.bottomMost.value);
      }
      ghost var before := snapshots;
      ghost var logs := syncLog;
      saved := CalculateBottomMost(saved);
      LogsMatchSet(before, logs, n, saved, newLog);
      WidthsDefinedSet(before, lastColumnWidth, n, saved);
      snapshots := snapshots[n := saved];
      syncLog := syncLog[n := newLog];
    }

    /** Restores the column end recorded for `cell` (the row span's terminal row). */
    method MarkEnding(cell: CellId)
      requires Valid() && cell in endings
      modifies this
      ensures Valid()
      ensures old(HeightsTrackPages()) ==> HeightsTrackPages()
      ensures var e := old(endings[cell]);
              && page == e.page && x == e.x && y == e.y
              && availableHeight == e.availableHeight && availableWidth == e.availableWidth
              && lastColumnWidth == e.lastColumnWidth
      ensures endingCell == old(endingCell) && endings == old(endings)
      ensures snapshots == old(snapshots) && syncLog == old(syncLog)
      ensures pages == old(pages) && pagesAdded == old(pagesAdded)
    {
      var e := endings[cell];
      page := e.page;
      x := e.x;
      y := e.y;
      availableWidth := e.availableWidth;
      availableHeight := e.availableHeight;
      lastColumnWidth := e.lastColumnWidth;
    }

    /**
     * Closes the innermost column group: the last column is closed, then
     * the cursor goes to the bottom-most point any folded column reached
     * (padded by `height`), with the group's x, width and column width back.
     */
    method CompleteColumnGroup(height: Option<real>)
      requires Valid()
      requires |snapshots| > 0 && snapshots[|snapshots| - 1].bottomMost.Some?
      modifies this
      ensures Valid()
      ensures old(HeightsTrackPages()) ==> HeightsTrackPages()
      ensures snapshots == old(snapshots[..|snapshots| - 1]) && syncLog == old(syncLog[..|syncLog| - 1])
      ensures var saved := old(snapshots[|snapshots| - 1]);
              var bottom := if old(endingCell).Some? then saved.bottomMost.value
                            else BottomMostContext(old(Cursor()), saved.bottomMost.value);
              && x == saved.x && availableWidth == saved.availableWidth
              && lastColumnWidth == saved.lastColumnWidth
              && page == bottom.page
              && y == GroupEndY(saved.page, saved.y, bottom, height)
              && availableHeight == bottom.availableHeight - (y - bottom.y)
      ensures var log := old(syncLog[|syncLog| - 1]);
              var ends := log.ends + (if old(endingCell).Some? then [] else [old(Cursor())]);
              var bottom := Deepest(log.start, ends);
              && page == bottom.page
              && y == GroupEndY(old(snapshots[|snapshots| - 1]).page, old(snapshots[|snapshots| - 1]).y, bottom, height)
              && (forall i :: 0 <= i < |ends| ==> !Deeper(ends[i], bottom))
              && !Deeper(log.start, bottom) && (bottom == log.start || bottom in ends)
      ensures endingCell == None
      ensures old(endingCell).Some? ==> endings == old(endings)[old(endingCell).value := old(EndingOf())]
      ensures old(endingCell).None? ==> endings == old(endings)
      ensures pages == old(pages) && pagesAdded == old(pagesAdded)
    {
      var saved, log := PopSnapshot();
      ghost var closing := Cursor();
      ghost var folded := endingCell.None?;
      ghost var ends := log.ends + (if folded then [closing] else []);
      assert saved.bottomMost.value == Deepest(log.start, log.ends);
      if folded {
        assert ends[|ends| - 1] == closing && ends[..|ends| - 1] == log.ends;
      } else {
        assert ends == log.ends;
      }

      saved := CalculateBottomMost(saved);
      assert saved.bottomMost.value == Deepest(log.start, ends);
      DeepestIsBottomMost(log.start, ends);
      RestoreAfterGroup(saved, height);
    }

    /**
     * The second half of completeColumnGroup: with the group's snapshot
     * popped and its last column folded, moves to the group's bottom.
     */
    method RestoreAfterGroup(saved: Snapshot, height: Option<real>)
      requires LogsMatch(snapshots, syncLog) && WidthsDefined(snapshots, saved.lastColumnWidth) && EndingsDefined(endings)
      requires saved.bottomMost.Some?
      modifies this
      ensures Valid()
      ensures old(HeightsTrackPages()) && SnapshotFits(pages, pageMargins.bottom, saved) ==> HeightsTrackPages()
      ensures var bottom := saved.bottomMost.value;
              && x == saved.x && availableWidth == saved.availableWidth
              && lastColumnWidth == saved.lastColumnWidth
              && page == bottom.page
              && y == GroupEndY(saved.page, saved.y, bottom, height)
              && availableHeight == bottom.availableHeight - (y - bottom.y)
      ensures endingCell == None
      ensures snapshots == old(snapshots) && syncLog == old(syncLog) && endings == old(endings)
      ensures pages == old(pages) && pagesAdded == old(pagesAdded)
    {
      endingCell := None;
      x := saved.x;

      var bottom := saved.bottomMost.value;
      var newY := GroupEndY(saved.page, saved.y, bottom, height);

      y := newY;
      page := bottom.page;
      availableWidth := saved.availableWidth;
      availableHeight := bottom.availableHeight;
      if Truthy(height) {
        availableHeight := availableHeight - (newY - bottom.y);
      }
      lastColumnWidth := saved.lastColumnWidth;
    }

    /** Removes and returns the innermost snapshot (with its log). */
    method PopSnapshot() returns (saved: Snapshot, ghost log: SyncLog)
      requires Valid() && |snapshots| > 0
      modifies this
      ensures Valid() && WidthsDefined(snapshots, saved.lastColumnWidth)
      ensures old(HeightsTrackPages()) ==> HeightsTrackPages() && SnapshotFits(pages, pageMargins.bottom, saved)
      ensures saved == old(snapshots[|snapshots| - 1]) && log == old(syncLog[|syncLog| - 1])
      ensures saved.bottomMost.Some? ==> saved.bottomMost.value == Deepest(log.start, log.ends)
      ensures snapshots == old(snapshots[..|snapshots| - 1]) && syncLog == old(syncLog[..|syncLog| - 1])
      ensures Cursor() == old(Cursor()) && endingCell == old(endingCell) && lastColumnWidth == old(lastColumnWidth)
      ensures endings == old(endings) && pages == old(pages) && pagesAdded == old(pagesAdded)
    {
      var n := |snapshots| - 1;
      saved := snapshots[n];
      log := syncLog[n];
      LogsMatchPop(snapshots, syncLog);
      WidthsDefinedPop(snapshots, lastColumnWidth);
      snapshots := snapshots[..n];
      syncLog := syncLog[..n];
    }

    /** Cell padding: moves right by `left` and narrows by `left` and `right`. */
    method AddMargin(left: real, right: Option<real>)
      requires Valid()
      modifies this
      ensures Valid()
      ensures old(HeightsTrackPages()) ==> HeightsTrackPages()
      ensures x == old(x) + left && availableWidth == old(availableWidth) - (left + OrZero(right))
      ensures page == old(page) && y == old(y) && availableHeight == old(availableHeight)
      ensures Nesting() == old(Nesting()) && pages == old(pages) && pagesAdded == old(pagesAdded)
    {
      x := x + left;
      availableWidth := availableWidth - (left + OrZero(right));
    }

    /** Moves down by `offset`; reports whether any vertical room is left. */
    method MoveDown(offset: real) returns (hasRoom: bool)
      requires Valid()
      modifies this
      ensures Valid()
      ensures old(HeightsTrackPages()) ==> HeightsTrackPages()
      ensures y == old(y) + offset && availableHeight == old(availableHeight) - offset
      ensures hasRoom <==> availableHeight > 0.0
      ensures page == old(page) && x == old(x) && availableWidth == old(availableWidth)
      ensures Nesting() == old(Nesting()) && pages == old(pages) && pagesAdded == old(pagesAdded)
    {
      y := y + offset;
      availableHeight := availableHeight - offset;
      hasRoom := availableHeight > 0.0;
    }

    /**
     * Puts the cursor at the top margin of the current page with its whole
     * printable height available, and gives the page snapshot (the outermost
     * stack entry, or the live context when the stack is empty) the page's
     * printable width.
     */
    method InitializePage()
      requires Valid() && HasCurrentPage()
      modifies this
      ensures Valid()
      ensures old(SavedHeightsFit(pages, pageMargins.bottom, snapshots, endings)) ==> HeightsTrackPages()
      ensures page == old(page) && x == old(x) && pages == old(pages) && pagesAdded == old(pagesAdded)
      ensures y == pageMargins.top && availableHeight == InnerHeight(pages[page].pageSize)
      ensures snapshots == WithPageSnapshotWidth(old(snapshots), InnerWidth(pages[page].pageSize))
      ensures availableWidth == if |snapshots| > 0 then old(availableWidth) else InnerWidth(pages[page].pageSize)
      ensures syncLog == old(syncLog) && endingCell == old(endingCell)
      ensures lastColumnWidth == old(lastColumnWidth) && endings == old(endings)
    {
      y := pageMargins.top;
      availableHeight := pages[page].pageSize.height - pageMargins.top - pageMargins.bottom;
      var width := pages[page].pageSize.width - pageMargins.left - pageMargins.right;
      if |snapshots| > 0 {
        snapshots := snapshots[0 := snapshots[0].(availableWidth := width)];
      } else {
        availableWidth := width;
      }
    }

    /** Explicit relocation; each given coordinate recomputes the space left up to the far margin. */
    method MoveTo(newX: Option<real>, newY: Option<real>)
      requires Valid()
      requires newX.Some? || newY.Some? ==> HasCurrentPage()
      modifies this
      ensures Valid()
      ensures old(HeightsTrackPages()) ==> HeightsTrackPages()
      ensures page == old(page) && Nesting() == old(Nesting()) && pages == old(pages) && pagesAdded == old(pagesAdded)
      ensures newX.Some? ==> x == newX.value && availableWidth == pages[page].pageSize.width - x - pageMargins.right
      ensures newX.None? ==> x == old(x) && availableWidth == old(availableWidth)
      ensures newY.Some? ==> y == newY.value && availableHeight == pages[page].pageSize.height - y - pageMargins.bottom
      ensures newY.None? ==> y == old(y) && availableHeight == old(availableHeight)
    {
      if newX.Some? {
        x := newX.value;
        availableWidth := pages[page].pageSize.width - x - pageMargins.right;
      }
      if newY.Some? {
        y := newY.value;
        availableHeight := pages[page].pageSize.height - y - pageMargins.bottom;
      }
    }

    method BeginDetachedBlock()
      requires Valid()
      modifies this
      ensures Valid()
      ensures old(HeightsTrackPages()) ==> HeightsTrackPages()
      ensures snapshots == old(snapshots) + [Snapshot(old(x), old(y), old(availableHeight), old(availableWidth),
                                                      old(page), old(endingCell), old(lastColumnWidth), None)]
      ensures |syncLog| == |snapshots| && syncLog[..|syncLog| - 1] == old(syncLog)
      ensures Cursor() == old(Cursor()) && endingCell == old(endingCell) && lastColumnWidth == old(lastColumnWidth)
      ensures endings == old(endings) && pages == old(pages) && pagesAdded == old(pagesAdded)
    {
      snapshots := snapshots + [Snapshot(x, y, availableHeight, availableWidth, page, endingCell, lastColumnWidth, None)];
      syncLog := syncLog + [SyncLog(Cursor(), [])];
    }

    /** Pops the innermost snapshot and restores all seven saved fields from it. */
    method EndDetachedBlock()
      requires Valid() && |snapshots| > 0
      modifies this
      ensures Valid()
      ensures old(HeightsTrackPages()) ==> HeightsTrackPages()
      ensures var saved := old(snapshots[|snapshots| - 1]);
              && x == saved.x && y == saved.y && page == saved.page
              && availableWidth == saved.availableWidth && availableHeight == saved.availableHeight
              && endingCell == saved.endingCell && lastColumnWidth == saved.lastColumnWidth
      ensures snapshots == old(snapshots[..|snapshots| - 1]) && syncLog == old(syncLog[..|syncLog| - 1])
      ensures endings == old(endings) && pages == old(pages) && pagesAdded == old(pagesAdded)
    {
      var saved, log := PopSnapshot();

      x := saved.x;
      y := saved.y;
      availableWidth := saved.availableWidth;
      availableHeight := saved.availableHeight;
      page := saved.page;
      endingCell := saved.endingCell;
      lastColumnWidth := saved.lastColumnWidth;
    }

    /**
     * Advances to the next page: an existing one is reused; otherwise a page
     * is appended whose size follows `requested`. A new page of unchanged
     * orientation keeps the live available width.
     */
    method MoveToNextPage(requested: OrientationOverride) returns (turn: PageTurn)
      requires Valid() && 0 < |pages| && -1 <= page < |pages|
      modifies this
      ensures Valid()
      ensures old(HeightsTrackPages()) ==> HeightsTrackPages()
      ensures turn.newPageCreated <==> old(page) + 1 >= |old(pages)|
      ensures turn.prevPage == old(page) && turn.prevY == old(y) && turn.y == y
      ensures page == old(page) + 1 && y == pageMargins.top
      ensures !turn.newPageCreated ==>
                && pages == old(pages) && pagesAdded == old(pagesAdded)
                && availableHeight == InnerHeight(pages[page].pageSize)
                && snapshots == WithPageSnapshotWidth(old(snapshots), InnerWidth(pages[page].pageSize))
                && availableWidth == (if |snapshots| > 0 then old(availableWidth) else InnerWidth(pages[page].pageSize))
      ensures turn.newPageCreated ==>
                var current := old(pages[page]).pageSize;
                var size := GetPageSize(current, requested);
                && pages == old(pages) + [Page([], size)] && pagesAdded == old(pagesAdded) + 1
                && availableHeight == InnerHeight(size)
                && snapshots == WithPageSnapshotWidth(old(snapshots), InnerWidth(size))
                && availableWidth == (if size.orientation == current.orientation || |snapshots| > 0
                                      then old(availableWidth) else InnerWidth(size))
      ensures x == old(x) && syncLog == old(syncLog) && endingCell == old(endingCell)
      ensures lastColumnWidth == old(lastColumnWidth) && endings == old(endings)
    {
      var nextPageIndex := page + 1;
      var prevPage := page;
      var prevY := y;

      var createNewPage := nextPageIndex >= |pages|;
      if createNewPage {
        var currentAvailableWidth := availableWidth;
        var currentPageOrientation := pages[page].pageSize.orientation;

        var pageSize := GetPageSize(pages[page].pageSize, requested);
        var added := AddPage(pageSize);

        if currentPageOrientation == pageSize.orientation {
          availableWidth := currentAvailableWidth;
        }
      } else {
        page := nextPageIndex;
        InitializePage();
      }

      turn := PageTurn(createNewPage, prevPage, prevY, y);
    }

    /** Appends an empty page of `pageSize`, makes it current and emits `pageAdded` once. */
    method AddPage(pageSize: PageSize) returns (added: Page)
      requires Valid()
      modifies this
      ensures Valid()
      ensures old(HeightsTrackPages()) ==> HeightsTrackPages()
      ensures added == Page([], pageSize) && pages == old(pages) + [added] && page == |pages| - 1
      ensures pagesAdded == old(pagesAdded) + 1
      ensures y == pageMargins.top && availableHeight == InnerHeight(pageSize)
      ensures snapshots == WithPageSnapshotWidth(old(snapshots), InnerWidth(pageSize))
      ensures availableWidth == if |snapshots| > 0 then old(availableWidth) else InnerWidth(pageSize)
      ensures x == old(x) && syncLog == old(syncLog) && endingCell == old(endingCell)
      ensures lastColumnWidth == old(lastColumnWidth) && endings == old(endings)
    {
      added := Page([], pageSize);
      ghost var saved := SavedHeightsFit(pages, pageMargins.bottom, snapshots, endings);
      ghost var before := pages;
      pages := pages + [added];
      if saved {
        SavedHeightsFitGrow(before, pages, pageMargins.bottom, snapshots, endings);
      }
      page := |pages| - 1;
      InitializePage();

      pagesAdded := pagesAdded + 1;
    }
  }
}
