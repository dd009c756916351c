/**
 * The element writer: places measured lines, vectors and pre-rendered
 * fragments onto the current page of a position context, applies line
 * alignment, and keeps a stack of whole contexts for isolated sub-layouts.
 */
module Writer {
  import opened Layout
  import opened Context

  /** A pre-rendered fragment: items with coordinates relative to the block, its height and offsets. */
  datatype Block = Block(items: seq<Item>, height: real, xOffset: Option<real>, yOffset: Option<real>)

  /**
   * Inserts `item` at `index` when that is a position within the item list
   * (0 to its length), otherwise appends it.
   */
  function AddPageItem(page: Page, item: Item, index: Option<int>): (r: Page)
    ensures r.pageSize == page.pageSize
    ensures |r.items| == |page.items| + 1
    ensures multiset(r.items) == multiset(page.items) + multiset{item}
    ensures index.Some? && 0 <= index.value <= |page.items| ==>
              && r.items[index.value] == item
              && r.items[..index.value] == page.items[..index.value]
              && r.items[index.value + 1..] == page.items[index.value..]
    ensures !(index.Some? && 0 <= index.value <= |page.items|) ==> r.items == page.items + [item]
  {
    if index.None? || index.value < 0 || index.value > |page.items| then
      page.(items := page.items + [item])
    else
      var k := index.value;
      assert page.items == page.items[..k] + page.items[k..];
      page.(items := page.items[..k] + [item] + page.items[k..])
  }

  /** Alignment is decided by the first inline run only. */
  function LineAlignment(line: Line): Alignment
  {
    if |line.inlines| > 0 then line.inlines[0].alignment else AlignNone
  }

  /**
   * The horizontal shift of a whole line: flush right puts its right edge on
   * the available width, centred leaves equal room on both sides, anything
   * else does not move it.
   */
  function AlignmentOffset(line: Line, availableWidth: real): (offset: real)
    ensures LineAlignment(line) == AlignRight ==> offset + line.width == availableWidth
    ensures LineAlignment(line) == AlignCenter ==> offset == availableWidth - (offset + line.width)
    ensures LineAlignment(line) != AlignRight && LineAlignment(line) != AlignCenter ==> offset == 0.0
  {
    match LineAlignment(line)
    case AlignRight => availableWidth - line.width
    case AlignCenter => (availableWidth - line.width) / 2.0
    case _ => 0.0
  }

  /** Justification applies to a justified line that has several runs and is neither forced nor last. */
  predicate Justifies(line: Line)
  {
    LineAlignment(line) == AlignJustify && !line.newLineForced && !line.lastLineInParagraph && |line.inlines| > 1
  }

  /** The extra space given to each gap between consecutive runs. */
  function JustifySpacing(line: Line, availableWidth: real): real
    requires |line.inlines| > 1
  {
    (availableWidth - line.width) / (|line.inlines| - 1) as real
  }

  /** Run `i` shifted by `i` gaps of `spacing`, recording the spacing. */
  function JustifiedRun(run: Inline, i: nat, spacing: real): Inline
  {
    run.(x := run.x + i as real * spacing, justifyShift := Some(spacing))
  }

  /** The line `_alignLine` leaves behind for a given available width. */
  function Aligned(line: Line, availableWidth: real): Line
  {
    var inlines :=
      if Justifies(line) then
        seq(|line.inlines|, i requires 0 <= i < |line.inlines| =>
          if i == 0 then line.inlines[0] else JustifiedRun(line.inlines[i], i, JustifySpacing(line, availableWidth)))
      else line.inlines;
    line.(x := line.x + AlignmentOffset(line, availableWidth), inlines := inlines)
  }

  /**
   * Aligns a placed line within `availableWidth`: shifts the whole line for
   * right and centre alignment, and for justification spreads the free space
   * over the gaps between runs.
   */
  method AlignLine(line: Line, availableWidth: real) returns (aligned: Line)
    ensures aligned == Aligned(line, availableWidth)
  {
    var alignment := LineAlignment(line);

    var offset := 0.0;
    match alignment {
      case AlignRight => offset := availableWidth - line.width;
      case AlignCenter => offset := (availableWidth - line.width) / 2.0;
      case _ =>
    }

    aligned := line;
    if offset != 0.0 {
      aligned := aligned.(x := aligned.x + offset);
    }

    if alignment == AlignJustify && !line.newLineForced && !line.lastLineInParagraph && |line.inlines| > 1 {
      var additionalSpacing := (availableWidth - line.width) / (|line.inlines| - 1) as real;
      var inlines := line.inlines;
      for i := 1 to |inlines|
        invariant |inlines| == |line.inlines|
        invariant inlines[0] == line.inlines[0]
        invariant forall k :: 1 <= k < i ==> inlines[k] == JustifiedRun(line.inlines[k], k, additionalSpacing)
        invariant forall k :: i <= k < |inlines| ==> inlines[k] == line.inlines[k]
      {
        offset := i as real * additionalSpacing;
        inlines := inlines[i := inlines[i].(x := inlines[i].x + offset, justifyShift := Some(additionalSpacing))];
      }
      aligned := aligned.(inlines := inlines);
    }
  }

  /** Justification moves the last run right by exactly the line's free space; the first run stays. */
  lemma JustifyFillsLine(line: Line, availableWidth: real)
    requires Justifies(line)
    ensures var r := Aligned(line, availableWidth).inlines;
            var n := |line.inlines|;
            && |r| == n
            && r[0] == line.inlines[0]
            && r[n - 1].x == line.inlines[n - 1].x + (availableWidth - line.width)
  {
    var n := |line.inlines|;
    var s := JustifySpacing(line, availableWidth);
    var gaps := (n - 1) as real;
    assert gaps != 0.0;
    assert gaps * s == availableWidth - line.width;
  }

  /** Every gap between consecutive runs of a justified line grows by the same spacing. */
  lemma JustifyWidensEachGap(line: Line, availableWidth: real, i: nat)
    requires Justifies(line) && i + 1 < |line.inlines|
    ensures var r := Aligned(line, availableWidth).inlines;
            var s := JustifySpacing(line, availableWidth);
            && r[i + 1].x - r[i].x == line.inlines[i + 1].x - line.inlines[i].x + s
            && r[i + 1].justifyShift == Some(s)
  {
    var s := JustifySpacing(line, availableWidth);
    assert (i + 1) as real * s == i as real * s + s;
  }

  /** A line that is not justified keeps its runs; only its x may change. */
  lemma AlignedKeepsRunsUnlessJustified(line: Line, availableWidth: real)
    requires !Justifies(line)
    ensures Aligned(line, availableWidth).inlines == line.inlines
    ensures Aligned(line, availableWidth) == line.(x := line.x + AlignmentOffset(line, availableWidth))
  {
  }

  /** A block item translated by (dx, dy). */
  function PlaceItem(item: Item, dx: real, dy: real): Item
  {
    match item
    case LineItem(l) => LineItem(l.(x := l.x + dx, y := l.y + dy))
    case VectorItem(v) => VectorItem(OffsetVector(v, dx, dy))
  }

  /** All block items translated by (dx, dy), in order. */
  function Placed(items: seq<Item>, dx: real, dy: real): (r: seq<Item>)
    ensures |r| == |items|
    ensures forall i :: 0 <= i < |r| ==> r[i].LineItem? == items[i].LineItem?
    ensures forall i :: 0 <= i < |r| && items[i].LineItem? ==>
              && r[i].line.x == items[i].line.x + dx && r[i].line.y == items[i].line.y + dy
              && r[i].line.(x := items[i].line.x, y := items[i].line.y) == items[i].line
    ensures forall i :: 0 <= i < |r| && items[i].VectorItem? ==>
              r[i].vector == OffsetVector(items[i].vector, dx, dy)
  {
    seq(|items|, i requires 0 <= i < |items| => PlaceItem(items[i], dx, dy))
  }

  /** Translating a block back by (-dx, -dy) restores every item. */
  lemma {:induction false} PlacedUndo(items: seq<Item>, dx: real, dy: real)
    ensures Placed(Placed(items, dx, dy), -dx, -dy) == items
  {
    var back := Placed(Placed(items, dx, dy), -dx, -dy);
    forall i | 0 <= i < |items|
      ensures back[i] == items[i]
    {
      if items[i].VectorItem? {
        var v := items[i].vector;
        var w := OffsetVector(OffsetVector(v, dx, dy), -dx, -dy);
        assert w.points == v.points by {
          forall k | 0 <= k < |v.points|
            ensures w.points[k] == v.points[k]
          {
          }
        }
      }
    }
  }

  /** The translation a fragment applies on one axis: the block's own offset or the cursor. */
  function FragmentShift(useBlockOffset: bool, blockOffset: Option<real>, cursor: real): real
  {
    if useBlockOffset then OrZero(blockOffset) else cursor
  }

  /** Inserts `item` into the current page of `ctx` with addPageItem; nothing else changes. */
  method PutOnPage(ctx: DocumentContext, item: Item, index: Option<int>)
    requires ctx.Valid() && ctx.HasCurrentPage()
    modifies ctx
    ensures ctx.Valid() && (old(ctx.HeightsTrackPages()) ==> ctx.HeightsTrackPages())
    ensures ctx.Cursor() == old(ctx.Cursor()) && ctx.Nesting() == old(ctx.Nesting())
    ensures ctx.pages == old(ctx.pages)[ctx.page := AddPageItem(old(ctx.pages[ctx.page]), item, index)]
    ensures ctx.pagesAdded == old(ctx.pagesAdded)
  {
    ghost var fit := ctx.HeightsTrackPages();
    ghost var before := ctx.pages;
    ctx.pages := ctx.pages[ctx.page := AddPageItem(ctx.pages[ctx.page], item, index)];
    if fit {
      SavedHeightsFitGrow(before, ctx.pages, ctx.pageMargins.bottom, ctx.snapshots, ctx.endings);
    }
  }

  class ElementWriter {
    var context: DocumentContext
    var contextStack: seq<DocumentContext>
    /** Every line passed with a `lineAdded` notification, in order. */
    ghost var linesAdded: seq<Line>

    ghost predicate Valid()
      reads this, context, contextStack
    {
      context.Valid() && forall i :: 0 <= i < |contextStack| ==> contextStack[i].Valid()
    }

    /** The context position reports come from: the outermost pushed one, if any. */
    function ReportingContext(): (c: DocumentContext)
      reads this
      ensures |contextStack| > 0 ==> c == contextStack[0]
      ensures |contextStack| == 0 ==> c == context
    {
      if |contextStack| > 0 then contextStack[0] else context
    }

    predicate CanReportPosition()
      reads this, context, contextStack
    {
      ReportingContext().HasCurrentPage()
    }

    constructor (context: DocumentContext)
      requires context.Valid()
      ensures Valid()
      ensures this.context == context && contextStack == [] && linesAdded == []
    {
      this.context := context;
      contextStack := [];
      linesAdded := [];
    }

    /** Saves the active context and makes `ctx` active. */
    method PushContext(ctx: DocumentContext)
      requires Valid() && ctx.Valid()
      modifies this
      ensures Valid()
      ensures context == ctx && contextStack == old(contextStack) + [old(context)]
      ensures linesAdded == old(linesAdded)
    {
      contextStack := contextStack + [context];
      context := ctx;
    }

    /** Saves the active context and activates a fresh zero-margin context of `width` by `height`. */
    method PushNewContext(width: real, height: real)
      requires Valid()
      modifies this
      ensures Valid()
      ensures fresh(context) && contextStack == old(contextStack) + [old(context)]
      ensures context.pages == [Page([], PageSize(width, height, None))] && context.page == 0
      ensures context.pageMargins == Margins(0.0, 0.0, 0.0, 0.0)
      ensures context.x == 0.0 && context.y == 0.0
      ensures context.availableWidth == width && context.availableHeight == height
      ensures context.snapshots == [] && context.endingCell == None
      ensures context.lastColumnWidth == None && context.endings == map[] && context.pagesAdded == 1
      ensures linesAdded == old(linesAdded)
    {
      var ctx := new DocumentContext(PageSize(width, height, None), Margins(0.0, 0.0, 0.0, 0.0));
      contextStack := contextStack + [context];
      context := ctx;
    }

    /** Makes the most recently saved context active again. */
    method PopContext()
      requires Valid() && |contextStack| > 0
      modifies this
      ensures Valid()
      ensures context == old(contextStack[|contextStack| - 1])
      ensures contextStack == old(contextStack[..|contextStack| - 1])
      ensures linesAdded == old(linesAdded)
    {
      context := contextStack[|contextStack| - 1];
      contextStack := contextStack[..|contextStack| - 1];
    }

    /** The position report, taken from the outermost context while anything is pushed. */
    function CurrentPositionOnPage(): (p: PositionInfo)
      reads this, context, contextStack
      requires CanReportPosition()
      ensures p == ReportingContext().CurrentPosition()
      ensures p.pageNumber == ReportingContext().page + 1
      ensures p.left == ReportingContext().x && p.top == ReportingContext().y
    {
      ReportingContext().CurrentPosition()
    }

    /**
     * Merges a fragment into the current page. Unless the block keeps its
     * own x offset it must fit in the remaining height; each item is then
     * translated by the block's offsets or by the cursor and appended in order.
     */
    method AddFragment(block: Block, useBlockXOffset: bool, useBlockYOffset: bool, dontUpdateContextPosition: bool)
      returns (ok: bool)
      requires Valid()
      requires context.HasCurrentPage() || block.items == [] ||
               (!useBlockXOffset && block.height > context.availableHeight)
      modifies context
      ensures Valid()
      ensures old(context.HeightsTrackPages()) ==> context.HeightsTrackPages()
      ensures ok <==> useBlockXOffset || block.height <= old(context.availableHeight)
      ensures !ok ==> unchanged(context)
      ensures ok ==>
                var dx := FragmentShift(useBlockXOffset, block.xOffset, old(context.x));
                var dy := FragmentShift(useBlockYOffset, block.yOffset, old(context.y));
                && (old(context.HasCurrentPage()) ==>
                      context.pages == old(context.pages)[old(context.page) :=
                        old(context.pages[context.page]).(items := old(context.pages[context.page]).items + Placed(block.items, dx, dy))])
                && (!old(context.HasCurrentPage()) ==> context.pages == old(context.pages))
                && context.y == old(context.y) + (if dontUpdateContextPosition then 0.0 else block.height)
                && context.availableHeight == old(context.availableHeight) - (if dontUpdateContextPosition then 0.0 else block.height)
                && context.page == old(context.page) && context.x == old(context.x)
                && context.availableWidth == old(context.availableWidth)
                && context.Nesting() == old(context.Nesting()) && context.pagesAdded == old(context.pagesAdded)
    {
      var ctx := context;
      var current := ctx.GetCurrentPage();

      if !useBlockXOffset && block.height > ctx.availableHeight {
        return false;
      }

      var dx := if useBlockXOffset then OrZero(block.xOffset) else ctx.x;
      var dy := if useBlockYOffset then OrZero(block.yOffset) else ctx.y;
      if current.Some? {
        var items := current.value.items;
        for i := 0 to |block.items|
          invariant items == current.value.items + Placed(block.items[..i], dx, dy)
        {
          assert Placed(block.items[..i + 1], dx, dy) == Placed(block.items[..i], dx, dy) + [PlaceItem(block.items[i], dx, dy)];
          items := items + [PlaceItem(block.items[i], dx, dy)];
        }
        assert block.items[..|block.items|] == block.items;
        ghost var fit := ctx.HeightsTrackPages();
        ghost var before := ctx.pages;
        ctx.pages := ctx.pages[ctx.page := current.value.(items := items)];
        if fit {
          SavedHeightsFitGrow(before, ctx.pages, ctx.pageMargins.bottom, ctx.snapshots, ctx.endings);
        }
      }

      if !dontUpdateContextPosition {
        var hasRoom := ctx.MoveDown(block.height);
      }

      return true;
    }

    /**
     * Places a line at the cursor (plus its local offsets), aligns it, inserts
     * it at `index` and emits `lineAdded`; fails without any effect when the
     * line is taller than the remaining height or there is no current page.
     * On success returns the position computed before the cursor moved down.
     */
    method AddLine(line: Line, dontUpdateContextPosition: bool, index: Option<int>) returns (r: Option<PositionInfo>)
      requires Valid() && CanReportPosition()
      modifies this, context
      ensures Valid()
      ensures old(context.HeightsTrackPages()) ==> context.HeightsTrackPages()
      ensures context == old(context) && contextStack == old(contextStack)
      ensures r.Some? <==> old(context.availableHeight) >= line.height && old(context.HasCurrentPage())
      ensures r.None? ==> unchanged(context) && linesAdded == old(linesAdded)
      ensures r.Some? ==>
                var placed := Aligned(line.(x := old(context.x) + line.x, y := old(context.y) + line.y),
                                      old(context.availableWidth));
                && r.value == old(CurrentPositionOnPage())
                && context.pages == old(context.pages)[old(context.page) :=
                     AddPageItem(old(context.pages[context.page]), LineItem(placed), index)]
                && linesAdded == old(linesAdded) + [placed]
                && context.y == old(context.y) + (if dontUpdateContextPosition then 0.0 else line.height)
                && context.availableHeight == old(context.availableHeight) - (if dontUpdateContextPosition then 0.0 else line.height)
                && context.page == old(context.page) && context.x == old(context.x)
                && context.availableWidth == old(context.availableWidth)
                && context.Nesting() == old(context.Nesting()) && context.pagesAdded == old(context.pagesAdded)
    {
      var height := line.height;
      var ctx := context;
      var current := ctx.GetCurrentPage();
      var position := CurrentPositionOnPage();

      if ctx.availableHeight < height || current.None? {
        return None;
      }

      var placed := line.(x := ctx.x + line.x, y := ctx.y + line.y);
      placed := AlignLine(placed, ctx.availableWidth);

      PutOnPage(ctx, LineItem(placed), index);
      linesAdded := linesAdded + [placed];

      if !dontUpdateContextPosition {
        var hasRoom := ctx.MoveDown(height);
      }

      return Some(position);
    }

    /**
     * Translates a vector by the cursor (on each axis not ignored) and inserts
     * it at `index`; there is no space check. Without a current page nothing
     * happens and nothing is returned.
     */
    method AddVector(vector: Vector, ignoreContextX: bool, ignoreContextY: bool, index: Option<int>)
      returns (r: Option<PositionInfo>)
      requires Valid() && CanReportPosition()
      modifies context
      ensures Valid()
      ensures old(context.HeightsTrackPages()) ==> context.HeightsTrackPages()
      ensures r.Some? <==> old(context.HasCurrentPage())
      ensures r.None? ==> unchanged(context)
      ensures r.Some? ==>
                var dx := if ignoreContextX then 0.0 else old(context.x);
                var dy := if ignoreContextY then 0.0 else old(context.y);
                && r.value == old(CurrentPositionOnPage())
                && context.pages == old(context.pages)[old(context.page) :=
                     AddPageItem(old(context.pages[context.page]), VectorItem(OffsetVector(vector, dx, dy)), index)]
                && context.Cursor() == old(context.Cursor())
                && context.Nesting() == old(context.Nesting()) && context.pagesAdded == old(context.pagesAdded)
    {
      var ctx := context;
      var current := ctx.GetCurrentPage();
      var position := CurrentPositionOnPage();

      if current.Some? {
        var placed := OffsetVector(vector, if ignoreContextX then 0.0 else ctx.x, if ignoreContextY then 0.0 else ctx.y);
        PutOnPage(ctx, VectorItem(placed), index);
        return Some(position);
      }
      return None;
    }
  }
}
