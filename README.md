# pdfmake layout core: position context and element writer

This project models the cursor-and-pagination core of pdfmake's layout engine in Dafny.

The **position context** (`DocumentContext`) holds:
- the cursor (`x`, `y`);
- the space left on the page (`availableWidth`, `availableHeight`);
- the current page index and the list of pages;
- the page margins;
- one snapshot stack, shared by column groups and detached blocks.

Column groups carry out **vertical synchronisation**. Closing a group moves the cursor to the bottom-most point that any of its columns reached. Page number is compared first, then y.

A column that carries an **ending cell** (a table cell that spans several rows) is handled differently. It is parked on that cell. Its end is folded in only when a later row calls `markEnding` for the cell.

New pages take their orientation from an override. When the orientation changes, width and height are swapped.

The **element writer** (`ElementWriter`):
- places pre-measured lines, vectors and pre-rendered fragments into the current page's item list;
- refuses a placement when there is not enough vertical room;
- aligns lines left, right, centre or justified;
- keeps a stack of whole contexts for isolated sub-layouts.

Files:
- `layout.dfy` (module `Layout`): the shared value types. These are lines with their inline runs, vectors, page items, pages, page sizes and margins.
- `context.dfy` (module `Context`): the helpers `bottomMostContext`, `pageOrientation` and `getPageSize`, and the class `DocumentContext`.
- `writer.dfy` (module `Writer`): `addPageItem`, the alignment arithmetic and the class `ElementWriter`.
- `scenarios.dfy` (module `Scenarios`):
  - the scenarios of `tests/documentContext.js`, replayed on the model. The `ensures` of each top-level scenario are the suite's own expectations. The staged helpers (`LongestColumnFirstTwo`, `SpanNestedRow1Start` and the like) split a long scenario and pin the intermediate model state, which the suite itself does not assert;
  - two worked examples of the element writer (`AlignmentExamples`, `AddLineAtTop`), computed from `src/ElementWriter.js`, not taken from a test suite;
  - general properties over all inputs: a column group restores x, column k starts past the widths and offsets of the columns before it, a detached block restores the context (with one stated exception), and push then pop restores the writer.

Modelling choices:
- **Coordinates** are mathematical `real`s.
- **Optional arguments** are `Option` values. `x || 0` is `OrZero` and JavaScript truthiness of a number is `Truthy`.
- **Ending cells.** `endingCell._columnEndingContext` becomes a side-table `endings: map<CellId, EndingContext>` owned by the context. A cell is identified by `CellId`.
- **Vertical synchronisation** is proved through a proof-only log. Every column-group snapshot has a ghost `SyncLog` holding the group's start and every column end folded so far. The class invariant `Valid()` states that the group's `bottomMost` is `Deepest` of that log. `DeepestIsBottomMost` proves `Deepest` is at least as deep as the start and every folded end, and that it is one of them.
- **Events.** The `pageAdded` and `lineAdded` notifications are a ghost counter (`pagesAdded`) and a ghost log (`linesAdded`).
- **Call and return.** Operations that change state are methods with `modifies` clauses. Each states the new value of every field it may change; the proof-only logs are stated as far as the proofs need them. Pure helpers are functions with named results.
- **Height invariant.** `HeightsTrackPages()` says that the available height is the room from y down to the bottom margin of the current page. It covers the live cursor, every snapshot and its bottom-most, and every stored column end. Every public mutator of `DocumentContext`, and every writer method that places items, keeps it: `old(HeightsTrackPages()) ==> HeightsTrackPages()`. The internal steps `CalculateBottomMost` and `RestoreAfterGroup` keep it only when the snapshot they consume fits as well, and `StartColumn`, `InitializePage` and `AddPage` need only the saved positions to fit beforehand, since they reset the cursor's height. It is not a precondition, because the code does not demand it and the test suite writes `y`, `page` and `availableHeight` directly.
- **Restoration helpers.** `beginColumn` and `completeColumnGroup` each become a method plus helpers, all with their own contracts:
  - `beginColumn` uses `CloseColumn`, which runs `calculateBottomMost` against the top snapshot;
  - `completeColumnGroup` uses `PopSnapshot` and `RestoreAfterGroup`.

In three places the code behaves differently from what one might expect, and the model follows the code:
- `addLine` and `addVector` compute the position report before they check for a page. With no page in the reporting context the code fails before getting that far. So the model requires a page there. The "no page, nothing written" outcome remains reachable, because the writer's active context can differ from the reporting one.
- `initializePage` writes the printable width into `snapshots[0]` whenever the stack is non-empty. A detached block at the bottom of the stack counts too, not only a column group.
- The no-argument `pushContext` reads a `height` field that pages do not have, so the code gets NaN instead of the printable height.

## Model

| member | source | states |
|---|---|---|
| Context.BottomMostContext | src/documentContext.js:283-301 | the result is one of the two positions; neither is deeper than it (later page first, then larger y on the same page); when the first is not deeper, the second (the existing bottom-most) is kept |
| Context.DeepestIsBottomMost | src/documentContext.js:66-73 | folding column ends into a group with bottomMostContext gives a position among the start and the ends that no end and not the start lies below |
| Context.LowerAscii | src/documentContext.js:255 | lower-casing keeps the length; each upper-case letter becomes its lower-case partner, every other character is kept, and no upper-case letter remains |
| Context.LowerAsciiIdempotent | src/documentContext.js:255 | lower-casing twice is lower-casing once |
| Context.LandscapeIgnoresCase | src/documentContext.js:252-260 | "LANDSCAPE" and "Landscape" name the landscape orientation, and "Portrait" gives portrait |
| Context.PageOrientation | src/documentContext.js:252-260 | no override keeps the current orientation; any other override gives "landscape" exactly when it is a string that lower-cases to "landscape", and "portrait" otherwise |
| Context.GetPageSize | src/documentContext.js:262-280 | the new size has the resolved orientation; the dimensions are unchanged when the orientation is unchanged and swapped when it changes |
| Context.GetPageSizeIdempotent | src/documentContext.js:262-280 | resolving the same override against the size it produced changes nothing |
| Context.GetPageSizeFlipBack | src/documentContext.js:252-280 | a portrait size turned landscape has its width and height swapped, and turned back to portrait it is the original size |
| Context.GroupEndY | src/documentContext.js:103-112 | without a truthy height the group ends at the bottom-most y; on the group's own page it ends at the larger of that and the group's y plus the height; on a later page it ends at the bottom-most y plus the height |
| Context.WithPageSnapshotWidth | src/documentContext.js:139-148 | only the outermost snapshot's available width changes, and it becomes the given width |
| Context.DocumentContext.GetCurrentPage | src/documentContext.js:226-232 | a page is returned exactly when the page index is in range, and it is the page at that index |
| Context.DocumentContext.CurrentPosition | src/documentContext.js:234-249 | 1-based page number; the page's orientation and its printable height and width (page size less margins); cursor as left/top; and each ratio (present exactly when its printable dimension is non-zero) times that dimension plus the margin gives back the cursor |
| Context.DocumentContext.constructor | src/documentContext.js:9-28 | one empty page of the given size is current; the cursor is at the top-left margin with the printable width and height available; the stack is empty, no ending cell is pending and one pageAdded was emitted |
| Context.DocumentContext.BeginColumnGroup | src/documentContext.js:30-49 | pushes exactly one snapshot copying the cursor, page, widths, ending cell and column width, with bottom-most equal to the current position; the column width becomes 0; nothing else changes |
| Context.DocumentContext.CalculateBottomMost | src/documentContext.js:66-73 | with a pending ending cell, the column end is stored for that cell, the cell is cleared and the snapshot is untouched; otherwise the snapshot's bottom-most becomes the deeper of it and the cursor |
| Context.DocumentContext.SaveContextInEndingCell | src/documentContext.js:84-93 | records page, x, y, both available sizes and the column width for the cell; nothing else changes |
| Context.DocumentContext.BeginColumn | src/documentContext.js:51-64 | page, y and available height come back from the group snapshot; x moves right by the previous column width plus the offset (0 when absent); width and column width become the new width; the new ending cell is pending; the previous column is parked or folded as CalculateBottomMost states |
| Context.DocumentContext.StartColumn | src/documentContext.js:56-63 | with the previous column closed, page, y and available height come from the group snapshot, x moves right by the previous column width plus the offset, width and column width become the new width and the new ending cell is pending; the stack, logs and side-table are unchanged |
| Context.DocumentContext.CloseColumn | src/documentContext.js:52-54 | the previous column's end is parked on its ending cell or folded into the group's bottom-most (and logged), the group's saved page, y and height untouched |
| Context.DocumentContext.MarkEnding | src/documentContext.js:75-82 | restores exactly the six stored fields of the cell's column end; nothing else changes |
| Context.DocumentContext.CompleteColumnGroup | src/documentContext.js:95-122 | pops exactly one snapshot; x, available width and column width come back from it; page and y go to the bottom-most point (padded by the height, as GroupEndY states), which is one of the group's start and its folded column ends, with none of them lying below it; available height is the bottom-most one less the padding; the ending cell is cleared |
| Context.DocumentContext.PopSnapshot | src/documentContext.js:96 | removes exactly the last snapshot and returns it, with nothing else changed |
| Context.DocumentContext.RestoreAfterGroup | src/documentContext.js:99-121 | sets x, width and column width from the popped snapshot, page and y to its bottom-most point padded as GroupEndY states, available height reduced by the padding, and clears the ending cell |
| Context.DocumentContext.AddMargin | src/documentContext.js:124-127 | x grows by left and the available width shrinks by left plus right (0 when absent); nothing else changes |
| Context.DocumentContext.MoveDown | src/documentContext.js:129-134 | y grows and the available height shrinks by the offset; the result is whether height remains; nothing else changes |
| Context.DocumentContext.InitializePage | src/documentContext.js:136-148 | y goes to the top margin and the available height to the page's printable height; the printable width goes to the outermost snapshot when there is one, else to the live width |
| Context.DocumentContext.MoveTo | src/documentContext.js:150-159 | each given coordinate is set and its available size recomputed from the page size and the far margin; an absent coordinate leaves both unchanged |
| Context.DocumentContext.BeginDetachedBlock | src/documentContext.js:161-171 | pushes exactly one snapshot copying the seven saved fields, without bottom-most; nothing else changes |
| Context.DocumentContext.EndDetachedBlock | src/documentContext.js:173-183 | pops exactly one snapshot and restores all seven of its fields |
| Context.DocumentContext.MoveToNextPage | src/documentContext.js:185-213 | an existing next page is reused with no page added; otherwise exactly one page of the GetPageSize size is appended, and the live width is kept when the orientation did not change; returns whether a page was created, the previous page and y, and the new y |
| Context.SavedHeightsFitGrow | src/documentContext.js:215-218 | appending pages or changing page contents keeps every saved available height fitting its page |
| Context.DocumentContext.AddPage | src/documentContext.js:215-224 | appends exactly one empty page, makes it current, initialises the cursor as InitializePage states and emits pageAdded once |
| Writer.AddPageItem | src/ElementWriter.js:7-13 | for an index within 0 to the item count the item is inserted there with the items before and after it kept in order; otherwise it is appended; the item count grows by one and the multiset grows by the item |
| Writer.AlignmentOffset | src/ElementWriter.js:161-179 | decided by the first run: right puts the line's right edge on the available width, centre leaves equal room on both sides, anything else shifts by 0 |
| Writer.AlignLine | src/ElementWriter.js:161-194 | the loop produces Aligned: the line shifted by AlignmentOffset and, for a justified line, run i shifted by i times the spacing and marked with it |
| Writer.JustifyFillsLine | src/ElementWriter.js:181-193 | justification keeps the first run and moves the last run right by exactly the line's free space |
| Writer.JustifyWidensEachGap | src/ElementWriter.js:185-192 | every gap between consecutive runs of a justified line grows by the same spacing, which each shifted run records |
| Writer.AlignedKeepsRunsUnlessJustified | src/ElementWriter.js:177-184 | a line that is not justified keeps its runs and is only shifted by the alignment offset |
| Writer.Placed | src/ElementWriter.js:82-106 | every block item is placed, one for one and of the same kind: a line keeps all its fields but has x moved by dx and y by dy, and a vector is translated by (dx, dy) |
| Writer.PlacedUndo | src/ElementWriter.js:82-106 | translating the placed block back by (-dx, -dy) gives back every item |
| Writer.PutOnPage | src/ElementWriter.js:130-135 | the item goes into the current page as AddPageItem states; cursor, stack, side-table and page count are unchanged, and the height invariant is kept |
| Writer.ElementWriter.ReportingContext | src/ElementWriter.js:59 | the outermost pushed context while anything is pushed, the active one otherwise |
| Writer.ElementWriter.constructor | src/ElementWriter.js:23-27 | the writer starts on the given context with an empty stack and no lines emitted |
| Writer.ElementWriter.PushContext | src/ElementWriter.js:37-49 | the active context is saved on top of the stack and the given one becomes active |
| Writer.ElementWriter.PushNewContext | src/ElementWriter.js:37-49 | the active context is saved and a fresh one with a single page of the given size, zero margins, cursor at 0,0 and the whole width and height available becomes active |
| Writer.ElementWriter.PopContext | src/ElementWriter.js:51-53 | the top of the stack becomes active again and is removed |
| Writer.ElementWriter.CurrentPositionOnPage | src/ElementWriter.js:58-60 | the position report of the reporting context |
| Writer.ElementWriter.AddFragment | src/ElementWriter.js:62-113 | succeeds exactly when x-offset mode is block-relative or the block fits the available height; a failure changes nothing; on success every item is appended in order, shifted by the block offset or the cursor on each axis, and the cursor moves down by the block height unless suppressed |
| Writer.ElementWriter.AddLine | src/ElementWriter.js:115-141 | succeeds exactly when the line fits (equal height fits) and there is a page; a failure changes nothing and emits nothing; on success the line is put at the cursor plus its own offsets, aligned, inserted as AddPageItem states and emitted once, the cursor moves down by its height unless suppressed, and the position from before the move is returned |
| Writer.ElementWriter.AddVector | src/ElementWriter.js:143-156 | with no page nothing changes and nothing is returned; otherwise the vector is translated by the cursor on each axis not ignored, inserted as AddPageItem states, the cursor is unchanged and the position is returned |
| Scenarios.BeginColumnGroupSavesSettings | tests/documentContext.js:18-26 | one snapshot holding x 40 and page 0 |
| Scenarios.BeginColumnRestoresVerticalPosition | tests/documentContext.js:30-41 | y 60, page 0 and height 680 come back after the cursor was moved |
| Scenarios.BeginColumnAddsOffset | tests/documentContext.js:43-48 | the first column with offset 30 starts at x 70 |
| Scenarios.BeginColumnAddsPreviousWidth | tests/documentContext.js:50-56 | columns start at x 40 and then 40 + 30 |
| Scenarios.BeginColumnSetsWidth | tests/documentContext.js:58-63 | the available width becomes the column width 30 |
| Scenarios.BeginColumnSavesEndingCell | tests/documentContext.js:65-77 | the cell records y 150, page 3 and height 123 |
| Scenarios.CompleteColumnGroupRestoresX | tests/documentContext.js:81-87 | x returns to 40 |
| Scenarios.LongestColumnFirstTwo | tests/documentContext.js:90-93 | after a first column ending on page 3 the group's bottom-most is page 3 and the second column starts back on page 0 at x 70 |
| Scenarios.LongestColumnThird | tests/documentContext.js:94-95 | a second column ending on page 7 makes page 7 the bottom-most and the third column starts at x 100 |
| Scenarios.CompleteColumnGroupTakesLongestColumn | tests/documentContext.js:89-100 | of columns ending on pages 3, 7 and 4 the group closes on page 7 |
| Scenarios.SkipFirstColumn | tests/documentContext.js:105-110 | the spanning column is stored at page 3, y 150, height 123 and the bottom-most stays at the group's start |
| Scenarios.CompleteColumnGroupSkipsSpanningCells | tests/documentContext.js:102-117 | a parked spanning column is ignored: the group closes at page 3, y 100 |
| Scenarios.SpanOuterRow1Start | tests/documentContext.js:124-127 | the spanning first column is stored at y 350 and does not move the bottom-most |
| Scenarios.SpanOuterRow1 | tests/documentContext.js:124-133 | the stack, cursor and stored end after the outer table's first columns |
| Scenarios.SpanNestedRow1Start | tests/documentContext.js:133-136 | the nested group's bottom-most becomes the first column's end at y 100 |
| Scenarios.SpanNestedRow1 | tests/documentContext.js:137-144 | the nested row closes at y 120 with the spanning column stored |
| Scenarios.SpanNestedRow2Start | tests/documentContext.js:147-150 | a first column ending at y 10 leaves the bottom-most at the row's top, y 120 |
| Scenarios.SpanNestedRow2 | tests/documentContext.js:147-155 | the marked column end brings the nested row to y 180 |
| Scenarios.SpanOuterRow2 | tests/documentContext.js:165-172 | the marked outer span brings the row to y 350 |
| Scenarios.SpanningCellsInNestedGroups | tests/documentContext.js:119-174 | y is 120, 180, 180 and 350 at the four checkpoints |
| Scenarios.InitializePageKeepsColumnWidth | tests/documentContext.js:187-197 | inside a column the width stays 100; after the group it is the printable 320 |
| Scenarios.BottomMostExamples | tests/documentContext.js:201-211 | the later page wins (page 3, y 5); on one page the larger y wins (page 3, y 100) |
| Scenarios.NestOuterColumns | tests/documentContext.js:215-222 | the stack, cursor and bottom-most after three outer columns and a nested group begin |
| Scenarios.NestInnerColumns | tests/documentContext.js:227-232 | the nested group closes on page 2 at y 240 |
| Scenarios.NestedGroups | tests/documentContext.js:214-245 | two snapshots with the inner x 130; then 1 snapshot, x 130, page 2, y 240; then none, x 40, page 2, y 240 |
| Scenarios.ColumnGroupRestoresX | src/documentContext.js:30-122 | a group of two columns of any widths and depths closes at its starting x with the stack as before |
| Scenarios.RunBlockStep | src/documentContext.js:125-213 | one cursor step (move down, margin, move to, next page, page initialisation); it rewrites only the page snapshot's width, and only when it initialises a page |
| Scenarios.RunBlockSteps | src/documentContext.js:125-213 | a sequence of steps rewrites the page snapshot's width exactly when one of them initialises a page, to the printable width of an existing page |
| Scenarios.DetachedBlockRoundTrip | src/documentContext.js:161-183 | for any sequence of cursor steps run inside a detached block, ending it gives back page, x, y, available height, ending cell and column width; the available width comes back too unless the block was opened on an empty stack and a step initialised a page (then it is that printable width, as line 139 writes it into the block itself); the stack comes back with only its page snapshot's width rewritten in that case |
| Scenarios.OpenColumn | src/documentContext.js:51-65 | the next column starts at the group's page, y and height, at x plus the previous column width plus the offset, with the given width |
| Scenarios.ColumnsStartPastEarlierColumns | src/documentContext.js:29-65 | for any widths and offsets, column k starts at the group's page, y and height, at the group's x plus the widths of columns before k plus the offsets of columns 0 to k, with width k |
| Scenarios.PushPopRoundTrip | src/ElementWriter.js:37-53 | push then pop gives back the active context and the stack |
| Scenarios.AlignmentExamples | src/ElementWriter.js:161-193 | width 100 in 400: centre at 150, right at 300, justified runs shifted by 0, 150 and 300 |
| Scenarios.AddLineAtTop | src/ElementWriter.js:115-141 | a centred line on a fresh page reports page 1 at top 60, lands at x 150 and moves the cursor to y 70 |

## Left out

- Events: `TraversalTracker` and the `EventEmitter` base are external. Notifications are a ghost counter of `pageAdded` and a ghost log of `lineAdded`, with no listeners.
- `hasBackground` is set by the constructor and read by no modelled code.
- The no-argument `pushContext` is not modelled. The code reads a page `height` field that does not exist, so it yields NaN.
- `offsetVector` and `pack` are not part of this model. A vector is a sequence of points that is translated point by point (`OffsetVector`).
- `Line.getWidth`, `getHeight` and `maxWidth` are not part of this model. Width and height are given fields of a line.
- `cloneLine`'s reflective copy is not modelled. Lines are values, so no caller object is shared or mutated.
- Aliasing of the caller's line and vector objects is not modelled. The source overwrites their coordinates in place, and the model writes the placed copy.
- Floating point is not modelled. Coordinates are exact reals. A position ratio is `None` where the code divides by zero.
- `toLowerCase` is modelled as ASCII lower-casing. This agrees with it for deciding equality with "landscape".
- `isString`, `isNumber` and `isValue` are not part of this model. Their outcomes are encoded in the argument types: `OrientationOverride`, `Option`, and a width argument versus a context argument.
- Local line offsets: `(line.x || 0)` reads a line's x and y as given reals, because lines always carry both here.
- Calls the code would crash on are preconditions:
  - `beginColumn` or `completeColumnGroup` without a column group on top of the stack;
  - `endDetachedBlock` or `popContext` on an empty stack;
  - `markEnding` for a cell with no stored end;
  - `addFragment` with items but no page;
  - `moveTo`, `initializePage` or `moveToNextPage` with no current page;
  - a position report with no page.
- Undefined column widths: where tests/documentContext.js calls `beginColumn()` without a width, the scenarios pass 0, because no expectation there reads the width.
- Context.DocumentContext.BeginColumn: it also requires a column group when the pending ending cell would spare the code from reading `bottomMost`. With no cell pending, the code reads `bottomMost` of the top snapshot (src/documentContext.js:71), which a detached block lacks, so the model requires a column group on top in every case.
- Scenarios.DetachedBlockRoundTrip: the steps run inside the block are single cursor operations (`BlockStep`); column groups, nested detached blocks and writer placements inside the block are not among them.
- `pageSnapshot` is not a separate member. Its choice between `snapshots[0]` and the context itself is stated by `InitializePage` through `WithPageSnapshotWidth`.
- The mocha harness is not modelled. Its cases appear only as the `Scenarios` methods.
