# PagerTabStrip button bar: layout arithmetic in Dafny

PagerTabStrip shows one page per child view controller. Above the pages sits a
horizontal *button bar*: a collection view with one tab cell per page, plus a *selector*
view that slides under the selected tab. This project models the arithmetic that lays
that bar out:

- **Cell widths** (`ButtonBarPagerTabStripViewController.calculateWidths` and the
  recursive `calculateStretchedCellWidths`).
  - Given the minimum width of every tab, the controller either keeps those widths, or
    stretches the narrow tabs to one common width so that the row fills the bar.
  - The common width is found by rounds. Each round counts the tabs wider than the current
    suggestion ("large" cells) and shares what they and the gaps leave among the others.
  - The model proves that the rounds stop and never divide by zero in the fill branch.
    It also proves that the stretched row plus its gaps is exactly the available width,
    and that no tab becomes narrower than its minimum.
- **Controller bookkeeping**.
  - The swipe direction, and which item is handed on as the "old" cell.
  - The `cellsForItems` lookup and its reload filter.
  - The size lookup in the width cache.
  - The flags `shouldUpdateButtonBarView` and `collectionViewDidLoad`, and the moves
    triggered by page changes and taps.
- **Selector and scroll offset** (`ButtonBarView`).
  - `moveTo` and `move` (interpolation part-way through a swipe, with a virtual frame
    beyond either end).
  - The four horizontal alignments of `contentOffsetForCell` and its clamp.
  - The `PagerScroll` guard of `updateContentOffset`.
  - The vertical placement of the selector.

Modelling choices:

- `CGFloat` is `real`.
- `CGRect` and `CGPoint` are the datatypes `Rect` and `Point`.
- The values UIKit supplies are gathered in a `Layout` value: the frame, content width,
  content inset, section insets, line spacing, the layout-attribute frame of every item
  and the set of items whose cells are on screen. The data source's item count is the
  number of item frames.
- The view's mutable state (`selectedIndex`, the selector's frame, the content offset) and
  the controller's mutable fields are fields of two classes. Their methods state the whole
  new state.
- The loops of `calculateStretchedCellWidths` and `calculateWidths` are methods proved
  equal to the specification functions `StretchedCellWidth` and `CalculatedWidths`. The
  properties are proved about those functions.
- Swift's `Int` division in the progressive alignment truncates toward zero. It is
  written out as `Quotient`, because Dafny's `/` is Euclidean. A zero divisor (a one-item
  bar) is the `DivisionByZero` outcome, and the callers require it away.
- A `CGFloat` division by zero (no small cell left) gives a non-finite width. It is the
  `NonFinite` outcome: +infinity, -infinity and NaN all come back unchanged from the next
  round. For +infinity and NaN no cell is wider than the suggestion, so no cell is large.
  For -infinity every cell is large, but that is the count the previous round already
  had. Either way the large-cell count does not grow, and the round returns its suggestion.
- Force-unwrapped layout attributes of an item outside the bar crash the source; here
  they are preconditions. So is the progressive alignment's division by zero on a
  one-item bar, but only where the source reaches it: when a scroll offset is actually
  computed (the guard lets the scroll through, the bar follows the pages, or the tapped
  tab is not the current one).
- The `updateContentOffset` guard is modelled as written. `.enabled` and
  `.outOfScreenOnly` both always scroll. `.disabled` scrolls exactly when the target cell
  starts left of the visible area or at or beyond its right end. `ScrollGuardTruthTable`
  spells this out.

Files: `ButtonBarView.dfy` (module `ButtonBar`), `CellWidths.dfy` (module `CellWidths`,
the specification of the width computation and its proofs),
`ButtonBarPagerTabStripViewController.dfy` (module `ButtonBarPager`), and `Wrappers.dfy`
(`Option`).

## Model

| member | source | states |
|---|---|---|
| ButtonBar.Quotient | Sources/PagerTabStrip/ButtonBarView.swift:189 | Swift `Int` division: the remainder has the dividend's sign and is smaller in size than the divisor |
| ButtonBar.ItemProgress | Sources/PagerTabStrip/ButtonBarView.swift:188-189 | `index / (numberOfItems - 1)` traps exactly for one item; it is 0 for every item but the last, and 1 for the last |
| ButtonBar.OutOfRangeProgress | Sources/PagerTabStrip/ButtonBarView.swift:114-124 | for the virtual targets one place beyond either end, truncation gives 0 before the first item (a Euclidean quotient gives -1) and 1 after the last; on a two-item bar they give -1 and 2 |
| ButtonBar.AlignmentOffset | Sources/PagerTabStrip/ButtonBarView.swift:177-191 | left puts the cell at the left inset; right puts its right edge at the right inset; center centres it in the bar; progressive acts as left for all items but the last and as right for the last |
| ButtonBar.ContentOffsetForCell | Sources/PagerTabStrip/ButtonBarView.swift:173-197 | the offset never exceeds `contentWidth - frame.width`; it is at least 0 when the content is at least as wide as the bar; within range it places the cell exactly at its alignment offset; below range it is 0; above range it is exactly `contentWidth - frame.width`; when the content is narrower than the bar the later `min` wins |
| ButtonBar.ScrollTarget | Sources/PagerTabStrip/ButtonBarView.swift:169 | the scroll target is 0 whenever the content fits in the bar, and always lies between 0 and the largest offset |
| ButtonBar.ShouldScroll | Sources/PagerTabStrip/ButtonBarView.swift:168 | the guard's truth table: `.enabled` and `.outOfScreenOnly` always scroll; `.disabled` scrolls iff the target starts left of the offset or at or past `offset + frame.width - contentInset.left` |
| ButtonBar.ScrollGuardTruthTable | Sources/PagerTabStrip/ButtonBarView.swift:168 | an on-screen target is scrolled to under `.outOfScreenOnly` but not under `.disabled`; a target left of the visible area is scrolled to even under `.disabled` |
| ButtonBar.ToFrame | Sources/PagerTabStrip/ButtonBarView.swift:114-124 | an in-range target is its own frame; a target before item 0 is item 0's frame moved left by its width; a target after the last item is the last frame moved right by its width |
| ButtonBar.InterpolateBounds | Sources/PagerTabStrip/ButtonBarView.swift:126-138 | the interpolation gives the start at progress 0 and the target at progress 1; it is constant when both ends agree; it stays between them for progress in [0, 1] |
| ButtonBar.SelectorY | Sources/PagerTabStrip/ButtonBarView.swift:199-209 | top puts the selector at 0; middle leaves equal room above and below; bottom rests it on the bar's bottom edge; a selector no taller than the bar stays inside it |
| ButtonBar.ButtonBarView.constructor | Sources/PagerTabStrip/ButtonBarView.swift:88-98 | the bar starts with the default settings (middle, progressive, height 4) and index 0 selected; the selector, created from those defaults, has zero width at x 0, the default height, and rests on the bar's bottom edge |
| ButtonBar.ButtonBarView.SetStyle | Sources/PagerTabStrip/ButtonBarPagerTabStripViewController.swift:192 | the controller installs its style on the bar; nothing else changes |
| ButtonBar.ButtonBarView.MoveTo | Sources/PagerTabStrip/ButtonBarView.swift:101-104 | selects the index; the selector takes the cell's x and width and keeps its y and height; the offset moves to the cell's scroll target iff the guard allows; a refused scroll needs no alignment arithmetic |
| ButtonBar.ButtonBarView.Move | Sources/PagerTabStrip/ButtonBarView.swift:106-142 | selects `toIndex` iff the progress exceeds 0.5; the selector's x and width interpolate from the source frame to the target frame, with y and height unchanged; the offset interpolates between the two scroll targets whatever the `PagerScroll`; it is 0 when the content fits and stays in range for progress in [0, 1] |
| ButtonBar.ButtonBarView.UpdateSelectorViewPosition | Sources/PagerTabStrip/ButtonBarView.swift:144-163 | the selector's final frame takes the selected cell's x and width; the content offset follows the guard |
| ButtonBar.ButtonBarView.UpdateContentOffset | Sources/PagerTabStrip/ButtonBarView.swift:167-171 | when the guard refuses, the offset is unchanged; otherwise it becomes the scroll target, which is 0 when the content fits |
| ButtonBar.ButtonBarView.UpdateSelectorViewYPosition | Sources/PagerTabStrip/ButtonBarView.swift:199-213 | the selector gets the alignment's y and the style's height; its x and width stay |
| ButtonBar.ButtonBarView.LayoutSubviews | Sources/PagerTabStrip/ButtonBarView.swift:215-218 | every layout pass re-places the selector vertically, keeping x and width |
| CellWidths.CountLarge | Sources/PagerTabStrip/ButtonBarPagerTabStripViewController.swift:243-248 | the number of large cells lies between 0 and the number of cells, which bounds the rounds |
| CellWidths.StretchKeepsSuggestion | Sources/PagerTabStrip/ButtonBarPagerTabStripViewController.swift:250-251 | a round in which no more cells are large than before returns the suggestion unchanged |
| CellWidths.StretchStep | Sources/PagerTabStrip/ButtonBarPagerTabStripViewController.swift:253-271 | a round with more large cells, and some small ones, hands on to the next round with the remaining width shared among the small cells |
| CellWidths.Stretch | Sources/PagerTabStrip/ButtonBarPagerTabStripViewController.swift:519-526 | one width per cell, each the larger of the cell's minimum and the common width |
| CellWidths.StretchSum | Sources/PagerTabStrip/ButtonBarPagerTabStripViewController.swift:519-526 | the stretched row is the large cells' width plus the common width once for every other cell |
| CellWidths.LowerThreshold | Sources/PagerTabStrip/ButtonBarPagerTabStripViewController.swift:243-248 | lowering the suggestion only adds large cells, each wider than the new suggestion |
| CellWidths.StretchFillsFrom | Sources/PagerTabStrip/ButtonBarPagerTabStripViewController.swift:250-271 | from any round whose remaining width is shared out exactly, the rounds never divide by zero and end at a common width that makes the row fill the available width |
| CellWidths.FillReachesAvailableWidth | Sources/PagerTabStrip/ButtonBarPagerTabStripViewController.swift:503-528 | in the fill branch the rounds started at the equal share never divide by zero, and the stretched widths plus `(n - 1)` gaps are exactly the available width |
| CellWidths.CalculatedWidths | Sources/PagerTabStrip/ButtonBarPagerTabStripViewController.swift:484-530 | one width per tab, none below its minimum; the minimum widths unchanged when fill is off or the content is wider than the available width; otherwise the row plus its gaps fills the available width |
| ButtonBarPager.SwipeDirectionFor | Sources/PagerTabStrip/ButtonBarPagerTabStripViewController.swift:279 | right iff `toIndex < fromIndex`, left otherwise |
| ButtonBarPager.OldItem | Sources/PagerTabStrip/ButtonBarPagerTabStripViewController.swift:284-287 | the old item is `fromIndex` unless the pager already reports `fromIndex` as current, then `toIndex`; it is the current item only for a move that goes nowhere |
| ButtonBarPager.CellsForItems | Sources/PagerTabStrip/ButtonBarPagerTabStripViewController.swift:338 | one entry per index path, in order: the item's cell iff it is on screen, nil otherwise |
| ButtonBarPager.IndexPathsToReload | Sources/PagerTabStrip/ButtonBarPagerTabStripViewController.swift:340-352 | an item is reloaded iff it was requested, its cell is missing and it lies in `[0, numberOfItems)` |
| ButtonBarPager.ButtonBarPagerTabStripViewController.constructor | Sources/PagerTabStrip/ButtonBarPagerTabStripViewController.swift:532-533 | the bar follows the pages, no cell has been dequeued, nothing is cached, and tabs fill the available width by default |
| ButtonBarPager.ButtonBarPagerTabStripViewController.CalculateStretchedCellWidths | Sources/PagerTabStrip/ButtonBarPagerTabStripViewController.swift:239-272 | the counting loop and the recursion compute exactly `StretchedCellWidth` for the bar's available width and line spacing |
| ButtonBarPager.ButtonBarPagerTabStripViewController.CalculateWidths | Sources/PagerTabStrip/ButtonBarPagerTabStripViewController.swift:484-530 | the summing and appending loops compute exactly `CalculatedWidths`, so its length, minimum and fill properties hold of the result |
| ButtonBarPager.ButtonBarPagerTabStripViewController.UpdateCachedCellWidths | Sources/PagerTabStrip/ButtonBarPagerTabStripViewController.swift:220 | the cache holds the calculated widths |
| ButtonBarPager.ButtonBarPagerTabStripViewController.SizeForItemAt | Sources/PagerTabStrip/ButtonBarPagerTabStripViewController.swift:365-374 | a size exists iff widths are cached and the row is among them; it is the cached width and the bar's height |
| ButtonBarPager.ButtonBarPagerTabStripViewController.CellsForItemsAt | Sources/PagerTabStrip/ButtonBarPagerTabStripViewController.swift:334-361 | returns the cells of `CellsForItems`; it reloads the paths of `IndexPathsToReload` once a cell has been dequeued, and nothing before |
| ButtonBarPager.ButtonBarPagerTabStripViewController.UpdateIndicator | Sources/PagerTabStrip/ButtonBarPagerTabStripViewController.swift:274-297 | nothing happens while the bar is not following; otherwise the bar moves to `toIndex`, scrolling freely, and when a callback is set, the cells of the old item and the current item are looked up |
| ButtonBarPager.ButtonBarPagerTabStripViewController.UpdateIndicatorProgressive | Sources/PagerTabStrip/ButtonBarPagerTabStripViewController.swift:299-332 | nothing happens while the bar is not following; otherwise the bar moves part-way as `Move` says: selected index, interpolated selector x and width, and the content offset interpolated between the two scroll targets; when a callback is set, the cells of the old and current items are looked up |
| ButtonBarPager.SelectionCallback | Sources/PagerTabStrip/ButtonBarPagerTabStripViewController.swift:399-407 | the progressive callback is notified iff the indicator is progressive and that callback is set; the plain one iff the indicator is not progressive and it is set |
| ButtonBarPager.ButtonBarPagerTabStripViewController.DidSelectItemAt | Sources/PagerTabStrip/ButtonBarPagerTabStripViewController.swift:376-407 | tapping the current tab changes nothing and notifies no one; tapping another moves the bar to it, stops the bar following page scrolls, looks up the current and tapped cells, and notifies the callback `SelectionCallback` picks |
| ButtonBarPager.ButtonBarPagerTabStripViewController.CellForItemAt | Sources/PagerTabStrip/ButtonBarPagerTabStripViewController.swift:426 | dequeuing a cell marks the bar as loaded |
| ButtonBarPager.ButtonBarPagerTabStripViewController.ScrollViewDidEndScrollingAnimation | Sources/PagerTabStrip/ButtonBarPagerTabStripViewController.swift:464-469 | the bar follows page scrolls again exactly when the scroll view that stopped is the pages' container |

## Left out

- Label measurement (`buttonBarItemSpec`, Sources/PagerTabStrip/ButtonBarPagerTabStripViewController.swift:123-131): it depends on `UILabel.intrinsicContentSize`. The minimum widths are an input sequence.
- View-controller lifecycle and plumbing (`viewDidLoad`, `viewWillAppear`, `viewDidLayoutSubviews`, `reloadPagerTabStripView`, delegate wiring): UIKit sequencing. Their effect on the model is a call of `UpdateCachedCellWidths` and `MoveTo`.
- The lazy initial value of `cachedCellWidths`: the cache starts empty, and `UpdateCachedCellWidths` fills it.
- Cell configuration, accessibility, colours and corner styling: UIKit property setting.
- `UIView.animate`: only the selector's final frame is modelled.
- The `changeCurrentIndex` and `changeCurrentIndexProgressive` callbacks, and `moveToViewController`: user closures and superclass code. The methods return the cells the callbacks would be given (and `DidSelectItemAt` which callback); the flags `hasChangeCurrentIndex` and `hasChangeCurrentIndexProgressive` say whether each is set.
- `setContentOffset`'s animation and `reloadItems`' effect on the screen: the new offset and the reloaded paths are the model's outputs.
- Floating-point effects: rounding is not modelled (`real` arithmetic). Infinity and NaN are merged into the single `NonFinite` outcome.
- Swift `Int` overflow: integers are unbounded. Item indices and counts stay far below the limit.
- ButtonBarPager.ButtonBarPagerTabStripViewController.SizeForItemAt: the source's `fatalError` and its out-of-range array trap are both the `None` result.
- ButtonBar.ButtonBarView.MoveTo, ButtonBar.ButtonBarView.Move and the methods that call them: the source crashes on an item outside the bar (force-unwrapped layout attributes), and on a one-item bar with progressive alignment when it computes a scroll offset for content wider than the bar; these are preconditions here, the second one only on the paths that reach that computation.
