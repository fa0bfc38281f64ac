/** The button-bar pager: the view controller that sizes the bar's cells and keeps the
    bar's selector in step with the pages. The child view controllers, the user's
    callbacks and the superclass's paging are outside the model; what remains is the
    width computation, the index rules and the bookkeeping fields. */
module ButtonBarPager {
  import opened ButtonBar
  import opened CellWidths
  import Wrappers

  /** What `cellForItem(at:)` gives for an item: its cell when on screen, else nil. */
  datatype Cell = Visible(item: int) | Missing

  /** The width the flow layout leaves for cells: the bar's width less both section insets. */
  function AvailableWidth(layout: Layout): real {
    layout.frame.width - layout.sectionInsetLeft - layout.sectionInsetRight
  }

  /** The swipe direction `updateIndicator` reports: right when moving to a lower index,
      left otherwise (never none). */
  function SwipeDirectionFor(fromIndex: int, toIndex: int): (d: SwipeDirection)
    ensures d.Right? <==> toIndex < fromIndex
    ensures d.Left? <==> fromIndex <= toIndex
  {
    if toIndex < fromIndex then SwipeDirection.Right else SwipeDirection.Left
  }

  /** The item whose cell is handed to the callbacks as the old cell: `fromIndex`, unless
      the pager already reports `fromIndex` as current, in which case `toIndex`. It is the
      current item only when the move goes nowhere. */
  function OldItem(currentIndex: int, fromIndex: int, toIndex: int): (i: int)
    ensures i == fromIndex || i == toIndex
    ensures i == toIndex <==> currentIndex == fromIndex || fromIndex == toIndex
    ensures i == currentIndex ==> fromIndex == toIndex
  {
    if currentIndex != fromIndex then fromIndex else toIndex
  }

  /** The cells of `cellsForItems(at:reloadIfNotVisible:)`: one per index path, in order,
      the item's cell when it is on screen and nil otherwise. */
  function CellsForItems(indexPaths: seq<int>, visibleItems: set<int>): (cells: seq<Cell>)
    ensures |cells| == |indexPaths|
    ensures forall k :: 0 <= k < |cells| ==>
      (cells[k].Visible? <==> indexPaths[k] in visibleItems) &&
      (cells[k].Visible? ==> cells[k].item == indexPaths[k])
  {
    if indexPaths == [] then []
    else
      var item := indexPaths[|indexPaths| - 1];
      CellsForItems(indexPaths[..|indexPaths| - 1], visibleItems) +
        [if item in visibleItems then Visible(item) else Missing]
  }

  /** The index paths `cellsForItems` asks the bar to reload: those, in order, whose cell
      is missing and whose item lies in `[0, numberOfItems)`. */
  function IndexPathsToReload(indexPaths: seq<int>, visibleItems: set<int>, numberOfItems: int): (r: seq<int>)
    ensures |r| <= |indexPaths|
    ensures forall x :: x in r <==> x in indexPaths && x !in visibleItems && 0 <= x < numberOfItems
  {
    if indexPaths == [] then []
    else
      var init, item := indexPaths[..|indexPaths| - 1], indexPaths[|indexPaths| - 1];
      var kept := IndexPathsToReload(init, visibleItems, numberOfItems);
      assert indexPaths == init + [item];
      if item !in visibleItems && 0 <= item < numberOfItems then kept + [item] else kept
  }

  /** Which of the user's callbacks a tap on a tab notifies. */
  datatype Callback = NoCallback | ChangeCurrentIndex | ChangeCurrentIndexProgressive

  /** The callback `collectionView(_:didSelectItemAt:)` calls: the progressive one for a
      progressive indicator and the plain one otherwise, each only when it is set. */
  function SelectionCallback(isProgressiveIndicator: bool, hasChangeCurrentIndex: bool,
                             hasChangeCurrentIndexProgressive: bool): (c: Callback)
    ensures c.ChangeCurrentIndexProgressive? <==> isProgressiveIndicator && hasChangeCurrentIndexProgressive
    ensures c.ChangeCurrentIndex? <==> !isProgressiveIndicator && hasChangeCurrentIndex
  {
    if isProgressiveIndicator then
      if hasChangeCurrentIndexProgressive then ChangeCurrentIndexProgressive else NoCallback
    else
      if hasChangeCurrentIndex then ChangeCurrentIndex else NoCallback
  }

  /** The view controller's own state, and the bar it drives. */
  class ButtonBarPagerTabStripViewController {
    var buttonBarView: ButtonBarView
    /** The page the pager shows; maintained by the superclass. */
    var currentIndex: int
    /** `settings.style.itemsShouldFillAvailableWidth`. */
    var itemsShouldFillAvailableWidth: bool
    /** `pagerBehaviour.isProgressiveIndicator`. */
    var isProgressiveIndicator: bool
    /** Whether the `changeCurrentIndex` and `changeCurrentIndexProgressive` callbacks are set. */
    var hasChangeCurrentIndex: bool
    var hasChangeCurrentIndexProgressive: bool
    var cachedCellWidths: Wrappers.Option<seq<real>>
    var shouldUpdateButtonBarView: bool
    var collectionViewDidLoad: bool

    /** A controller with default settings: cells fill the available width, the bar
        follows the pages, and no cell has been dequeued yet. */
    constructor (buttonBarView: ButtonBarView, isProgressiveIndicator: bool,
                 hasChangeCurrentIndex: bool, hasChangeCurrentIndexProgressive: bool)
      ensures this.buttonBarView == buttonBarView && currentIndex == 0
      ensures this.isProgressiveIndicator == isProgressiveIndicator
      ensures this.hasChangeCurrentIndex == hasChangeCurrentIndex
      ensures this.hasChangeCurrentIndexProgressive == hasChangeCurrentIndexProgressive
      ensures itemsShouldFillAvailableWidth && cachedCellWidths.None?
      ensures shouldUpdateButtonBarView && !collectionViewDidLoad
    {
      this.buttonBarView := buttonBarView;
      currentIndex := 0;
      this.isProgressiveIndicator := isProgressiveIndicator;
      this.hasChangeCurrentIndex := hasChangeCurrentIndex;
      this.hasChangeCurrentIndexProgressive := hasChangeCurrentIndexProgressive;
      itemsShouldFillAvailableWidth := true;
      cachedCellWidths := Wrappers.None;
      shouldUpdateButtonBarView := true;
      collectionViewDidLoad := false;
    }

    /** `calculateStretchedCellWidths`: count the cells wider than the suggestion, and
        unless that count grew, keep the suggestion; otherwise share what the large cells
        and the gaps leave among the small cells and go round again. */
    method CalculateStretchedCellWidths(minimumCellWidths: seq<real>, suggestedStretchedCellWidth: real,
                                        previousNumberOfLargeCells: int) returns (r: CellWidth)
      ensures r == StretchedCellWidth(minimumCellWidths, suggestedStretchedCellWidth, previousNumberOfLargeCells,
                                      AvailableWidth(buttonBarView.layout), buttonBarView.layout.minimumLineSpacing)
      decreases |minimumCellWidths| - previousNumberOfLargeCells
    {
      var numberOfLargeCells := 0;
      var totalWidthOfLargeCells := 0.0;
      var i := 0;
      while i < |minimumCellWidths|
        invariant 0 <= i <= |minimumCellWidths|
        invariant numberOfLargeCells == CountLarge(minimumCellWidths[..i], suggestedStretchedCellWidth)
        invariant totalWidthOfLargeCells == SumLarge(minimumCellWidths[..i], suggestedStretchedCellWidth)
      {
        assert minimumCellWidths[..i + 1][..i] == minimumCellWidths[..i];
        var minimumCellWidthValue := minimumCellWidths[i];
        if minimumCellWidthValue > suggestedStretchedCellWidth {
          totalWidthOfLargeCells := totalWidthOfLargeCells + minimumCellWidthValue;
          numberOfLargeCells := numberOfLargeCells + 1;
        }
        i := i + 1;
      }
      assert minimumCellWidths[..i] == minimumCellWidths;
      assert numberOfLargeCells == CountLarge(minimumCellWidths, suggestedStretchedCellWidth);
      assert totalWidthOfLargeCells == SumLarge(minimumCellWidths, suggestedStretchedCellWidth);

      if numberOfLargeCells <= previousNumberOfLargeCells {
        return Finite(suggestedStretchedCellWidth);
      }

      var layout := buttonBarView.layout;
      var collectionViewAvailableWidth := AvailableWidth(layout);
      var cellSpacingTotal := (|minimumCellWidths| - 1) as real * layout.minimumLineSpacing;
      var numberOfSmallCells := |minimumCellWidths| - numberOfLargeCells;
      if numberOfSmallCells == 0 {
        // CGFloat division by zero: the next round returns the non-finite quotient as is
        return NonFinite;
      }
      var newSuggestedStretchedCellWidth :=
        (collectionViewAvailableWidth - totalWidthOfLargeCells - cellSpacingTotal) / numberOfSmallCells as real;
      StretchStep(minimumCellWidths, suggestedStretchedCellWidth, previousNumberOfLargeCells,
                  collectionViewAvailableWidth, layout.minimumLineSpacing, numberOfLargeCells, totalWidthOfLargeCells,
                  cellSpacingTotal, numberOfSmallCells, newSuggestedStretchedCellWidth);
      r := CalculateStretchedCellWidths(minimumCellWidths, newSuggestedStretchedCellWidth, numberOfLargeCells);
    }

    /** `calculateWidths()`, from the minimum width of every tab: add up the content
        width, and either keep the minimum widths or stretch the narrow cells to the
        common width. */
    method CalculateWidths(minimumCellWidths: seq<real>) returns (widths: seq<real>)
      ensures widths == CalculatedWidths(minimumCellWidths, itemsShouldFillAvailableWidth,
                                         AvailableWidth(buttonBarView.layout), buttonBarView.layout.minimumLineSpacing)
    {
      var layout := buttonBarView.layout;
      var collectionViewContentWidth := 0.0;
      for i := 0 to |minimumCellWidths|
        invariant collectionViewContentWidth == Sum(minimumCellWidths[..i])
      {
        assert minimumCellWidths[..i + 1][..i] == minimumCellWidths[..i];
        collectionViewContentWidth := collectionViewContentWidth + minimumCellWidths[i];
      }
      assert minimumCellWidths[..|minimumCellWidths|] == minimumCellWidths;

      var cellSpacingTotal := (|minimumCellWidths| - 1) as real * layout.minimumLineSpacing;
      collectionViewContentWidth := collectionViewContentWidth + cellSpacingTotal;
      assert collectionViewContentWidth == ContentWidth(minimumCellWidths, layout.minimumLineSpacing);

      var collectionViewAvailableVisibleWidth := AvailableWidth(layout);

      if !itemsShouldFillAvailableWidth || collectionViewAvailableVisibleWidth < collectionViewContentWidth {
        return minimumCellWidths;
      }
      if |minimumCellWidths| == 0 {
        // the equal share divides by zero, but there is no cell to give it to
        return [];
      }

      var stretchedCellWidthIfAllEqual := EqualShare(minimumCellWidths, collectionViewAvailableVisibleWidth, layout.minimumLineSpacing);
      var generalMinimumCellWidth := CalculateStretchedCellWidths(minimumCellWidths, stretchedCellWidthIfAllEqual, 0);
      CalculatedWidthsStretched(minimumCellWidths, collectionViewAvailableVisibleWidth, layout.minimumLineSpacing);
      var general := generalMinimumCellWidth.value;

      widths := [];
      for i := 0 to |minimumCellWidths|
        invariant widths == Stretch(minimumCellWidths[..i], general)
      {
        StretchSnoc(minimumCellWidths, i, general);
        var minimumCellWidthValue := minimumCellWidths[i];
        var cellWidth := if minimumCellWidthValue > general then minimumCellWidthValue else general;
        widths := widths + [cellWidth];
      }
      assert minimumCellWidths[..|minimumCellWidths|] == minimumCellWidths;
    }

    /** `cachedCellWidths = calculateWidths()`, as done when the view appears, rotates or
        reloads. */
    method UpdateCachedCellWidths(minimumCellWidths: seq<real>)
      modifies this`cachedCellWidths
      ensures cachedCellWidths == Wrappers.Some(CalculatedWidths(minimumCellWidths, itemsShouldFillAvailableWidth,
                                                                 AvailableWidth(buttonBarView.layout), buttonBarView.layout.minimumLineSpacing))
    {
      var widths := CalculateWidths(minimumCellWidths);
      cachedCellWidths := Wrappers.Some(widths);
    }

    /** `collectionView(_:layout:sizeForItemAtIndexPath:)`: the cached width of the row's
        cell and the bar's height, or `None` where the source stops (no cached widths, or
        a row outside them). */
    function SizeForItemAt(row: int): (size: Wrappers.Option<(real, real)>)
      reads this, buttonBarView
      ensures size.Some? <==> cachedCellWidths.Some? && 0 <= row < |cachedCellWidths.value|
      ensures size.Some? ==> size.value.0 == cachedCellWidths.value[row] && size.value.1 == buttonBarView.layout.frame.height
    {
      match cachedCellWidths
      case None => Wrappers.None
      case Some(widths) =>
        if 0 <= row < |widths| then Wrappers.Some((widths[row], buttonBarView.layout.frame.height)) else Wrappers.None
    }

    /** `cellsForItems(at:reloadIfNotVisible: collectionViewDidLoad)`: the cells of the
        index paths, and the index paths handed to `reloadItems(at:)` (empty when the bar
        has not dequeued a cell yet, or when nothing needs reloading). */
    method CellsForItemsAt(indexPaths: seq<int>) returns (cells: seq<Cell>, reloaded: seq<int>)
      ensures cells == CellsForItems(indexPaths, buttonBarView.layout.visibleItems)
      ensures reloaded == if collectionViewDidLoad
                          then IndexPathsToReload(indexPaths, buttonBarView.layout.visibleItems, |buttonBarView.layout.itemFrames|)
                          else []
    {
      var layout := buttonBarView.layout;
      cells := CellsForItems(indexPaths, layout.visibleItems);
      reloaded := [];
      if collectionViewDidLoad {
        reloaded := IndexPathsToReload(indexPaths, layout.visibleItems, |layout.itemFrames|);
      }
    }

    /** `updateIndicator(for:fromIndex:toIndex:)`: move the bar straight to `toIndex`,
        scrolling freely, and hand the old and new cells to `changeCurrentIndex`
        (returned here; the callback itself is not modelled). */
    method UpdateIndicator(fromIndex: int, toIndex: int) returns (cells: seq<Cell>, reloaded: seq<int>)
      requires shouldUpdateButtonBarView ==> 0 <= toIndex < |buttonBarView.layout.itemFrames|
      requires shouldUpdateButtonBarView ==> ScrollDefined(buttonBarView.layout, buttonBarView.settings.horizontal)
      modifies buttonBarView`selectedIndex, buttonBarView`selectorFrame, buttonBarView`contentOffset
      ensures !shouldUpdateButtonBarView ==> unchanged(buttonBarView) && cells == [] && reloaded == []
      ensures shouldUpdateButtonBarView ==>
        var layout := buttonBarView.layout;
        var cell := layout.itemFrames[toIndex];
        buttonBarView.selectedIndex == toIndex &&
        buttonBarView.selectorFrame == old(buttonBarView.selectorFrame).(x := cell.x, width := cell.width) &&
        buttonBarView.contentOffset == Point(ScrollTarget(layout, buttonBarView.settings.horizontal, cell, toIndex), 0.0)
      ensures shouldUpdateButtonBarView && hasChangeCurrentIndex ==>
        var paths := [OldItem(currentIndex, fromIndex, toIndex), currentIndex];
        cells == CellsForItems(paths, buttonBarView.layout.visibleItems) &&
        reloaded == if collectionViewDidLoad
                    then IndexPathsToReload(paths, buttonBarView.layout.visibleItems, |buttonBarView.layout.itemFrames|)
                    else []
      ensures !(shouldUpdateButtonBarView && hasChangeCurrentIndex) ==> cells == [] && reloaded == []
    {
      cells, reloaded := [], [];
      if !shouldUpdateButtonBarView {
        return;
      }
      buttonBarView.MoveTo(toIndex, false, SwipeDirectionFor(fromIndex, toIndex), Enabled);
      if hasChangeCurrentIndex {
        var paths := [OldItem(currentIndex, fromIndex, toIndex), currentIndex];
        cells, reloaded := CellsForItemsAt(paths);
      }
    }

    /** `updateIndicator(for:fromIndex:toIndex:withProgressPercentage:indexWasChanged:)`:
        move the bar part of the way from `fromIndex` to `toIndex`, and hand the old and
        new cells to `changeCurrentIndexProgressive` (returned here). */
    method UpdateIndicatorProgressive(fromIndex: int, toIndex: int, progressPercentage: real, indexWasChanged: bool)
      returns (cells: seq<Cell>, reloaded: seq<int>)
      requires shouldUpdateButtonBarView ==> 0 <= fromIndex < |buttonBarView.layout.itemFrames|
      requires shouldUpdateButtonBarView ==> ScrollDefined(buttonBarView.layout, buttonBarView.settings.horizontal)
      modifies buttonBarView`selectedIndex, buttonBarView`selectorFrame, buttonBarView`contentOffset
      ensures !shouldUpdateButtonBarView ==> unchanged(buttonBarView) && cells == [] && reloaded == []
      ensures shouldUpdateButtonBarView ==>
        var layout := buttonBarView.layout;
        var fromFrame := layout.itemFrames[fromIndex];
        var toFrame := ToFrame(layout.itemFrames, toIndex);
        buttonBarView.selectedIndex == (if progressPercentage > 0.5 then toIndex else fromIndex) &&
        buttonBarView.selectorFrame == Rect(
          Interpolate(fromFrame.x, toFrame.x, progressPercentage), old(buttonBarView.selectorFrame.y),
          Interpolate(fromFrame.width, toFrame.width, progressPercentage), old(buttonBarView.selectorFrame.height)) &&
        buttonBarView.contentOffset == Point(
          Interpolate(
            ScrollTarget(layout, buttonBarView.settings.horizontal, fromFrame, fromIndex),
            ScrollTarget(layout, buttonBarView.settings.horizontal, toFrame, toIndex),
            progressPercentage),
          0.0)
      ensures shouldUpdateButtonBarView && hasChangeCurrentIndexProgressive ==>
        var paths := [OldItem(currentIndex, fromIndex, toIndex), currentIndex];
        cells == CellsForItems(paths, buttonBarView.layout.visibleItems) &&
        reloaded == if collectionViewDidLoad
                    then IndexPathsToReload(paths, buttonBarView.layout.visibleItems, |buttonBarView.layout.itemFrames|)
                    else []
      ensures !(shouldUpdateButtonBarView && hasChangeCurrentIndexProgressive) ==> cells == [] && reloaded == []
    {
      cells, reloaded := [], [];
      if !shouldUpdateButtonBarView {
        return;
      }
      buttonBarView.Move(fromIndex, toIndex, progressPercentage, Enabled);
      if hasChangeCurrentIndexProgressive {
        var paths := [OldItem(currentIndex, fromIndex, toIndex), currentIndex];
        cells, reloaded := CellsForItemsAt(paths);
      }
    }

    /** `collectionView(_:didSelectItemAt:)`: tapping the current tab does nothing;
        tapping another moves the bar to it, stops the bar following page scrolls until
        the page transition ends, and hands the old and new cells to a callback (the
        cells and the callback chosen are returned here; the page change itself is the
        superclass's). */
    method DidSelectItemAt(item: int) returns (cells: seq<Cell>, reloaded: seq<int>, notified: Callback)
      requires item != currentIndex ==> 0 <= item < |buttonBarView.layout.itemFrames|
      requires item != currentIndex ==> ScrollDefined(buttonBarView.layout, buttonBarView.settings.horizontal)
      modifies this`shouldUpdateButtonBarView
      modifies buttonBarView`selectedIndex, buttonBarView`selectorFrame, buttonBarView`contentOffset
      ensures item == currentIndex ==>
        unchanged(this) && unchanged(buttonBarView) && cells == [] && reloaded == [] && notified == NoCallback
      ensures item != currentIndex ==>
        var layout := buttonBarView.layout;
        var cell := layout.itemFrames[item];
        !shouldUpdateButtonBarView &&
        buttonBarView.selectedIndex == item &&
        buttonBarView.selectorFrame == old(buttonBarView.selectorFrame).(x := cell.x, width := cell.width) &&
        buttonBarView.contentOffset == Point(ScrollTarget(layout, buttonBarView.settings.horizontal, cell, item), 0.0) &&
        cells == CellsForItems([currentIndex, item], layout.visibleItems) &&
        reloaded == (if collectionViewDidLoad then IndexPathsToReload([currentIndex, item], layout.visibleItems, |layout.itemFrames|) else []) &&
        notified == SelectionCallback(isProgressiveIndicator, hasChangeCurrentIndex, hasChangeCurrentIndexProgressive)
    {
      cells, reloaded, notified := [], [], NoCallback;
      if item == currentIndex {
        return;
      }
      buttonBarView.MoveTo(item, true, SwipeDirection.None, Enabled);
      shouldUpdateButtonBarView := false;
      cells, reloaded := CellsForItemsAt([currentIndex, item]);
      notified := SelectionCallback(isProgressiveIndicator, hasChangeCurrentIndex, hasChangeCurrentIndexProgressive);
    }

    /** `collectionView(_:cellForItemAt:)`, as far as the controller's state goes: once a
        cell has been dequeued, later `cellsForItems` calls reload missing cells. */
    method CellForItemAt(item: int)
      modifies this`collectionViewDidLoad
      ensures collectionViewDidLoad
    {
      collectionViewDidLoad := true;
    }

    /** `scrollViewDidEndScrollingAnimation(_:)`: when the pages' scroll view stops, the bar
        follows page scrolls again. */
    method ScrollViewDidEndScrollingAnimation(isContainerView: bool)
      modifies this`shouldUpdateButtonBarView
      ensures shouldUpdateButtonBarView == (old(shouldUpdateButtonBarView) || isContainerView)
    {
      if !isContainerView {
        return;
      }
      shouldUpdateButtonBarView := true;
    }
  }
}
