/** The selector-indicator and scroll-offset arithmetic of the tab strip's button bar
    (a horizontal collection view with one cell per page and a selector view under the
    selected cell). `CGFloat` is modelled as `real`; the values UIKit supplies
    (frames, content size, insets, layout attributes) are gathered in `Layout`. */
module ButtonBar {

  /** `CGRect`: origin and size. */
  datatype Rect = Rect(x: real, y: real, width: real, height: real) {
    /** `CGRect.offsetBy(dx:dy:)`. */
    function OffsetBy(dx: real, dy: real): Rect {
      Rect(x + dx, y + dy, width, height)
    }
  }

  /** `CGPoint`, used for the content offset. */
  datatype Point = Point(x: real, y: real)

  /** `PagerScroll`: how a programmatic move may scroll the bar. */
  datatype PagerScroll = Enabled | Disabled | OutOfScreenOnly

  /** `ButtonBarSettings.Style.Alignment.Vertical`. */
  datatype VerticalAlignment = Top | Middle | Bottom

  /** `ButtonBarSettings.Style.Alignment.Horizontal`. */
  datatype HorizontalAlignment = Left | Center | Right | Progressive

  /** The pager's swipe direction (`.left`, `.right`, `.none`); the bar ignores it. */
  datatype SwipeDirection = Left | Right | None

  /** The part of `ButtonBarSettings.Style` that the arithmetic reads. */
  datatype Style = Style(vertical: VerticalAlignment, horizontal: HorizontalAlignment, height: real)

  /** The style defaults: middle, progressive, a selector 4 points high. */
  const DefaultStyle := Style(Middle, Progressive, 4.0)

  /** What UIKit supplies to the bar: its frame, the scroll view's content width and left
      content inset, the flow layout's section insets and minimum line spacing, the
      layout-attribute frame of every item (so the data source's item count is
      `|itemFrames|`), and the items whose cells are currently on screen. */
  datatype Layout = Layout(
    frame: Rect,
    contentWidth: real,
    contentInsetLeft: real,
    sectionInsetLeft: real,
    sectionInsetRight: real,
    minimumLineSpacing: real,
    itemFrames: seq<Rect>,
    visibleItems: set<int>)

  function Abs(n: int): int {
    if n < 0 then -n else n
  }

  function Min(a: real, b: real): real {
    if a <= b then a else b
  }

  function Max(a: real, b: real): real {
    if a >= b then a else b
  }

  /** Multiplying by a positive divisor keeps the order of whole quotients. */
  lemma ScaledBounds(q: int, d: int)
    ensures d > 0 && q >= 2 ==> q * d >= 2 * d
    ensures d > 0 && q >= 1 ==> q * d >= d
    ensures d > 0 && q <= 0 ==> q * d <= 0
    ensures d > 0 && q <= -1 ==> q * d <= -d
  {
    if d <= 0 {
    } else if q >= 2 {
      assert q * d == (q - 2) * d + 2 * d;
    } else if q >= 1 {
      assert q * d == (q - 1) * d + d;
    } else if q <= -1 {
      assert q * d == (q + 1) * d - d;
    }
  }

  /** Swift's `Int` division: the quotient truncated toward zero, so the remainder
      takes the sign of the dividend (Dafny's own `/` is Euclidean). */
  function Quotient(a: int, b: int): (q: int)
    requires b != 0
    ensures a >= 0 ==> 0 <= a - q * b < Abs(b)
    ensures a < 0 ==> -Abs(b) < a - q * b <= 0
  {
    var x, y := Abs(a), Abs(b);
    var m := x / y;
    var q := if (a < 0) == (b < 0) then m else -m;
    SignedProduct(a, b, m, q);
    q
  }

  /** The sign bookkeeping behind `Quotient`: its product with the divisor is the
      magnitude's product, carrying the dividend's sign. */
  lemma SignedProduct(a: int, b: int, m: int, q: int)
    requires b != 0 && m == Abs(a) / Abs(b)
    requires q == if (a < 0) == (b < 0) then m else -m
    ensures a >= 0 ==> 0 <= a - q * b < Abs(b)
    ensures a < 0 ==> -Abs(b) < a - q * b <= 0
  {
    var x, y := Abs(a), Abs(b);
    assert x == m * y + x % y && 0 <= x % y < y;
    if b > 0 {
      assert y == b;
    } else {
      assert y == -b;
      assert q * b == (-q) * y;
    }
  }

  /** The quotient of Swift's integer division, or the trap it raises on a zero divisor. */
  datatype Progress = Ratio(value: int) | DivisionByZero

  /** `index / (numberOfItems - 1)`, the progress of the progressive alignment. */
  function ItemProgress(index: int, numberOfItems: int): (p: Progress)
    ensures p.DivisionByZero? <==> numberOfItems == 1
    ensures numberOfItems >= 2 && 0 <= index < numberOfItems - 1 ==> p == Ratio(0)
    ensures numberOfItems >= 2 && index == numberOfItems - 1 ==> p == Ratio(1)
  {
    var d := numberOfItems - 1;
    if d == 0 then DivisionByZero else
      var q := Quotient(index, d);
      ScaledBounds(q, d);
      Ratio(q)
  }

  /** The progress of the virtual targets `move` builds one place before the first item
      and one place after the last: truncation gives 0 before the first item where a
      Euclidean quotient would give -1, and a two-item bar gives -1 and 2. */
  lemma OutOfRangeProgress(numberOfItems: int)
    requires numberOfItems >= 2
    ensures numberOfItems >= 3 ==> ItemProgress(-1, numberOfItems) == Ratio(0) && -1 / (numberOfItems - 1) == -1
    ensures numberOfItems >= 3 ==> ItemProgress(numberOfItems, numberOfItems) == Ratio(1)
    ensures numberOfItems == 2 ==> ItemProgress(-1, 2) == Ratio(-1) && ItemProgress(2, 2) == Ratio(2)
  {
    var d := numberOfItems - 1;
    ScaledBounds(Quotient(-1, d), d);
    ScaledBounds(Quotient(numberOfItems, d), d);
  }

  /** True when the alignment arithmetic can be evaluated: the progressive alignment
      divides by `numberOfItems - 1`, which traps on a one-item bar. */
  predicate AlignmentDefined(layout: Layout, alignment: HorizontalAlignment) {
    alignment.Progressive? ==> |layout.itemFrames| != 1
  }

  /** Where, relative to the bar's left edge, the alignment wants the left edge of a cell
      of width `cellWidth` and item `index` to appear. */
  function AlignmentOffset(layout: Layout, alignment: HorizontalAlignment, cellWidth: real, index: int): (r: real)
    requires AlignmentDefined(layout, alignment)
    ensures alignment.Left? ==> r == layout.sectionInsetLeft
    ensures alignment.Right? ==> r + cellWidth == layout.frame.width - layout.sectionInsetRight
    ensures alignment.Center? ==> r + cellWidth * 0.5 == layout.frame.width * 0.5
    ensures alignment.Progressive? && 0 <= index < |layout.itemFrames| - 1 ==> r == layout.sectionInsetLeft
    ensures alignment.Progressive? && index == |layout.itemFrames| - 1 >= 1 ==>
      r + cellWidth == layout.frame.width - layout.sectionInsetRight
  {
    match alignment
    case Left => layout.sectionInsetLeft
    case Right => layout.frame.width - layout.sectionInsetRight - cellWidth
    case Center => (layout.frame.width - cellWidth) * 0.5
    case Progressive =>
      var cellHalfWidth := cellWidth * 0.5;
      var leftAlignmentOffset := layout.sectionInsetLeft + cellHalfWidth;
      var rightAlignmentOffset := layout.frame.width - layout.sectionInsetRight - cellHalfWidth;
      var progress := ItemProgress(index, |layout.itemFrames|).value;
      leftAlignmentOffset + (rightAlignmentOffset - leftAlignmentOffset) * progress as real - cellHalfWidth
  }

  /** `contentOffsetForCell(withFrame:andIndex:)`: the horizontal content offset that puts
      the cell where the alignment wants it, clamped first below by 0 and then above by
      the largest offset, `contentWidth - frame.width`. */
  function ContentOffsetForCell(layout: Layout, alignment: HorizontalAlignment, cellFrame: Rect, index: int): (r: real)
    requires AlignmentDefined(layout, alignment)
    ensures r <= layout.contentWidth - layout.frame.width
    ensures layout.contentWidth >= layout.frame.width ==> 0.0 <= r
    ensures var wanted := cellFrame.x - AlignmentOffset(layout, alignment, cellFrame.width, index);
      0.0 <= wanted <= layout.contentWidth - layout.frame.width ==> cellFrame.x - r == AlignmentOffset(layout, alignment, cellFrame.width, index)
    ensures var wanted := cellFrame.x - AlignmentOffset(layout, alignment, cellFrame.width, index);
      wanted < 0.0 && layout.contentWidth >= layout.frame.width ==> r == 0.0
    ensures var wanted := cellFrame.x - AlignmentOffset(layout, alignment, cellFrame.width, index);
      wanted > layout.contentWidth - layout.frame.width ==> r == layout.contentWidth - layout.frame.width
    ensures layout.contentWidth < layout.frame.width ==> r == layout.contentWidth - layout.frame.width
  {
    var contentOffset := cellFrame.x - AlignmentOffset(layout, alignment, cellFrame.width, index);
    var atLeastZero := Max(0.0, contentOffset);
    Min(layout.contentWidth - layout.frame.width, atLeastZero)
  }

  /** True when scrolling to a cell can be computed: the content offset is only computed
      when the content is wider than the bar. */
  predicate ScrollDefined(layout: Layout, alignment: HorizontalAlignment) {
    layout.contentWidth > layout.frame.width ==> AlignmentDefined(layout, alignment)
  }

  /** The content offset a scroll to the cell ends at: the aligned offset when the content
      is wider than the bar, and 0 otherwise. */
  function ScrollTarget(layout: Layout, alignment: HorizontalAlignment, cellFrame: Rect, index: int): (r: real)
    requires ScrollDefined(layout, alignment)
    ensures layout.contentWidth <= layout.frame.width ==> r == 0.0
    ensures 0.0 <= r <= Max(0.0, layout.contentWidth - layout.frame.width)
  {
    if layout.contentWidth > layout.frame.width then ContentOffsetForCell(layout, alignment, cellFrame, index) else 0.0
  }

  /** The guard of `updateContentOffset`, as written: `.enabled` and `.outOfScreenOnly`
      always scroll, and `.disabled` scrolls exactly when the target cell starts left of
      the visible area or at or beyond its right end. */
  function ShouldScroll(pagerScroll: PagerScroll, targetX: real, layout: Layout, offsetX: real): (b: bool)
    ensures pagerScroll.Enabled? ==> b
    ensures pagerScroll.OutOfScreenOnly? ==> b
    ensures pagerScroll.Disabled? ==>
      (b <==> targetX < offsetX || targetX >= offsetX + layout.frame.width - layout.contentInsetLeft)
  {
    pagerScroll != Disabled ||
      (pagerScroll != OutOfScreenOnly &&
        (targetX < offsetX || targetX >= offsetX + layout.frame.width - layout.contentInsetLeft))
  }

  /** The guard does not follow the names of the modes: a target in plain view is
      scrolled to under `.outOfScreenOnly` and ignored only under `.disabled`, and a
      target out of view is scrolled to even under `.disabled`. */
  lemma ScrollGuardTruthTable(layout: Layout, offsetX: real, targetX: real)
    requires layout.frame.width - layout.contentInsetLeft > 0.0
    ensures var onScreen := offsetX;
      ShouldScroll(OutOfScreenOnly, onScreen, layout, offsetX) && !ShouldScroll(Disabled, onScreen, layout, offsetX)
    ensures targetX < offsetX ==> ShouldScroll(Disabled, targetX, layout, offsetX)
  {
  }

  /** The frame `move` heads for: the target item's own frame, or, for a target before
      the first item or after the last, a virtual frame of the same size placed just
      beside that end item. */
  function ToFrame(itemFrames: seq<Rect>, toIndex: int): (r: Rect)
    requires |itemFrames| > 0
    ensures 0 <= toIndex < |itemFrames| ==> r == itemFrames[toIndex]
    ensures toIndex < 0 ==>
      r.x + r.width == itemFrames[0].x && r.width == itemFrames[0].width &&
      r.y == itemFrames[0].y && r.height == itemFrames[0].height
    ensures toIndex >= |itemFrames| ==>
      var last := itemFrames[|itemFrames| - 1];
      r.x == last.x + last.width && r.width == last.width && r.y == last.y && r.height == last.height
  {
    var numberOfItems := |itemFrames|;
    if toIndex < 0 || toIndex > numberOfItems - 1 then
      if toIndex < 0 then
        itemFrames[0].OffsetBy(-itemFrames[0].width, 0.0)
      else
        itemFrames[numberOfItems - 1].OffsetBy(itemFrames[numberOfItems - 1].width, 0.0)
    else
      itemFrames[toIndex]
  }

  /** A fraction between 0 and 1 of a length lies between 0 and that length. */
  lemma FractionBounds(d: real, t: real)
    ensures 0.0 <= t <= 1.0 && d >= 0.0 ==> 0.0 <= d * t <= d
    ensures 0.0 <= t <= 1.0 && d < 0.0 ==> d <= d * t <= 0.0
  {
    assert d * t + d * (1.0 - t) == d;
  }

  /** Linear interpolation from `a` to `b` by `t`, as `move` does for the selector's x and
      width and for the content offset. */
  function Interpolate(a: real, b: real, t: real): real {
    a + (b - a) * t
  }

  /** Interpolation starts at `a`, ends at `b`, and stays between them in between. */
  lemma InterpolateBounds(a: real, b: real, t: real)
    ensures Interpolate(a, b, 0.0) == a && Interpolate(a, b, 1.0) == b
    ensures Interpolate(a, a, t) == a
    ensures 0.0 <= t <= 1.0 ==> Min(a, b) <= Interpolate(a, b, t) <= Max(a, b)
  {
    var d := b - a;
    FractionBounds(d, t);
    assert Interpolate(a, b, t) == a + d * t;
  }

  /** The selector's y for a bar of height `barHeight` and a selector of height
      `selectorHeight`. */
  function SelectorY(vertical: VerticalAlignment, barHeight: real, selectorHeight: real): (y: real)
    ensures vertical.Top? ==> y == 0.0
    ensures vertical.Middle? ==> y == barHeight - (y + selectorHeight)
    ensures vertical.Bottom? ==> y + selectorHeight == barHeight
    ensures 0.0 <= selectorHeight <= barHeight ==> 0.0 <= y && y + selectorHeight <= barHeight
  {
    match vertical
    case Top => 0.0
    case Middle => (barHeight - selectorHeight) / 2.0
    case Bottom => barHeight - selectorHeight
  }

  /** The button bar view: the selected index, the selector view's frame and the content
      offset change; `layout` is what UIKit reports and `settings` the bar's style. */
  class ButtonBarView {
    var layout: Layout
    var settings: Style
    var selectedIndex: int
    var selectorFrame: Rect
    var contentOffset: Point

    /** The bar as initialised: default settings, and the selector view created (when the
        bar inserts it) from those defaults: zero width, at x 0, the default height,
        resting on the bar's bottom edge. */
    constructor (layout: Layout)
      ensures this.layout == layout && settings == DefaultStyle
      ensures selectedIndex == 0 && contentOffset == Point(0.0, 0.0)
      ensures selectorFrame.x == 0.0 && selectorFrame.width == 0.0 && selectorFrame.height == DefaultStyle.height
      ensures selectorFrame.y + selectorFrame.height == layout.frame.height
    {
      this.layout := layout;
      settings := DefaultStyle;
      selectedIndex := 0;
      selectorFrame := Rect(0.0, layout.frame.height - DefaultStyle.height, 0.0, DefaultStyle.height);
      contentOffset := Point(0.0, 0.0);
    }

    /** `buttonBarView.settings.style = ...`: the owner installs its style; the selector
        keeps its frame until the next layout pass. */
    method SetStyle(style: Style)
      modifies this`settings
      ensures settings == style
    {
      settings := style;
    }

    /** `moveTo(index:animated:swipeDirection:pagerScroll:)`: select `index`, move the
        selector onto its cell and scroll as `pagerScroll` allows. */
    method MoveTo(index: int, animated: bool, swipeDirection: SwipeDirection, pagerScroll: PagerScroll)
      requires 0 <= index < |layout.itemFrames|
      requires ShouldScroll(pagerScroll, layout.itemFrames[index].x, layout, contentOffset.x) ==>
        ScrollDefined(layout, settings.horizontal)
      modifies this`selectedIndex, this`selectorFrame, this`contentOffset
      ensures selectedIndex == index
      ensures var cell := layout.itemFrames[index];
        selectorFrame == old(selectorFrame).(x := cell.x, width := cell.width)
      ensures var cell := layout.itemFrames[index];
        contentOffset ==
          if ShouldScroll(pagerScroll, cell.x, layout, old(contentOffset.x))
          then Point(ScrollTarget(layout, settings.horizontal, cell, index), 0.0)
          else old(contentOffset)
    {
      selectedIndex := index;
      UpdateSelectorViewPosition(animated, swipeDirection, pagerScroll);
    }

    /** `move(fromIndex:toIndex:progressPercentage:pagerScroll:)`: the selector and the
        content offset part-way through a swipe. The selection flips to `toIndex` past the
        half-way mark; `pagerScroll` is ignored. */
    method Move(fromIndex: int, toIndex: int, progressPercentage: real, pagerScroll: PagerScroll)
      requires 0 <= fromIndex < |layout.itemFrames|
      requires ScrollDefined(layout, settings.horizontal)
      modifies this`selectedIndex, this`selectorFrame, this`contentOffset
      ensures selectedIndex == if progressPercentage > 0.5 then toIndex else fromIndex
      ensures var fromFrame := layout.itemFrames[fromIndex];
        var toFrame := ToFrame(layout.itemFrames, toIndex);
        selectorFrame == Rect(
          Interpolate(fromFrame.x, toFrame.x, progressPercentage), old(selectorFrame.y),
          Interpolate(fromFrame.width, toFrame.width, progressPercentage), old(selectorFrame.height))
      ensures var fromFrame := layout.itemFrames[fromIndex];
        var toFrame := ToFrame(layout.itemFrames, toIndex);
        contentOffset == Point(
          Interpolate(
            ScrollTarget(layout, settings.horizontal, fromFrame, fromIndex),
            ScrollTarget(layout, settings.horizontal, toFrame, toIndex),
            progressPercentage),
          0.0)
      ensures layout.contentWidth <= layout.frame.width ==> contentOffset.x == 0.0
      ensures 0.0 <= progressPercentage <= 1.0 ==>
        0.0 <= contentOffset.x <= Max(0.0, layout.contentWidth - layout.frame.width)
    {
      selectedIndex := if progressPercentage > 0.5 then toIndex else fromIndex;

      var fromFrame := layout.itemFrames[fromIndex];
      var numberOfItems := |layout.itemFrames|;
      var toFrame: Rect;
      if toIndex < 0 || toIndex > numberOfItems - 1 {
        if toIndex < 0 {
          var cellFrame := layout.itemFrames[0];
          toFrame := cellFrame.OffsetBy(-cellFrame.width, 0.0);
        } else {
          var cellFrame := layout.itemFrames[numberOfItems - 1];
          toFrame := cellFrame.OffsetBy(cellFrame.width, 0.0);
        }
      } else {
        toFrame := layout.itemFrames[toIndex];
      }

      var targetFrame := fromFrame;
      targetFrame := targetFrame.(height := selectorFrame.height);
      // width += (toFrame.width - fromFrame.width) * progressPercentage, and likewise x
      targetFrame := targetFrame.(width := Interpolate(fromFrame.width, toFrame.width, progressPercentage));
      targetFrame := targetFrame.(x := Interpolate(fromFrame.x, toFrame.x, progressPercentage));

      selectorFrame := Rect(targetFrame.x, selectorFrame.y, targetFrame.width, selectorFrame.height);

      var targetContentOffset := 0.0;
      if layout.contentWidth > layout.frame.width {
        var toContentOffset := ContentOffsetForCell(layout, settings.horizontal, toFrame, toIndex);
        var fromContentOffset := ContentOffsetForCell(layout, settings.horizontal, fromFrame, fromIndex);
        targetContentOffset := Interpolate(fromContentOffset, toContentOffset, progressPercentage);
        InterpolateBounds(fromContentOffset, toContentOffset, progressPercentage);
      } else {
        InterpolateBounds(0.0, 0.0, progressPercentage);
      }
      contentOffset := Point(targetContentOffset, 0.0);
    }

    /** `updateselectorViewPosition(_:swipeDirection:pagerScroll:)`: scroll toward the
        selected cell, then give the selector that cell's x and width (its final frame;
        the animation is not modelled). */
    method UpdateSelectorViewPosition(animated: bool, swipeDirection: SwipeDirection, pagerScroll: PagerScroll)
      requires 0 <= selectedIndex < |layout.itemFrames|
      requires ShouldScroll(pagerScroll, layout.itemFrames[selectedIndex].x, layout, contentOffset.x) ==>
        ScrollDefined(layout, settings.horizontal)
      modifies this`selectorFrame, this`contentOffset
      ensures var cell := layout.itemFrames[selectedIndex];
        selectorFrame == old(selectorFrame).(x := cell.x, width := cell.width)
      ensures var cell := layout.itemFrames[selectedIndex];
        contentOffset ==
          if ShouldScroll(pagerScroll, cell.x, layout, old(contentOffset.x))
          then Point(ScrollTarget(layout, settings.horizontal, cell, selectedIndex), 0.0)
          else old(contentOffset)
    {
      var selectorViewFrame := selectorFrame;
      var selectedCellFrame := layout.itemFrames[selectedIndex];
      UpdateContentOffset(animated, pagerScroll, selectedCellFrame, selectedIndex);
      selectorViewFrame := selectorViewFrame.(width := selectedCellFrame.width);
      selectorViewFrame := selectorViewFrame.(x := selectedCellFrame.x);
      selectorFrame := selectorViewFrame;
    }

    /** `updateContentOffset(animated:pagerScroll:toFrame:toIndex:)`: unless the guard
        refuses, scroll to the offset that aligns the target cell (0 when everything fits). */
    method UpdateContentOffset(animated: bool, pagerScroll: PagerScroll, toFrame: Rect, toIndex: int)
      requires ShouldScroll(pagerScroll, toFrame.x, layout, contentOffset.x) ==> ScrollDefined(layout, settings.horizontal)
      modifies this`contentOffset
      ensures contentOffset ==
        if ShouldScroll(pagerScroll, toFrame.x, layout, old(contentOffset.x))
        then Point(ScrollTarget(layout, settings.horizontal, toFrame, toIndex), 0.0)
        else old(contentOffset)
    {
      if !ShouldScroll(pagerScroll, toFrame.x, layout, contentOffset.x) {
        return;
      }
      var targetContentOffset :=
        if layout.contentWidth > layout.frame.width
        then ContentOffsetForCell(layout, settings.horizontal, toFrame, toIndex)
        else 0.0;
      contentOffset := Point(targetContentOffset, 0.0);
    }

    /** `updateselectorViewYPosition()`: place the selector vertically as the style says,
        with the style's height; its x and width stay. */
    method UpdateSelectorViewYPosition()
      modifies this`selectorFrame
      ensures selectorFrame == old(selectorFrame).(
        y := SelectorY(settings.vertical, layout.frame.height, settings.height),
        height := settings.height)
    {
      var selectorViewFrame := selectorFrame;
      match settings.vertical {
        case Top =>
          selectorViewFrame := selectorViewFrame.(y := 0.0);
        case Middle =>
          selectorViewFrame := selectorViewFrame.(y := (layout.frame.height - settings.height) / 2.0);
        case Bottom =>
          selectorViewFrame := selectorViewFrame.(y := layout.frame.height - settings.height);
      }
      selectorViewFrame := selectorViewFrame.(height := settings.height);
      selectorFrame := selectorViewFrame;
    }

    /** `layoutSubviews()`: every layout pass re-places the selector vertically. */
    method LayoutSubviews()
      modifies this`selectorFrame
      ensures selectorFrame.x == old(selectorFrame.x) && selectorFrame.width == old(selectorFrame.width)
      ensures selectorFrame.height == settings.height
      ensures selectorFrame.y == SelectorY(settings.vertical, layout.frame.height, settings.height)
    {
      UpdateSelectorViewYPosition();
    }
  }
}
