/** The cell widths of the button bar. Each tab has a minimum width. When the tabs
    should fill the bar and their minimum widths leave room, the narrow tabs are
    stretched to one common width, found by a fixed-point iteration, so that the row
    exactly fills the width available to it. `CGFloat` is modelled as `real`. */
module CellWidths {

  /** A `CGFloat` result: a real, or the infinity or NaN that dividing by zero yields. */
  datatype CellWidth = Finite(value: real) | NonFinite

  /** The sum of the widths. */
  function Sum(s: seq<real>): real {
    if s == [] then 0.0 else Sum(s[..|s| - 1]) + s[|s| - 1]
  }

  /** The number of widths strictly greater than `t`: the "large" cells. */
  function CountLarge(s: seq<real>, t: real): (k: int)
    ensures 0 <= k <= |s|
  {
    if s == [] then 0 else CountLarge(s[..|s| - 1], t) + (if s[|s| - 1] > t then 1 else 0)
  }

  /** The total width of the cells strictly wider than `t`. */
  function SumLarge(s: seq<real>, t: real): real {
    if s == [] then 0.0 else SumLarge(s[..|s| - 1], t) + (if s[|s| - 1] > t then s[|s| - 1] else 0.0)
  }

  /** The width of the row at its minimum widths: the widths plus `n - 1` gaps of
      `spacing` (for no cells, minus one gap, as the source computes it). */
  function ContentWidth(minimumCellWidths: seq<real>, spacing: real): real {
    Sum(minimumCellWidths) + (|minimumCellWidths| - 1) as real * spacing
  }

  /** The width every cell gets when all are stretched alike. */
  function EqualShare(minimumCellWidths: seq<real>, availableWidth: real, spacing: real): real
    requires |minimumCellWidths| > 0
  {
    (availableWidth - (|minimumCellWidths| - 1) as real * spacing) / |minimumCellWidths| as real
  }

  /** `calculateStretchedCellWidths(_:suggestedStretchedCellWidth:previousNumberOfLargeCells:)`:
      while the suggestion makes more cells "large" than the last round did, share what
      the large cells and the gaps leave among the small cells and try again. A round
      that would share among no small cells divides by zero, and the non-finite
      quotient is then returned unchanged by the next round. */
  function StretchedCellWidth(minimumCellWidths: seq<real>, suggested: real, previousNumberOfLargeCells: int,
                              availableWidth: real, spacing: real): CellWidth
    decreases |minimumCellWidths| - previousNumberOfLargeCells
  {
    var numberOfLargeCells := CountLarge(minimumCellWidths, suggested);
    if numberOfLargeCells <= previousNumberOfLargeCells then
      Finite(suggested)
    else
      var numberOfCells := |minimumCellWidths|;
      var numberOfSmallCells := numberOfCells - numberOfLargeCells;
      if numberOfSmallCells == 0 then
        NonFinite
      else
        var cellSpacingTotal := (numberOfCells - 1) as real * spacing;
        var next := (availableWidth - SumLarge(minimumCellWidths, suggested) - cellSpacingTotal) / numberOfSmallCells as real;
        StretchedCellWidth(minimumCellWidths, next, numberOfLargeCells, availableWidth, spacing)
  }

  /** A round in which more cells than before are large, and some are still small,
      hands on to the next suggestion. */
  lemma StretchStep(minimumCellWidths: seq<real>, suggested: real, previousNumberOfLargeCells: int,
                    availableWidth: real, spacing: real,
                    numberOfLargeCells: int, totalWidthOfLargeCells: real, cellSpacingTotal: real,
                    numberOfSmallCells: int, next: real)
    requires numberOfLargeCells == CountLarge(minimumCellWidths, suggested)
    requires totalWidthOfLargeCells == SumLarge(minimumCellWidths, suggested)
    requires cellSpacingTotal == (|minimumCellWidths| - 1) as real * spacing
    requires numberOfSmallCells == |minimumCellWidths| - numberOfLargeCells
    requires previousNumberOfLargeCells < numberOfLargeCells && numberOfSmallCells != 0
    requires next == (availableWidth - totalWidthOfLargeCells - cellSpacingTotal) / numberOfSmallCells as real
    ensures StretchedCellWidth(minimumCellWidths, suggested, previousNumberOfLargeCells, availableWidth, spacing)
      == StretchedCellWidth(minimumCellWidths, next, numberOfLargeCells, availableWidth, spacing)
  {
  }

  /** A round in which no new cell becomes large returns the suggestion itself. */
  lemma StretchKeepsSuggestion(minimumCellWidths: seq<real>, suggested: real, previousNumberOfLargeCells: int,
                               availableWidth: real, spacing: real)
    requires CountLarge(minimumCellWidths, suggested) <= previousNumberOfLargeCells
    ensures StretchedCellWidth(minimumCellWidths, suggested, previousNumberOfLargeCells, availableWidth, spacing)
      == Finite(suggested)
  {
  }

  /** Each cell at its minimum width or at the common width, whichever is larger. */
  function Stretch(minimumCellWidths: seq<real>, general: real): (r: seq<real>)
    ensures |r| == |minimumCellWidths|
    ensures forall i :: 0 <= i < |r| ==>
      r[i] >= minimumCellWidths[i] && r[i] >= general && (r[i] == minimumCellWidths[i] || r[i] == general)
  {
    if minimumCellWidths == [] then []
    else
      var last := minimumCellWidths[|minimumCellWidths| - 1];
      Stretch(minimumCellWidths[..|minimumCellWidths| - 1], general) + [if last > general then last else general]
  }

  /** Stretching one more cell appends that cell's stretched width. */
  lemma StretchSnoc(minimumCellWidths: seq<real>, i: nat, general: real)
    requires i < |minimumCellWidths|
    ensures Stretch(minimumCellWidths[..i + 1], general) == Stretch(minimumCellWidths[..i], general) +
      [if minimumCellWidths[i] > general then minimumCellWidths[i] else general]
  {
    assert minimumCellWidths[..i + 1][..i] == minimumCellWidths[..i];
  }

  /** `k` shares of `g`, written as repeated addition so that the proofs below stay in
      linear arithmetic; `SharesProduct` says it is `k * g`. */
  function Shares(k: nat, g: real): real {
    if k == 0 then 0.0 else Shares(k - 1, g) + g
  }

  lemma {:induction false} SharesProduct(k: nat, g: real)
    ensures Shares(k, g) == k as real * g
  {
    if k > 0 {
      SharesProduct(k - 1, g);
      assert k as real * g == (k - 1) as real * g + g;
    }
  }

  lemma {:induction false} SharesAdd(j: nat, k: nat, g: real)
    ensures Shares(j + k, g) == Shares(j, g) + Shares(k, g)
  {
    if k > 0 {
      SharesAdd(j, k - 1, g);
    }
  }

  /** How the last cell adds to the large cells and to the stretched row. */
  lemma LastCell(minimumCellWidths: seq<real>, general: real)
    requires |minimumCellWidths| > 0
    ensures var init, last := minimumCellWidths[..|minimumCellWidths| - 1], minimumCellWidths[|minimumCellWidths| - 1];
      CountLarge(minimumCellWidths, general) == CountLarge(init, general) + (if last > general then 1 else 0) &&
      SumLarge(minimumCellWidths, general) == SumLarge(init, general) + (if last > general then last else 0.0) &&
      Sum(Stretch(minimumCellWidths, general)) == Sum(Stretch(init, general)) + (if last > general then last else general)
  {
    var ws, n := minimumCellWidths, |minimumCellWidths|;
    var r := Stretch(ws, general);
    assert r == Stretch(ws[..n - 1], general) + [r[n - 1]];
    assert r[..n - 1] == Stretch(ws[..n - 1], general);
  }

  /** The stretched row is as wide as its large cells plus the common width once for
      every other cell. */
  lemma {:induction false} StretchSum(minimumCellWidths: seq<real>, general: real)
    ensures Sum(Stretch(minimumCellWidths, general))
      == SumLarge(minimumCellWidths, general) + Shares(|minimumCellWidths| - CountLarge(minimumCellWidths, general), general)
  {
    var ws, g := minimumCellWidths, general;
    if ws != [] {
      var init := ws[..|ws| - 1];
      StretchSum(init, g);
      LastCell(ws, g);
    }
  }

  /** Lowering the threshold from `t` to `g` only adds large cells, each wider than `g`. */
  lemma {:induction false} LowerThreshold(s: seq<real>, g: real, t: real)
    requires g <= t
    ensures CountLarge(s, g) >= CountLarge(s, t)
    ensures SumLarge(s, g) - SumLarge(s, t) >= Shares(CountLarge(s, g) - CountLarge(s, t), g)
    ensures CountLarge(s, g) > CountLarge(s, t) ==>
      SumLarge(s, g) - SumLarge(s, t) > Shares(CountLarge(s, g) - CountLarge(s, t), g)
    ensures CountLarge(s, g) == CountLarge(s, t) ==> SumLarge(s, g) == SumLarge(s, t)
  {
    if s != [] {
      LowerThreshold(s[..|s| - 1], g, t);
    }
  }

  /** When every cell is large, the large cells are the whole row. */
  lemma {:induction false} AllLarge(s: seq<real>, t: real)
    requires CountLarge(s, t) == |s|
    ensures SumLarge(s, t) == Sum(s)
  {
    if s != [] {
      AllLarge(s[..|s| - 1], t);
    }
  }

  /** A threshold at or above every cell makes no cell large. */
  lemma {:induction false} NoneLarge(s: seq<real>, t: real)
    requires forall i :: 0 <= i < |s| ==> s[i] <= t
    ensures CountLarge(s, t) == 0 && SumLarge(s, t) == 0.0
  {
    if s != [] {
      NoneLarge(s[..|s| - 1], t);
    }
  }

  /** The larger of `floor` and every width. */
  function Ceiling(s: seq<real>, floor: real): (c: real)
    ensures c >= floor
    ensures forall i :: 0 <= i < |s| ==> s[i] <= c
  {
    if s == [] then floor
    else
      var c := Ceiling(s[..|s| - 1], floor);
      if s[|s| - 1] > c then s[|s| - 1] else c
  }

  /** Sharing a total among `k` cells: each gets `total / k`, which is below `g` when the
      total is below `k` shares of `g`. */
  lemma ShareOut(total: real, k: nat, g: real)
    requires k > 0
    ensures Shares(k, total / k as real) == total
    ensures total < Shares(k, g) ==> total / k as real < g
  {
    var share := total / k as real;
    SharesProduct(k, share);
    SharesProduct(k, g);
    assert share * k as real == total;
    if share >= g {
      assert share * k as real >= g * k as real;
    }
  }

  /** One round from the invariant's state: when the suggestion `g` makes more cells large
      than `t` did, some cell is still small, and sharing what is left among the small
      cells gives a smaller suggestion that restores the invariant. */
  lemma StretchRound(minimumCellWidths: seq<real>, g: real, p: nat, t: real,
                     availableWidth: real, spacing: real)
    requires ContentWidth(minimumCellWidths, spacing) <= availableWidth
    requires g <= t
    requires p == CountLarge(minimumCellWidths, t) && p < CountLarge(minimumCellWidths, g)
    requires availableWidth - (|minimumCellWidths| - 1) as real * spacing
      == SumLarge(minimumCellWidths, t) + Shares(|minimumCellWidths| - p, g)
    ensures CountLarge(minimumCellWidths, g) < |minimumCellWidths|
    ensures var large := CountLarge(minimumCellWidths, g);
      var remaining := availableWidth - SumLarge(minimumCellWidths, g) - (|minimumCellWidths| - 1) as real * spacing;
      var next := remaining / (|minimumCellWidths| - large) as real;
      next <= g &&
      availableWidth - (|minimumCellWidths| - 1) as real * spacing
        == SumLarge(minimumCellWidths, g) + Shares(|minimumCellWidths| - large, next)
  {
    var ws := minimumCellWidths;
    var large := CountLarge(ws, g);
    LowerThreshold(ws, g, t);
    // the cells that became large are wider than g, so what remains for the small
    // cells is less than g for each of them
    var remaining := availableWidth - SumLarge(ws, g) - (|ws| - 1) as real * spacing;
    SharesAdd(|ws| - large, large - p, g);
    assert remaining < Shares(|ws| - large, g);
    if large == |ws| {
      AllLarge(ws, g);
      assert false;
    }
    ShareOut(remaining, |ws| - large, g);
  }

  /** The invariant of the stretching rounds. `t` is the previous round's suggestion and
      `p` the number of cells larger than it; the width left for cells equals the width
      of those `p` cells plus `g` for each of the other cells, and `g <= t`. From such a
      state the rounds never divide by zero, and the common width they reach makes the
      stretched row fill the available width exactly. */
  lemma {:induction false} StretchFillsFrom(minimumCellWidths: seq<real>, g: real, p: nat, t: real,
                                             availableWidth: real, spacing: real)
    requires ContentWidth(minimumCellWidths, spacing) <= availableWidth
    requires g <= t
    requires p == CountLarge(minimumCellWidths, t) && p < |minimumCellWidths|
    requires availableWidth - (|minimumCellWidths| - 1) as real * spacing
      == SumLarge(minimumCellWidths, t) + Shares(|minimumCellWidths| - p, g)
    ensures StretchedCellWidth(minimumCellWidths, g, p, availableWidth, spacing).Finite?
    ensures Sum(Stretch(minimumCellWidths, StretchedCellWidth(minimumCellWidths, g, p, availableWidth, spacing).value))
      + (|minimumCellWidths| - 1) as real * spacing == availableWidth
    decreases |minimumCellWidths| - p
  {
    var ws := minimumCellWidths;
    var large := CountLarge(ws, g);
    if large <= p {
      LowerThreshold(ws, g, t);
      StretchSum(ws, g);
    } else {
      StretchRound(ws, g, p, t, availableWidth, spacing);
      var totalWidthOfLargeCells := SumLarge(ws, g);
      var cellSpacingTotal := (|ws| - 1) as real * spacing;
      var numberOfSmallCells := |ws| - large;
      var next := (availableWidth - totalWidthOfLargeCells - cellSpacingTotal) / numberOfSmallCells as real;
      StretchStep(ws, g, p, availableWidth, spacing, large, totalWidthOfLargeCells, cellSpacingTotal,
                  numberOfSmallCells, next);
      StretchFillsFrom(ws, next, large, g, availableWidth, spacing);
    }
  }

  /** In the fill branch (some cells, and their content width fits) the rounds started
      at the equal share never divide by zero, and the stretched row plus its gaps is
      exactly the available width. */
  lemma FillReachesAvailableWidth(minimumCellWidths: seq<real>, availableWidth: real, spacing: real)
    requires |minimumCellWidths| > 0
    requires ContentWidth(minimumCellWidths, spacing) <= availableWidth
    ensures StretchedCellWidth(minimumCellWidths, EqualShare(minimumCellWidths, availableWidth, spacing), 0,
                               availableWidth, spacing).Finite?
    ensures var general := StretchedCellWidth(minimumCellWidths, EqualShare(minimumCellWidths, availableWidth, spacing), 0,
                                               availableWidth, spacing).value;
      Sum(Stretch(minimumCellWidths, general)) + (|minimumCellWidths| - 1) as real * spacing == availableWidth
  {
    var ws := minimumCellWidths;
    var n := |ws|;
    var cellSpace := availableWidth - (n - 1) as real * spacing;
    var share := EqualShare(ws, availableWidth, spacing);
    var t := Ceiling(ws, share);
    NoneLarge(ws, t);
    assert share == cellSpace / n as real;
    ShareOut(cellSpace, n, share);
    StretchFillsFrom(ws, share, 0, t, availableWidth, spacing);
  }

  /** `calculateWidths()` once the minimum widths are known: the minimum widths when the
      tabs need not fill the bar or do not fit in it, and otherwise the stretched widths.
      No cell is ever narrower than its minimum, and stretched cells fill the available
      width exactly. */
  function CalculatedWidths(minimumCellWidths: seq<real>, itemsShouldFillAvailableWidth: bool,
                            availableWidth: real, spacing: real): (r: seq<real>)
    ensures |r| == |minimumCellWidths|
    ensures forall i :: 0 <= i < |r| ==> r[i] >= minimumCellWidths[i]
    ensures !itemsShouldFillAvailableWidth || availableWidth < ContentWidth(minimumCellWidths, spacing) ==>
      r == minimumCellWidths
    ensures itemsShouldFillAvailableWidth && ContentWidth(minimumCellWidths, spacing) <= availableWidth && r != [] ==>
      Sum(r) + (|minimumCellWidths| - 1) as real * spacing == availableWidth
  {
    if !itemsShouldFillAvailableWidth || availableWidth < ContentWidth(minimumCellWidths, spacing) then
      minimumCellWidths
    else if minimumCellWidths == [] then
      []
    else
      FillReachesAvailableWidth(minimumCellWidths, availableWidth, spacing);
      var share := EqualShare(minimumCellWidths, availableWidth, spacing);
      Stretch(minimumCellWidths, StretchedCellWidth(minimumCellWidths, share, 0, availableWidth, spacing).value)
  }

  /** The stretched branch of `CalculatedWidths`, for the method that computes it. */
  lemma CalculatedWidthsStretched(minimumCellWidths: seq<real>, availableWidth: real, spacing: real)
    requires |minimumCellWidths| > 0
    requires ContentWidth(minimumCellWidths, spacing) <= availableWidth
    ensures StretchedCellWidth(minimumCellWidths, EqualShare(minimumCellWidths, availableWidth, spacing), 0,
                               availableWidth, spacing).Finite?
    ensures CalculatedWidths(minimumCellWidths, true, availableWidth, spacing)
      == Stretch(minimumCellWidths, StretchedCellWidth(minimumCellWidths, EqualShare(minimumCellWidths, availableWidth, spacing), 0,
                                                       availableWidth, spacing).value)
  {
    FillReachesAvailableWidth(minimumCellWidths, availableWidth, spacing);
  }
}
