/**
 * How the complex building's facades and faces measure up against the
 * edge they cover: every column stands as tall as the building, a facade
 * is as wide as its edge up to the rounding of the per-slot offsets, and
 * the shadow wall above it is 0.65 narrower and lower than the face.
 */
module ComplexFaces {
  import opened Wrappers
  import opened LayoutTree
  import opened Facade
  import opened BuildingConfig
  import opened ComplexElements
  import opened ComplexColumn
  import opened ComplexFacade
  import opened ComplexMeasures

  /**
   * The buildings whose columns all stand as tall as the building: offices
   * and commercial buildings, above and below, whose entrance floor fits in
   * the building; or a planned apartment lower part that reaches the top of
   * the building and is at least two of its floors tall.
   */
  predicate FillsBuilding(s: Settings, f: FloorPlan)
  {
    || (OfficeOrCommercial(s.lowerType) && OfficeOrCommercial(s.higherType) && ColumnEntranceHeight(s, f) <= s.buildingHeight)
    || (s.lowerType == Apartment && PlannedFloors(s, f)
        && s.buildingHeight <= s.boundaryHeight && 2 * f.lowerFloorHeight <= s.buildingHeight)
  }

  /** A normal apartment column over at least one slot stands as tall as
      the building. */
  lemma ApartmentColumnHeight(s: Settings, f: FloorPlan, sizes: seq<PanelSize>, remainderWidth: real, from: int, to: int)
    requires Ready(s, f) && s.lowerType == Apartment && 0 <= from < to <= |sizes|
    requires s.buildingHeight <= s.boundaryHeight && 2 * f.lowerFloorHeight <= s.buildingHeight
    ensures NormalColumn(s, f, sizes, remainderWidth, from, to, false).Success?
    ensures Height(NormalColumn(s, f, sizes, remainderWidth, from, to, false).value.layout) == s.buildingHeight
  {
    ApartmentColumnFills(s, f);
    var p := NormalColumnPlan(s, f, false).value;
    ColumnLayoutHeight(sizes, from, to, ColumnOffset(remainderWidth, from, to), p.ground, p.upper.bands);
  }

  /** A normal column of either kind of building that fills it, over at
      least one slot, stands as tall as the building. */
  lemma FillingColumnHeight(s: Settings, f: FloorPlan, sizes: seq<PanelSize>, remainderWidth: real, from: int, to: int)
    requires Ready(s, f) && FillsBuilding(s, f) && 0 <= from < to <= |sizes|
    ensures NormalColumn(s, f, sizes, remainderWidth, from, to, false).Success?
    ensures Height(NormalColumn(s, f, sizes, remainderWidth, from, to, false).value.layout) == s.buildingHeight
  {
    if OfficeOrCommercial(s.lowerType) {
      NormalColumnHeight(s, f, sizes, remainderWidth, from, to, false);
    } else {
      ApartmentColumnHeight(s, f, sizes, remainderWidth, from, to);
    }
  }

  /** Sharing a remainder out over n slots and adding the shares back up
      gives the remainder. */
  lemma ShareBack(n: nat, remainder: real)
    requires 0 < n
    ensures n as real * (remainder / n as real) == remainder
  {
    var d := n as real;
    assert 0.0 < d;
    assert d * (remainder / d) == remainder;
  }

  /** A whole column's rounded offset, over its n slots, adds up to the
      remainder it shares out, within half a thousandth a slot. */
  lemma ColumnShares(n: nat, remainder: real)
    requires 0 < n
    ensures -(n as real) * 0.5 <= n as real * ColumnOffset(remainder, 0, n) - remainder <= n as real * 0.5
  {
    assert ColumnOffset(remainder, 0, n) == RoundToThousandths(remainder / n as real) as real;
    RoundedShares(n, remainder / n as real);
    ShareBack(n, remainder);
  }

  /** n slots, each widened by r, exceed the slots by n times r. */
  lemma WidenedSlots(n: real, unit: real, r: real, width: real, slotsWidth: real)
    requires unit == 2500.0 && width == n * (unit + r) && slotsWidth == n * 2500.0
    ensures width - slotsWidth == n * r
  {
    assert n * (unit + r) == n * 2500.0 + n * r;
  }

  /** Widening the slots by what n shares add up to, within half a
      thousandth a slot of the remainder, gives the slots and the remainder
      within as much. */
  lemma WideningWithin(n: real, shares: real, remainder: real, width: real, slotsWidth: real)
    requires -n * 0.5 <= shares - remainder <= n * 0.5 && width - slotsWidth == shares
    ensures -n * 0.5 <= width - (slotsWidth + remainder) <= n * 0.5
  {
  }

  /** Slots widened by an offset whose n copies add up to the remainder
      within half a thousandth a slot are as wide as the slots and the
      remainder within as much. */
  lemma SpreadWithin(sizes: seq<PanelSize>, remainder: real, offset: real, width: real)
    requires -(|sizes| as real) * 0.5 <= |sizes| as real * offset - remainder <= |sizes| as real * 0.5
    requires width == |sizes| as real * (SizeValue(Narrow) as real + offset)
    ensures -(|sizes| as real) * 0.5 <= width - (SlotsWidth(sizes) as real + remainder) <= |sizes| as real * 0.5
  {
    assert SizeValue(Narrow) as real == 2500.0;
    SlotsReal(|sizes|, SlotsWidth(sizes));
    WidenedSlots(|sizes| as real, SizeValue(Narrow) as real, offset, width, SlotsWidth(sizes) as real);
    WideningWithin(|sizes| as real, |sizes| as real * offset, remainder, width, SlotsWidth(sizes) as real);
  }

  /** Slots widened by the rounded share of the remainder are as wide as
      the slots and the remainder, up to half a thousandth a slot. */
  lemma SharedSpread(sizes: seq<PanelSize>, remainder: real, share: real, width: real)
    requires 0 < |sizes| && share == ColumnOffset(remainder, 0, |sizes|)
    requires width == |sizes| as real * (SizeValue(Narrow) as real + share)
    ensures -(|sizes| as real) * 0.5 <= width - (SlotsWidth(sizes) as real + remainder) <= |sizes| as real * 0.5
  {
    ColumnShares(|sizes|, remainder);
    SpreadWithin(sizes, remainder, share, width);
  }

  /** A normal facade is as wide as its slots, each widened by the rounded
      share of the remainder. */
  lemma NormalFacadeWidth(s: Settings, f: FloorPlan, sizes: seq<PanelSize>, remainderWidth: int, share: real)
    requires Ready(s, f) && NormalFacade(s, f, sizes, remainderWidth, false).Success?
    requires share == ColumnOffset(remainderWidth as real, 0, |sizes|)
    ensures Width(NormalFacade(s, f, sizes, remainderWidth, false).value.layout)
            == |sizes| as real * (SizeValue(Narrow) as real + share)
  {
    NormalColumnWidth(s, f, sizes, remainderWidth as real, 0, |sizes|, false, share);
  }

  /** A planned normal facade is as wide as its slots and the remainder,
      up to half a thousandth a slot. */
  lemma NormalFacadeSpread(s: Settings, f: FloorPlan, sizes: seq<PanelSize>, remainderWidth: int, share: real)
    requires Ready(s, f) && 0 < |sizes| && NormalFacade(s, f, sizes, remainderWidth, false).Success?
    requires share == ColumnOffset(remainderWidth as real, 0, |sizes|)
    ensures var w := Width(NormalFacade(s, f, sizes, remainderWidth, false).value.layout);
      -(|sizes| as real) * 0.5 <= w - (SlotsWidth(sizes) as real + remainderWidth as real) <= |sizes| as real * 0.5
  {
    NormalFacadeWidth(s, f, sizes, remainderWidth, share);
    SharedSpread(sizes, remainderWidth as real, share, Width(NormalFacade(s, f, sizes, remainderWidth, false).value.layout));
  }

  /**
   * A normal facade of a building its columns fill, over at least one slot,
   * stands as tall as the building and is as wide as its slots and the
   * remainder, up to half a thousandth a slot.
   */
  lemma NormalFacadeMeasures(s: Settings, f: FloorPlan, sizes: seq<PanelSize>, remainderWidth: int)
    requires Ready(s, f) && FillsBuilding(s, f) && 0 < |sizes|
    ensures NormalFacade(s, f, sizes, remainderWidth, false).Success?
    ensures var l := NormalFacade(s, f, sizes, remainderWidth, false).value.layout;
      && Height(l) == s.buildingHeight
      && -(|sizes| as real) * 0.5 <= Width(l) - (SlotsWidth(sizes) as real + remainderWidth as real) <= |sizes| as real * 0.5
  {
    FillingColumnHeight(s, f, sizes, remainderWidth as real, 0, |sizes|);
    NormalFacadeSpread(s, f, sizes, remainderWidth, ColumnOffset(remainderWidth as real, 0, |sizes|));
  }

  /**
   * The columns of an office or commercial entrance facade are planned
   * exactly when the column left of the entrance slot, the entrance column
   * and the column right of it all are, and are those three side by side.
   */
  lemma AroundEntranceParts(s: Settings, f: FloorPlan, sizes: seq<PanelSize>, offset: real, idx: int,
                            noLeftLayout: bool, noRightLayout: bool, t: ComplexBuildingType)
    requires Ready(s, f) && 0 <= idx < |sizes|
    ensures
      var left := NormalColumn(s, f, sizes, offset * idx as real, 0, idx, false);
      var middle := if t == OfficeBuilding then OfficeEntranceColumn(s, f, sizes, offset, idx, false)
                    else CommercialEntranceColumn(s, f, sizes, offset, idx, noLeftLayout, noRightLayout, false);
      var right := NormalColumn(s, f, sizes, offset * (|sizes| - (idx + 1)) as real, idx + 1, |sizes|, false);
      var r := ColumnsAroundEntrance(s, f, sizes, offset, idx, noLeftLayout, noRightLayout, t);
      && (r.Success? <==> left.Success? && middle.Success? && right.Success?)
      && (r.Success? ==> r.value.layout == Horizontal([left.value.layout, middle.value.layout, right.value.layout]))
  {
  }

  /**
   * The three columns of an office or commercial entrance facade, in a
   * building of offices and commercial buildings whose entrance floor fits:
   * each is planned, the entrance column stands as tall as the building,
   * and so does each side column that spans a slot.
   */
  lemma AroundEntranceHeights(s: Settings, f: FloorPlan, sizes: seq<PanelSize>, offset: real, idx: int,
                              noLeftLayout: bool, noRightLayout: bool, t: ComplexBuildingType)
    requires Ready(s, f) && OfficeOrCommercial(s.lowerType) && OfficeOrCommercial(s.higherType)
    requires ColumnEntranceHeight(s, f) <= s.buildingHeight && OfficeOrCommercial(t) && 0 <= idx < |sizes|
    ensures ColumnsAroundEntrance(s, f, sizes, offset, idx, noLeftLayout, noRightLayout, t).Success?
    ensures var l := ColumnsAroundEntrance(s, f, sizes, offset, idx, noLeftLayout, noRightLayout, t).value.layout;
      && l.Horizontal? && |l.children| == 3
      && (0 < idx ==> Height(l.children[0]) == s.buildingHeight)
      && Height(l.children[1]) == s.buildingHeight
      && (idx + 1 < |sizes| ==> Height(l.children[2]) == s.buildingHeight)
  {
    var left := NormalColumn(s, f, sizes, offset * idx as real, 0, idx, false);
    var middle := if t == OfficeBuilding then OfficeEntranceColumn(s, f, sizes, offset, idx, false)
                  else CommercialEntranceColumn(s, f, sizes, offset, idx, noLeftLayout, noRightLayout, false);
    var right := NormalColumn(s, f, sizes, offset * (|sizes| - (idx + 1)) as real, idx + 1, |sizes|, false);
    assert left.Success? && (0 < idx ==> Height(left.value.layout) == s.buildingHeight) by {
      NormalColumnFills(s, f, false);
      if 0 < idx {
        NormalColumnHeight(s, f, sizes, offset * idx as real, 0, idx, false);
      }
    }
    assert right.Success? && (idx + 1 < |sizes| ==> Height(right.value.layout) == s.buildingHeight) by {
      NormalColumnFills(s, f, false);
      if idx + 1 < |sizes| {
        NormalColumnHeight(s, f, sizes, offset * (|sizes| - (idx + 1)) as real, idx + 1, |sizes|, false);
      }
    }
    assert middle.Success? && Height(middle.value.layout) == s.buildingHeight by {
      if t == OfficeBuilding {
        OfficeEntranceColumnHeight(s, f, sizes, offset, idx, false);
      } else {
        CommercialEntranceColumnHeight(s, f, sizes, offset, idx, noLeftLayout, noRightLayout, false);
      }
    }
    AroundEntranceParts(s, f, sizes, offset, idx, noLeftLayout, noRightLayout, t);
  }

  /** k slots widened by a column offset that is the rounded offset
      whenever there is a slot. */
  lemma SlotsWidened(k: int, unit: real, columnOffset: real, rounded: real, width: real)
    requires 0 <= k && (0 < k ==> columnOffset == rounded)
    requires width == k as real * (unit + columnOffset)
    ensures width == k as real * (unit + rounded)
  {
    if k == 0 {
      assert k as real == 0.0;
    }
  }

  /** A remainder of one offset per slot, spread over the n slots, gives
      each slot that offset back, rounded. */
  lemma ShareOffset(offset: real, remainder: real, n: int, from: int, to: int)
    requires 0 < n && to - from == n && remainder == offset * n as real
    ensures ColumnOffset(remainder, from, to) == RoundToThousandths(offset) as real
  {
    var d := (to - from) as real;
    assert d == n as real;
    assert remainder / d == offset;
  }

  /** Slots widened by the share of a remainder of one offset per slot
      are widened by the offset rounded. */
  lemma SharedSlots(offset: real, remainder: real, n: int, from: int, to: int, unit: real, share: real, width: real)
    requires 0 <= n && to - from == n && remainder == offset * n as real
    requires share == ColumnOffset(remainder, from, to) && width == (to - from) as real * (unit + share)
    ensures width == n as real * (unit + RoundToThousandths(offset) as real)
  {
    if 0 < n {
      ShareOffset(offset, remainder, n, from, to);
    }
    assert (to - from) as real == n as real;
    SlotsWidened(n, unit, share, RoundToThousandths(offset) as real, width);
  }

  /** A column of the n slots from `from` to `to` whose remainder is one
      offset per slot: every slot widened by the rounded offset. */
  lemma SharedColumnWidth(s: Settings, f: FloorPlan, sizes: seq<PanelSize>, offset: real, remainder: real, n: int, from: int, to: int, share: real)
    requires Ready(s, f) && 0 <= from <= to <= |sizes| && to - from == n && remainder == offset * n as real
    requires share == ColumnOffset(remainder, from, to)
    requires NormalColumn(s, f, sizes, remainder, from, to, false).Success?
    ensures Width(NormalColumn(s, f, sizes, remainder, from, to, false).value.layout)
            == n as real * (SizeValue(Narrow) as real + RoundToThousandths(offset) as real)
  {
    NormalColumnWidth(s, f, sizes, remainder, from, to, false, share);
    SharedSlots(offset, remainder, n, from, to, SizeValue(Narrow) as real, share,
                Width(NormalColumn(s, f, sizes, remainder, from, to, false).value.layout));
  }

  /** The columns either side of the entrance slot, sharing one offset per
      slot, have every slot widened by the offset rounded. */
  lemma SideColumnWidths(s: Settings, f: FloorPlan, sizes: seq<PanelSize>, offset: real, idx: int)
    requires Ready(s, f) && 0 <= idx < |sizes|
    ensures var left := NormalColumn(s, f, sizes, offset * idx as real, 0, idx, false);
      left.Success? ==> Width(left.value.layout) == idx as real * (SizeValue(Narrow) as real + RoundToThousandths(offset) as real)
    ensures var right := NormalColumn(s, f, sizes, offset * (|sizes| - (idx + 1)) as real, idx + 1, |sizes|, false);
      right.Success? ==>
        Width(right.value.layout) == (|sizes| - (idx + 1)) as real * (SizeValue(Narrow) as real + RoundToThousandths(offset) as real)
  {
    if NormalColumn(s, f, sizes, offset * idx as real, 0, idx, false).Success? {
      SharedColumnWidth(s, f, sizes, offset, offset * idx as real, idx, 0, idx, ColumnOffset(offset * idx as real, 0, idx));
    }
    if NormalColumn(s, f, sizes, offset * (|sizes| - (idx + 1)) as real, idx + 1, |sizes|, false).Success? {
      SharedColumnWidth(s, f, sizes, offset, offset * (|sizes| - (idx + 1)) as real, |sizes| - (idx + 1), idx + 1, |sizes|,
                        ColumnOffset(offset * (|sizes| - (idx + 1)) as real, idx + 1, |sizes|));
    }
  }

  /**
   * The widths of the three columns of an office or commercial entrance
   * facade: the entrance slot widened by the offset itself, and every slot
   * of the side columns by the offset rounded to a thousandth.
   */
  lemma AroundEntranceWidths(s: Settings, f: FloorPlan, sizes: seq<PanelSize>, offset: real, idx: int,
                             noLeftLayout: bool, noRightLayout: bool, t: ComplexBuildingType)
    requires Ready(s, f) && OfficeOrCommercial(t) && 0 <= idx < |sizes|
    requires ColumnsAroundEntrance(s, f, sizes, offset, idx, noLeftLayout, noRightLayout, t).Success?
    ensures var l := ColumnsAroundEntrance(s, f, sizes, offset, idx, noLeftLayout, noRightLayout, t).value.layout;
      var unit := SizeValue(Narrow) as real;
      var rounded := RoundToThousandths(offset) as real;
      && l.Horizontal? && |l.children| == 3
      && Width(l.children[0]) == idx as real * (unit + rounded)
      && Width(l.children[1]) == unit + offset
      && Width(l.children[2]) == (|sizes| - (idx + 1)) as real * (unit + rounded)
  {
    var left := NormalColumn(s, f, sizes, offset * idx as real, 0, idx, false);
    var right := NormalColumn(s, f, sizes, offset * (|sizes| - (idx + 1)) as real, idx + 1, |sizes|, false);
    var middle := if t == OfficeBuilding then OfficeEntranceColumn(s, f, sizes, offset, idx, false)
                  else CommercialEntranceColumn(s, f, sizes, offset, idx, noLeftLayout, noRightLayout, false);
    var l := ColumnsAroundEntrance(s, f, sizes, offset, idx, noLeftLayout, noRightLayout, t).value.layout;
    assert left.Success? && middle.Success? && right.Success? && l == Horizontal([left.value.layout, middle.value.layout, right.value.layout]) by {
      AroundEntranceParts(s, f, sizes, offset, idx, noLeftLayout, noRightLayout, t);
    }
    SideColumnWidths(s, f, sizes, offset, idx);
    assert Width(middle.value.layout) == SizeValue(Narrow) as real + offset by {
      EntranceColumnWidth(s, f, sizes, offset, idx, noLeftLayout, noRightLayout, false);
    }
  }

  /** Three columns, the side ones of a and b slots widened by the rounded
      offset and the entrance slot by the offset itself, are as wide as
      their a + b + 1 slots widened by the offset, and the a + b rounding
      errors. */
  lemma ThreeColumnsSpread(a: real, b: real, m: real, total: real, unit: real, offset: real, rounded: real, lw: real, mw: real, rw: real)
    requires a + b == m && m + 1.0 == total
    requires lw == a * (unit + rounded) && mw == unit + offset && rw == b * (unit + rounded)
    ensures lw + mw + rw == total * (unit + offset) + m * (rounded - offset)
  {
    assert lw == a * (unit + offset) + a * (rounded - offset);
    assert rw == b * (unit + offset) + b * (rounded - offset);
    assert lw + rw == m * (unit + offset) + m * (rounded - offset);
  }

  /** m slots' rounding errors of at most half a thousandth each. */
  lemma RoundingErrors(m: real, error: real, total: real)
    requires 0.0 <= m && -0.5 <= error <= 0.5 && total == m * error
    ensures -m * 0.5 <= total <= m * 0.5
  {
  }

  /** Three columns of a and b side slots widened by the rounded offset and
      an entrance slot widened by the offset, where the a + b + 1 offsets
      add up to the remainder, are as wide as the slots and the remainder
      up to half a thousandth for each side slot. */
  lemma RoundedColumnsSpread(a: real, b: real, m: real, total: real, unit: real, offset: real, rounded: real,
                             remainder: real, width: real, slotsWidth: real)
    requires 0.0 <= a && 0.0 <= b && a + b == m && m + 1.0 == total
    requires total * offset == remainder && -0.5 <= rounded - offset <= 0.5
    requires unit == 2500.0 && slotsWidth == total * 2500.0
    requires width == a * (unit + rounded) + (unit + offset) + b * (unit + rounded)
    ensures -m * 0.5 <= width - (slotsWidth + remainder) <= m * 0.5
  {
    ThreeColumnsSpread(a, b, m, total, unit, offset, rounded, a * (unit + rounded), unit + offset, b * (unit + rounded));
    assert slotsWidth + remainder == total * (unit + offset);
    RoundingErrors(m, rounded - offset, width - (slotsWidth + remainder));
  }

  /** n copies of the n-th part of the remainder give the remainder back. */
  lemma PartShares(n: int, remainder: real, offset: real)
    requires 0 < n && offset == remainder / n as real
    ensures n as real * offset == remainder
  {
    ShareBack(n, remainder);
  }

  /** The three columns of an entrance facade over n slots, whose offset is
      the n-th part of the remainder, are as wide as the slots and the
      remainder, up to half a thousandth for each side slot. */
  lemma EntranceSpread(n: int, idx: int, unit: real, remainder: real, offset: real, width: real, slotsWidth: real)
    requires 0 <= idx < n && offset == remainder / n as real
    requires width == idx as real * (unit + RoundToThousandths(offset) as real) + (unit + offset)
                      + (n - (idx + 1)) as real * (unit + RoundToThousandths(offset) as real)
    requires unit == 2500.0 && slotsWidth == n as real * 2500.0
    ensures -((n - 1) as real) * 0.5 <= width - (slotsWidth + remainder) <= (n - 1) as real * 0.5
  {
    PartShares(n, remainder, offset);
    RoundedColumnsSpread(idx as real, (n - (idx + 1)) as real, (n - 1) as real, n as real, unit, offset,
                         RoundToThousandths(offset) as real, remainder, width, slotsWidth);
  }

  /** The same, for the slots of a face and its remainder, shared out as
      the entrance offset. */
  lemma EntranceShares(sizes: seq<PanelSize>, remainderWidth: int, offset: real, idx: int, width: real)
    requires 0 <= idx < |sizes| && offset == EntranceOffset(remainderWidth, |sizes|)
    requires width == idx as real * (SizeValue(Narrow) as real + RoundToThousandths(offset) as real) + (SizeValue(Narrow) as real + offset)
                      + (|sizes| - (idx + 1)) as real * (SizeValue(Narrow) as real + RoundToThousandths(offset) as real)
    ensures -((|sizes| - 1) as real) * 0.5 <= width - (SlotsWidth(sizes) as real + remainderWidth as real) <= (|sizes| - 1) as real * 0.5
  {
    assert offset == remainderWidth as real / |sizes| as real;
    SlotsReal(|sizes|, SlotsWidth(sizes));
    EntranceSpread(|sizes|, idx, SizeValue(Narrow) as real, remainderWidth as real, offset, width, SlotsWidth(sizes) as real);
  }

  /** A row of one child is as wide as the child. */
  lemma SingleRowWidth<K>(x: Layout<K>)
    ensures Width(Horizontal([x])) == Width(x)
  {
    assert [x][1..] == [];
    assert RowWidth([x]) == Width(x) + RowWidth([x][1..]);
  }

  /** The entrance offset is the n-th part of the remainder: n of them give
      the remainder back. */
  lemma EntranceOffsetShares(remainderWidth: int, n: nat, offset: real)
    requires 0 < n && offset == EntranceOffset(remainderWidth, n)
    ensures n as real * offset == remainderWidth as real
  {
    assert offset == remainderWidth as real / n as real;
    ShareBack(n, remainderWidth as real);
  }

  /** The three columns around the entrance slot together: the side
      columns' slots widened by the rounded offset, the entrance slot by the
      offset itself. */
  lemma AroundEntranceTotal(s: Settings, f: FloorPlan, sizes: seq<PanelSize>, offset: real, idx: int,
                            noLeftLayout: bool, noRightLayout: bool, t: ComplexBuildingType)
    requires Ready(s, f) && OfficeOrCommercial(t) && 0 <= idx < |sizes|
    requires ColumnsAroundEntrance(s, f, sizes, offset, idx, noLeftLayout, noRightLayout, t).Success?
    ensures var unit := SizeValue(Narrow) as real;
      var rounded := RoundToThousandths(offset) as real;
      Width(ColumnsAroundEntrance(s, f, sizes, offset, idx, noLeftLayout, noRightLayout, t).value.layout)
      == idx as real * (unit + rounded) + (unit + offset) + (|sizes| - (idx + 1)) as real * (unit + rounded)
  {
    var l := ColumnsAroundEntrance(s, f, sizes, offset, idx, noLeftLayout, noRightLayout, t).value.layout;
    AroundEntranceWidths(s, f, sizes, offset, idx, noLeftLayout, noRightLayout, t);
    var cs := l.children;
    assert cs == [cs[0], cs[1], cs[2]];
    RowWidthThree(cs[0], cs[1], cs[2]);
  }

  /** The three columns around the entrance slot, whose offset is the n-th
      part of the remainder, are as wide as the slots and the remainder, up
      to half a thousandth for each slot of the side columns. */
  lemma AroundEntranceSpread(s: Settings, f: FloorPlan, sizes: seq<PanelSize>, remainderWidth: int, offset: real, idx: int,
                             noLeftLayout: bool, noRightLayout: bool, t: ComplexBuildingType)
    requires Ready(s, f) && OfficeOrCommercial(t) && 0 <= idx < |sizes| && offset == EntranceOffset(remainderWidth, |sizes|)
    requires ColumnsAroundEntrance(s, f, sizes, offset, idx, noLeftLayout, noRightLayout, t).Success?
    ensures var w := Width(ColumnsAroundEntrance(s, f, sizes, offset, idx, noLeftLayout, noRightLayout, t).value.layout);
      -((|sizes| - 1) as real) * 0.5 <= w - (SlotsWidth(sizes) as real + remainderWidth as real) <= (|sizes| - 1) as real * 0.5
  {
    AroundEntranceTotal(s, f, sizes, offset, idx, noLeftLayout, noRightLayout, t);
    EntranceShares(sizes, remainderWidth, offset, idx,
                   Width(ColumnsAroundEntrance(s, f, sizes, offset, idx, noLeftLayout, noRightLayout, t).value.layout));
  }

  /**
   * An office or commercial entrance facade over at least one slot, in a
   * building of offices and commercial buildings whose entrance floor fits:
   * it is planned as one row of the three columns around the entrance
   * slot, each standing as tall as the building (a side column when it
   * spans a slot), and is as wide as its slots and the remainder, up to
   * half a thousandth for each slot of the side columns.
   */
  lemma EntranceFacadeMeasures(s: Settings, f: FloorPlan, sizes: seq<PanelSize>, remainderWidth: int)
    requires Ready(s, f) && OfficeOrCommercial(s.lowerType) && OfficeOrCommercial(s.higherType)
    requires ColumnEntranceHeight(s, f) <= s.buildingHeight && 0 < |sizes|
    ensures EntranceFacade(s, f, sizes, remainderWidth, false).Success?
    ensures var l := EntranceFacade(s, f, sizes, remainderWidth, false).value.layout;
      var idx := EntranceIndex(|sizes|);
      && l.Horizontal? && |l.children| == 1 && l.children[0].Horizontal? && |l.children[0].children| == 3
      && (0 < idx ==> Height(l.children[0].children[0]) == s.buildingHeight)
      && Height(l.children[0].children[1]) == s.buildingHeight
      && (idx + 1 < |sizes| ==> Height(l.children[0].children[2]) == s.buildingHeight)
      && -((|sizes| - 1) as real) * 0.5 <= Width(l) - (SlotsWidth(sizes) as real + remainderWidth as real) <= (|sizes| - 1) as real * 0.5
  {
    var idx := EntranceIndex(|sizes|);
    var offset := EntranceOffset(remainderWidth, |sizes|);
    var c := ColumnsAroundEntrance(s, f, sizes, offset, idx, idx == 0, idx + 1 == |sizes|, s.lowerType);
    assert EntranceVertical(s, f, sizes, remainderWidth, offset, idx, idx == 0, idx + 1 == |sizes|, false) == c;
    AroundEntranceHeights(s, f, sizes, offset, idx, idx == 0, idx + 1 == |sizes|, s.lowerType);
    AroundEntranceSpread(s, f, sizes, remainderWidth, offset, idx, idx == 0, idx + 1 == |sizes|, s.lowerType);
    SingleRowWidth(c.value.layout);
  }

  /** Slots widened by the entrance offset, which is the n-th part of the
      remainder, span the slots and the remainder exactly. */
  lemma EntranceOffsetSpans(sizes: seq<PanelSize>, remainderWidth: int, offset: real, width: real)
    requires 0 < |sizes| && offset == EntranceOffset(remainderWidth, |sizes|)
    requires width == SlotsWidth(sizes) as real + |sizes| as real * offset
    ensures width == SlotsWidth(sizes) as real + remainderWidth as real
  {
    EntranceOffsetShares(remainderWidth, |sizes|, offset);
  }

  /** The condominium entrance column with the entrance offset spans its
      slots and the remainder exactly. */
  lemma CondominiumEntranceSpans(s: Settings, f: FloorPlan, sizes: seq<PanelSize>, remainderWidth: int, offset: real, idx: int)
    requires Ready(s, f) && 0 <= idx < |sizes| && offset == EntranceOffset(remainderWidth, |sizes|)
    requires CondominiumEntranceColumn(s, f, sizes, remainderWidth, offset, idx, false).Success?
    ensures Width(CondominiumEntranceColumn(s, f, sizes, remainderWidth, offset, idx, false).value.layout)
            == SlotsWidth(sizes) as real + remainderWidth as real
  {
    CondominiumEntranceColumnWidth(s, f, sizes, remainderWidth, offset, idx, false);
    EntranceOffsetSpans(sizes, remainderWidth, offset, Width(CondominiumEntranceColumn(s, f, sizes, remainderWidth, offset, idx, false).value.layout));
  }

  /** An apartment entrance facade is the condominium entrance column at
      the entrance slot, wrapped in two rows. */
  lemma CondominiumFacadeParts(s: Settings, f: FloorPlan, sizes: seq<PanelSize>, remainderWidth: int)
    requires Ready(s, f) && s.lowerType == Apartment && 0 < |sizes|
    ensures var c := CondominiumEntranceColumn(s, f, sizes, remainderWidth, EntranceOffset(remainderWidth, |sizes|), EntranceIndex(|sizes|), false);
      var r := EntranceFacade(s, f, sizes, remainderWidth, false);
      && (r.Success? <==> c.Success?)
      && (r.Success? ==> r.value.layout == Horizontal([Horizontal([c.value.layout])]))
  {
  }

  /**
   * An apartment entrance facade over at least one slot, in a planned
   * building whose lower part is apartments and reaches the top: it is
   * planned as the one condominium entrance column, stands as tall as the
   * building and is exactly as wide as its slots and the remainder, the
   * end walls taking up what the narrowed slots give back.
   */
  lemma CondominiumFacadeMeasures(s: Settings, f: FloorPlan, sizes: seq<PanelSize>, remainderWidth: int)
    requires PlannedFloors(s, f) && Ready(s, f) && s.lowerType == Apartment && 0 < |sizes|
    requires s.buildingHeight <= s.boundaryHeight && 2 * f.lowerFloorHeight <= s.buildingHeight
    ensures EntranceFacade(s, f, sizes, remainderWidth, false).Success?
    ensures var l := EntranceFacade(s, f, sizes, remainderWidth, false).value.layout;
      && Height(l) == s.buildingHeight
      && Width(l) == SlotsWidth(sizes) as real + remainderWidth as real
  {
    var idx := EntranceIndex(|sizes|);
    var offset := EntranceOffset(remainderWidth, |sizes|);
    var c := CondominiumEntranceColumn(s, f, sizes, remainderWidth, offset, idx, false);
    CondominiumFacadeParts(s, f, sizes, remainderWidth);
    assert c.Success? && Height(c.value.layout) == s.buildingHeight by {
      CondominiumEntranceColumnHeight(s, f, sizes, remainderWidth, offset, idx);
    }
    CondominiumEntranceSpans(s, f, sizes, remainderWidth, offset, idx);
    SingleRowWidth(c.value.layout);
    SingleRowWidth(Horizontal([c.value.layout]));
  }

  /** A face is its shadow wall above its facade, planned when the facade is. */
  lemma FaceParts(i: int, e: Edge, s: Settings, f: FloorPlan, wallName: string)
    requires Ready(s, f) && 0 <= i < 4
    ensures var facade := if i == 2 then EntranceFacade(s, f, FaceSizes(e), FaceRemainder(e), false)
                          else NormalFacade(s, f, FaceSizes(e), FaceRemainder(e), false);
      var r := Face(i, e, s, f, wallName);
      && (r.Success? <==> facade.Success?)
      && (r.Success? ==> r.value.layout == Vertical([Element(ShadowWall(wallName), (e.width - ShadowWallOffset) as real,
                                                              s.buildingHeight - ShadowWallOffset), facade.value.layout]))
  {
  }

  /** The facade of face i, by the kind of face. */
  lemma FacadeMeasures(i: int, e: Edge, s: Settings, f: FloorPlan)
    requires Ready(s, f) && FillsBuilding(s, f) && 0 < |FaceSizes(e)|
    ensures var facade := if i == 2 then EntranceFacade(s, f, FaceSizes(e), FaceRemainder(e), false)
                          else NormalFacade(s, f, FaceSizes(e), FaceRemainder(e), false);
      && facade.Success?
      && ((i != 2 || s.lowerType == Apartment) ==> Height(facade.value.layout) == s.buildingHeight)
      && -(|FaceSizes(e)| as real) * 0.5 <= Width(facade.value.layout) - e.width as real <= |FaceSizes(e)| as real * 0.5
  {
    if i != 2 {
      NormalFacadeMeasures(s, f, FaceSizes(e), FaceRemainder(e));
    } else if s.lowerType == Apartment {
      CondominiumFacadeMeasures(s, f, FaceSizes(e), FaceRemainder(e));
    } else {
      EntranceFacadeMeasures(s, f, FaceSizes(e), FaceRemainder(e));
    }
  }

  /**
   * A face over at least one slot, in a building whose columns all stand
   * as tall as it: it is planned as the shadow wall, 0.65 narrower than
   * the face and 0.65 lower than the building, followed by a facade as
   * wide as the face up to half a thousandth a slot; the facade of a
   * normal face, and of an apartment entrance face, stands as tall as the
   * building.
   */
  lemma FaceMeasures(i: int, e: Edge, s: Settings, f: FloorPlan, wallName: string)
    requires Ready(s, f) && FillsBuilding(s, f) && 0 <= i < 4 && 0 < |FaceSizes(e)|
    ensures Face(i, e, s, f, wallName).Success?
    ensures var l := Face(i, e, s, f, wallName).value.layout;
      && l.Vertical? && |l.children| == 2
      && Width(l.children[0]) + ShadowWallOffset as real == e.width as real
      && Height(l.children[0]) + ShadowWallOffset == s.buildingHeight
      && ((i != 2 || s.lowerType == Apartment) ==> Height(l.children[1]) == s.buildingHeight)
      && -(|FaceSizes(e)| as real) * 0.5 <= Width(l.children[1]) - e.width as real <= |FaceSizes(e)| as real * 0.5
  {
    FaceParts(i, e, s, f, wallName);
    FacadeMeasures(i, e, s, f);
  }
}
