/**
 * How the complex building's columns, facades and faces measure up
 * against the building and the edge they cover: the columns stand as tall
 * as the building, a facade is as wide as its edge up to the rounding of
 * the per-slot offsets, and the shadow wall of a face is 0.65 narrower and
 * lower than the face.
 */
module ComplexMeasures {
  import opened Wrappers
  import opened LayoutTree
  import opened FloorHeight
  import opened Facade
  import opened BuildingConfig
  import opened ComplexElements
  import opened ComplexColumn
  import opened ComplexFacade

  /** A stack of three is as high as its three children together. */
  lemma StackHeightThree<K>(a: Layout<K>, b: Layout<K>, c: Layout<K>)
    ensures StackHeight([a, b, c]) == Height(a) + Height(b) + Height(c)
  {
    StackHeightFront(a, [b, c]);
    StackHeightFront(b, [c]);
    StackHeightFront(c, []);
    assert [a] + [b, c] == [a, b, c] && [b] + [c] == [b, c] && [c] + [] == [c];
  }

  /** A stack of two is as tall as the two together. */
  lemma StackHeightTwo<K>(a: Layout<K>, b: Layout<K>)
    ensures StackHeight([a, b]) == Height(a) + Height(b)
  {
    StackHeightFront(a, [b]);
    StackHeightFront(b, []);
    assert [a] + [b] == [a, b] && [b] + [] == [b];
  }

  /** The commercial base, laid out as single elements, stacks up to the
      height of its bands. */
  lemma {:induction false} BaseElementsHeight(bands: seq<Band>, width: real, position: PositionType)
    ensures StackHeight(BaseElements(bands, width, position)) == BandsHeight(bands)
  {
    if 0 < |bands| {
      var es := BaseElements(bands, width, position);
      assert es[1..] == BaseElements(bands[1..], width, position);
      assert Height(es[0]) == bands[0].height;
      BaseElementsHeight(bands[1..], width, position);
    }
  }

  /**
   * With offices and commercial buildings above and below, the office
   * entrance column stands as tall as the building, or as its entrance
   * floor when that is the taller: the entrance window and the full window
   * above it make up the entrance floor, and the column loop fills the rest.
   */
  lemma OfficeEntranceColumnHeight(s: Settings, f: FloorPlan, sizes: seq<PanelSize>, offset: real, idx: int, configFlag: bool)
    requires Ready(s, f) && 0 <= idx < |sizes|
    requires OfficeOrCommercial(s.lowerType) && OfficeOrCommercial(s.higherType)
    ensures OfficeEntranceColumn(s, f, sizes, offset, idx, configFlag).Success?
    ensures Height(OfficeEntranceColumn(s, f, sizes, offset, idx, configFlag).value.layout)
            == Max(ColumnEntranceHeight(s, f), s.buildingHeight)
  {
    var e := ColumnEntranceHeight(s, f);
    var st := IterState(configFlag, false, 0, 0, e, s.buildingHeight - e);
    IterHeight(s, f, e, st);
    var col := Iter(s, f, e, st).value;
    var w := SizeValue(sizes[idx]) as real + offset;
    var rows := BandRows(sizes, idx, idx + 1, offset, col.bands);
    BandRowsHeight(sizes, idx, idx + 1, offset, col.bands);
    var window := Element(OfficeEntranceWindow, w, EntranceWindowHeight);
    var full := Element(Panel(OfficeFullWindow), w, e - EntranceWindowHeight);
    assert OfficeEntranceColumn(s, f, sizes, offset, idx, configFlag) == Success(Planned(Vertical([window, full, Vertical(rows)]), col.configFlag));
    StackHeightThree(window, full, Vertical(rows));
  }

  /**
   * The same for the commercial entrance column: the entrance window, the
   * full window, the commercial base and the column loop above it add up
   * to the building height, or to the entrance floor when that is taller.
   */
  lemma CommercialEntranceColumnHeight(s: Settings, f: FloorPlan, sizes: seq<PanelSize>, offset: real, idx: int,
                                       noLeftLayout: bool, noRightLayout: bool, configFlag: bool)
    requires Ready(s, f) && 0 <= idx < |sizes|
    requires OfficeOrCommercial(s.lowerType) && OfficeOrCommercial(s.higherType)
    ensures CommercialEntranceColumn(s, f, sizes, offset, idx, noLeftLayout, noRightLayout, configFlag).Success?
    ensures Height(CommercialEntranceColumn(s, f, sizes, offset, idx, noLeftLayout, noRightLayout, configFlag).value.layout)
            == Max(ColumnEntranceHeight(s, f), s.buildingHeight)
  {
    var e := ColumnEntranceHeight(s, f);
    var base := CommercialBase(s.buildingHeight - e);
    var st := IterState(configFlag, false, 0, 0, e + BandsHeight(base), s.buildingHeight - e - BandsHeight(base));
    IterHeight(s, f, e, st);
    CommercialEntranceLayout(s, f, sizes, offset, idx, noLeftLayout, noRightLayout, configFlag, e, base, st);
    var col := Iter(s, f, e, st).value;
    var rows := BandRows(sizes, idx, idx + 1, offset, col.bands);
    BandRowsHeight(sizes, idx, idx + 1, offset, col.bands);
    CommercialStackHeight(SizeValue(sizes[idx]) as real + offset, e, base, EntrancePosition(noLeftLayout, noRightLayout), Vertical(rows));
  }

  /** The entrance window, the full window above it, the base and what
      stands on the base stack up to the entrance floor, the base and the
      rest. */
  lemma CommercialStackHeight(w: real, e: int, base: seq<Band>, position: PositionType, rest: Layout<ComplexElement>)
    ensures Height(Vertical([Element(CommercialEntranceWindow, w, EntranceWindowHeight), Element(Panel(CommercialFullWindow), w, e - EntranceWindowHeight)]
                            + BaseElements(base, w, position) + [rest]))
            == e + BandsHeight(base) + Height(rest)
  {
    var entrance := [Element(CommercialEntranceWindow, w, EntranceWindowHeight), Element(Panel(CommercialFullWindow), w, e - EntranceWindowHeight)];
    var elements := BaseElements(base, w, position);
    StackHeightAppend(entrance + elements, [rest]);
    StackHeightAppend(entrance, elements);
    StackHeightFront(entrance[0], [entrance[1]]);
    StackHeightFront(entrance[1], []);
    StackHeightFront(rest, []);
    assert [entrance[0]] + [entrance[1]] == entrance && [entrance[1]] + [] == [entrance[1]] && [rest] + [] == [rest];
    BaseElementsHeight(base, w, position);
  }

  /** A commercial entrance column whose loop above the entrance floor and
      the base completes is the entrance window, the full window, the base
      elements and the loop's rows, one above the other. */
  lemma CommercialEntranceLayout(s: Settings, f: FloorPlan, sizes: seq<PanelSize>, offset: real, idx: int,
                                 noLeftLayout: bool, noRightLayout: bool, configFlag: bool,
                                 e: int, base: seq<Band>, st: IterState)
    requires Ready(s, f) && 0 <= idx < |sizes|
    requires e == ColumnEntranceHeight(s, f) && base == CommercialBase(s.buildingHeight - e)
    requires st == IterState(configFlag, false, 0, 0, e + BandsHeight(base), s.buildingHeight - e - BandsHeight(base))
    requires Iter(s, f, e, st).Success?
    ensures var w := SizeValue(sizes[idx]) as real + offset;
      CommercialEntranceColumn(s, f, sizes, offset, idx, noLeftLayout, noRightLayout, configFlag)
      == Success(Planned(Vertical([Element(CommercialEntranceWindow, w, EntranceWindowHeight), Element(Panel(CommercialFullWindow), w, e - EntranceWindowHeight)]
                                  + BaseElements(base, w, EntrancePosition(noLeftLayout, noRightLayout))
                                  + [Vertical(BandRows(sizes, idx, idx + 1, offset, Iter(s, f, e, st).value.bands))]),
                         Iter(s, f, e, st).value.configFlag))
  {
  }

  /**
   * An apartment's column loop from its own ground floor, in a building
   * that does not rise above the boundary and is at least two lower floors
   * tall: the lower floors above the ground floor fill the building, with
   * no boundary wall.
   */
  lemma ApartmentIterFills(s: Settings, f: FloorPlan, entranceHeight: int, configFlag: bool, g: int, st: IterState)
    requires Progressing(s, f, entranceHeight) && TypeAt(s, configFlag) == Apartment
    requires s.buildingHeight <= s.boundaryHeight && 2 * f.lowerFloorHeight <= s.buildingHeight
    requires g == CondominiumGroundHeight(s, f) && st == IterState(configFlag, false, 0, 0, g, s.buildingHeight - g)
    ensures Iter(s, f, entranceHeight, st).Success?
    ensures g + BandsHeight(Iter(s, f, entranceHeight, st).value.bands) == s.buildingHeight
    ensures BoundaryCount(Iter(s, f, entranceHeight, st).value.bands) == 0
  {
    var h := f.lowerFloorHeight;
    EntranceHeightBounds(s.buildingHeight, h);
    QuotientAtLeast(s.buildingHeight, h, 2);
    var numFloor := s.buildingHeight / h - 1;
    assert Min(s.boundaryHeight, s.buildingHeight) == s.buildingHeight;
    assert g + numFloor * h == s.buildingHeight;
    var floors := Repeat(Band(PanelBand(SkyscraperCondominiumWindow), h), AtLeastOne(numFloor));
    RepeatMeasures(SkyscraperCondominiumWindow, h, AtLeastOne(numFloor));
    var mid := st.(configFlag := true, addedBoundaryWall := true, currentHeight := g + h * numFloor, remainingHeight := 0);
    assert IterStep(s, f, entranceHeight, st) == Success((floors, mid));
    assert Iter(s, f, entranceHeight, mid) == Success(Column([], true));
    assert floors + [] == floors;
  }

  /** A normal apartment column of a building that does not rise above the
      boundary and is at least two lower floors tall: its ground floor and
      lower floors stack up to the building height, with no boundary wall. */
  lemma ApartmentColumnFills(s: Settings, f: FloorPlan)
    requires Ready(s, f) && s.lowerType == Apartment
    requires s.buildingHeight <= s.boundaryHeight && 2 * f.lowerFloorHeight <= s.buildingHeight
    ensures NormalColumnPlan(s, f, false).Success?
    ensures var p := NormalColumnPlan(s, f, false).value;
      && BandsHeight(p.ground) + BandsHeight(p.upper.bands) == s.buildingHeight
      && BoundaryCount(p.ground + p.upper.bands) == 0
  {
    var g := CondominiumGroundHeight(s, f);
    var st := IterState(false, false, 0, 0, g, s.buildingHeight - g);
    ApartmentIterFills(s, f, g, false, g, st);
    var col := Iter(s, f, g, st).value;
    var ground := [Band(PanelBand(SkyscraperCondominiumWall), g)];
    assert NormalColumnPlan(s, f, false) == Success(ColumnPlan(ground, col));
    assert BandsHeight(ground) == g && BoundaryCount(ground) == 0;
    BoundaryCountAppend(ground, col.bands);
  }

  /**
   * The apartment entrance column of a planned building that does not rise
   * above the boundary and is at least two lower floors tall stands as tall
   * as the building: its entrance floor is the apartments' own ground floor
   * and the lower floors fill the rest. The entrance window leaves above it
   * a gap of the entrance floor's height less the window's.
   */
  lemma CondominiumEntranceColumnHeight(s: Settings, f: FloorPlan, sizes: seq<PanelSize>, remainderWidth: int, offset: real, idx: int)
    requires PlannedFloors(s, f) && Ready(s, f) && s.lowerType == Apartment && 0 <= idx < |sizes|
    requires s.buildingHeight <= s.boundaryHeight && 2 * f.lowerFloorHeight <= s.buildingHeight
    ensures CondominiumEntranceColumn(s, f, sizes, remainderWidth, offset, idx, false).Success?
    ensures var l := CondominiumEntranceColumn(s, f, sizes, remainderWidth, offset, idx, false).value.layout;
      && Height(l) == s.buildingHeight
      && l.Vertical? && 0 < |l.children| && l.children[0].Horizontal? && |l.children[0].children| == 5
      && l.children[0].children[2].Element?
      && l.children[0].children[2].kind.CondominiumEntranceWindow?
      && EntranceWindowHeight + l.children[0].children[2].kind.topOffset == Height(l.children[0]) == ColumnEntranceHeight(s, f)
  {
    CondominiumEntranceColumnParts(s, f, sizes, remainderWidth, offset, idx);
    var l := CondominiumEntranceColumn(s, f, sizes, remainderWidth, offset, idx, false).value.layout;
    var wallWidthOffset := Max(MinCondominiumWallWidthOffset, remainderWidth);
    CondominiumGroundShape(sizes, idx, ColumnEntranceHeight(s, f), wallWidthOffset, offset - wallWidthOffset as real / |sizes| as real);
    assert l.children == [l.children[0], l.children[1]];
    StackHeightTwo(l.children[0], l.children[1]);
  }

  /** The same column, as its ground floor and the loop's rows above it,
      which stack up to the rest of the building. */
  lemma CondominiumEntranceColumnParts(s: Settings, f: FloorPlan, sizes: seq<PanelSize>, remainderWidth: int, offset: real, idx: int)
    requires PlannedFloors(s, f) && Ready(s, f) && s.lowerType == Apartment && 0 <= idx < |sizes|
    requires s.buildingHeight <= s.boundaryHeight && 2 * f.lowerFloorHeight <= s.buildingHeight
    ensures var e := ColumnEntranceHeight(s, f);
      var wallWidthOffset := Max(MinCondominiumWallWidthOffset, remainderWidth);
      var r := CondominiumEntranceColumn(s, f, sizes, remainderWidth, offset, idx, false);
      && r.Success? && r.value.layout.Vertical? && |r.value.layout.children| == 2
      && r.value.layout.children[0] == CondominiumGround(sizes, idx, e, wallWidthOffset, offset - wallWidthOffset as real / |sizes| as real)
      && Height(r.value.layout.children[1]) == s.buildingHeight - e
      && EntranceWindowHeight <= e
  {
    var e := ColumnEntranceHeight(s, f);
    var g := CondominiumGroundHeight(s, f);
    var st := IterState(false, false, 0, 0, g, s.buildingHeight - g);
    CondominiumLoopRows(s, f, sizes, offset, idx, e, g, st);
    var wallWidthOffset := Max(MinCondominiumWallWidthOffset, remainderWidth);
    CondominiumEntranceLayout(s, f, sizes, remainderWidth, offset, idx, e, wallWidthOffset,
                              offset - wallWidthOffset as real / |sizes| as real, st);
  }

  /** Above the apartment entrance column's ground floor, the loop over the
      lower floors completes, and its rows over the entrance slot stack up
      to the rest of the building. */
  lemma CondominiumLoopRows(s: Settings, f: FloorPlan, sizes: seq<PanelSize>, offset: real, idx: int, e: int, g: int, st: IterState)
    requires PlannedFloors(s, f) && Ready(s, f) && s.lowerType == Apartment && 0 <= idx < |sizes|
    requires s.buildingHeight <= s.boundaryHeight && 2 * f.lowerFloorHeight <= s.buildingHeight
    requires e == ColumnEntranceHeight(s, f) && g == CondominiumGroundHeight(s, f)
    requires st == IterState(false, false, 0, 0, g, s.buildingHeight - g)
    ensures EntranceWindowHeight <= e == g < s.buildingHeight
    ensures Iter(s, f, e, st).Success?
    ensures StackHeight(BandRows(sizes, idx, idx + 1, offset, Iter(s, f, e, st).value.bands)) == s.buildingHeight - e
  {
    CondominiumEntranceFloor(s, f);
    ApartmentIterFills(s, f, e, false, g, st);
    BandRowsHeight(sizes, idx, idx + 1, offset, Iter(s, f, e, st).value.bands);
  }

  /** The apartment entrance column's ground floor is a row of five: the end
      walls, the slots either side and the entrance window in the middle,
      which leaves above it the ground floor's height less its own. */
  lemma CondominiumGroundShape(sizes: seq<PanelSize>, idx: int, e: int, wallWidthOffset: int, slotOffset: real)
    requires 0 <= idx < |sizes| && EntranceWindowHeight <= e
    ensures var g := CondominiumGround(sizes, idx, e, wallWidthOffset, slotOffset);
      && g.Horizontal? && |g.children| == 5
      && g.children[2].Element? && g.children[2].kind.CondominiumEntranceWindow?
      && EntranceWindowHeight + g.children[2].kind.topOffset == Height(g) == e
  {
  }

  /** In a planned apartment building that does not rise above the
      boundary and is at least two lower floors tall, the entrance floor is
      the apartments' own ground floor, with room above it. */
  lemma CondominiumEntranceFloor(s: Settings, f: FloorPlan)
    requires PlannedFloors(s, f) && Ready(s, f) && s.lowerType == Apartment
    requires s.buildingHeight <= s.boundaryHeight && 2 * f.lowerFloorHeight <= s.buildingHeight
    ensures ColumnEntranceHeight(s, f) == CondominiumGroundHeight(s, f) < s.buildingHeight
  {
    var h := f.lowerFloorHeight;
    var e := ColumnEntranceHeight(s, f);
    PlannedEntranceHeight(s, f);
    if s.boundaryHeight <= s.buildingHeight {
      QuotientAtLeast(s.boundaryHeight, h, 2);
      assert e == EntranceHeight(s.boundaryHeight, h);
    } else {
      BestFloorHeightUnique(s.buildingHeight, f.floorHeight, h);
      assert e == EntranceHeight(s.buildingHeight, h);
    }
    EntranceHeightBounds(s.buildingHeight, h);
  }

  /** An apartment entrance column with a loop to run above its ground
      floor, when the loop completes, is the ground floor and the loop's
      rows, one above the other. */
  lemma CondominiumEntranceLayout(s: Settings, f: FloorPlan, sizes: seq<PanelSize>, remainderWidth: int, offset: real, idx: int,
                                  e: int, wallWidthOffset: int, slotOffset: real, st: IterState)
    requires Ready(s, f) && 0 <= idx < |sizes|
    requires e == ColumnEntranceHeight(s, f) && 0 < s.buildingHeight - e
    requires wallWidthOffset == Max(MinCondominiumWallWidthOffset, remainderWidth)
    requires slotOffset == offset - wallWidthOffset as real / |sizes| as real
    requires st == IterState(false, false, 0, 0, e, s.buildingHeight - e) && Iter(s, f, e, st).Success?
    ensures CondominiumEntranceColumn(s, f, sizes, remainderWidth, offset, idx, false)
            == Success(Planned(Vertical([CondominiumGround(sizes, idx, e, wallWidthOffset, slotOffset),
                                         Vertical(BandRows(sizes, idx, idx + 1, offset, Iter(s, f, e, st).value.bands))]),
                               Iter(s, f, e, st).value.configFlag))
  {
  }

  /** A normal column over [from, to) is as wide as its slots, each widened
      by the column's rounded share of the remainder width. */
  lemma NormalColumnWidth(s: Settings, f: FloorPlan, sizes: seq<PanelSize>, remainderWidth: real, from: int, to: int, configFlag: bool,
                          offset: real)
    requires Ready(s, f) && 0 <= from <= to <= |sizes| && offset == ColumnOffset(remainderWidth, from, to)
    requires NormalColumn(s, f, sizes, remainderWidth, from, to, configFlag).Success?
    ensures Width(NormalColumn(s, f, sizes, remainderWidth, from, to, configFlag).value.layout)
            == (to - from) as real * (SizeValue(Narrow) as real + offset)
  {
    var p := NormalColumnPlan(s, f, configFlag).value;
    var g := NormalGround(s, f, configFlag).value;
    assert p.ground == g.bands;
    assert 0 < |g.bands| && g.bands[0].kind.PanelBand?;
    var first := g.bands[0];
    var rows := BandRows(sizes, from, to, offset, p.ground);
    assert (rows + [Vertical(BandRows(sizes, from, to, offset, p.upper.bands))])[0] == BandRow(sizes, from, to, offset, first);
    PanelRowMeasures(sizes, from, to, first.height, offset, Panel(first.kind.panel));
  }

  /** Rounding a share to three decimals moves n of them by at most half a
      thousandth each. */
  lemma RoundedShares(n: nat, share: real)
    ensures var d := n as real * RoundToThousandths(share) as real - n as real * share;
      -(n as real) * 0.5 <= d <= n as real * 0.5
  {
    var r := RoundToThousandths(share) as real;
    assert -0.5 <= r - share <= 0.5;
    assert n as real * r - n as real * share == n as real * (r - share);
  }

  /** A row of three is as wide as its three children together. */
  lemma RowWidthThree<K>(a: Layout<K>, b: Layout<K>, c: Layout<K>)
    ensures RowWidth([a, b, c]) == Width(a) + Width(b) + Width(c)
  {
    assert [a, b, c][1..] == [b, c] && [b, c][1..] == [c] && [c][1..] == [];
    assert RowWidth([c]) == Width(c);
    assert RowWidth([b, c]) == Width(b) + Width(c);
  }

  /** The office and the commercial entrance columns are as wide as the
      entrance slot and the per-slot offset. */
  lemma EntranceColumnWidth(s: Settings, f: FloorPlan, sizes: seq<PanelSize>, offset: real, idx: int,
                            noLeftLayout: bool, noRightLayout: bool, configFlag: bool)
    requires Ready(s, f) && 0 <= idx < |sizes|
    ensures var r := OfficeEntranceColumn(s, f, sizes, offset, idx, configFlag);
      r.Success? ==> Width(r.value.layout) == SizeValue(Narrow) as real + offset
    ensures var r := CommercialEntranceColumn(s, f, sizes, offset, idx, noLeftLayout, noRightLayout, configFlag);
      r.Success? ==> Width(r.value.layout) == SizeValue(Narrow) as real + offset
  {
    assert sizes[idx] == Narrow;
  }

  /** n slots narrowed by their share of the wall offset give the wall
      offset back. */
  lemma WallOffsetShares(n: nat, offset: real, wallWidthOffset: real)
    requires 0 < n
    ensures n as real * (offset - wallWidthOffset / n as real) + wallWidthOffset == n as real * offset
  {
    assert n as real * (wallWidthOffset / n as real) == wallWidthOffset;
  }

  /** An integer count of slots, read as a real. */
  lemma SlotsReal(n: int, w: int)
    requires w == 2500 * n
    ensures w as real == n as real * 2500.0
  {
  }

  /** A row of panels as one horizontal: as wide as its slots, each widened
      by the offset. */
  lemma PanelRowWidth<K>(sizes: seq<PanelSize>, lo: int, hi: int, height: int, offset: real, kind: K)
    requires 0 <= lo <= hi <= |sizes|
    ensures Width(Horizontal(PanelRow(sizes, lo, hi, height, offset, kind))) == (hi - lo) as real * (SizeValue(Narrow) as real + offset)
  {
    PanelRowMeasures(sizes, lo, hi, height, offset, kind);
  }

  /** The slots left of the entrance, the entrance slot and the slots right
      of it are all the slots. */
  lemma SlotSum(n: int, idx: int, unit: real)
    requires 0 <= idx < n
    ensures idx as real * unit + unit + (n - (idx + 1)) as real * unit == n as real * unit
  {
    assert (n - (idx + 1)) as real * unit == n as real * unit - idx as real * unit - unit;
  }

  lemma RowOfFive<K>(a: Layout<K>, b: Layout<K>, c: Layout<K>, d: Layout<K>, e: Layout<K>)
    ensures [a, b] + [c] + [d, e] == [a, b, c, d, e]
  {
  }

  /** A row of five is as wide as its five children together. */
  lemma RowWidthFive<K>(a: Layout<K>, b: Layout<K>, c: Layout<K>, d: Layout<K>, e: Layout<K>)
    ensures RowWidth([a, b, c, d, e]) == Width(a) + Width(b) + Width(c) + Width(d) + Width(e)
  {
    assert [a, b, c, d, e][1..] == [b, c, d, e] && [b, c, d, e][1..] == [c, d, e];
    assert [c, d, e][1..] == [d, e] && [d, e][1..] == [e] && [e][1..] == [];
    assert RowWidth([e]) == Width(e);
    assert RowWidth([d, e]) == Width(d) + Width(e);
    assert RowWidth([c, d, e]) == Width(c) + Width(d) + Width(e);
    assert RowWidth([b, c, d, e]) == Width(b) + Width(c) + Width(d) + Width(e);
  }

  /** The ground row's widths add up: the two halves of the wall offset
      and the slots between them. */
  lemma GroundRowWidth<K>(endWall: Layout<K>, left: Layout<K>, window: Layout<K>, right: Layout<K>,
                          wallWidthOffset: real, slots: real)
    requires Width(endWall) == wallWidthOffset * 0.5
    requires Width(left) + Width(window) + Width(right) == slots
    ensures RowWidth([endWall, left, window, right, endWall]) == wallWidthOffset + slots
  {
    RowWidthFive(endWall, left, window, right, endWall);
  }

  /** The ground row of the apartment entrance column, its slots narrowed
      by the given offset: the wall offset and the narrowed slots. */
  lemma CondominiumGroundWidth(sizes: seq<PanelSize>, idx: int, e: int, wallWidthOffset: int, slotOffset: real)
    requires 0 <= idx < |sizes|
    ensures Width(CondominiumGround(sizes, idx, e, wallWidthOffset, slotOffset))
            == wallWidthOffset as real + |sizes| as real * (SizeValue(Narrow) as real + slotOffset)
  {
    var n := |sizes|;
    var endWall := Element(Panel(SkyscraperCondominiumWall), wallWidthOffset as real * 0.5, e);
    var left := Horizontal(PanelRow(sizes, 0, idx, e, slotOffset, Panel(SkyscraperCondominiumWall)));
    var window := Element(CondominiumEntranceWindow(WindowTopOffset(e)), SizeValue(sizes[idx]) as real + slotOffset, e);
    var right := Horizontal(PanelRow(sizes, idx + 1, n, e, slotOffset, Panel(SkyscraperCondominiumWall)));
    var unit := 2500.0 + slotOffset;
    assert CondominiumGround(sizes, idx, e, wallWidthOffset, slotOffset) == Horizontal([endWall, left, window, right, endWall]) by {
      RowOfFive(endWall, left, window, right, endWall);
    }
    assert Width(window) == unit by {
      assert sizes[idx] == Narrow;
    }
    assert Width(left) == (idx - 0) as real * unit by {
      PanelRowWidth(sizes, 0, idx, e, slotOffset, Panel(SkyscraperCondominiumWall));
    }
    assert Width(right) == (n - (idx + 1)) as real * unit by {
      PanelRowWidth(sizes, idx + 1, n, e, slotOffset, Panel(SkyscraperCondominiumWall));
    }
    assert Width(left) + Width(window) + Width(right) == n as real * unit by {
      SlotSum(n, idx, unit);
    }
    GroundRowWidth(endWall, left, window, right, wallWidthOffset as real, n as real * unit);
  }

  /** The apartment entrance column is as wide as its ground row. */
  lemma CondominiumColumnGround(s: Settings, f: FloorPlan, sizes: seq<PanelSize>, remainderWidth: int, offset: real, idx: int, configFlag: bool)
    requires Ready(s, f) && 0 <= idx < |sizes|
    requires CondominiumEntranceColumn(s, f, sizes, remainderWidth, offset, idx, configFlag).Success?
    ensures
      var wallWidthOffset := Max(MinCondominiumWallWidthOffset, remainderWidth);
      var slotOffset := offset - wallWidthOffset as real / |sizes| as real;
      Width(CondominiumEntranceColumn(s, f, sizes, remainderWidth, offset, idx, configFlag).value.layout)
      == Width(CondominiumGround(sizes, idx, ColumnEntranceHeight(s, f), wallWidthOffset, slotOffset))
  {
  }

  /** n narrowed slots and the wall offset, where the narrowing gives the
      wall offset back, are n slots widened by the offset. */
  lemma NarrowedSlots(n: real, unit: real, slotOffset: real, offset: real, wallWidthOffset: real, width: real, slotsWidth: real)
    requires unit == 2500.0 && slotsWidth == n * 2500.0
    requires width == wallWidthOffset + n * (unit + slotOffset)
    requires n * slotOffset + wallWidthOffset == n * offset
    ensures width == slotsWidth + n * offset
  {
    assert n * (unit + slotOffset) == n * 2500.0 + n * slotOffset;
  }

  /** The same, for the slots of a face. */
  lemma NarrowedFaceSlots(sizes: seq<PanelSize>, slotOffset: real, offset: real, wallWidthOffset: int, width: real)
    requires width == wallWidthOffset as real + |sizes| as real * (SizeValue(Narrow) as real + slotOffset)
    requires |sizes| as real * slotOffset + wallWidthOffset as real == |sizes| as real * offset
    ensures width == SlotsWidth(sizes) as real + |sizes| as real * offset
  {
    SlotsReal(|sizes|, SlotsWidth(sizes));
    NarrowedSlots(|sizes| as real, SizeValue(Narrow) as real, slotOffset, offset, wallWidthOffset as real, width, SlotsWidth(sizes) as real);
  }

  /** A ground row whose slots are narrowed by exactly the wall offset
      spans the slots, each widened by the offset. */
  lemma NarrowedGroundWidth(sizes: seq<PanelSize>, idx: int, e: int, wallWidthOffset: int, slotOffset: real, offset: real)
    requires 0 <= idx < |sizes|
    requires |sizes| as real * slotOffset + wallWidthOffset as real == |sizes| as real * offset
    ensures Width(CondominiumGround(sizes, idx, e, wallWidthOffset, slotOffset)) == SlotsWidth(sizes) as real + |sizes| as real * offset
  {
    CondominiumGroundWidth(sizes, idx, e, wallWidthOffset, slotOffset);
    NarrowedFaceSlots(sizes, slotOffset, offset, wallWidthOffset, Width(CondominiumGround(sizes, idx, e, wallWidthOffset, slotOffset)));
  }

  /**
   * The apartment entrance column's ground row spans all the slots: the two
   * end walls take exactly the width the wall offset takes off the slots.
   */
  lemma CondominiumGroundSpans(sizes: seq<PanelSize>, idx: int, e: int, remainderWidth: int, offset: real)
    requires 0 <= idx < |sizes|
    ensures
      var wallWidthOffset := Max(MinCondominiumWallWidthOffset, remainderWidth);
      var slotOffset := offset - wallWidthOffset as real / |sizes| as real;
      Width(CondominiumGround(sizes, idx, e, wallWidthOffset, slotOffset)) == SlotsWidth(sizes) as real + |sizes| as real * offset
  {
    var wallWidthOffset := Max(MinCondominiumWallWidthOffset, remainderWidth);
    WallOffsetShares(|sizes|, offset, wallWidthOffset as real);
    NarrowedGroundWidth(sizes, idx, e, wallWidthOffset, offset - wallWidthOffset as real / |sizes| as real, offset);
  }

  /**
   * The apartment entrance column is as wide as the slots, each widened by
   * the per-slot offset: its ground floor spans them all.
   */
  lemma CondominiumEntranceColumnWidth(s: Settings, f: FloorPlan, sizes: seq<PanelSize>, remainderWidth: int, offset: real, idx: int, configFlag: bool)
    requires Ready(s, f) && 0 <= idx < |sizes|
    requires CondominiumEntranceColumn(s, f, sizes, remainderWidth, offset, idx, configFlag).Success?
    ensures Width(CondominiumEntranceColumn(s, f, sizes, remainderWidth, offset, idx, configFlag).value.layout)
            == SlotsWidth(sizes) as real + |sizes| as real * offset
  {
    CondominiumColumnGround(s, f, sizes, remainderWidth, offset, idx, configFlag);
    CondominiumGroundSpans(sizes, idx, ColumnEntranceHeight(s, f), remainderWidth, offset);
  }
}
