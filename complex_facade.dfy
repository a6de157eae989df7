/**
 * What the complex-building planner lays out on each face: normal columns
 * (a ground floor, then the column loop), the entrance column of each
 * building type, the entrance facade that puts one entrance near the
 * middle of a face, and the face itself under its shadow wall. The band
 * structure of a column does not depend on its width, so it is given first
 * on its own and then laid out over a range of slots.
 */
module ComplexFacade {
  import opened Wrappers
  import opened LayoutTree
  import opened FloorHeight
  import opened Facade
  import opened BuildingConfig
  import opened ComplexElements
  import opened ComplexColumn

  /** The entrance-floor height every column starts from: the lower part's
      entrance floor when the boundary lies within the building, otherwise
      the whole building's. */
  function ColumnEntranceHeight(s: Settings, f: FloorPlan): int
  {
    if s.boundaryHeight <= s.buildingHeight then s.boundaryHeight - f.numLowerFloorWithoutEntrance * f.lowerFloorHeight
    else s.buildingHeight - f.numFloorWithoutEntrance * f.floorHeight
  }

  /** An apartment column's own ground floor: the entrance floor of the
      lower part, counted with the lower floor height. */
  function CondominiumGroundHeight(s: Settings, f: FloorPlan): int
    requires 0 < f.lowerFloorHeight
  {
    EntranceHeight(Min(s.boundaryHeight, s.buildingHeight), f.lowerFloorHeight)
  }

  /** Both entrance heights a column loop may be given let it end. */
  predicate Ready(s: Settings, f: FloorPlan)
  {
    Progressing(s, f, ColumnEntranceHeight(s, f)) && Progressing(s, f, CondominiumGroundHeight(s, f))
  }

  /** The floor plan the planner derives from the settings: the best floor
      height for the whole building, for the part above the boundary wall
      and for the part below it, and the floor counts. */
  predicate PlannedFloors(s: Settings, f: FloorPlan)
  {
    && BestFloorHeight(s.buildingHeight, f.floorHeight)
    && BestFloorHeight(s.buildingHeight - s.boundaryHeight - DepressionWallHeight, f.higherFloorHeight)
    && BestFloorHeight(Min(s.boundaryHeight, s.buildingHeight), f.lowerFloorHeight)
    && MinFloorHeight <= f.floorHeight && MinFloorHeight <= f.higherFloorHeight && MinFloorHeight <= f.lowerFloorHeight
    && f.numFloorWithoutEntrance == s.buildingHeight / f.floorHeight - 1
    && f.numHigherFloor == Max(0, (s.buildingHeight - s.boundaryHeight - DepressionWallHeight) / f.higherFloorHeight)
    && f.numLowerFloorWithoutEntrance == Max(0, s.boundaryHeight / f.lowerFloorHeight - 1)
  }

  /** The settings fix the floor plan. */
  lemma PlannedFloorsUnique(s: Settings, f: FloorPlan, g: FloorPlan)
    requires PlannedFloors(s, f) && PlannedFloors(s, g)
    ensures f == g
  {
    BestFloorHeightUnique(s.buildingHeight, f.floorHeight, g.floorHeight);
    BestFloorHeightUnique(s.buildingHeight - s.boundaryHeight - DepressionWallHeight, f.higherFloorHeight, g.higherFloorHeight);
    BestFloorHeightUnique(Min(s.boundaryHeight, s.buildingHeight), f.lowerFloorHeight, g.lowerFloorHeight);
  }

  /**
   * The entrance floor of a planned building: one to two lower floors high
   * when the boundary lies within the building and is at least a floor up,
   * the boundary height itself when it is lower than a floor, and one to
   * two floors high when the boundary is above the building.
   */
  lemma PlannedEntranceHeight(s: Settings, f: FloorPlan)
    requires PlannedFloors(s, f)
    ensures s.boundaryHeight <= s.buildingHeight && f.lowerFloorHeight <= s.boundaryHeight ==>
      f.lowerFloorHeight <= ColumnEntranceHeight(s, f) < 2 * f.lowerFloorHeight
    ensures s.boundaryHeight <= s.buildingHeight && s.boundaryHeight < f.lowerFloorHeight ==>
      ColumnEntranceHeight(s, f) == s.boundaryHeight
    ensures s.buildingHeight < s.boundaryHeight ==>
      f.floorHeight <= ColumnEntranceHeight(s, f) < 2 * f.floorHeight
    ensures f.lowerFloorHeight <= CondominiumGroundHeight(s, f) < 2 * f.lowerFloorHeight
  {
    var hl := f.lowerFloorHeight;
    EntranceHeightBounds(s.boundaryHeight, hl);
    EntranceHeightBounds(s.buildingHeight, f.floorHeight);
    EntranceHeightBounds(Min(s.boundaryHeight, s.buildingHeight), hl);
    if s.boundaryHeight < hl {
      QuotientAtLeast(s.boundaryHeight, hl, 1);
    }
  }

  /**
   * The settings under which the column loops of a planned building end
   * (see Progressing). When the boundary lies above the building, every
   * entrance floor is at least a floor high; otherwise the entrance floor
   * is the boundary height itself whenever that is lower than a floor, so
   * an office part needs a spandrel or a boundary that rounds to a positive
   * height, and neither rounding below zero, and a commercial part needs a
   * boundary that is not negative.
   */
  predicate LoopsEnd(s: Settings)
  {
    var aboveBuilding := s.buildingHeight < s.boundaryHeight;
    var spandrel := RoundToHundredths(s.spandrelHeight);
    var boundary := RoundToHundredths(s.boundaryHeight);
    && (s.lowerType == OfficeBuilding || s.higherType == OfficeBuilding ==>
          0 <= spandrel && (aboveBuilding || (0 <= boundary && (0 < spandrel || 0 < boundary))))
    && (s.lowerType == CommercialBuilding || s.higherType == CommercialBuilding ==>
          aboveBuilding || 0 <= s.boundaryHeight)
  }

  /** The column loops of a planned building end exactly under LoopsEnd. */
  lemma PlannedReady(s: Settings, f: FloorPlan)
    requires PlannedFloors(s, f)
    ensures Ready(s, f) <==> LoopsEnd(s)
  {
    PlannedEntranceHeight(s, f);
  }

  /** A column laid out over the slots [from, to): its ground rows, then the
      rows of the column loop stacked in a vertical of their own. */
  function ColumnLayout(sizes: seq<PanelSize>, from: int, to: int, offset: real, ground: seq<Band>, upper: seq<Band>): Layout<ComplexElement>
    requires 0 <= from <= to <= |sizes|
  {
    Vertical(BandRows(sizes, from, to, offset, ground) + [Vertical(BandRows(sizes, from, to, offset, upper))])
  }

  /** A column over at least one slot is as tall as its bands. */
  lemma {:induction false} ColumnLayoutHeight(sizes: seq<PanelSize>, from: int, to: int, offset: real, ground: seq<Band>, upper: seq<Band>)
    requires 0 <= from < to <= |sizes|
    ensures Height(ColumnLayout(sizes, from, to, offset, ground, upper)) == BandsHeight(ground) + BandsHeight(upper)
  {
    var rows := BandRows(sizes, from, to, offset, ground);
    var top := Vertical(BandRows(sizes, from, to, offset, upper));
    StackHeightAppend(rows, [top]);
    BandRowsHeight(sizes, from, to, offset, ground);
    BandRowsHeight(sizes, from, to, offset, upper);
  }

  /** Above a commercial ground floor, when there is room: a wall with a
      frame, then, when there is still room, a plain depression wall. */
  function CommercialBase(remainingHeight: int): (bands: seq<Band>)
    ensures BoundaryCount(bands) == 0
    ensures 0 <= BandsHeight(bands)
    ensures 0 < remainingHeight ==> BandsHeight(bands) < remainingHeight
    ensures remainingHeight <= SmallWallHeight ==> bands == []
  {
    if 0 < remainingHeight - SmallWallHeight then
      var frame := [Band(PanelBand(CommercialWallWithFrame), SmallWallHeight)];
      if 0 < remainingHeight - SmallWallHeight - DepressionWallHeight then
        var both := [Band(PanelBand(CommercialWallWithFrame), SmallWallHeight), Band(DepressionBand(false), DepressionWallHeight)];
        assert both[1..][1..] == [];
        assert BandsHeight(both[1..][1..]) == 0 && BoundaryCount(both[1..][1..]) == 0;
        assert BandsHeight(both[1..]) == DepressionWallHeight && BoundaryCount(both[1..]) == 0;
        assert BandsHeight(both) == SmallWallHeight + DepressionWallHeight;
        both
      else frame
    else []
  }

  /** A column's bands: its ground floor and what the column loop stacks. */
  datatype ColumnPlan = ColumnPlan(ground: seq<Band>, upper: Column)

  /** A normal column's ground floor: its bands, the entrance height the
      column loop is given and the height the loop starts from. */
  datatype Ground = Ground(bands: seq<Band>, entranceHeight: int, start: int)

  /**
   * The ground floor of a normal column, by the building type at the flag
   * it starts with: an apartment's is its own entrance floor of condominium
   * wall; an office's is full window; a commercial building's is full window
   * with the commercial base above. The loop starts on top of it. A hotel is
   * an exception.
   */
  function NormalGround(s: Settings, f: FloorPlan, configFlag: bool): (r: Result<Ground>)
    requires Ready(s, f)
    ensures r.Failure? <==> TypeAt(s, configFlag) == Hotel
    ensures r.Failure? ==> r.error == ArgumentOutOfRange
    ensures r.Success? ==> Progressing(s, f, r.value.entranceHeight)
    ensures r.Success? ==> BandsHeight(r.value.bands) == r.value.start && BoundaryCount(r.value.bands) == 0
  {
    var e := ColumnEntranceHeight(s, f);
    match TypeAt(s, configFlag)
    case Apartment =>
      var ground := CondominiumGroundHeight(s, f);
      Success(Ground([Band(PanelBand(SkyscraperCondominiumWall), ground)], ground, ground))
    case OfficeBuilding =>
      Success(Ground([Band(PanelBand(OfficeFullWindow), e)], e, e))
    case CommercialBuilding =>
      var window := [Band(PanelBand(CommercialFullWindow), e)];
      var base := CommercialBase(s.buildingHeight - e);
      BandsHeightAppend(window, base);
      BoundaryCountAppend(window, base);
      Success(Ground(window + base, e, e + BandsHeight(base)))
    case Hotel => Failure(ArgumentOutOfRange)
  }

  /** The bands of a normal column: its ground floor, then what the column
      loop stacks on the rest of the building. */
  function NormalColumnPlan(s: Settings, f: FloorPlan, configFlag: bool): Result<ColumnPlan>
    requires Ready(s, f)
  {
    var g :- NormalGround(s, f, configFlag);
    var col :- Iter(s, f, g.entranceHeight, IterState(configFlag, false, 0, 0, g.start, s.buildingHeight - g.start));
    Success(ColumnPlan(g.bands, col))
  }

  /** A planned layout and the boundary flag it leaves in the configuration. */
  datatype Planned = Planned(layout: Layout<ComplexElement>, addedBoundaryWall: bool)

  /** A normal column over [from, to), its slots widened by their rounded
      share of the remainder width. */
  function NormalColumn(s: Settings, f: FloorPlan, sizes: seq<PanelSize>, remainderWidth: real, from: int, to: int, configFlag: bool): Result<Planned>
    requires Ready(s, f) && 0 <= from <= to <= |sizes|
  {
    var p :- NormalColumnPlan(s, f, configFlag);
    Success(Planned(ColumnLayout(sizes, from, to, ColumnOffset(remainderWidth, from, to), p.ground, p.upper.bands), p.upper.configFlag))
  }

  /** The ground floor of an office or a commercial building whose entrance
      floor fits in the building leaves the column loop a height to fill. */
  lemma NormalGroundFits(s: Settings, f: FloorPlan, configFlag: bool)
    requires Ready(s, f)
    requires OfficeOrCommercial(s.lowerType) && OfficeOrCommercial(s.higherType)
    requires ColumnEntranceHeight(s, f) <= s.buildingHeight
    ensures NormalGround(s, f, configFlag).Success?
    ensures NormalGround(s, f, configFlag).value.start <= s.buildingHeight
  {
    if TypeAt(s, configFlag) == CommercialBuilding {
      var e := ColumnEntranceHeight(s, f);
      assert NormalGround(s, f, configFlag).value.start == e + BandsHeight(CommercialBase(s.buildingHeight - e));
    }
  }

  /** A column of offices and commercial buildings whose entrance floor
      fits in the building is exactly as tall as the building. */
  lemma NormalColumnFills(s: Settings, f: FloorPlan, configFlag: bool)
    requires Ready(s, f)
    requires OfficeOrCommercial(s.lowerType) && OfficeOrCommercial(s.higherType)
    requires ColumnEntranceHeight(s, f) <= s.buildingHeight
    ensures NormalColumnPlan(s, f, configFlag).Success?
    ensures var p := NormalColumnPlan(s, f, configFlag).value;
      BandsHeight(p.ground) + BandsHeight(p.upper.bands) == s.buildingHeight
  {
    NormalGroundFits(s, f, configFlag);
    var g := NormalGround(s, f, configFlag).value;
    var st := IterState(configFlag, false, 0, 0, g.start, s.buildingHeight - g.start);
    IterFills(s, f, g.entranceHeight, st);
    NormalColumnPlanOf(s, f, configFlag, g, st);
  }

  /** A column whose ground floor is planned and whose loop above it
      completes is that ground floor and that loop. */
  lemma NormalColumnPlanOf(s: Settings, f: FloorPlan, configFlag: bool, g: Ground, st: IterState)
    requires Ready(s, f) && NormalGround(s, f, configFlag) == Success(g)
    requires st == IterState(configFlag, false, 0, 0, g.start, s.buildingHeight - g.start)
    requires Iter(s, f, g.entranceHeight, st).Success?
    ensures NormalColumnPlan(s, f, configFlag) == Success(ColumnPlan(g.bands, Iter(s, f, g.entranceHeight, st).value))
  {
  }

  /** ... and so is its layout, whenever it spans a slot. */
  lemma NormalColumnHeight(s: Settings, f: FloorPlan, sizes: seq<PanelSize>, remainderWidth: real, from: int, to: int, configFlag: bool)
    requires Ready(s, f) && 0 <= from < to <= |sizes|
    requires OfficeOrCommercial(s.lowerType) && OfficeOrCommercial(s.higherType)
    requires ColumnEntranceHeight(s, f) <= s.buildingHeight
    ensures NormalColumn(s, f, sizes, remainderWidth, from, to, configFlag).Success?
    ensures Height(NormalColumn(s, f, sizes, remainderWidth, from, to, configFlag).value.layout) == s.buildingHeight
  {
    NormalColumnFills(s, f, configFlag);
    var p := NormalColumnPlan(s, f, configFlag).value;
    ColumnLayoutHeight(sizes, from, to, ColumnOffset(remainderWidth, from, to), p.ground, p.upper.bands);
  }

  /** A column starting in an office or commercial lower part rises through
      the boundary wall exactly once when the boundary lies within the
      building above the entrance floor. */
  lemma NormalColumnBoundaryOnce(s: Settings, f: FloorPlan)
    requires Ready(s, f) && OfficeOrCommercial(s.lowerType)
    requires ColumnEntranceHeight(s, f) < s.buildingHeight && s.boundaryHeight <= s.buildingHeight
    ensures NormalColumnPlan(s, f, false).Success? ==>
      var p := NormalColumnPlan(s, f, false).value;
      BoundaryCount(p.ground + p.upper.bands) == 1
  {
    if NormalColumnPlan(s, f, false).Success? {
      var g := NormalGround(s, f, false).value;
      var st := IterState(false, false, 0, 0, g.start, s.buildingHeight - g.start);
      NormalColumnPlanParts(s, f, false, g, st);
      NormalGroundBelow(s, f);
      IterBoundaryOnce(s, f, g.entranceHeight, st);
      BoundaryCountAppend(g.bands, Iter(s, f, g.entranceHeight, st).value.bands);
    }
  }

  /** The ground floor of an office or commercial lower part ends below a
      building that rises above its entrance floor. */
  lemma NormalGroundBelow(s: Settings, f: FloorPlan)
    requires Ready(s, f) && OfficeOrCommercial(s.lowerType) && ColumnEntranceHeight(s, f) < s.buildingHeight
    ensures NormalGround(s, f, false).Success? && NormalGround(s, f, false).value.start < s.buildingHeight
  {
    if s.lowerType == CommercialBuilding {
      var e := ColumnEntranceHeight(s, f);
      assert NormalGround(s, f, false).value.start == e + BandsHeight(CommercialBase(s.buildingHeight - e));
    }
  }

  /** A planned column is its planned ground floor and the loop above it. */
  lemma NormalColumnPlanParts(s: Settings, f: FloorPlan, configFlag: bool, g: Ground, st: IterState)
    requires Ready(s, f) && NormalColumnPlan(s, f, configFlag).Success?
    requires NormalGround(s, f, configFlag).Success? && g == NormalGround(s, f, configFlag).value
    requires st == IterState(configFlag, false, 0, 0, g.start, s.buildingHeight - g.start)
    ensures Iter(s, f, g.entranceHeight, st).Success?
    ensures NormalColumnPlan(s, f, configFlag).value == ColumnPlan(g.bands, Iter(s, f, g.entranceHeight, st).value)
  {
  }

  /** The condominium entrance window's gap above it: the entrance floor's
      height above the window, taken as a distance either way. */
  function WindowTopOffset(entranceHeight: int): (gap: int)
    ensures gap == Abs(entranceHeight - EntranceWindowHeight)
  {
    if 0 < entranceHeight - EntranceWindowHeight then entranceHeight - EntranceWindowHeight
    else Abs(entranceHeight - EntranceWindowHeight)
  }

  /**
   * The apartment entrance column spans the whole face at its ground floor:
   * half the wall width offset of condominium wall at each end, the walls of
   * the slots left and right of the entrance and the entrance window, all
   * slots narrowed by the wall offset's share. Above it the column loop runs
   * over the entrance slot alone, when the building rises above the
   * entrance floor. An entrance slot past the last slot is an exception.
   */
  function CondominiumEntranceColumn(s: Settings, f: FloorPlan, sizes: seq<PanelSize>, remainderWidth: int, offset: real, idx: int, configFlag: bool): Result<Planned>
    requires Ready(s, f) && 0 <= idx <= |sizes|
  {
    if idx == |sizes| then Failure(ArgumentOutOfRange)
    else
      var e := ColumnEntranceHeight(s, f);
      var wallWidthOffset := Max(MinCondominiumWallWidthOffset, remainderWidth);
      var slotOffset := offset - wallWidthOffset as real / |sizes| as real;
      var ground := CondominiumGround(sizes, idx, e, wallWidthOffset, slotOffset);
      if 0 < s.buildingHeight - e then
        var col :- Iter(s, f, e, IterState(configFlag, false, 0, 0, e, s.buildingHeight - e));
        Success(Planned(Vertical([ground, Vertical(BandRows(sizes, idx, idx + 1, offset, col.bands))]), col.configFlag))
      else
        Success(Planned(Vertical([ground]), configFlag))
  }

  /** The apartment entrance column's ground floor: half the wall offset as
      a wall at each end, and between them the slots, narrowed by the given
      offset, the entrance slot holding the entrance window. */
  function CondominiumGround(sizes: seq<PanelSize>, idx: int, e: int, wallWidthOffset: int, slotOffset: real): Layout<ComplexElement>
    requires 0 <= idx < |sizes|
  {
    var endWall := Element(Panel(SkyscraperCondominiumWall), wallWidthOffset as real * 0.5, e);
    Horizontal(
      [endWall, Horizontal(PanelRow(sizes, 0, idx, e, slotOffset, Panel(SkyscraperCondominiumWall)))]
      + [Element(CondominiumEntranceWindow(WindowTopOffset(e)), SizeValue(sizes[idx]) as real + slotOffset, e)]
      + [Horizontal(PanelRow(sizes, idx + 1, |sizes|, e, slotOffset, Panel(SkyscraperCondominiumWall))), endWall])
  }

  /** The office entrance column: the entrance window, full window up to the
      entrance floor's height, then the column loop over the entrance slot. */
  function OfficeEntranceColumn(s: Settings, f: FloorPlan, sizes: seq<PanelSize>, offset: real, idx: int, configFlag: bool): Result<Planned>
    requires Ready(s, f) && 0 <= idx <= |sizes|
  {
    if idx == |sizes| then Failure(ArgumentOutOfRange)
    else
      var e := ColumnEntranceHeight(s, f);
      var w := SizeValue(sizes[idx]) as real + offset;
      var col :- Iter(s, f, e, IterState(configFlag, false, 0, 0, e, s.buildingHeight - e));
      Success(Planned(Vertical([Element(OfficeEntranceWindow, w, EntranceWindowHeight), Element(Panel(OfficeFullWindow), w, e - EntranceWindowHeight),
                                Vertical(BandRows(sizes, idx, idx + 1, offset, col.bands))]), col.configFlag))
  }

  /** A band above a commercial entrance, as one element of the entrance
      slot's width; its depression wall is positioned like the facade's. */
  function BaseElement(b: Band, width: real, position: PositionType): Layout<ComplexElement>
  {
    match b.kind
    case PanelBand(t) => Element(Panel(t), width, b.height)
    case DepressionBand(boundary) => Element(DepressionWall(position, boundary), width, b.height)
  }

  /** The bands above a commercial entrance, one element each. */
  function BaseElements(bands: seq<Band>, width: real, position: PositionType): seq<Layout<ComplexElement>>
  {
    seq(|bands|, k requires 0 <= k < |bands| => BaseElement(bands[k], width, position))
  }

  /** The commercial entrance column: the entrance window, full window up to
      the entrance floor's height, the commercial base as single elements,
      then the column loop over the entrance slot. */
  function CommercialEntranceColumn(s: Settings, f: FloorPlan, sizes: seq<PanelSize>, offset: real, idx: int,
                                    noLeftLayout: bool, noRightLayout: bool, configFlag: bool): Result<Planned>
    requires Ready(s, f) && 0 <= idx <= |sizes|
  {
    if idx == |sizes| then Failure(ArgumentOutOfRange)
    else
      var position := EntrancePosition(noLeftLayout, noRightLayout);
      var e := ColumnEntranceHeight(s, f);
      var w := SizeValue(sizes[idx]) as real + offset;
      var base := CommercialBase(s.buildingHeight - e);
      var lifted := BandsHeight(base);
      var col :- Iter(s, f, e, IterState(configFlag, false, 0, 0, e + lifted, s.buildingHeight - e - lifted));
      Success(Planned(Vertical([Element(CommercialEntranceWindow, w, EntranceWindowHeight), Element(Panel(CommercialFullWindow), w, e - EntranceWindowHeight)]
                               + BaseElements(base, w, position)
                               + [Vertical(BandRows(sizes, idx, idx + 1, offset, col.bands))]), col.configFlag))
  }

  /**
   * The entrance facade's columns, by the building type at the incoming
   * flag: an apartment has its single entrance column; offices and
   * commercial buildings have a normal column left of the entrance slot,
   * the entrance column and a normal column right of it, the flag cleared
   * before each. The side columns get the per-slot offset's share of the
   * remainder for each of their slots. A hotel is an exception.
   */
  function EntranceVertical(s: Settings, f: FloorPlan, sizes: seq<PanelSize>, remainderWidth: int, offset: real, idx: int,
                            noLeftLayout: bool, noRightLayout: bool, configFlag: bool): Result<Planned>
    requires Ready(s, f) && 0 <= idx <= |sizes|
  {
    match TypeAt(s, configFlag)
    case Apartment =>
      var c :- CondominiumEntranceColumn(s, f, sizes, remainderWidth, offset, idx, false);
      Success(Planned(Horizontal([c.layout]), c.addedBoundaryWall))
    case OfficeBuilding => ColumnsAroundEntrance(s, f, sizes, offset, idx, noLeftLayout, noRightLayout, OfficeBuilding)
    case CommercialBuilding => ColumnsAroundEntrance(s, f, sizes, offset, idx, noLeftLayout, noRightLayout, CommercialBuilding)
    case Hotel => Failure(ArgumentOutOfRange)
  }

  /** The columns of an office (t) or commercial building's entrance facade. */
  function ColumnsAroundEntrance(s: Settings, f: FloorPlan, sizes: seq<PanelSize>, offset: real, idx: int,
                                 noLeftLayout: bool, noRightLayout: bool, t: ComplexBuildingType): Result<Planned>
    requires Ready(s, f) && 0 <= idx <= |sizes|
  {
    var left :- NormalColumn(s, f, sizes, offset * idx as real, 0, idx, false);
    var middle :- if t == OfficeBuilding then OfficeEntranceColumn(s, f, sizes, offset, idx, false)
                  else CommercialEntranceColumn(s, f, sizes, offset, idx, noLeftLayout, noRightLayout, false);
    SideColumns(s, f, sizes, offset, idx, left, middle)
  }

  /** The left column and the entrance column of an office or commercial
      entrance facade, then the normal column right of the entrance slot;
      the facade leaves the flag of the right column. */
  function SideColumns(s: Settings, f: FloorPlan, sizes: seq<PanelSize>, offset: real, idx: int, left: Planned, middle: Planned): Result<Planned>
    requires Ready(s, f) && 0 <= idx < |sizes|
  {
    var right :- NormalColumn(s, f, sizes, offset * (|sizes| - (idx + 1)) as real, idx + 1, |sizes|, false);
    Success(Planned(Horizontal([left.layout, middle.layout, right.layout]), right.addedBoundaryWall))
  }

  /** The entrance slot: the middle slot, the left one of the two middle
      slots of an even count, and slot 0 of an empty face. */
  function EntranceIndex(count: nat): (idx: nat)
    ensures idx <= count && (idx == count <==> count == 0)
    ensures idx == 0 <==> count <= 2
    ensures idx + 1 == count <==> count == 1
    ensures 0 < count ==> idx <= count - 1 - idx <= idx + 1
  {
    if count == 0 then 0 else (count - 1) / 2
  }

  /** The remainder width's share per slot (none on an empty face). */
  function EntranceOffset(remainderWidth: int, count: nat): real
  {
    if count == 0 then 0.0 else remainderWidth as real / count as real
  }

  /** The side columns of an entrance facade widen their slots by the
      same offset, rounded, as the entrance slot, wherever the entrance
      slot lies. */
  lemma EntranceSideOffsets(offset: real, idx: int, count: int)
    requires 0 <= idx < count
    ensures 0 < idx ==> ColumnOffset(offset * idx as real, 0, idx) == RoundToThousandths(offset) as real
    ensures idx + 1 < count ==>
      ColumnOffset(offset * (count - (idx + 1)) as real, idx + 1, count) == RoundToThousandths(offset) as real
  {
    if 0 < idx {
      ColumnOffsetShare(offset, idx, 0, idx);
    }
    if idx + 1 < count {
      var n := count - (idx + 1);
      var share := offset * n as real;
      ColumnOffsetShare(offset, n, idx + 1, count);
      assert share == offset * (count - (idx + 1)) as real;
      assert ColumnOffset(share, idx + 1, count) == RoundToThousandths(offset) as real;
    }
  }

  /** The entrance facade: one row holding the entrance columns, the
      entrance at EntranceIndex. */
  function EntranceFacade(s: Settings, f: FloorPlan, sizes: seq<PanelSize>, remainderWidth: int, configFlag: bool): Result<Planned>
    requires Ready(s, f)
  {
    var idx := EntranceIndex(|sizes|);
    var v :- EntranceVertical(s, f, sizes, remainderWidth, EntranceOffset(remainderWidth, |sizes|), idx, idx == 0, idx + 1 == |sizes|, configFlag);
    Success(Planned(Horizontal([v.layout]), v.addedBoundaryWall))
  }

  /** A normal facade: one normal column over all slots. */
  function NormalFacade(s: Settings, f: FloorPlan, sizes: seq<PanelSize>, remainderWidth: int, configFlag: bool): Result<Planned>
    requires Ready(s, f)
  {
    NormalColumn(s, f, sizes, remainderWidth as real, 0, |sizes|, configFlag)
  }

  /** The layout of a plan, or its exception. */
  function LayoutOf(p: Result<Planned>): (r: Result<Layout<ComplexElement>>)
    ensures r.Success? <==> p.Success?
    ensures r.Failure? ==> r.error == p.error
    ensures r.Success? ==> r.value == p.value.layout
  {
    if p.Failure? then Failure(p.error) else Success(p.value.layout)
  }

  /** The wall texture of the shadow wall, by the lower part's building
      type; a hotel is an exception. */
  function ShadowWallName(lowerType: ComplexBuildingType): (r: Result<string>)
    ensures r.Failure? <==> lowerType == Hotel
    ensures r.Failure? ==> r.error == ArgumentOutOfRange
    ensures r.Success? ==> |r.value| > 0
  {
    match lowerType
    case Apartment => Success("SkyscraperCondominiumWallTextured")
    case OfficeBuilding => Success("OfficeBuildingWallTextured")
    case CommercialBuilding => Success("CommercialBuildingWallTextured")
    case Hotel => Failure(ArgumentOutOfRange)
  }

  /** Face i of the building: the shadow wall, 0.65 narrower and lower than
      the face, above the face's facade; face 2 carries the entrance. The
      boundary flag is cleared before each face. */
  function Face(i: int, e: Edge, s: Settings, f: FloorPlan, wallName: string): Result<Planned>
    requires Ready(s, f) && 0 <= i < 4
  {
    var shadow := Element(ShadowWall(wallName), (e.width - ShadowWallOffset) as real, s.buildingHeight - ShadowWallOffset);
    var facade :- if i == 2 then EntranceFacade(s, f, FaceSizes(e), FaceRemainder(e), false)
                  else NormalFacade(s, f, FaceSizes(e), FaceRemainder(e), false);
    Success(Planned(Vertical([shadow, facade.layout]), facade.addedBoundaryWall))
  }

  /** What planning each of the first four faces gives, face by face. */
  function FaceResults(edges: seq<Edge>, s: Settings, f: FloorPlan, wallName: string): seq<Result<Planned>>
    requires 0 < FaceCount(edges) ==> Ready(s, f)
  {
    seq(FaceCount(edges), i requires 0 <= i < FaceCount(edges) => Face(i, edges[i], s, f, wallName))
  }

  /** Faces planned in turn, as far as the first exception: their layouts
      in order and the flag the last face leaves (the incoming flag when
      there is none). */
  function PlanInTurn(results: seq<Result<Planned>>, configFlag: bool): Result<(seq<Layout<ComplexElement>>, bool)>
  {
    if |results| == 0 then Success(([], configFlag))
    else
      var before :- PlanInTurn(results[..|results| - 1], configFlag);
      var last :- results[|results| - 1];
      Success((before.0 + [last.layout], last.addedBoundaryWall))
  }

  /** Planning in turn succeeds exactly when every face does; then there is
      one layout per face, face i's at index i, and the flag is the one
      the last face leaves. */
  lemma {:induction false} PlanInTurnSucceeds(results: seq<Result<Planned>>, configFlag: bool)
    ensures PlanInTurn(results, configFlag).Success? <==> forall i :: 0 <= i < |results| ==> results[i].Success?
    ensures var r := PlanInTurn(results, configFlag);
      r.Success? ==>
        && |r.value.0| == |results|
        && (forall i :: 0 <= i < |results| ==> r.value.0[i] == results[i].value.layout)
        && (|results| == 0 ==> r.value.1 == configFlag)
        && (0 < |results| ==> r.value.1 == results[|results| - 1].value.addedBoundaryWall)
  {
    if 0 < |results| {
      var prefix := results[..|results| - 1];
      PlanInTurnSucceeds(prefix, configFlag);
      assert forall i :: 0 <= i < |prefix| ==> prefix[i] == results[i];
    }
  }

  /** When planning in turn fails, the exception is that of the first face
      that raises one. */
  lemma {:induction false} PlanInTurnFails(results: seq<Result<Planned>>, configFlag: bool)
    requires PlanInTurn(results, configFlag).Failure?
    ensures exists i ::
              && 0 <= i < |results|
              && (forall j :: 0 <= j < i ==> results[j].Success?)
              && results[i].Failure?
              && PlanInTurn(results, configFlag).error == results[i].error
  {
    var prefix := results[..|results| - 1];
    assert forall i :: 0 <= i < |prefix| ==> prefix[i] == results[i];
    if PlanInTurn(prefix, configFlag).Failure? {
      PlanInTurnFails(prefix, configFlag);
    } else {
      PlanInTurnSucceeds(prefix, configFlag);
      assert results[|results| - 1].Failure?;
    }
  }

  /** Once a face raises an exception, planning more faces raises the same. */
  lemma {:induction false} PlanInTurnFailureStays(results: seq<Result<Planned>>, k: nat, configFlag: bool)
    requires k <= |results| && PlanInTurn(results[..k], configFlag).Failure?
    ensures PlanInTurn(results, configFlag) == PlanInTurn(results[..k], configFlag)
    decreases |results|
  {
    if k < |results| {
      var prefix := results[..|results| - 1];
      assert prefix[..k] == results[..k];
      PlanInTurnFailureStays(prefix, k, configFlag);
    } else {
      assert results[..k] == results;
    }
  }

  /** Planning one face more: with the first i faces planned, face i either
      ends the planning with its exception or adds its layout and sets the
      flag. */
  lemma {:induction false} PlanInTurnExtend(all: seq<Result<Planned>>, i: nat, configFlag: bool, layouts: seq<Layout<ComplexElement>>, flag: bool)
    requires i < |all| && PlanInTurn(all[..i], configFlag) == Success((layouts, flag))
    ensures all[i].Failure? ==> PlanInTurn(all, configFlag) == Failure(all[i].error)
    ensures all[i].Success? ==> PlanInTurn(all[..i + 1], configFlag) == Success((layouts + [all[i].value.layout], all[i].value.addedBoundaryWall))
  {
    assert all[..i + 1][..i] == all[..i];
    if all[i].Failure? {
      PlanInTurnFailureStays(all, i + 1, configFlag);
    }
  }
}
