/**
 * The complex-building planner: a building whose lower part (up to the
 * boundary height) is of one building type and whose higher part is of
 * another, each face laid out column by column under a shadow wall. The
 * planner keeps the floor heights and counts it derives from the
 * configuration in fields, and records in the configuration's flag whether
 * the column being planned has passed the boundary wall. Each method is
 * proved to build exactly the layout the specification functions of the
 * column and facade modules describe.
 */
module ComplexPlanner {
  import opened Wrappers
  import opened LayoutTree
  import opened FloorHeight
  import opened Facade
  import opened BuildingConfig
  import opened ComplexElements
  import opened ComplexStep
  import opened ComplexColumn
  import opened ComplexFacade

  class ComplexPlanner {
    var floorHeight: int
    var higherFloorHeight: int
    var lowerFloorHeight: int
    var numFloorWithoutEntrance: int
    var numHigherFloor: int
    var numLowerFloorWithoutEntrance: int
    /** The texture of the shadow wall, chosen when planning starts. */
    var shadowWallName: string

    constructor()
      ensures Floors() == FloorPlan(0, 0, 0, 0, 0, 0) && shadowWallName == ""
    {
      floorHeight := 0;
      higherFloorHeight := 0;
      lowerFloorHeight := 0;
      numFloorWithoutEntrance := 0;
      numHigherFloor := 0;
      numLowerFloorWithoutEntrance := 0;
      shadowWallName := "";
    }

    /** The floor heights and counts held in the fields. */
    function Floors(): FloorPlan
      reads this
    {
      FloorPlan(floorHeight, higherFloorHeight, lowerFloorHeight, numFloorWithoutEntrance, numHigherFloor, numLowerFloorWithoutEntrance)
    }

    /** Adds the boundary wall to a column: the lower part's panel up to the
        boundary height when allowed, then the boundary depression wall, one
        unit high or as high as what is left. */
    method AddBoundaryWallRows(rows: seq<Layout<ComplexElement>>, panel: PanelType, canAddLowerFloor: bool, boundaryHeight: int,
                               s: StepState, sizes: seq<PanelSize>, offset: real, from: int, to: int)
      returns (rows': seq<Layout<ComplexElement>>, next: StepState)
      requires 0 <= from <= to <= |sizes|
      ensures var o := AddBoundaryWall(panel, canAddLowerFloor, boundaryHeight, s);
        rows' == rows + BandRows(sizes, from, to, offset, o.bands) && next == o.state
    {
      ghost var bands: seq<Band> := [];
      rows' := rows;
      var currentHeight := s.currentHeight;
      var remainingHeight := s.remainingHeight;
      if canAddLowerFloor {
        var remainingLowerBuildingHeight := boundaryHeight - currentHeight;
        var row := CreateHorizontal(sizes, from, to, remainingLowerBuildingHeight, offset, Panel(panel));
        rows' := rows' + [row];
        bands := [Band(PanelBand(panel), remainingLowerBuildingHeight)];
        remainingHeight := remainingHeight - remainingLowerBuildingHeight;
        currentHeight := currentHeight + remainingLowerBuildingHeight;
      }
      var wall: int;
      if DepressionWallHeight <= remainingHeight {
        wall := DepressionWallHeight;
      } else {
        wall := remainingHeight;
      }
      var row := CreateDepressionWallNormalFacadeHorizontal(sizes, from, to, wall, offset, false);
      BandRowsSnoc(sizes, from, to, offset, bands, Band(DepressionBand(true), wall));
      rows' := rows' + [row];
      bands := bands + [Band(DepressionBand(true), wall)];
      next := StepState(s.floorIndex, true, currentHeight + wall, remainingHeight - wall);
      assert bands == AddBoundaryWall(panel, canAddLowerFloor, boundaryHeight, s).bands;
      BandRowsAppend(sizes, from, to, offset, [], bands);
    }

    /**
     * One step of a column (CreateBuildingPlanner): the floor's panel, a band
     * filling the rest, or the boundary wall, as Step describes. The
     * configuration's flag is set to the column's boundary flag unless the
     * floor height is not positive or the building type is not handled.
     */
    method CreateBuildingPlanner(vertical: seq<Layout<ComplexElement>>, t: ComplexBuildingType, floorIndex: nat, addedBoundaryWall: bool,
                                 canAddLowerFloor: bool, stepFloorHeight: int, currentHeight: int, remainingHeight: int,
                                 sizes: seq<PanelSize>, offset: real, entranceHeight: int, from: int, to: int, config: Config)
      returns (r: Result<StepState>, rows: seq<Layout<ComplexElement>>)
      requires 0 <= from <= to <= |sizes|
      modifies config
      ensures SettingsOf(config) == old(SettingsOf(config))
      ensures var spec := Step(t, StepState(floorIndex, addedBoundaryWall, currentHeight, remainingHeight), canAddLowerFloor,
                               stepFloorHeight, config.buildingBoundaryHeight, config.spandrelHeight, entranceHeight);
        && (r.Success? <==> spec.Success?)
        && (r.Failure? ==> r.error == spec.error)
        && (r.Success? ==> r.value == spec.value.state && rows == vertical + BandRows(sizes, from, to, offset, spec.value.bands))
      ensures config.addedBoundaryWall == if r.Success? && 0 < stepFloorHeight then r.value.addedBoundaryWall else old(config.addedBoundaryWall)
    {
      var s := StepState(floorIndex, addedBoundaryWall, currentHeight, remainingHeight);
      rows := vertical;
      if stepFloorHeight <= 0 {
        BandRowsAppend(sizes, from, to, offset, [], []);
        return Success(s), rows;
      }
      var panel := PanelFor(t, floorIndex, stepFloorHeight, remainingHeight, config.spandrelHeight, entranceHeight);
      if panel.Failure? {
        return Failure(panel.error), rows;
      }
      var panelType := panel.value.panel;
      var panelHeight := panel.value.height;
      var next: StepState;
      if panelHeight <= remainingHeight {
        if !addedBoundaryWall && config.buildingBoundaryHeight <= currentHeight + panelHeight {
          rows, next := AddBoundaryWallRows(rows, panelType, canAddLowerFloor, config.buildingBoundaryHeight, s, sizes, offset, from, to);
        } else {
          var row := CreateHorizontal(sizes, from, to, panelHeight, offset, Panel(panelType));
          BandRowsSnoc(sizes, from, to, offset, [], Band(PanelBand(panelType), panelHeight));
          rows := rows + [row];
          next := s.(currentHeight := currentHeight + panelHeight, remainingHeight := remainingHeight - panelHeight);
        }
      } else {
        if !addedBoundaryWall && config.buildingBoundaryHeight <= currentHeight + remainingHeight {
          rows, next := AddBoundaryWallRows(rows, panelType, canAddLowerFloor, config.buildingBoundaryHeight, s, sizes, offset, from, to);
        } else {
          var row := CreateHorizontal(sizes, from, to, remainingHeight, offset, Panel(panelType));
          BandRowsSnoc(sizes, from, to, offset, [], Band(PanelBand(panelType), remainingHeight));
          rows := rows + [row];
          next := s.(currentHeight := currentHeight + remainingHeight, remainingHeight := 0);
        }
      }
      config.addedBoundaryWall := next.addedBoundaryWall;
      r := Success(next.(floorIndex := floorIndex + 1));
    }

    /** Stacks an apartment's floors: the first one always, then one more per
        floor after the first. */
    method AddCondominiumFloors(rows: seq<Layout<ComplexElement>>, sizes: seq<PanelSize>, from: int, to: int, height: int, offset: real, numFloor: int)
      returns (rows': seq<Layout<ComplexElement>>)
      requires 0 <= from <= to <= |sizes|
      ensures rows' == rows + BandRows(sizes, from, to, offset, Repeat(Band(PanelBand(SkyscraperCondominiumWindow), height), AtLeastOne(numFloor)))
    {
      var b := Band(PanelBand(SkyscraperCondominiumWindow), height);
      var row := CreateHorizontal(sizes, from, to, height, offset, Panel(SkyscraperCondominiumWindow));
      rows' := rows + [row];
      assert BandRows(sizes, from, to, offset, Repeat(b, 1)) == [row];
      var i := 1;
      while i < numFloor
        invariant 1 <= i && (i == 1 || i <= numFloor)
        invariant rows' == rows + BandRows(sizes, from, to, offset, Repeat(b, i))
      {
        row := CreateHorizontal(sizes, from, to, height, offset, Panel(SkyscraperCondominiumWindow));
        assert Repeat(b, i + 1) == Repeat(b, i) + [b];
        BandRowsSnoc(sizes, from, to, offset, Repeat(b, i), b);
        rows' := rows' + [row];
        i := i + 1;
      }
    }

    /** A round of the column loop for an apartment above the boundary wall:
        every floor that fits, at once. */
    method HigherApartmentRound(rows: seq<Layout<ComplexElement>>, st: IterState, sizes: seq<PanelSize>, offset: real,
                                entranceHeight: int, from: int, to: int, config: Config)
      returns (next: IterState, rows': seq<Layout<ComplexElement>>)
      requires 0 <= from <= to <= |sizes| && 0 < st.remainingHeight && st.configFlag == config.addedBoundaryWall
      requires Progressing(SettingsOf(config), Floors(), entranceHeight)
      requires TypeAt(SettingsOf(config), st.configFlag) == Apartment && st.addedBoundaryWall
      modifies config
      ensures SettingsOf(config) == old(SettingsOf(config))
      ensures var spec := IterStep(SettingsOf(config), Floors(), entranceHeight, st).value;
        next == spec.1 && rows' == rows + BandRows(sizes, from, to, offset, spec.0) && config.addedBoundaryWall == next.configFlag
    {
      ghost var s := SettingsOf(config);
      var numFloor := (config.buildingHeight - config.buildingBoundaryHeight - DepressionWallHeight) / higherFloorHeight;
      rows' := AddCondominiumFloors(rows, sizes, from, to, lowerFloorHeight, offset, numFloor);
      config.addedBoundaryWall := true;
      next := st.(configFlag := true, currentHeight := st.currentHeight + lowerFloorHeight * numFloor, remainingHeight := 0);
      assert IterStep(s, Floors(), entranceHeight, st) ==
        Success((Repeat(Band(PanelBand(SkyscraperCondominiumWindow), lowerFloorHeight), AtLeastOne(numFloor)), next));
    }

    /** The step of the higher floor height after an apartment's lower
        floors, as UpperStep describes. */
    method UpperApartmentStep(rows: seq<Layout<ComplexElement>>, mid: IterState, sizes: seq<PanelSize>, offset: real,
                              entranceHeight: int, from: int, to: int, config: Config)
      returns (next: IterState, rows': seq<Layout<ComplexElement>>)
      requires 0 <= from <= to <= |sizes|
      requires Progressing(SettingsOf(config), Floors(), entranceHeight)
      modifies config
      ensures SettingsOf(config) == old(SettingsOf(config))
      ensures var spec := UpperStep(SettingsOf(config), Floors(), entranceHeight, mid);
        next == spec.1 && rows' == rows + BandRows(sizes, from, to, offset, spec.0) && config.addedBoundaryWall == next.configFlag
    {
      var step;
      step, rows' := CreateBuildingPlanner(rows, Apartment, 0, false, false, higherFloorHeight, mid.currentHeight, mid.remainingHeight,
                                           sizes, offset, entranceHeight, from, to, config);
      next := mid.(configFlag := config.addedBoundaryWall, currentHeight := step.value.currentHeight, remainingHeight := step.value.remainingHeight);
    }

    /** A round of the column loop for an apartment below the boundary wall:
        the floors under the boundary at once, then one step of the higher
        floor height that reaches the boundary wall. */
    method LowerApartmentRound(rows: seq<Layout<ComplexElement>>, st: IterState, sizes: seq<PanelSize>, offset: real,
                               entranceHeight: int, from: int, to: int, config: Config)
      returns (next: IterState, rows': seq<Layout<ComplexElement>>)
      requires 0 <= from <= to <= |sizes|
      requires Progressing(SettingsOf(config), Floors(), entranceHeight)
      modifies config
      ensures SettingsOf(config) == old(SettingsOf(config))
      ensures var spec := LowerApartment(SettingsOf(config), Floors(), entranceHeight, st);
        next == spec.1 && rows' == rows + BandRows(sizes, from, to, offset, spec.0) && config.addedBoundaryWall == next.configFlag
    {
      ghost var s := SettingsOf(config);
      var numFloor := Min(config.buildingBoundaryHeight, config.buildingHeight) / lowerFloorHeight - 1;
      rows' := AddCondominiumFloors(rows, sizes, from, to, lowerFloorHeight, offset, numFloor);
      config.addedBoundaryWall := true;
      next := st.(configFlag := true, addedBoundaryWall := true,
                  currentHeight := st.currentHeight + lowerFloorHeight * numFloor,
                  remainingHeight := st.remainingHeight - lowerFloorHeight * numFloor);
      ghost var floors := LowerFloors(s, Floors(), st).0;
      assert LowerFloors(s, Floors(), st) == (floors, next);
      if config.buildingBoundaryHeight < config.buildingHeight {
        ghost var upper := UpperStep(s, Floors(), entranceHeight, next);
        next, rows' := UpperApartmentStep(rows', next, sizes, offset, entranceHeight, from, to, config);
        BandRowsAppend(sizes, from, to, offset, floors, upper.0);
      }
    }

    /**
     * One round of the column loop, for the loop's variables `st` (whose
     * configuration flag is the configuration's own): the floors of the
     * building type the flag selects, as IterStep describes.
     */
    method IterRound(rows: seq<Layout<ComplexElement>>, st: IterState, sizes: seq<PanelSize>, offset: real,
                     entranceHeight: int, from: int, to: int, config: Config)
      returns (r: Result<IterState>, rows': seq<Layout<ComplexElement>>)
      requires 0 <= from <= to <= |sizes| && 0 < st.remainingHeight && st.configFlag == config.addedBoundaryWall
      requires Progressing(SettingsOf(config), Floors(), entranceHeight)
      modifies config
      ensures SettingsOf(config) == old(SettingsOf(config))
      ensures var spec := IterStep(SettingsOf(config), Floors(), entranceHeight, st);
        && (r.Success? <==> spec.Success?)
        && (r.Failure? ==> r.error == spec.error)
        && (r.Success? ==> r.value == spec.value.1 && rows' == rows + BandRows(sizes, from, to, offset, spec.value.0)
                           && config.addedBoundaryWall == r.value.configFlag)
    {
      var complexBuildingType := GetComplexBuildingType(config);
      var current := st.currentHeight;
      var remaining := st.remainingHeight;
      if complexBuildingType == Apartment {
        var next;
        if st.addedBoundaryWall {
          next, rows' := HigherApartmentRound(rows, st, sizes, offset, entranceHeight, from, to, config);
        } else {
          next, rows' := LowerApartmentRound(rows, st, sizes, offset, entranceHeight, from, to, config);
          assert IterStep(SettingsOf(config), Floors(), entranceHeight, st) == Success(LowerApartment(SettingsOf(config), Floors(), entranceHeight, st));
        }
        r := Success(next);
      } else if complexBuildingType == OfficeBuilding {
        var stepFloorHeight := if st.addedBoundaryWall then higherFloorHeight else floorHeight;
        var step;
        step, rows' := CreateBuildingPlanner(rows, OfficeBuilding, st.officeFloorIndex, st.addedBoundaryWall, true, stepFloorHeight,
                                             current, remaining, sizes, offset, entranceHeight, from, to, config);
        r := Success(st.(configFlag := step.value.addedBoundaryWall, addedBoundaryWall := step.value.addedBoundaryWall,
                         officeFloorIndex := step.value.floorIndex,
                         currentHeight := step.value.currentHeight, remainingHeight := step.value.remainingHeight));
      } else if complexBuildingType == CommercialBuilding {
        var stepFloorHeight := if st.addedBoundaryWall then higherFloorHeight else floorHeight;
        var step;
        step, rows' := CreateBuildingPlanner(rows, CommercialBuilding, st.commercialFloorIndex, st.addedBoundaryWall, true, stepFloorHeight,
                                             current, remaining, sizes, offset, entranceHeight, from, to, config);
        r := Success(st.(configFlag := step.value.addedBoundaryWall, addedBoundaryWall := step.value.addedBoundaryWall,
                         commercialFloorIndex := step.value.floorIndex,
                         currentHeight := step.value.currentHeight, remainingHeight := step.value.remainingHeight));
      } else {
        r, rows' := Failure(ArgumentOutOfRange), rows;
      }
    }

    /**
     * The column loop (CreateNormalFacadeVerticalIter): rounds until nothing
     * is left to stack, each by the building type the configuration's flag
     * selects, as Iter describes; the rows are collected in one vertical.
     */
    method CreateNormalFacadeVerticalIter(sizes: seq<PanelSize>, remainingHeight: int, currentHeight: int, offset: real,
                                          entranceHeight: int, from: int, to: int, config: Config)
      returns (r: Result<Layout<ComplexElement>>)
      requires 0 <= from <= to <= |sizes|
      requires Progressing(SettingsOf(config), Floors(), entranceHeight)
      modifies config
      ensures SettingsOf(config) == old(SettingsOf(config))
      ensures var spec := Iter(SettingsOf(config), Floors(), entranceHeight,
                               IterState(old(config.addedBoundaryWall), false, 0, 0, currentHeight, remainingHeight));
        && (r.Success? <==> spec.Success?)
        && (r.Failure? ==> r.error == spec.error)
        && (r.Success? ==> r.value == Vertical(BandRows(sizes, from, to, offset, spec.value.bands)) && config.addedBoundaryWall == spec.value.configFlag)
    {
      ghost var s := SettingsOf(config);
      ghost var f := Floors();
      ghost var start := IterState(config.addedBoundaryWall, false, 0, 0, currentHeight, remainingHeight);
      ghost var bands: seq<Band> := [];
      var rows: seq<Layout<ComplexElement>> := [];
      var officeFloorIndex: nat := 0;
      var commercialFloorIndex: nat := 0;
      var addedBoundaryWall := false;
      var current := currentHeight;
      var remaining := remainingHeight;
      PrependNothing(Iter(s, f, entranceHeight, start));
      while 0 < remaining
        invariant SettingsOf(config) == s
        invariant rows == BandRows(sizes, from, to, offset, bands)
        invariant Iter(s, f, entranceHeight, start) ==
          Prepend(bands, Iter(s, f, entranceHeight, IterState(config.addedBoundaryWall, addedBoundaryWall, officeFloorIndex, commercialFloorIndex, current, remaining)))
        decreases if addedBoundaryWall then 0 else 1, remaining,
          Stall(s, entranceHeight, IterState(config.addedBoundaryWall, addedBoundaryWall, officeFloorIndex, commercialFloorIndex, current, remaining))
      {
        var now := IterState(config.addedBoundaryWall, addedBoundaryWall, officeFloorIndex, commercialFloorIndex, current, remaining);
        var round;
        round, rows := IterRound(rows, now, sizes, offset, entranceHeight, from, to, config);
        if round.Failure? {
          return Failure(round.error);
        }
        ghost var stacked := IterStep(s, f, entranceHeight, now).value.0;
        BandRowsAppend(sizes, from, to, offset, bands, stacked);
        PrependPrepend(bands, stacked, Iter(s, f, entranceHeight, round.value));
        bands := bands + stacked;
        addedBoundaryWall := round.value.addedBoundaryWall;
        officeFloorIndex := round.value.officeFloorIndex;
        commercialFloorIndex := round.value.commercialFloorIndex;
        current := round.value.currentHeight;
        remaining := round.value.remainingHeight;
      }
      r := Success(Vertical(rows));
    }

    /** The commercial base above a normal column's ground floor, row by row
        over [from, to), and the height it lifts the column by. */
    method AddCommercialBase(rows: seq<Layout<ComplexElement>>, sizes: seq<PanelSize>, from: int, to: int, offset: real, remainingHeight: int)
      returns (rows': seq<Layout<ComplexElement>>, lifted: int)
      requires 0 <= from <= to <= |sizes|
      ensures rows' == rows + BandRows(sizes, from, to, offset, CommercialBase(remainingHeight))
      ensures lifted == BandsHeight(CommercialBase(remainingHeight))
    {
      rows', lifted := rows, 0;
      ghost var bands: seq<Band> := [];
      if 0 < remainingHeight - SmallWallHeight {
        var frame := CreateHorizontal(sizes, from, to, SmallWallHeight, offset, Panel(CommercialWallWithFrame));
        rows', lifted := rows' + [frame], SmallWallHeight;
        bands := [Band(PanelBand(CommercialWallWithFrame), SmallWallHeight)];
        if 0 < remainingHeight - SmallWallHeight - DepressionWallHeight {
          var wall := CreateDepressionWallNormalFacadeHorizontal(sizes, from, to, DepressionWallHeight, offset, true);
          rows', lifted := rows' + [wall], SmallWallHeight + DepressionWallHeight;
          bands := bands + [Band(DepressionBand(false), DepressionWallHeight)];
          assert bands[1..][1..] == [];
          assert BandsHeight(bands[1..]) == DepressionWallHeight;
        } else {
          assert bands[1..] == [];
        }
        assert BandsHeight(bands) == lifted;
      }
      assert bands == CommercialBase(remainingHeight);
      assert rows' == rows + BandRows(sizes, from, to, offset, bands);
    }

    /** The ground floor of a normal column over [from, to), as NormalGround
        describes, row by row. */
    method CreateNormalGround(sizes: seq<PanelSize>, from: int, to: int, offset: real, config: Config)
      returns (r: Result<Ground>, rows: seq<Layout<ComplexElement>>)
      requires 0 <= from <= to <= |sizes|
      requires Ready(SettingsOf(config), Floors())
      ensures r == NormalGround(SettingsOf(config), Floors(), config.addedBoundaryWall)
      ensures r.Success? ==> rows == BandRows(sizes, from, to, offset, r.value.bands)
    {
      var entranceHeight := ColumnEntranceHeight(SettingsOf(config), Floors());
      var complexBuildingType := GetComplexBuildingType(config);
      if complexBuildingType == Apartment {
        var buildingHeight := Min(config.buildingBoundaryHeight, config.buildingHeight);
        var numFloorWithoutEntrance := buildingHeight / lowerFloorHeight - 1;
        entranceHeight := buildingHeight - numFloorWithoutEntrance * lowerFloorHeight;
        var row := CreateHorizontal(sizes, from, to, entranceHeight, offset, Panel(SkyscraperCondominiumWall));
        rows := [row];
        r := Success(Ground([Band(PanelBand(SkyscraperCondominiumWall), entranceHeight)], entranceHeight, entranceHeight));
      } else if complexBuildingType == OfficeBuilding {
        var row := CreateHorizontal(sizes, from, to, entranceHeight, offset, Panel(OfficeFullWindow));
        rows := [row];
        r := Success(Ground([Band(PanelBand(OfficeFullWindow), entranceHeight)], entranceHeight, entranceHeight));
      } else if complexBuildingType == CommercialBuilding {
        var row := CreateHorizontal(sizes, from, to, entranceHeight, offset, Panel(CommercialFullWindow));
        var lifted;
        rows, lifted := AddCommercialBase([row], sizes, from, to, offset, config.buildingHeight - entranceHeight);
        var window := [Band(PanelBand(CommercialFullWindow), entranceHeight)];
        BandRowsAppend(sizes, from, to, offset, window, CommercialBase(config.buildingHeight - entranceHeight));
        r := Success(Ground(window + CommercialBase(config.buildingHeight - entranceHeight), entranceHeight, entranceHeight + lifted));
      } else {
        r, rows := Failure(ArgumentOutOfRange), [];
      }
    }

    /**
     * A normal column over [from, to) (CreateNormalFacadeVertical): the
     * ground floor of the building type at the configuration's flag, then the
     * column loop, its slots widened by their rounded share of the remainder
     * width, as NormalColumn describes. A hotel is an exception.
     */
    method CreateNormalFacadeVertical(sizes: seq<PanelSize>, remainderWidth: real, from: int, to: int, config: Config)
      returns (r: Result<Layout<ComplexElement>>)
      requires 0 <= from <= to <= |sizes|
      requires Ready(SettingsOf(config), Floors())
      modifies config
      ensures SettingsOf(config) == old(SettingsOf(config))
      ensures var spec := NormalColumn(SettingsOf(config), Floors(), sizes, remainderWidth, from, to, old(config.addedBoundaryWall));
        && (r.Success? <==> spec.Success?)
        && (r.Failure? ==> r.error == spec.error)
        && (r.Success? ==> r.value == spec.value.layout && config.addedBoundaryWall == spec.value.addedBoundaryWall)
    {
      var floorWidthOffset := ColumnOffset(remainderWidth, from, to);
      var ground, rows := CreateNormalGround(sizes, from, to, floorWidthOffset, config);
      if ground.Failure? {
        return Failure(ground.error);
      }
      var upper := CreateNormalFacadeVerticalIter(sizes, config.buildingHeight - ground.value.start, ground.value.start, floorWidthOffset,
                                                  ground.value.entranceHeight, from, to, config);
      if upper.Failure? {
        return Failure(upper.error);
      }
      r := Success(Vertical(rows + [upper.value]));
    }

    /**
     * The apartment entrance column (CreateSkyscraperCondominiumEntranceVertical),
     * as CondominiumEntranceColumn describes: the ground floor across the
     * whole face, then the column loop over the entrance slot when the
     * building rises above the entrance floor. An entrance slot past the
     * last slot is an exception.
     */
    method CreateSkyscraperCondominiumEntranceVertical(sizes: seq<PanelSize>, remainderWidth: int, floorWidthOffset: real,
                                                       entranceIndexInterval: int, config: Config)
      returns (r: Result<Layout<ComplexElement>>)
      requires 0 <= entranceIndexInterval <= |sizes|
      requires Ready(SettingsOf(config), Floors())
      modifies config
      ensures SettingsOf(config) == old(SettingsOf(config))
      ensures r.Success? ==> entranceIndexInterval < |sizes|
      ensures var spec := CondominiumEntranceColumn(SettingsOf(config), Floors(), sizes, remainderWidth, floorWidthOffset,
                                                    entranceIndexInterval, old(config.addedBoundaryWall));
        && (r.Success? <==> spec.Success?)
        && (r.Failure? ==> r.error == spec.error)
        && (r.Success? ==> r.value == spec.value.layout && config.addedBoundaryWall == spec.value.addedBoundaryWall)
    {
      var idx := entranceIndexInterval;
      if idx == |sizes| {
        return Failure(ArgumentOutOfRange);
      }
      var entranceHeight := ColumnEntranceHeight(SettingsOf(config), Floors());
      var wallWidthOffset := Max(MinCondominiumWallWidthOffset, remainderWidth);
      var wallAveWidthOffset := wallWidthOffset as real / |sizes| as real;
      var slotOffset := floorWidthOffset - wallAveWidthOffset;
      var endWall := Element(Panel(SkyscraperCondominiumWall), wallWidthOffset as real * 0.5, entranceHeight);
      var left := CreateHorizontal(sizes, 0, idx, entranceHeight, slotOffset, Panel(SkyscraperCondominiumWall));
      var window := Element(CondominiumEntranceWindow(WindowTopOffset(entranceHeight)), SizeValue(sizes[idx]) as real + slotOffset, entranceHeight);
      var right := CreateHorizontal(sizes, idx + 1, |sizes|, entranceHeight, slotOffset, Panel(SkyscraperCondominiumWall));
      var ground := Horizontal([endWall, left, window, right, endWall]);
      assert left == Horizontal(PanelRow(sizes, 0, idx, entranceHeight, slotOffset, Panel(SkyscraperCondominiumWall)));
      assert right == Horizontal(PanelRow(sizes, idx + 1, |sizes|, entranceHeight, slotOffset, Panel(SkyscraperCondominiumWall)));
      assert [endWall, left, window, right, endWall] == [endWall, left] + [window] + [right, endWall];
      var remainingHeight := config.buildingHeight - entranceHeight;
      ghost var spec := CondominiumEntranceColumn(SettingsOf(config), Floors(), sizes, remainderWidth, floorWidthOffset, idx, config.addedBoundaryWall);
      if 0 < remainingHeight {
        ghost var col := Iter(SettingsOf(config), Floors(), entranceHeight,
                              IterState(config.addedBoundaryWall, false, 0, 0, entranceHeight, remainingHeight));
        assert col.Failure? ==> spec == Failure(col.error);
        assert col.Success? ==> spec == Success(Planned(Vertical([ground, Vertical(BandRows(sizes, idx, idx + 1, floorWidthOffset, col.value.bands))]),
                                                        col.value.configFlag));
        var upper := CreateNormalFacadeVerticalIter(sizes, remainingHeight, entranceHeight, floorWidthOffset, entranceHeight, idx, idx + 1, config);
        if upper.Failure? {
          return Failure(upper.error);
        }
        r := Success(Vertical([ground, upper.value]));
      } else {
        assert spec == Success(Planned(Vertical([ground]), config.addedBoundaryWall));
        r := Success(Vertical([ground]));
      }
    }

    /** The office entrance column (CreateOfficeEntranceVertical), as
        OfficeEntranceColumn describes. */
    method CreateOfficeEntranceVertical(sizes: seq<PanelSize>, floorWidthOffset: real, entranceIndexInterval: int, config: Config)
      returns (r: Result<Layout<ComplexElement>>)
      requires 0 <= entranceIndexInterval <= |sizes|
      requires Ready(SettingsOf(config), Floors())
      modifies config
      ensures SettingsOf(config) == old(SettingsOf(config))
      ensures r.Success? ==> entranceIndexInterval < |sizes|
      ensures var spec := OfficeEntranceColumn(SettingsOf(config), Floors(), sizes, floorWidthOffset, entranceIndexInterval, old(config.addedBoundaryWall));
        && (r.Success? <==> spec.Success?)
        && (r.Failure? ==> r.error == spec.error)
        && (r.Success? ==> r.value == spec.value.layout && config.addedBoundaryWall == spec.value.addedBoundaryWall)
    {
      var idx := entranceIndexInterval;
      if idx == |sizes| {
        return Failure(ArgumentOutOfRange);
      }
      var entranceHeight := ColumnEntranceHeight(SettingsOf(config), Floors());
      var width := SizeValue(sizes[idx]) as real + floorWidthOffset;
      var window := Element(OfficeEntranceWindow, width, EntranceWindowHeight);
      var fullWindow := Element(Panel(OfficeFullWindow), width, entranceHeight - EntranceWindowHeight);
      ghost var col := Iter(SettingsOf(config), Floors(), entranceHeight,
                            IterState(config.addedBoundaryWall, false, 0, 0, entranceHeight, config.buildingHeight - entranceHeight));
      ghost var spec := OfficeEntranceColumn(SettingsOf(config), Floors(), sizes, floorWidthOffset, idx, config.addedBoundaryWall);
      assert col.Failure? ==> spec == Failure(col.error);
      assert col.Success? ==> spec == Success(Planned(Vertical([window, fullWindow, Vertical(BandRows(sizes, idx, idx + 1, floorWidthOffset, col.value.bands))]),
                                                      col.value.configFlag));
      var upper := CreateNormalFacadeVerticalIter(sizes, config.buildingHeight - entranceHeight, entranceHeight, floorWidthOffset,
                                                  entranceHeight, idx, idx + 1, config);
      if upper.Failure? {
        return Failure(upper.error);
      }
      r := Success(Vertical([window, fullWindow, upper.value]));
    }

    /** The commercial base above the entrance, element by element, and the
        height it lifts the column by. */
    method AddCommercialEntranceBase(vertical: seq<Layout<ComplexElement>>, width: real, positionType: PositionType, remainingHeight: int)
      returns (vertical': seq<Layout<ComplexElement>>, lifted: int)
      ensures vertical' == vertical + BaseElements(CommercialBase(remainingHeight), width, positionType)
      ensures lifted == BandsHeight(CommercialBase(remainingHeight))
    {
      vertical', lifted := vertical, 0;
      ghost var frame := Element(Panel(CommercialWallWithFrame), width, SmallWallHeight);
      ghost var wall := Element(DepressionWall(positionType, false), width, DepressionWallHeight);
      ghost var bands: seq<Band> := [];
      if 0 < remainingHeight - SmallWallHeight {
        vertical', lifted := vertical' + [Element(Panel(CommercialWallWithFrame), width, SmallWallHeight)], SmallWallHeight;
        bands := [Band(PanelBand(CommercialWallWithFrame), SmallWallHeight)];
        if 0 < remainingHeight - SmallWallHeight - DepressionWallHeight {
          vertical', lifted := vertical' + [Element(DepressionWall(positionType, false), width, DepressionWallHeight)], SmallWallHeight + DepressionWallHeight;
          bands := bands + [Band(DepressionBand(false), DepressionWallHeight)];
          assert bands[1..][1..] == [];
          assert BandsHeight(bands[1..][1..]) == 0;
          assert BandsHeight(bands[1..]) == DepressionWallHeight;
          assert BaseElements(bands, width, positionType) == [frame, wall];
        } else {
          assert bands[1..] == [];
          assert BaseElements(bands, width, positionType) == [frame];
        }
        assert BandsHeight(bands) == lifted;
      }
      assert bands == CommercialBase(remainingHeight);
      assert vertical' == vertical + BaseElements(bands, width, positionType);
    }

    /** The commercial entrance column (CreateCommercialEntranceVertical), as
        CommercialEntranceColumn describes: its base is single elements of the
        entrance slot's width. */
    method CreateCommercialEntranceVertical(sizes: seq<PanelSize>, floorWidthOffset: real, entranceIndexInterval: int,
                                            noLeftLayout: bool, noRightLayout: bool, config: Config)
      returns (r: Result<Layout<ComplexElement>>)
      requires 0 <= entranceIndexInterval <= |sizes|
      requires Ready(SettingsOf(config), Floors())
      modifies config
      ensures SettingsOf(config) == old(SettingsOf(config))
      ensures r.Success? ==> entranceIndexInterval < |sizes|
      ensures var spec := CommercialEntranceColumn(SettingsOf(config), Floors(), sizes, floorWidthOffset, entranceIndexInterval,
                                                   noLeftLayout, noRightLayout, old(config.addedBoundaryWall));
        && (r.Success? <==> spec.Success?)
        && (r.Failure? ==> r.error == spec.error)
        && (r.Success? ==> r.value == spec.value.layout && config.addedBoundaryWall == spec.value.addedBoundaryWall)
    {
      var idx := entranceIndexInterval;
      var positionType := EntrancePosition(noLeftLayout, noRightLayout);
      if idx == |sizes| {
        return Failure(ArgumentOutOfRange);
      }
      var entranceHeight := ColumnEntranceHeight(SettingsOf(config), Floors());
      var width := SizeValue(sizes[idx]) as real + floorWidthOffset;
      var vertical := [Element(CommercialEntranceWindow, width, EntranceWindowHeight),
                       Element(Panel(CommercialFullWindow), width, entranceHeight - EntranceWindowHeight)];
      var lifted;
      vertical, lifted := AddCommercialEntranceBase(vertical, width, positionType, config.buildingHeight - entranceHeight);
      var remainingHeight := config.buildingHeight - entranceHeight - lifted;
      var currentHeight := entranceHeight + lifted;
      ghost var col := Iter(SettingsOf(config), Floors(), entranceHeight,
                            IterState(config.addedBoundaryWall, false, 0, 0, currentHeight, remainingHeight));
      ghost var spec := CommercialEntranceColumn(SettingsOf(config), Floors(), sizes, floorWidthOffset, idx,
                                                 noLeftLayout, noRightLayout, config.addedBoundaryWall);
      assert col.Failure? ==> spec == Failure(col.error);
      assert col.Success? ==> spec == Success(Planned(Vertical(vertical + [Vertical(BandRows(sizes, idx, idx + 1, floorWidthOffset, col.value.bands))]),
                                                      col.value.configFlag));
      var upper := CreateNormalFacadeVerticalIter(sizes, remainingHeight, currentHeight, floorWidthOffset, entranceHeight, idx, idx + 1, config);
      if upper.Failure? {
        return Failure(upper.error);
      }
      r := Success(Vertical(vertical + [upper.value]));
    }

    /** The normal column right of the entrance slot, the flag cleared
        first, joined with the left and entrance columns. */
    method AddRightColumn(sizes: seq<PanelSize>, floorWidthOffset: real, entranceIndexInterval: int,
                          left: Layout<ComplexElement>, middle: Layout<ComplexElement>, config: Config)
      returns (r: Result<Layout<ComplexElement>>)
      requires 0 <= entranceIndexInterval < |sizes|
      requires Ready(SettingsOf(config), Floors())
      modifies config
      ensures SettingsOf(config) == old(SettingsOf(config))
      ensures var spec := NormalColumn(SettingsOf(config), Floors(), sizes, floorWidthOffset * (|sizes| - (entranceIndexInterval + 1)) as real,
                                       entranceIndexInterval + 1, |sizes|, false);
        && (r.Success? <==> spec.Success?)
        && (r.Failure? ==> r.error == spec.error)
        && (r.Success? ==> r.value == Horizontal([left, middle, spec.value.layout]) && config.addedBoundaryWall == spec.value.addedBoundaryWall)
    {
      var idx := entranceIndexInterval;
      config.addedBoundaryWall := false;
      var right := CreateNormalFacadeVertical(sizes, floorWidthOffset * (|sizes| - idx - 1) as real, idx + 1, |sizes|, config);
      if right.Failure? {
        return Failure(right.error);
      }
      r := Success(Horizontal([left, middle, right.value]));
    }

    /** The office or commercial entrance facade's columns: a normal column
        left of the entrance slot, the entrance column and a normal column
        right of it, the flag cleared before each, as ColumnsAroundEntrance
        describes. */
    method CreateColumnsAroundEntrance(sizes: seq<PanelSize>, floorWidthOffset: real, entranceIndexInterval: int,
                                       noLeftLayout: bool, noRightLayout: bool, config: Config)
      returns (r: Result<Layout<ComplexElement>>)
      requires 0 <= entranceIndexInterval <= |sizes|
      requires Ready(SettingsOf(config), Floors())
      requires OfficeOrCommercial(GetComplexBuildingType(config))
      modifies config
      ensures SettingsOf(config) == old(SettingsOf(config))
      ensures var spec := ColumnsAroundEntrance(SettingsOf(config), Floors(), sizes, floorWidthOffset, entranceIndexInterval,
                                                noLeftLayout, noRightLayout, TypeAt(SettingsOf(config), old(config.addedBoundaryWall)));
        && (r.Success? <==> spec.Success?)
        && (r.Failure? ==> r.error == spec.error)
        && (r.Success? ==> r.value == spec.value.layout && config.addedBoundaryWall == spec.value.addedBoundaryWall)
    {
      var idx := entranceIndexInterval;
      ghost var s, f := SettingsOf(config), Floors();
      var complexBuildingType := GetComplexBuildingType(config);
      ghost var leftSpec := NormalColumn(s, f, sizes, floorWidthOffset * idx as real, 0, idx, false);
      ghost var middleSpec := if complexBuildingType == OfficeBuilding then OfficeEntranceColumn(s, f, sizes, floorWidthOffset, idx, false)
                              else CommercialEntranceColumn(s, f, sizes, floorWidthOffset, idx, noLeftLayout, noRightLayout, false);
      ghost var spec := ColumnsAroundEntrance(s, f, sizes, floorWidthOffset, idx, noLeftLayout, noRightLayout, complexBuildingType);
      assert spec == (var l :- leftSpec; var m :- middleSpec; SideColumns(s, f, sizes, floorWidthOffset, idx, l, m));
      config.addedBoundaryWall := false;
      var left := CreateNormalFacadeVertical(sizes, floorWidthOffset * idx as real, 0, idx, config);
      if left.Failure? {
        return Failure(left.error);
      }
      config.addedBoundaryWall := false;
      var middle;
      if complexBuildingType == OfficeBuilding {
        middle := CreateOfficeEntranceVertical(sizes, floorWidthOffset, idx, config);
      } else {
        middle := CreateCommercialEntranceVertical(sizes, floorWidthOffset, idx, noLeftLayout, noRightLayout, config);
      }
      if middle.Failure? {
        return Failure(middle.error);
      }
      assert spec == SideColumns(s, f, sizes, floorWidthOffset, idx, leftSpec.value, middleSpec.value);
      r := AddRightColumn(sizes, floorWidthOffset, idx, left.value, middle.value, config);
    }

    /**
     * The entrance facade's columns (CreateEntranceVertical), by the
     * building type at the configuration's flag, as EntranceVertical
     * describes: an apartment's entrance column alone, or an office's or
     * commercial building's normal column left of the entrance slot, its
     * entrance column and a normal column right of it, the flag cleared
     * before each column. A hotel is an exception.
     */
    method CreateEntranceVertical(sizes: seq<PanelSize>, remainderWidth: int, floorWidthOffset: real, entranceIndexInterval: int,
                                  noLeftLayout: bool, noRightLayout: bool, config: Config)
      returns (r: Result<Layout<ComplexElement>>)
      requires 0 <= entranceIndexInterval <= |sizes|
      requires Ready(SettingsOf(config), Floors())
      modifies config
      ensures SettingsOf(config) == old(SettingsOf(config))
      ensures var spec := EntranceVertical(SettingsOf(config), Floors(), sizes, remainderWidth, floorWidthOffset, entranceIndexInterval,
                                           noLeftLayout, noRightLayout, old(config.addedBoundaryWall));
        && (r.Success? <==> spec.Success?)
        && (r.Failure? ==> r.error == spec.error)
        && (r.Success? ==> r.value == spec.value.layout && config.addedBoundaryWall == spec.value.addedBoundaryWall)
    {
      var idx := entranceIndexInterval;
      ghost var s, f := SettingsOf(config), Floors();
      ghost var spec := EntranceVertical(s, f, sizes, remainderWidth, floorWidthOffset, idx, noLeftLayout, noRightLayout, config.addedBoundaryWall);
      var complexBuildingType := GetComplexBuildingType(config);
      if complexBuildingType == Apartment {
        ghost var column := CondominiumEntranceColumn(s, f, sizes, remainderWidth, floorWidthOffset, idx, false);
        assert spec == (var c :- column; Success(Planned(Horizontal([c.layout]), c.addedBoundaryWall)));
        config.addedBoundaryWall := false;
        var entrance := CreateSkyscraperCondominiumEntranceVertical(sizes, remainderWidth, floorWidthOffset, idx, config);
        if entrance.Failure? {
          return Failure(entrance.error);
        }
        r := Success(Horizontal([entrance.value]));
      } else if complexBuildingType == OfficeBuilding || complexBuildingType == CommercialBuilding {
        assert spec == ColumnsAroundEntrance(s, f, sizes, floorWidthOffset, idx, noLeftLayout, noRightLayout, complexBuildingType);
        r := CreateColumnsAroundEntrance(sizes, floorWidthOffset, idx, noLeftLayout, noRightLayout, config);
      } else {
        r := Failure(ArgumentOutOfRange);
      }
    }

    /** The entrance facade (PlanEntranceFacade): the edge divided into
        slots, the entrance at the middle slot (the left one of two middle
        slots), as EntranceFacade describes for the edge's slots. */
    method PlanEntranceFacade(facadeWidth: int, config: Config, leftIsConvex: bool, rightIsConvex: bool, draws: seq<nat>)
      returns (r: Result<Layout<ComplexElement>>)
      requires Ready(SettingsOf(config), Floors())
      modifies config
      ensures SettingsOf(config) == old(SettingsOf(config))
      ensures var e := Edge(facadeWidth, leftIsConvex, rightIsConvex);
              var spec := EntranceFacade(SettingsOf(config), Floors(), FaceSizes(e), FaceRemainder(e), old(config.addedBoundaryWall));
        r == LayoutOf(spec) && (spec.Success? ==> config.addedBoundaryWall == spec.value.addedBoundaryWall)
    {
      var panelSizes, remainderWidth := DivideFacade(facadeWidth, leftIsConvex, rightIsConvex, draws);
      ghost var e := Edge(facadeWidth, leftIsConvex, rightIsConvex);
      FaceSlots(e, panelSizes);
      assert panelSizes == FaceSizes(e) && remainderWidth == FaceRemainder(e);
      var entranceIndexInterval := EntranceIndex(|panelSizes|);
      var floorWidthOffset := EntranceOffset(remainderWidth, |panelSizes|);
      ghost var s, f, flag := SettingsOf(config), Floors(), config.addedBoundaryWall;
      ghost var spec := EntranceFacade(s, f, FaceSizes(e), FaceRemainder(e), flag);
      ghost var inner := EntranceVertical(s, f, panelSizes, remainderWidth, floorWidthOffset, entranceIndexInterval,
                                          0 == entranceIndexInterval, entranceIndexInterval + 1 == |panelSizes|, flag);
      assert inner.Failure? ==> spec == Failure(inner.error);
      assert inner.Success? ==> spec == Success(Planned(Horizontal([inner.value.layout]), inner.value.addedBoundaryWall));
      var v := CreateEntranceVertical(panelSizes, remainderWidth, floorWidthOffset, entranceIndexInterval,
                                      0 == entranceIndexInterval, entranceIndexInterval + 1 == |panelSizes|, config);
      if v.Failure? {
        return Failure(v.error);
      }
      r := Success(Horizontal([v.value]));
    }

    /** An ordinary facade (PlanNormalFacade): one normal column over all
        of the edge's slots, as NormalFacade describes. */
    method PlanNormalFacade(facadeWidth: int, config: Config, leftIsConvex: bool, rightIsConvex: bool, draws: seq<nat>)
      returns (r: Result<Layout<ComplexElement>>)
      requires Ready(SettingsOf(config), Floors())
      modifies config
      ensures SettingsOf(config) == old(SettingsOf(config))
      ensures var e := Edge(facadeWidth, leftIsConvex, rightIsConvex);
              var spec := NormalFacade(SettingsOf(config), Floors(), FaceSizes(e), FaceRemainder(e), old(config.addedBoundaryWall));
        r == LayoutOf(spec) && (spec.Success? ==> config.addedBoundaryWall == spec.value.addedBoundaryWall)
    {
      var panelSizes, remainderWidth := DivideFacade(facadeWidth, leftIsConvex, rightIsConvex, draws);
      FaceSlots(Edge(facadeWidth, leftIsConvex, rightIsConvex), panelSizes);
      r := CreateNormalFacadeVertical(panelSizes, remainderWidth as real, 0, |panelSizes|, config);
    }

    /** Chooses the shadow wall's texture by the lower part's building type
        (SetupConstructors); a hotel is an exception and changes nothing. */
    method SetupConstructors(config: Config) returns (fault: Option<Fault>)
      modifies this
      ensures Floors() == old(Floors())
      ensures var name := ShadowWallName(config.lowerFloorBuildingType);
        && (fault.Some? <==> name.Failure?)
        && (fault.Some? ==> fault.value == name.error && shadowWallName == old(shadowWallName))
        && (fault.None? ==> shadowWallName == name.value)
    {
      fault := None;
      match config.lowerFloorBuildingType {
        case Apartment =>
          shadowWallName := "SkyscraperCondominiumWallTextured";
        case OfficeBuilding =>
          shadowWallName := "OfficeBuildingWallTextured";
        case CommercialBuilding =>
          shadowWallName := "CommercialBuildingWallTextured";
        case Hotel =>
          fault := Some(ArgumentOutOfRange);
      }
    }

    /** The floor heights of the whole building, of its part above the
        boundary wall and of its part below, and the floor counts. */
    method SearchFloors(config: Config)
      modifies this
      ensures PlannedFloors(SettingsOf(config), Floors())
      ensures shadowWallName == old(shadowWallName)
    {
      floorHeight := SearchFloorHeight(config.buildingHeight);
      higherFloorHeight := SearchFloorHeight(config.buildingHeight - config.buildingBoundaryHeight - DepressionWallHeight);
      lowerFloorHeight := SearchFloorHeight(Min(config.buildingBoundaryHeight, config.buildingHeight));
      numFloorWithoutEntrance := config.buildingHeight / floorHeight - 1;
      numHigherFloor := Max(0, (config.buildingHeight - config.buildingBoundaryHeight - DepressionWallHeight) / higherFloorHeight);
      numLowerFloorWithoutEntrance := Max(0, config.buildingBoundaryHeight / lowerFloorHeight - 1);
    }

    /** Face i: the shadow wall above the face's facade, the entrance facade
        on face 2, as Face describes. */
    method PlanFace(i: int, edge: Edge, draws: seq<nat>, config: Config) returns (r: Result<Layout<ComplexElement>>)
      requires 0 <= i < 4 && !config.addedBoundaryWall
      requires Ready(SettingsOf(config), Floors())
      modifies config
      ensures SettingsOf(config) == old(SettingsOf(config))
      ensures var spec := Face(i, edge, SettingsOf(config), Floors(), shadowWallName);
        && (r.Success? <==> spec.Success?)
        && (r.Failure? ==> r.error == spec.error)
        && (r.Success? ==> r.value == spec.value.layout && config.addedBoundaryWall == spec.value.addedBoundaryWall)
    {
      var shadow := Element(ShadowWall(shadowWallName), (edge.width - ShadowWallOffset) as real, config.buildingHeight - ShadowWallOffset);
      ghost var s, f := SettingsOf(config), Floors();
      ghost var inner := if i == 2 then EntranceFacade(s, f, FaceSizes(edge), FaceRemainder(edge), false)
                         else NormalFacade(s, f, FaceSizes(edge), FaceRemainder(edge), false);
      assert Face(i, edge, s, f, shadowWallName)
          == if inner.Failure? then Failure(inner.error)
             else Success(Planned(Vertical([shadow, inner.value.layout]), inner.value.addedBoundaryWall));
      assert edge == Edge(edge.width, edge.leftIsConvex, edge.rightIsConvex);
      var facade;
      if i == 2 {
        facade := PlanEntranceFacade(edge.width, config, edge.leftIsConvex, edge.rightIsConvex, draws);
      } else {
        facade := PlanNormalFacade(edge.width, config, edge.leftIsConvex, edge.rightIsConvex, draws);
      }
      assert facade == LayoutOf(inner) && (inner.Success? ==> config.addedBoundaryWall == inner.value.addedBoundaryWall);
      if facade.Failure? {
        return Failure(facade.error);
      }
      r := Success(Vertical([shadow, facade.value]));
    }

    /**
     * Plans one layout per face of a rectangular footprint. The building
     * height is capped first and the shadow wall chosen (a hotel below the
     * boundary is an exception). For every edge the three floor heights and
     * the floor counts are searched again and the flag is cleared; the
     * first four faces are planned, the rest only reset the flag. The
     * first face that raises an exception ends the planning with it.
     */
    method Plan(edges: seq<Edge>, draws: seq<seq<nat>>, config: Config) returns (r: Result<seq<Layout<ComplexElement>>>)
      requires LoopsEnd(SettingsOf(config).(buildingHeight := ClampBuildingHeight(config.buildingHeight)))
      modifies this, config
      ensures SettingsOf(config) == old(SettingsOf(config)).(buildingHeight := ClampBuildingHeight(old(config.buildingHeight)))
      ensures config.lowerFloorBuildingType == Hotel ==>
        r == Failure(ArgumentOutOfRange) && Floors() == old(Floors()) && shadowWallName == old(shadowWallName)
      ensures config.lowerFloorBuildingType != Hotel ==> shadowWallName == ShadowWallName(config.lowerFloorBuildingType).value
      ensures |edges| == 0 ==> Floors() == old(Floors())
      ensures 0 < |edges| && config.lowerFloorBuildingType != Hotel ==>
        PlannedFloors(SettingsOf(config), Floors()) && Ready(SettingsOf(config), Floors())
      ensures config.lowerFloorBuildingType != Hotel ==>
        var faces := PlanInTurn(FaceResults(edges, SettingsOf(config), Floors(), shadowWallName), old(config.addedBoundaryWall));
        && (r.Success? <==> faces.Success?)
        && (r.Failure? ==> r.error == faces.error)
        && (r.Success? ==> r.value == faces.value.0)
        && (r.Success? && |edges| <= 4 ==> config.addedBoundaryWall == faces.value.1)
        && (r.Success? && 4 < |edges| ==> !config.addedBoundaryWall)
    {
      if MaxBuildingHeight < config.buildingHeight {
        config.buildingHeight := MaxBuildingHeight;
      }
      var fault := SetupConstructors(config);
      if fault.Some? {
        return Failure(fault.value);
      }
      r := PlanFaces(edges, draws, config);
      if r.Success? {
        SkipFaces(edges, config);
      }
    }

    /** Plan's loop over the first four edges: each face planned in turn
        after the floors are searched and the flag cleared, until the first
        exception. */
    method PlanFaces(edges: seq<Edge>, draws: seq<seq<nat>>, config: Config) returns (r: Result<seq<Layout<ComplexElement>>>)
      requires LoopsEnd(SettingsOf(config))
      modifies this, config
      ensures SettingsOf(config) == old(SettingsOf(config)) && shadowWallName == old(shadowWallName)
      ensures |edges| == 0 ==> Floors() == old(Floors()) && config.addedBoundaryWall == old(config.addedBoundaryWall)
      ensures 0 < |edges| ==> PlannedFloors(SettingsOf(config), Floors()) && Ready(SettingsOf(config), Floors())
      ensures var faces := PlanInTurn(FaceResults(edges, SettingsOf(config), Floors(), shadowWallName), old(config.addedBoundaryWall));
        && (r.Success? <==> faces.Success?)
        && (r.Failure? ==> r.error == faces.error)
        && (r.Success? ==> r.value == faces.value.0 && config.addedBoundaryWall == faces.value.1)
    {
      ghost var s := SettingsOf(config);
      ghost var flag := config.addedBoundaryWall;
      ghost var results: seq<Result<Planned>> := [];
      var layouts: seq<Layout<ComplexElement>> := [];
      var i := 0;
      while i < Min(|edges|, 4)
        invariant 0 <= i <= Min(|edges|, 4) && |results| == i
        invariant SettingsOf(config) == s && shadowWallName == old(shadowWallName)
        invariant i == 0 ==> Floors() == old(Floors()) && config.addedBoundaryWall == flag
        invariant 0 < i ==> PlannedFloors(s, Floors()) && Ready(s, Floors()) && results == FaceResults(edges, s, Floors(), shadowWallName)[..i]
        invariant PlanInTurn(results, flag) == Success((layouts, config.addedBoundaryWall))
      {
        var next;
        next, results := PlanNext(i, edges, if i < |draws| then draws[i] else [], config, s, flag, results, layouts);
        if next.Failure? {
          return Failure(next.error);
        }
        layouts := next.value;
        i := i + 1;
      }
      if 0 < |edges| {
        assert FaceResults(edges, s, Floors(), shadowWallName)[..i] == FaceResults(edges, s, Floors(), shadowWallName);
      }
      r := Success(layouts);
    }

    /** One round of PlanFaces: face i planned after the faces before it,
        the layouts so far extended by its layout, or the exception that
        ends the planning. */
    method PlanNext(i: int, edges: seq<Edge>, faceDraws: seq<nat>, config: Config, ghost s: Settings, ghost flag: bool,
                    ghost results: seq<Result<Planned>>, layouts: seq<Layout<ComplexElement>>)
      returns (r: Result<seq<Layout<ComplexElement>>>, ghost results': seq<Result<Planned>>)
      requires 0 <= i < Min(|edges|, 4) && |results| == i && SettingsOf(config) == s
      requires LoopsEnd(s)
      requires 0 < i ==> PlannedFloors(s, Floors()) && Ready(s, Floors()) && results == FaceResults(edges, s, Floors(), shadowWallName)[..i]
      requires PlanInTurn(results, flag) == Success((layouts, config.addedBoundaryWall))
      modifies this, config
      ensures SettingsOf(config) == s && shadowWallName == old(shadowWallName)
      ensures PlannedFloors(s, Floors()) && Ready(s, Floors())
      ensures 0 < i ==> Floors() == old(Floors())
      ensures results' == FaceResults(edges, s, Floors(), shadowWallName)[..i + 1]
      ensures r.Failure? ==> PlanInTurn(FaceResults(edges, s, Floors(), shadowWallName), flag) == Failure(r.error)
      ensures r.Success? ==> PlanInTurn(results', flag) == Success((r.value, config.addedBoundaryWall))
    {
      var face := PlanEdge(i, edges, faceDraws, config);
      ghost var all := FaceResults(edges, s, Floors(), shadowWallName);
      PlanInTurnExtend(all, i, flag, layouts, old(config.addedBoundaryWall));
      results' := all[..i + 1];
      if face.Failure? {
        return Failure(face.error), results';
      }
      r := Success(layouts + [face.value]);
    }

    /** Plan's loop over the edges past the fourth: the floors are searched
        again (they come out as before) and the flag is cleared. */
    method SkipFaces(edges: seq<Edge>, config: Config)
      requires 0 < |edges| ==> PlannedFloors(SettingsOf(config), Floors())
      modifies this, config
      ensures SettingsOf(config) == old(SettingsOf(config)) && shadowWallName == old(shadowWallName)
      ensures Floors() == old(Floors())
      ensures config.addedBoundaryWall == if 4 < |edges| then false else old(config.addedBoundaryWall)
    {
      for i := Min(|edges|, 4) to |edges|
        invariant SettingsOf(config) == old(SettingsOf(config)) && shadowWallName == old(shadowWallName)
        invariant Floors() == old(Floors())
        invariant config.addedBoundaryWall == if 4 < i then false else old(config.addedBoundaryWall)
      {
        ghost var before := Floors();
        SearchFloors(config);
        PlannedFloorsUnique(SettingsOf(config), before, Floors());
        config.addedBoundaryWall := false;
      }
    }


    /** One round of Plan's loop over the first four edges: the floor
        heights and counts searched again (they come out as before), the
        flag cleared, and face i planned. */
    method PlanEdge(i: int, edges: seq<Edge>, faceDraws: seq<nat>, config: Config) returns (r: Result<Layout<ComplexElement>>)
      requires 0 <= i < |edges| && i < 4
      requires LoopsEnd(SettingsOf(config))
      modifies this, config
      ensures SettingsOf(config) == old(SettingsOf(config)) && shadowWallName == old(shadowWallName)
      ensures PlannedFloors(SettingsOf(config), Floors()) && Ready(SettingsOf(config), Floors())
      ensures old(PlannedFloors(SettingsOf(config), Floors())) ==> Floors() == old(Floors())
      ensures var spec := FaceResults(edges, SettingsOf(config), Floors(), shadowWallName)[i];
        && (r.Success? <==> spec.Success?)
        && (r.Failure? ==> r.error == spec.error)
        && (r.Success? ==> r.value == spec.value.layout && config.addedBoundaryWall == spec.value.addedBoundaryWall)
    {
      ghost var before := Floors();
      SearchFloors(config);
      if PlannedFloors(SettingsOf(config), before) {
        PlannedFloorsUnique(SettingsOf(config), before, Floors());
      }
      PlannedReady(SettingsOf(config), Floors());
      config.addedBoundaryWall := false;
      r := PlanFace(i, edges[i], faceDraws, config);
    }
  }
}
