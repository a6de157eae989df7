/**
 * One step of a complex building's column: the panel the floor index and the
 * building type call for, and what the step stacks. Normally one band of
 * that panel (or, when it no longer fits, a band filling the rest); but the
 * first time the column would reach the boundary height between the lower
 * and the higher part, a band of the lower part's panel filling up to the
 * boundary and then a boundary depression wall instead. Heights are integers
 * in thousandths.
 */
module ComplexStep {
  import opened Wrappers
  import opened BuildingConfig
  import opened ComplexElements

  /** A floor's panel and the height of its band. */
  datatype FloorPanel = FloorPanel(panel: PanelType, height: int)

  /**
   * The panel of the floor with the given index. Apartments take a window
   * while a whole floor still fits and a wall otherwise; offices alternate a
   * spandrel band and a window band as tall as the entrance floor, both
   * rounded to two decimals; commercial buildings put a small window band
   * on every fourth floor and a framed wall band elsewhere. Hotels have no
   * panels.
   */
  function PanelFor(t: ComplexBuildingType, floorIndex: nat, floorHeight: int, remainingHeight: int,
                    spandrelHeight: int, entranceHeight: int): (r: Result<FloorPanel>)
    ensures r.Failure? <==> t == Hotel
    ensures r.Failure? ==> r.error == ArgumentOutOfRange
    ensures t == Apartment && r.Success? ==>
      && r.value.height == floorHeight
      && (r.value.panel == SkyscraperCondominiumWindow || r.value.panel == SkyscraperCondominiumWall)
      && (r.value.panel == SkyscraperCondominiumWindow <==> floorHeight <= remainingHeight)
    ensures t == OfficeBuilding && r.Success? ==>
      && (r.value.panel == OfficeSmallFullWindow || r.value.panel == OfficeFullWindow)
      && (r.value.panel == OfficeSmallFullWindow <==> floorIndex % 2 == 0)
      && r.value.height % 10 == 0
      && r.value.height == RoundToHundredths(if floorIndex % 2 == 0 then spandrelHeight else entranceHeight)
    ensures t == CommercialBuilding && r.Success? ==>
      && (r.value.panel == CommercialSmallFullWindow || r.value.panel == CommercialWallWithFrame)
      && (r.value.panel == CommercialSmallFullWindow <==> floorIndex % 4 == 3)
      && r.value.height == (if floorIndex % 4 == 3 then SmallWindowHeight else entranceHeight)
  {
    match t
    case Apartment =>
      Success(FloorPanel(if floorHeight <= remainingHeight then SkyscraperCondominiumWindow else SkyscraperCondominiumWall, floorHeight))
    case OfficeBuilding =>
      Success(FloorPanel(if floorIndex % 2 == 0 then OfficeSmallFullWindow else OfficeFullWindow,
                         RoundToHundredths(if floorIndex % 2 == 0 then spandrelHeight else entranceHeight)))
    case CommercialBuilding =>
      Success(FloorPanel(if floorIndex % 4 == 3 then CommercialSmallFullWindow else CommercialWallWithFrame,
                         if floorIndex % 4 == 3 then SmallWindowHeight else entranceHeight))
    case Hotel => Failure(ArgumentOutOfRange)
  }

  /** Every panel band has a positive height as long as the floor height,
      the spandrel height (offices) and the entrance height (offices and
      commercial buildings) are large enough. */
  lemma PanelHeightPositive(t: ComplexBuildingType, floorIndex: nat, floorHeight: int, remainingHeight: int,
                            spandrelHeight: int, entranceHeight: int)
    requires t != Hotel && 0 < floorHeight
    requires t == OfficeBuilding ==> 5 <= spandrelHeight && 5 <= entranceHeight
    requires t == CommercialBuilding ==> 0 < entranceHeight
    ensures 0 < PanelFor(t, floorIndex, floorHeight, remainingHeight, spandrelHeight, entranceHeight).value.height
  {
  }

  /** What a step threads through the column: the floor index, whether the
      boundary wall has been added, and the height stacked and still to go. */
  datatype StepState = StepState(floorIndex: nat, addedBoundaryWall: bool, currentHeight: int, remainingHeight: int)

  /** The bands a step stacks and the state it leaves. */
  datatype StepOutcome = StepOutcome(bands: seq<Band>, state: StepState)

  /**
   * Crossing the boundary: the lower part is filled up to the boundary
   * height with the floor's panel (only where the caller allows it), then a
   * boundary wall 1 unit high is stacked, or as high as what is left when
   * less than that remains.
   */
  function AddBoundaryWall(panel: PanelType, canAddLowerFloor: bool, boundaryHeight: int, s: StepState): (o: StepOutcome)
    ensures o.state.addedBoundaryWall && o.state.floorIndex == s.floorIndex
    ensures o.state.currentHeight + o.state.remainingHeight == s.currentHeight + s.remainingHeight
    ensures BandsHeight(o.bands) == o.state.currentHeight - s.currentHeight
    ensures BoundaryCount(o.bands) == 1
    ensures canAddLowerFloor && 0 <= s.remainingHeight - (boundaryHeight - s.currentHeight) ==> 0 <= o.state.remainingHeight
    ensures !canAddLowerFloor && 0 <= s.remainingHeight ==> 0 <= o.state.remainingHeight
  {
    var lower := boundaryHeight - s.currentHeight;
    var fill := if canAddLowerFloor then [Band(PanelBand(panel), lower)] else [];
    var current := if canAddLowerFloor then boundaryHeight else s.currentHeight;
    var remaining := if canAddLowerFloor then s.remainingHeight - lower else s.remainingHeight;
    var wall := if DepressionWallHeight <= remaining then DepressionWallHeight else remaining;
    var bands := fill + [Band(DepressionBand(true), wall)];
    assert BandsHeight(bands) == current - s.currentHeight + wall && BoundaryCount(bands) == 1 by {
      BandsHeightAppend(fill, [Band(DepressionBand(true), wall)]);
      BoundaryCountAppend(fill, [Band(DepressionBand(true), wall)]);
    }
    StepOutcome(bands, StepState(s.floorIndex, true, current + wall, remaining - wall))
  }

  /**
   * One step. A non-positive floor height changes nothing. Otherwise the
   * floor's panel is stacked if it fits, or a band filling the rest if it
   * does not, unless the boundary wall is still to come and the column
   * would reach the boundary height: then the boundary wall is added
   * instead. The floor index moves on by one either way.
   */
  function Step(t: ComplexBuildingType, s: StepState, canAddLowerFloor: bool, floorHeight: int,
                boundaryHeight: int, spandrelHeight: int, entranceHeight: int): (r: Result<StepOutcome>)
    ensures floorHeight <= 0 ==> r == Success(StepOutcome([], s))
    ensures 0 < floorHeight ==> (r.Failure? <==> t == Hotel)
    ensures r.Failure? ==> r.error == ArgumentOutOfRange
    ensures r.Success? && 0 < floorHeight ==> r.value.state.floorIndex == s.floorIndex + 1
    ensures r.Success? && s.addedBoundaryWall ==> r.value.state.addedBoundaryWall
    ensures r.Success? ==> r.value.state.currentHeight + r.value.state.remainingHeight == s.currentHeight + s.remainingHeight
    ensures r.Success? ==> BandsHeight(r.value.bands) == r.value.state.currentHeight - s.currentHeight
    ensures r.Success? && 0 <= s.remainingHeight ==> 0 <= r.value.state.remainingHeight
    ensures r.Success? ==> BoundaryCount(r.value.bands) == if !s.addedBoundaryWall && r.value.state.addedBoundaryWall then 1 else 0
  {
    if floorHeight <= 0 then Success(StepOutcome([], s))
    else
      var fp :- PanelFor(t, s.floorIndex, floorHeight, s.remainingHeight, spandrelHeight, entranceHeight);
      var o :=
        if fp.height <= s.remainingHeight then
          if !s.addedBoundaryWall && boundaryHeight <= s.currentHeight + fp.height then
            AddBoundaryWall(fp.panel, canAddLowerFloor, boundaryHeight, s)
          else
            StepOutcome([Band(PanelBand(fp.panel), fp.height)],
                        s.(currentHeight := s.currentHeight + fp.height, remainingHeight := s.remainingHeight - fp.height))
        else if !s.addedBoundaryWall && boundaryHeight <= s.currentHeight + s.remainingHeight then
          AddBoundaryWall(fp.panel, canAddLowerFloor, boundaryHeight, s)
        else
          StepOutcome([Band(PanelBand(fp.panel), s.remainingHeight)],
                      s.(currentHeight := s.currentHeight + s.remainingHeight, remainingHeight := 0));
      Success(o.(state := o.state.(floorIndex := o.state.floorIndex + 1)))
  }

  /**
   * The boundary rules of a step. The boundary wall is added exactly when it
   * is still to come and the boundary height is reached by the floor's panel
   * or, when the panel does not fit, by the rest of the column. Then the
   * lower part is filled to exactly the boundary height (when allowed) and
   * the wall is 1 unit high, or as high as what is left. Otherwise the step
   * stacks the panel, or a band filling the rest, leaving nothing to go.
   */
  lemma StepBoundary(t: ComplexBuildingType, s: StepState, canAddLowerFloor: bool, floorHeight: int,
                     boundaryHeight: int, spandrelHeight: int, entranceHeight: int)
    requires 0 < floorHeight && t != Hotel
    ensures
      var fp := PanelFor(t, s.floorIndex, floorHeight, s.remainingHeight, spandrelHeight, entranceHeight).value;
      var o := Step(t, s, canAddLowerFloor, floorHeight, boundaryHeight, spandrelHeight, entranceHeight).value;
      var crosses := !s.addedBoundaryWall && boundaryHeight <= s.currentHeight + Min(fp.height, s.remainingHeight);
      var fill := if canAddLowerFloor then boundaryHeight - s.currentHeight else 0;
      var wall := Min(DepressionWallHeight, s.remainingHeight - fill);
      && o.state.addedBoundaryWall == (s.addedBoundaryWall || crosses)
      && (crosses && canAddLowerFloor ==>
            o.bands == [Band(PanelBand(fp.panel), fill), Band(DepressionBand(true), wall)]
            && s.currentHeight + fill == boundaryHeight)
      && (crosses && !canAddLowerFloor ==> o.bands == [Band(DepressionBand(true), wall)])
      && (crosses ==> o.state.remainingHeight == s.remainingHeight - fill - wall)
      && (!crosses && fp.height <= s.remainingHeight ==>
            o.bands == [Band(PanelBand(fp.panel), fp.height)] && o.state.remainingHeight == s.remainingHeight - fp.height)
      && (!crosses && s.remainingHeight < fp.height ==>
            o.bands == [Band(PanelBand(fp.panel), s.remainingHeight)] && o.state.remainingHeight == 0)
  {
  }

  /** A step that does not add the boundary wall never leaves more to stack
      when its panel's height is not negative, and leaves strictly less
      exactly when that height is positive (something being left). */
  lemma StepProgress(t: ComplexBuildingType, s: StepState, canAddLowerFloor: bool, floorHeight: int,
                     boundaryHeight: int, spandrelHeight: int, entranceHeight: int)
    requires 0 < floorHeight && t != Hotel && 0 < s.remainingHeight
    requires 0 <= PanelFor(t, s.floorIndex, floorHeight, s.remainingHeight, spandrelHeight, entranceHeight).value.height
    ensures
      var fp := PanelFor(t, s.floorIndex, floorHeight, s.remainingHeight, spandrelHeight, entranceHeight).value;
      var o := Step(t, s, canAddLowerFloor, floorHeight, boundaryHeight, spandrelHeight, entranceHeight).value;
      o.state.addedBoundaryWall == s.addedBoundaryWall ==>
        && 0 <= o.state.remainingHeight <= s.remainingHeight
        && (o.state.remainingHeight < s.remainingHeight <==> 0 < fp.height)
  {
    StepBoundary(t, s, canAddLowerFloor, floorHeight, boundaryHeight, spandrelHeight, entranceHeight);
  }

  /** Once the column holds the boundary height, a step that still does not
      add the boundary wall leaves something to stack, so the wall is added
      before the column ends. */
  lemma StepReachesBoundary(t: ComplexBuildingType, s: StepState, canAddLowerFloor: bool, floorHeight: int,
                            boundaryHeight: int, spandrelHeight: int, entranceHeight: int)
    requires 0 < floorHeight && t != Hotel && !s.addedBoundaryWall
    requires boundaryHeight <= s.currentHeight + s.remainingHeight
    ensures
      var o := Step(t, s, canAddLowerFloor, floorHeight, boundaryHeight, spandrelHeight, entranceHeight).value;
      !o.state.addedBoundaryWall ==> 0 < o.state.remainingHeight
  {
    StepBoundary(t, s, canAddLowerFloor, floorHeight, boundaryHeight, spandrelHeight, entranceHeight);
  }
}
