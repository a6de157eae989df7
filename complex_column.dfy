/**
 * The upper part of a complex building's column: the loop that stacks
 * floors until the building height is reached. Each round asks the
 * configuration which building type the column is at (the lower part's
 * until the boundary flag is set, the higher part's after), then stacks
 * that type's floors: apartments stack their floors in one go, offices and
 * commercial buildings take one step at a time. Heights are integers in
 * thousandths.
 */
module ComplexColumn {
  import opened Wrappers
  import opened BuildingConfig
  import opened ComplexElements
  import opened ComplexStep

  /** The configuration a column reads and never changes. */
  datatype Settings = Settings(buildingHeight: int, boundaryHeight: int, spandrelHeight: int,
                               lowerType: ComplexBuildingType, higherType: ComplexBuildingType)

  function SettingsOf(config: Config): Settings
    reads config
  {
    Settings(config.buildingHeight, config.buildingBoundaryHeight, config.spandrelHeight,
             config.lowerFloorBuildingType, config.higherFloorBuildingType)
  }

  /** The building type at a boundary flag, as GetComplexBuildingType reads it. */
  function TypeAt(s: Settings, addedBoundaryWall: bool): ComplexBuildingType
  {
    if addedBoundaryWall then s.higherType else s.lowerType
  }

  /** The floor heights and counts the planner keeps between its calls. */
  datatype FloorPlan = FloorPlan(floorHeight: int, higherFloorHeight: int, lowerFloorHeight: int,
                                 numFloorWithoutEntrance: int, numHigherFloor: int, numLowerFloorWithoutEntrance: int)

  predicate OfficeOrCommercial(t: ComplexBuildingType)
  {
    t == OfficeBuilding || t == CommercialBuilding
  }

  /**
   * What the column loop needs to end: positive floor heights, and, for the
   * building types in play, bands that never have a negative height and
   * are not all 0 high. An office alternates a spandrel band and an
   * entrance-high band, each rounded to two decimals, so one of the two has
   * to round to a positive height; a commercial building's small window
   * band on every fourth floor is 1.5 high, so its entrance-high bands may
   * be 0 high.
   */
  predicate Progressing(s: Settings, f: FloorPlan, entranceHeight: int)
  {
    var spandrel := RoundToHundredths(s.spandrelHeight);
    var window := RoundToHundredths(entranceHeight);
    && 0 < f.floorHeight && 0 < f.higherFloorHeight && 0 < f.lowerFloorHeight
    && (s.lowerType == OfficeBuilding || s.higherType == OfficeBuilding ==>
          0 <= spandrel && 0 <= window && (0 < spandrel || 0 < window))
    && (s.lowerType == CommercialBuilding || s.higherType == CommercialBuilding ==> 0 <= entranceHeight)
  }

  /** The loop's variables: the configuration's boundary flag, the loop's own
      boundary flag, the floor index of each type that has one, and the
      height stacked and still to go. */
  datatype IterState = IterState(configFlag: bool, addedBoundaryWall: bool, officeFloorIndex: nat,
                                 commercialFloorIndex: nat, currentHeight: int, remainingHeight: int)

  /** At least one: the first floor of a group is always stacked. */
  function AtLeastOne(n: int): nat
  {
    if n < 1 then 1 else n
  }

  /**
   * How many rounds the loop may still take without stacking any height:
   * an office round whose band is 0 high is followed by one whose band is
   * not, and a commercial round whose band is 0 high by at most two more
   * before the small window floor; a round that starts with the
   * configuration's flag out of step with the loop's puts the two in step.
   */
  function Stall(s: Settings, entranceHeight: int, st: IterState): nat
  {
    var gap :=
      match TypeAt(s, st.configFlag)
      case OfficeBuilding =>
        if 0 < PanelFor(OfficeBuilding, st.officeFloorIndex, 1, 0, s.spandrelHeight, entranceHeight).value.height then 0 else 1
      case CommercialBuilding =>
        if 0 < entranceHeight then 0 else 3 - st.commercialFloorIndex % 4
      case _ => 0;
    (if st.configFlag == st.addedBoundaryWall then 0 else 4) + gap
  }

  /** An apartment's floors below the boundary, stacked at once: every
      floor under the boundary but the entrance floor, at least one. */
  function LowerFloors(s: Settings, f: FloorPlan, st: IterState): (seq<Band>, IterState)
    requires 0 < f.lowerFloorHeight
  {
    var numFloor := Min(s.boundaryHeight, s.buildingHeight) / f.lowerFloorHeight - 1;
    (Repeat(Band(PanelBand(SkyscraperCondominiumWindow), f.lowerFloorHeight), AtLeastOne(numFloor)),
     st.(configFlag := true, addedBoundaryWall := true,
         currentHeight := st.currentHeight + f.lowerFloorHeight * numFloor,
         remainingHeight := st.remainingHeight - f.lowerFloorHeight * numFloor))
  }

  /** The step of the higher floor height that follows an apartment's lower
      floors when the building rises above the boundary; the configuration's
      flag is whatever that step leaves. */
  function UpperStep(s: Settings, f: FloorPlan, entranceHeight: int, mid: IterState): (seq<Band>, IterState)
    requires Progressing(s, f, entranceHeight)
  {
    var o := Step(Apartment, StepState(0, false, mid.currentHeight, mid.remainingHeight), false, f.higherFloorHeight,
                  s.boundaryHeight, s.spandrelHeight, entranceHeight).value;
    (o.bands, mid.(configFlag := o.state.addedBoundaryWall, currentHeight := o.state.currentHeight, remainingHeight := o.state.remainingHeight))
  }

  /** An apartment's round before the boundary (see IterStep). */
  function LowerApartment(s: Settings, f: FloorPlan, entranceHeight: int, st: IterState): (seq<Band>, IterState)
    requires Progressing(s, f, entranceHeight)
  {
    var (floors, mid) := LowerFloors(s, f, st);
    if s.boundaryHeight < s.buildingHeight then
      var (bands, last) := UpperStep(s, f, entranceHeight, mid);
      (floors + bands, last)
    else
      (floors, mid)
  }

  /**
   * One round of the loop.
   * - Apartment after the boundary: the higher part's floors, as many as fit
   *   in the height above the boundary wall (at least one), each a window
   *   band of the lower floor height; nothing is left to stack afterwards.
   * - Apartment before the boundary: the lower part's floors above the
   *   entrance floor (at least one), then, when the building rises above the
   *   boundary, one step with the higher floor height that may add the
   *   boundary wall (without a lower fill). The loop's flag is set either
   *   way; the configuration's flag is whatever that step left.
   * - Office or commercial building: one step with the floor height of the
   *   current part and the type's own floor index.
   * - Hotel: an exception.
   */
  function IterStep(s: Settings, f: FloorPlan, entranceHeight: int, st: IterState): (r: Result<(seq<Band>, IterState)>)
    requires Progressing(s, f, entranceHeight) && 0 < st.remainingHeight
    ensures r.Failure? <==> TypeAt(s, st.configFlag) == Hotel
    ensures r.Failure? ==> r.error == ArgumentOutOfRange
    ensures r.Success? && st.addedBoundaryWall ==> r.value.1.addedBoundaryWall
    ensures r.Success? && r.value.1.addedBoundaryWall == st.addedBoundaryWall ==>
      && 0 <= r.value.1.remainingHeight <= st.remainingHeight
      && (r.value.1.remainingHeight == st.remainingHeight ==> Stall(s, entranceHeight, r.value.1) < Stall(s, entranceHeight, st))
  {
    var c := st.currentHeight;
    match TypeAt(s, st.configFlag)
    case Apartment =>
      if st.addedBoundaryWall then
        var numFloor := (s.buildingHeight - s.boundaryHeight - DepressionWallHeight) / f.higherFloorHeight;
        var floors := Repeat(Band(PanelBand(SkyscraperCondominiumWindow), f.lowerFloorHeight), AtLeastOne(numFloor));
        Success((floors, st.(configFlag := true, currentHeight := c + f.lowerFloorHeight * numFloor, remainingHeight := 0)))
      else
        Success(LowerApartment(s, f, entranceHeight, st))
    case OfficeBuilding => Success(OfficeRound(s, f, entranceHeight, st))
    case CommercialBuilding => Success(CommercialRound(s, f, entranceHeight, st))
    case Hotel => Failure(ArgumentOutOfRange)
  }

  /** An office round (see IterStep): one step with the office floor index. */
  function OfficeRound(s: Settings, f: FloorPlan, entranceHeight: int, st: IterState): (r: (seq<Band>, IterState))
    requires Progressing(s, f, entranceHeight) && 0 < st.remainingHeight && TypeAt(s, st.configFlag) == OfficeBuilding
    ensures st.addedBoundaryWall ==> r.1.addedBoundaryWall
    ensures r.1.addedBoundaryWall == st.addedBoundaryWall ==>
      && 0 <= r.1.remainingHeight <= st.remainingHeight
      && (r.1.remainingHeight == st.remainingHeight ==> Stall(s, entranceHeight, r.1) < Stall(s, entranceHeight, st))
  {
    var fh := if st.addedBoundaryWall then f.higherFloorHeight else f.floorHeight;
    var before := StepState(st.officeFloorIndex, st.addedBoundaryWall, st.currentHeight, st.remainingHeight);
    StepProgress(OfficeBuilding, before, true, fh, s.boundaryHeight, s.spandrelHeight, entranceHeight);
    var o := Step(OfficeBuilding, before, true, fh, s.boundaryHeight, s.spandrelHeight, entranceHeight).value;
    (o.bands, st.(configFlag := o.state.addedBoundaryWall, addedBoundaryWall := o.state.addedBoundaryWall,
                  officeFloorIndex := o.state.floorIndex,
                  currentHeight := o.state.currentHeight, remainingHeight := o.state.remainingHeight))
  }

  /** A commercial round (see IterStep): one step with the commercial floor
      index. */
  function CommercialRound(s: Settings, f: FloorPlan, entranceHeight: int, st: IterState): (r: (seq<Band>, IterState))
    requires Progressing(s, f, entranceHeight) && 0 < st.remainingHeight && TypeAt(s, st.configFlag) == CommercialBuilding
    ensures st.addedBoundaryWall ==> r.1.addedBoundaryWall
    ensures r.1.addedBoundaryWall == st.addedBoundaryWall ==>
      && 0 <= r.1.remainingHeight <= st.remainingHeight
      && (r.1.remainingHeight == st.remainingHeight ==> Stall(s, entranceHeight, r.1) < Stall(s, entranceHeight, st))
  {
    var fh := if st.addedBoundaryWall then f.higherFloorHeight else f.floorHeight;
    var before := StepState(st.commercialFloorIndex, st.addedBoundaryWall, st.currentHeight, st.remainingHeight);
    StepProgress(CommercialBuilding, before, true, fh, s.boundaryHeight, s.spandrelHeight, entranceHeight);
    var o := Step(CommercialBuilding, before, true, fh, s.boundaryHeight, s.spandrelHeight, entranceHeight).value;
    (o.bands, st.(configFlag := o.state.addedBoundaryWall, addedBoundaryWall := o.state.addedBoundaryWall,
                  commercialFloorIndex := o.state.floorIndex,
                  currentHeight := o.state.currentHeight, remainingHeight := o.state.remainingHeight))
  }

  /** The bands a column loop stacks, and the boundary flag it leaves in the
      configuration. */
  datatype Column = Column(bands: seq<Band>, configFlag: bool)

  /** The whole loop: rounds until nothing is left to stack. */
  function Iter(s: Settings, f: FloorPlan, entranceHeight: int, st: IterState): Result<Column>
    requires Progressing(s, f, entranceHeight)
    decreases if st.addedBoundaryWall then 0 else 1, st.remainingHeight, Stall(s, entranceHeight, st)
  {
    if st.remainingHeight <= 0 then Success(Column([], st.configFlag))
    else
      var step :- IterStep(s, f, entranceHeight, st);
      var rest :- Iter(s, f, entranceHeight, step.1);
      Success(Column(step.0 + rest.bands, rest.configFlag))
  }

  /** Bands stacked before the rest of a loop. */
  function Prepend(bands: seq<Band>, r: Result<Column>): Result<Column>
  {
    match r
    case Success(col) => Success(Column(bands + col.bands, col.configFlag))
    case Failure(e) => Failure(e)
  }

  lemma PrependNothing(r: Result<Column>)
    ensures Prepend([], r) == r
  {
    if r.Success? {
      assert [] + r.value.bands == r.value.bands;
    }
  }

  lemma PrependPrepend(a: seq<Band>, b: seq<Band>, r: Result<Column>)
    ensures Prepend(a, Prepend(b, r)) == Prepend(a + b, r)
  {
    if r.Success? {
      assert a + (b + r.value.bands) == (a + b) + r.value.bands;
    }
  }

  /** A round adds at most one boundary wall, and only the round that sets
      the loop's flag; an office or commercial round moves exactly the height
      of its bands from what is left to what is stacked, never leaves a
      negative height to go, and leaves the loop's flag in the configuration. */
  lemma IterStepMeasures(s: Settings, f: FloorPlan, entranceHeight: int, st: IterState)
    requires Progressing(s, f, entranceHeight) && 0 < st.remainingHeight
    requires IterStep(s, f, entranceHeight, st).Success?
    ensures var (bands, next) := IterStep(s, f, entranceHeight, st).value;
      BoundaryCount(bands) <= if !st.addedBoundaryWall && next.addedBoundaryWall then 1 else 0
    ensures var (bands, next) := IterStep(s, f, entranceHeight, st).value;
      OfficeOrCommercial(TypeAt(s, st.configFlag)) ==>
        && BandsHeight(bands) == st.remainingHeight - next.remainingHeight
        && 0 <= next.remainingHeight
        && next.configFlag == next.addedBoundaryWall
  {
    var t := TypeAt(s, st.configFlag);
    if t == Apartment {
      var h := f.lowerFloorHeight;
      if st.addedBoundaryWall {
        var numFloor := (s.buildingHeight - s.boundaryHeight - DepressionWallHeight) / f.higherFloorHeight;
        RepeatMeasures(SkyscraperCondominiumWindow, h, AtLeastOne(numFloor));
      } else {
        var numFloor := Min(s.boundaryHeight, s.buildingHeight) / h - 1;
        var floors := Repeat(Band(PanelBand(SkyscraperCondominiumWindow), h), AtLeastOne(numFloor));
        RepeatMeasures(SkyscraperCondominiumWindow, h, AtLeastOne(numFloor));
        if s.boundaryHeight < s.buildingHeight {
          var lower := StepState(0, false, st.currentHeight + h * numFloor, st.remainingHeight - h * numFloor);
          var o := Step(Apartment, lower, false, f.higherFloorHeight, s.boundaryHeight, s.spandrelHeight, entranceHeight).value;
          BoundaryCountAppend(floors, o.bands);
        }
      }
    }
  }

  /** A loop adds the boundary wall at most once, and not at all once the
      loop's flag is set. */
  lemma {:induction false} IterBoundaryAtMostOnce(s: Settings, f: FloorPlan, entranceHeight: int, st: IterState)
    requires Progressing(s, f, entranceHeight)
    ensures Iter(s, f, entranceHeight, st).Success? ==>
      BoundaryCount(Iter(s, f, entranceHeight, st).value.bands) <= if st.addedBoundaryWall then 0 else 1
    decreases if st.addedBoundaryWall then 0 else 1, st.remainingHeight, Stall(s, entranceHeight, st)
  {
    if 0 < st.remainingHeight && Iter(s, f, entranceHeight, st).Success? {
      var step := IterStep(s, f, entranceHeight, st).value;
      IterStepMeasures(s, f, entranceHeight, st);
      IterBoundaryAtMostOnce(s, f, entranceHeight, step.1);
      BoundaryCountAppend(step.0, Iter(s, f, entranceHeight, step.1).value.bands);
    }
  }

  /**
   * A column of offices or commercial buildings that starts below the
   * boundary with both flags clear and whose height reaches the boundary
   * gets exactly one boundary wall.
   */
  lemma {:induction false} IterBoundaryOnce(s: Settings, f: FloorPlan, entranceHeight: int, st: IterState)
    requires Progressing(s, f, entranceHeight) && OfficeOrCommercial(s.lowerType)
    requires !st.addedBoundaryWall && !st.configFlag && 0 < st.remainingHeight
    requires s.boundaryHeight <= st.currentHeight + st.remainingHeight
    ensures Iter(s, f, entranceHeight, st).Success? ==> BoundaryCount(Iter(s, f, entranceHeight, st).value.bands) == 1
    decreases st.remainingHeight, Stall(s, entranceHeight, st)
  {
    if Iter(s, f, entranceHeight, st).Success? {
      var step := IterStep(s, f, entranceHeight, st).value;
      var next := step.1;
      var t := s.lowerType;
      var fh := f.floorHeight;
      var index := if t == OfficeBuilding then st.officeFloorIndex else st.commercialFloorIndex;
      var before := StepState(index, false, st.currentHeight, st.remainingHeight);
      StepReachesBoundary(t, before, true, fh, s.boundaryHeight, s.spandrelHeight, entranceHeight);
      IterStepMeasures(s, f, entranceHeight, st);
      BoundaryCountAppend(step.0, Iter(s, f, entranceHeight, next).value.bands);
      if next.addedBoundaryWall {
        IterBoundaryAtMostOnce(s, f, entranceHeight, next);
        assert BoundaryCount(step.0) == 1;
      } else {
        IterBoundaryOnce(s, f, entranceHeight, next);
      }
    }
  }

  /** A loop over offices and commercial buildings fills exactly the height
      it was given: its bands add up to the height that was left. */
  lemma {:induction false} IterFills(s: Settings, f: FloorPlan, entranceHeight: int, st: IterState)
    requires Progressing(s, f, entranceHeight)
    requires OfficeOrCommercial(s.lowerType) && OfficeOrCommercial(s.higherType)
    requires 0 <= st.remainingHeight
    ensures Iter(s, f, entranceHeight, st).Success?
    ensures BandsHeight(Iter(s, f, entranceHeight, st).value.bands) == st.remainingHeight
    decreases if st.addedBoundaryWall then 0 else 1, st.remainingHeight, Stall(s, entranceHeight, st)
  {
    if 0 < st.remainingHeight {
      var step := IterStep(s, f, entranceHeight, st).value;
      IterStepMeasures(s, f, entranceHeight, st);
      IterFills(s, f, entranceHeight, step.1);
      BandsHeightAppend(step.0, Iter(s, f, entranceHeight, step.1).value.bands);
    }
  }

  /** A loop over offices and commercial buildings completes, and its
      bands add up to the height that was left, or to nothing when none
      was. */
  lemma IterHeight(s: Settings, f: FloorPlan, entranceHeight: int, st: IterState)
    requires Progressing(s, f, entranceHeight)
    requires OfficeOrCommercial(s.lowerType) && OfficeOrCommercial(s.higherType)
    ensures Iter(s, f, entranceHeight, st).Success?
    ensures BandsHeight(Iter(s, f, entranceHeight, st).value.bands) == Max(0, st.remainingHeight)
  {
    if 0 <= st.remainingHeight {
      IterFills(s, f, entranceHeight, st);
    } else {
      assert Iter(s, f, entranceHeight, st) == Success(Column([], st.configFlag));
    }
  }
}
