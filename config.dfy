/**
 * The part of the building generator's configuration the planners read and
 * write: the building height (capped in place by planning), the complex
 * building's boundary height between its lower and higher parts, the office
 * spandrel height, the building types of the two parts, and the flag that
 * records whether the current column has passed the boundary wall.
 * Heights are integers in thousandths.
 */
module BuildingConfig {

  /** The kinds of building a complex building's parts may be. Hotels exist
      as a kind but no facade planner handles them. */
  datatype ComplexBuildingType = Apartment | OfficeBuilding | CommercialBuilding | Hotel

  class Config {
    var buildingHeight: int
    var buildingBoundaryHeight: int
    var spandrelHeight: int
    var lowerFloorBuildingType: ComplexBuildingType
    var higherFloorBuildingType: ComplexBuildingType
    var addedBoundaryWall: bool

    /** A configuration with the default boundary height (15), spandrel
        height (1.25) and a cleared boundary flag. */
    constructor(buildingHeight: int, lowerFloorBuildingType: ComplexBuildingType, higherFloorBuildingType: ComplexBuildingType)
      ensures this.buildingHeight == buildingHeight
      ensures this.lowerFloorBuildingType == lowerFloorBuildingType
      ensures this.higherFloorBuildingType == higherFloorBuildingType
      ensures buildingBoundaryHeight == 15000 && spandrelHeight == 1250
      ensures !addedBoundaryWall
    {
      this.buildingHeight := buildingHeight;
      this.lowerFloorBuildingType := lowerFloorBuildingType;
      this.higherFloorBuildingType := higherFloorBuildingType;
      buildingBoundaryHeight := 15000;
      spandrelHeight := 1250;
      addedBoundaryWall := false;
    }
  }
}
