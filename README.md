# Procedural facade planners and electric-post connections

This project models three parts of the PLATEAU SDK Toolkits Sandbox, and
proves properties of the model.

**The complex-building facade planner.** A complex building is a building
whose lower part, up to the boundary height, is of one building type
(apartment, office building or commercial building), and whose higher part
is of another. For every edge of a rectangular footprint, the planner does
the following:

- it caps the building height at 100;
- it searches the three floor heights on the grid 2.75, 2.80, ..., 3.20;
- it divides the edge into 2.5-wide slots;
- it lays out the face column by column, under a shadow wall.

A column has a ground floor, and then a loop that stacks floors by a state
machine (`CreateBuildingPlanner`). When the column first reaches the
boundary height, the state machine puts a boundary depression wall between
the two parts. It then switches to the higher part's building type through
a flag kept in the configuration.

**The factory facade planner.** Each face gets a ground floor of socle,
socle top and a window row, then plain wall floors. The front face instead
gets an entrance floor: two end walls around a row of paired entrances.

**The connection bookkeeping of an electric post.** A post keeps two lists
of wired peers, one for the front and one for the back. It supports
duplicate-free wiring, placeholder slots and bounds-checked removal, and it
decides whether a side should show its wire.

Heights are whole numbers of thousandths, because the source rounds every
height to three decimals. Widths of elements are reals in thousandths,
because a per-slot share of the remainder width is a quotient.

The modules are:

- `LayoutTree`: the `Vertical`/`Horizontal`/`Element` layout tree, with its
  height and width.
- `Facade`: the facade division and the panel rows that both planners share.
- `FloorHeight`: the height cap, the floor-height search and the entrance
  height.
- `FactoryPlanner`: the factory planner.
- `BuildingConfig`, `ComplexElements`, `ComplexStep`, `ComplexColumn`,
  `ComplexFacade` and `ComplexPlanner`: the complex-building planner. The
  pure rules live in the first five; the `ComplexPlanner` class holds the
  planner's fields and its imperative methods. Each method is proved to
  build exactly what the pure specification describes.
- `ComplexMeasures` and `ComplexFaces`: the heights and widths of the
  complex planner's columns, facades and faces, measured against the
  building height and the edge width.
- `ElectricPost`: the `ElectricPostInfo` class and its specification
  functions.

Each C# exception is a `Failure` of the `Result` datatype in `Wrappers`.
The exceptions modelled are:

- the `default: throw` of a building-type switch (`ArgumentOutOfRange`);
- an index past the end of a list (`ArgumentOutOfRange`) or of an array
  (`IndexOutOfRange`);
- a null post dereferenced (`NullReference`).

In the table, C is
`PlateauToolkit.Sandbox/Runtime/PlateauSandboxBuildings/Runtime/ProceduralFacadeComplexBuildingPlanner.cs`,
F is `PlateauToolkit.Sandbox/Runtime/PlateauSandboxBuildings/Runtime/ProceduralFacadeFactoryPlanner.cs`
and E is `PlateauToolkit.Sandbox/Runtime/ElectricPost/PlateauSandboxElectricPostInfo.cs`.
The source cells give the full paths.

## Model

| member | source | states |
|---|---|---|
| FloorHeight.ClampBuildingHeight | PlateauToolkit.Sandbox/Runtime/PlateauSandboxBuildings/Runtime/ProceduralFacadeComplexBuildingPlanner.cs:49-52 | The capped height is at most 100. A height of at most 100 is kept. A taller one becomes exactly 100. F:45-48 caps the same way. |
| FloorHeight.FracBelowOne | PlateauToolkit.Sandbox/Runtime/PlateauSandboxBuildings/Runtime/ProceduralFacadeComplexBuildingPlanner.cs:72-76 | The fractional floor count target/h - floor(target/h) lies in [0, 1). So the first candidate always beats the initial remainder 1. |
| FloorHeight.SearchFloorHeight | PlateauToolkit.Sandbox/Runtime/PlateauSandboxBuildings/Runtime/ProceduralFacadeComplexBuildingPlanner.cs:69-79 | The loop over the grid 2.75 + 0.05k returns a candidate in [2.75, 3.25). Its fractional floor count is <= that of every candidate and < that of every lower candidate, so ties keep the earliest. The same loop appears at C:82-106 and F:72-83. |
| FloorHeight.BestFloorHeightUnique | PlateauToolkit.Sandbox/Runtime/PlateauSandboxBuildings/Runtime/ProceduralFacadeComplexBuildingPlanner.cs:69-79 | The search's choice is determined by the target height alone. |
| FloorHeight.EntranceHeight | PlateauToolkit.Sandbox/Runtime/PlateauSandboxBuildings/Runtime/ProceduralFacadeFactoryPlanner.cs:184-185 | The entrance floor is at least one floor and less than two floors high: it takes the remainder of H/h on top of one floor. With the floor(H/h) - 1 upper floors of height h it makes up H. |
| FloorHeight.EntranceHeightBounds | PlateauToolkit.Sandbox/Runtime/PlateauSandboxBuildings/Runtime/ProceduralFacadeFactoryPlanner.cs:184-185 | The entrance floor is in [h, 2h). The upper floor count is >= 0 iff H >= h. Something is left above the entrance floor iff H >= 2h. |
| Facade.KnapsackCount | PlateauToolkit.Sandbox/Runtime/PlateauSandboxBuildings/Runtime/ProceduralFacadeFactoryPlanner.cs:258 | The knapsack's slots fit in the available width (in none when that is negative), and one more slot would not. |
| Facade.AllNarrow | PlateauToolkit.Sandbox/Runtime/PlateauSandboxBuildings/Runtime/ProceduralFacadeFactoryPlanner.cs:38-41 | The size table has the single 2.5 entry, so a slot list is all Narrow. |
| Facade.SlotsWidth | PlateauToolkit.Sandbox/Runtime/PlateauSandboxBuildings/Runtime/ProceduralFacadeFactoryPlanner.cs:260-268 | The slots of a list are 2.5 times its length wide. |
| Facade.Shuffle | PlateauToolkit.Sandbox/Runtime/PlateauSandboxBuildings/Runtime/ProceduralFacadeFactoryPlanner.cs:269 | The shuffled list is a permutation of the input: same length, same multiset. |
| Facade.DivideFacade | PlateauToolkit.Sandbox/Runtime/PlateauSandboxBuildings/Runtime/ProceduralFacadeFactoryPlanner.cs:246-271 | The slots are a permutation of the knapsack's items for the width less 2 per concave side. Slots plus remainder make up the full facade width. The remainder is non-negative, and smaller than the buffers plus one slot. C:844-869 is the same routine. |
| Facade.CreateHorizontal | PlateauToolkit.Sandbox/Runtime/PlateauSandboxBuildings/Runtime/ProceduralFacadeFactoryPlanner.cs:273-282 | The row holds one panel per slot of [from, to), each 2.5 plus the offset wide and of the row's height. C:871-880 is the same routine. |
| Facade.PanelRowMeasures | PlateauToolkit.Sandbox/Runtime/PlateauSandboxBuildings/Runtime/ProceduralFacadeFactoryPlanner.cs:276-280 | A panel row over [lo, hi) is (hi - lo)(2.5 + offset) wide, and every panel is of the row's height. |
| Facade.FaceSlots | PlateauToolkit.Sandbox/Runtime/PlateauSandboxBuildings/Runtime/ProceduralFacadeFactoryPlanner.cs:258-270 | A slot list of the knapsack's length is the face's slot list, whatever the shuffle did. |
| FactoryPlanner.CreateHorizontalWindow | PlateauToolkit.Sandbox/Runtime/PlateauSandboxBuildings/Runtime/ProceduralFacadeFactoryPlanner.cs:284-310 | It fails with an index error exactly when to == 0. Otherwise it builds the window row WindowRow. |
| FactoryPlanner.WindowRowPattern | PlateauToolkit.Sandbox/Runtime/PlateauSandboxBuildings/Runtime/ProceduralFacadeFactoryPlanner.cs:287-307 | The window row has one panel per slot (at least one), all of the row's height. Panel p is a wall iff p is a multiple of 3 or the last. |
| FactoryPlanner.WindowRowRuns | PlateauToolkit.Sandbox/Runtime/PlateauSandboxBuildings/Runtime/ProceduralFacadeFactoryPlanner.cs:287-307 | The window row starts and ends with a wall, and windows come in runs of at most two. |
| FactoryPlanner.WindowRowWidth | PlateauToolkit.Sandbox/Runtime/PlateauSandboxBuildings/Runtime/ProceduralFacadeFactoryPlanner.cs:289-307 | The window row is as wide as its slots plus their offsets. |
| FactoryPlanner.MarkEntrances | PlateauToolkit.Sandbox/Runtime/PlateauSandboxBuildings/Runtime/ProceduralFacadeFactoryPlanner.cs:316-336 | The array marks pairs at 3k and 3k+1 for k < to/3, plus a single slot at 3(to/3) when that is inside. oneCount counts each pair or single once. |
| FactoryPlanner.ShareOfLastSlot | PlateauToolkit.Sandbox/Runtime/PlateauSandboxBuildings/Runtime/ProceduralFacadeFactoryPlanner.cs:339-344 | The share is the unmarked last slot's width split over the entrances, and 0 when the last slot is marked. |
| FactoryPlanner.PairStep | PlateauToolkit.Sandbox/Runtime/PlateauSandboxBuildings/Runtime/ProceduralFacadeFactoryPlanner.cs:349-358 | A scan position holding two marks starts a pair group, and the pair emits exactly one panel. |
| FactoryPlanner.SingleStep | PlateauToolkit.Sandbox/Runtime/PlateauSandboxBuildings/Runtime/ProceduralFacadeFactoryPlanner.cs:360-368 | A lone mark is the final single at 3(to/3), and emits one panel. |
| FactoryPlanner.WallStep | PlateauToolkit.Sandbox/Runtime/PlateauSandboxBuildings/Runtime/ProceduralFacadeFactoryPlanner.cs:370-375 | An unmarked slot before the last is the wall at 3k+2, and emits one panel. |
| FactoryPlanner.SkipStep | PlateauToolkit.Sandbox/Runtime/PlateauSandboxBuildings/Runtime/ProceduralFacadeFactoryPlanner.cs:376-380 | An unmarked last slot emits nothing. |
| FactoryPlanner.ScanEnd | PlateauToolkit.Sandbox/Runtime/PlateauSandboxBuildings/Runtime/ProceduralFacadeFactoryPlanner.cs:346-381 | The scan emits 2·oneCount - 1 panels in all. |
| FactoryPlanner.PairPanel | PlateauToolkit.Sandbox/Runtime/PlateauSandboxBuildings/Runtime/ProceduralFacadeFactoryPlanner.cs:349-358 | The panel a pair emits is an entrance two slots plus the share wide. |
| FactoryPlanner.SinglePanel | PlateauToolkit.Sandbox/Runtime/PlateauSandboxBuildings/Runtime/ProceduralFacadeFactoryPlanner.cs:360-368 | The panel a single emits is an entrance one slot plus the share wide. |
| FactoryPlanner.WallPanel | PlateauToolkit.Sandbox/Runtime/PlateauSandboxBuildings/Runtime/ProceduralFacadeFactoryPlanner.cs:370-375 | The panel an unmarked slot emits is a wall one slot wide. |
| FactoryPlanner.ScanEntrances | PlateauToolkit.Sandbox/Runtime/PlateauSandboxBuildings/Runtime/ProceduralFacadeFactoryPlanner.cs:346-381 | The scan over the marked array builds exactly the entrance row EntranceRow. |
| FactoryPlanner.CreateHorizontalEntrance | PlateauToolkit.Sandbox/Runtime/PlateauSandboxBuildings/Runtime/ProceduralFacadeFactoryPlanner.cs:312-384 | It fails with an array index error exactly when to == 0. Otherwise it builds the entrance row. |
| FactoryPlanner.EntranceRowShape | PlateauToolkit.Sandbox/Runtime/PlateauSandboxBuildings/Runtime/ProceduralFacadeFactoryPlanner.cs:346-381 | The entrance row has 2·oneCount - 1 panels, all of the row's height. Entrances with the given top offset sit at even positions and walls at odd ones. |
| FactoryPlanner.EntrancePanelWidth | PlateauToolkit.Sandbox/Runtime/PlateauSandboxBuildings/Runtime/ProceduralFacadeFactoryPlanner.cs:348-375 | A wall is one slot wide. A paired entrance is two slots plus the share wide. The final single is one slot plus the share wide. |
| FactoryPlanner.LastSlotShared | PlateauToolkit.Sandbox/Runtime/PlateauSandboxBuildings/Runtime/ProceduralFacadeFactoryPlanner.cs:339-344 | The last slot is marked iff to mod 3 == 1; then the share is 0. Otherwise oneCount shares make up one slot. |
| FactoryPlanner.EntranceGroupsWidth | PlateauToolkit.Sandbox/Runtime/PlateauSandboxBuildings/Runtime/ProceduralFacadeFactoryPlanner.cs:346-381 | Every group of entrance and wall before the last entrance is three slots plus one share wide. |
| FactoryPlanner.EntrancePairWidth | PlateauToolkit.Sandbox/Runtime/PlateauSandboxBuildings/Runtime/ProceduralFacadeFactoryPlanner.cs:349-375 | The i-th entrance of a group is two slots plus the share wide, and the wall after it is one slot wide. |
| FactoryPlanner.EntranceRowWidth | PlateauToolkit.Sandbox/Runtime/PlateauSandboxBuildings/Runtime/ProceduralFacadeFactoryPlanner.cs:339-381 | For every to >= 1, the entrance row is exactly as wide as its to slots: the skipped last wall's width is all handed to the entrances. |
| FactoryPlanner.EntranceRowTotal | PlateauToolkit.Sandbox/Runtime/PlateauSandboxBuildings/Runtime/ProceduralFacadeFactoryPlanner.cs:339-381 | The groups plus the last entrance add up to to slots, in each of the three residues of to mod 3. |
| FactoryPlanner.CreateNormalFacadeVertical | PlateauToolkit.Sandbox/Runtime/PlateauSandboxBuildings/Runtime/ProceduralFacadeFactoryPlanner.cs:204-215 | The loop builds the upper wall floors WallFloors: floor(H/h) - 1 wall rows, one floor high. |
| FactoryPlanner.WallFloorsMeasures | PlateauToolkit.Sandbox/Runtime/PlateauSandboxBuildings/Runtime/ProceduralFacadeFactoryPlanner.cs:206-212 | There is one row per upper floor. Each row is one floor high and as wide as its slots plus the remainder. The stack is (floor count)·h high. |
| FactoryPlanner.PlanNormalFacade | PlateauToolkit.Sandbox/Runtime/PlateauSandboxBuildings/Runtime/ProceduralFacadeFactoryPlanner.cs:182-202 | It fails exactly when there are no slots, because the window row indexes the last slot. Otherwise it builds NormalFacade: socle, socle top and window row, then the wall floors when something remains. |
| FactoryPlanner.FacadeHeightFromGround | PlateauToolkit.Sandbox/Runtime/PlateauSandboxBuildings/Runtime/ProceduralFacadeFactoryPlanner.cs:195-199 | The entrance floor plus the upper floors (added only when something remains) is H once H >= h. |
| FactoryPlanner.NormalFacadeMeasures | PlateauToolkit.Sandbox/Runtime/PlateauSandboxBuildings/Runtime/ProceduralFacadeFactoryPlanner.cs:182-202 | An ordinary face is H high once H >= h. Its socle, socle-top and window rows, and every upper floor, are as wide as slots plus remainder. |
| FactoryPlanner.NormalFacadeHeight | PlateauToolkit.Sandbox/Runtime/PlateauSandboxBuildings/Runtime/ProceduralFacadeFactoryPlanner.cs:187-199 | The height half: 0.3 + 0.05 + (entrance - 0.35) + upper floors is H, or the entrance height when H < h. |
| FactoryPlanner.NormalFacadeWidths | PlateauToolkit.Sandbox/Runtime/PlateauSandboxBuildings/Runtime/ProceduralFacadeFactoryPlanner.cs:186-199 | The width half: every ground row and every upper floor is as wide as slots plus remainder. |
| FactoryPlanner.SpreadPanelRowWidth | PlateauToolkit.Sandbox/Runtime/PlateauSandboxBuildings/Runtime/ProceduralFacadeFactoryPlanner.cs:186-190 | A panel row over all slots, each widened by remainder/count, is as wide as slots plus remainder. |
| FactoryPlanner.SpreadWindowRowWidth | PlateauToolkit.Sandbox/Runtime/PlateauSandboxBuildings/Runtime/ProceduralFacadeFactoryPlanner.cs:186-191 | The same holds for the window row. |
| FactoryPlanner.PlanEntranceFacade | PlateauToolkit.Sandbox/Runtime/PlateauSandboxBuildings/Runtime/ProceduralFacadeFactoryPlanner.cs:217-244 | It fails with an index error exactly when there are no slots. Otherwise it builds EntranceFacade: end walls of max(1.25, remainder)/2 around an entrance row narrowed by their share, then the wall floors. |
| FactoryPlanner.EndWallsBalance | PlateauToolkit.Sandbox/Runtime/PlateauSandboxBuildings/Runtime/ProceduralFacadeFactoryPlanner.cs:221-223 | Two end walls plus n slots at the narrowed offset make up n·2.5 + remainder. |
| FactoryPlanner.EntranceGroundParts | PlateauToolkit.Sandbox/Runtime/PlateauSandboxBuildings/Runtime/ProceduralFacadeFactoryPlanner.cs:229-234 | The entrance floor is end wall + entrance row + end wall wide. |
| FactoryPlanner.EntranceRowBetweenWalls | PlateauToolkit.Sandbox/Runtime/PlateauSandboxBuildings/Runtime/ProceduralFacadeFactoryPlanner.cs:221-232 | The narrowed entrance row between the two end walls spans slots plus remainder. |
| FactoryPlanner.EntranceGroundWidth | PlateauToolkit.Sandbox/Runtime/PlateauSandboxBuildings/Runtime/ProceduralFacadeFactoryPlanner.cs:221-234 | The front face's entrance floor is exactly as wide as the facade's slots plus remainder. |
| FactoryPlanner.EntranceFacadeMeasures | PlateauToolkit.Sandbox/Runtime/PlateauSandboxBuildings/Runtime/ProceduralFacadeFactoryPlanner.cs:217-244 | The front face is H high once H >= h. Its entrance floor and upper floors are as wide as the facade. It has upper floors iff H >= 2h. Entrances get top offset 0 with upper floors and 1.0 without. |
| FactoryPlanner.PlanFacade | PlateauToolkit.Sandbox/Runtime/PlateauSandboxBuildings/Runtime/ProceduralFacadeFactoryPlanner.cs:86-110 | Faces 0, 1 and 3 get the normal facade and face 2 the entrance facade. A face without slots fails with the error of its facade kind. |
| FactoryPlanner.FaceFacadeMeasures | PlateauToolkit.Sandbox/Runtime/PlateauSandboxBuildings/Runtime/ProceduralFacadeFactoryPlanner.cs:63-110 | A face's facade is exactly as wide as the edge, and as high as the building once the building holds a floor. |
| FactoryPlanner.Plan | PlateauToolkit.Sandbox/Runtime/PlateauSandboxBuildings/Runtime/ProceduralFacadeFactoryPlanner.cs:43-126 | The height is capped and the rest of the configuration is kept. Planning succeeds iff none of the first four edges is too short for a slot; otherwise it fails with the first such face's error. On success there is one layout per edge, at most four (it returns early on a fifth edge). Layout i is face i's facade, with the searched floor height. |
| FactoryPlanner.PlannedFacesSnoc | PlateauToolkit.Sandbox/Runtime/PlateauSandboxBuildings/Runtime/ProceduralFacadeFactoryPlanner.cs:85-122 | Appending the next face's facade keeps "layout k is face k's facade" for every k. |
| FactoryPlanner.PlannedFaceMeasures | PlateauToolkit.Sandbox/Runtime/PlateauSandboxBuildings/Runtime/ProceduralFacadeFactoryPlanner.cs:43-126 | Every planned face is exactly as wide as its edge, and as high as the building when that is at least 3.25. |
| BuildingConfig.Config.constructor | PlateauToolkit.Sandbox/Runtime/PlateauSandboxBuildingsLib/Buildings/Configs/ComplexBuildingConfig.cs:9-21 | A fresh configuration has boundary height 15, spandrel height 1.25 and the boundary flag clear. |
| ComplexElements.RoundToHundredths | PlateauToolkit.Sandbox/Runtime/PlateauSandboxBuildings/Runtime/ProceduralFacadeComplexBuildingPlanner.cs:715 | Rounding to two decimals with halves away from zero gives a multiple of 0.01 within half a unit of 0.01. It keeps values that are already multiples. |
| ComplexElements.RoundToThousandths | PlateauToolkit.Sandbox/Runtime/PlateauSandboxBuildings/Runtime/ProceduralFacadeComplexBuildingPlanner.cs:456 | Rounding a width to three decimals, halves away from zero, lands within half a thousandth and keeps whole thousandths. |
| ComplexElements.ColumnOffsetShare | PlateauToolkit.Sandbox/Runtime/PlateauSandboxBuildings/Runtime/ProceduralFacadeComplexBuildingPlanner.cs:455-456 | A column of n slots given n shares of an offset widens each slot by that offset, rounded. |
| ComplexElements.DepressionPosition | PlateauToolkit.Sandbox/Runtime/PlateauSandboxBuildings/Runtime/ProceduralFacadeComplexBuildingPlanner.cs:887-903 | Slot i of a depression row gets the position of slot i on the whole facade: no left or right on a one-slot facade, no left at slot 0, no right at the last slot, middle otherwise. |
| ComplexElements.EntrancePositionIsSlotPosition | PlateauToolkit.Sandbox/Runtime/PlateauSandboxBuildings/Runtime/ProceduralFacadeComplexBuildingPlanner.cs:283 | With noLeft iff idx == 0 and noRight iff idx + 1 == count, the entrance's position is its slot's facade position. |
| ComplexElements.RepeatMeasures | PlateauToolkit.Sandbox/Runtime/PlateauSandboxBuildings/Runtime/ProceduralFacadeComplexBuildingPlanner.cs:573-583 | n floors of a panel hold no boundary wall and are n floor heights high. |
| ComplexElements.BandRowsHeight | PlateauToolkit.Sandbox/Runtime/PlateauSandboxBuildings/Runtime/ProceduralFacadeComplexBuildingPlanner.cs:871-880 | The rows of a non-empty column stack up to the total height of its bands. |
| ComplexElements.CreateDepressionWallNormalFacadeHorizontal | PlateauToolkit.Sandbox/Runtime/PlateauSandboxBuildings/Runtime/ProceduralFacadeComplexBuildingPlanner.cs:882-933 | The row holds one depression wall per slot, positioned as DepressionPosition says, marked as the boundary wall exactly when it is not an entrance's. |
| ComplexStep.PanelFor | PlateauToolkit.Sandbox/Runtime/PlateauSandboxBuildings/Runtime/ProceduralFacadeComplexBuildingPlanner.cs:703-723 | Apartment: a window iff a whole floor fits, else a wall, one floor high. Office: a spandrel iff the index is even, of spandrel height, else a full window of entrance height, rounded to 0.01. Commercial: a small window of 1.5 iff index mod 4 == 3, else a framed wall of entrance height. Hotel: an exception. |
| ComplexStep.PanelHeightPositive | PlateauToolkit.Sandbox/Runtime/PlateauSandboxBuildings/Runtime/ProceduralFacadeComplexBuildingPlanner.cs:703-721 | Every panel band has positive height once the floor, spandrel and entrance heights are large enough not to round to 0. |
| ComplexStep.AddBoundaryWall | PlateauToolkit.Sandbox/Runtime/PlateauSandboxBuildings/Runtime/ProceduralFacadeComplexBuildingPlanner.cs:733-766 | Crossing sets the flag and keeps the floor index. It adds exactly one boundary wall and moves exactly the bands' height from remaining to current. The remainder stays non-negative when the lower fill (if any) fits in it. |
| ComplexStep.Step | PlateauToolkit.Sandbox/Runtime/PlateauSandboxBuildings/Runtime/ProceduralFacadeComplexBuildingPlanner.cs:696-841 | A non-positive floor height changes nothing. A hotel is an exception. Otherwise the floor index grows by exactly 1 and the flag never goes from set to clear. current + remaining is preserved, with the bands' height moved from one to the other. The remainder stays non-negative. A boundary wall is added iff the flag turns on. |
| ComplexStep.StepBoundary | PlateauToolkit.Sandbox/Runtime/PlateauSandboxBuildings/Runtime/ProceduralFacadeComplexBuildingPlanner.cs:726-833 | The flag turns on iff it was clear and the boundary is reached by current + min(panel, remaining). Then come a lower fill of boundary - current (when allowed) and a boundary wall of min(1.0, what is left). Otherwise a panel band or a band filling the rest; the latter leaves 0. |
| ComplexStep.StepProgress | PlateauToolkit.Sandbox/Runtime/PlateauSandboxBuildings/Runtime/ProceduralFacadeComplexBuildingPlanner.cs:726-833 | For a panel that is not negative, a step that does not add the boundary wall keeps the remaining height between 0 and its old value, and lowers it exactly when the panel is more than 0 high. |
| ComplexStep.StepReachesBoundary | PlateauToolkit.Sandbox/Runtime/PlateauSandboxBuildings/Runtime/ProceduralFacadeComplexBuildingPlanner.cs:779-812 | While the column still reaches the boundary, a step that does not add the wall leaves something to stack. So the wall comes before the column ends. |
| ComplexColumn.IterStep | PlateauToolkit.Sandbox/Runtime/PlateauSandboxBuildings/Runtime/ProceduralFacadeComplexBuildingPlanner.cs:533-689 | One round fails, with ArgumentOutOfRange, iff the flag selects a hotel. The loop's flag never goes from set to clear. A round that leaves it unchanged keeps the remaining height non-negative and not higher; when it stacks nothing, the count of rounds that may still stack nothing (an office floor of 0 height is followed by one that is not; a commercial building reaches its 1.5-high small-window floor within four) goes down. |
| ComplexColumn.IterStepMeasures | PlateauToolkit.Sandbox/Runtime/PlateauSandboxBuildings/Runtime/ProceduralFacadeComplexBuildingPlanner.cs:537-689 | A round adds a boundary wall only when it sets the loop's flag. For offices and commercial buildings, its bands are exactly the height it consumes. |
| ComplexColumn.IterBoundaryAtMostOnce | PlateauToolkit.Sandbox/Runtime/PlateauSandboxBuildings/Runtime/ProceduralFacadeComplexBuildingPlanner.cs:530-691 | A column loop adds at most one boundary wall, and none once its flag is set. |
| ComplexColumn.IterBoundaryOnce | PlateauToolkit.Sandbox/Runtime/PlateauSandboxBuildings/Runtime/ProceduralFacadeComplexBuildingPlanner.cs:530-691 | An office or commercial loop that starts below the boundary and reaches it adds exactly one boundary wall. |
| ComplexColumn.IterFills | PlateauToolkit.Sandbox/Runtime/PlateauSandboxBuildings/Runtime/ProceduralFacadeComplexBuildingPlanner.cs:530-691 | A loop whose two parts are office or commercial buildings succeeds, and its bands fill exactly the remaining height. |
| ComplexColumn.IterHeight | PlateauToolkit.Sandbox/Runtime/PlateauSandboxBuildings/Runtime/ProceduralFacadeComplexBuildingPlanner.cs:530-691 | In a building of offices and commercial buildings the loop completes, and its bands add up to the height that was left, or to nothing when none was. |
| ComplexFacade.PlannedFloorsUnique | PlateauToolkit.Sandbox/Runtime/PlateauSandboxBuildings/Runtime/ProceduralFacadeComplexBuildingPlanner.cs:69-110 | The three searched floor heights and the floor counts are determined by the configuration. |
| ComplexFacade.PlannedEntranceHeight | PlateauToolkit.Sandbox/Runtime/PlateauSandboxBuildings/Runtime/ProceduralFacadeComplexBuildingPlanner.cs:453-466 | The entrance floor is one to two lower floors high when the boundary is inside the building and at least a floor up. It is the boundary height itself when the boundary is lower than a floor. It is one to two floors high when the boundary is above the building. An apartment's own ground floor is one to two lower floors high. |
| ComplexFacade.PlannedReady | PlateauToolkit.Sandbox/Runtime/PlateauSandboxBuildings/Runtime/ProceduralFacadeComplexBuildingPlanner.cs:698-721 | For planned floors, the precondition of the column loops holds exactly under LoopsEnd. An office part needs a spandrel that does not round below 0 and, when the boundary lies within the building, a boundary that does not either, one of the two rounding above 0. A commercial part needs a boundary that is not negative when it lies within the building. |
| ComplexFacade.ColumnLayoutHeight | PlateauToolkit.Sandbox/Runtime/PlateauSandboxBuildings/Runtime/ProceduralFacadeComplexBuildingPlanner.cs:452-516 | A column over at least one slot is as high as its ground and upper bands together. |
| ComplexFacade.CommercialBase | PlateauToolkit.Sandbox/Runtime/PlateauSandboxBuildings/Runtime/ProceduralFacadeComplexBuildingPlanner.cs:497-508 | The framed wall and depression wall above a commercial ground floor hold no boundary wall. They are lower than what remains, and absent when at most 1.0 remains. |
| ComplexFacade.NormalGround | PlateauToolkit.Sandbox/Runtime/PlateauSandboxBuildings/Runtime/ProceduralFacadeComplexBuildingPlanner.cs:458-514 | It fails iff the flag selects a hotel. Otherwise its bands, with no boundary wall, reach exactly where the loop starts, and the loop it hands over to ends. |
| ComplexFacade.NormalGroundFits | PlateauToolkit.Sandbox/Runtime/PlateauSandboxBuildings/Runtime/ProceduralFacadeComplexBuildingPlanner.cs:484-511 | An office or commercial ground floor whose entrance fits in the building succeeds and stays within the building. |
| ComplexFacade.NormalColumnFills | PlateauToolkit.Sandbox/Runtime/PlateauSandboxBuildings/Runtime/ProceduralFacadeComplexBuildingPlanner.cs:450-517 | When both parts are office or commercial buildings and the entrance floor fits in the building, the column succeeds and its ground and loop bands add up to exactly the building height. |
| ComplexFacade.NormalColumnHeight | PlateauToolkit.Sandbox/Runtime/PlateauSandboxBuildings/Runtime/ProceduralFacadeComplexBuildingPlanner.cs:450-517 | Under the same conditions, a column over at least one slot is laid out exactly as high as the building. |
| ComplexFacade.NormalColumnBoundaryOnce | PlateauToolkit.Sandbox/Runtime/PlateauSandboxBuildings/Runtime/ProceduralFacadeComplexBuildingPlanner.cs:450-517 | A column with an office or commercial lower part, whose boundary lies in the building above its entrance floor, holds exactly one boundary wall. |
| ComplexFacade.EntranceIndex | PlateauToolkit.Sandbox/Runtime/PlateauSandboxBuildings/Runtime/ProceduralFacadeComplexBuildingPlanner.cs:280-281 | idx = (count - 1)/2, truncated. It is within the face (== count only when empty). It is 0 iff count <= 2 and the last slot iff count == 1. The right side is as long as the left or one slot longer, so [0, idx), {idx} and [idx+1, count) cover the face. |
| ComplexFacade.EntranceSideOffsets | PlateauToolkit.Sandbox/Runtime/PlateauSandboxBuildings/Runtime/ProceduralFacadeComplexBuildingPlanner.cs:300-306 | The left and right columns, given offset·(their slot count), widen each of their slots by the rounded per-slot offset. |
| ComplexFacade.ShadowWallName | PlateauToolkit.Sandbox/Runtime/PlateauSandboxBuildings/Runtime/ProceduralFacadeComplexBuildingPlanner.cs:158-174 | It fails iff the lower part is a hotel; otherwise it gives a non-empty texture name. |
| ComplexFacade.PlanInTurnSucceeds | PlateauToolkit.Sandbox/Runtime/PlateauSandboxBuildings/Runtime/ProceduralFacadeComplexBuildingPlanner.cs:58-153 | Planning faces in turn succeeds iff every face does. Then there is one layout per face, in order, and the flag left is the last face's. |
| ComplexFacade.PlanInTurnFails | PlateauToolkit.Sandbox/Runtime/PlateauSandboxBuildings/Runtime/ProceduralFacadeComplexBuildingPlanner.cs:58-153 | A failure carries the exception of the first face that raises one. |
| ComplexFacade.PlanInTurnFailureStays | PlateauToolkit.Sandbox/Runtime/PlateauSandboxBuildings/Runtime/ProceduralFacadeComplexBuildingPlanner.cs:58-153 | Once a face raises an exception, planning more faces ends with the same one. |
| ComplexFacade.PlanInTurnExtend | PlateauToolkit.Sandbox/Runtime/PlateauSandboxBuildings/Runtime/ProceduralFacadeComplexBuildingPlanner.cs:58-153 | Planning one face more either fails with that face's exception or appends its layout and takes its flag. |
| ComplexMeasures.OfficeEntranceColumnHeight | PlateauToolkit.Sandbox/Runtime/PlateauSandboxBuildings/Runtime/ProceduralFacadeComplexBuildingPlanner.cs:363-391 | In a building of offices and commercial buildings, the office entrance column is planned and stands as tall as the building, or as its entrance floor when that is taller. |
| ComplexMeasures.CommercialEntranceColumnHeight | PlateauToolkit.Sandbox/Runtime/PlateauSandboxBuildings/Runtime/ProceduralFacadeComplexBuildingPlanner.cs:393-442 | In a building of offices and commercial buildings, the commercial entrance column (entrance window, full window, base rows, then the loop) is planned and stands as tall as the building, or as its entrance floor when that is taller. |
| ComplexMeasures.ApartmentColumnFills | PlateauToolkit.Sandbox/Runtime/PlateauSandboxBuildings/Runtime/ProceduralFacadeComplexBuildingPlanner.cs:450-517 | For an apartment lower part that reaches the top of the building and is at least two lower floors tall, the normal column's ground floor and lower floors add up to exactly the building height, with no boundary wall. |
| ComplexMeasures.CondominiumEntranceColumnHeight | PlateauToolkit.Sandbox/Runtime/PlateauSandboxBuildings/Runtime/ProceduralFacadeComplexBuildingPlanner.cs:325-361 | In such a planned apartment building the condominium entrance column is planned and stands as tall as the building. Its ground row is end wall, wall slots, entrance window, wall slots, end wall, as high as the entrance floor; the window's top offset (C:342) fills the entrance floor above the 2.5-high window. |
| ComplexMeasures.NormalColumnWidth | PlateauToolkit.Sandbox/Runtime/PlateauSandboxBuildings/Runtime/ProceduralFacadeComplexBuildingPlanner.cs:450-456 | A normal column over the slots [from, to) is as wide as its slots, each widened by the column's share of its remainder width rounded to a thousandth. |
| ComplexMeasures.EntranceColumnWidth | PlateauToolkit.Sandbox/Runtime/PlateauSandboxBuildings/Runtime/ProceduralFacadeComplexBuildingPlanner.cs:363-442 | The office and the commercial entrance columns are as wide as the entrance slot widened by the per-slot offset. |
| ComplexMeasures.CondominiumEntranceColumnWidth | PlateauToolkit.Sandbox/Runtime/PlateauSandboxBuildings/Runtime/ProceduralFacadeComplexBuildingPlanner.cs:325-361 | The condominium entrance column is as wide as all the slots, each widened by the per-slot offset: the two end walls take back exactly the wall offset that narrowing the slots gives up. |
| ComplexFaces.ApartmentColumnHeight | PlateauToolkit.Sandbox/Runtime/PlateauSandboxBuildings/Runtime/ProceduralFacadeComplexBuildingPlanner.cs:450-517 | A normal apartment column over at least one slot, in a building as above, is planned and stands as tall as the building. |
| ComplexFaces.FillingColumnHeight | PlateauToolkit.Sandbox/Runtime/PlateauSandboxBuildings/Runtime/ProceduralFacadeComplexBuildingPlanner.cs:450-517 | A normal column over at least one slot, in any building whose columns fill it (offices and commercial buildings, or an apartment lower part as above), is planned and as tall as the building. |
| ComplexFaces.NormalFacadeMeasures | PlateauToolkit.Sandbox/Runtime/PlateauSandboxBuildings/Runtime/ProceduralFacadeComplexBuildingPlanner.cs:444-448 | A normal facade over at least one slot, in such a building, is planned, stands as tall as the building, and is as wide as its slots and the remainder up to half a thousandth a slot (the rounding of the per-slot offset). |
| ComplexFaces.AroundEntranceHeights | PlateauToolkit.Sandbox/Runtime/PlateauSandboxBuildings/Runtime/ProceduralFacadeComplexBuildingPlanner.cs:298-317 | In a building of offices and commercial buildings whose entrance floor fits, the three columns are planned; the entrance column and each side column that spans a slot stand as tall as the building. |
| ComplexFaces.AroundEntranceWidths | PlateauToolkit.Sandbox/Runtime/PlateauSandboxBuildings/Runtime/ProceduralFacadeComplexBuildingPlanner.cs:298-317 | The entrance column is the slot widened by the per-slot offset; each side column is its slots widened by the offset rounded to a thousandth. |
| ComplexFaces.AroundEntranceSpread | PlateauToolkit.Sandbox/Runtime/PlateauSandboxBuildings/Runtime/ProceduralFacadeComplexBuildingPlanner.cs:276-317 | With the offset being the remainder shared over all slots, the three columns together are as wide as the slots and the remainder, up to half a thousandth for each slot of the side columns. |
| ComplexFaces.EntranceFacadeMeasures | PlateauToolkit.Sandbox/Runtime/PlateauSandboxBuildings/Runtime/ProceduralFacadeComplexBuildingPlanner.cs:276-323 | An office or commercial entrance facade over at least one slot, in a building of offices and commercial buildings whose entrance floor fits, is one row of three columns around the middle slot, each as tall as the building when it spans a slot, and as wide as the slots and the remainder up to half a thousandth a side slot. |
| ComplexFaces.CondominiumFacadeMeasures | PlateauToolkit.Sandbox/Runtime/PlateauSandboxBuildings/Runtime/ProceduralFacadeComplexBuildingPlanner.cs:276-296 | An apartment entrance facade over at least one slot, in a planned apartment building as above, is planned, stands as tall as the building and is exactly as wide as its slots and the remainder. |
| ComplexFaces.FacadeMeasures | PlateauToolkit.Sandbox/Runtime/PlateauSandboxBuildings/Runtime/ProceduralFacadeComplexBuildingPlanner.cs:114-152 | The facade of each face over at least one slot, in a building its columns fill, is planned, is as wide as the edge up to half a thousandth a slot, and stands as tall as the building on a normal face and on an apartment entrance face. |
| ComplexFaces.FaceMeasures | PlateauToolkit.Sandbox/Runtime/PlateauSandboxBuildings/Runtime/ProceduralFacadeComplexBuildingPlanner.cs:114-152 | Each such face is planned as two parts: the shadow wall, 0.65 narrower than the edge and 0.65 lower than the building, above the facade just described. |
| ComplexPlanner.ComplexPlanner.constructor | PlateauToolkit.Sandbox/Runtime/PlateauSandboxBuildings/Runtime/ProceduralFacadeComplexBuildingPlanner.cs:29-40 | A new planner has zero floor heights and counts, and no shadow-wall texture. |
| ComplexPlanner.ComplexPlanner.AddBoundaryWallRows | PlateauToolkit.Sandbox/Runtime/PlateauSandboxBuildings/Runtime/ProceduralFacadeComplexBuildingPlanner.cs:733-766 | It appends exactly the rows of AddBoundaryWall's bands and returns its state. |
| ComplexPlanner.ComplexPlanner.CreateBuildingPlanner | PlateauToolkit.Sandbox/Runtime/PlateauSandboxBuildings/Runtime/ProceduralFacadeComplexBuildingPlanner.cs:696-842 | It succeeds iff Step does and returns Step's state, appending the rows of Step's bands. The configuration's flag becomes the returned flag (unchanged for a non-positive floor height or a hotel), and nothing else changes. |
| ComplexPlanner.ComplexPlanner.AddCondominiumFloors | PlateauToolkit.Sandbox/Runtime/PlateauSandboxBuildings/Runtime/ProceduralFacadeComplexBuildingPlanner.cs:570-580 | It appends max(1, n) window rows: the first always, then one per further floor. |
| ComplexPlanner.ComplexPlanner.HigherApartmentRound | PlateauToolkit.Sandbox/Runtime/PlateauSandboxBuildings/Runtime/ProceduralFacadeComplexBuildingPlanner.cs:540-604 | An apartment round above the boundary does what IterStep says, rows and state, and sets the configuration's flag. |
| ComplexPlanner.ComplexPlanner.UpperApartmentStep | PlateauToolkit.Sandbox/Runtime/PlateauSandboxBuildings/Runtime/ProceduralFacadeComplexBuildingPlanner.cs:659-664 | The higher-floor step after an apartment's lower floors does what UpperStep says. |
| ComplexPlanner.ComplexPlanner.LowerApartmentRound | PlateauToolkit.Sandbox/Runtime/PlateauSandboxBuildings/Runtime/ProceduralFacadeComplexBuildingPlanner.cs:605-667 | An apartment round below the boundary does what LowerApartment says. |
| ComplexPlanner.ComplexPlanner.IterRound | PlateauToolkit.Sandbox/Runtime/PlateauSandboxBuildings/Runtime/ProceduralFacadeComplexBuildingPlanner.cs:533-689 | One round of the loop does exactly what IterStep says, exception included, and leaves the configuration's flag as IterStep's state has it. |
| ComplexPlanner.ComplexPlanner.CreateNormalFacadeVerticalIter | PlateauToolkit.Sandbox/Runtime/PlateauSandboxBuildings/Runtime/ProceduralFacadeComplexBuildingPlanner.cs:519-694 | The loop succeeds iff Iter does. Its vertical holds exactly the rows of Iter's bands, and the configuration's flag ends as Iter leaves it. |
| ComplexPlanner.ComplexPlanner.AddCommercialBase | PlateauToolkit.Sandbox/Runtime/PlateauSandboxBuildings/Runtime/ProceduralFacadeComplexBuildingPlanner.cs:497-508 | It appends the rows of CommercialBase and reports the height they take. |
| ComplexPlanner.ComplexPlanner.CreateNormalGround | PlateauToolkit.Sandbox/Runtime/PlateauSandboxBuildings/Runtime/ProceduralFacadeComplexBuildingPlanner.cs:453-508 | It returns NormalGround for the configuration's flag, and the rows of its bands. |
| ComplexPlanner.ComplexPlanner.CreateNormalFacadeVertical | PlateauToolkit.Sandbox/Runtime/PlateauSandboxBuildings/Runtime/ProceduralFacadeComplexBuildingPlanner.cs:450-517 | It builds NormalColumn's layout (hotel: its exception) and leaves the flag NormalColumn leaves. |
| ComplexPlanner.ComplexPlanner.CreateSkyscraperCondominiumEntranceVertical | PlateauToolkit.Sandbox/Runtime/PlateauSandboxBuildings/Runtime/ProceduralFacadeComplexBuildingPlanner.cs:325-361 | It builds CondominiumEntranceColumn: the entrance floor across the face, then the loop over the entrance slot. An entrance slot past the end is an exception. |
| ComplexPlanner.ComplexPlanner.CreateOfficeEntranceVertical | PlateauToolkit.Sandbox/Runtime/PlateauSandboxBuildings/Runtime/ProceduralFacadeComplexBuildingPlanner.cs:363-391 | It builds OfficeEntranceColumn: entrance window, full window up to the entrance height, then the loop. It fails only when the entrance slot is past the end. |
| ComplexPlanner.ComplexPlanner.AddCommercialEntranceBase | PlateauToolkit.Sandbox/Runtime/PlateauSandboxBuildings/Runtime/ProceduralFacadeComplexBuildingPlanner.cs:427-438 | It appends CommercialBase's bands as single elements, and reports the height they take. |
| ComplexPlanner.ComplexPlanner.CreateCommercialEntranceVertical | PlateauToolkit.Sandbox/Runtime/PlateauSandboxBuildings/Runtime/ProceduralFacadeComplexBuildingPlanner.cs:393-442 | It builds CommercialEntranceColumn, with the depression wall placed by EntrancePosition. |
| ComplexPlanner.ComplexPlanner.AddRightColumn | PlateauToolkit.Sandbox/Runtime/PlateauSandboxBuildings/Runtime/ProceduralFacadeComplexBuildingPlanner.cs:305-306 | With the flag cleared, it builds the normal column over [idx+1, count), given offset·(count - idx - 1). |
| ComplexPlanner.ComplexPlanner.CreateColumnsAroundEntrance | PlateauToolkit.Sandbox/Runtime/PlateauSandboxBuildings/Runtime/ProceduralFacadeComplexBuildingPlanner.cs:298-317 | It builds ColumnsAroundEntrance: left column, entrance column and right column, the flag cleared before each. |
| ComplexPlanner.ComplexPlanner.CreateEntranceVertical | PlateauToolkit.Sandbox/Runtime/PlateauSandboxBuildings/Runtime/ProceduralFacadeComplexBuildingPlanner.cs:288-323 | It builds EntranceVertical by the building type at the flag (hotel: exception). |
| ComplexPlanner.ComplexPlanner.PlanEntranceFacade | PlateauToolkit.Sandbox/Runtime/PlateauSandboxBuildings/Runtime/ProceduralFacadeComplexBuildingPlanner.cs:276-286 | It builds EntranceFacade over the edge's slots, with the entrance at EntranceIndex. |
| ComplexPlanner.ComplexPlanner.PlanNormalFacade | PlateauToolkit.Sandbox/Runtime/PlateauSandboxBuildings/Runtime/ProceduralFacadeComplexBuildingPlanner.cs:444-448 | It builds NormalFacade: one normal column over all of the edge's slots. |
| ComplexPlanner.ComplexPlanner.SetupConstructors | PlateauToolkit.Sandbox/Runtime/PlateauSandboxBuildings/Runtime/ProceduralFacadeComplexBuildingPlanner.cs:158-174 | The shadow-wall texture becomes ShadowWallName of the lower type. A hotel is an exception and changes nothing. |
| ComplexPlanner.ComplexPlanner.SearchFloors | PlateauToolkit.Sandbox/Runtime/PlateauSandboxBuildings/Runtime/ProceduralFacadeComplexBuildingPlanner.cs:68-110 | The fields become the planned floors: the best floor heights of the building, of the part above the boundary wall and of the part below, with their floor counts. |
| ComplexPlanner.ComplexPlanner.PlanFace | PlateauToolkit.Sandbox/Runtime/PlateauSandboxBuildings/Runtime/ProceduralFacadeComplexBuildingPlanner.cs:114-152 | Face i is built as Face describes: the shadow wall 0.65 narrower and lower than the face, over the entrance facade on face 2 and the normal facade elsewhere. |
| ComplexPlanner.ComplexPlanner.PlanEdge | PlateauToolkit.Sandbox/Runtime/PlateauSandboxBuildings/Runtime/ProceduralFacadeComplexBuildingPlanner.cs:58-152 | One round of the loop searches the floors, clears the flag and returns face i's result. |
| ComplexPlanner.ComplexPlanner.PlanNext | PlateauToolkit.Sandbox/Runtime/PlateauSandboxBuildings/Runtime/ProceduralFacadeComplexBuildingPlanner.cs:58-153 | Planning face i after faces 0..i-1 extends the faces planned in turn, or fails as the whole planning does. |
| ComplexPlanner.ComplexPlanner.PlanFaces | PlateauToolkit.Sandbox/Runtime/PlateauSandboxBuildings/Runtime/ProceduralFacadeComplexBuildingPlanner.cs:58-153 | The loop over the first four edges gives PlanInTurn of the face results: their layouts, or the first exception. |
| ComplexPlanner.ComplexPlanner.SkipFaces | PlateauToolkit.Sandbox/Runtime/PlateauSandboxBuildings/Runtime/ProceduralFacadeComplexBuildingPlanner.cs:58-113 | Edges past the fourth only search the floors again (same result) and clear the flag. |
| ComplexPlanner.ComplexPlanner.Plan | PlateauToolkit.Sandbox/Runtime/PlateauSandboxBuildings/Runtime/ProceduralFacadeComplexBuildingPlanner.cs:47-156 | Under LoopsEnd, the height is capped and nothing else in the configuration changes except the flag. A hotel lower part is an exception. Otherwise the result is the faces planned in turn (one layout per face, at most four) or the first face's exception. The final flag is the last face's, or cleared after a fifth edge. |
| ElectricPost.HasTarget | PlateauToolkit.Sandbox/Runtime/ElectricPost/PlateauSandboxElectricPostInfo.cs:27 | True iff some entry of the list has the target. |
| ElectricPost.Connect | PlateauToolkit.Sandbox/Runtime/ElectricPost/PlateauSandboxElectricPostInfo.cs:65-72 | The target is present afterwards. An already present target leaves the list unchanged; otherwise exactly (other, isOtherFront) is appended. |
| ElectricPost.ConnectIdempotent | PlateauToolkit.Sandbox/Runtime/ElectricPost/PlateauSandboxElectricPostInfo.cs:65-81 | Wiring the same target twice is the same as once, whatever side the second call names. |
| ElectricPost.ConnectKeepsUnique | PlateauToolkit.Sandbox/Runtime/ElectricPost/PlateauSandboxElectricPostInfo.cs:65-81 | Wiring keeps every real post at most once per list. |
| ElectricPost.PlaceholderKeepsUnique | PlateauToolkit.Sandbox/Runtime/ElectricPost/PlateauSandboxElectricPostInfo.cs:35-45 | Appending a placeholder keeps every real post at most once per list. |
| ElectricPost.RemoveKeepsUnique | PlateauToolkit.Sandbox/Runtime/ElectricPost/PlateauSandboxElectricPostInfo.cs:47-63 | Removing an entry keeps every real post at most once per list. |
| ElectricPost.WireVerdictCases | PlateauToolkit.Sandbox/Runtime/ElectricPost/PlateauSandboxElectricPostInfo.cs:83-103 | The verdict is false iff every entry (none, for an empty list) is a real post showing the reached side. It is true iff some entry is a peer not showing it, and every earlier entry is a showing real post. It is a null-reference exception iff a placeholder comes before any such peer. |
| ElectricPost.AllPeersShowingSplit | PlateauToolkit.Sandbox/Runtime/ElectricPost/PlateauSandboxElectricPostInfo.cs:91-101 | All of the first k entries show iff the first entry does and the k - 1 entries after it do: the step the loop takes from one entry to the next. |
| ElectricPost.ScanWires | PlateauToolkit.Sandbox/Runtime/ElectricPost/PlateauSandboxElectricPostInfo.cs:85-102 | The foreach loop gives exactly WireVerdict. |
| ElectricPost.ElectricPostInfo.constructor | PlateauToolkit.Sandbox/Runtime/ElectricPost/PlateauSandboxElectricPostInfo.cs:12-16 | Both lists start empty and the class invariant holds. |
| ElectricPost.ElectricPostInfo.CanConnect | PlateauToolkit.Sandbox/Runtime/ElectricPost/PlateauSandboxElectricPostInfo.cs:23-33 | True iff no entry of the chosen side's list reaches the target. |
| ElectricPost.ElectricPostInfo.AddConnection | PlateauToolkit.Sandbox/Runtime/ElectricPost/PlateauSandboxElectricPostInfo.cs:35-45 | Exactly one (null, false) placeholder is appended to the chosen side. The other side is unchanged and the invariant is kept. |
| ElectricPost.ElectricPostInfo.RemoveConnection | PlateauToolkit.Sandbox/Runtime/ElectricPost/PlateauSandboxElectricPostInfo.cs:47-63 | An index in range removes exactly that entry, keeping the order of the rest. An index out of range changes nothing. The other side is unchanged and the invariant is kept. |
| ElectricPost.ElectricPostInfo.SetFrontConnect | PlateauToolkit.Sandbox/Runtime/ElectricPost/PlateauSandboxElectricPostInfo.cs:65-72 | The front list becomes Connect of the old one. The back list is unchanged and the invariant is kept. |
| ElectricPost.ElectricPostInfo.SetBackConnect | PlateauToolkit.Sandbox/Runtime/ElectricPost/PlateauSandboxElectricPostInfo.cs:74-81 | The back list becomes Connect of the old one. The front list is unchanged and the invariant is kept. |
| ElectricPost.ElectricPostInfo.CanShowFrontWire | PlateauToolkit.Sandbox/Runtime/ElectricPost/PlateauSandboxElectricPostInfo.cs:83-103 | It answers WireVerdict of the front list: false when empty, true iff some peer does not show the reached side. |
| ElectricPost.ElectricPostInfo.CanShowBackWire | PlateauToolkit.Sandbox/Runtime/ElectricPost/PlateauSandboxElectricPostInfo.cs:105-125 | The same, for the back list. |

## Left out

- Mesh and material construction is not modelled: the `Construct` callbacks, `widthScale`/`heightScale`, `GetRandom` over the constructor lists, and the element classes of ProceduralFacadeCompoundElements.cs. Elements are leaves of the layout tree with a kind, a width and a height. The factory's `SetupConstructors` (F:128-180) only fills constructor tables. In the complex planner only the shadow-wall texture chosen by `SetupConstructors` is kept, as the `shadowWallName` field.
- `Debug.Log` output is not modelled.
- The setting of `faceDirection` is not modelled. It only selects visuals, and the balcony branches that would read it are commented out; the model takes the non-balcony branch (C:548-580, 612-644).
- `Geometry.GetAngle` and the float vector lengths of the footprint are not modelled. An edge is given as its width and the convexity of its two corners.
- `PTUtils.Knapsack` is not part of this model. Facade.KnapsackCount states what it returns with the single 2.5 size: as many slots as fit and no more.
- `Shuffle` randomness: the order is drawn from a `draws` parameter. Facade.Shuffle promises only a permutation. With a single slot size, no later result depends on the order.
- Floats are modelled as exact thousandths. The floor-height grid is fixed at 2.75 + 0.05k for k < 10, while the source accumulates `+= 0.05f` in single precision (C:70-78, F:74-83). Whether the float loop also visits a value just below 3.25 is not modelled.
- Facade widths and edge widths are whole thousandths.
- The three-decimal rounding of heights is the identity on whole thousandths. The modelled roundings that change a value are the office panel's two-decimal rounding (C:715) and the column's per-slot width offset (C:456).
- ComplexPlanner.ComplexPlanner.Plan and the column members require LoopsEnd. It excludes an office part whose spandrel rounds below 0, or, with the boundary within the building, whose boundary rounds below 0 or whose spandrel and boundary both round to 0; and a commercial part whose boundary within the building is negative. The model's termination measure needs every band to be at least 0 high, and the office zero/zero case is excluded whichever part is the office. The loop at C:530 never ends when the higher part is an office whose spandrel and boundary both round to 0 and more than the 1.0 depression wall remains above the boundary (C:750-764). On the other excluded inputs, such as an office lower part with a commercial higher part, it may end, and those runs are not modelled.
- ComplexPlanner.ComplexPlanner.Plan and ComplexPlanner.ComplexPlanner.PlanFaces: with fewer than four edges, a fault in a later face is never reached, as in the source. Faces past the fourth are not planned at all.
- The width offsets `ColumnOffset` and `EntranceOffset` give 0 on an empty slot range, where the source divides by zero and gets NaN. No element is ever built from that value.
- The height of a `Horizontal` is its first child's, and the width of a `Vertical` its first child's.
- ComplexFaces.EntranceFacadeMeasures, ComplexFaces.FacadeMeasures and ComplexFaces.FaceMeasures: for an office or commercial entrance face they state the height of each column rather than of the facade, because the facade row takes its height from the left column, which is empty when the entrance slot is the first.
- ComplexFaces.FillingColumnHeight and the facade and face measures cover buildings of offices and commercial buildings whose entrance floor fits in the building, and apartment lower parts that reach the top of the building and are at least two lower floors tall. An apartment building rising above the boundary, or one mixing apartments with another type, is planned by the same members, but the height of its columns is not proved.
- The depression wall's depth and materials (C:906-929) are not modelled. Only whether it is the boundary wall, and its position, are kept.
- The factory planner's unused shadow-wall values (F:64-69) and its commented-out shadow wall (F:112-121) are not modelled.
- Layouts are immutable values, not mutable containers. `vertical.Add(...)` becomes appending to a sequence, and nested layouts are never aliased.
- After an exception the configuration's flag is whatever the methods left. The model promises nothing about it; the source's caller does not catch the exception.
- The shadow wall is its own element kind (`ShadowWall(name)`), rather than a wall element flagged as a shadow.
- The condominium entrance column checks the entrance slot before the per-slot division by the slot count. Either way the source throws on an empty face before building anything.
- The electric post's target is an `Option` of a post number; `null` is `None`.
- Whether a peer shows its front or back wire (`IsShowingFrontWire`/`IsShowingBackWire` of PlateauSandboxElectricPost.cs) is the `isShowing` parameter.
- `UniquePosts` (every real post at most once per list) is the class invariant `Valid()`. The constructor establishes it and every method keeps it. The mutating methods require it because it is the class invariant, not because the source checks it.
- The factory planner's face results, and the complex planner's floor plan, are stated through the ghost predicates `PlannedFace`/`PlannedFaces` and `PlannedFloors`. These have no counterpart in the source.
