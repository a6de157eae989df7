/**
 * What the complex-building planner lays out: the panel kinds of its three
 * building types, the depression walls that cap a commercial ground floor or
 * mark the boundary between a complex building's lower and higher parts,
 * and the entrance windows. A column of a facade is described by its bands
 * (one panel kind and a height each), every band becoming a row over the
 * column's slots. Heights are integers in thousandths, widths reals in
 * thousandths.
 */
module ComplexElements {
  import opened LayoutTree
  import opened Facade
  import opened BuildingConfig

  /** The panel kinds the planner's constructor table offers (besides the
      shadow wall, which is an element of its own here). */
  datatype PanelType =
    | SkyscraperCondominiumWall
    | SkyscraperCondominiumWindow
    | SkyscraperCondominiumFullWindow
    | CommercialFullWindow
    | CommercialWallWithFrame
    | CommercialSmallFullWindow
    | OfficeFullWindow
    | OfficeSmallFullWindow

  /** Where a depression wall sits along the facade: it closes its left end,
      its right end, both, or neither. */
  datatype PositionType = Middle | NoLeft | NoRight | NoLeftRight

  datatype ComplexElement =
    | Panel(panel: PanelType)
    | ShadowWall(wallName: string)
    | DepressionWall(position: PositionType, boundary: bool)  // boundary: the textured wall between the two parts
    | CondominiumEntranceWindow(topOffset: int)
    | OfficeEntranceWindow
    | CommercialEntranceWindow

  const SmallWallHeight: int := 1000
  const DepressionWallHeight: int := 1000
  const SmallWindowHeight: int := 1500
  const ShadowWallOffset: int := 650
  const EntranceWindowHeight: int := 2500
  const MinCondominiumWallWidthOffset: int := 1250

  function Min(a: int, b: int): int { if a <= b then a else b }
  function Max(a: int, b: int): int { if a >= b then a else b }
  function Abs(a: int): int { if a >= 0 then a else -a }

  /** Rounding a height in thousandths to two decimals, halves away from
      zero: the nearest multiple of 10, a tie going away from zero. */
  function RoundToHundredths(x: int): (r: int)
    ensures r % 10 == 0
    ensures 0 <= x ==> x - 5 < r <= x + 5
    ensures x < 0 ==> x - 5 <= r < x + 5
    ensures x % 10 == 0 ==> r == x
  {
    if x >= 0 then (x + 5) / 10 * 10 else -((-x + 5) / 10 * 10)
  }

  /** Rounding a width to three decimals (a whole number of thousandths),
      halves away from zero. */
  function RoundToThousandths(x: real): (r: int)
    ensures 0.0 <= x ==> x - 0.5 < r as real <= x + 0.5
    ensures x < 0.0 ==> x - 0.5 <= r as real < x + 0.5
    ensures x == x.Floor as real ==> r == x.Floor
  {
    if x >= 0.0 then (x + 0.5).Floor else -((-x + 0.5).Floor)
  }

  /** The per-slot width offset of a column over [from, to): its share of the
      remainder width, rounded. An empty column has no slots to widen (the
      planner divides by zero there and never uses the result). */
  function ColumnOffset(remainderWidth: real, from: int, to: int): real
  {
    if to == from then 0.0 else RoundToThousandths(remainderWidth / (to - from) as real) as real
  }

  /** A column of n slots whose remainder is n shares of the same offset
      gets that offset back, rounded. */
  lemma ColumnOffsetShare(offset: real, n: int, from: int, to: int)
    requires 0 < n && to - from == n
    ensures ColumnOffset(offset * n as real, from, to) == RoundToThousandths(offset) as real
  {
    var d := (to - from) as real;
    var x := offset * n as real;
    assert d == n as real;
    assert x / d == offset;
    assert ColumnOffset(x, from, to) == RoundToThousandths(x / d) as real;
  }

  /** The building type a column is laid out as: the higher part's once the
      boundary wall has been added, the lower part's before. */
  function GetComplexBuildingType(config: Config): (t: ComplexBuildingType)
    reads config
    ensures config.addedBoundaryWall ==> t == config.higherFloorBuildingType
    ensures !config.addedBoundaryWall ==> t == config.lowerFloorBuildingType
  {
    if config.addedBoundaryWall then config.higherFloorBuildingType else config.lowerFloorBuildingType
  }

  /** Where slot i sits on a facade of `count` slots. */
  function SlotPosition(i: int, count: int): PositionType
  {
    if count == 1 then NoLeftRight
    else if i == 0 then NoLeft
    else if i == count - 1 then NoRight
    else Middle
  }

  /** The position a depression row over [from, to) gives its slot i. It is
      the slot's place on the whole facade, whatever column the row spans. */
  function DepressionPosition(i: int, from: int, to: int, count: int): (p: PositionType)
    requires 0 <= from <= i < to <= count
    ensures p == SlotPosition(i, count)
  {
    if from == to - 1 && count == 1 then NoLeftRight
    else if i == 0 then NoLeft
    else if i == to - 1 && to == count then NoRight
    else Middle
  }

  /** The position of the commercial entrance column's depression wall,
      from whether there is a column to its left and to its right. */
  function EntrancePosition(noLeftLayout: bool, noRightLayout: bool): (p: PositionType)
    ensures p == NoLeftRight <==> noLeftLayout && noRightLayout
    ensures p == NoLeft <==> noLeftLayout && !noRightLayout
    ensures p == NoRight <==> !noLeftLayout && noRightLayout
    ensures p == Middle <==> !noLeftLayout && !noRightLayout
  {
    match noLeftLayout
    case true => if noRightLayout then NoLeftRight else NoLeft
    case false => if noRightLayout then NoRight else Middle
  }

  /** The entrance column's depression wall gets the position a depression
      row would give its slot, so the walls of all three columns line up. */
  lemma EntrancePositionIsSlotPosition(idx: int, count: int)
    requires 0 <= idx < count
    ensures EntrancePosition(idx == 0, idx + 1 == count) == SlotPosition(idx, count)
  {
  }

  /** What a band of a column is made of. */
  datatype BandKind = PanelBand(panel: PanelType) | DepressionBand(boundary: bool)

  datatype Band = Band(kind: BandKind, height: int)

  /** Total height of a list of bands. */
  function BandsHeight(bands: seq<Band>): int
  {
    if |bands| == 0 then 0 else bands[0].height + BandsHeight(bands[1..])
  }

  lemma {:induction false} BandsHeightAppend(a: seq<Band>, b: seq<Band>)
    ensures BandsHeight(a + b) == BandsHeight(a) + BandsHeight(b)
  {
    if |a| == 0 {
      assert a + b == b;
    } else {
      assert (a + b)[1..] == a[1..] + b;
      BandsHeightAppend(a[1..], b);
    }
  }

  /** Number of boundary depression bands in a list of bands. */
  function BoundaryCount(bands: seq<Band>): nat
  {
    if |bands| == 0 then 0
    else (if bands[0].kind == DepressionBand(true) then 1 else 0) + BoundaryCount(bands[1..])
  }

  lemma {:induction false} BoundaryCountAppend(a: seq<Band>, b: seq<Band>)
    ensures BoundaryCount(a + b) == BoundaryCount(a) + BoundaryCount(b)
  {
    if |a| == 0 {
      assert a + b == b;
    } else {
      assert (a + b)[1..] == a[1..] + b;
      BoundaryCountAppend(a[1..], b);
    }
  }

  /** n copies of a band. */
  function Repeat(b: Band, n: nat): (bands: seq<Band>)
    ensures |bands| == n && forall i :: 0 <= i < n ==> bands[i] == b
  {
    seq(n, _ => b)
  }

  /** Repeated panel bands hold no boundary wall and are n heights tall. */
  lemma {:induction false} RepeatMeasures(t: PanelType, height: int, n: nat)
    ensures BoundaryCount(Repeat(Band(PanelBand(t), height), n)) == 0
    ensures BandsHeight(Repeat(Band(PanelBand(t), height), n)) == n * height
  {
    if n > 0 {
      var b := Band(PanelBand(t), height);
      assert Repeat(b, n)[1..] == Repeat(b, n - 1);
      RepeatMeasures(t, height, n - 1);
    }
  }

  /** The depression row over [from, to): one wall per slot, positioned by
      the slot's place on the facade. */
  function DepressionRow(sizes: seq<PanelSize>, from: int, to: int, height: int, offset: real, boundary: bool): seq<Layout<ComplexElement>>
    requires 0 <= from <= to <= |sizes|
  {
    seq(to - from, k requires 0 <= k < to - from =>
      Element(DepressionWall(DepressionPosition(from + k, from, to, |sizes|), boundary), SizeValue(sizes[from + k]) as real + offset, height))
  }

  /** A band laid out as a row over the slots [from, to). */
  function BandRow(sizes: seq<PanelSize>, from: int, to: int, offset: real, b: Band): Layout<ComplexElement>
    requires 0 <= from <= to <= |sizes|
  {
    match b.kind
    case PanelBand(t) => Horizontal(PanelRow(sizes, from, to, b.height, offset, Panel(t)))
    case DepressionBand(boundary) => Horizontal(DepressionRow(sizes, from, to, b.height, offset, boundary))
  }

  function BandRows(sizes: seq<PanelSize>, from: int, to: int, offset: real, bands: seq<Band>): seq<Layout<ComplexElement>>
    requires 0 <= from <= to <= |sizes|
  {
    seq(|bands|, i requires 0 <= i < |bands| => BandRow(sizes, from, to, offset, bands[i]))
  }

  lemma BandRowsAppend(sizes: seq<PanelSize>, from: int, to: int, offset: real, a: seq<Band>, b: seq<Band>)
    requires 0 <= from <= to <= |sizes|
    ensures BandRows(sizes, from, to, offset, a + b) == BandRows(sizes, from, to, offset, a) + BandRows(sizes, from, to, offset, b)
  {
  }

  lemma BandRowsSnoc(sizes: seq<PanelSize>, from: int, to: int, offset: real, a: seq<Band>, b: Band)
    requires 0 <= from <= to <= |sizes|
    ensures BandRows(sizes, from, to, offset, a + [b]) == BandRows(sizes, from, to, offset, a) + [BandRow(sizes, from, to, offset, b)]
  {
    BandRowsAppend(sizes, from, to, offset, a, [b]);
  }

  /** A non-empty column's rows stack up to the height of its bands. */
  lemma {:induction false} BandRowsHeight(sizes: seq<PanelSize>, from: int, to: int, offset: real, bands: seq<Band>)
    requires 0 <= from < to <= |sizes|
    ensures StackHeight(BandRows(sizes, from, to, offset, bands)) == BandsHeight(bands)
  {
    var rows := BandRows(sizes, from, to, offset, bands);
    if |bands| > 0 {
      assert Height(rows[0]) == bands[0].height;
      assert rows[1..] == BandRows(sizes, from, to, offset, bands[1..]);
      BandRowsHeight(sizes, from, to, offset, bands[1..]);
    }
  }

  /** Builds the depression row slot by slot; walls in an entrance column's
      ground floor are plain, the others are the boundary wall. */
  method CreateDepressionWallNormalFacadeHorizontal(sizes: seq<PanelSize>, from: int, to: int, height: int, offset: real, isEntrance: bool)
    returns (row: Layout<ComplexElement>)
    requires 0 <= from <= to <= |sizes|
    ensures row == Horizontal(DepressionRow(sizes, from, to, height, offset, !isEntrance))
  {
    var children: seq<Layout<ComplexElement>> := [];
    for i := from to to
      invariant |children| == i - from
      invariant forall k :: 0 <= k < i - from ==> children[k] == DepressionRow(sizes, from, to, height, offset, !isEntrance)[k]
    {
      var positionType: PositionType;
      if from == to - 1 && |sizes| == 1 {
        positionType := NoLeftRight;
      } else if i == 0 {
        positionType := NoLeft;
      } else if i == to - 1 && to == |sizes| {
        positionType := NoRight;
      } else {
        positionType := Middle;
      }
      var panelWidth := SizeValue(sizes[i]) as real + offset;
      assert positionType == DepressionPosition(i, from, to, |sizes|);
      assert DepressionRow(sizes, from, to, height, offset, !isEntrance)[i - from]
          == Element(DepressionWall(positionType, !isEntrance), panelWidth, height);
      children := children + [Element(DepressionWall(positionType, !isEntrance), panelWidth, height)];
    }
    row := Horizontal(children);
  }
}
