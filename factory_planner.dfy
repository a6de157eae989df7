/**
 * The factory facade planner. Every face of a (rectangular) footprint gets
 * a ground floor and a stack of plain wall floors. On ordinary faces the
 * ground floor is a socle, a socle top and a row of walls and windows; on
 * the front face it is a row of entrances flanked by two walls. Heights are
 * integers in thousandths, widths reals in thousandths.
 */
module FactoryPlanner {
  import opened Wrappers
  import opened LayoutTree
  import opened FloorHeight
  import opened Facade
  import opened BuildingConfig

  /** The panels a factory facade is made of. An entrance carries the gap it
      leaves above its door. */
  datatype FactoryPanel = Socle | SocleTop | Wall | Window | Entrance(topOffset: int)

  const SocleHeight: int := 300
  const SocleTopHeight: int := 50
  const MinWallWidthOffset: int := 1250
  const EntranceTopOffset: int := 1000

  /** Width of slot s with the per-slot offset added. */
  function SlotWidth(sizes: seq<PanelSize>, s: int, offset: real): real
    requires 0 <= s < |sizes|
  {
    SizeValue(sizes[s]) as real + offset
  }

  // ---------------------------------------------------------------------
  // Window row: wall, window, window, wall, window, window, ..., wall.
  // ---------------------------------------------------------------------

  /** Number of panels in the window row over [from, to): one per slot, and
      always at least the closing wall. */
  function WindowRowLength(from: int, to: int): int
  {
    if to - from >= 1 then to - from else 1
  }

  /**
   * The window row over [from, to). Position p (counted from `from`) is a
   * wall when p is a multiple of 3 and a window otherwise, except that the
   * last position is always a wall. Every panel of a group of three takes
   * the width of the group's first slot; the closing wall takes the width
   * of the slot before `to`.
   */
  function WindowRow(sizes: seq<PanelSize>, from: int, to: int, height: int, offset: real): seq<Layout<FactoryPanel>>
    requires 0 <= from <= to <= |sizes| && 1 <= to
  {
    var n := WindowRowLength(from, to);
    seq(n, p requires 0 <= p < n =>
      if p == n - 1 then Element(Wall, SlotWidth(sizes, to - 1, offset), height)
      else Element(if p % 3 == 0 then Wall else Window, SlotWidth(sizes, from + p - p % 3, offset), height))
  }

  /** Lays out the window row group by group; an empty slot list has no slot
      before `to` to read and fails. */
  method CreateHorizontalWindow(sizes: seq<PanelSize>, from: int, to: int, height: int, offset: real)
    returns (r: Result<Layout<FactoryPanel>>)
    requires 0 <= from <= to <= |sizes|
    ensures r.Failure? <==> to == 0
    ensures r.Failure? ==> r.error == ArgumentOutOfRange
    ensures r.Success? ==> r.value == Horizontal(WindowRow(sizes, from, to, height, offset))
  {
    var children: seq<Layout<FactoryPanel>> := [];
    var i := from;
    while i < to - 1
      invariant from <= i
      invariant 1 <= to ==> i - from <= WindowRowLength(from, to) - 1
      invariant (i - from) % 3 == 0 || i >= to - 1
      invariant 1 <= to ==> children == WindowRow(sizes, from, to, height, offset)[..i - from]
    {
      ghost var row := WindowRow(sizes, from, to, height, offset);
      ghost var g := i - from;
      var panelWidth := SizeValue(sizes[i]) as real + offset;
      assert row[g] == Element(Wall, panelWidth, height);
      children := children + [Element(Wall, panelWidth, height)];
      i := i + 1;
      if i + 1 < to - 1 {
        assert row[g + 1] == Element(Window, panelWidth, height);
        assert row[g + 2] == Element(Window, panelWidth, height);
        children := children + [Element(Window, panelWidth, height), Element(Window, panelWidth, height)];
        i := i + 2;
      } else if i < to - 1 {
        assert row[g + 1] == Element(Window, panelWidth, height);
        children := children + [Element(Window, panelWidth, height)];
        i := i + 1;
      }
    }
    if to == 0 {
      // panelSizes[to - 1] reads before the start of the list
      return Failure(ArgumentOutOfRange);
    }
    ghost var row := WindowRow(sizes, from, to, height, offset);
    assert i - from == |row| - 1;
    assert row == row[..i - from] + [row[i - from]];
    var lastPanelWidth := SizeValue(sizes[to - 1]) as real + offset;
    children := children + [Element(Wall, lastPanelWidth, height)];
    return Success(Horizontal(children));
  }

  /** The window row has one panel per slot (at least one), every panel of
      the row's height, walls exactly at the multiples of 3 and at the end. */
  lemma WindowRowPattern(sizes: seq<PanelSize>, from: int, to: int, height: int, offset: real)
    requires 0 <= from <= to <= |sizes| && 1 <= to
    ensures |WindowRow(sizes, from, to, height, offset)| == WindowRowLength(from, to)
    ensures UniformHeight(WindowRow(sizes, from, to, height, offset), height)
    ensures forall p :: 0 <= p < WindowRowLength(from, to) ==>
      (WindowRow(sizes, from, to, height, offset)[p].kind == Wall <==> p % 3 == 0 || p == WindowRowLength(from, to) - 1)
  {
  }

  /** The window row starts and ends with a wall, and no three panels in a
      row are windows. */
  lemma WindowRowRuns(sizes: seq<PanelSize>, from: int, to: int, height: int, offset: real)
    requires 0 <= from <= to <= |sizes| && 1 <= to
    ensures var row := WindowRow(sizes, from, to, height, offset);
      && row[0].kind == Wall && row[|row| - 1].kind == Wall
      && forall p :: 0 <= p < |row| - 2 ==> row[p].kind == Wall || row[p + 1].kind == Wall || row[p + 2].kind == Wall
  {
    var row := WindowRow(sizes, from, to, height, offset);
    WindowRowPattern(sizes, from, to, height, offset);
    forall p | 0 <= p < |row| - 2
      ensures row[p].kind == Wall || row[p + 1].kind == Wall || row[p + 2].kind == Wall
    {
      var q := if p % 3 == 0 then p else if p % 3 == 1 then p + 2 else p + 1;
      assert q % 3 == 0 && p <= q <= p + 2;
    }
  }

  /** The window row is as wide as its slots plus their offsets. */
  lemma WindowRowWidth(sizes: seq<PanelSize>, from: int, to: int, height: int, offset: real)
    requires 0 <= from <= to <= |sizes| && 1 <= to
    ensures RowWidth(WindowRow(sizes, from, to, height, offset)) == WindowRowLength(from, to) as real * (SizeValue(Narrow) as real + offset)
  {
    var row := WindowRow(sizes, from, to, height, offset);
    forall p | 0 <= p < |row|
      ensures Width(row[p]) == SizeValue(Narrow) as real + offset
    {
      var s := if p == |row| - 1 then to - 1 else from + p - p % 3;
      assert SizeValue(sizes[s]) == SizeValue(Narrow);
    }
    RowWidthUniform(row, SizeValue(Narrow) as real + offset);
  }

  // ---------------------------------------------------------------------
  // Entrance row: pairs of slots become double entrances, separated by one
  // wall slot; a leftover single slot becomes a single entrance.
  // ---------------------------------------------------------------------

  /** Whether slot j of a `to`-slot entrance floor is marked as an entrance:
      slots 3k and 3k + 1 of every full group of three, and the first slot
      of an incomplete last group. */
  predicate Marked(to: int, j: int)
  {
    (j < 3 * (to / 3) && j % 3 != 2) || (to % 3 != 0 && j == 3 * (to / 3))
  }

  /** Number of entrances (a marked pair or a marked single counts once). */
  function EntranceCount(to: int): int
  {
    to / 3 + (if to % 3 != 0 then 1 else 0)
  }

  /** Fills the 0/1 marking array: pairs while whole groups remain, then one
      more mark if slots are left over. */
  method MarkEntrances(to: nat) returns (marks: array<int>, oneCount: int)
    ensures fresh(marks) && marks.Length == to
    ensures forall j :: 0 <= j < to ==> marks[j] == (if Marked(to, j) then 1 else 0)
    ensures oneCount == EntranceCount(to)
  {
    marks := new int[to](_ => 0);
    var onesCount := to / 3;
    var i := 0;
    oneCount := 0;
    while onesCount > 0
      invariant 0 <= onesCount <= to / 3
      invariant i == 3 * (to / 3 - onesCount) && oneCount == to / 3 - onesCount
      invariant forall j :: 0 <= j < to ==> marks[j] == (if j < i && j % 3 != 2 then 1 else 0)
    {
      marks[i] := 1;
      marks[i + 1] := 1;
      onesCount := onesCount - 1;
      oneCount := oneCount + 1;
      i := i + 3;
    }
    if i + 1 <= to {
      marks[i] := 1;
      oneCount := oneCount + 1;
    }
  }

  /** What every entrance gains: when the last slot is not an entrance it is
      left out and its width is shared equally among the entrances. */
  function LastSlotShare(sizes: seq<PanelSize>, to: int, offset: real): real
    requires 1 <= to <= |sizes|
  {
    if Marked(to, to - 1) then 0.0
    else SlotWidth(sizes, to - 1, offset) / EntranceCount(to) as real
  }

  /**
   * The entrance row over the first `to` slots: entrances at even positions
   * and walls at odd positions, 2 * EntranceCount(to) - 1 panels in all.
   * Entrance k spans slots 3k and 3k + 1 (or only 3k when it is the leftover
   * single) plus its share of the last slot; wall k is slot 3k + 2.
   */
  function EntranceRow(sizes: seq<PanelSize>, to: int, height: int, offset: real, topOffset: int): seq<Layout<FactoryPanel>>
    requires 1 <= to <= |sizes|
  {
    var n := 2 * EntranceCount(to) - 1;
    seq(n, p requires 0 <= p < n => EntrancePanel(sizes, to, height, offset, topOffset, p))
  }

  /** Panel p of the entrance row. */
  function EntrancePanel(sizes: seq<PanelSize>, to: int, height: int, offset: real, topOffset: int, p: int): Layout<FactoryPanel>
    requires 1 <= to <= |sizes| && 0 <= p < 2 * EntranceCount(to) - 1
  {
    var share := LastSlotShare(sizes, to, offset);
    if p % 2 == 1 then Element(Wall, SlotWidth(sizes, 3 * (p / 2) + 2, offset), height)
    else if p / 2 < to / 3 then Element(Entrance(topOffset), SlotWidth(sizes, 3 * (p / 2), offset) * 2.0 + share, height)
    else Element(Entrance(topOffset), SlotWidth(sizes, 3 * (p / 2), offset) + share, height)
  }

  /** Panels emitted once the scan has reached slot j. */
  function Emitted(to: int, j: int): int
  {
    var e := 2 * (j / 3) + (if j % 3 == 0 then 0 else 1);
    if e < 2 * EntranceCount(to) - 1 then e else 2 * EntranceCount(to) - 1
  }

  /** The scan meets a marked pair: it starts a whole group, and its double
      entrance is the next panel of the row. */
  lemma PairStep(to: int, j: int)
    requires 0 <= j && j + 1 < to && Marked(to, j) && Marked(to, j + 1)
    ensures j % 3 == 0 && j / 3 < to / 3
    ensures Emitted(to, j) == 2 * (j / 3) && Emitted(to, j + 2) == Emitted(to, j) + 1
  {
    var q, t := j / 3, to / 3;
    assert j == 3 * q + j % 3;
    assert j < 3 * t && j % 3 == 0;
    assert (j + 2) / 3 == q && (j + 2) % 3 == 2;
    assert q + 1 <= t;
  }

  /** The scan meets a marked slot that is not the start of a pair: it is the
      leftover single, and its entrance is the next panel of the row. */
  lemma SingleStep(to: int, j: int)
    requires 0 <= j < to && (j % 3 == 1 ==> j >= to - 1)
    requires Marked(to, j) && !(j + 1 < to && Marked(to, j + 1))
    ensures j == 3 * (to / 3) && j / 3 == to / 3
    ensures Emitted(to, j) == 2 * (j / 3) && Emitted(to, j + 1) == Emitted(to, j) + 1
    ensures (j + 1) % 3 == 1 ==> j + 1 >= to - 1
  {
    var q, m := j / 3, j % 3;
    assert j == 3 * q + m;
    assert q == to / 3;
  }

  /** The scan meets an unmarked slot before the last one: it closes a group,
      and its wall is the next panel of the row. */
  lemma WallStep(to: int, j: int)
    requires 0 <= j < to - 1 && (j % 3 == 1 ==> j >= to - 1) && !Marked(to, j)
    ensures j % 3 == 2 && j / 3 < to / 3
    ensures Emitted(to, j) == 2 * (j / 3) + 1 && Emitted(to, j + 1) == Emitted(to, j) + 1
  {
  }

  /** The scan meets an unmarked last slot: nothing is emitted for it. */
  lemma SkipStep(to: int, j: int)
    requires 1 <= to && j == to - 1 && !Marked(to, j)
    ensures Emitted(to, j + 1) == Emitted(to, j)
  {
  }

  /** The scan ends having emitted the whole row. */
  lemma ScanEnd(to: int)
    requires 1 <= to
    ensures Emitted(to, to) == 2 * EntranceCount(to) - 1
  {
  }

  /** A marked pair contributes the row's next panel, a double entrance. */
  lemma PairPanel(sizes: seq<PanelSize>, to: int, height: int, offset: real, topOffset: int, j: int)
    requires 1 <= to <= |sizes|
    requires 0 <= j && j + 1 < to && Marked(to, j) && Marked(to, j + 1)
    ensures Emitted(to, j) < 2 * EntranceCount(to) - 1
    ensures Emitted(to, j + 2) == Emitted(to, j) + 1 && ((j + 2) % 3 == 1 ==> j + 2 >= to - 1)
    ensures EntrancePanel(sizes, to, height, offset, topOffset, Emitted(to, j))
         == Element(Entrance(topOffset), SlotWidth(sizes, j, offset) * 2.0 + LastSlotShare(sizes, to, offset), height)
  {
    PairStep(to, j);
  }

  /** The leftover single contributes the row's next panel, a single entrance. */
  lemma SinglePanel(sizes: seq<PanelSize>, to: int, height: int, offset: real, topOffset: int, j: int)
    requires 1 <= to <= |sizes|
    requires 0 <= j < to && (j % 3 == 1 ==> j >= to - 1)
    requires Marked(to, j) && !(j + 1 < to && Marked(to, j + 1))
    ensures Emitted(to, j) < 2 * EntranceCount(to) - 1
    ensures Emitted(to, j + 1) == Emitted(to, j) + 1 && ((j + 1) % 3 == 1 ==> j + 1 >= to - 1)
    ensures EntrancePanel(sizes, to, height, offset, topOffset, Emitted(to, j))
         == Element(Entrance(topOffset), SlotWidth(sizes, j, offset) + LastSlotShare(sizes, to, offset), height)
  {
    SingleStep(to, j);
  }

  /** An unmarked slot before the last contributes the row's next panel, a wall. */
  lemma WallPanel(sizes: seq<PanelSize>, to: int, height: int, offset: real, topOffset: int, j: int)
    requires 1 <= to <= |sizes|
    requires 0 <= j < to - 1 && (j % 3 == 1 ==> j >= to - 1) && !Marked(to, j)
    ensures Emitted(to, j) < 2 * EntranceCount(to) - 1
    ensures Emitted(to, j + 1) == Emitted(to, j) + 1 && ((j + 1) % 3 == 1 ==> j + 1 >= to - 1)
    ensures EntrancePanel(sizes, to, height, offset, topOffset, Emitted(to, j)) == Element(Wall, SlotWidth(sizes, j, offset), height)
  {
    WallStep(to, j);
  }

  /** When the last slot is unmarked, its width (with offset) divided by
      the number of entrances; otherwise nothing. */
  method ShareOfLastSlot(sizes: seq<PanelSize>, to: int, offset: real, lastMark: int, oneCount: int) returns (share: real)
    requires 1 <= to <= |sizes|
    requires lastMark == (if Marked(to, to - 1) then 1 else 0) && oneCount == EntranceCount(to)
    ensures share == LastSlotShare(sizes, to, offset)
  {
    share := 0.0;
    if lastMark == 0 {
      share := SizeValue(sizes[to - 1]) as real + offset;
      share := share / oneCount as real;
    }
  }

  /** Scans the marked slots left to right: a marked pair becomes a double
      entrance, a marked single a single entrance, an unmarked slot a wall
      unless it is the last one. */
  method ScanEntrances(sizes: seq<PanelSize>, to: int, height: int, offset: real, topOffset: int, marks: array<int>, share: real)
    returns (children: seq<Layout<FactoryPanel>>)
    requires 1 <= to <= |sizes| && marks.Length == to
    requires forall k :: 0 <= k < to ==> marks[k] == (if Marked(to, k) then 1 else 0)
    requires share == LastSlotShare(sizes, to, offset)
    ensures children == EntranceRow(sizes, to, height, offset, topOffset)
  {
    children := [];
    var j := 0;
    while j < to
      invariant 0 <= j <= to
      invariant j % 3 == 1 ==> j >= to - 1
      invariant |children| == Emitted(to, j)
      invariant forall i :: 0 <= i < |children| ==> children[i] == EntrancePanel(sizes, to, height, offset, topOffset, i)
    {
      var panelWidth := SizeValue(sizes[j]) as real + offset;
      if j + 1 < to && marks[j] == 1 && marks[j + 1] == 1 {
        PairPanel(sizes, to, height, offset, topOffset, j);
        children := children + [Element(Entrance(topOffset), panelWidth * 2.0 + share, height)];
        j := j + 2;
      } else if marks[j] == 1 {
        SinglePanel(sizes, to, height, offset, topOffset, j);
        children := children + [Element(Entrance(topOffset), panelWidth + share, height)];
        j := j + 1;
      } else if j != to - 1 {
        WallPanel(sizes, to, height, offset, topOffset, j);
        children := children + [Element(Wall, panelWidth, height)];
        j := j + 1;
      } else {
        SkipStep(to, j);
        j := j + 1;
      }
    }
    ScanEnd(to);
  }

  /** Marks the slots, shares out an unmarked last slot, then scans. An
      empty row fails on the marking array. The `from` argument is ignored:
      the scan always starts at the first slot. */
  method CreateHorizontalEntrance(sizes: seq<PanelSize>, from: int, to: int, height: int, offset: real, topOffset: int)
    returns (r: Result<Layout<FactoryPanel>>)
    requires 0 <= from <= to <= |sizes|
    ensures r.Failure? <==> to == 0
    ensures r.Failure? ==> r.error == IndexOutOfRange
    ensures r.Success? ==> r.value == Horizontal(EntranceRow(sizes, to, height, offset, topOffset))
  {
    var marks, oneCount := MarkEntrances(to);
    if to == 0 {
      // array[to - 1] reads before the start of the array
      return Failure(IndexOutOfRange);
    }
    var share := ShareOfLastSlot(sizes, to, offset, marks[to - 1], oneCount);
    var children := ScanEntrances(sizes, to, height, offset, topOffset, marks, share);
    return Success(Horizontal(children));
  }

  /** Width of one slot with the per-slot offset, whatever its size. */
  function SlotPitch(offset: real): real
  {
    SizeValue(Narrow) as real + offset
  }

  /** Width of each panel of the entrance row: a wall is one slot, a double
      entrance two slots plus the share, a single entrance one slot plus it. */
  lemma EntrancePanelWidth(sizes: seq<PanelSize>, to: int, height: int, offset: real, topOffset: int, p: int)
    requires 1 <= to <= |sizes| && 0 <= p < 2 * EntranceCount(to) - 1
    ensures var share := LastSlotShare(sizes, to, offset);
      Width(EntrancePanel(sizes, to, height, offset, topOffset, p))
        == if p % 2 == 1 then SlotPitch(offset)
           else if p / 2 < to / 3 then SlotPitch(offset) * 2.0 + share
           else SlotPitch(offset) + share
  {
    var s := if p % 2 == 1 then 3 * (p / 2) + 2 else 3 * (p / 2);
    assert SizeValue(sizes[s]) == SizeValue(Narrow);
  }

  /** Width of a two-element row. */
  lemma {:induction false} RowWidthPair<K>(a: Layout<K>, b: Layout<K>)
    ensures RowWidth([a, b]) == Width(a) + Width(b)
  {
    assert [a, b][1..] == [b];
    assert [b][1..] == [];
    assert RowWidth([b]) == Width(b) + RowWidth([b][1..]);
  }

  /** A row whose panels alternate between widths a and b is, over its
      first m pairs, m * (a + b) wide. */
  lemma {:induction false} AlternatingWidth<K>(row: seq<Layout<K>>, m: nat, a: real, b: real)
    requires 2 * m <= |row|
    requires forall i :: 0 <= i < m ==> Width(row[2 * i]) == a && Width(row[2 * i + 1]) == b
    ensures RowWidth(row[..2 * m]) == m as real * (a + b)
  {
    if m == 0 {
      assert row[..0] == [];
    } else {
      var k := m - 1;
      AlternatingWidth(row, k, a, b);
      assert row[..2 * m] == row[..2 * k] + [row[2 * k], row[2 * k + 1]];
      RowWidthAppend(row[..2 * k], [row[2 * k], row[2 * k + 1]]);
      RowWidthPair(row[2 * k], row[2 * k + 1]);
      MulSucc(k, a + b);
    }
  }

  /** Dividing by a positive count and multiplying back restores the value. */
  lemma DivMulCancel(x: real, n: int)
    requires n > 0
    ensures n as real * (x / n as real) == x
  {
    var d := n as real;
    assert x / d * d == x;
  }

  /** The last slot is shared out exactly when it is unmarked, which is when
      the slot count is not one more than a multiple of 3, and then the
      shares add up to the slot. */
  lemma LastSlotShared(sizes: seq<PanelSize>, to: int, offset: real)
    requires 1 <= to <= |sizes|
    ensures Marked(to, to - 1) <==> to % 3 == 1
    ensures to % 3 == 1 ==> LastSlotShare(sizes, to, offset) == 0.0
    ensures to % 3 != 1 ==> EntranceCount(to) as real * LastSlotShare(sizes, to, offset) == SlotPitch(offset)
  {
    if to % 3 != 1 {
      assert SizeValue(sizes[to - 1]) == SizeValue(Narrow);
      DivMulCancel(SlotPitch(offset), EntranceCount(to));
    }
  }

  /** The entrance row before its last panel: alternating double entrances
      and walls, three slots and one share per pair. */
  lemma EntranceGroupsWidth(sizes: seq<PanelSize>, to: int, height: int, offset: real, topOffset: int)
    requires 1 <= to <= |sizes|
    ensures |EntranceRow(sizes, to, height, offset, topOffset)| == 2 * (EntranceCount(to) - 1) + 1
    ensures RowWidth(EntranceRow(sizes, to, height, offset, topOffset)[..2 * (EntranceCount(to) - 1)])
         == (EntranceCount(to) - 1) as real * (SlotPitch(offset) * 2.0 + LastSlotShare(sizes, to, offset) + SlotPitch(offset))
  {
    var row := EntranceRow(sizes, to, height, offset, topOffset);
    var w := SlotPitch(offset);
    var share := LastSlotShare(sizes, to, offset);
    var groups := EntranceCount(to) - 1;
    forall i | 0 <= i < groups
      ensures Width(row[2 * i]) == w * 2.0 + share && Width(row[2 * i + 1]) == w
    {
      EntrancePairWidth(sizes, to, height, offset, topOffset, i);
    }
    AlternatingWidth(row, groups, w * 2.0 + share, w);
  }

  /** Pair i before the last panel: a double entrance of two slots and a
      share, then a wall of one slot. */
  lemma EntrancePairWidth(sizes: seq<PanelSize>, to: int, height: int, offset: real, topOffset: int, i: int)
    requires 1 <= to <= |sizes| && 0 <= i < EntranceCount(to) - 1
    ensures var row := EntranceRow(sizes, to, height, offset, topOffset);
      && Width(row[2 * i]) == SlotPitch(offset) * 2.0 + LastSlotShare(sizes, to, offset)
      && Width(row[2 * i + 1]) == SlotPitch(offset)
  {
    assert (2 * i) % 2 == 0 && (2 * i) / 2 == i;
    assert (2 * i + 1) % 2 == 1 && (2 * i + 1) / 2 == i;
    assert i < to / 3;
    EntrancePanelWidth(sizes, to, height, offset, topOffset, 2 * i);
    EntrancePanelWidth(sizes, to, height, offset, topOffset, 2 * i + 1);
  }

  /** Every slot of the entrance floor is accounted for: the entrance row is
      exactly as wide as its slots plus their offsets, whether the last slot
      is an entrance or is shared out among the entrances. */
  lemma EntranceRowWidth(sizes: seq<PanelSize>, to: int, height: int, offset: real, topOffset: int)
    requires 1 <= to <= |sizes|
    ensures RowWidth(EntranceRow(sizes, to, height, offset, topOffset)) == to as real * SlotPitch(offset)
  {
    var groups := EntranceCount(to) - 1;
    EntranceGroupsWidth(sizes, to, height, offset, topOffset);
    EntrancePanelWidth(sizes, to, height, offset, topOffset, 2 * groups);
    LastSlotShared(sizes, to, offset);
    var row := EntranceRow(sizes, to, height, offset, topOffset);
    RowWidthSnoc(row);
    EntranceRowTotal(groups, SlotPitch(offset), LastSlotShare(sizes, to, offset), to, RowWidth(row[..2 * groups]), Width(row[2 * groups]));
  }

  /** The sum of the entrance row in each of the three shapes the slot count
      can give it: the groups before the last panel, then the last panel. */
  lemma EntranceRowTotal(groups: nat, w: real, share: real, to: int, prefix: real, lastWidth: real)
    requires 1 <= to && groups == EntranceCount(to) - 1
    requires prefix == groups as real * (w * 2.0 + share + w)
    requires lastWidth == if to % 3 == 0 then w * 2.0 + share else w + share
    requires to % 3 == 1 ==> share == 0.0
    requires to % 3 != 1 ==> EntranceCount(to) as real * share == w
    ensures prefix + lastWidth == to as real * w
  {
    var n := EntranceCount(to);
    var g := groups as real;
    if to % 3 == 0 {
      CastAffine(to, groups, 3);
      GroupsThenPair(g, n, w, share, to as real);
    } else if to % 3 == 1 {
      CastAffine(to, groups, 1);
      GroupsThenSingle(g, n, w, share, 0.0, to as real, 1.0);
    } else {
      CastAffine(to, groups, 2);
      GroupsThenSingle(g, n, w, share, w, to as real, 2.0);
    }
  }

  /** A row is its front followed by its last panel. */
  lemma {:induction false} RowWidthSnoc<K>(row: seq<Layout<K>>)
    requires |row| >= 1
    ensures RowWidth(row) == RowWidth(row[..|row| - 1]) + Width(row[|row| - 1])
  {
    var last := |row| - 1;
    assert row == row[..last] + [row[last]];
    RowWidthAppend(row[..last], [row[last]]);
    assert [row[last]][1..] == [];
    assert RowWidth([row[last]][1..]) == 0.0;
  }

  /** Casting 3 * g + c to a real. */
  lemma CastAffine(to: int, groups: int, c: int)
    requires to == 3 * groups + c
    ensures to as real == 3.0 * groups as real + c as real
  {
  }

  /** g groups of three slots and a closing double entrance, with one share
      per entrance making up one slot in all: t = 3 * (g + 1) slots. */
  lemma GroupsThenPair(g: real, n: int, w: real, share: real, t: real)
    requires n as real == g + 1.0 && n as real * share == w && t == 3.0 * g + 3.0
    ensures g * (w * 2.0 + share + w) + (w * 2.0 + share) == t * w
  {
    assert g * (w * 2.0 + share + w) == 3.0 * g * w + g * share;
    assert t * w == 3.0 * g * w + 3.0 * w;
  }

  /** g groups of three slots and a closing single entrance, with the shares
      adding up to `shared`, which is c - 1 slots: t = 3 * g + c slots. */
  lemma GroupsThenSingle(g: real, n: int, w: real, share: real, shared: real, t: real, c: real)
    requires n as real == g + 1.0 && n as real * share == shared && t == 3.0 * g + c
    requires shared == (c - 1.0) * w
    ensures g * (w * 2.0 + share + w) + (w + share) == t * w
  {
    assert g * (w * 2.0 + share + w) == 3.0 * g * w + g * share;
    assert t * w == 3.0 * g * w + c * w;
  }

  /** Every panel of the entrance row is an entrance (at even positions) or
      a wall (at odd positions), of the floor's height, and the row has one
      entrance per marked pair or single. */
  lemma EntranceRowShape(sizes: seq<PanelSize>, to: int, height: int, offset: real, topOffset: int)
    requires 1 <= to <= |sizes|
    ensures var row := EntranceRow(sizes, to, height, offset, topOffset);
      && |row| == 2 * EntranceCount(to) - 1
      && UniformHeight(row, height)
      && (forall p :: 0 <= p < |row| ==> (row[p].kind == Wall <==> p % 2 == 1))
      && (forall p :: 0 <= p < |row| && p % 2 == 0 ==> row[p].kind == Entrance(topOffset))
  {
  }

  // ---------------------------------------------------------------------
  // Upper floors and whole facades
  // ---------------------------------------------------------------------

  /** Per-slot share of the remainder over [from, to). An empty range has
      no panel for the share to reach. */
  function FloorOffset(remainderWidth: int, from: int, to: int): real
  {
    if from < to then remainderWidth as real / (to - from) as real else 0.0
  }

  /** Number of upper floors actually stacked (a negative count adds none). */
  function UpperFloorCount(buildingHeight: int, floorHeight: int): nat
    requires floorHeight > 0
  {
    var n := NumFloorWithoutEntrance(buildingHeight, floorHeight);
    if n > 0 then n else 0
  }

  /** The upper floors over [from, to): one row of plain walls per floor. */
  function WallFloors(sizes: seq<PanelSize>, buildingHeight: int, floorHeight: int, remainderWidth: int, from: int, to: int): Layout<FactoryPanel>
    requires 0 <= from <= to <= |sizes| && floorHeight > 0
  {
    var row := Horizontal(PanelRow(sizes, from, to, floorHeight, FloorOffset(remainderWidth, from, to), Wall));
    Vertical(seq(UpperFloorCount(buildingHeight, floorHeight), _ => row))
  }

  /** Stacks one row of walls per upper floor. */
  method CreateNormalFacadeVertical(sizes: seq<PanelSize>, floorHeight: int, remainderWidth: int, from: int, to: int, buildingHeight: int)
    returns (vertical: Layout<FactoryPanel>)
    requires 0 <= from <= to <= |sizes| && floorHeight > 0
    ensures vertical == WallFloors(sizes, buildingHeight, floorHeight, remainderWidth, from, to)
  {
    var numFloorWithoutEntrance := NumFloorWithoutEntrance(buildingHeight, floorHeight);
    var floorWidthOffset := FloorOffset(remainderWidth, from, to);
    ghost var row := Horizontal(PanelRow(sizes, from, to, floorHeight, floorWidthOffset, Wall));
    var floors: seq<Layout<FactoryPanel>> := [];
    var i := 0;
    while i < numFloorWithoutEntrance
      invariant 0 <= i <= UpperFloorCount(buildingHeight, floorHeight)
      invariant floors == seq(i, _ => row)
    {
      var floor := CreateHorizontal(sizes, from, to, floorHeight, floorWidthOffset, Wall);
      assert seq(i + 1, _ => row) == seq(i, _ => row) + [floor];
      floors := floors + [floor];
      i := i + 1;
    }
    vertical := Vertical(floors);
  }

  /** n slots with the remainder spread over them span the slots and the
      remainder exactly. */
  lemma SpreadRemainder(n: int, remainderWidth: int)
    requires n > 0
    ensures n as real * (SizeValue(Narrow) as real + remainderWidth as real / n as real) == (SizeValue(Narrow) * n + remainderWidth) as real
  {
    var d := n as real;
    DivMulCancel(remainderWidth as real, n);
    assert d * (SizeValue(Narrow) as real + remainderWidth as real / d) == 2500.0 * d + d * (remainderWidth as real / d);
  }

  /** Every upper floor is one floor high and as wide as the slots of its
      range plus the remainder; the stack is one floor per upper floor high. */
  lemma WallFloorsMeasures(sizes: seq<PanelSize>, buildingHeight: int, floorHeight: int, remainderWidth: int, from: int, to: int)
    requires 0 <= from < to <= |sizes| && floorHeight > 0
    ensures var v := WallFloors(sizes, buildingHeight, floorHeight, remainderWidth, from, to);
      && |v.children| == UpperFloorCount(buildingHeight, floorHeight)
      && (forall k :: 0 <= k < |v.children| ==>
            Height(v.children[k]) == floorHeight && Width(v.children[k]) == (SizeValue(Narrow) * (to - from) + remainderWidth) as real)
      && Height(v) == UpperFloorCount(buildingHeight, floorHeight) * floorHeight
  {
    var off := FloorOffset(remainderWidth, from, to);
    var v := WallFloors(sizes, buildingHeight, floorHeight, remainderWidth, from, to);
    PanelRowMeasures(sizes, from, to, floorHeight, off, Wall);
    SpreadRemainder(to - from, remainderWidth);
    StackHeightUniform(v.children, floorHeight);
  }

  /** The facade of an ordinary face: socle, socle top and window row on the
      ground floor, then the upper floors if the building has any. */
  function NormalFacade(sizes: seq<PanelSize>, floorHeight: int, remainderWidth: int, buildingHeight: int): Layout<FactoryPanel>
    requires |sizes| > 0 && floorHeight > 0
  {
    var count := |sizes|;
    var entranceHeight := EntranceHeight(buildingHeight, floorHeight);
    var floorWidthOffset := remainderWidth as real / count as real;
    Vertical([
      Horizontal(PanelRow(sizes, 0, count, SocleHeight, floorWidthOffset, Socle)),
      Horizontal(PanelRow(sizes, 0, count, SocleTopHeight, floorWidthOffset, SocleTop)),
      Horizontal(WindowRow(sizes, 0, count, entranceHeight - SocleHeight - SocleTopHeight, floorWidthOffset))
    ] + (if 0 < buildingHeight - entranceHeight then [WallFloors(sizes, buildingHeight, floorHeight, remainderWidth, 0, count)] else []))
  }

  /** Plans an ordinary face. With no slots the socle rows are empty and the
      window row fails reading the slot before the end. */
  method PlanNormalFacade(sizes: seq<PanelSize>, floorHeight: int, remainderWidth: int, buildingHeight: int)
    returns (r: Result<Layout<FactoryPanel>>)
    requires floorHeight > 0
    ensures r.Failure? <==> |sizes| == 0
    ensures r.Failure? ==> r.error == ArgumentOutOfRange
    ensures r.Success? ==> r.value == NormalFacade(sizes, floorHeight, remainderWidth, buildingHeight)
  {
    var entranceHeight := EntranceHeight(buildingHeight, floorHeight);
    // a float division by zero gives a non-number here, never an exception
    var floorWidthOffset := if |sizes| == 0 then 0.0 else remainderWidth as real / |sizes| as real;
    var socle := CreateHorizontal(sizes, 0, |sizes|, SocleHeight, floorWidthOffset, Socle);
    var socleTop := CreateHorizontal(sizes, 0, |sizes|, SocleTopHeight, floorWidthOffset, SocleTop);
    var window :- CreateHorizontalWindow(sizes, 0, |sizes|, entranceHeight - SocleHeight - SocleTopHeight, floorWidthOffset);
    var rows := [socle, socleTop, window];
    var remainingHeight := buildingHeight - entranceHeight;
    if 0 < remainingHeight {
      var upper := CreateNormalFacadeVertical(sizes, floorHeight, remainderWidth, 0, |sizes|, buildingHeight);
      rows := rows + [upper];
    }
    return Success(Vertical(rows));
  }

  /** Height of a facade whose ground floor is e high, with the upper floors
      stacked when there is room: the building height once it holds a floor,
      and the ground floor alone otherwise. */
  lemma FacadeHeightFromGround(buildingHeight: int, floorHeight: int, upper: int)
    requires floorHeight > 0
    requires upper == if 0 < buildingHeight - EntranceHeight(buildingHeight, floorHeight)
                      then UpperFloorCount(buildingHeight, floorHeight) * floorHeight else 0
    ensures EntranceHeight(buildingHeight, floorHeight) + upper
         == if buildingHeight >= floorHeight then buildingHeight else EntranceHeight(buildingHeight, floorHeight)
  {
    var n := NumFloorWithoutEntrance(buildingHeight, floorHeight);
    EntranceHeightBounds(buildingHeight, floorHeight);
    if 0 < buildingHeight - EntranceHeight(buildingHeight, floorHeight) {
      assert n >= 0;
    } else if buildingHeight >= floorHeight {
      if n >= 1 {
        MulMonotone(1, n, floorHeight);
      }
    }
  }

  /** An ordinary face is as high as the building (once the building holds
      one floor), and every row of it is exactly as wide as the facade. */
  lemma {:induction false} NormalFacadeMeasures(sizes: seq<PanelSize>, floorHeight: int, remainderWidth: int, buildingHeight: int)
    requires |sizes| > 0 && floorHeight > 0
    ensures var f := NormalFacade(sizes, floorHeight, remainderWidth, buildingHeight);
      && Height(f) == (if buildingHeight >= floorHeight then buildingHeight else EntranceHeight(buildingHeight, floorHeight))
      && (forall k :: 0 <= k < 3 ==> Width(f.children[k]) == (SlotsWidth(sizes) + remainderWidth) as real)
      && (|f.children| == 4 ==> forall k :: 0 <= k < |f.children[3].children| ==>
            Width(f.children[3].children[k]) == (SlotsWidth(sizes) + remainderWidth) as real)
  {
    NormalFacadeHeight(sizes, floorHeight, remainderWidth, buildingHeight);
    NormalFacadeWidths(sizes, floorHeight, remainderWidth, buildingHeight);
  }

  /** The height half of NormalFacadeMeasures. */
  lemma NormalFacadeHeight(sizes: seq<PanelSize>, floorHeight: int, remainderWidth: int, buildingHeight: int)
    requires |sizes| > 0 && floorHeight > 0
    ensures Height(NormalFacade(sizes, floorHeight, remainderWidth, buildingHeight))
         == (if buildingHeight >= floorHeight then buildingHeight else EntranceHeight(buildingHeight, floorHeight))
  {
    var f := NormalFacade(sizes, floorHeight, remainderWidth, buildingHeight);
    var count := |sizes|;
    var e := EntranceHeight(buildingHeight, floorHeight);
    var off := remainderWidth as real / count as real;
    PanelRowMeasures(sizes, 0, count, SocleHeight, off, Socle);
    PanelRowMeasures(sizes, 0, count, SocleTopHeight, off, SocleTop);
    WindowRowPattern(sizes, 0, count, e - SocleHeight - SocleTopHeight, off);
    WallFloorsMeasures(sizes, buildingHeight, floorHeight, remainderWidth, 0, count);
    var upper := if 0 < buildingHeight - e then UpperFloorCount(buildingHeight, floorHeight) * floorHeight else 0;
    assert Height(f) == SocleHeight + SocleTopHeight + (e - SocleHeight - SocleTopHeight) + upper by {
      var cs := f.children;
      StackHeightFront(cs[0], cs[1..]);
      StackHeightFront(cs[1], cs[2..]);
      StackHeightFront(cs[2], cs[3..]);
      if 0 < buildingHeight - e {
        StackHeightFront(cs[3], cs[4..]);
      }
    }
    FacadeHeightFromGround(buildingHeight, floorHeight, upper);
  }

  /** The width half of NormalFacadeMeasures. */
  lemma {:induction false} NormalFacadeWidths(sizes: seq<PanelSize>, floorHeight: int, remainderWidth: int, buildingHeight: int)
    requires |sizes| > 0 && floorHeight > 0
    ensures var f := NormalFacade(sizes, floorHeight, remainderWidth, buildingHeight);
      && (forall k :: 0 <= k < 3 ==> Width(f.children[k]) == (SlotsWidth(sizes) + remainderWidth) as real)
      && (|f.children| == 4 ==> forall k :: 0 <= k < |f.children[3].children| ==>
            Width(f.children[3].children[k]) == (SlotsWidth(sizes) + remainderWidth) as real)
  {
    var f := NormalFacade(sizes, floorHeight, remainderWidth, buildingHeight);
    var count := |sizes|;
    var e := EntranceHeight(buildingHeight, floorHeight);
    var off := remainderWidth as real / count as real;
    var w := (SlotsWidth(sizes) + remainderWidth) as real;
    assert Width(f.children[0]) == w by {
      SpreadPanelRowWidth(sizes, SocleHeight, remainderWidth, Socle);
    }
    assert Width(f.children[1]) == w by {
      SpreadPanelRowWidth(sizes, SocleTopHeight, remainderWidth, SocleTop);
    }
    assert Width(f.children[2]) == w by {
      SpreadWindowRowWidth(sizes, e - SocleHeight - SocleTopHeight, remainderWidth);
    }
    if |f.children| == 4 {
      WallFloorsMeasures(sizes, buildingHeight, floorHeight, remainderWidth, 0, count);
    }
  }

  /** A row of panels over all slots, each widened by its share of the
      remainder, spans the slots and the remainder exactly. */
  lemma {:induction false} SpreadPanelRowWidth<K>(sizes: seq<PanelSize>, height: int, remainderWidth: int, kind: K)
    requires |sizes| > 0
    ensures RowWidth(PanelRow(sizes, 0, |sizes|, height, remainderWidth as real / |sizes| as real, kind)) == (SlotsWidth(sizes) + remainderWidth) as real
  {
    var offset := remainderWidth as real / |sizes| as real;
    PanelRowMeasures(sizes, 0, |sizes|, height, offset, kind);
    SpreadSlots(sizes, remainderWidth);
  }

  /** The window row over all slots, each widened by its share of the
      remainder, spans the slots and the remainder exactly. */
  lemma {:induction false} SpreadWindowRowWidth(sizes: seq<PanelSize>, height: int, remainderWidth: int)
    requires |sizes| > 0
    ensures RowWidth(WindowRow(sizes, 0, |sizes|, height, remainderWidth as real / |sizes| as real)) == (SlotsWidth(sizes) + remainderWidth) as real
  {
    var offset := remainderWidth as real / |sizes| as real;
    WindowRowWidth(sizes, 0, |sizes|, height, offset);
    SpreadSlots(sizes, remainderWidth);
  }

  /** The slots, each widened by its share of the remainder, span the slots
      and the remainder exactly. */
  lemma {:induction false} SpreadSlots(sizes: seq<PanelSize>, remainderWidth: int)
    requires |sizes| > 0
    ensures |sizes| as real * (SizeValue(Narrow) as real + remainderWidth as real / |sizes| as real) == (SlotsWidth(sizes) + remainderWidth) as real
  {
    SpreadRemainder(|sizes|, remainderWidth);
  }

  /** The wall left at each end of the entrance floor: half of the remainder,
      but never less than half of the minimum wall offset. */
  function EndWallWidth(remainderWidth: int): real
  {
    (if MinWallWidthOffset < remainderWidth then remainderWidth else MinWallWidthOffset) as real * 0.5
  }

  /** The facade of the front face: the entrance row between two end walls
      on the ground floor, then the upper floors if the building has any.
      The entrances leave a gap above their doors only when nothing is
      stacked on them. The end walls are paid for by narrowing every slot. */
  function EntranceFacade(sizes: seq<PanelSize>, floorHeight: int, remainderWidth: int, buildingHeight: int): Layout<FactoryPanel>
    requires |sizes| > 0 && floorHeight > 0
  {
    var count := |sizes|;
    var entranceHeight := EntranceHeight(buildingHeight, floorHeight);
    var wallWidthOffset := EndWallWidth(remainderWidth) * 2.0;
    var wallAveWidthOffset := wallWidthOffset / count as real;
    var floorWidthOffset := remainderWidth as real / count as real;
    var remainingHeight := buildingHeight - entranceHeight;
    var topOffset := if 0 < remainingHeight then 0 else EntranceTopOffset;
    var ground := Horizontal([
      Element(Wall, EndWallWidth(remainderWidth), entranceHeight),
      Horizontal(EntranceRow(sizes, count, entranceHeight, floorWidthOffset - wallAveWidthOffset, topOffset)),
      Element(Wall, EndWallWidth(remainderWidth), entranceHeight)
    ]);
    Vertical([ground] + (if 0 < remainingHeight then [WallFloors(sizes, buildingHeight, floorHeight, remainderWidth, 0, count)] else []))
  }

  /** Plans the front face. With no slots the entrance row fails reading the
      marking array before its start. */
  method PlanEntranceFacade(sizes: seq<PanelSize>, floorHeight: int, remainderWidth: int, buildingHeight: int)
    returns (r: Result<Layout<FactoryPanel>>)
    requires floorHeight > 0
    ensures r.Failure? <==> |sizes| == 0
    ensures r.Failure? ==> r.error == IndexOutOfRange
    ensures r.Success? ==> r.value == EntranceFacade(sizes, floorHeight, remainderWidth, buildingHeight)
  {
    var entranceHeight := EntranceHeight(buildingHeight, floorHeight);
    var wallWidthOffset := (if MinWallWidthOffset < remainderWidth then remainderWidth else MinWallWidthOffset) as real;
    // float divisions by zero give non-numbers here, never an exception
    var wallAveWidthOffset := if |sizes| == 0 then 0.0 else wallWidthOffset / |sizes| as real;
    var floorWidthOffset := if |sizes| == 0 then 0.0 else remainderWidth as real / |sizes| as real;
    var remainingHeight := buildingHeight - entranceHeight;
    var entranceTopOffset := if 0 < remainingHeight then 0 else EntranceTopOffset;
    var entrances :- CreateHorizontalEntrance(sizes, 0, |sizes|, entranceHeight, floorWidthOffset - wallAveWidthOffset, entranceTopOffset);
    var ground := Horizontal([
      Element(Wall, wallWidthOffset * 0.5, entranceHeight),
      entrances,
      Element(Wall, wallWidthOffset * 0.5, entranceHeight)
    ]);
    var rows := [ground];
    if 0 < remainingHeight {
      var upper := CreateNormalFacadeVertical(sizes, floorHeight, remainderWidth, 0, |sizes|, buildingHeight);
      rows := rows + [upper];
    }
    return Success(Vertical(rows));
  }

  /** Width of a three-element row. */
  lemma {:induction false} RowWidthTriple<K>(a: Layout<K>, b: Layout<K>, c: Layout<K>)
    ensures RowWidth([a, b, c]) == Width(a) + Width(b) + Width(c)
  {
    assert [a, b, c][1..] == [b, c];
    RowWidthPair(b, c);
  }

  /** n narrowed slots between the two end walls span the slots and the
      remainder exactly: the end walls take back what the slots gave up. */
  lemma EndWallsBalance(n: int, remainderWidth: int, endWall: real, offset: real)
    requires n > 0 && offset == remainderWidth as real / n as real - endWall * 2.0 / n as real
    ensures endWall + n as real * SlotPitch(offset) + endWall == (SizeValue(Narrow) * n + remainderWidth) as real
  {
    var d := n as real;
    DivMulCancel(remainderWidth as real, n);
    DivMulCancel(endWall * 2.0, n);
    assert d * SlotPitch(offset) == 2500.0 * d + d * (remainderWidth as real / d) - d * (endWall * 2.0 / d);
  }

  /** The entrance floor of the front face: the entrance row between its two
      end walls. */
  lemma EntranceGroundParts(sizes: seq<PanelSize>, floorHeight: int, remainderWidth: int, buildingHeight: int)
    requires |sizes| > 0 && floorHeight > 0
    ensures var count := |sizes|;
            var e := EntranceHeight(buildingHeight, floorHeight);
            var endWall := EndWallWidth(remainderWidth);
            var offset := remainderWidth as real / count as real - endWall * 2.0 / count as real;
            var top := if 0 < buildingHeight - e then 0 else EntranceTopOffset;
      Width(EntranceFacade(sizes, floorHeight, remainderWidth, buildingHeight).children[0])
        == endWall + RowWidth(EntranceRow(sizes, count, e, offset, top)) + endWall
  {
    var count := |sizes|;
    var e := EntranceHeight(buildingHeight, floorHeight);
    var endWall := EndWallWidth(remainderWidth);
    var offset := remainderWidth as real / count as real - endWall * 2.0 / count as real;
    var top := if 0 < buildingHeight - e then 0 else EntranceTopOffset;
    var row := EntranceRow(sizes, count, e, offset, top);
    var wall := Element(Wall, endWall, e);
    assert EntranceFacade(sizes, floorHeight, remainderWidth, buildingHeight).children[0] == Horizontal([wall, Horizontal(row), wall]);
    RowWidthTriple(wall, Horizontal(row), wall);
  }

  /** The entrance floor of the front face is exactly as wide as the facade. */
  lemma {:induction false} EntranceGroundWidth(sizes: seq<PanelSize>, floorHeight: int, remainderWidth: int, buildingHeight: int)
    requires |sizes| > 0 && floorHeight > 0
    ensures Width(EntranceFacade(sizes, floorHeight, remainderWidth, buildingHeight).children[0]) == (SlotsWidth(sizes) + remainderWidth) as real
  {
    EntranceGroundParts(sizes, floorHeight, remainderWidth, buildingHeight);
    var e := EntranceHeight(buildingHeight, floorHeight);
    EntranceRowBetweenWalls(sizes, e, remainderWidth, if 0 < buildingHeight - e then 0 else EntranceTopOffset);
  }

  /** The entrance row over all slots, narrowed to pay for two end walls,
      spans the slots and the remainder together with those walls. */
  lemma {:induction false} EntranceRowBetweenWalls(sizes: seq<PanelSize>, height: int, remainderWidth: int, topOffset: int)
    requires |sizes| > 0
    ensures var endWall := EndWallWidth(remainderWidth);
            var offset := remainderWidth as real / |sizes| as real - endWall * 2.0 / |sizes| as real;
      endWall + RowWidth(EntranceRow(sizes, |sizes|, height, offset, topOffset)) + endWall == (SlotsWidth(sizes) + remainderWidth) as real
  {
    var n := |sizes|;
    var endWall := EndWallWidth(remainderWidth);
    var offset := remainderWidth as real / n as real - endWall * 2.0 / n as real;
    var row := EntranceRow(sizes, n, height, offset, topOffset);
    assert RowWidth(row) == n as real * SlotPitch(offset) by {
      EntranceRowWidth(sizes, n, height, offset, topOffset);
    }
    assert endWall + n as real * SlotPitch(offset) + endWall == (SizeValue(Narrow) * n + remainderWidth) as real by {
      EndWallsBalance(n, remainderWidth, endWall, offset);
    }
  }

  /** The front face is as high as the building (once the building holds one
      floor); its ground floor and every upper floor are exactly as wide as
      the facade; the entrances are flush with the floor above when there is
      one and leave a gap otherwise. */
  lemma {:induction false} EntranceFacadeMeasures(sizes: seq<PanelSize>, floorHeight: int, remainderWidth: int, buildingHeight: int)
    requires |sizes| > 0 && floorHeight > 0
    ensures var f := EntranceFacade(sizes, floorHeight, remainderWidth, buildingHeight);
      && Height(f) == (if buildingHeight >= floorHeight then buildingHeight else EntranceHeight(buildingHeight, floorHeight))
      && Width(f.children[0]) == (SlotsWidth(sizes) + remainderWidth) as real
      && (|f.children| == 2 <==> buildingHeight >= 2 * floorHeight)
      && (|f.children| == 2 ==> forall k :: 0 <= k < |f.children[1].children| ==>
            Width(f.children[1].children[k]) == (SlotsWidth(sizes) + remainderWidth) as real)
      && (forall p :: 0 <= p < |f.children[0].children[1].children| && p % 2 == 0 ==>
            f.children[0].children[1].children[p].kind == Entrance(if |f.children| == 2 then 0 else EntranceTopOffset))
  {
    var f := EntranceFacade(sizes, floorHeight, remainderWidth, buildingHeight);
    var count := |sizes|;
    var e := EntranceHeight(buildingHeight, floorHeight);
    var endWall := EndWallWidth(remainderWidth);
    var offset := remainderWidth as real / count as real - endWall * 2.0 / count as real;
    var top := if 0 < buildingHeight - e then 0 else EntranceTopOffset;
    EntranceHeightBounds(buildingHeight, floorHeight);
    EntranceRowShape(sizes, count, e, offset, top);
    EntranceGroundWidth(sizes, floorHeight, remainderWidth, buildingHeight);
    WallFloorsMeasures(sizes, buildingHeight, floorHeight, remainderWidth, 0, count);
    var upper := if 0 < buildingHeight - e then UpperFloorCount(buildingHeight, floorHeight) * floorHeight else 0;
    assert Height(f) == e + upper by {
      var cs := f.children;
      StackHeightFront(cs[0], cs[1..]);
      if 0 < buildingHeight - e {
        StackHeightFront(cs[1], cs[2..]);
      }
    }
    FacadeHeightFromGround(buildingHeight, floorHeight, upper);
  }

  // ---------------------------------------------------------------------
  // The whole building
  // ---------------------------------------------------------------------

  /** The facade planned on face i: the third face (index 2) is the front. */
  function FacadeFor(i: int, sizes: seq<PanelSize>, floorHeight: int, remainderWidth: int, buildingHeight: int): Layout<FactoryPanel>
    requires |sizes| > 0 && floorHeight > 0
  {
    if i == 2 then EntranceFacade(sizes, floorHeight, remainderWidth, buildingHeight)
    else NormalFacade(sizes, floorHeight, remainderWidth, buildingHeight)
  }

  /** The facade planned on face i of edge e. */
  function FaceFacade(i: int, e: Edge, floorHeight: int, buildingHeight: int): Layout<FactoryPanel>
    requires !EmptyFace(e) && floorHeight > 0
  {
    FacadeFor(i, FaceSizes(e), floorHeight, FaceRemainder(e), buildingHeight)
  }

  /** Plans one of the first four faces: the front face gets the entrance
      facade, the other three the ordinary one. */
  method PlanFacade(i: int, sizes: seq<PanelSize>, floorHeight: int, remainderWidth: int, buildingHeight: int)
    returns (r: Result<Layout<FactoryPanel>>)
    requires 0 <= i < 4 && floorHeight > 0
    ensures r.Failure? <==> |sizes| == 0
    ensures r.Failure? ==> r.error == FaceFault(i)
    ensures r.Success? ==> r.value == FacadeFor(i, sizes, floorHeight, remainderWidth, buildingHeight)
  {
    if i == 2 {
      r := PlanEntranceFacade(sizes, floorHeight, remainderWidth, buildingHeight);
    } else {
      r := PlanNormalFacade(sizes, floorHeight, remainderWidth, buildingHeight);
    }
  }

  /** Layout l is what face i of edge e gets: its facade, built on the floor
      height the search chooses for the building height. */
  ghost predicate PlannedFace(l: Layout<FactoryPanel>, i: int, e: Edge, buildingHeight: int)
  {
    && !EmptyFace(e)
    && exists h :: MinFloorHeight <= h && BestFloorHeight(buildingHeight, h) && l == Vertical([FaceFacade(i, e, h, buildingHeight)])
  }

  /** The exception a face without slots raises: the front face's entrance
      row indexes an array, the other faces' window rows index a list. */
  function FaceFault(i: int): Fault
  {
    if i == 2 then IndexOutOfRange else ArgumentOutOfRange
  }

  /** Plans one facade per face of a rectangular footprint. The building
      height is capped first; each face is divided into slots (its shuffle
      drawing on `draws[i]`), gets the floor height that best divides the
      building height, and is planned as an ordinary or front face. Faces
      after the fourth end the planning. */
  method Plan(edges: seq<Edge>, draws: seq<seq<nat>>, config: Config) returns (r: Result<seq<Layout<FactoryPanel>>>)
    modifies config
    ensures config.buildingHeight == ClampBuildingHeight(old(config.buildingHeight))
    ensures config.buildingBoundaryHeight == old(config.buildingBoundaryHeight)
    ensures config.spandrelHeight == old(config.spandrelHeight)
    ensures config.lowerFloorBuildingType == old(config.lowerFloorBuildingType)
    ensures config.higherFloorBuildingType == old(config.higherFloorBuildingType)
    ensures config.addedBoundaryWall == old(config.addedBoundaryWall)
    ensures r.Success? <==> forall i :: 0 <= i < FaceCount(edges) ==> !EmptyFace(edges[i])
    ensures r.Failure? ==>
      exists i :: 0 <= i < FaceCount(edges) && EmptyFace(edges[i]) && (forall k :: 0 <= k < i ==> !EmptyFace(edges[k])) && r.error == FaceFault(i)
    ensures r.Success? ==> |r.value| == FaceCount(edges)
    ensures r.Success? ==> PlannedFaces(r.value, edges, config.buildingHeight)
  {
    if MaxBuildingHeight < config.buildingHeight {
      config.buildingHeight := MaxBuildingHeight;
    }
    var buildingHeight := config.buildingHeight;
    var layouts: seq<Layout<FactoryPanel>> := [];
    var i := 0;
    while i < |edges|
      invariant 0 <= i <= |edges| && i <= 4
      invariant config.buildingHeight == buildingHeight
      invariant config.buildingBoundaryHeight == old(config.buildingBoundaryHeight)
      invariant config.spandrelHeight == old(config.spandrelHeight)
      invariant config.lowerFloorBuildingType == old(config.lowerFloorBuildingType)
      invariant config.higherFloorBuildingType == old(config.higherFloorBuildingType)
      invariant config.addedBoundaryWall == old(config.addedBoundaryWall)
      invariant |layouts| == i && PlannedFaces(layouts, edges, buildingHeight)
    {
      var edge := edges[i];
      var faceDraws := if i < |draws| then draws[i] else [];
      var panelSizes, remainderWidth := DivideFacade(edge.width, edge.leftIsConvex, edge.rightIsConvex, faceDraws);
      var floorHeight := SearchFloorHeight(buildingHeight);
      if 4 <= i {
        return Success(layouts);
      }
      var planned := PlanFacade(i, panelSizes, floorHeight, remainderWidth, buildingHeight);
      if planned.Failure? {
        FaceSlots(edge, panelSizes);
        return Failure(planned.error);
      }
      var facade := planned.value;
      PlannedFacesSnoc(layouts, edges, buildingHeight, panelSizes, remainderWidth, floorHeight, facade);
      layouts := layouts + [Vertical([facade])];
      i := i + 1;
    }
    return Success(layouts);
  }

  /** The layouts planned so far are the facades of the first faces. */
  ghost predicate PlannedFaces(layouts: seq<Layout<FactoryPanel>>, edges: seq<Edge>, buildingHeight: int)
  {
    |layouts| <= |edges| && forall k :: 0 <= k < |layouts| ==> PlannedFace(layouts[k], k, edges[k], buildingHeight)
  }

  /** Planning the next face from its slots, its remainder and the chosen
      floor height extends the planned faces by that face. */
  lemma {:induction false} PlannedFacesSnoc(layouts: seq<Layout<FactoryPanel>>, edges: seq<Edge>, buildingHeight: int,
                         sizes: seq<PanelSize>, remainderWidth: int, floorHeight: int, facade: Layout<FactoryPanel>)
    requires PlannedFaces(layouts, edges, buildingHeight) && |layouts| < |edges|
    requires var e := edges[|layouts|];
      |sizes| == KnapsackCount(AvailableWidth(e.width, e.leftIsConvex, e.rightIsConvex)) && SlotsWidth(sizes) + remainderWidth == e.width
    requires |sizes| > 0 && MinFloorHeight <= floorHeight && BestFloorHeight(buildingHeight, floorHeight)
    requires facade == FacadeFor(|layouts|, sizes, floorHeight, remainderWidth, buildingHeight)
    ensures PlannedFaces(layouts + [Vertical([facade])], edges, buildingHeight)
  {
    var e := edges[|layouts|];
    FaceSlots(e, sizes);
    assert remainderWidth == FaceRemainder(e);
    assert facade == FaceFacade(|layouts|, e, floorHeight, buildingHeight);
    assert PlannedFace(Vertical([facade]), |layouts|, e, buildingHeight);
    var planned := layouts + [Vertical([facade])];
    forall k | 0 <= k < |planned|
      ensures PlannedFace(planned[k], k, edges[k], buildingHeight)
    {
      if k < |layouts| {
        assert planned[k] == layouts[k];
      }
    }
  }

  /** A face's facade spans its edge and, once the building holds a floor,
      rises to the building height. */
  lemma FaceFacadeMeasures(i: int, e: Edge, floorHeight: int, buildingHeight: int)
    requires !EmptyFace(e) && floorHeight > 0
    ensures Width(FaceFacade(i, e, floorHeight, buildingHeight)) == e.width as real
    ensures buildingHeight >= floorHeight ==> Height(FaceFacade(i, e, floorHeight, buildingHeight)) == buildingHeight
  {
    var f := FaceFacade(i, e, floorHeight, buildingHeight);
    if i == 2 {
      EntranceFacadeMeasures(FaceSizes(e), floorHeight, FaceRemainder(e), buildingHeight);
    } else {
      NormalFacadeMeasures(FaceSizes(e), floorHeight, FaceRemainder(e), buildingHeight);
    }
    assert Width(f) == Width(f.children[0]);
  }

  /** Every planned face is as wide as its edge and, once the building is
      taller than any candidate floor, exactly as high as the building. */
  lemma {:induction false} PlannedFaceMeasures(l: Layout<FactoryPanel>, i: int, e: Edge, buildingHeight: int)
    requires PlannedFace(l, i, e, buildingHeight)
    ensures Width(l) == e.width as real
    ensures MaxFloorHeight <= buildingHeight ==> Height(l) == buildingHeight
  {
    var h :| MinFloorHeight <= h && BestFloorHeight(buildingHeight, h) && l == Vertical([FaceFacade(i, e, h, buildingHeight)]);
    var k :| 0 <= k < CandidateCount && h == Candidate(k);
    var f := FaceFacade(i, e, h, buildingHeight);
    FaceFacadeMeasures(i, e, h, buildingHeight);
    assert h < MaxFloorHeight;
    assert [f] + [] == [f];
    StackHeightFront(f, []);
    assert Height(l) == Height(f);
    assert Width(l) == Width(f);
  }
}
