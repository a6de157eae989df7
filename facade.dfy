/**
 * Facade division shared by both planners: a facade edge is cut into
 * fixed-size panel slots chosen by a knapsack over the width that remains
 * once the buffers beside concave corners are taken off, the slots are
 * shuffled, and rows of panels are laid out over a range of slots.
 * Widths are integers in thousandths of a unit.
 */
module Facade {
  import opened LayoutTree

  /** The only panel size either planner offers. */
  datatype PanelSize = Narrow

  /** Width of a slot of the given size (2.5 units). */
  function SizeValue(p: PanelSize): int
  {
    match p
    case Narrow => 2500
  }

  /** Width kept free beside a concave (non-convex) corner. */
  const BufferWidth: int := 2000

  /** The facade width minus one buffer for each side that is not convex. */
  function AvailableWidth(facadeWidth: int, leftIsConvex: bool, rightIsConvex: bool): int
  {
    facadeWidth - (if leftIsConvex then 0 else BufferWidth) - (if rightIsConvex then 0 else BufferWidth)
  }

  /**
   * Number of slots the knapsack packs into the available width. The
   * knapsack routine itself is not part of this model; with a single item
   * size its result is characterised by its contract: the slots fit, and
   * one more would not.
   */
  function KnapsackCount(availableWidth: int): (count: nat)
    ensures count * SizeValue(Narrow) <= if availableWidth < 0 then 0 else availableWidth
    ensures availableWidth < (count + 1) * SizeValue(Narrow)
  {
    if availableWidth <= 0 then 0 else availableWidth / SizeValue(Narrow)
  }

  /** There is a single slot size, so a slot list is fixed by its length. */
  lemma AllNarrow(sizes: seq<PanelSize>)
    ensures sizes == seq(|sizes|, _ => Narrow)
  {
    forall j | 0 <= j < |sizes|
      ensures sizes[j] == Narrow
    {
      match sizes[j]
      case Narrow =>
    }
  }

  /** The multiset of slot sizes the knapsack hands back. */
  function KnapsackItems(availableWidth: int): multiset<PanelSize>
  {
    multiset{}[Narrow := KnapsackCount(availableWidth)]
  }

  /** Total width of a list of slots. */
  function SlotsWidth(sizes: seq<PanelSize>): (w: int)
    ensures w == SizeValue(Narrow) * |sizes|
  {
    if |sizes| == 0 then 0 else SizeValue(sizes[0]) + SlotsWidth(sizes[1..])
  }

  /**
   * In-place Fisher-Yates shuffle. The random source is the parameter
   * `draws`: the i-th swap partner is the i-th draw reduced into range
   * (0 when the draws run out). Whatever the draws, the result is a
   * permutation of the input.
   */
  method Shuffle<T>(s: seq<T>, draws: seq<nat>) returns (r: seq<T>)
    ensures |r| == |s|
    ensures multiset(r) == multiset(s)
  {
    r := s;
    var i := |r|;
    while i > 1
      invariant 0 <= i <= |r| == |s|
      invariant multiset(r) == multiset(s)
    {
      var k := |r| - i;
      var j := if k < |draws| then draws[k] % i else 0;
      var last := i - 1;
      r := r[last := r[j]][j := r[last]];
      i := i - 1;
    }
  }

  /**
   * Divides a facade into slots. The knapsack packs the width left after the
   * corner buffers, but the remainder is measured from the full facade width,
   * so the slots and the remainder always add up to the facade.
   */
  method DivideFacade(facadeWidth: int, leftIsConvex: bool, rightIsConvex: bool, draws: seq<nat>)
    returns (sizes: seq<PanelSize>, remainder: int)
    ensures multiset(sizes) == KnapsackItems(AvailableWidth(facadeWidth, leftIsConvex, rightIsConvex))
    ensures |sizes| == KnapsackCount(AvailableWidth(facadeWidth, leftIsConvex, rightIsConvex))
    ensures SlotsWidth(sizes) + remainder == facadeWidth
    ensures facadeWidth >= 0 ==> remainder >= 0
    ensures remainder < facadeWidth - AvailableWidth(facadeWidth, leftIsConvex, rightIsConvex) + SizeValue(Narrow)
  {
    var availableWidth := AvailableWidth(facadeWidth, leftIsConvex, rightIsConvex);
    var count := KnapsackCount(availableWidth);
    var packed: seq<PanelSize> := [];
    remainder := facadeWidth;
    for i := 0 to count
      invariant |packed| == i
      invariant multiset(packed) == multiset{}[Narrow := i]
      invariant remainder == facadeWidth - SizeValue(Narrow) * i
    {
      packed := packed + [Narrow];
      remainder := remainder - SizeValue(Narrow);
    }
    sizes := Shuffle(packed, draws);
    assert |sizes| == multiset(sizes)[Narrow] == count;
  }

  /** The row of panels over the slots [from, to): one element per slot, as
      wide as its slot plus the per-slot offset, all of the given height. */
  function PanelRow<K>(sizes: seq<PanelSize>, from: int, to: int, height: int, offset: real, kind: K): seq<Layout<K>>
    requires 0 <= from <= to <= |sizes|
  {
    seq(to - from, k requires 0 <= k < to - from => Element(kind, SizeValue(sizes[from + k]) as real + offset, height))
  }

  /** Builds a row by adding one panel per slot, left to right. */
  method CreateHorizontal<K>(sizes: seq<PanelSize>, from: int, to: int, height: int, offset: real, kind: K)
    returns (row: Layout<K>)
    requires 0 <= from <= to <= |sizes|
    ensures row.Horizontal? && row.children == PanelRow(sizes, from, to, height, offset, kind)
  {
    var children: seq<Layout<K>> := [];
    for i := from to to
      invariant children == PanelRow(sizes, from, i, height, offset, kind)
    {
      children := children + [Element(kind, SizeValue(sizes[i]) as real + offset, height)];
    }
    row := Horizontal(children);
  }

  /** A row over n slots is n slot widths plus n offsets wide, and every
      panel in it has the row's height. */
  lemma PanelRowMeasures<K>(sizes: seq<PanelSize>, lo: int, hi: int, height: int, offset: real, kind: K)
    requires 0 <= lo <= hi <= |sizes|
    ensures RowWidth(PanelRow(sizes, lo, hi, height, offset, kind)) == (hi - lo) as real * (SizeValue(Narrow) as real + offset)
    ensures UniformHeight(PanelRow(sizes, lo, hi, height, offset, kind), height)
  {
    var row := PanelRow(sizes, lo, hi, height, offset, kind);
    forall i | 0 <= i < |row|
      ensures Width(row[i]) == SizeValue(Narrow) as real + offset
    {
      assert SizeValue(sizes[lo + i]) == SizeValue(Narrow);
    }
    RowWidthUniform(row, SizeValue(Narrow) as real + offset);
  }

  /** One edge of the footprint as the planner sees it: its length and
      whether the corners at its two ends are convex. */
  datatype Edge = Edge(width: int, leftIsConvex: bool, rightIsConvex: bool)

  /** The slots the knapsack gives an edge. There is a single slot size, so
      every shuffle of them is the same list. */
  function FaceSizes(e: Edge): seq<PanelSize>
  {
    seq(KnapsackCount(AvailableWidth(e.width, e.leftIsConvex, e.rightIsConvex)), _ => Narrow)
  }

  /** What the slots leave of the edge. */
  function FaceRemainder(e: Edge): int
  {
    e.width - SlotsWidth(FaceSizes(e))
  }

  /** An edge too narrow for a single slot. */
  predicate EmptyFace(e: Edge)
  {
    |FaceSizes(e)| == 0
  }

  /** Only the first four faces are planned. */
  function FaceCount(edges: seq<Edge>): nat
  {
    if |edges| < 4 then |edges| else 4
  }

  /** The slots DivideFacade hands back for an edge are the face's slots. */
  lemma FaceSlots(e: Edge, sizes: seq<PanelSize>)
    requires |sizes| == KnapsackCount(AvailableWidth(e.width, e.leftIsConvex, e.rightIsConvex))
    ensures sizes == FaceSizes(e)
  {
    AllNarrow(sizes);
  }
}
