/**
 * The layout tree the facade planners produce and the mesh layer consumes:
 * vertical containers stack their children bottom to top, horizontal
 * containers place them left to right, and leaves are sized panel elements.
 * Heights are integers in thousandths of a unit; widths are reals in
 * thousandths because per-slot width offsets are quotients.
 */
module LayoutTree {

  datatype Layout<K> =
    | Vertical(children: seq<Layout<K>>)
    | Horizontal(children: seq<Layout<K>>)
    | Element(kind: K, width: real, height: int)

  /** Height of a layout: a vertical stack adds its children up, a horizontal
      row takes the height of its first child (every child of a row shares it). */
  function Height<K>(l: Layout<K>): int
    decreases l
  {
    match l
    case Element(_, _, h) => h
    case Horizontal(cs) => if |cs| == 0 then 0 else Height(cs[0])
    case Vertical(cs) => StackHeight(cs)
  }

  /** Sum of the heights of a vertical container's children. */
  function StackHeight<K>(cs: seq<Layout<K>>): int
    decreases cs
  {
    if |cs| == 0 then 0 else Height(cs[0]) + StackHeight(cs[1..])
  }

  /** Width of a layout: a horizontal row adds its children up, a vertical
      stack takes the width of its first child. */
  function Width<K>(l: Layout<K>): real
    decreases l
  {
    match l
    case Element(_, w, _) => w
    case Horizontal(cs) => RowWidth(cs)
    case Vertical(cs) => if |cs| == 0 then 0.0 else Width(cs[0])
  }

  /** Sum of the widths of a horizontal container's children. */
  function RowWidth<K>(cs: seq<Layout<K>>): real
    decreases cs
  {
    if |cs| == 0 then 0.0 else Width(cs[0]) + RowWidth(cs[1..])
  }

  /** Every child of the row is a leaf of the given height. */
  predicate UniformHeight<K>(cs: seq<Layout<K>>, height: int)
  {
    forall i :: 0 <= i < |cs| ==> cs[i].Element? && cs[i].height == height
  }

  /** A stack is its bottom child under the rest. */
  lemma {:induction false} StackHeightFront<K>(a: Layout<K>, rest: seq<Layout<K>>)
    ensures StackHeight([a] + rest) == Height(a) + StackHeight(rest)
  {
    assert ([a] + rest)[1..] == rest;
  }

  lemma {:induction false} StackHeightAppend<K>(a: seq<Layout<K>>, b: seq<Layout<K>>)
    ensures StackHeight(a + b) == StackHeight(a) + StackHeight(b)
  {
    if |a| == 0 {
      assert a + b == b;
    } else {
      assert (a + b)[1..] == a[1..] + b;
      StackHeightAppend(a[1..], b);
    }
  }

  lemma {:induction false} RowWidthAppend<K>(a: seq<Layout<K>>, b: seq<Layout<K>>)
    ensures RowWidth(a + b) == RowWidth(a) + RowWidth(b)
  {
    if |a| == 0 {
      assert a + b == b;
    } else {
      assert (a + b)[1..] == a[1..] + b;
      RowWidthAppend(a[1..], b);
    }
  }

  /** One more copy of w: (n + 1) * w == w + n * w. */
  lemma MulSucc(n: int, w: real)
    ensures (n + 1) as real * w == w + n as real * w
  {
  }

  /** A stack of n children of height h is n * h high. */
  lemma {:induction false} StackHeightUniform<K>(cs: seq<Layout<K>>, h: int)
    requires forall i :: 0 <= i < |cs| ==> Height(cs[i]) == h
    ensures StackHeight(cs) == |cs| * h
  {
    if |cs| > 0 {
      StackHeightUniform(cs[1..], h);
    }
  }

  /** A row of n children of width w is n * w wide. */
  lemma {:induction false} RowWidthUniform<K>(cs: seq<Layout<K>>, w: real)
    requires forall i :: 0 <= i < |cs| ==> Width(cs[i]) == w
    ensures RowWidth(cs) == |cs| as real * w
  {
    if |cs| > 0 {
      RowWidthUniform(cs[1..], w);
      MulSucc(|cs| - 1, w);
    }
  }
}
