/**
 * Building-height arithmetic shared by the facade planners: the height cap,
 * and the floor-height search that scans the candidate floor heights from
 * 2.75 up to (excluding) 3.25 in steps of 0.05 and keeps the one that
 * divides the target height with the smallest fractional floor count.
 * Heights are integers in thousandths.
 */
module FloorHeight {

  /** No building is planned taller than 100 units. */
  const MaxBuildingHeight: int := 100000

  /** The height cap applied at the start of planning: heights above the cap
      become the cap, others are kept. */
  function ClampBuildingHeight(buildingHeight: int): (h: int)
    ensures h <= MaxBuildingHeight
    ensures buildingHeight <= MaxBuildingHeight ==> h == buildingHeight
    ensures MaxBuildingHeight < buildingHeight ==> h == MaxBuildingHeight
  {
    if MaxBuildingHeight < buildingHeight then MaxBuildingHeight else buildingHeight
  }

  const MinFloorHeight: int := 2750
  const MaxFloorHeight: int := 3250
  const FloorHeightStep: int := 50
  /** 2750 + 50 * 10 == 3250, so the grid has ten candidates. */
  const CandidateCount: nat := 10

  /** The k-th candidate floor height: 2750, 2800, ..., 3200. */
  function Candidate(k: nat): int
  {
    MinFloorHeight + FloorHeightStep * k
  }

  /** A candidate of the grid; every one of them is a positive height. */
  predicate IsCandidate(h: int)
  {
    exists k :: 0 <= k < CandidateCount && h == Candidate(k)
  }

  /** target / h - floor(target / h), the fractional part of the floor count;
      Euclidean `%` with a positive divisor is the floored remainder. */
  function Frac(target: int, h: int): real
    requires h > 0
  {
    (target % h) as real / h as real
  }

  lemma FracBelowOne(target: int, h: int)
    requires h > 0
    ensures 0.0 <= Frac(target, h) < 1.0
  {
    var r := (target % h) as real;
    var d := h as real;
    assert 0.0 <= r < d;
    assert r / d < 1.0 by {
      assert r / d * d == r;
    }
  }

  /** The floor height the search settles on for a target height: a
      candidate whose fractional floor count is the smallest, and strictly
      smaller than that of every lower candidate (ties go to the lowest). */
  predicate BestFloorHeight(target: int, h: int)
  {
    && IsCandidate(h)
    && (forall k :: 0 <= k < CandidateCount ==> Frac(target, h) <= Frac(target, Candidate(k)))
    && (forall k :: 0 <= k < CandidateCount && Candidate(k) < h ==> Frac(target, h) < Frac(target, Candidate(k)))
  }

  /** The choice is determined by the target height alone. */
  lemma BestFloorHeightUnique(target: int, a: int, b: int)
    requires BestFloorHeight(target, a) && BestFloorHeight(target, b)
    ensures a == b
  {
    var ka :| 0 <= ka < CandidateCount && a == Candidate(ka);
    var kb :| 0 <= kb < CandidateCount && b == Candidate(kb);
  }

  /**
   * The search loop. `best` starts at 0 and the best remainder at 1, so the
   * first candidate is always taken (its fractional part is below 1); a later
   * candidate replaces the best only when it is strictly better, so ties keep
   * the earliest (smallest) height.
   */
  method SearchFloorHeight(target: int) returns (best: int)
    ensures BestFloorHeight(target, best)
    ensures MinFloorHeight <= best < MaxFloorHeight
  {
    best := 0;
    var bestRemaining: real := 1.0;
    var h := MinFloorHeight;
    ghost var k: nat := 0;
    ghost var bestK: nat := 0;
    while h < MaxFloorHeight
      invariant k <= CandidateCount && h == Candidate(k)
      invariant k == 0 ==> bestRemaining == 1.0
      invariant k > 0 ==> bestK < k && best == Candidate(bestK) && bestRemaining == Frac(target, best)
      invariant forall j :: 0 <= j < k ==> bestRemaining <= Frac(target, Candidate(j))
      invariant forall j :: 0 <= j < bestK ==> bestRemaining < Frac(target, Candidate(j))
    {
      FracBelowOne(target, h);
      if Frac(target, h) < bestRemaining {
        best, bestK := h, k;
        bestRemaining := Frac(target, h);
      }
      h, k := h + FloorHeightStep, k + 1;
    }
    assert k == CandidateCount;
    forall j | 0 <= j < CandidateCount && Candidate(j) < best
      ensures j < bestK
    {
    }
  }

  /** Number of full floors stacked above the entrance floor: floor(H / h) - 1. */
  function NumFloorWithoutEntrance(buildingHeight: int, floorHeight: int): int
    requires floorHeight > 0
  {
    buildingHeight / floorHeight - 1
  }

  /** The entrance (ground) floor takes whatever the upper floors leave:
      between one and two floor heights, whatever the building height. */
  function EntranceHeight(buildingHeight: int, floorHeight: int): (e: int)
    requires floorHeight > 0
    ensures e + NumFloorWithoutEntrance(buildingHeight, floorHeight) * floorHeight == buildingHeight
    ensures floorHeight <= e < 2 * floorHeight
  {
    var q := buildingHeight / floorHeight;
    assert buildingHeight == q * floorHeight + buildingHeight % floorHeight;
    assert (q - 1) * floorHeight == q * floorHeight - floorHeight;
    buildingHeight - NumFloorWithoutEntrance(buildingHeight, floorHeight) * floorHeight
  }

  /** Multiplying by a positive factor preserves the order. */
  lemma MulMonotone(a: int, b: int, c: int)
    requires c > 0 && a <= b
    ensures a * c <= b * c
  {
    assert b * c - a * c == (b - a) * c;
  }

  /** With H == q * h + r and 0 <= r < h, q is at least m exactly when H is
      at least m * h. */
  lemma QuotientAtLeast(buildingHeight: int, floorHeight: int, m: int)
    requires floorHeight > 0
    ensures buildingHeight / floorHeight >= m <==> buildingHeight >= m * floorHeight
  {
    var q := buildingHeight / floorHeight;
    var r := buildingHeight % floorHeight;
    assert buildingHeight == q * floorHeight + r && 0 <= r < floorHeight;
    if q >= m {
      MulMonotone(m, q, floorHeight);
    } else {
      MulMonotone(q + 1, m, floorHeight);
      assert (q + 1) * floorHeight == q * floorHeight + floorHeight;
    }
  }

  /** There are upper floors to stack exactly when the building is taller
      than one floor, and room above the entrance floor exactly when it is
      at least two floors tall. */
  lemma EntranceHeightBounds(buildingHeight: int, floorHeight: int)
    requires floorHeight > 0
    ensures NumFloorWithoutEntrance(buildingHeight, floorHeight) >= 0 <==> buildingHeight >= floorHeight
    ensures buildingHeight - EntranceHeight(buildingHeight, floorHeight) > 0 <==> buildingHeight >= 2 * floorHeight
  {
    QuotientAtLeast(buildingHeight, floorHeight, 1);
    if buildingHeight - EntranceHeight(buildingHeight, floorHeight) > 0 {
      PositiveMultiple(NumFloorWithoutEntrance(buildingHeight, floorHeight), floorHeight);
      MulMonotone(1, NumFloorWithoutEntrance(buildingHeight, floorHeight), floorHeight);
    }
  }

  /** A positive multiple of a positive number takes it at least once. */
  lemma PositiveMultiple(a: int, c: int)
    requires c > 0 && a * c > 0
    ensures a >= 1
  {
    if a <= 0 {
      MulMonotone(a, 0, c);
    }
  }
}
