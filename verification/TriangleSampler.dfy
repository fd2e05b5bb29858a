/** Choosing a triangle with a probability proportional to its area. */
module TriangleSampler {

  predicate NonNegative(areas: seq<real>) {
    forall k :: 0 <= k < |areas| ==> areas[k] >= 0.0
  }

  /** The area of the first n triangles. */
  function Prefix(areas: seq<real>, n: nat): real
    requires n <= |areas|
  {
    if n == 0 then 0.0 else Prefix(areas, n - 1) + areas[n - 1]
  }

  /** The area of the triangles up to and including triangle k. */
  function Through(areas: seq<real>, k: nat): real
    requires k < |areas|
  {
    Prefix(areas, k + 1)
  }

  datatype Sampler = Sampler(cumulativeAreas: seq<real>, totalArea: real)

  predicate Samples(s: Sampler, areas: seq<real>) {
    && |s.cumulativeAreas| == |areas| && s.totalArea == Prefix(areas, |areas|)
    && forall k: nat :: k < |areas| ==> s.cumulativeAreas[k] == Through(areas, k)
  }

  method MakeSampler(areas: seq<real>) returns (s: Sampler)
    ensures Samples(s, areas)
  {
    var cumulativeAreas, totalArea := [], 0.0;
    var triangle := 0;
    while triangle < |areas|
      invariant 0 <= triangle <= |areas| && |cumulativeAreas| == triangle
      invariant totalArea == Prefix(areas, triangle)
      invariant forall k: nat :: k < triangle ==> cumulativeAreas[k] == Through(areas, k)
    {
      totalArea := totalArea + areas[triangle];
      cumulativeAreas := cumulativeAreas + [totalArea];
      triangle := triangle + 1;
    }
    s := Sampler(cumulativeAreas, totalArea);
  }

  lemma {:induction false} PrefixGrows(areas: seq<real>, m: nat, n: nat)
    requires NonNegative(areas) && m <= n <= |areas|
    ensures Prefix(areas, m) <= Prefix(areas, n)
    decreases n
  {
    if m < n {
      PrefixGrows(areas, m, n - 1);
    }
  }

  /** The least triangle whose cumulative area reaches the target. */
  ghost predicate IsLeast(areas: seq<real>, target: real, k: int) {
    && 0 <= k < |areas| && target <= Through(areas, k)
    && forall j: nat :: j < k ==> Through(areas, j) < target
  }

  lemma LastReachesTotal(areas: seq<real>)
    requires areas != []
    ensures Through(areas, |areas| - 1) == Prefix(areas, |areas|)
  {
  }

  lemma ProductIsNonNegative(a: real, b: real)
    requires a >= 0.0 && b >= 0.0
    ensures a * b >= 0.0 && (a * b > 0.0 <==> a > 0.0 && b > 0.0)
  {
  }

  lemma ScaledTarget(random: real, total: real, target: real)
    requires 0.0 <= random < 1.0 && total >= 0.0 && target == random * total
    ensures 0.0 <= target <= total
    ensures random > 0.0 && total > 0.0 <==> target > 0.0
  {
    ProductIsNonNegative(random, total);
    ProductIsNonNegative(1.0 - random, total);
    assert total - target == (1.0 - random) * total;
  }

  /** The binary search; the result is the position of the triangle in the index list. */
  method ChooseTriangle(sampler: Sampler, random: real, ghost areas: seq<real>) returns (r: nat)
    requires NonNegative(areas) && Samples(sampler, areas) && 0.0 <= random < 1.0
    ensures areas == [] ==> r == 0
    ensures areas != [] ==> r % 3 == 0 && IsLeast(areas, random * Prefix(areas, |areas|), r / 3)
  {
    var target := random * sampler.totalArea;
    var low, high := 0, |sampler.cumulativeAreas| - 1;
    PrefixGrows(areas, 0, |areas|);
    ScaledTarget(random, sampler.totalArea, target);
    if areas != [] {
      LastReachesTotal(areas);
    }
    while low < high
      invariant areas != [] ==> 0 <= low <= high < |areas|
      invariant areas == [] ==> low == 0
      invariant forall j: nat :: j < low ==> Through(areas, j) < target
      invariant areas != [] ==> target <= Through(areas, high)
    {
      var middle := (low + high) / 2;
      if sampler.cumulativeAreas[middle] < target {
        forall j: nat | j < middle + 1 ensures Through(areas, j) < target {
          PrefixGrows(areas, j + 1, middle + 1);
        }
        low := middle + 1;
      } else {
        high := middle;
      }
    }
    r := low * 3;
  }

  // ---------- what is chosen ----------

  /** The positive targets that choose triangle k form the interval of length `areas[k]` that follows
      the areas of the triangles before it. */
  lemma ChosenOnItsInterval(areas: seq<real>, target: real, k: nat)
    requires NonNegative(areas) && k < |areas| && target > 0.0
    ensures IsLeast(areas, target, k) <==> Prefix(areas, k) < target <= Through(areas, k)
    ensures Through(areas, k) - Prefix(areas, k) == areas[k]
  {
    hide Prefix;
    LastArea(areas, k);
    if IsLeast(areas, target, k) && k > 0 {
      EarlierMissed(areas, target, k, k - 1);
    }
    if Prefix(areas, k) < target {
      EarlierAreMissed(areas, target, k);
    }
  }

  lemma LastArea(areas: seq<real>, k: nat)
    requires k < |areas|
    ensures Prefix(areas, k + 1) == Prefix(areas, k) + areas[k] && Prefix(areas, 0) == 0.0
  {
  }

  lemma EarlierAreMissed(areas: seq<real>, target: real, k: nat)
    requires NonNegative(areas) && k < |areas| && Prefix(areas, k) < target
    ensures forall j: nat :: j < k ==> Through(areas, j) < target
  {
    forall j: nat | j < k ensures Through(areas, j) < target {
      PrefixGrows(areas, j + 1, k);
    }
  }

  lemma EarlierMissed(areas: seq<real>, target: real, k: nat, j: nat)
    requires IsLeast(areas, target, k) && j < k
    ensures Prefix(areas, j + 1) < target
  {
    assert Through(areas, j) < target;
  }

  /** Every target up to the total chooses exactly one triangle. */
  lemma {:induction false} ExactlyOne(areas: seq<real>, target: real, n: nat) returns (k: nat)
    requires NonNegative(areas) && 0 < n <= |areas| && target <= Prefix(areas, n)
    ensures k < n && IsLeast(areas, target, k)
    ensures forall j :: IsLeast(areas, target, j) ==> j == k
  {
    if n > 1 && target <= Prefix(areas, n - 1) {
      k := ExactlyOne(areas, target, n - 1);
    } else {
      k := n - 1;
      if k > 0 {
        EarlierAreMissed(areas, target, k);
      }
    }
    forall j | IsLeast(areas, target, j) ensures j == k {
      LeastIsUnique(areas, target, j, k);
    }
  }

  lemma LeastIsUnique(areas: seq<real>, target: real, j: nat, k: nat)
    requires IsLeast(areas, target, j) && IsLeast(areas, target, k)
    ensures j == k
  {
  }

  /** A triangle without area is chosen exactly when the target is zero and the first triangle has
      no area; a positive target never chooses one. */
  lemma EmptyTriangleChosenIff(areas: seq<real>, random: real, k: nat)
    requires NonNegative(areas) && areas != [] && 0.0 <= random < 1.0
    requires IsLeast(areas, random * Prefix(areas, |areas|), k)
    ensures areas[k] == 0.0 <==> areas[0] == 0.0 && (random == 0.0 || Prefix(areas, |areas|) == 0.0)
  {
    var total := Prefix(areas, |areas|);
    var target := random * total;
    PrefixGrows(areas, 0, |areas|);
    ScaledTarget(random, total, target);
    if target > 0.0 {
      ChosenOnItsInterval(areas, target, k);
    } else {
      PrefixGrows(areas, 0, 1);
      LeastIsUnique(areas, target, 0, k);
    }
  }
}
