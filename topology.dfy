/** Size of the process grid. The hierarchical constructor gets the
    branching factors of every nesting level in one flat list, `topo[j * 3 + i]`
    being level `j`'s factor on axis `i`; the grid size on an axis is the
    product over the levels. The flat constructor takes the grid size directly,
    which is the one-level case. Both then set the largest torus coordinate
    of every axis. */
module Topology {
  import opened Coordinates

  /** Every branching factor of the first `levels` levels is positive. */
  predicate PositiveFactors(topo: seq<int>, levels: nat)
  {
    3 * levels <= |topo| && forall k :: 0 <= k < 3 * levels ==> topo[k] > 0
  }

  /** Product of the first `levels` branching factors on `axis`; positive
      factors make a positive grid size. */
  function LevelProduct(topo: seq<int>, levels: nat, axis: nat): (p: int)
    requires axis < 3 && 3 * levels <= |topo|
    ensures PositiveFactors(topo, levels) ==> p > 0
  {
    if levels == 0 then 1
    else
      var f := topo[(levels - 1) * 3 + axis];
      var rest := LevelProduct(topo, levels - 1, axis);
      assert PositiveFactors(topo, levels) ==> PositiveFactors(topo, levels - 1) && f > 0;
      rest * f
  }

  /** The process-grid size on all three axes. */
  function GridSize(topo: seq<int>, levels: nat): (g: seq<int>)
    requires 3 * levels <= |topo|
    ensures |g| == 3 && forall i :: 0 <= i < 3 ==> g[i] == LevelProduct(topo, levels, i)
    ensures PositiveFactors(topo, levels) ==> Positive3(g)
  {
    [LevelProduct(topo, levels, 0), LevelProduct(topo, levels, 1), LevelProduct(topo, levels, 2)]
  }

  /** The flat constructor stores its grid size as a one-level hierarchy
      (`m_topo` is the grid size, `m_levels` has one entry); read that way,
      the grid has the same size. */
  lemma FlatIsOneLevel(globalD: seq<int>)
    requires |globalD| == 3
    ensures GridSize(globalD, 1) == globalD
  {
    assert LevelProduct(globalD, 1, 0) == globalD[0];
    assert LevelProduct(globalD, 1, 1) == globalD[1];
    assert LevelProduct(globalD, 1, 2) == globalD[2];
  }

  /** The loop of the hierarchical constructor: per axis, the grid size is
      the product of the level factors and the largest torus coordinate is
      that size times the thread-grid size, minus one. */
  method ProcessGrid(topo: seq<int>, levels: nat, threadD: seq<int>) returns (globalD: seq<int>, last: seq<int>)
    requires 3 * levels <= |topo| && |threadD| == 3
    ensures |globalD| == 3 && |last| == 3
    ensures globalD == GridSize(topo, levels)
    ensures forall i :: 0 <= i < 3 ==> last[i] == globalD[i] * threadD[i] - 1
  {
    globalD, last := [0, 0, 0], [0, 0, 0];
    for i := 0 to 3
      invariant |globalD| == 3 && |last| == 3
      invariant forall k :: 0 <= k < i ==> globalD[k] == LevelProduct(topo, levels, k)
      invariant forall k :: 0 <= k < i ==> last[k] == globalD[k] * threadD[k] - 1
    {
      globalD := globalD[i := 1];
      for j := 0 to levels
        invariant |globalD| == 3
        invariant globalD[i] == LevelProduct(topo, j, i)
        invariant forall k :: 0 <= k < i ==> globalD[k] == LevelProduct(topo, levels, k)
      {
        globalD := globalD[i := globalD[i] * topo[j * 3 + i]];
      }
      last := last[i := globalD[i] * threadD[i] - 1];
    }
  }

  /** The loop of the flat constructor: the largest torus coordinate of each
      axis, which makes the torus `Scale(globalD, threadD)`. */
  method LastCoordinates(globalD: seq<int>, threadD: seq<int>) returns (last: seq<int>)
    requires |globalD| == 3 && |threadD| == 3
    ensures |last| == 3
    ensures forall i :: 0 <= i < 3 ==> last[i] + 1 == Scale(globalD, threadD)[i]
  {
    last := [0, 0, 0];
    for i := 0 to 3
      invariant |last| == 3
      invariant forall k :: 0 <= k < i ==> last[k] == globalD[k] * threadD[k] - 1
    {
      last := last[i := globalD[i] * threadD[i] - 1];
    }
  }
}
