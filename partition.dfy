/** The per-axis tables that `init_domain` builds: an axis of `extent` cells
    is cut into `lines` consecutive lines. Every line gets `Base` cells and the
    first `Remainder` lines get one more, so line sizes differ by at most one.
    The offset table holds `lines + 1` entries, the cells before each line. */
module AxisPartition {
  import opened Arith

  /** Cells every line gets at least (the source's `ext`). On non-negative
      operands the source's floating-point quotient truncated to `int` equals
      integer division. */
  function Base(extent: nat, lines: nat): (b: nat)
    requires lines > 0
    ensures lines * b <= extent < lines * b + lines
  {
    DivModSplit(extent, lines);
    extent / lines
  }

  /** Number of lines that get one extra cell (the source's `j`). */
  function Remainder(extent: nat, lines: nat): (j: nat)
    requires lines > 0
    ensures j < lines
  {
    extent - lines * Base(extent, lines)
  }

  /** Size of line `i`: the base size, or one more. */
  function LineSize(extent: nat, lines: nat, i: int): (s: nat)
    requires lines > 0
    ensures Base(extent, lines) <= s <= Base(extent, lines) + 1
  {
    Base(extent, lines) + if i < Remainder(extent, lines) then 1 else 0
  }

  /** The extent table: the size of each line, in order. */
  function Extents(extent: nat, lines: nat): (e: seq<int>)
    requires lines > 0
    ensures |e| == lines
  {
    seq(lines, i => LineSize(extent, lines, i))
  }

  function Sum(s: seq<int>): int
  {
    if s == [] then 0 else Sum(s[..|s| - 1]) + s[|s| - 1]
  }

  /** The offset table: entry `k` is the number of cells in lines `0..k`,
      that is, the prefix sums of the extent table. */
  function Offsets(extent: nat, lines: nat): (o: seq<int>)
    requires lines > 0
    ensures |o| == lines + 1
  {
    var e := Extents(extent, lines);
    seq(lines + 1, k requires 0 <= k <= lines => Sum(e[..k]))
  }

  /** The table starts at 0 and each offset is the previous one plus the size
      of the line in between. */
  lemma OffsetsArePrefixSums(extent: nat, lines: nat)
    requires lines > 0
    ensures Offsets(extent, lines)[0] == 0
    ensures forall i :: 0 <= i < lines ==>
      Offsets(extent, lines)[i + 1] == Offsets(extent, lines)[i] + Extents(extent, lines)[i]
  {
    var e := Extents(extent, lines);
    forall i | 0 <= i < lines
      ensures Offsets(extent, lines)[i + 1] == Offsets(extent, lines)[i] + e[i]
    {
      assert e[..i + 1][..i] == e[..i];
    }
  }

  /** Closed form of an offset: `k` lines of `Base` cells plus one cell for
      each of the first `k` lines that got an extra one. */
  lemma {:induction false} OffsetClosedForm(extent: nat, lines: nat, k: nat)
    requires lines > 0 && k <= lines
    ensures Offsets(extent, lines)[k] == k * Base(extent, lines) + Min(k, Remainder(extent, lines))
  {
    if k > 0 {
      var e := Extents(extent, lines);
      OffsetClosedForm(extent, lines, k - 1);
      assert e[..k][..k - 1] == e[..k - 1];
      assert k * Base(extent, lines) == (k - 1) * Base(extent, lines) + Base(extent, lines);
    }
  }

  /** The last offset is the whole extent: the lines cover the axis exactly. */
  lemma TableEndsAtExtent(extent: nat, lines: nat)
    requires lines > 0
    ensures Offsets(extent, lines)[lines] == extent
    ensures Sum(Extents(extent, lines)) == extent
  {
    OffsetClosedForm(extent, lines, lines);
    assert Extents(extent, lines)[..lines] == Extents(extent, lines);
  }

  /** Line sizes differ by at most one, and a line is never smaller than a
      later one. */
  lemma ExtentsBalanced(extent: nat, lines: nat, i: int, k: int)
    requires lines > 0 && 0 <= i < lines && 0 <= k < lines
    ensures Extents(extent, lines)[i] <= Extents(extent, lines)[k] + 1
    ensures i <= k ==> Extents(extent, lines)[k] <= Extents(extent, lines)[i]
  {
  }

  /** Offsets never decrease. */
  lemma OffsetsMonotone(extent: nat, lines: nat, i: nat, k: nat)
    requires lines > 0 && i <= k <= lines
    ensures Offsets(extent, lines)[i] <= Offsets(extent, lines)[k]
  {
    OffsetClosedForm(extent, lines, i);
    OffsetClosedForm(extent, lines, k);
    MulMonotone(i, k, Base(extent, lines));
  }

  /** Line `i` occupies cells `[Offsets[i], Offsets[i] + Extents[i])`, which lie
      inside the axis. */
  lemma LineInsideAxis(extent: nat, lines: nat, i: int)
    requires lines > 0 && 0 <= i < lines
    ensures 0 <= Offsets(extent, lines)[i]
    ensures Offsets(extent, lines)[i] + Extents(extent, lines)[i] <= extent
  {
    OffsetsArePrefixSums(extent, lines);
    OffsetsMonotone(extent, lines, 0, i);
    OffsetsMonotone(extent, lines, i + 1, lines);
    TableEndsAtExtent(extent, lines);
  }

  /** The loop of `init_domain` for one axis: both tables are sized with
      zeros, then filled line by line. */
  method PartitionAxis(extent: nat, lines: nat) returns (offsets: seq<int>, sizes: seq<int>)
    requires lines > 0
    ensures sizes == Extents(extent, lines)
    ensures offsets == Offsets(extent, lines)
    ensures offsets[0] == 0 && offsets[lines] == extent
  {
    var ext := extent / lines;
    var j := extent - lines * ext;
    offsets := seq(lines + 1, _ => 0);
    sizes := seq(lines, _ => 0);
    var i := 0;
    while i < lines
      invariant 0 <= i <= lines
      invariant |offsets| == lines + 1 && |sizes| == lines
      invariant forall k :: 0 <= k <= i ==> offsets[k] == k * ext + Min(k, j)
      invariant forall k :: 0 <= k < i ==> sizes[k] == LineSize(extent, lines, k)
    {
      assert (i + 1) * ext == i * ext + ext;
      offsets := offsets[i + 1 := offsets[i] + ext + (if i < j then 1 else 0)];
      sizes := sizes[i := ext + (if i < j then 1 else 0)];
      i := i + 1;
    }
    forall k | 0 <= k <= lines
      ensures offsets[k] == Offsets(extent, lines)[k]
    {
      OffsetClosedForm(extent, lines, k);
    }
    TableEndsAtExtent(extent, lines);
  }

  /** Ten cells on three lines: sizes 4, 3, 3 and offsets 0, 4, 7, 10. */
  lemma TenCellsOnThreeLines()
    ensures Extents(10, 3) == [4, 3, 3]
    ensures Offsets(10, 3) == [0, 4, 7, 10]
  {
    OffsetsArePrefixSums(10, 3);
  }
}
