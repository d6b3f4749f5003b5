/** The decomposition engine. The global grid is cut, axis by axis, into
    `Scale(globalDecomposition, threadDecomposition)` lines; a process owns
    a block of `threadDecomposition` lines per axis, and each of its threads
    owns one line per axis, i.e. one sub-domain. Torus coordinates number the
    lines and wrap around on every axis. */
module Cartex {
  import opened Arith
  import opened AxisPartition
  import opened Coordinates
  import opened Topology

  /** A sub-domain: its global id, the rank of its owning process, its
      thread id on that process, its torus coordinate, and the offset and
      extent of its cells on each axis. */
  datatype DomainT = DomainT(
    id: int, rank: int, threadId: int,
    coord: seq<int>, offset: seq<int>, extent: seq<int>)

  /** Extent of one axis of the global grid: the given value, or that value
      per line when `local` is set, in which case every line of the axis
      gets exactly `given` cells. */
  function AxisExtent(given: nat, lines: nat, local: bool): (e: nat)
    ensures !local ==> e == given
    ensures local && lines > 0 ==> Base(e, lines) == given && Remainder(e, lines) == 0
  {
    if local then
      if lines > 0 then
        DivModUnique(lines * given, lines, given, 0);
        lines * given
      else
        lines * given
    else
      given
  }

  class Decomposition {
    const threadDecomposition: seq<int>
    const threadsPerRank: int
    const rank: int
    /** The communicator's coordinate-to-rank query (a Cartesian or a
        hierarchical communicator, depending on the constructor used). */
    const rankOf: seq<int> -> int
    /** This process's coordinate in the process grid, as reported by the
        communicator. */
    ghost const processCoord: seq<int>

    var globalDecomposition: seq<int>
    var lastCoord: seq<int>
    var coord: seq<int>
    var globalDomain: seq<int>
    var domainCoord: seq<seq<int>>
    var domainExt: seq<seq<int>>
    var lastDomainCoord: seq<int>

    /** What both constructors establish before the partition tables. */
    ghost predicate TopologyValid()
      reads this
    {
      && Positive3(threadDecomposition) && Positive3(globalDecomposition)
      && threadsPerRank == Volume(threadDecomposition)
      && |lastCoord| == 3
      && lastCoord[0] + 1 == Scale(globalDecomposition, threadDecomposition)[0]
      && lastCoord[1] + 1 == Scale(globalDecomposition, threadDecomposition)[1]
      && lastCoord[2] + 1 == Scale(globalDecomposition, threadDecomposition)[2]
      && InBox(processCoord, globalDecomposition)
      && |coord| == 3 && |globalDomain| == 3 && |domainCoord| == 3 && |domainExt| == 3
      && |lastDomainCoord| == 3
    }

    /** Sizes of the combined torus. */
    function Torus(): (p: seq<int>)
      reads this`globalDecomposition
      requires Positive3(globalDecomposition) && Positive3(threadDecomposition)
      ensures Positive3(p)
    {
      Scale(globalDecomposition, threadDecomposition)
    }

    /** Number of lines on axis `d`. */
    function Lines(d: int): (n: nat)
      reads this`globalDecomposition
      requires Positive3(globalDecomposition) && Positive3(threadDecomposition) && 0 <= d < 3
      ensures n > 0
    {
      Torus()[d]
    }

    /** Axis `d`'s tables partition its global extent over its lines. */
    ghost predicate AxisValid(d: int)
      reads this`globalDecomposition, this`globalDomain, this`domainCoord, this`domainExt, this`lastDomainCoord
    {
      && 0 <= d < 3 && Positive3(globalDecomposition) && Positive3(threadDecomposition)
      && |globalDomain| == 3 && |domainCoord| == 3 && |domainExt| == 3 && |lastDomainCoord| == 3
      && globalDomain[d] >= 0
      && domainCoord[d] == Offsets(globalDomain[d], Lines(d))
      && domainExt[d] == Extents(globalDomain[d], Lines(d))
      && lastDomainCoord[d] == globalDomain[d] - 1
    }

    /** The state after construction. */
    ghost predicate Valid()
      reads this
    {
      && TopologyValid()
      && coord == Scale(processCoord, threadDecomposition)
      && AxisValid(0) && AxisValid(1) && AxisValid(2)
    }

    /** Everything a constructor promises, for either topology. */
    ghost predicate Constructed(threadD: seq<int>, globalD: seq<int>, domain: seq<int>, local: bool,
                                myRank: int, myCoord: seq<int>, resolver: seq<int> -> int)
      reads this
      requires |domain| == 3
    {
      && Valid()
      && threadDecomposition == threadD && globalDecomposition == globalD
      && rank == myRank && processCoord == myCoord && rankOf == resolver
      && (forall d :: 0 <= d < 3 ==> domain[d] >= 0 && globalDomain[d] == AxisExtent(domain[d], Lines(d), local))
    }

    /** The hierarchical constructor: the grid size on each axis is the
        product of the levels' branching factors. */
    constructor Hierarchical(threadD: seq<int>, topo: seq<int>, levels: nat, domain: seq<int>, local: bool,
                             myRank: int, myCoord: seq<int>, resolver: seq<int> -> int)
      requires Positive3(threadD) && PositiveFactors(topo, levels)
      requires |domain| == 3 && domain[0] >= 0 && domain[1] >= 0 && domain[2] >= 0
      requires |myCoord| == 3
      requires InBox(myCoord, GridSize(topo, levels))
      ensures Constructed(threadD, GridSize(topo, levels), domain, local, myRank, myCoord, resolver)
    {
      threadDecomposition := threadD;
      threadsPerRank := threadD[0] * threadD[1] * threadD[2];
      rankOf := resolver;
      var globalD, last := ProcessGrid(topo, levels, threadD);
      globalDecomposition, lastCoord := globalD, last;
      rank := myRank;
      coord := myCoord;
      processCoord := myCoord;
      globalDomain, lastDomainCoord := [0, 0, 0], [0, 0, 0];
      domainCoord, domainExt := [[], [], []], [[], [], []];
      new;
      InitDomain(domain, local);
    }

    /** The flat Cartesian constructor: the grid size is given. It builds
        the same object as the hierarchical constructor given that size as
        its only level. */
    constructor Flat(globalD: seq<int>, threadD: seq<int>, domain: seq<int>, local: bool,
                     myRank: int, myCoord: seq<int>, resolver: seq<int> -> int)
      requires Positive3(globalD) && Positive3(threadD)
      requires |domain| == 3 && domain[0] >= 0 && domain[1] >= 0 && domain[2] >= 0
      requires InBox(myCoord, globalD)
      ensures Constructed(threadD, globalD, domain, local, myRank, myCoord, resolver)
      ensures globalDecomposition == GridSize(globalD, 1)
    {
      threadDecomposition := threadD;
      threadsPerRank := threadD[0] * threadD[1] * threadD[2];
      rankOf := resolver;
      globalDecomposition := globalD;
      FlatIsOneLevel(globalD);
      var last := LastCoordinates(globalD, threadD);
      lastCoord := last;
      rank := myRank;
      coord := myCoord;
      processCoord := myCoord;
      globalDomain, lastDomainCoord := [0, 0, 0], [0, 0, 0];
      domainCoord, domainExt := [[], [], []], [[], [], []];
      new;
      InitDomain(domain, local);
    }

    /** One round of `init_domain`'s loop: axis `d`'s coordinate is scaled
        to this process's first line, its global extent is set and its
        tables are built. */
    method InitAxis(d: int, given: nat, local: bool)
      requires TopologyValid() && 0 <= d < 3
      modifies this
      ensures TopologyValid()
      ensures globalDecomposition == old(globalDecomposition) && lastCoord == old(lastCoord)
      ensures coord == old(coord)[d := old(coord)[d] * threadDecomposition[d]]
      ensures globalDomain == old(globalDomain)[d := AxisExtent(given, Lines(d), local)]
      ensures domainCoord == old(domainCoord)[d := Offsets(globalDomain[d], Lines(d))]
      ensures domainExt == old(domainExt)[d := Extents(globalDomain[d], Lines(d))]
      ensures lastDomainCoord == old(lastDomainCoord)[d := globalDomain[d] - 1]
      ensures AxisValid(d)
      ensures forall k :: 0 <= k < 3 && k != d && old(AxisValid(k)) ==> AxisValid(k)
    {
      coord := coord[d := coord[d] * threadDecomposition[d]];
      var dim := globalDecomposition[d] * threadDecomposition[d];
      assert dim == Lines(d);
      globalDomain := globalDomain[d := if local then dim * given else given];
      var offsets, sizes := PartitionAxis(globalDomain[d], dim);
      domainCoord := domainCoord[d := offsets];
      domainExt := domainExt[d := sizes];
      lastDomainCoord := lastDomainCoord[d := offsets[|offsets| - 1] - 1];
    }

    /** `init_domain`: scales this process's coordinate to its first torus
        line and builds the partition tables of every axis. */
    method InitDomain(domain: seq<int>, local: bool)
      requires TopologyValid() && coord == processCoord
      requires |domain| == 3 && domain[0] >= 0 && domain[1] >= 0 && domain[2] >= 0
      modifies this
      ensures Valid()
      ensures globalDecomposition == old(globalDecomposition) && lastCoord == old(lastCoord)
      ensures forall d :: 0 <= d < 3 ==> coord[d] == old(coord[d]) * threadDecomposition[d]
      ensures forall d :: 0 <= d < 3 ==> globalDomain[d] == AxisExtent(domain[d], Lines(d), local)
      ensures forall d :: 0 <= d < 3 ==> lastDomainCoord[d] == globalDomain[d] - 1
    {
      for d := 0 to 3
        invariant TopologyValid()
        invariant globalDecomposition == old(globalDecomposition) && lastCoord == old(lastCoord)
        invariant forall k :: 0 <= k < d ==> coord[k] == processCoord[k] * threadDecomposition[k]
        invariant forall k :: d <= k < 3 ==> coord[k] == processCoord[k]
        invariant forall k :: 0 <= k < d ==> AxisValid(k)
        invariant forall k :: 0 <= k < d ==> globalDomain[k] == AxisExtent(domain[k], Lines(k), local)
      {
        InitAxis(d, domain[d], local);
      }
    }

    /** `coord`: the torus coordinate of local thread `t`, this process's
        first line plus the mixed-radix digits of `t`. It lies in this
        process's block, and its thread part encodes back to `t`. */
    function Coord(t: nat): (c: seq<int>)
      reads this
      requires Valid() && t < threadsPerRank
      ensures InBox(c, Torus())
      ensures forall d :: 0 <= d < 3 ==> coord[d] <= c[d] < coord[d] + threadDecomposition[d]
      ensures ProcessPart(c, threadDecomposition) == processCoord
      ensures Encode(ThreadPart(c, threadDecomposition), threadDecomposition) == t
    {
      EncodeDecode(t, threadDecomposition);
      JoinSplit(processCoord, Decode(t, threadDecomposition), globalDecomposition, threadDecomposition);
      Add(coord, Decode(t, threadDecomposition))
    }

    /** Distinct threads have distinct torus coordinates. */
    lemma CoordInjective(t: nat, t': nat)
      requires Valid() && t < threadsPerRank && t' < threadsPerRank
      ensures Coord(t) == Coord(t') ==> t == t'
    {
    }

    /** Offsets of the sub-domain at torus coordinate `c`. */
    function OffsetAt(c: seq<int>): (o: seq<int>)
      reads this
      requires Valid() && InBox(c, Torus())
      ensures |o| == 3
    {
      [domainCoord[0][c[0]], domainCoord[1][c[1]], domainCoord[2][c[2]]]
    }

    /** Extents of the sub-domain at torus coordinate `c`. */
    function ExtentAt(c: seq<int>): (e: seq<int>)
      reads this
      requires Valid() && InBox(c, Torus())
      ensures |e| == 3
    {
      [domainExt[0][c[0]], domainExt[1][c[1]], domainExt[2][c[2]]]
    }

    /** The sub-domain at `c` lies inside the global grid, and its offsets and
        extents are the partition of each axis at `c`'s lines. */
    lemma SubDomainInside(c: seq<int>)
      requires Valid() && InBox(c, Torus())
      ensures forall d :: 0 <= d < 3 ==>
        && OffsetAt(c)[d] == Offsets(globalDomain[d], Lines(d))[c[d]]
        && ExtentAt(c)[d] == LineSize(globalDomain[d], Lines(d), c[d])
        && 0 <= OffsetAt(c)[d] && OffsetAt(c)[d] + ExtentAt(c)[d] <= globalDomain[d]
    {
      LineInsideAxis(globalDomain[0], Lines(0), c[0]);
      LineInsideAxis(globalDomain[1], Lines(1), c[1]);
      LineInsideAxis(globalDomain[2], Lines(2), c[2]);
    }

    /** `domain`: the sub-domain of local thread `t`. */
    function Domain(t: nat): (r: DomainT)
      reads this
      requires Valid() && t < threadsPerRank
      ensures r.rank == rank && r.threadId == t && r.coord == Coord(t)
      ensures r.id == Encode(r.coord, Torus()) && 0 <= r.id < Volume(Torus())
      ensures r.offset == OffsetAt(r.coord) && r.extent == ExtentAt(r.coord)
    {
      var c := Coord(t);
      DecodeEncode(c, Torus());
      DomainT(c[0] + globalDecomposition[0] * threadDecomposition[0] *
                (c[1] + globalDecomposition[1] * threadDecomposition[1] * c[2]),
              rank, t, c, OffsetAt(c), ExtentAt(c))
    }

    /** Distinct threads own sub-domains with distinct global ids. */
    lemma DomainIdsDistinct(t: nat, t': nat)
      requires Valid() && t < threadsPerRank && t' < threadsPerRank && t != t'
      ensures Domain(t).id != Domain(t').id
    {
      if Domain(t).id == Domain(t').id {
        EncodeInjective(Coord(t), Coord(t'), Torus());
        CoordInjective(t, t');
      }
    }

    /** A displacement of at most one period on every axis. */
    ghost predicate WithinOnePeriod(disp: seq<int>)
      reads this
      requires TopologyValid()
    {
      |disp| == 3 && forall i :: 0 <= i < 3 ==> -(Lines(i) as int) <= disp[i] <= Lines(i)
    }

    /** Torus coordinate reached from local thread `t` by `disp`, wrapped
        once per axis: the periodic reduction of `Coord(t) + disp`. */
    ghost function NeighborCoord(t: nat, disp: seq<int>): (c: seq<int>)
      reads this
      requires Valid() && t < threadsPerRank && WithinOnePeriod(disp)
      ensures InBox(c, Torus())
      ensures forall i :: 0 <= i < 3 ==> c[i] == (Coord(t)[i] + disp[i]) % Lines(i)
    {
      WrapIsMod(Add(Coord(t), disp), lastCoord);
      Wrap(Add(Coord(t), disp), lastCoord)
    }

    /** The sub-domain reached from local thread `t` by `disp`. It is local
        exactly when its coordinate lies in this process's block; otherwise
        its rank comes from the communicator. Its thread id is the one its
        owner gives it. */
    ghost function NeighborOf(t: nat, disp: seq<int>): (n: DomainT)
      reads this
      requires Valid() && t < threadsPerRank && WithinOnePeriod(disp)
      ensures n.coord == NeighborCoord(t, disp)
      ensures 0 <= n.id < Volume(Torus())
      ensures 0 <= n.threadId < threadsPerRank
      ensures Decode(n.threadId, threadDecomposition) == ThreadPart(n.coord, threadDecomposition)
    {
      var c := NeighborCoord(t, disp);
      var c0 := ProcessPart(c, threadDecomposition);
      var ct := ThreadPart(c, threadDecomposition);
      SplitJoin(c, globalDecomposition, threadDecomposition);
      DecodeEncode(c, Torus());
      DecodeEncode(ct, threadDecomposition);
      DomainT(Encode(c, Torus()), if c0 == processCoord then rank else rankOf(c0),
              Encode(ct, threadDecomposition), c, OffsetAt(c), ExtentAt(c))
    }

    /** The source's locality test, `c0[i] * threadDecomposition[i] == coord[i]`
        on every axis, holds exactly when `c0` is this process's coordinate. */
    lemma OwnerTest(c0: seq<int>)
      requires Valid() && |c0| == 3
      ensures (&& c0[0] * threadDecomposition[0] == coord[0]
               && c0[1] * threadDecomposition[1] == coord[1]
               && c0[2] * threadDecomposition[2] == coord[2]) <==> c0 == processCoord
    {
      MulCancel(c0[0], processCoord[0], threadDecomposition[0]);
      MulCancel(c0[1], processCoord[1], threadDecomposition[1]);
      MulCancel(c0[2], processCoord[2], threadDecomposition[2]);
    }

    /** `neighbor`. */
    method Neighbor(t: nat, dx: int, dy: int, dz: int) returns (n: DomainT)
      requires Valid() && t < threadsPerRank && WithinOnePeriod([dx, dy, dz])
      ensures n == NeighborOf(t, [dx, dy, dz])
    {
      var c := Coord(t);
      c := Add(c, [dx, dy, dz]);
      c := WrapInPlace(c, lastCoord);
      assert c == NeighborCoord(t, [dx, dy, dz]);
      var id := c[0] + globalDecomposition[0] * threadDecomposition[0] *
                  (c[1] + globalDecomposition[1] * threadDecomposition[1] * c[2]);
      var offset := [domainCoord[0][c[0]], domainCoord[1][c[1]], domainCoord[2][c[2]]];
      var extent := [domainExt[0][c[0]], domainExt[1][c[1]], domainExt[2][c[2]]];
      assert id == Encode(c, Torus());

      var c0, ct := Split(c, threadDecomposition);
      var tId := ct[0] + threadDecomposition[0] * (ct[1] + threadDecomposition[1] * ct[2]);

      OwnerTest(c0);
      if c0[0] * threadDecomposition[0] == coord[0]
        && c0[1] * threadDecomposition[1] == coord[1]
        && c0[2] * threadDecomposition[2] == coord[2]
      {
        n := DomainT(id, rank, tId, c, offset, extent);
      } else {
        n := DomainT(id, rankOf(c0), tId, c, offset, extent);
      }
    }

    /** A neighbour whose wrapped coordinate is the thread's own is the
        thread's own sub-domain. */
    lemma NeighborAtOwnCoord(t: nat, disp: seq<int>)
      requires Valid() && t < threadsPerRank && WithinOnePeriod(disp)
      requires NeighborCoord(t, disp) == Coord(t)
      ensures NeighborOf(t, disp) == Domain(t)
    {
    }

    /** `neighbor(t, 0, 0, 0)` is `domain(t)`. */
    lemma NeighborOfZero(t: nat)
      requires Valid() && t < threadsPerRank
      ensures WithinOnePeriod([0, 0, 0])
      ensures NeighborOf(t, [0, 0, 0]) == Domain(t)
    {
      var c := Coord(t);
      assert Add(c, [0, 0, 0]) == c;
      WrapIsMod(c, lastCoord);
      NeighborAtOwnCoord(t, [0, 0, 0]);
    }

    /** With one process and one thread per axis every direction within one
        period leads back to the caller's own sub-domain. */
    lemma SelfPeriodic(disp: seq<int>)
      requires Valid() && globalDecomposition == [1, 1, 1] && threadDecomposition == [1, 1, 1]
      requires |disp| == 3 && -1 <= disp[0] <= 1 && -1 <= disp[1] <= 1 && -1 <= disp[2] <= 1
      ensures threadsPerRank == 1 && WithinOnePeriod(disp)
      ensures NeighborOf(0, disp) == Domain(0)
    {
      assert NeighborCoord(0, disp) == [0, 0, 0] == Coord(0);
      NeighborAtOwnCoord(0, disp);
    }

    /** `c` lies in this process's block of the torus. */
    ghost predicate InOwnBlock(c: seq<int>)
      reads this
      requires Valid()
    {
      |c| == 3 && forall d :: 0 <= d < 3 ==> coord[d] <= c[d] < coord[d] + threadDecomposition[d]
    }

    /** The neighbour is resolved locally, with this process's rank, exactly
        when its coordinate lies in this process's block; otherwise its rank
        is the communicator's answer for its process coordinate. Its id,
        offset and extent are those of its wrapped coordinate. */
    lemma NeighborOwner(t: nat, disp: seq<int>)
      requires Valid() && t < threadsPerRank && WithinOnePeriod(disp)
      ensures var n := NeighborOf(t, disp);
        && (InOwnBlock(n.coord) <==> ProcessPart(n.coord, threadDecomposition) == processCoord)
        && (InOwnBlock(n.coord) ==> n.rank == rank)
        && (!InOwnBlock(n.coord) ==> n.rank == rankOf(ProcessPart(n.coord, threadDecomposition)))
        && n.id == Encode(n.coord, Torus())
        && n.offset == OffsetAt(n.coord) && n.extent == ExtentAt(n.coord)
    {
      var c := NeighborOf(t, disp).coord;
      var td := threadDecomposition;
      SplitJoin(c, globalDecomposition, td);
      if InOwnBlock(c) {
        DivModUnique(c[0], td[0], processCoord[0], c[0] - coord[0]);
        DivModUnique(c[1], td[1], processCoord[1], c[1] - coord[1]);
        DivModUnique(c[2], td[2], processCoord[2], c[2] - coord[2]);
      }
    }

    /** Every process describes the same torus. */
    ghost predicate SameGrid(b: Decomposition)
      reads this, b
    {
      && b.threadDecomposition == threadDecomposition
      && b.globalDecomposition == globalDecomposition
      && b.rankOf == rankOf
    }

    /** On the process `b` that owns the neighbour, the neighbour's thread
        id names the neighbour's coordinate. */
    lemma NeighborOnOwner(b: Decomposition, t: nat, disp: seq<int>)
      requires Valid() && b.Valid() && SameGrid(b)
      requires t < threadsPerRank && WithinOnePeriod(disp)
      requires b.processCoord == ProcessPart(NeighborOf(t, disp).coord, threadDecomposition)
      ensures NeighborOf(t, disp).threadId < b.threadsPerRank
      ensures b.Coord(NeighborOf(t, disp).threadId) == NeighborOf(t, disp).coord
    {
      var n := NeighborOf(t, disp);
      SplitJoin(n.coord, globalDecomposition, threadDecomposition);
    }

    /** Neighbour relations are symmetric: from the neighbour's own process
        `b`, moving back by `-disp` from the neighbour's thread returns this
        thread, on this rank, at this coordinate. Both processes' resolvers
        map their own coordinates to their own ranks. */
    lemma NeighborSymmetric(b: Decomposition, t: nat, disp: seq<int>)
      requires Valid() && b.Valid() && SameGrid(b)
      requires rankOf(processCoord) == rank && b.rankOf(b.processCoord) == b.rank
      requires t < threadsPerRank && WithinOnePeriod(disp)
      requires b.processCoord == ProcessPart(NeighborOf(t, disp).coord, threadDecomposition)
      ensures NeighborOf(t, disp).threadId < b.threadsPerRank
      ensures b.WithinOnePeriod([-disp[0], -disp[1], -disp[2]])
      ensures var back := b.NeighborOf(NeighborOf(t, disp).threadId, [-disp[0], -disp[1], -disp[2]]);
        back.coord == Coord(t) && back.threadId == t && back.rank == rank
    {
      var n := NeighborOf(t, disp);
      var back := [-disp[0], -disp[1], -disp[2]];
      NeighborOnOwner(b, t, disp);
      assert b.WithinOnePeriod(back);
      var a := Coord(t);
      assert b.NeighborCoord(n.threadId, back) == a by {
        WrapInverse(a, disp, lastCoord);
      }
      var m := b.NeighborOf(n.threadId, back);
      assert m.threadId == Encode(ThreadPart(a, threadDecomposition), threadDecomposition);
    }

    /** Ten cells per axis over two processes on axis 0, one thread each:
        process 0 owns cells 0..5 of axis 0 and the whole of the others, and
        its neighbour at -1 on axis 0 wraps to process 1, which starts at 5. */
    lemma TwoProcessScenario()
      requires Valid() && globalDecomposition == [2, 1, 1] && threadDecomposition == [1, 1, 1]
      requires globalDomain == [10, 10, 10] && processCoord == [0, 0, 0]
      ensures threadsPerRank == 1 && WithinOnePeriod([-1, 0, 0])
      ensures Domain(0).offset == [0, 0, 0] && Domain(0).extent == [5, 10, 10]
      ensures NeighborOf(0, [-1, 0, 0]).coord == [1, 0, 0]
      ensures NeighborOf(0, [-1, 0, 0]).offset == [5, 0, 0]
      ensures NeighborOf(0, [-1, 0, 0]).extent == [5, 10, 10]
      ensures NeighborOf(0, [-1, 0, 0]).rank == rankOf([1, 0, 0])
    {
      OffsetsArePrefixSums(10, 2);
      OffsetsArePrefixSums(10, 1);
      assert Coord(0) == [0, 0, 0];
      assert NeighborCoord(0, [-1, 0, 0]) == [1, 0, 0];
    }

    /** `domains`: the sub-domains of all local threads, in thread order. */
    method Domains() returns (r: seq<DomainT>)
      requires Valid()
      ensures |r| == threadsPerRank
      ensures forall i :: 0 <= i < |r| ==> r[i] == Domain(i)
      ensures forall i, j :: 0 <= i < j < |r| ==> r[i].id != r[j].id
    {
      r := [];
      for i := 0 to threadsPerRank
        invariant |r| == i
        invariant forall k :: 0 <= k < i ==> r[k] == Domain(k)
      {
        r := r + [Domain(i)];
      }
      forall i, j | 0 <= i < j < |r|
        ensures r[i].id != r[j].id
      {
        DomainIdsDistinct(i, j);
      }
    }
  }
}
