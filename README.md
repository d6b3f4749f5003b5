# cartex domain decomposition, modelled in Dafny

This project models the domain-decomposition engine of `cartex`. The engine
splits a periodic 3-D global grid over a grid of processes. Inside each
process it splits it again over a fixed grid of threads. It answers two
questions: which sub-domain (offset and extent per axis) a local thread owns,
and which sub-domain, on which rank, lies a given displacement away under
periodic wrap-around.

The model has five modules:

- `Arith` holds small facts about multiplication and division that the other
  proofs use.
- `AxisPartition` builds the per-axis tables of `init_domain`. An axis of
  `extent` cells is cut into `lines` lines. Every line gets
  `extent / lines` cells, and the first `extent mod lines` lines get one more.
  The offset table holds the prefix sums of the sizes.
- `Coordinates` holds the coordinate arithmetic. It encodes a triple as one
  integer in mixed radix, axis 0 fastest, and decodes it back. This gives
  both the thread id and the global id. It also has the single-step periodic
  wrap of `neighbor`, and the split of a torus coordinate into a process part
  `c0` and a thread part `ct`.
- `Topology` computes the process-grid size. For the hierarchical
  constructor it is the product of the per-level branching factors. It also
  computes the largest coordinate on each axis of the combined torus.
- `Cartex` holds the class `Decomposition` with its two constructors,
  `init_domain`, `coord`, `domain`, `neighbor` and `domains`.

The combined torus has `globalDecomposition[d] * threadDecomposition[d]`
lines on axis `d`. A process owns a block of `threadDecomposition[d]` lines
per axis. `coord` is the process's own coordinate after `init_domain` has
scaled it by the thread grid. The ghost field `processCoord` keeps the
unscaled process coordinate, as the communicator reported it. `NeighborOf`
is the specification of `neighbor`. The method `Neighbor` follows the
source's loops and is proved equal to it.

Two points about the code that the model keeps:

- `init_domain` does not check that an axis has at least as many cells as
  lines. It produces lines of size zero, and so does the model. No error
  type is modelled because the code has none.
- `neighbor` tests locality as `c0[i] * thread_decomposition[i] == m_coord[i]`
  against the scaled coordinate. `Cartex.Decomposition.OwnerTest` proves
  this holds exactly when `c0` is the process coordinate.

## Model

| member | source | states |
|---|---|---|
| AxisPartition.Base | cartex/src/decomposition/decomposition.cpp:36 | the base line size `ext` is the quotient of extent by line count: `lines * ext <= extent < lines * ext + lines` |
| AxisPartition.Remainder | cartex/src/decomposition/decomposition.cpp:36-39 | the number `j` of lines that get an extra cell satisfies `0 <= j < lines` |
| AxisPartition.LineSize | cartex/src/decomposition/decomposition.cpp:39-43 | a line's size is the base size or one more |
| AxisPartition.Extents | cartex/src/decomposition/decomposition.cpp:38 | the extent table has one entry per line |
| AxisPartition.Offsets | cartex/src/decomposition/decomposition.cpp:37 | the offset table has one entry more than there are lines |
| AxisPartition.OffsetsArePrefixSums | cartex/src/decomposition/decomposition.cpp:37-43 | the offset table starts at 0, and each later offset is the previous one plus the size of the line in between |
| AxisPartition.OffsetClosedForm | cartex/src/decomposition/decomposition.cpp:36-44 | offset `k` is `k * base + min(k, j)` |
| AxisPartition.TableEndsAtExtent | cartex/src/decomposition/decomposition.cpp:36-45 | the last offset equals the global extent, and the line sizes sum to it |
| AxisPartition.ExtentsBalanced | cartex/src/decomposition/decomposition.cpp:39-43 | any two line sizes differ by at most one, and a line is never smaller than a later one |
| AxisPartition.OffsetsMonotone | cartex/src/decomposition/decomposition.cpp:42 | offsets never decrease |
| AxisPartition.LineInsideAxis | cartex/src/decomposition/decomposition.cpp:42-43 | each line's cells `[offset, offset + extent)` lie inside `[0, global extent]` |
| AxisPartition.PartitionAxis | cartex/src/decomposition/decomposition.cpp:36-44 | the zero-sized tables that the loop fills are exactly the extent and offset tables; they start at 0 and end at the global extent |
| AxisPartition.TenCellsOnThreeLines | cartex/src/decomposition/decomposition.cpp:36-44 | 10 cells on 3 lines give sizes `[4,3,3]` and offsets `[0,4,7,10]` |
| Coordinates.Encode | cartex/src/decomposition/decomposition.cpp:149-150 | the linear id `c0 + r0*(c1 + r1*c2)` of a coordinate in the box lies in `[0, r0*r1*r2)`; the same encoding gives the thread id at lines 163-164 and the id of `domain` at lines 129-130 |
| Coordinates.Scale | cartex/src/decomposition/decomposition.cpp:34 | the element-wise product of two positive triples is positive; it gives the torus size `dim` and the scaled coordinate of line 33 |
| Coordinates.ProcessPart | cartex/src/decomposition/decomposition.cpp:160 | `c0[i]` is the process whose block `[c0[i]*t[i], c0[i]*t[i] + t[i])` contains `c[i]` |
| Coordinates.ThreadPart | cartex/src/decomposition/decomposition.cpp:161 | `ct[i] == c[i] - c0[i]*t[i]`, and `ct` lies in the thread grid |
| Coordinates.Split | cartex/src/decomposition/decomposition.cpp:156-162 | the loop computes exactly `ProcessPart` and `ThreadPart` |
| Coordinates.WrapAxis | cartex/src/decomposition/decomposition.cpp:146-147 | the wrap moves a coordinate by at most one period, and within one period of the torus it lands in `[0, last]` |
| Coordinates.Wrap | cartex/src/decomposition/decomposition.cpp:144-148 | every axis moves by zero or one period |
| Coordinates.WrapInPlace | cartex/src/decomposition/decomposition.cpp:144-148 | the loop computes exactly `Wrap` |
| Coordinates.WrapInverse | cartex/src/decomposition/decomposition.cpp:139-148 | moving by `d` and wrapping, then by `-d` and wrapping, returns to the start on all axes |
| Coordinates.Decode | cartex/src/decomposition/decomposition.cpp:116-121 | the mixed-radix digits of a thread id are non-negative |
| Coordinates.EncodeDecode | cartex/src/decomposition/decomposition.cpp:113-123 | re-encoding the digits `ct[0] + tx*(ct[1] + ty*ct[2])` gives back the id; the digits lie in the thread grid exactly when the id is below `tx*ty*tz` |
| Coordinates.DecodeEncode | cartex/src/decomposition/decomposition.cpp:163-164 | on the box, the encoded index lies in `[0, volume)` and decoding it gives back the coordinate |
| Coordinates.EncodeInjective | cartex/src/decomposition/decomposition.cpp:129-130 | two coordinates of the box with the same linear id are equal |
| Coordinates.SplitJoin | cartex/src/decomposition/decomposition.cpp:158-162 | a torus coordinate splits into `c0` in the process grid and `ct` in the thread grid, and `c0 * t + ct` gives the coordinate back |
| Coordinates.JoinSplit | cartex/src/decomposition/decomposition.cpp:158-162 | joining a process coordinate and a thread coordinate gives a torus coordinate that splits back into the same two |
| Coordinates.WrapAxisIsMod | cartex/src/decomposition/decomposition.cpp:144-148 | for a displacement of at most one period, the wrapped coordinate lies in `[0, last]` and equals the value reduced modulo the period |
| Coordinates.WrapAxisInverse | cartex/src/decomposition/decomposition.cpp:144-148 | wrapping after `+d` and then after `-d` returns the start |
| Coordinates.WrapIsMod | cartex/src/decomposition/decomposition.cpp:144-148 | the same reduction holds on all three axes |
| Topology.LevelProduct | cartex/src/decomposition/decomposition.cpp:63-65 | positive branching factors give a positive process-grid size |
| Topology.GridSize | cartex/src/decomposition/decomposition.cpp:61-65 | entry `i` is the level product on axis `i`; positive factors give a positive grid |
| Topology.FlatIsOneLevel | cartex/src/decomposition/decomposition.cpp:82-84 | the flat constructor's grid, read as the one-level hierarchy it stores in `m_topo` and `m_levels`, is the given grid |
| Topology.ProcessGrid | cartex/src/decomposition/decomposition.cpp:61-67 | the grid size is `GridSize`: on axis `i` the product of `topo[j*3+i]` over all levels; and `last[i]` is that size times the thread-grid size, minus 1 |
| Topology.LastCoordinates | cartex/src/decomposition/decomposition.cpp:90-91 | `last[i] + 1` is the torus size `global_decomposition[i] * thread_decomposition[i]` |
| Cartex.Decomposition.Torus | cartex/src/decomposition/decomposition.cpp:34 | every axis of the combined torus has a positive number of lines |
| Cartex.Decomposition.Lines | cartex/src/decomposition/decomposition.cpp:34 | the line count `dim` of an axis is positive |
| Cartex.AxisExtent | cartex/src/decomposition/decomposition.cpp:35 | without `local` the global extent is the given one; with `local` every line of the axis gets exactly the given number of cells |
| Cartex.Decomposition.Hierarchical | cartex/src/decomposition/decomposition.cpp:49-74 | the grid size is `GridSize(topo, levels)`; the object is valid, with the given thread grid, rank, coordinate and resolver, and the global extents follow the `local` rule |
| Cartex.Decomposition.Flat | cartex/src/decomposition/decomposition.cpp:76-97 | the same post-state as the hierarchical constructor, with the given grid size, which equals `GridSize(global_d, 1)`: the hierarchical constructor's state for one level |
| Cartex.Decomposition.InitAxis | cartex/src/decomposition/decomposition.cpp:33-45 | one round of the loop: scales `m_coord[d]`, sets the global extent (`dim * domain[d]` if local), sets both tables to the partition of that extent and sets `last_domain_coord[d]` to extent minus 1; other axes keep their tables |
| Cartex.Decomposition.InitDomain | cartex/src/decomposition/decomposition.cpp:28-47 | afterwards `m_coord[d]` is the process coordinate times the thread-grid size, and every axis holds the partition of its global extent over `dim` lines |
| Cartex.Decomposition.Coord | cartex/src/decomposition/decomposition.cpp:113-123 | for a valid thread id, the coordinate lies in `[m_coord[d], m_coord[d] + t[d])` and in the torus; its process part is this process and its thread part re-encodes to the id |
| Cartex.Decomposition.CoordInjective | cartex/src/decomposition/decomposition.cpp:113-123 | distinct thread ids give distinct coordinates |
| Cartex.Decomposition.OffsetAt | cartex/src/decomposition/decomposition.cpp:132 | an offset has one entry per axis |
| Cartex.Decomposition.ExtentAt | cartex/src/decomposition/decomposition.cpp:133 | an extent has one entry per axis |
| Cartex.Decomposition.SubDomainInside | cartex/src/decomposition/decomposition.cpp:132-133 | the looked-up offset and extent are the partition at the coordinate's line, and the sub-domain lies inside the global grid |
| Cartex.Decomposition.Domain | cartex/src/decomposition/decomposition.cpp:125-134 | the owner is `m_rank`, the thread id is `t`, the coordinate is `coord(t)`, the id is `c0 + Dx*(c1 + Dy*c2)` and lies in `[0, Dx*Dy*Dz)`, and offset and extent are the table entries at the coordinate |
| Cartex.Decomposition.DomainIdsDistinct | cartex/src/decomposition/decomposition.cpp:125-134 | distinct local threads own sub-domains with distinct global ids |
| Cartex.Decomposition.NeighborCoord | cartex/src/decomposition/decomposition.cpp:139-148 | the wrapped coordinate lies in the torus and equals `(coord(t) + disp) mod period` on each axis |
| Cartex.Decomposition.NeighborOf | cartex/src/decomposition/decomposition.cpp:136-182 | the neighbour's id lies in the torus; its thread id lies in `[0, threads_per_rank)` and decodes to the thread part of its coordinate |
| Cartex.Decomposition.OwnerTest | cartex/src/decomposition/decomposition.cpp:166-168 | the source's test `c0[i] * t[i] == m_coord[i]` on all axes holds exactly when `c0` is this process's coordinate |
| Cartex.Decomposition.Neighbor | cartex/src/decomposition/decomposition.cpp:136-183 | the move, the two loops and the locality branch compute exactly `NeighborOf` |
| Cartex.Decomposition.NeighborAtOwnCoord | cartex/src/decomposition/decomposition.cpp:152-169 | a neighbour whose wrapped coordinate is the thread's own is the thread's own domain |
| Cartex.Decomposition.NeighborOfZero | cartex/src/decomposition/decomposition.cpp:136-169 | `neighbor(t, 0, 0, 0)` equals `domain(t)` |
| Cartex.Decomposition.SelfPeriodic | cartex/src/decomposition/decomposition.cpp:136-169 | with a 1x1x1 process grid and a 1x1x1 thread grid, every direction within one period returns the caller's own domain |
| Cartex.Decomposition.NeighborOwner | cartex/src/decomposition/decomposition.cpp:152-182 | the rank is `m_rank` when the wrapped coordinate lies in this process's block, and the resolver's answer for `c0` otherwise; id, offset and extent are taken at the wrapped coordinate, not at `c0` |
| Cartex.Decomposition.NeighborOnOwner | cartex/src/decomposition/decomposition.cpp:113-123 | on the process that owns the neighbour, `coord` of the neighbour's thread id is the neighbour's coordinate |
| Cartex.Decomposition.NeighborSymmetric | cartex/src/decomposition/decomposition.cpp:139-164 | on the neighbour's own process, moving by `-disp` from the neighbour's thread id returns the original coordinate, thread id and rank |
| Cartex.Decomposition.TwoProcessScenario | cartex/src/decomposition/decomposition.cpp:136-182 | extents 10x10x10 over a 2x1x1 process grid: process 0 owns offset `[0,0,0]` and extent `[5,10,10]`, and its neighbour at `(-1,0,0)` wraps to `[1,0,0]` at offset `[5,0,0]` with extent `[5,10,10]`, resolved remotely |
| Cartex.Decomposition.Domains | cartex/src/decomposition/decomposition.cpp:185-192 | exactly `threads_per_rank` entries; entry `i` is `domain(i)`; global ids are pairwise distinct |

## Left out

- MPI and hwcart calls are not modelled. This covers `hwcart_create`, `MPI_Cart_create`, `MPI_Comm_rank`, `MPI_Comm_size`, `hwcart_rank2coord`, `MPI_Cart_coords`, `hwcart2mpicart`, the destructor's communicator frees and `print`. They are collective communication and resource handling. The rank and the process coordinate are constructor parameters instead.
- The rank lookup for a remote neighbour (`MPI_Cart_rank` or `hwcart_coord2rank`) is the constructor parameter `resolver`, a function from process coordinate to rank. Which of the two calls the source makes depends on the constructor. In the model that is simply the function the constructor was given.
- The `order` argument and the level kinds only matter to hwcart's rank-to-coordinate mapping. Only the number of levels is used in the arithmetic, so the model takes just that count. `m_size` is not used by the modelled operations.
- The header `cartex/decomposition/decomposition.hpp` is not part of this model. The field names of `DomainT` follow the order in which `domain` builds `domain_t`.
- The floating-point division at line 36 is modelled as integer division on non-negative operands. For operands in `int` range the truncated quotient is exact.
- Machine-integer overflow is not modelled. All arithmetic is on mathematical integers. Grid sizes must be positive and global extents non-negative.
- Cartex.Decomposition.Hierarchical: requires positive branching factors, positive thread-grid sizes and non-negative extents. The source does no validation, and for other values its arithmetic is not meaningful.
- Cartex.Decomposition.Flat: requires the same positivity as the hierarchical constructor.
- Cartex.Decomposition.Coord: only defined for thread ids in `[0, threads_per_rank)`. The source computes a value for any id. The public operations expect ids in that range: `domains` enumerates exactly that range, while `domain` and `neighbor` pass their caller's id to `coord` unchecked.
- Cartex.Decomposition.Neighbor: requires each displacement to be at most one period in magnitude. For larger displacements the source's single wrap can leave the coordinate outside the torus and then reads its tables out of bounds. The requires also excludes some larger displacements on which the single wrap happens to land in range, for example a period of 2, coordinate 0 and displacement 3.
- The accumulator in `include/ghexbench/accumulator.hpp` is not modelled. It is floating-point statistics, not part of the decomposition.
