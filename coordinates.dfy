/** Coordinate arithmetic on three axes: the mixed-radix encoding of a
    coordinate as one integer (axis 0 fastest), its inverse, the one-step
    periodic wrap used by `neighbor`, and the split of a coordinate of the
    combined torus into a process-grid part and a thread-grid part.
    Triples are sequences of length 3. */
module Coordinates {
  import opened Arith

  /** Three positive sizes: a thread grid, a process grid or the torus. */
  predicate Positive3(r: seq<int>)
  {
    |r| == 3 && r[0] > 0 && r[1] > 0 && r[2] > 0
  }

  /** `c` lies in `[0, r[0]) x [0, r[1]) x [0, r[2])`. */
  predicate InBox(c: seq<int>, r: seq<int>)
    requires |r| == 3
  {
    |c| == 3 && 0 <= c[0] < r[0] && 0 <= c[1] < r[1] && 0 <= c[2] < r[2]
  }

  function Volume(r: seq<int>): int
    requires |r| == 3
  {
    r[0] * r[1] * r[2]
  }

  /** Linear index of `c` with radices `r`, axis 0 fastest. It gives the
      thread id (radices: the thread grid) and the global id (radices: the
      combined torus). */
  function Encode(c: seq<int>, r: seq<int>): (n: int)
    requires |c| == 3 && |r| == 3
    ensures Positive3(r) && InBox(c, r) ==> 0 <= n < Volume(r)
  {
    var m := c[1] + r[1] * c[2];
    if Positive3(r) && InBox(c, r) then
      ScaledBelow(c[2], r[2], r[1], c[1]);
      ScaledBelow(m, r[2] * r[1], r[0], c[0]);
      assert r[2] * r[1] * r[0] == Volume(r);
      c[0] + r[0] * m
    else
      c[0] + r[0] * m
  }

  /** Mixed-radix digits of `n`, axis 0 fastest; the last digit keeps the
      whole remaining quotient. */
  function Decode(n: nat, r: seq<int>): (c: seq<int>)
    requires Positive3(r)
    ensures |c| == 3 && c[0] >= 0 && c[1] >= 0 && c[2] >= 0
  {
    [n % r[0], (n / r[0]) % r[1], n / r[0] / r[1]]
  }

  /** Encoding the digits of `n` gives back `n`; below the volume the digits
      lie in the box. */
  lemma EncodeDecode(n: nat, r: seq<int>)
    requires Positive3(r)
    ensures Encode(Decode(n, r), r) == n
    ensures n < Volume(r) <==> InBox(Decode(n, r), r)
  {
    DigitsRecompose(n, r[0], r[1]);
    TopDigitBelow(n, r[0], r[1], r[2]);
  }

  /** Encoding is in range on the box and decoding inverts it. */
  lemma DecodeEncode(c: seq<int>, r: seq<int>)
    requires Positive3(r) && InBox(c, r)
    ensures 0 <= Encode(c, r) < Volume(r)
    ensures Decode(Encode(c, r), r) == c
  {
    var m := c[1] + r[1] * c[2];
    MulMonotone(0, c[2], r[1]);
    MulMonotone(0, m, r[0]);
    DivModUnique(m, r[1], c[2], c[1]);
    DivModUnique(Encode(c, r), r[0], m, c[0]);
    EncodeDecode(Encode(c, r), r);
  }

  /** Two coordinates of the box with the same index are equal. */
  lemma EncodeInjective(c: seq<int>, c': seq<int>, r: seq<int>)
    requires Positive3(r) && InBox(c, r) && InBox(c', r)
    requires Encode(c, r) == Encode(c', r)
    ensures c == c'
  {
    DecodeEncode(c, r);
    DecodeEncode(c', r);
  }

  /** `a` moved by `b`, axis by axis. */
  function Add(a: seq<int>, b: seq<int>): (s: seq<int>)
    requires |a| == 3 && |b| == 3
    ensures |s| == 3
  {
    [a[0] + b[0], a[1] + b[1], a[2] + b[2]]
  }

  /** `p` scaled by the thread grid `t`, axis by axis. For a process grid
      this gives the sizes of the combined torus; for a process coordinate,
      the first torus line of that process's block. */
  function Scale(p: seq<int>, t: seq<int>): (s: seq<int>)
    requires |p| == 3 && |t| == 3
    ensures |s| == 3
    ensures Positive3(p) && Positive3(t) ==> Positive3(s)
  {
    [p[0] * t[0], p[1] * t[1], p[2] * t[2]]
  }

  /** Process coordinate owning torus coordinate `c`: the process whose
      block of `t` lines on each axis contains `c`. */
  function ProcessPart(c: seq<int>, t: seq<int>): (p: seq<int>)
    requires |c| == 3 && Positive3(t)
    ensures |p| == 3
    ensures forall i :: 0 <= i < 3 ==> p[i] * t[i] <= c[i] < p[i] * t[i] + t[i]
  {
    DivModSplit(c[0], t[0]);
    DivModSplit(c[1], t[1]);
    DivModSplit(c[2], t[2]);
    [c[0] / t[0], c[1] / t[1], c[2] / t[2]]
  }

  /** Thread coordinate of torus coordinate `c` inside its process: the
      distance from the start of the owning block, which lies in the thread
      grid. */
  function ThreadPart(c: seq<int>, t: seq<int>): (x: seq<int>)
    requires |c| == 3 && Positive3(t)
    ensures InBox(x, t)
    ensures forall i :: 0 <= i < 3 ==> x[i] == c[i] - ProcessPart(c, t)[i] * t[i]
  {
    DivModSplit(c[0], t[0]);
    DivModSplit(c[1], t[1]);
    DivModSplit(c[2], t[2]);
    [c[0] % t[0], c[1] % t[1], c[2] % t[2]]
  }

  /** A torus coordinate splits into a process coordinate in the process
      grid and a thread coordinate in the thread grid that join back to it. */
  lemma SplitJoin(c: seq<int>, g: seq<int>, t: seq<int>)
    requires Positive3(g) && Positive3(t) && InBox(c, Scale(g, t))
    ensures InBox(ProcessPart(c, t), g) && InBox(ThreadPart(c, t), t)
    ensures Add(Scale(ProcessPart(c, t), t), ThreadPart(c, t)) == c
  {
    DivBelow(c[0], t[0], g[0]);
    DivBelow(c[1], t[1], g[1]);
    DivBelow(c[2], t[2], g[2]);
    DivModSplit(c[0], t[0]);
    DivModSplit(c[1], t[1]);
    DivModSplit(c[2], t[2]);
  }

  /** The loop of `neighbor` that splits a torus coordinate into the
      process coordinate `c0 = c / t` and the thread coordinate
      `ct = c - c0 * t`, axis by axis. */
  method Split(c: seq<int>, t: seq<int>) returns (c0: seq<int>, ct: seq<int>)
    requires |c| == 3 && Positive3(t)
    ensures c0 == ProcessPart(c, t) && ct == ThreadPart(c, t)
  {
    ct := c;
    c0 := [0, 0, 0];
    for i := 0 to 3
      invariant |ct| == 3 && |c0| == 3
      invariant forall k :: 0 <= k < i ==> c0[k] == c[k] / t[k]
      invariant forall k :: 0 <= k < i ==> ct[k] == c[k] - c0[k] * t[k]
    {
      c0 := c0[i := c[i] / t[i]];
      ct := ct[i := c[i] - c0[i] * t[i]];
    }
  }

  /** Joining a process coordinate and a thread coordinate gives a torus
      coordinate that splits back into the same two. */
  lemma JoinSplit(q: seq<int>, x: seq<int>, g: seq<int>, t: seq<int>)
    requires Positive3(g) && Positive3(t) && InBox(q, g) && InBox(x, t)
    ensures InBox(Add(Scale(q, t), x), Scale(g, t))
    ensures ProcessPart(Add(Scale(q, t), x), t) == q
    ensures ThreadPart(Add(Scale(q, t), x), t) == x
  {
    var c := Add(Scale(q, t), x);
    ScaledBelow(q[0], g[0], t[0], x[0]);
    ScaledBelow(q[1], g[1], t[1], x[1]);
    ScaledBelow(q[2], g[2], t[2], x[2]);
    DivModUnique(c[0], t[0], q[0], x[0]);
    DivModUnique(c[1], t[1], q[1], x[1]);
    DivModUnique(c[2], t[2], q[2], x[2]);
  }

  /** The wrap `neighbor` applies on one axis whose largest coordinate is
      `last`: subtract one period when above it, then add one when below 0. */
  function WrapAxis(x: int, last: int): (w: int)
    ensures w == x || w == x - (last + 1) || w == x + (last + 1)
    ensures last >= 0 && -(last + 1) <= x <= 2 * last + 1 ==> 0 <= w <= last
  {
    var y := if x > last then x - (last + 1) else x;
    if y < 0 then y + (last + 1) else y
  }

  /** The wrap applied to every axis: each axis moves by at most one of
      its periods. */
  function Wrap(c: seq<int>, last: seq<int>): (w: seq<int>)
    requires |c| == 3 && |last| == 3
    ensures |w| == 3
    ensures forall i :: 0 <= i < 3 ==>
      w[i] == c[i] || w[i] == c[i] - (last[i] + 1) || w[i] == c[i] + (last[i] + 1)
  {
    [WrapAxis(c[0], last[0]), WrapAxis(c[1], last[1]), WrapAxis(c[2], last[2])]
  }

  /** The loop of `neighbor` that wraps a moved coordinate back, axis by
      axis, subtracting one period when above `last` and then adding one
      when below 0. */
  method WrapInPlace(c: seq<int>, last: seq<int>) returns (w: seq<int>)
    requires |c| == 3 && |last| == 3
    ensures w == Wrap(c, last)
  {
    w := c;
    for i := 0 to 3
      invariant |w| == 3
      invariant forall k :: 0 <= k < i ==> w[k] == WrapAxis(c[k], last[k])
      invariant forall k :: i <= k < 3 ==> w[k] == c[k]
    {
      if w[i] > last[i] {
        w := w[i := w[i] - (last[i] + 1)];
      }
      if w[i] < 0 {
        w := w[i := w[i] + (last[i] + 1)];
      }
    }
  }

  /** For a displacement of at most one period, the single wrap is the
      periodic reduction: the unique value in `[0, last]` congruent to `x`. */
  lemma WrapAxisIsMod(x: int, last: int)
    requires last >= 0 && -(last + 1) <= x <= 2 * last + 1
    ensures 0 <= WrapAxis(x, last) <= last
    ensures WrapAxis(x, last) == x % (last + 1)
  {
    var p := last + 1;
    if x > last {
      DivModUnique(x, p, 1, x - p);
    } else if x < 0 {
      DivModUnique(x, p, -1, x + p);
    } else {
      DivModUnique(x, p, 0, x);
    }
  }

  /** Moving by `d` and then by `-d` returns to the start. */
  lemma WrapAxisInverse(x: int, d: int, last: int)
    requires 0 <= x <= last && -(last + 1) <= d <= last + 1
    ensures WrapAxis(WrapAxis(x + d, last) - d, last) == x
  {
    WrapAxisIsMod(x + d, last);
  }

  /** On all three axes: moving by `d` and wrapping, then moving by `-d`
      and wrapping, returns to the start. */
  lemma WrapInverse(c: seq<int>, d: seq<int>, last: seq<int>)
    requires |c| == 3 && |d| == 3 && |last| == 3
    requires forall i :: 0 <= i < 3 ==> 0 <= c[i] <= last[i] && -(last[i] + 1) <= d[i] <= last[i] + 1
    ensures Wrap(Add(Wrap(Add(c, d), last), [-d[0], -d[1], -d[2]]), last) == c
  {
    WrapAxisInverse(c[0], d[0], last[0]);
    WrapAxisInverse(c[1], d[1], last[1]);
    WrapAxisInverse(c[2], d[2], last[2]);
  }

  /** The periodic reduction of every axis of `c`. */
  lemma WrapIsMod(c: seq<int>, last: seq<int>)
    requires |c| == 3 && |last| == 3
    requires forall i :: 0 <= i < 3 ==> last[i] >= 0 && -(last[i] + 1) <= c[i] <= 2 * last[i] + 1
    ensures forall i :: 0 <= i < 3 ==> 0 <= Wrap(c, last)[i] <= last[i]
    ensures forall i :: 0 <= i < 3 ==> Wrap(c, last)[i] == c[i] % (last[i] + 1)
  {
    WrapAxisIsMod(c[0], last[0]);
    WrapAxisIsMod(c[1], last[1]);
    WrapAxisIsMod(c[2], last[2]);
  }
}
