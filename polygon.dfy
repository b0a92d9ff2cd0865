/**
 * The Polygon class: a shape that grows by a fixed step every frame and is
 * drawn as nested copies, each outlined by up to seven rings whose colour
 * fades with their distance from the copy's own size.
 */
module Polygons {
  import opened Wrappers
  import opened Layout

  /** One stroke of drawShape: its size and its index into the four-colour palette. */
  datatype Ring = Ring(size: real, colourIndex: int)

  /** The distance between neighbouring rings. */
  const RingStep: real := 16.0

  function Abs(i: int): nat
  {
    if i < 0 then -i else i
  }

  /** The stroke for offset i of drawShape(s), unless its size is not positive. */
  function RingAt(s: real, i: int): seq<Ring>
  {
    var ringSize := s + (i as real) * RingStep;
    if ringSize <= 0.0 then [] else [Ring(ringSize, 3 - Abs(i))]
  }

  /** The strokes for offsets -3 .. i - 1, in the loop's order. */
  function RingsBelow(s: real, i: int): seq<Ring>
    requires -3 <= i <= 4
    decreases i + 3
  {
    if i == -3 then [] else RingsBelow(s, i - 1) + RingAt(s, i - 1)
  }

  /** Everything drawShape(s) strokes: nothing at all when s is not positive. */
  function Rings(s: real): seq<Ring>
  {
    if s <= 0.0 then [] else RingsBelow(s, 4)
  }

  /**
   * A ring sits k steps from the size it outlines, inside or outside, and has
   * colour index 3 - k: the gradient is symmetric and strongest at the centre.
   */
  predicate OnRamp(s: real, ring: Ring)
  {
    0 <= ring.colourIndex <= 3
    && var k := (3 - ring.colourIndex) as real;
       (ring.size == s + k * RingStep || ring.size == s - k * RingStep)
  }

  lemma {:induction false} RingsBelowShape(s: real, i: int)
    requires -3 <= i <= 4
    ensures |RingsBelow(s, i)| <= i + 3
    ensures forall k :: 0 <= k < |RingsBelow(s, i)| ==>
              RingsBelow(s, i)[k].size > 0.0 && OnRamp(s, RingsBelow(s, i)[k])
              && RingsBelow(s, i)[k].size < s + (i as real) * RingStep
    ensures forall k, l :: 0 <= k < l < |RingsBelow(s, i)| ==> RingsBelow(s, i)[k].size < RingsBelow(s, i)[l].size
    decreases i + 3
  {
    if i > -3 {
      RingsBelowShape(s, i - 1);
    }
  }

  /**
   * drawShape(s) strokes at most seven rings, each of positive size, on the
   * symmetric colour ramp, from the innermost outwards.
   */
  lemma RingsShape(s: real)
    ensures |Rings(s)| <= 7
    ensures forall k :: 0 <= k < |Rings(s)| ==> Rings(s)[k].size > 0.0 && OnRamp(s, Rings(s)[k])
    ensures forall k, l :: 0 <= k < l < |Rings(s)| ==> Rings(s)[k].size < Rings(s)[l].size
  {
    RingsBelowShape(s, 4);
  }

  /** Once s exceeds three steps, all seven rings s - 48 .. s + 48 are drawn. */
  lemma RingsOfLargeShape(s: real)
    requires s > 3.0 * RingStep
    ensures Rings(s) == [Ring(s - 48.0, 0), Ring(s - 32.0, 1), Ring(s - 16.0, 2), Ring(s, 3),
                         Ring(s + 16.0, 2), Ring(s + 32.0, 1), Ring(s + 48.0, 0)]
  {
    RingsByOffset(s);
    assert RingAt(s, -3) == [Ring(s - 48.0, 0)];
    assert RingAt(s, -2) == [Ring(s - 32.0, 1)];
    assert RingAt(s, -1) == [Ring(s - 16.0, 2)];
    assert RingAt(s, 0) == [Ring(s, 3)];
    assert RingAt(s, 1) == [Ring(s + 16.0, 2)];
    assert RingAt(s, 2) == [Ring(s + 32.0, 1)];
    assert RingAt(s, 3) == [Ring(s + 48.0, 0)];
  }

  /** The loop of drawShape, unrolled: the strokes of offsets -3 .. 3 in turn. */
  lemma RingsByOffset(s: real)
    ensures RingsBelow(s, 4) == RingAt(s, -3) + RingAt(s, -2) + RingAt(s, -1) + RingAt(s, 0)
                                + RingAt(s, 1) + RingAt(s, 2) + RingAt(s, 3)
  {
    assert RingsBelow(s, -2) == RingAt(s, -3);
    assert RingsBelow(s, 0) == RingAt(s, -3) + RingAt(s, -2) + RingAt(s, -1);
    assert RingsBelow(s, 2) == RingAt(s, -3) + RingAt(s, -2) + RingAt(s, -1) + RingAt(s, 0) + RingAt(s, 1);
  }

  /** drawShape returns at once when s is not positive: nothing at all is drawn. */
  lemma NonPositiveSizeDrawsNothing(s: real)
    requires s <= 0.0
    ensures Rings(s) == []
  {
  }

  /**
   * The early return matters: at s = -10 the outer offsets alone would give
   * rings of size 6, 22 and 38, yet drawShape draws nothing.
   */
  lemma EarlyReturnExample()
    ensures Rings(-10.0) == []
    ensures RingsBelow(-10.0, 4) == [Ring(6.0, 2), Ring(22.0, 1), Ring(38.0, 0)]
  {
    assert RingsBelow(-10.0, 0) == [];
    assert RingsBelow(-10.0, 1) == [];
    assert RingsBelow(-10.0, 2) == [Ring(6.0, 2)];
    assert RingsBelow(-10.0, 3) == [Ring(6.0, 2), Ring(22.0, 1)];
  }

  /** The loop up to offset n - 1 has stroked the ring for every earlier offset whose size is positive. */
  lemma {:induction false} RingsBelowHoldsRing(s: real, i: int, n: int)
    requires -3 <= i < n <= 4
    requires s + (i as real) * RingStep > 0.0
    ensures Ring(s + (i as real) * RingStep, 3 - Abs(i)) in RingsBelow(s, n)
    decreases n + 3
  {
    if i < n - 1 {
      RingsBelowHoldsRing(s, i, n - 1);
    }
  }

  /**
   * For a positive s, drawShape strokes the ring of every offset i in -3..3
   * whose size s + 16 i is positive, with colour index 3 - |i|. Together with
   * RingsShape, these are exactly the rings it draws.
   */
  lemma RingsComplete(s: real, i: int)
    requires s > 0.0
    requires -3 <= i <= 3
    requires s + (i as real) * RingStep > 0.0
    ensures Ring(s + (i as real) * RingStep, 3 - Abs(i)) in Rings(s)
  {
    RingsBelowHoldsRing(s, i, 4);
  }

  /** The ring drawShape strokes at offset i, when its size is positive. */
  predicate IsRingOf(s: real, i: int, ring: Ring)
  {
    -3 <= i <= 3 && s + (i as real) * RingStep > 0.0 && ring == Ring(s + (i as real) * RingStep, 3 - Abs(i))
  }

  /**
   * The rings of drawShape(s) are exactly those of the offsets i in -3..3
   * whose size s + 16 i is positive, and none at all when s is not positive.
   */
  lemma RingsExactly(s: real, ring: Ring)
    ensures ring in Rings(s) <==> s > 0.0 && exists i :: IsRingOf(s, i, ring)
  {
    if ring in Rings(s) {
      RingsShape(s);
      var k :| 0 <= k < |Rings(s)| && Rings(s)[k] == ring;
      var d := 3 - ring.colourIndex;
      if ring.size == s + (d as real) * RingStep {
        assert IsRingOf(s, d, ring);
      } else {
        assert IsRingOf(s, -d, ring);
      }
    }
    if s > 0.0 && exists i :: IsRingOf(s, i, ring) {
      var i :| IsRingOf(s, i, ring);
      RingsComplete(s, i);
    }
  }

  /** Half a bar at `bpm` in milliseconds: the interval the nested copies stand for. */
  function RepeatInterval(bpm: real): real
    requires bpm != 0.0
  {
    ((60000.0 / bpm) * 4.0) / 2.0
  }

  /**
   * The constructor's nestedCount: max(1, floor(durationMs / RepeatInterval))
   * for a positive duration and a set tempo, 3 otherwise.
   */
  function NestedCount(durationMs: real, bpm: real): (n: nat)
    ensures n >= 1
    ensures !(durationMs > 0.0 && bpm != 0.0) ==> n == 3
  {
    if durationMs > 0.0 && bpm != 0.0 then
      var whole := (durationMs / RepeatInterval(bpm)).Floor;
      if whole < 1 then 1 else whole
    else 3
  }

  /**
   * For a positive duration and tempo, nestedCount is the number of whole
   * half-bars the duration spans, but at least one.
   */
  lemma NestedCountSpansDuration(durationMs: real, bpm: real)
    requires durationMs > 0.0 && bpm > 0.0
    ensures var n := NestedCount(durationMs, bpm) as real;
            var interval := RepeatInterval(bpm);
            durationMs < (n + 1.0) * interval && (n == 1.0 || n * interval <= durationMs)
  {
    var interval := RepeatInterval(bpm);
    assert interval > 0.0;
    var q := durationMs / interval;
    var whole := q.Floor;
    assert q * interval == durationMs;
    assert whole as real <= q < whole as real + 1.0;
    assert (whole as real + 1.0) * interval > q * interval;
    assert whole as real * interval <= q * interval;
  }

  /** What `update` adds to `size` each frame. */
  function GrowthStep(isLast: bool): real
  {
    if isLast then 96.0 else 16.0
  }

  /** A polygon's size after n frames. */
  function SizeAfterUpdates(isLast: bool, n: nat): real
  {
    if n == 0 then 0.0 else SizeAfterUpdates(isLast, n - 1) + GrowthStep(isLast)
  }

  /** The sizes draw passes to drawShape: s itself, then s / k for k = 1 .. n. */
  function CopySizes(s: real, n: nat): (sizes: seq<real>)
    ensures |sizes| == n + 1
  {
    if n == 0 then [s] else CopySizes(s, n - 1) + [s / n as real]
  }

  /** n + 1 sizes: s for the original shape, then s / k for the k-th nested copy. */
  lemma {:induction false} CopySizesEntries(s: real, n: nat)
    ensures CopySizes(s, n)[0] == s
    ensures forall k :: 1 <= k <= n ==> CopySizes(s, n)[k] == s / k as real
  {
    if n > 0 {
      CopySizesEntries(s, n - 1);
    }
  }

  /** f applied to each element of xs, in order. */
  function MapSeq<A, B>(f: A -> B, xs: seq<A>): seq<B>
  {
    if xs == [] then [] else MapSeq(f, xs[..|xs| - 1]) + [f(xs[|xs| - 1])]
  }

  /** One result per element, the k-th being f of the k-th element. */
  lemma {:induction false} MapSeqEntries<A, B>(f: A -> B, xs: seq<A>)
    ensures |MapSeq(f, xs)| == |xs|
    ensures forall k :: 0 <= k < |xs| ==> MapSeq(f, xs)[k] == f(xs[k])
  {
    if xs != [] {
      MapSeqEntries(f, xs[..|xs| - 1]);
    }
  }

  /**
   * draw makes nestedCount + 1 drawShape calls: the first on size, the k-th
   * nested one on size / k.
   */
  lemma DrawCallsEntries(s: real, n: nat)
    ensures var calls := MapSeq(Rings, CopySizes(s, n));
            && |calls| == n + 1
            && calls[0] == Rings(s)
            && forall k :: 1 <= k <= n ==> calls[k] == Rings(s / k as real)
  {
    CopySizesEntries(s, n);
    MapSeqEntries(Rings, CopySizes(s, n));
  }

  /** Size grows linearly, so it is strictly increasing and eventually exceeds any bound. */
  lemma {:induction false} SizeGrowsLinearly(isLast: bool, n: nat)
    ensures SizeAfterUpdates(isLast, n) == (n as real) * GrowthStep(isLast)
    ensures SizeAfterUpdates(isLast, n) >= (n as real) * 16.0
  {
    if n > 0 {
      SizeGrowsLinearly(isLast, n - 1);
    }
  }

  class Polygon {
    const x: real
    const y: real
    var size: real
    const isLast: bool
    const nestedCount: nat
    /** The p5 shape helper's name; undefined when the cycle has no shape for the slot. */
    var shape: Option<Shape>

    /**
     * new Polygon(p, x, y, durationMs, isLast). `randomShape` stands for the
     * constructor's Math.random() pick, which callers overwrite.
     */
    constructor (x: real, y: real, durationMs: real, isLast: bool, bpm: real, randomShape: Shape)
      ensures this.x == x && this.y == y && this.isLast == isLast
      ensures size == 0.0
      ensures nestedCount == NestedCount(durationMs, bpm)
      ensures shape == Some(randomShape)
    {
      this.x := x;
      this.y := y;
      size := 0.0;
      this.isLast := isLast;
      nestedCount := NestedCount(durationMs, bpm);
      shape := Some(randomShape);
    }

    method Update()
      modifies this`size
      ensures size == old(size) + GrowthStep(isLast)
    {
      var sizeAdjuster := if isLast then 96.0 else 16.0;
      size := size + sizeAdjuster;
    }

    /**
     * draw: one drawShape call on `size`, then one on size / index for each
     * index 1..nestedCount; the result lists each call's rings in call order.
     */
    method Draw() returns (calls: seq<seq<Ring>>)
      ensures calls == MapSeq(Rings, CopySizes(size, nestedCount))
    {
      var outline := DrawShape(size);
      calls := [outline];
      for index := 1 to nestedCount + 1
        invariant calls == MapSeq(Rings, CopySizes(size, index - 1))
      {
        var nested := DrawShape(size / index as real);
        calls := calls + [nested];
        ghost var sizes := CopySizes(size, index);
        assert sizes[..index] == CopySizes(size, index - 1);
        assert sizes[index] == size / index as real;
      }
    }

    /** drawShape: the rings stroked around one copy of size s. */
    method DrawShape(s: real) returns (rings: seq<Ring>)
      ensures rings == Rings(s)
    {
      rings := [];
      if s <= 0.0 {
        return;
      }
      for i := -3 to 4
        invariant rings == RingsBelow(s, i)
      {
        var shapeSize := s + (i as real) * RingStep;
        if shapeSize <= 0.0 {
          continue;
        }
        var colorIndex := 3 - Abs(i);
        rings := rings + [Ring(shapeSize, colorIndex)];
      }
    }
  }
}
