/**
 * The BubblePolygons class: a burst of small sub-shapes, all starting at one
 * point, each of which shrinks and wanders a little on every draw until its
 * size is no longer positive.
 */
module Bubbles {
  import opened Layout

  /** One entry of `this.polygons`: position and size (its colour is not modelled). */
  datatype SubShape = SubShape(x: real, y: real, size: real)

  /** The three p5 random draws one draw() spends on a live sub-shape. */
  datatype Jitter = Jitter(dx: real, dy: real, shrink: real)

  /** `distanceAdjuster` in draw. */
  const DistanceAdjuster: real := 20.0

  /** random(-20, 20) twice and random(0.1, 0.4), as the runtime returns them. */
  predicate ValidJitter(j: Jitter)
  {
    -DistanceAdjuster <= j.dx < DistanceAdjuster
    && -DistanceAdjuster <= j.dy < DistanceAdjuster
    && 0.1 <= j.shrink < 0.4
  }

  /** The stroke of one outline: the sub-shape's own colour, or white. */
  datatype Stroke = Own | White

  /** One shape call of draw: where, how large, with which stroke, and whether filled. */
  datatype Outline = Outline(x: real, y: real, size: real, stroke: Stroke, filled: bool)

  /** The smallest integer not below r. */
  function Ceil(r: real): int
  {
    -((-r).Floor)
  }

  /**
   * `for (let i = 0; i < count; i++)` runs Ceil(count) times; for a count drawn
   * from [2, 8) that is between 2 and 8 sub-shapes.
   */
  lemma SubShapeCount(count: real)
    requires 2.0 <= count < 8.0
    ensures 2 <= Ceil(count) <= 8
    ensures (Ceil(count) - 1) as real < count <= Ceil(count) as real
  {
    var f := (-count).Floor;
    assert f as real <= -count < f as real + 1.0;
  }

  /** parseInt(random(16, 64)): the initial size, an integer in [16, 63]. */
  function InitialSize(draw: real): (size: int)
    requires 16.0 <= draw < 64.0
    ensures 16 <= size <= 63
    ensures size as real <= draw < size as real + 1.0
  {
    draw.Floor
  }

  /** What one draw does to a sub-shape: a live one shrinks and moves, a dead one stays. */
  function Decayed(s: SubShape, j: Jitter): SubShape
  {
    if s.size > 0.0 then SubShape(s.x - j.dx, s.y - j.dy, s.size - j.shrink) else s
  }

  /**
   * A live sub-shape shrinks by an amount in [0.1, 0.4) and moves at most 20
   * along each axis; a dead one is left exactly as it was.
   */
  lemma DecayedBounds(s: SubShape, j: Jitter)
    requires ValidJitter(j)
    ensures s.size <= 0.0 ==> Decayed(s, j) == s
    ensures s.size > 0.0 ==> s.size - 0.4 < Decayed(s, j).size <= s.size - 0.1
    ensures -DistanceAdjuster <= Decayed(s, j).x - s.x <= DistanceAdjuster
    ensures -DistanceAdjuster <= Decayed(s, j).y - s.y <= DistanceAdjuster
  {
  }

  /** The whole array after one draw. */
  function Decay(subs: seq<SubShape>, jitter: seq<Jitter>): seq<SubShape>
    requires |jitter| == |subs|
  {
    seq(|subs|, i requires 0 <= i < |subs| => Decayed(subs[i], jitter[i]))
  }

  /** `this.polygons.some(polygon => polygon.size > 0)`. */
  predicate AnyLive(subs: seq<SubShape>)
  {
    exists i :: 0 <= i < |subs| && subs[i].size > 0.0
  }

  /** Once no sub-shape is live, further draws change nothing, so isActive stays false. */
  lemma DeadStaysDead(subs: seq<SubShape>, jitter: seq<Jitter>)
    requires |jitter| == |subs|
    requires !AnyLive(subs)
    ensures Decay(subs, jitter) == subs
    ensures !AnyLive(Decay(subs, jitter))
  {
  }

  /** Three outlines per live sub-shape: size filled, size / 2 in white, size / 4. */
  function LiveOutlines(s: SubShape): seq<Outline>
  {
    if s.size > 0.0 then
      [Outline(s.x, s.y, s.size, Own, true), Outline(s.x, s.y, s.size / 2.0, White, false),
       Outline(s.x, s.y, s.size / 4.0, Own, false)]
    else []
  }

  /** The outlines one draw issues, in array order. */
  function Outlines(subs: seq<SubShape>): seq<Outline>
  {
    if subs == [] then [] else Outlines(subs[..|subs| - 1]) + LiveOutlines(subs[|subs| - 1])
  }

  /** How many sub-shapes are live. */
  function LiveCount(subs: seq<SubShape>): nat
  {
    if subs == [] then 0 else LiveCount(subs[..|subs| - 1]) + (if subs[|subs| - 1].size > 0.0 then 1 else 0)
  }

  /** A draw issues exactly three outlines per live sub-shape; none once all are dead. */
  lemma {:induction false} OutlinesPerLiveShape(subs: seq<SubShape>)
    ensures |Outlines(subs)| == 3 * LiveCount(subs)
    ensures LiveCount(subs) == 0 <==> !AnyLive(subs)
  {
    if subs != [] {
      var init := subs[..|subs| - 1];
      OutlinesPerLiveShape(init);
      if AnyLive(subs) && subs[|subs| - 1].size <= 0.0 {
        var i :| 0 <= i < |subs| && subs[i].size > 0.0;
        assert init[i].size > 0.0;
      }
    }
  }

  /** The array after one draw per jitter list, in order. */
  function DecaySteps(subs: seq<SubShape>, jitters: seq<seq<Jitter>>): (after: seq<SubShape>)
    requires forall k :: 0 <= k < |jitters| ==> |jitters[k]| == |subs|
    ensures |after| == |subs|
    decreases |jitters|
  {
    if jitters == [] then subs else DecaySteps(Decay(subs, jitters[0]), jitters[1..])
  }

  function Max(a: real, b: real): real
  {
    if a < b then b else a
  }

  /** After n draws a sub-shape's size is at most max(initial - 0.1 n, 0). */
  lemma {:induction false} SizeAfterDraws(subs: seq<SubShape>, jitters: seq<seq<Jitter>>, i: int)
    requires forall k :: 0 <= k < |jitters| ==> |jitters[k]| == |subs|
    requires forall k, m :: 0 <= k < |jitters| && 0 <= m < |subs| ==> ValidJitter(jitters[k][m])
    requires 0 <= i < |subs|
    ensures DecaySteps(subs, jitters)[i].size <= Max(subs[i].size - 0.1 * |jitters| as real, 0.0)
    decreases |jitters|
  {
    if jitters != [] {
      var next := Decay(subs, jitters[0]);
      DecayedBounds(subs[i], jitters[0][i]);
      assert forall k, m :: 0 <= k < |jitters[1..]| && 0 <= m < |next| ==> ValidJitter(jitters[1..][k][m]) by {
        forall k, m | 0 <= k < |jitters[1..]| && 0 <= m < |next| ensures ValidJitter(jitters[1..][k][m]) {
          assert jitters[1..][k] == jitters[k + 1];
        }
      }
      SizeAfterDraws(next, jitters[1..], i);
    }
  }

  /** Every bubble burst dies out: 630 draws bring all initial sizes (at most 63) to zero or below. */
  lemma BurstDiesOut(subs: seq<SubShape>, jitters: seq<seq<Jitter>>)
    requires forall k :: 0 <= k < |jitters| ==> |jitters[k]| == |subs|
    requires forall k, m :: 0 <= k < |jitters| && 0 <= m < |subs| ==> ValidJitter(jitters[k][m])
    requires forall i :: 0 <= i < |subs| ==> subs[i].size <= 63.0
    requires |jitters| >= 630
    ensures !AnyLive(DecaySteps(subs, jitters))
  {
    var after := DecaySteps(subs, jitters);
    forall i | 0 <= i < |subs|
      ensures after[i].size <= 0.0
    {
      SizeAfterDraws(subs, jitters, i);
    }
  }

  class BubblePolygons {
    const x: real
    const y: real
    const hue: int
    const shape: Shape
    const count: real
    const polygons: array<SubShape>

    /**
     * new BubblePolygons(p, startX, startY, hue, shape): `count` is the
     * random(2, 8) draw and sizeDraws[i] the random(16, 64) draw of the i-th
     * sub-shape.
     */
    constructor (startX: real, startY: real, hue: int, shape: Shape, count: real, sizeDraws: seq<real>)
      requires 2.0 <= count < 8.0
      requires Ceil(count) <= |sizeDraws|
      requires forall i :: 0 <= i < |sizeDraws| ==> 16.0 <= sizeDraws[i] < 64.0
      ensures x == startX && y == startY && this.hue == hue && this.shape == shape && this.count == count
      ensures fresh(polygons)
      ensures polygons.Length == Ceil(count)
      ensures forall i :: 0 <= i < polygons.Length ==>
                polygons[i] == SubShape(startX, startY, InitialSize(sizeDraws[i]) as real)
      ensures IsActive()
    {
      SubShapeCount(count);
      x := startX;
      y := startY;
      this.hue := hue;
      this.shape := shape;
      this.count := count;
      polygons := new SubShape[Ceil(count)];
      new;
      var i := 0;
      while (i as real) < count
        invariant 0 <= i <= polygons.Length
        invariant forall k :: 0 <= k < i ==> polygons[k] == SubShape(startX, startY, InitialSize(sizeDraws[k]) as real)
      {
        polygons[i] := SubShape(x, y, InitialSize(sizeDraws[i]) as real);
        i := i + 1;
      }
      assert polygons[0].size > 0.0;
    }

    /** isActive: some sub-shape still has a positive size. */
    predicate IsActive()
      reads this, polygons
    {
      AnyLive(polygons[..])
    }

    /**
     * draw: every live sub-shape is outlined three times, then shrinks and
     * moves by its jitter; dead ones are skipped. No entry is added or removed.
     */
    method Draw(jitter: seq<Jitter>) returns (outlines: seq<Outline>)
      requires |jitter| == polygons.Length
      modifies polygons
      ensures polygons[..] == Decay(old(polygons[..]), jitter)
      ensures outlines == Outlines(old(polygons[..]))
    {
      ghost var before := polygons[..];
      outlines := [];
      for i := 0 to polygons.Length
        invariant forall k :: 0 <= k < i ==> polygons[k] == Decayed(before[k], jitter[k])
        invariant forall k :: i <= k < polygons.Length ==> polygons[k] == before[k]
        invariant outlines == Outlines(before[..i])
      {
        var polygon := polygons[i];
        assert before[..i + 1][..i] == before[..i];
        ghost var drawn := outlines;
        if polygon.size > 0.0 {
          outlines := outlines + [Outline(polygon.x, polygon.y, polygon.size, Own, true)];
          outlines := outlines + [Outline(polygon.x, polygon.y, polygon.size / 2.0, White, false)];
          outlines := outlines + [Outline(polygon.x, polygon.y, polygon.size / 4.0, Own, false)];
          polygons[i] := SubShape(polygon.x - jitter[i].dx, polygon.y - jitter[i].dy, polygon.size - jitter[i].shrink);
        }
        assert outlines == drawn + LiveOutlines(before[i]);
      }
      assert before[..polygons.Length] == before;
    }
  }
}
