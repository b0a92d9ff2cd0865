/**
 * The five-cue cycle both sketches run on each track's cues: where a cue
 * falls in its cycle, what a cycle start resets, and how the pattern of a
 * cycle is drawn.
 */
module Cycle {
  import opened Wrappers
  import opened Layout

  /** `currentCue % 5 === 1`: the cue opens a new cycle. */
  predicate IsCycleStart(cue: int)
  {
    cue % 5 == 1
  }

  /**
   * `(currentCue - 1) % 5`, the cue's place in its cycle. It is 0 exactly at a
   * cycle start and 4 exactly when `currentCue % 5 === 0`, the last cue.
   */
  function SlotIndex(cue: int): (index: int)
    requires cue >= 1
    ensures 0 <= index < 5
    ensures index == 0 <==> IsCycleStart(cue)
    ensures index == 4 <==> cue % 5 == 0
  {
    (cue - 1) % 5
  }

  /** How many shapes a layer holds after a cue: a cycle start empties it first. */
  function LayerSize(previous: nat, cue: int): nat
  {
    if IsCycleStart(cue) then 1 else previous + 1
  }

  /** The layer's size after cues 1, 2, ..., n fired in order on an empty layer. */
  function LayerSizeAfter(n: nat): nat
  {
    if n == 0 then 0 else LayerSize(LayerSizeAfter(n - 1), n)
  }

  /** After the n-th cue a layer holds ((n - 1) % 5) + 1 shapes, never more than five. */
  lemma {:induction false} LayerSizeAfterCues(n: nat)
    requires n >= 1
    ensures LayerSizeAfter(n) == (n - 1) % 5 + 1
    ensures 1 <= LayerSizeAfter(n) <= 5
  {
    if n > 1 {
      LayerSizeAfterCues(n - 1);
    }
  }

  /** The hue offsets PolygonsNo4 can be at: multiples of 40 below 360. */
  predicate IsHueOffset(hue: int)
  {
    0 <= hue < 360 && hue % 40 == 0
  }

  /** `p.hueOffset` after a cue: rotated by 40 on every cycle start but the first. */
  function NextHue(hue: int, cue: int): int
  {
    if IsCycleStart(cue) && cue > 1 then (hue + 40) % 360 else hue
  }

  /** A cue keeps the hue offset a multiple of 40 in [0, 360), and changes it only on a later cycle start. */
  lemma NextHueKeepsOffset(hue: int, cue: int)
    requires IsHueOffset(hue)
    ensures IsHueOffset(NextHue(hue, cue))
    ensures NextHue(hue, cue) != hue <==> IsCycleStart(cue) && cue > 1
  {
  }

  /** The hue offset after cues 1, 2, ..., n, starting from 0. */
  function HueAfter(n: nat): int
  {
    if n == 0 then 0 else NextHue(HueAfter(n - 1), n)
  }

  /** After the n-th cue the hue has turned 40 degrees once per completed cycle. */
  lemma {:induction false} HueAfterCues(n: nat)
    requires n >= 1
    ensures HueAfter(n) == (40 * ((n - 1) / 5)) % 360
  {
    if n > 1 {
      HueAfterCues(n - 1);
      var q := (n - 2) / 5;
      if IsCycleStart(n) {
        assert (n - 1) / 5 == q + 1;
        assert 40 * (q + 1) == 40 * q + 40;
        TurnBy(40 * q, 40);
      } else {
        assert (n - 1) / 5 == q;
      }
    }
  }

  /** Turning an angle and reducing it modulo 360 commute. */
  lemma TurnBy(a: int, step: int)
    ensures (a + step) % 360 == (a % 360 + step) % 360
  {
    var q, r := a / 360, a % 360;
    assert a == 360 * q + r;
    assert a + step == 360 * q + (r + step);
  }

  /** The patterns PolygonsNo4's selectPositionPattern chooses from. */
  const PatternsNo4: seq<Pattern> := [Grid, Diagonal, Wave, InvertedWave, Corners]

  /** The patterns PolygonsNo5's selectPositionPattern chooses from. */
  const PatternsNo5: seq<Pattern> := [Grid, Diagonal, Wave, Corners]

  /** `patterns[Math.floor(p.random() * patterns.length)]` for the unit draw r. */
  function PickPattern(patterns: seq<Pattern>, r: real): (pattern: Pattern)
    requires |patterns| > 0
    requires UnitDraw(r)
    ensures pattern in patterns
  {
    var n := |patterns| as real;
    ScaledDrawBounds(r, n);
    patterns[(r * n).Floor]
  }

  /** Every listed pattern is drawn for some value of the unit draw. */
  lemma EveryPatternCanBePicked(patterns: seq<Pattern>, k: nat)
    requires k < |patterns|
    ensures UnitDraw(k as real / |patterns| as real)
    ensures PickPattern(patterns, k as real / |patterns| as real) == patterns[k]
  {
    var n := |patterns| as real;
    var r := k as real / n;
    FractionOfWhole(k as real, n);
    assert (r * n).Floor == k;
    assert PickPattern(patterns, r) == patterns[(r * n).Floor];
  }

  /** k / n for 0 <= k < n is a unit draw that scales back to k. */
  lemma FractionOfWhole(k: real, n: real)
    requires 0.0 <= k < n
    ensures UnitDraw(k / n)
    ensures (k / n) * n == k
  {
  }

  /** `currentCycleShapes[index]`: undefined while no cycle has shuffled the shapes yet. */
  function ShapeAt(shapes: seq<Shape>, index: int): (shape: Option<Shape>)
    ensures shape.Some? <==> 0 <= index < |shapes|
    ensures shape.Some? ==> shape.value == shapes[index]
  {
    if 0 <= index < |shapes| then Some(shapes[index]) else None
  }

  /**
   * Once a cycle has shuffled its shapes, each of its five cues finds a shape
   * for its slot index, and no two cues of the cycle get the same shape.
   */
  lemma CycleShapesDistinct(shapes: seq<Shape>, i: int, j: int)
    requires IsShapeOrder(shapes)
    requires 0 <= i < j < 5
    ensures ShapeAt(shapes, i).Some? && ShapeAt(shapes, j).Some?
    ensures ShapeAt(shapes, i) != ShapeAt(shapes, j)
  {
  }

  /** A shuffled shape list hands every one of the five shapes to some cue of the cycle. */
  lemma CycleUsesEveryShape(shapes: seq<Shape>, shape: Shape)
    requires IsShapeOrder(shapes)
    ensures exists i :: 0 <= i < 5 && ShapeAt(shapes, i) == Some(shape)
  {
    ShapeOrderIsPermutation(shapes);
    assert shape in Shapes by {
      match shape
      case Equilateral => assert Shapes[0] == shape;
      case Rect => assert Shapes[1] == shape;
      case Pentagon => assert Shapes[2] == shape;
      case Hexagon => assert Shapes[3] == shape;
      case Octagon => assert Shapes[4] == shape;
    }
    assert shape in multiset(shapes);
    var i :| 0 <= i < |shapes| && shapes[i] == shape;
    assert ShapeAt(shapes, i) == Some(shape);
  }
}
