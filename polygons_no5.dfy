/**
 * The PolygonsNo5 sketch: one track of cues grows polygons on a single layer,
 * placed by the cycle's pattern and slot order, the last of each five growing fast.
 */
module PolygonsNo5 {
  import opened Wrappers
  import opened Layout
  import opened Timeline
  import opened Cycle
  import opened Polygons

  /**
   * cos and sin of slot k's angle, k fifths of a full turn, for the circle
   * pattern: irrational numbers the caller supplies, each within [-1, 1].
   */
  predicate TurnPoint(turn: Point)
  {
    -1.0 <= turn.x <= 1.0 && -1.0 <= turn.y <= 1.0
  }

  /** getPosition: where the pattern puts slot `posIndex`. */
  function Position(pattern: Option<Pattern>, posIndex: int, w: real, h: real, turn: Point, draw: Point): Point
    requires 0 <= posIndex < 5
  {
    var k := posIndex as real;
    match pattern
    case Some(Circle) =>
      var radius := Min(w, h) * 0.3;
      Point(w / 2.0 + radius * turn.x, h / 2.0 + radius * turn.y)
    case Some(Grid) =>
      if posIndex < 3 then Point(w * (0.25 + k * 0.25), h * 0.33)
      else Point(w * (0.33 + (k - 3.0) * 0.33), h * 0.67)
    case Some(Diagonal) =>
      var t := k / 4.0;
      Point(w * 0.1 + w * 0.8 * t, h * 0.1 + h * 0.8 * t)
    case Some(Wave) =>
      Point((k + 0.5) * (w / 5.0), h / 2.0 + h * 0.25 * SinQuarter(posIndex))
    case Some(Corners) =>
      if posIndex == 0 then Point(w * 0.2, h * 0.2)
      else if posIndex == 1 then Point(w * 0.8, h * 0.2)
      else if posIndex == 2 then Point(w * 0.5, h * 0.5)
      else if posIndex == 3 then Point(w * 0.2, h * 0.8)
      else Point(w * 0.8, h * 0.8)
    case _ => RandomPoint(w, h, draw)
  }

  /** A pattern selectPositionPattern can choose, as opposed to the unset pattern. */
  predicate IsChosen(pattern: Option<Pattern>)
  {
    pattern.Some? && pattern.value in PatternsNo5
  }

  /**
   * Every slot of every pattern, the random fallback and the circle included,
   * lands in the inset region.
   */
  lemma PositionInside(pattern: Option<Pattern>, posIndex: int, w: real, h: real, turn: Point, draw: Point)
    requires 0 <= posIndex < 5
    requires 0.0 <= w && 0.0 <= h
    requires TurnPoint(turn) && UnitPoint(draw)
    ensures Inside(Position(pattern, posIndex, w, h, turn, draw), w, h)
  {
    if pattern == Some(Circle) {
      CircleInside(posIndex, w, h, turn, draw);
    } else if pattern == None || pattern == Some(InvertedWave) {
      RandomPointInside(w, h, draw);
    } else {
      TableInside(pattern.value, posIndex, w, h, turn, draw);
    }
  }

  /** The grid, diagonal, wave and corner tables keep every slot in the inset region. */
  lemma TableInside(pattern: Pattern, posIndex: int, w: real, h: real, turn: Point, draw: Point)
    requires pattern != Circle && pattern != InvertedWave
    requires 0 <= posIndex < 5
    requires 0.0 <= w && 0.0 <= h
    ensures Inside(Position(Some(pattern), posIndex, w, h, turn, draw), w, h)
  {
    if posIndex == 0 {
      assert posIndex as real == 0.0;
    } else if posIndex == 1 {
      assert posIndex as real == 1.0;
    } else if posIndex == 2 {
      assert posIndex as real == 2.0;
    } else if posIndex == 3 {
      assert posIndex as real == 3.0;
    } else {
      assert posIndex as real == 4.0;
    }
  }

  /** The circle, of radius 30% of the shorter side around the centre, stays in the inset region. */
  lemma CircleInside(posIndex: int, w: real, h: real, turn: Point, draw: Point)
    requires 0 <= posIndex < 5
    requires 0.0 <= w && 0.0 <= h
    requires TurnPoint(turn)
    ensures Inside(Position(Some(Circle), posIndex, w, h, turn, draw), w, h)
  {
    var radius := Min(w, h) * 0.3;
    OnCircleInside(w, radius, turn.x);
    OnCircleInside(h, radius, turn.y);
  }

  /**
   * One coordinate of a point on a circle around the middle of a side, with
   * radius at most 30% of that side, lies in the side's inner 80%.
   */
  lemma OnCircleInside(side: real, radius: real, c: real)
    requires 0.0 <= radius <= 0.3 * side
    requires -1.0 <= c <= 1.0
    ensures 0.1 * side <= side / 2.0 + radius * c <= 0.9 * side
  {
    assert radius * (1.0 - c) >= 0.0;
    assert radius * (1.0 + c) >= 0.0;
  }

  /** On a non-empty canvas a chosen pattern gives its five slots five different points. */
  lemma PositionsDistinct(pattern: Option<Pattern>, i: int, j: int, w: real, h: real, turn: Point, draw: Point)
    requires IsChosen(pattern)
    requires 0 <= i < j < 5
    requires 0.0 < w && 0.0 < h
    ensures Position(pattern, i, w, h, turn, draw) != Position(pattern, j, w, h, turn, draw)
  {
    if i == 0 {
    } else if i == 1 {
    } else if i == 2 {
    } else {
    }
  }

  /** selectPositionPattern never picks the circle, so getPosition's circle branch is dead. */
  lemma CircleIsNeverPicked(r: real)
    requires UnitDraw(r)
    ensures PickPattern(PatternsNo5, r) != Circle
  {
    var p := PickPattern(PatternsNo5, r);
    assert p in PatternsNo5;
  }

  /** The random draws one cue consumes. */
  datatype Draws = Draws(
    shapes: seq<Shape>,  // the shape list sorted with a random comparator
    pattern: real,       // p.random() in selectPositionPattern
    order: seq<int>,     // [0..4] sorted with a random comparator
    turn: Point,         // cos and sin of the slot's angle on the circle
    position: Point,     // the unit draws behind the fallback position
    shape: Shape         // the Polygon constructor's own Math.random() pick
  )

  /**
   * Every draw within its range; each sorted list holds its entries once each,
   * which is what any permutation of them looks like.
   */
  predicate ValidDraws(d: Draws)
  {
    IsShapeOrder(d.shapes) && UnitDraw(d.pattern) && IsSlotOrder(d.order)
    && TurnPoint(d.turn) && UnitPoint(d.position)
  }

  /** The sketch's own state, the fields the cue handler sets on `p`. */
  class Sketch {
    var polygons: seq<Polygon>
    var currentCycleShapes: seq<Shape>
    var positionPattern: Option<Pattern>
    var positionOrder: seq<int>

    /**
     * The slot order holds the five slots once each, the pattern is unset or
     * one of the four listed (never the circle), and the shapes are unset or
     * the five shapes once each.
     */
    predicate Valid()
      reads this
    {
      IsSlotOrder(positionOrder)
      && (positionPattern.Some? ==> positionPattern.value in PatternsNo5)
      && (currentCycleShapes == [] || IsShapeOrder(currentCycleShapes))
    }

    constructor ()
      ensures Valid()
      ensures polygons == [] && currentCycleShapes == []
      ensures positionPattern == None && positionOrder == Slots
    {
      polygons := [];
      currentCycleShapes := [];
      positionPattern := None;
      positionOrder := Slots;
    }

    /** selectPositionPattern: a pattern for the unit draw r, and the shuffled slot order. */
    method SelectPositionPattern(r: real, order: seq<int>)
      requires UnitDraw(r)
      requires IsSlotOrder(order)
      modifies this`positionPattern, this`positionOrder
      ensures positionPattern == Some(PickPattern(PatternsNo5, r))
      ensures positionOrder == order
    {
      var patterns := PatternsNo5;
      positionPattern := Some(PickPattern(patterns, r));
      positionOrder := order;
    }

    /** getPosition(index): the place for the cycle's index-th cue. */
    function GetPosition(index: int, w: real, h: real, turn: Point, draw: Point): Point
      reads this`positionPattern, this`positionOrder
      requires IsSlotOrder(positionOrder)
      requires 0 <= index < 5
    {
      Position(positionPattern, positionOrder[index], w, h, turn, draw)
    }

    /**
     * The cycle-start branch of executeTrack1: the layer is emptied, the shapes
     * reshuffled and a new pattern and slot order drawn. Other cues leave
     * everything as it is.
     */
    method BeginCycle(cue: int, draws: Draws)
      requires Valid()
      requires ValidDraws(draws)
      modifies this`polygons, this`currentCycleShapes, this`positionPattern, this`positionOrder
      ensures Valid()
      ensures IsCycleStart(cue) ==>
                && polygons == []
                && currentCycleShapes == draws.shapes
                && positionPattern == Some(PickPattern(PatternsNo5, draws.pattern))
                && positionOrder == draws.order
      ensures !IsCycleStart(cue) ==>
                && polygons == old(polygons)
                && currentCycleShapes == old(currentCycleShapes)
                && positionPattern == old(positionPattern)
                && positionOrder == old(positionOrder)
    {
      if IsCycleStart(cue) {
        polygons := [];
        currentCycleShapes := draws.shapes;
        SelectPositionPattern(draws.pattern, draws.order);
      }
    }

    /**
     * executeTrack1: after the cycle-start branch, one polygon is added at the
     * position of the cue's slot, with the note's duration, flagged as last
     * when it closes the cycle, and with the cycle's shape for its slot.
     */
    method ExecuteTrack1(note: Note, w: real, h: real, draws: Draws)
      requires Valid()
      requires note.currentCue.Some? && note.currentCue.value >= 1
      requires ValidDraws(draws)
      modifies this
      ensures Valid()
      ensures var cue := note.currentCue.value;
              && |polygons| == LayerSize(|old(polygons)|, cue)
              && (IsCycleStart(cue) ==>
                    && polygons[..|polygons| - 1] == []
                    && currentCycleShapes == draws.shapes
                    && positionPattern == Some(PickPattern(PatternsNo5, draws.pattern))
                    && positionOrder == draws.order)
              && (!IsCycleStart(cue) ==>
                    && polygons[..|polygons| - 1] == old(polygons)
                    && currentCycleShapes == old(currentCycleShapes)
                    && positionPattern == old(positionPattern)
                    && positionOrder == old(positionOrder))
      ensures var cue := note.currentCue.value;
              var index := SlotIndex(cue);
              var added := polygons[|polygons| - 1];
              && fresh(added)
              && Point(added.x, added.y) == GetPosition(index, w, h, draws.turn, draws.position)
              && added.size == 0.0
              && added.isLast == (index == 4)
              && added.nestedCount == NestedCount(DurationMs(note.durationTicks, Bpm), Bpm)
              && added.shape == ShapeAt(currentCycleShapes, index)
    {
      var currentCue := note.currentCue.value;
      BeginCycle(currentCue, draws);
      var durationMs := DurationMs(note.durationTicks, Bpm);
      var index := SlotIndex(currentCue);
      var position := GetPosition(index, w, h, draws.turn, draws.position);
      var newPolygon := new Polygon(position.x, position.y, durationMs, currentCue % 5 == 0, Bpm, draws.shape);
      newPolygon.shape := ShapeAt(currentCycleShapes, index);
      polygons := polygons + [newPolygon];
    }
  }

  /**
   * A note's polygon gets as many nested copies as whole half-bars its
   * duration spans (at least one), and the default three when the note has
   * no positive length.
   */
  lemma NestedCopiesFollowDuration(durationTicks: int)
    ensures var n := NestedCount(DurationMs(durationTicks, Bpm), Bpm);
            && (durationTicks <= 0 ==> n == 3)
            && (durationTicks > 0 ==> n == if durationTicks / (2 * PPQ) < 1 then 1 else durationTicks / (2 * PPQ))
  {
    if durationTicks > 0 {
      var durationMs := DurationMs(durationTicks, Bpm);
      var d := 2 * PPQ;
      assert durationMs / RepeatInterval(Bpm) == durationTicks as real / d as real;
      FloorOfRatio(durationTicks, d);
    } else {
      assert DurationMs(durationTicks, Bpm) <= 0.0;
    }
  }

  /** Flooring an exact quotient of integers is integer division. */
  lemma FloorOfRatio(x: int, d: int)
    requires d > 0
    ensures (x as real / d as real).Floor == x / d
  {
    var q, r := x / d, x % d;
    assert x == d * q + r;
    assert x as real / d as real == q as real + r as real / d as real;
    assert 0.0 <= r as real / d as real < 1.0;
  }
}
