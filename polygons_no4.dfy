/**
 * The PolygonsNo4 sketch: track-1 cues grow polygons on a persistent layer,
 * track-2 cues spawn bubble bursts on a second layer, and both layers place
 * the cues of a five-cue cycle by the cycle's pattern and slot order.
 */
module PolygonsNo4 {
  import opened Wrappers
  import opened Layout
  import opened Timeline
  import opened Cycle
  import opened Polygons
  import opened Bubbles

  /** getPosition: where the pattern puts slot `posIndex` (the bubble layer). */
  function Position(pattern: Option<Pattern>, posIndex: int, w: real, h: real, draw: Point): Point
    requires 0 <= posIndex < 5
  {
    var k := posIndex as real;
    match pattern
    case Some(Grid) =>
      if posIndex < 3 then Point(w * (0.15 + k * 0.35), h * 0.28)
      else Point(w * (0.25 + (k - 3.0) * 0.5), h * 0.72)
    case Some(Diagonal) =>
      var t := k / 4.0;
      Point(w * 0.1 + w * 0.8 * t, h * 0.1 + h * 0.8 * t)
    case Some(Wave) =>
      Point((k + 0.5) * (w / 5.0), h / 2.0 + h * 0.25 * SinQuarter(posIndex))
    case Some(InvertedWave) =>
      Point((k + 0.5) * (w / 5.0), h / 2.0 + h * 0.25 * CosQuarter(posIndex))
    case Some(Corners) =>
      if posIndex == 0 then Point(w * 0.15, h * 0.15)
      else if posIndex == 1 then Point(w * 0.85, h * 0.15)
      else if posIndex == 2 then Point(w * 0.5, h * 0.5)
      else if posIndex == 3 then Point(w * 0.15, h * 0.85)
      else Point(w * 0.85, h * 0.85)
    case _ => RandomPoint(w, h, draw)
  }

  /** getComplementaryPosition: the related place for the same slot (the polygon layer). */
  function ComplementaryPosition(pattern: Option<Pattern>, posIndex: int, w: real, h: real, draw: Point): Point
    requires 0 <= posIndex < 5
  {
    var k := posIndex as real;
    match pattern
    case Some(Grid) =>
      if posIndex < 2 then Point(w * (0.25 + k * 0.5), h * 0.28)
      else Point(w * (0.15 + (k - 2.0) * 0.35), h * 0.72)
    case Some(Diagonal) =>
      var t := k / 4.0;
      Point(w * 0.9 - w * 0.8 * t, h * 0.1 + h * 0.8 * t)
    case Some(Wave) =>
      Point((k + 0.5) * (w / 5.0), h / 2.0 - h * 0.25 * SinQuarter(posIndex))
    case Some(InvertedWave) =>
      Point((k + 0.5) * (w / 5.0), h / 2.0 - h * 0.25 * CosQuarter(posIndex))
    case Some(Corners) =>
      if posIndex == 0 then Point(w * 0.5, h * 0.15)
      else if posIndex == 1 then Point(w * 0.15, h * 0.5)
      else if posIndex == 2 then Point(w * 0.5, h * 0.5)
      else if posIndex == 3 then Point(w * 0.85, h * 0.5)
      else Point(w * 0.5, h * 0.85)
    case _ => RandomPoint(w, h, draw)
  }

  /** A pattern selectPositionPattern can choose, as opposed to the unset pattern. */
  predicate IsChosen(pattern: Option<Pattern>)
  {
    pattern.Some? && pattern.value in PatternsNo4
  }

  /** Every slot of every pattern, and the fallback, lands in the inset region. */
  lemma PositionInside(pattern: Option<Pattern>, posIndex: int, w: real, h: real, draw: Point)
    requires 0 <= posIndex < 5
    requires 0.0 <= w && 0.0 <= h
    requires UnitPoint(draw)
    ensures Inside(Position(pattern, posIndex, w, h, draw), w, h)
  {
    if !IsChosen(pattern) {
      RandomPointInside(w, h, draw);
    } else if posIndex == 0 {
      assert posIndex as real == 0.0;
    } else if posIndex == 1 {
      assert posIndex as real == 1.0;
    } else if posIndex == 2 {
      assert posIndex as real == 2.0;
    } else if posIndex == 3 {
      assert posIndex as real == 3.0;
    } else {
      assert posIndex as real == 4.0;
    }
  }

  /** The same for the complementary table. */
  lemma ComplementaryPositionInside(pattern: Option<Pattern>, posIndex: int, w: real, h: real, draw: Point)
    requires 0 <= posIndex < 5
    requires 0.0 <= w && 0.0 <= h
    requires UnitPoint(draw)
    ensures Inside(ComplementaryPosition(pattern, posIndex, w, h, draw), w, h)
  {
    if !IsChosen(pattern) {
      RandomPointInside(w, h, draw);
    } else if posIndex == 0 {
      assert posIndex as real == 0.0;
    } else if posIndex == 1 {
      assert posIndex as real == 1.0;
    } else if posIndex == 2 {
      assert posIndex as real == 2.0;
    } else if posIndex == 3 {
      assert posIndex as real == 3.0;
    } else {
      assert posIndex as real == 4.0;
    }
  }

  /** On a non-empty canvas a chosen pattern gives its five slots five different points. */
  lemma PositionsDistinct(pattern: Option<Pattern>, i: int, j: int, w: real, h: real, draw: Point)
    requires IsChosen(pattern)
    requires 0 <= i < j < 5
    requires 0.0 < w && 0.0 < h
    ensures Position(pattern, i, w, h, draw) != Position(pattern, j, w, h, draw)
  {
    if i == 0 {
    } else if i == 1 {
    } else if i == 2 {
    } else {
    }
  }

  /** The same for the complementary table. */
  lemma ComplementaryPositionsDistinct(pattern: Option<Pattern>, i: int, j: int, w: real, h: real, draw: Point)
    requires IsChosen(pattern)
    requires 0 <= i < j < 5
    requires 0.0 < w && 0.0 < h
    ensures ComplementaryPosition(pattern, i, w, h, draw) != ComplementaryPosition(pattern, j, w, h, draw)
  {
    if i == 0 {
    } else if i == 1 {
    } else if i == 2 {
    } else {
    }
  }

  /** Diagonal: the complementary point mirrors x about the vertical midline and keeps y. */
  lemma DiagonalMirrorsX(posIndex: int, w: real, h: real, draw: Point)
    requires 0 <= posIndex < 5
    ensures var p := Position(Some(Diagonal), posIndex, w, h, draw);
            ComplementaryPosition(Some(Diagonal), posIndex, w, h, draw) == Point(w - p.x, p.y)
  {
  }

  /** Wave and inverted wave: the complementary point mirrors y about the horizontal midline. */
  lemma WavesMirrorY(pattern: Option<Pattern>, posIndex: int, w: real, h: real, draw: Point)
    requires pattern == Some(Wave) || pattern == Some(InvertedWave)
    requires 0 <= posIndex < 5
    ensures var p := Position(pattern, posIndex, w, h, draw);
            ComplementaryPosition(pattern, posIndex, w, h, draw) == Point(p.x, h - p.y)
  {
  }

  /**
   * Grid: the complementary grid swaps the rows (three on top becomes three
   * below) and shifts the slots by three.
   */
  lemma GridSwapsRows(posIndex: int, w: real, h: real, draw: Point)
    requires 0 <= posIndex < 5
    ensures var p := Position(Some(Grid), (posIndex + 3) % 5, w, h, draw);
            ComplementaryPosition(Some(Grid), posIndex, w, h, draw) == Point(p.x, h - p.y)
  {
    var grid := Some(Grid);
    if posIndex == 0 {
      assert Position(grid, 3, w, h, draw) == Point(w * 0.25, h * 0.72);
      assert ComplementaryPosition(grid, 0, w, h, draw) == Point(w * 0.25, h * 0.28);
    } else if posIndex == 1 {
      assert Position(grid, 4, w, h, draw) == Point(w * 0.75, h * 0.72);
      assert ComplementaryPosition(grid, 1, w, h, draw) == Point(w * 0.75, h * 0.28);
    } else if posIndex == 2 {
      assert Position(grid, 0, w, h, draw) == Point(w * 0.15, h * 0.28);
      assert ComplementaryPosition(grid, 2, w, h, draw) == Point(w * 0.15, h * 0.72);
    } else if posIndex == 3 {
      assert Position(grid, 1, w, h, draw) == Point(w * 0.5, h * 0.28);
      assert ComplementaryPosition(grid, 3, w, h, draw) == Point(w * 0.5, h * 0.72);
    } else {
      assert Position(grid, 2, w, h, draw) == Point(w * 0.85, h * 0.28);
      assert ComplementaryPosition(grid, 4, w, h, draw) == Point(w * 0.85, h * 0.72);
    }
  }

  function Midpoint(a: Point, b: Point): Point
  {
    Point((a.x + b.x) / 2.0, (a.y + b.y) / 2.0)
  }

  /**
   * Corners: the complementary points are the centre, shared with the corner
   * table, and the midpoints of the four sides of the corner square.
   */
  lemma CornersBecomeSideMidpoints(w: real, h: real, draw: Point)
    ensures var c := (k: int) requires 0 <= k < 5 => Position(Some(Corners), k, w, h, draw);
            var m := (k: int) requires 0 <= k < 5 => ComplementaryPosition(Some(Corners), k, w, h, draw);
            && m(0) == Midpoint(c(0), c(1))
            && m(1) == Midpoint(c(0), c(3))
            && m(2) == c(2)
            && m(3) == Midpoint(c(1), c(4))
            && m(4) == Midpoint(c(3), c(4))
  {
  }

  /** The bounds executeTrack1 draws a polygon's maximum size between. */
  datatype SizeRange = SizeRange(minSize: real, maxSize: real)

  /** How much a pattern shrinks its polygons to keep them from overlapping. */
  function SizeFactor(pattern: Option<Pattern>): real
  {
    match pattern
    case Some(Grid) => 0.6
    case Some(Corners) => 0.6
    case Some(Diagonal) => 0.7
    case Some(Wave) => 0.7
    case _ => 1.0
  }

  /**
   * minSize and maxSize in executeTrack1: 30% of the shorter canvas side, plus
   * 30 per bar of the note capped at that same base, the maximum half a base
   * above the minimum, both scaled by the pattern's factor.
   */
  function PolygonSizeRange(w: real, h: real, durationMs: real, pattern: Option<Pattern>): SizeRange
  {
    var barDuration := (60000.0 / Bpm) * 4.0;
    var barCount := durationMs / barDuration;
    var baseSize := Min(w, h) * 0.3;
    var minSize := baseSize + Min(baseSize, barCount * 30.0);
    var maxSize := baseSize * 1.5 + Min(baseSize, barCount * 30.0);
    var factor := SizeFactor(pattern);
    SizeRange(minSize * factor, maxSize * factor)
  }

  /**
   * The range is never empty, always spans 15% of the shorter side (times the
   * factor) whatever the note's length, starts at 30% of it and never exceeds 75%.
   */
  lemma SizeRangeBounds(w: real, h: real, durationMs: real, pattern: Option<Pattern>)
    requires 0.0 <= w && 0.0 <= h && 0.0 <= durationMs
    ensures var r := PolygonSizeRange(w, h, durationMs, pattern);
            var f := SizeFactor(pattern);
            && r.maxSize - r.minSize == f * 0.15 * Min(w, h)
            && f * 0.3 * Min(w, h) <= r.minSize <= r.maxSize <= f * 0.75 * Min(w, h)
  {
    var barDuration := (60000.0 / Bpm) * 4.0;
    assert durationMs / barDuration >= 0.0;
  }

  /** A longer note never gets a smaller range. */
  lemma SizeRangeGrowsWithDuration(w: real, h: real, d1: real, d2: real, pattern: Option<Pattern>)
    requires 0.0 <= w && 0.0 <= h && d1 <= d2
    ensures PolygonSizeRange(w, h, d1, pattern).minSize <= PolygonSizeRange(w, h, d2, pattern).minSize
    ensures PolygonSizeRange(w, h, d1, pattern).maxSize <= PolygonSizeRange(w, h, d2, pattern).maxSize
  {
    var barDuration := (60000.0 / Bpm) * 4.0;
    assert d1 / barDuration <= d2 / barDuration;
  }

  /** `p.random(minSize, maxSize)`: the value executeTrack1 passes as the polygon's durationMs. */
  function PolygonMaxSize(w: real, h: real, durationMs: real, pattern: Option<Pattern>, r: real): real
  {
    var range := PolygonSizeRange(w, h, durationMs, pattern);
    RandomIn(range.minSize, range.maxSize, r)
  }

  /**
   * Because the maximum size lands in the duration parameter, a No4 polygon
   * on a canvas whose shorter side is at most 3000 pixels always has one
   * nested copy: its "duration" is below two half-bars.
   */
  lemma PolygonsNo4HaveOneNestedCopy(w: real, h: real, durationMs: real, pattern: Option<Pattern>, r: real)
    requires 0.0 < w && 0.0 < h && Min(w, h) <= 3000.0
    requires 0.0 <= durationMs && UnitDraw(r)
    ensures NestedCount(PolygonMaxSize(w, h, durationMs, pattern, r), Bpm) == 1
  {
    SizeRangeBounds(w, h, durationMs, pattern);
    var size := PolygonMaxSize(w, h, durationMs, pattern, r);
    assert 0.0 < size <= 2250.0;
    var interval := RepeatInterval(Bpm);
    assert interval == 120000.0 / 104.0;
    assert size / interval < 2.0;
  }

  /**
   * Because the duration lands in the isLast parameter, a No4 polygon grows
   * by the large step whenever its note has a non-zero length.
   */
  lemma PolygonsNo4GrowthStep(durationTicks: int)
    ensures GrowthStep(DurationMs(durationTicks, Bpm) != 0.0) == if durationTicks != 0 then 96.0 else 16.0
  {
    DurationZeroIffNoTicks(durationTicks, Bpm);
  }

  /** `((midi % 12) * 30 + currentCue * 17) % 360`: a bubble burst's hue. */
  function BubbleHue(midi: nat, cue: int): int
    requires cue >= 1
  {
    ((midi % 12) * 30 + cue * 17) % 360
  }

  /**
   * The hue is an angle in [0, 360) that depends on the pitch class only (an
   * octave higher gives the same hue) and turns by 17 degrees from cue to cue.
   */
  lemma BubbleHueProperties(midi: nat, cue: int)
    requires cue >= 1
    ensures 0 <= BubbleHue(midi, cue) < 360
    ensures BubbleHue(midi + 12, cue) == BubbleHue(midi, cue)
    ensures BubbleHue(midi, cue + 1) == (BubbleHue(midi, cue) + 17) % 360
  {
    assert (midi + 12) % 12 == midi % 12;
    var a := (midi % 12) * 30 + cue * 17;
    assert (midi % 12) * 30 + (cue + 1) * 17 == a + 17;
    TurnBy(a, 17);
  }

  /** The random draws one track-1 cue consumes. */
  datatype Track1Draws = Track1Draws(
    shapes: seq<Shape>,  // the shape list sorted with a random comparator
    pattern: real,       // p.random() in selectPositionPattern
    order: seq<int>,     // [0..4] sorted with a random comparator
    size: real,          // the unit draw behind p.random(minSize, maxSize)
    position: Point,     // the unit draws behind the fallback position
    shape: Shape         // the Polygon constructor's own Math.random() pick
  )

  /**
   * Every draw within its range; each sorted list holds its entries once each,
   * which is what any permutation of them looks like.
   */
  predicate ValidTrack1Draws(d: Track1Draws)
  {
    IsShapeOrder(d.shapes) && UnitDraw(d.pattern) && IsSlotOrder(d.order)
    && UnitDraw(d.size) && UnitPoint(d.position)
  }

  /** The random draws one track-2 cue consumes. */
  datatype Track2Draws = Track2Draws(
    position: Point,     // the unit draws behind the fallback position
    count: real,         // random(2, 8) in the BubblePolygons constructor
    sizes: seq<real>     // random(16, 64), once per sub-shape
  )

  predicate ValidTrack2Draws(d: Track2Draws)
  {
    UnitPoint(d.position) && 2.0 <= d.count < 8.0 && Ceil(d.count) <= |d.sizes|
    && forall i :: 0 <= i < |d.sizes| ==> 16.0 <= d.sizes[i] < 64.0
  }

  /**
   * `new Polygon(p, x, y, durationMs, isLast)` at the sketch's tempo, followed
   * by the assignment that replaces the constructor's random shape.
   */
  method PlacePolygon(position: Point, durationMs: real, isLast: bool, randomShape: Shape, shape: Option<Shape>)
    returns (polygon: Polygon)
    ensures fresh(polygon)
    ensures polygon.x == position.x && polygon.y == position.y
    ensures polygon.size == 0.0 && polygon.isLast == isLast
    ensures polygon.nestedCount == NestedCount(durationMs, Bpm)
    ensures polygon.shape == shape
  {
    polygon := new Polygon(position.x, position.y, durationMs, isLast, Bpm, randomShape);
    polygon.shape := shape;
  }

  /** The sketch's own state, the fields the cue handlers set on `p`. */
  class Sketch {
    var polygons: seq<Polygon>
    var bubblePolygons: seq<BubblePolygons>
    var currentCycleShapes: seq<Shape>
    var positionPattern: Option<Pattern>
    var positionOrder: seq<int>
    var hueOffset: int

    /**
     * The slot order holds the five slots once each, the pattern is unset or
     * one of the five listed, the shapes are unset or the five shapes once
     * each, and the hue offset is a multiple of 40 in [0, 360).
     */
    predicate Valid()
      reads this
    {
      IsSlotOrder(positionOrder)
      && IsHueOffset(hueOffset)
      && (positionPattern.Some? ==> positionPattern.value in PatternsNo4)
      && (currentCycleShapes == [] || IsShapeOrder(currentCycleShapes))
    }

    constructor ()
      ensures Valid()
      ensures polygons == [] && bubblePolygons == [] && currentCycleShapes == []
      ensures positionPattern == None && positionOrder == Slots && hueOffset == 0
    {
      polygons := [];
      bubblePolygons := [];
      currentCycleShapes := [];
      positionPattern := None;
      positionOrder := Slots;
      hueOffset := 0;
    }

    /** selectPositionPattern: a pattern for the unit draw r, and the shuffled slot order. */
    method SelectPositionPattern(r: real, order: seq<int>)
      requires UnitDraw(r)
      requires IsSlotOrder(order)
      modifies this`positionPattern, this`positionOrder
      ensures positionPattern == Some(PickPattern(PatternsNo4, r))
      ensures positionOrder == order
    {
      var patterns := PatternsNo4;
      positionPattern := Some(PickPattern(patterns, r));
      positionOrder := order;
    }

    /** getPosition(index): the bubble layer's place for the cycle's index-th cue. */
    function GetPosition(index: int, w: real, h: real, draw: Point): Point
      reads this`positionPattern, this`positionOrder
      requires IsSlotOrder(positionOrder)
      requires 0 <= index < 5
    {
      Position(positionPattern, positionOrder[index], w, h, draw)
    }

    /** getComplementaryPosition(index): the polygon layer's place for the index-th cue. */
    function GetComplementaryPosition(index: int, w: real, h: real, draw: Point): Point
      reads this`positionPattern, this`positionOrder
      requires IsSlotOrder(positionOrder)
      requires 0 <= index < 5
    {
      ComplementaryPosition(positionPattern, positionOrder[index], w, h, draw)
    }

    /**
     * The cycle-start branch of executeTrack1: the polygon layer is emptied,
     * the shapes reshuffled, a new pattern and slot order drawn and, after the
     * first cycle, the hue turned. Other cues leave everything as it is.
     */
    method BeginCycle(cue: int, draws: Track1Draws)
      requires Valid()
      requires ValidTrack1Draws(draws)
      modifies this`polygons, this`currentCycleShapes, this`positionPattern, this`positionOrder, this`hueOffset
      ensures Valid()
      ensures hueOffset == NextHue(old(hueOffset), cue)
      ensures IsCycleStart(cue) ==>
                && polygons == []
                && currentCycleShapes == draws.shapes
                && positionPattern == Some(PickPattern(PatternsNo4, draws.pattern))
                && positionOrder == draws.order
      ensures !IsCycleStart(cue) ==>
                && polygons == old(polygons)
                && currentCycleShapes == old(currentCycleShapes)
                && positionPattern == old(positionPattern)
                && positionOrder == old(positionOrder)
    {
      NextHueKeepsOffset(hueOffset, cue);
      if IsCycleStart(cue) {
        polygons := [];
        currentCycleShapes := draws.shapes;
        SelectPositionPattern(draws.pattern, draws.order);
        if cue > 1 {
          hueOffset := (hueOffset + 40) % 360;
        }
      }
    }

    /**
     * executeTrack1: after the cycle-start branch, one polygon is added at the
     * complementary position of the cue's slot, with the cycle's shape for it.
     */
    method ExecuteTrack1(note: Note, w: real, h: real, draws: Track1Draws)
      requires Valid()
      requires note.currentCue.Some? && note.currentCue.value >= 1
      requires ValidTrack1Draws(draws)
      modifies this
      ensures Valid()
      ensures var cue := note.currentCue.value;
              && hueOffset == NextHue(old(hueOffset), cue)
              && bubblePolygons == old(bubblePolygons)
              && |polygons| == LayerSize(|old(polygons)|, cue)
              && (IsCycleStart(cue) ==>
                    && polygons[..|polygons| - 1] == []
                    && currentCycleShapes == draws.shapes
                    && positionPattern == Some(PickPattern(PatternsNo4, draws.pattern))
                    && positionOrder == draws.order)
              && (!IsCycleStart(cue) ==>
                    && polygons[..|polygons| - 1] == old(polygons)
                    && currentCycleShapes == old(currentCycleShapes)
                    && positionPattern == old(positionPattern)
                    && positionOrder == old(positionOrder))
      ensures var cue := note.currentCue.value;
              var index := SlotIndex(cue);
              var added := polygons[|polygons| - 1];
              var durationMs := DurationMs(note.durationTicks, Bpm);
              && fresh(added)
              && Point(added.x, added.y) == GetComplementaryPosition(index, w, h, draws.position)
              && added.size == 0.0
              && added.isLast == (durationMs != 0.0)
              && added.nestedCount == NestedCount(PolygonMaxSize(w, h, durationMs, positionPattern, draws.size), Bpm)
              && added.shape == ShapeAt(currentCycleShapes, index)
    {
      var currentCue := note.currentCue.value;
      BeginCycle(currentCue, draws);
      var durationMs := DurationMs(note.durationTicks, Bpm);
      var index := SlotIndex(currentCue);
      var polygonMaxSize := PolygonMaxSize(w, h, durationMs, positionPattern, draws.size);
      var position := GetComplementaryPosition(index, w, h, draws.position);
      // As the sketch calls it: polygonMaxSize fills the constructor's durationMs
      // parameter and durationMs its isLast parameter, which JavaScript reads
      // as true exactly when durationMs is not 0.
      var newPolygon := PlacePolygon(position, polygonMaxSize, durationMs != 0.0, draws.shape,
                                     ShapeAt(currentCycleShapes, index));
      polygons := polygons + [newPolygon];
    }

    /**
     * executeTrack2: a cycle start empties the bubble layer; then one bubble
     * burst is added at the position of the cue's slot, with the cycle's shape
     * for that slot (the constructor's default, pentagon, while there is none).
     */
    method ExecuteTrack2(note: Note, w: real, h: real, draws: Track2Draws)
      requires Valid()
      requires note.currentCue.Some? && note.currentCue.value >= 1
      requires ValidTrack2Draws(draws)
      modifies this
      ensures Valid()
      ensures polygons == old(polygons) && currentCycleShapes == old(currentCycleShapes)
      ensures positionPattern == old(positionPattern) && positionOrder == old(positionOrder)
      ensures hueOffset == old(hueOffset)
      ensures var cue := note.currentCue.value;
              && |bubblePolygons| == LayerSize(|old(bubblePolygons)|, cue)
              && bubblePolygons[..|bubblePolygons| - 1] == if IsCycleStart(cue) then [] else old(bubblePolygons)
      ensures var cue := note.currentCue.value;
              var index := SlotIndex(cue);
              var added := bubblePolygons[|bubblePolygons| - 1];
              && fresh(added) && fresh(added.polygons)
              && Point(added.x, added.y) == GetPosition(index, w, h, draws.position)
              && added.hue == BubbleHue(note.midi, cue)
              && added.shape == (match ShapeAt(currentCycleShapes, index) case Some(s) => s case None => Pentagon)
              && added.count == draws.count
              && added.polygons.Length == Ceil(draws.count)
              && (forall i :: 0 <= i < added.polygons.Length ==>
                    added.polygons[i] == SubShape(added.x, added.y, InitialSize(draws.sizes[i]) as real))
              && added.IsActive()
    {
      var currentCue := note.currentCue.value;
      if IsCycleStart(currentCue) {
        bubblePolygons := [];
      }
      var index := SlotIndex(currentCue);
      var position := GetPosition(index, w, h, draws.position);
      var shape := match ShapeAt(currentCycleShapes, index) case Some(s) => s case None => Pentagon;
      var hue := BubbleHue(note.midi, currentCue);
      var bubblePolygon := new BubblePolygons(position.x, position.y, hue, shape, draws.count, draws.sizes);
      bubblePolygons := bubblePolygons + [bubblePolygon];
    }
  }

  /**
   * A burst as `ExecuteTrack2` places it (every sub-shape at the start point,
   * sized by `InitialSize` of its draw) is dead after 630 valid draws.
   */
  lemma PlacedBurstDiesOut(x: real, y: real, draws: Track2Draws, subs: seq<SubShape>,
                           jitters: seq<seq<Jitter>>)
    requires ValidTrack2Draws(draws)
    requires |subs| == Ceil(draws.count)
    requires forall i :: 0 <= i < |subs| ==> subs[i] == SubShape(x, y, InitialSize(draws.sizes[i]) as real)
    requires forall k :: 0 <= k < |jitters| ==> |jitters[k]| == |subs|
    requires forall k, m :: 0 <= k < |jitters| && 0 <= m < |subs| ==> ValidJitter(jitters[k][m])
    requires |jitters| >= 630
    ensures !AnyLive(DecaySteps(subs, jitters))
  {
    BurstDiesOut(subs, jitters);
  }

  /**
   * Two cues placed under one slot order and one chosen pattern, as the five
   * polygons of a track-1 cycle are, land at different points on a non-empty
   * canvas, on either table. Bubble cues follow track 2's own numbering, so
   * a bubble cycle can straddle a track-1 cycle start and mix two orders;
   * this lemma covers only the bubbles placed under the same order.
   */
  lemma CycleSpreadsOverDistinctPoints(order: seq<int>, pattern: Option<Pattern>, i: int, j: int,
                                       w: real, h: real, draw: Point)
    requires IsPermutationOf(order, Slots)
    requires IsChosen(pattern)
    requires 0 <= i < j < 5
    requires 0.0 < w && 0.0 < h
    ensures |order| == 5
    ensures 0 <= order[i] < 5 && 0 <= order[j] < 5
    ensures ComplementaryPosition(pattern, order[i], w, h, draw) != ComplementaryPosition(pattern, order[j], w, h, draw)
    ensures Position(pattern, order[i], w, h, draw) != Position(pattern, order[j], w, h, draw)
  {
    SlotOrderIsPermutation(order);
    if order[i] < order[j] {
      ComplementaryPositionsDistinct(pattern, order[i], order[j], w, h, draw);
      PositionsDistinct(pattern, order[i], order[j], w, h, draw);
    } else {
      ComplementaryPositionsDistinct(pattern, order[j], order[i], w, h, draw);
      PositionsDistinct(pattern, order[j], order[i], w, h, draw);
    }
  }
}
