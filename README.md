# Polygons No. 4 and No. 5: a Dafny model of the cue and shape bookkeeping

Two p5 sketches draw geometric shapes in time with a song. Each one turns the
notes of a MIDI track into numbered cues. Each cue adds one shape to a layer,
and the cues run in cycles of five.

- PolygonsNo4 has two layers. Track-1 cues add growing `Polygon`s and
  track-2 cues add decaying `BubblePolygons` bursts.
- PolygonsNo5 has a single polygon layer.

At the first cue of a polygon cycle (track 1) the sketch:

- empties the polygon layer;
- shuffles the five shape names;
- draws a position pattern (grid, diagonal, wave, ...);
- shuffles the slot order `[0..4]`;
- in No4 only, from the second cycle on, turns `hueOffset` by 40 degrees
  mod 360 (and restyles the page's accent colours with it).

The i-th cue of the cycle takes slot `positionOrder[i]` of the pattern. In
No4 the polygon layer uses a complementary table, which mirrors or rearranges
the table the bubble layer uses.

No4's track-2 cues are numbered separately, by their own `scheduleCueSet`
call. At the first cue of a bubble cycle `executeTrack2` only empties the
bubble layer. It places each burst with whatever pattern, slot order and
shapes track 1 last drew. Before track 1's first cue it uses the random
fallback position and the default pentagon. A bubble cycle can therefore
straddle a track-1 cycle start and mix two slot orders.

The model covers `scheduleCueSet`, the cue handlers and the pattern and
position logic of both sketches, plus the two shape classes. Randomness is
passed in as values:

- `p.random(lo, hi)` is `lo + r * (hi - lo)` for a unit draw `r` in [0, 1);
- a sort with a random comparator is a caller-supplied list;
- `Math.random()` in the `Polygon` constructor is a caller-supplied shape.

`Layout.SlotOrderIsPermutation` and `Layout.ShapeOrderIsPermutation` prove
that the lists the sketches accept (five entries, no repeats) are exactly the
permutations of `[0..4]` and of the shape list.

Files, one module each:

- `wrappers.dfy`: `Option`.
- `layout.dfy`: the shared vocabulary. It holds points, shapes, patterns, the
  slot and shape orders, and the random and trigonometric helpers. `sin` and
  `cos` of whole quarter turns are exact.
- `timeline.dfy`: `scheduleCueSet` as a loop over an `array<Note>`, proved
  against prefix functions. It also holds the tick-to-millisecond conversion.
- `cycle.dfy`: the arithmetic of the five-cue cycle. This covers the slot
  index, layer size, hue offset, pattern pick and shape lookup.
- `polygon.dfy`: `class Polygon`, with `update`, `draw` and `drawShape`. The
  drawing methods return the list of rings they stroke.
- `bubble_polygons.dfy`: `class BubblePolygons`, whose sub-shapes are an
  `array` updated in place by `draw`. `draw` returns the outlines it strokes.
- `polygons_no4.dfy`, `polygons_no5.dfy`: each sketch's position tables and a
  `class Sketch` holding the fields the handlers set on `p`. The handlers are
  methods on it.

`getPosition` and `getComplementaryPosition` are the functions
`Sketch.GetPosition` and `Sketch.GetComplementaryPosition`. They apply
`Position` and `ComplementaryPosition` to `positionOrder[index]`, and the
lemmas about those two tables carry their properties.

Three facts about the code shape the model:

- Chord notes do not share a cue number. Only the first note of a run of equal
  ticks gets one, and the others get none.
- A later repeat of an earlier tick that is not adjacent to it gets a new cue,
  because the loop compares with the last scheduled ticks only.
- A duration of zero or fewer ticks is not raised to a minimum. In No5 it
  reaches the `Polygon` constructor as it is, which then uses its default of 3
  nested copies. In No4 the duration fills the `isLast` parameter, and the
  duration parameter receives the positive random maximum size. A zero-tick
  No4 polygon therefore has `isLast` false and, on a canvas whose shorter side
  is at most 3000 pixels, one nested copy.

## Model

| member | source | states |
|---|---|---|
| Timeline.ScheduleCueSet | src/PolygonsNo4.js:126-139 | The cues handed to the transport are `Schedule` of the original notes, in note order. Every note afterwards is `Annotated`: it carries a cue number exactly when it was scheduled and is otherwise untouched. |
| Timeline.LastTicksIsPreviousNote | src/PolygonsNo4.js:127-137 | `lastTicks` after i notes is the ticks of note i-1 (-1 before any), because a skipped note repeats `lastTicks`. |
| Timeline.LastScheduled | src/PolygonsNo4.js:132-135 | It returns the most recently scheduled note before i, if any. That note is scheduled, no later note before i is, and `None` means none is. |
| Timeline.LastTicksOfLastScheduled | src/PolygonsNo4.js:127-135 | `lastTicks` is the ticks of the most recently scheduled note, or -1 before the first. |
| Timeline.ScheduledIffTicksDiffer | src/PolygonsNo4.js:132-135 | With poly mode off, a note is scheduled if and only if its ticks differ from those of the most recently scheduled note. The first note is always scheduled. |
| Timeline.ChordsCollapse | src/PolygonsNo4.js:132-135 | With poly mode off, a note is scheduled if and only if it opens a run of equal ticks: one cue per run, carried by its first note. |
| Timeline.CuesNumberedConsecutively | src/PolygonsNo5.js:83-96 | In either sketch's copy of `scheduleCueSet` (No4's is the same text), the k scheduled cues carry the numbers 1, 2, ..., k, in order and without gaps, where k is the number of scheduled notes. Each fires at its own note's time. |
| Timeline.FiredCountGrows | src/PolygonsNo4.js:133-136 | The count of scheduled notes never decreases along the track. |
| Timeline.CueNumbersFollowNoteOrder | src/PolygonsNo4.js:133-136 | Of two scheduled notes, the earlier one carries the smaller cue number. |
| Timeline.PolyModeSchedulesEveryNote | src/PolygonsNo4.js:129-132 | With poly mode on, every note is scheduled, so there are as many cues as notes. An empty track gives none. |
| Timeline.ChordExample | src/PolygonsNo4.js:126-139 | Ticks [0, 0, 15360, 30720] give three cues, numbered 1, -, 2, 3. The second note of the chord gets no number. |
| Timeline.DurationMs | src/PolygonsNo4.js:168-169 | `(durationTicks / PPQ) * (60000 / bpm)` with PPQ = 15360. Its properties are `DurationRoundTrip` (inverse `TicksIn`), `QuarterNoteIsOneBeat`, `WholeNoteExample` and `DurationZeroIffNoTicks`. |
| Timeline.DurationRoundTrip | src/PolygonsNo4.js:168-169 | Converting ticks to milliseconds and back returns the ticks. |
| Timeline.QuarterNoteIsOneBeat | src/PolygonsNo4.js:168-169 | PPQ ticks last exactly one beat, 60000 / bpm ms. |
| Timeline.WholeNoteExample | src/PolygonsNo5.js:119-120 | 61440 ticks at 104 bpm last 30000/13 ms, about 2307.69. |
| Timeline.DurationZeroIffNoTicks | src/PolygonsNo4.js:169 | The duration in ms is 0 if and only if the note has 0 ticks. |
| Cycle.SlotIndex | src/PolygonsNo4.js:170 | `(currentCue - 1) % 5` is in [0, 4]. It is 0 if and only if the cue starts a cycle, and 4 if and only if `currentCue % 5 == 0`. |
| Cycle.LayerSizeAfterCues | src/PolygonsNo5.js:108-132 | Firing cues 1..n in order on an empty layer leaves `(n - 1) % 5 + 1` shapes, between 1 and 5. |
| Cycle.NextHue | src/PolygonsNo4.js:157-158 | The hue offset after one track-1 cue: +40 mod 360 on a cycle start after the first, unchanged otherwise. `NextHueKeepsOffset` and `HueAfterCues` carry its properties. |
| Cycle.NextHueKeepsOffset | src/PolygonsNo4.js:157-158 | A cue keeps `hueOffset` a multiple of 40 in [0, 360). It changes it if and only if the cue starts a cycle after the first. |
| Cycle.HueAfterCues | src/PolygonsNo4.js:146-158 | After cue n the hue offset is `40 * ((n - 1) / 5) mod 360`: one turn of 40 per completed cycle. |
| Cycle.PickPattern | src/PolygonsNo4.js:240-242 | `patterns[floor(random() * length)]` is always one of the listed patterns. |
| Cycle.EveryPatternCanBePicked | src/PolygonsNo4.js:241-242 | Every listed pattern is picked by some unit draw. |
| Cycle.ShapeAt | src/PolygonsNo4.js:204 | `currentCycleShapes[index]` is defined if and only if the index is in range, and is then that entry. What the lookup gives a cycle is stated by `CycleShapesDistinct` and `CycleUsesEveryShape`. |
| Cycle.CycleShapesDistinct | src/PolygonsNo5.js:128-130 | Once a cycle has shuffled its shapes, every one of its five cues finds a shape for its slot index, and no two cues of the cycle get the same shape. |
| Cycle.CycleUsesEveryShape | src/PolygonsNo5.js:112-113 | A shuffled shape list gives each of the five shapes to some cue of the cycle. |
| Layout.SlotOrderIsPermutation | src/PolygonsNo4.js:245 | A list is a shuffle of [0, 1, 2, 3, 4] if and only if it has five entries, all slot numbers, none repeated. |
| Layout.ShapeOrderIsPermutation | src/PolygonsNo4.js:153-154 | A list is a shuffle of the five shape names if and only if it has five entries and none is repeated. |
| Layout.RandomIn | src/PolygonsNo4.js:191 | `p.random(lo, hi)` for a unit draw lies in [lo, hi], and below hi when lo < hi. |
| Layout.RandomPointInside | src/PolygonsNo4.js:293-295 | The random fallback position lies in [0.1w, 0.9w] x [0.1h, 0.9h]. |
| Polygons.RingsShape | src/classes/Polygon.js:46-61 | `drawShape(s)` strokes at most 7 rings. Each has positive size, lies k steps of 16 from s with colour index 3 - k in [0, 3], and the rings run from the innermost outwards. |
| Polygons.RingsOfLargeShape | src/classes/Polygon.js:50-56 | For s > 48, all seven rings s - 48 .. s + 48 are drawn, with colour indices 0, 1, 2, 3, 2, 1, 0. |
| Polygons.NonPositiveSizeDrawsNothing | src/classes/Polygon.js:47 | For every size s <= 0, `drawShape(s)` draws nothing. |
| Polygons.EarlyReturnExample | src/classes/Polygon.js:47-52 | The early return matters: at s = -10 the outer offsets alone would give rings of size 6, 22 and 38, yet nothing is drawn. |
| Polygons.RingsComplete | src/classes/Polygon.js:50-56 | For s > 0, every offset i in -3..3 whose ring size s + 16 i is positive has its ring drawn, with colour index 3 - abs(i). |
| Polygons.RingsExactly | src/classes/Polygon.js:46-61 | A ring is drawn if and only if s > 0 and the ring belongs to some offset i in -3..3 with positive size s + 16 i and colour index 3 - abs(i). |
| Polygons.NestedCount | src/classes/Polygon.js:12-22 | `nestedCount` is at least 1. It is 3 unless both the duration is positive and the bpm is set. |
| Polygons.NestedCountSpansDuration | src/classes/Polygon.js:12-18 | For a positive duration, `nestedCount` is the number of whole half-bars the duration spans, but at least one. |
| Polygons.SizeGrowsLinearly | src/classes/Polygon.js:31-34 | After n updates the size is n times the step (96 for the last polygon, 16 otherwise): strictly increasing and unbounded. |
| Polygons.CopySizesEntries | src/classes/Polygon.js:36-44 | The sizes `draw` uses are `size`, then `size / k` for k = 1..nestedCount. |
| Polygons.DrawCallsEntries | src/classes/Polygon.js:36-44 | `draw` makes nestedCount + 1 `drawShape` calls: the first on `size`, the k-th nested one on `size / k`. |
| Polygons.Polygon.constructor | src/classes/Polygon.js:4-29 | A new polygon has size 0, the given position and `isLast`, `nestedCount` as above, and the randomly picked shape. |
| Polygons.Polygon.Update | src/classes/Polygon.js:31-34 | `size` grows by exactly 96 when `isLast`, by 16 otherwise. |
| Polygons.Polygon.Draw | src/classes/Polygon.js:36-44 | It returns the rings of each `drawShape` call, in call order, over the sizes above. |
| Polygons.Polygon.DrawShape | src/classes/Polygon.js:46-61 | It returns exactly the rings `Rings(s)` that the lemmas above describe. |
| Bubbles.SubShapeCount | src/classes/BubblePolygons.js:9-12 | A count drawn from [2, 8) makes the loop run ceil(count) times, between 2 and 8. |
| Bubbles.InitialSize | src/classes/BubblePolygons.js:17 | `parseInt(random(16, 64))` is an integer in [16, 63], the floor of the draw. |
| Bubbles.Decayed | src/classes/BubblePolygons.js:34-52 | One draw's effect on one sub-shape: a live one moves by minus the jitter and shrinks, a dead one is kept. `DecayedBounds` bounds the change. |
| Bubbles.Decay | src/classes/BubblePolygons.js:30-54 | One draw's effect on the whole array, entry by entry. `DeadStaysDead`, `SizeAfterDraws` and `BurstDiesOut` are stated about it, and `BubblePolygons.Draw` is proved to perform it. |
| Bubbles.BubblePolygons.IsActive | src/classes/BubblePolygons.js:57-60 | Some sub-shape has a positive size. The constructor ensures it holds for a new burst. `DeadStaysDead` shows it stays false once false, `BurstDiesOut` that it becomes false, and `OutlinesPerLiveShape` that it fails exactly when a draw strokes nothing. |
| Bubbles.DecayedBounds | src/classes/BubblePolygons.js:29-52 | One draw shrinks a live sub-shape by an amount in [0.1, 0.4) and moves it at most 20 along each axis. A dead sub-shape stays exactly as it was. |
| Bubbles.DeadStaysDead | src/classes/BubblePolygons.js:34-60 | Once no sub-shape is live, a draw changes nothing, so `isActive` stays false. |
| Bubbles.OutlinesPerLiveShape | src/classes/BubblePolygons.js:34-48 | A draw strokes exactly three outlines per live sub-shape, and none once all are dead. |
| Bubbles.SizeAfterDraws | src/classes/BubblePolygons.js:52 | After n draws a sub-shape's size is at most max(initial - 0.1 n, 0). |
| Bubbles.BurstDiesOut | src/classes/BubblePolygons.js:52-60 | 630 draws bring every sub-shape (initial size at most 63) to size 0 or below, so every burst ends inactive. |
| Bubbles.BubblePolygons.constructor | src/classes/BubblePolygons.js:2-26 | It builds ceil(count) sub-shapes, all at the start point, each with its integer initial size. The burst starts active. |
| Bubbles.BubblePolygons.Draw | src/classes/BubblePolygons.js:28-55 | The array afterwards is `Decay` of the old one: same length, live entries shrunk and moved, dead ones untouched. The outlines are size (filled), size/2 (white) and size/4 for each live sub-shape, in array order. |
| PolygonsNo4.Position | src/PolygonsNo4.js:254-296 | getPosition's table from (pattern, slot, w, h) to a point, with the random fallback for an unset pattern. `PositionInside` and `PositionsDistinct` carry its properties. |
| PolygonsNo4.ComplementaryPosition | src/PolygonsNo4.js:307-349 | getComplementaryPosition's table. `ComplementaryPositionInside` and `ComplementaryPositionsDistinct` carry its properties, and `DiagonalMirrorsX`, `WavesMirrorY`, `GridSwapsRows` and `CornersBecomeSideMidpoints` relate it to `Position`. |
| PolygonsNo4.Sketch.GetPosition | src/PolygonsNo4.js:248-252 | `Position` at slot `positionOrder[index]` of the current pattern. `CycleSpreadsOverDistinctPoints` is stated about that composition. |
| PolygonsNo4.Sketch.GetComplementaryPosition | src/PolygonsNo4.js:301-305 | `ComplementaryPosition` at slot `positionOrder[index]` of the current pattern. |
| PolygonsNo4.PositionInside | src/PolygonsNo4.js:248-299 | Every slot of every pattern, and the random fallback, lies in [0.1w, 0.9w] x [0.1h, 0.9h]. |
| PolygonsNo4.ComplementaryPositionInside | src/PolygonsNo4.js:301-352 | The same holds for the complementary table. |
| PolygonsNo4.PositionsDistinct | src/PolygonsNo4.js:255-291 | On a non-empty canvas, a chosen pattern puts its five slots at five different points. |
| PolygonsNo4.ComplementaryPositionsDistinct | src/PolygonsNo4.js:308-344 | The same holds for the complementary table. |
| PolygonsNo4.DiagonalMirrorsX | src/PolygonsNo4.js:318-322 | On the diagonal, the complementary point of a slot is the position mirrored about the vertical midline: `x' = w - x`, `y' = y`. |
| PolygonsNo4.WavesMirrorY | src/PolygonsNo4.js:324-334 | For the wave and the inverted wave, the complementary point mirrors y about the horizontal midline. |
| PolygonsNo4.GridSwapsRows | src/PolygonsNo4.js:308-316 | The complementary grid swaps the two rows of the grid, with slots shifted by three. |
| PolygonsNo4.CornersBecomeSideMidpoints | src/PolygonsNo4.js:336-343 | The complementary corner points are the centre and the midpoints of the four sides of the corner square. |
| PolygonsNo4.PolygonSizeRange | src/PolygonsNo4.js:173-189 | The minimum and maximum polygon sizes, from the shorter canvas side, the note's bar count and the pattern's factor. `SizeRangeBounds` and `SizeRangeGrowsWithDuration` carry its properties. |
| PolygonsNo4.PolygonMaxSize | src/PolygonsNo4.js:191 | `p.random(minSize, maxSize)`: by `RandomIn` it lies in the range. `PolygonsNo4HaveOneNestedCopy` gives what it does as the constructor's duration. |
| PolygonsNo4.SizeRangeBounds | src/PolygonsNo4.js:173-189 | The size range is never empty and is always 15% of the shorter side wide, times the pattern factor. It lies within 30%..75% of that side, times the factor. |
| PolygonsNo4.SizeRangeGrowsWithDuration | src/PolygonsNo4.js:173-189 | A longer note never gets a smaller minimum or maximum size. |
| PolygonsNo4.PolygonsNo4HaveOneNestedCopy | src/PolygonsNo4.js:196-202 | The random maximum size is passed as the duration. So on a canvas whose shorter side is at most 3000, every No4 polygon has exactly one nested copy. |
| PolygonsNo4.PolygonsNo4GrowthStep | src/PolygonsNo4.js:196-202 | The duration is passed as `isLast`. So a No4 polygon grows by 96 if and only if its note has non-zero length. |
| PolygonsNo4.BubbleHue | src/PolygonsNo4.js:227 | `((midi % 12) * 30 + currentCue * 17) % 360`. `BubbleHueProperties` carries its properties. |
| PolygonsNo4.BubbleHueProperties | src/PolygonsNo4.js:227 | The bubble hue is in [0, 360), depends only on the pitch class, and turns by 17 degrees from cue to cue. |
| PolygonsNo4.PlacePolygon | src/PolygonsNo4.js:196-204 | It makes a fresh polygon at the position, with size 0, `nestedCount` computed from the value passed as the duration, and the cycle's shape replacing the random one. |
| PolygonsNo4.Sketch.constructor | src/PolygonsNo4.js:141-146 | The state starts with empty layers, no shapes, no pattern, the identity slot order and hue 0. |
| PolygonsNo4.Sketch.SelectPositionPattern | src/PolygonsNo4.js:240-246 | It sets the pattern picked by the unit draw and the shuffled slot order. |
| PolygonsNo4.Sketch.BeginCycle | src/PolygonsNo4.js:151-166 | At a cycle start it empties the polygon layer, takes the shuffled shapes and draws a new pattern and order. Other cues change none of these. The hue follows `NextHue`, and `Valid` is kept. |
| PolygonsNo4.Sketch.ExecuteTrack1 | src/PolygonsNo4.js:148-206 | The layer becomes `LayerSize` long, emptied first at a cycle start. The one fresh polygon added sits at the complementary position of the cue's slot, with `isLast` = (duration != 0), the nested count of the random maximum size and the cycle's shape. The bubble layer is unchanged and `Valid` is kept. |
| PolygonsNo4.Sketch.ExecuteTrack2 | src/PolygonsNo4.js:210-234 | The bubble layer is emptied at a cycle start and gains one fresh, active burst at the position of the cue's slot. The burst gets the pitch-and-cue hue and the cycle's shape, or pentagon when there is none. It has `ceil(count)` sub-shapes, each at the burst's start point with the floored size of its own draw. No other field changes. |
| PolygonsNo4.PlacedBurstDiesOut | src/PolygonsNo4.js:229-233 | A burst with the sub-shapes `executeTrack2` gives it is dead after 630 valid draws, whatever the jitter. |
| PolygonsNo4.CycleSpreadsOverDistinctPoints | src/PolygonsNo4.js:245-249 | Two different slot indices placed under one shuffled slot order and one chosen pattern land at different points, on either table. This covers the five polygons of a track-1 cycle. It covers bubble bursts only while they share that order, since a bubble cycle can straddle a track-1 cycle start. |
| PolygonsNo5.Position | src/PolygonsNo5.js:151-202 | getPosition's table, the circle branch included. `PositionInside`, `TableInside`, `CircleInside` and `PositionsDistinct` carry its properties. |
| PolygonsNo5.Sketch.GetPosition | src/PolygonsNo5.js:143-149 | `Position` at slot `positionOrder[index]` of the current pattern. |
| PolygonsNo5.PositionInside | src/PolygonsNo5.js:143-205 | Every slot of every pattern, the circle and the random fallback included, lies in [0.1w, 0.9w] x [0.1h, 0.9h]. |
| PolygonsNo5.TableInside | src/PolygonsNo5.js:160-196 | The grid, diagonal, wave and corner tables keep every slot in the inset region. |
| PolygonsNo5.CircleInside | src/PolygonsNo5.js:152-158 | The circle of radius 30% of the shorter side around the centre stays in the inset region. |
| PolygonsNo5.PositionsDistinct | src/PolygonsNo5.js:160-196 | On a non-empty canvas, a chosen pattern puts its five slots at five different points. |
| PolygonsNo5.CircleIsNeverPicked | src/PolygonsNo5.js:135-158 | `selectPositionPattern` never picks the circle, so that branch of `getPosition` is unreachable. |
| PolygonsNo5.Sketch.constructor | src/PolygonsNo5.js:98-103 | The state starts with an empty layer, no shapes, no pattern and the identity slot order. |
| PolygonsNo5.Sketch.SelectPositionPattern | src/PolygonsNo5.js:135-141 | It sets the pattern picked by the unit draw and the shuffled slot order. |
| PolygonsNo5.Sketch.BeginCycle | src/PolygonsNo5.js:108-117 | At a cycle start it empties the layer, takes the shuffled shapes and draws a new pattern and order. Other cues change none of these, and `Valid` is kept. |
| PolygonsNo5.Sketch.ExecuteTrack1 | src/PolygonsNo5.js:105-133 | The layer becomes `LayerSize` long, emptied first at a cycle start. It gains one fresh polygon at the position of the cue's slot. The polygon has `isLast` exactly when the slot index is 4, the note's nested count and the cycle's shape. |
| PolygonsNo5.NestedCopiesFollowDuration | src/PolygonsNo5.js:119-126 | A note of t > 0 ticks gets max(1, t div 30720) nested copies, one per whole half-bar. A note of t <= 0 ticks gets 3. |

## Left out

- Rendering is not modelled: the p5 drawing calls, the `_renderer` swapping, `clear` and `image`. The frame loop `p.draw` is left out with them, including No4's `filter(isActive)` and its call to `bubble.setOpacity`, a method `BubblePolygons` does not define. Draw calls are modelled only as the ring and outline records `drawShape` and `BubblePolygons.draw` return.
- `executeTrack3` is not modelled. It only stores a control value used by that rendering code.
- Audio and MIDI are not modelled: loading, `addCue` firing and play/pause are host I/O. `ScheduleCueSet` returns the cues it would register.
- The DOM and CSS updates on a hue change (src/PolygonsNo4.js:162-164) and the `bubbleLayer.clear()` at a cycle start are rendering and UI side effects.
- Colours are not modelled: `ColorGenerator`, `p.color`, and the sub-shape colours with their two random draws. This is an unseen foreign library, so a ring is modelled by its index into the four-colour palette.
- PolygonsNo5.Position: the circle's cos and sin of fifths of a turn are irrational. They are supplied as a point with both coordinates in [-1, 1], not as exact values on the unit circle. The branch is unreachable anyway (`CircleIsNeverPicked`).
- Floating point is not modelled. Arithmetic is on `real`, with `.Floor` for `Math.floor` and `parseInt`. The wave tables use exact `sin`/`cos` of whole quarter turns, which floating point only approximates.
- The shuffles are not modelled as distributions. A random-comparator sort is any permutation the caller supplies, and the quality of the shuffle and of `p.random` is left out. p5's swap of reversed `random(lo, hi)` bounds is not modelled either: every call here has lo <= hi.
- Note tick counts are `nat`, since MIDI ticks are never negative. The `-1` sentinel for `lastTicks` therefore never matches a note.
