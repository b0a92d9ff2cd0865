/**
 * Value types shared by both sketches: canvas points, the shape and pattern
 * names the sketches switch on, the slot permutation of a cycle, and the two
 * random primitives the sketches draw from (injected here as values).
 */
module Layout {

  /** A point on the canvas, in pixels. */
  datatype Point = Point(x: real, y: real)

  /** The p5 shape helpers a cycle hands out ('equilateral', 'rect', ...). */
  datatype Shape = Equilateral | Rect | Pentagon | Hexagon | Octagon

  /** The shape list a cycle shuffles, in the order the sketches write it. */
  const Shapes: seq<Shape> := [Equilateral, Rect, Pentagon, Hexagon, Octagon]

  /** Every position-pattern name that either sketch's getPosition switches on. */
  datatype Pattern = Grid | Diagonal | Wave | InvertedWave | Corners | Circle

  /** The slot numbers whose order a cycle shuffles. */
  const Slots: seq<int> := [0, 1, 2, 3, 4]

  /**
   * What sorting `t` with a random comparator can return: some permutation of
   * `t`. Which one is left to the caller.
   */
  predicate IsPermutationOf<T(==)>(s: seq<T>, t: seq<T>)
  {
    multiset(s) == multiset(t)
  }

  /** Sorting never changes a list's length. */
  lemma PermutationKeepsLength<T>(s: seq<T>, t: seq<T>)
    requires IsPermutationOf(s, t)
    ensures |s| == |t|
  {
    calc {
      |s|;
      |multiset(s)|;
      |multiset(t)|;
      |t|;
    }
  }

  /** No value occurs twice in s. */
  ghost predicate Distinct<T>(s: seq<T>)
  {
    forall i, j :: 0 <= i < j < |s| ==> s[i] != s[j]
  }

  /** The values s holds. */
  ghost function Elements<T>(s: seq<T>): set<T>
  {
    set x | x in s
  }

  /** Five slot numbers, no two the same: the shape of any shuffle of the five slots. */
  predicate IsSlotOrder(order: seq<int>)
  {
    && |order| == 5
    && (forall i :: 0 <= i < |order| ==> 0 <= order[i] < 5)
    && (forall i, j :: 0 <= i < j < |order| ==> order[i] != order[j])
  }

  /**
   * The slot orders are exactly the shuffles of [0, 1, 2, 3, 4]: a shuffle has
   * five entries, each a slot number, and never sends two cues of a cycle to
   * the same slot; and five distinct slot numbers are always some shuffle.
   */
  lemma SlotOrderIsPermutation(order: seq<int>)
    ensures IsPermutationOf(order, Slots) <==> IsSlotOrder(order)
  {
    if IsPermutationOf(order, Slots) {
      PermutationKeepsLength(order, Slots);
      forall k | 0 <= k < |order|
        ensures 0 <= order[k] < 5
      {
        assert order[k] in multiset(order);
        assert order[k] in Slots;
      }
      PermutationKeepsDistinct(Slots, order);
    }
    if IsSlotOrder(order) {
      forall k | 0 <= k < |order|
        ensures order[k] in Slots
      {
        assert order[k] == Slots[order[k]];
      }
      DistinctSameElements(order, Slots);
    }
  }

  /** Five shapes, no two the same: the shape of any shuffle of the shape list. */
  predicate IsShapeOrder(shapes: seq<Shape>)
  {
    |shapes| == |Shapes| && forall i, j :: 0 <= i < j < |shapes| ==> shapes[i] != shapes[j]
  }

  /**
   * The shape orders are exactly the shuffles of the shape list: a shuffle
   * hands each of the five shapes to exactly one slot, and five distinct
   * shapes are always some shuffle.
   */
  lemma ShapeOrderIsPermutation(shapes: seq<Shape>)
    ensures IsPermutationOf(shapes, Shapes) <==> IsShapeOrder(shapes)
  {
    if IsPermutationOf(shapes, Shapes) {
      PermutationKeepsLength(shapes, Shapes);
      PermutationKeepsDistinct(Shapes, shapes);
    }
    if IsShapeOrder(shapes) {
      forall k | 0 <= k < |shapes|
        ensures shapes[k] in Shapes
      {
        match shapes[k]
        case Equilateral => assert Shapes[0] == Equilateral;
        case Rect => assert Shapes[1] == Rect;
        case Pentagon => assert Shapes[2] == Pentagon;
        case Hexagon => assert Shapes[3] == Hexagon;
        case Octagon => assert Shapes[4] == Octagon;
      }
      DistinctSameElements(shapes, Shapes);
    }
  }

  /** Shuffling a list without repeats gives a list without repeats. */
  lemma PermutationKeepsDistinct<T>(s: seq<T>, t: seq<T>)
    requires Distinct(s)
    requires IsPermutationOf(t, s)
    ensures Distinct(t)
  {
    forall i, j | 0 <= i < j < |t|
      ensures t[i] != t[j]
    {
      NoRepeatCountsOnce(s, t[i]);
      RepeatCountsTwice(t, i, j);
    }
  }

  /**
   * Two lists of the same length without repeats, the first drawing its
   * values from the second, are permutations of each other.
   */
  lemma DistinctSameElements<T>(s: seq<T>, t: seq<T>)
    requires Distinct(s) && Distinct(t) && |s| == |t|
    requires forall i :: 0 <= i < |s| ==> s[i] in t
    ensures IsPermutationOf(s, t)
  {
    DistinctElements(s);
    DistinctElements(t);
    SubsetOfSameSize(Elements(s), Elements(t));
    forall x
      ensures multiset(s)[x] == multiset(t)[x]
    {
      NoRepeatCountsOnce(s, x);
      NoRepeatCountsOnce(t, x);
      assert x in s <==> x in Elements(s);
    }
  }

  /** A list without repeats holds as many values as it has entries. */
  lemma {:induction false} DistinctElements<T>(s: seq<T>)
    requires Distinct(s)
    ensures |Elements(s)| == |s|
  {
    if s != [] {
      var init, last := s[..|s| - 1], s[|s| - 1];
      assert s == init + [last];
      DistinctElements(init);
      assert last !in init;
      assert Elements(s) == Elements(init) + {last};
    }
  }

  /** A subset as large as its superset is the superset. */
  lemma {:induction false} SubsetOfSameSize<T>(a: set<T>, b: set<T>)
    requires a <= b && |a| == |b|
    ensures a == b
  {
    if a != {} {
      var x :| x in a;
      SubsetOfSameSize(a - {x}, b - {x});
    }
  }

  /** An element that occurs at two indices is counted at least twice. */
  lemma RepeatCountsTwice<T>(s: seq<T>, i: int, j: int)
    requires 0 <= i < j < |s|
    ensures s[i] == s[j] ==> multiset(s)[s[i]] >= 2
  {
    assert s == s[..i] + [s[i]] + s[i + 1..j] + [s[j]] + s[j + 1..];
  }

  /** In a list without repeats every value is counted at most once. */
  lemma {:induction false} NoRepeatCountsOnce<T>(s: seq<T>, x: T)
    requires Distinct(s)
    ensures multiset(s)[x] <= 1
  {
    if s != [] {
      var init, last := s[..|s| - 1], s[|s| - 1];
      assert s == init + [last];
      NoRepeatCountsOnce(init, x);
      if x == last {
        assert x !in init;
      }
    }
  }

  /**
   * p5's random(lo, hi) for a unit draw r, which the runtime takes from [0, 1):
   * lo + r * (hi - lo).
   */
  function RandomIn(lo: real, hi: real, r: real): (v: real)
    ensures UnitDraw(r) && lo <= hi ==> lo <= v <= hi
    ensures UnitDraw(r) && lo < hi ==> v < hi
  {
    var d := hi - lo;
    ScaledDrawBounds(r, d);
    lo + r * d
  }

  /** A value p5's random() can return. */
  predicate UnitDraw(r: real)
  {
    0.0 <= r < 1.0
  }

  lemma ScaledDrawBounds(r: real, d: real)
    ensures UnitDraw(r) && 0.0 <= d ==> 0.0 <= r * d <= d
    ensures UnitDraw(r) && 0.0 < d ==> r * d < d
  {
    if UnitDraw(r) && 0.0 <= d {
      assert 0.0 <= r * d;
      assert r * d <= 1.0 * d;
    }
  }

  /** Two unit draws: the point p5's random() calls would pick in a unit square. */
  predicate UnitPoint(draw: Point)
  {
    UnitDraw(draw.x) && UnitDraw(draw.y)
  }

  /**
   * Math.sin((k / 4) * TWO_PI) for k in 0..4: whole quarter turns, whose sine is
   * exactly 0, 1, 0, -1, 0.
   */
  function SinQuarter(k: int): real
    requires 0 <= k < 5
  {
    if k == 1 then 1.0 else if k == 3 then -1.0 else 0.0
  }

  /** Math.cos((k / 4) * TWO_PI) for k in 0..4: exactly 1, 0, -1, 0, 1. */
  function CosQuarter(k: int): real
    requires 0 <= k < 5
  {
    if k == 0 || k == 4 then 1.0 else if k == 2 then -1.0 else 0.0
  }

  /** getPosition's fallback: random(w * 0.1, w * 0.9) and random(h * 0.1, h * 0.9). */
  function RandomPoint(w: real, h: real, draw: Point): Point
  {
    Point(RandomIn(w * 0.1, w * 0.9, draw.x), RandomIn(h * 0.1, h * 0.9, draw.y))
  }

  /** The inset region [0.1w, 0.9w] x [0.1h, 0.9h] the position tables stay in. */
  predicate Inside(p: Point, w: real, h: real)
  {
    0.1 * w <= p.x <= 0.9 * w && 0.1 * h <= p.y <= 0.9 * h
  }

  /** Math.min of two reals. */
  function Min(a: real, b: real): (m: real)
    ensures m <= a && m <= b
    ensures m == a || m == b
  {
    if a < b then a else b
  }

  /** The random fallback position always lands in the inset region. */
  lemma RandomPointInside(w: real, h: real, draw: Point)
    requires 0.0 <= w && 0.0 <= h
    requires UnitPoint(draw)
    ensures Inside(RandomPoint(w, h, draw), w, h)
  {
    assert w * 0.1 <= w * 0.9 && h * 0.1 <= h * 0.9;
  }
}
