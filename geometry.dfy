/** The bounding-box merger of main.py: the smallest axis-aligned rectangle
    that encloses every point of a list of point sets. */
module Geometry {
  import opened Outcomes

  /** A coordinate pair. Coordinates are only ever compared, so whole numbers
      stand in for the source's floating-point values. */
  datatype Point = Point(x: int, y: int)

  /** The polygon of one layout element. */
  type PointSet = seq<Point>

  /** The four corners that `merge_bounding_boxes` returns, in its order:
      (min_x, min_y), (min_x, max_y), (max_x, max_y), (max_x, min_y). */
  datatype Quad = Quad(c0: Point, c1: Point, c2: Point, c3: Point)

  /** Why a merge has no answer: the list of point sets is empty (Python's
      IndexError on `points_list[0]`), or the point set at `index` is empty
      (Python's ValueError from `min` of an empty sequence). */
  datatype GeometryError = NoPointSets | EmptyPointSet(index: nat)

  datatype Axis = X | Y

  function Coord(p: Point, a: Axis): int
  {
    match a
    case X => p.x
    case Y => p.y
  }

  function Min(a: int, b: int): int { if a <= b then a else b }

  function Max(a: int, b: int): int { if a <= b then b else a }

  /** Python's `min(point[a] for point in ps)`. */
  function Least(ps: seq<Point>, a: Axis): int
    requires ps != []
  {
    var n := |ps| - 1;
    if n == 0 then Coord(ps[0], a) else Min(Least(ps[..n], a), Coord(ps[n], a))
  }

  /** Python's `max(point[a] for point in ps)`. */
  function Greatest(ps: seq<Point>, a: Axis): int
    requires ps != []
  {
    var n := |ps| - 1;
    if n == 0 then Coord(ps[0], a) else Max(Greatest(ps[..n], a), Coord(ps[n], a))
  }

  /** `Least` is a lower bound of the coordinates and is one of them. */
  lemma {:induction false} LeastIsMinimum(ps: seq<Point>, a: Axis)
    requires ps != []
    ensures forall i :: 0 <= i < |ps| ==> Least(ps, a) <= Coord(ps[i], a)
    ensures exists i :: 0 <= i < |ps| && Least(ps, a) == Coord(ps[i], a)
  {
    var n := |ps| - 1;
    if n > 0 {
      LeastIsMinimum(ps[..n], a);
      assert forall i :: 0 <= i < n ==> ps[..n][i] == ps[i];
      var j :| 0 <= j < n && Least(ps[..n], a) == Coord(ps[..n][j], a);
      var w := if Least(ps[..n], a) <= Coord(ps[n], a) then j else n;
      assert Least(ps, a) == Coord(ps[w], a);
    } else {
      assert Least(ps, a) == Coord(ps[0], a);
    }
  }

  /** `Greatest` is an upper bound of the coordinates and is one of them. */
  lemma {:induction false} GreatestIsMaximum(ps: seq<Point>, a: Axis)
    requires ps != []
    ensures forall i :: 0 <= i < |ps| ==> Coord(ps[i], a) <= Greatest(ps, a)
    ensures exists i :: 0 <= i < |ps| && Greatest(ps, a) == Coord(ps[i], a)
  {
    var n := |ps| - 1;
    if n > 0 {
      GreatestIsMaximum(ps[..n], a);
      assert forall i :: 0 <= i < n ==> ps[..n][i] == ps[i];
      var j :| 0 <= j < n && Greatest(ps[..n], a) == Coord(ps[..n][j], a);
      var w := if Coord(ps[n], a) <= Greatest(ps[..n], a) then j else n;
      assert Greatest(ps, a) == Coord(ps[w], a);
    } else {
      assert Greatest(ps, a) == Coord(ps[0], a);
    }
  }

  /** Every point of every set, in order. */
  function Flatten(sets: seq<PointSet>): seq<Point>
  {
    if sets == [] then [] else Flatten(sets[..|sets| - 1]) + sets[|sets| - 1]
  }

  function Corners(minX: int, minY: int, maxX: int, maxY: int): Quad
  {
    Quad(Point(minX, minY), Point(minX, maxY), Point(maxX, maxY), Point(maxX, minY))
  }

  /** Point `p` lies in the closed rectangle spanned by `q`'s corners. */
  predicate Inside(p: Point, q: Quad)
  {
    q.c0.x <= p.x <= q.c2.x && q.c0.y <= p.y <= q.c2.y
  }

  /** The running extremes `min_x, min_y, max_x, max_y` of main.py:7-16. */
  datatype Bounds = Bounds(minX: int, minY: int, maxX: int, maxY: int)

  /** The extremes of one non-empty point set. */
  function SetBounds(ps: PointSet): Bounds
    requires ps != []
  {
    Bounds(Least(ps, X), Least(ps, Y), Greatest(ps, X), Greatest(ps, Y))
  }

  /** Folding the extremes `b` of one more set into the running extremes `a`. */
  function Widen(a: Bounds, b: Bounds): Bounds
  {
    Bounds(Min(a.minX, b.minX), Min(a.minY, b.minY), Max(a.maxX, b.maxX), Max(a.maxY, b.maxY))
  }

  /** The extremes after folding in the sets one by one, seeded from the
      first; the first empty set stops the fold with its index. */
  function FoldBounds(sets: seq<PointSet>): Result<Bounds, GeometryError>
    requires sets != []
  {
    var n := |sets| - 1;
    if n == 0 then
      if sets[0] == [] then Failure(EmptyPointSet(0)) else Success(SetBounds(sets[0]))
    else
      match FoldBounds(sets[..n])
      case Failure(err) => Failure(err)
      case Success(b) =>
        if sets[n] == [] then Failure(EmptyPointSet(n)) else Success(Widen(b, SetBounds(sets[n])))
  }

  /** What `merge_bounding_boxes(sets)` returns or raises: the corners of the
      folded extremes. */
  function Merge(sets: seq<PointSet>): Result<Quad, GeometryError>
  {
    if sets == [] then Failure(NoPointSets)
    else
      match FoldBounds(sets)
      case Failure(err) => Failure(err)
      case Success(b) => Success(Corners(b.minX, b.minY, b.maxX, b.maxY))
  }

  /** Point `j` of set `i` occurs in the flattening. */
  lemma {:induction false} FlattenContains(sets: seq<PointSet>, i: nat, j: nat)
    requires i < |sets| && j < |sets[i]|
    ensures sets[i][j] in Flatten(sets)
  {
    var n := |sets| - 1;
    if i < n {
      FlattenContains(sets[..n], i, j);
    }
  }

  /** Every point of the flattening comes from some set. */
  lemma {:induction false} FlattenFrom(sets: seq<PointSet>, p: Point)
    requires p in Flatten(sets)
    ensures exists i, j :: 0 <= i < |sets| && 0 <= j < |sets[i]| && sets[i][j] == p
  {
    var n := |sets| - 1;
    if p in Flatten(sets[..n]) {
      FlattenFrom(sets[..n], p);
      var i, j :| 0 <= i < n && 0 <= j < |sets[..n][i]| && sets[..n][i][j] == p;
      assert sets[i][j] == p;
    } else {
      var j :| 0 <= j < |sets[n]| && sets[n][j] == p;
    }
  }

  lemma {:induction false} FlattenSnoc(sets: seq<PointSet>, k: nat)
    requires k < |sets|
    ensures Flatten(sets[..k + 1]) == Flatten(sets[..k]) + sets[k]
  {
    assert sets[..k + 1][..k] == sets[..k];
  }

  lemma {:induction false} LeastOfConcat(a: seq<Point>, b: seq<Point>, ax: Axis)
    requires a != [] && b != []
    ensures Least(a + b, ax) == Min(Least(a, ax), Least(b, ax))
  {
    LeastIsMinimum(a + b, ax);
    LeastIsMinimum(a, ax);
    LeastIsMinimum(b, ax);
    var m := Least(a + b, ax);
    var i :| 0 <= i < |a + b| && m == Coord((a + b)[i], ax);
    if i < |a| {
      assert (a + b)[i] == a[i];
    } else {
      assert (a + b)[i] == b[i - |a|];
    }
    var ia :| 0 <= ia < |a| && Least(a, ax) == Coord(a[ia], ax);
    assert (a + b)[ia] == a[ia];
    var ib :| 0 <= ib < |b| && Least(b, ax) == Coord(b[ib], ax);
    assert (a + b)[|a| + ib] == b[ib];
  }

  lemma {:induction false} GreatestOfConcat(a: seq<Point>, b: seq<Point>, ax: Axis)
    requires a != [] && b != []
    ensures Greatest(a + b, ax) == Max(Greatest(a, ax), Greatest(b, ax))
  {
    GreatestIsMaximum(a + b, ax);
    GreatestIsMaximum(a, ax);
    GreatestIsMaximum(b, ax);
    var m := Greatest(a + b, ax);
    var i :| 0 <= i < |a + b| && m == Coord((a + b)[i], ax);
    if i < |a| {
      assert (a + b)[i] == a[i];
    } else {
      assert (a + b)[i] == b[i - |a|];
    }
    var ia :| 0 <= ia < |a| && Greatest(a, ax) == Coord(a[ia], ax);
    assert (a + b)[ia] == a[ia];
    var ib :| 0 <= ib < |b| && Greatest(b, ax) == Coord(b[ib], ax);
    assert (a + b)[|a| + ib] == b[ib];
  }

  /** Folding set `k` into the extremes of the sets before it gives the
      extremes of the sets up to and including it. */
  lemma {:induction false} FoldInSet(sets: seq<PointSet>, k: nat)
    requires k < |sets| && sets[k] != [] && Flatten(sets[..k]) != []
    ensures var before, after := Flatten(sets[..k]), Flatten(sets[..k + 1]);
      after != [] &&
      Least(after, X) == Min(Least(before, X), Least(sets[k], X)) &&
      Greatest(after, X) == Max(Greatest(before, X), Greatest(sets[k], X)) &&
      Least(after, Y) == Min(Least(before, Y), Least(sets[k], Y)) &&
      Greatest(after, Y) == Max(Greatest(before, Y), Greatest(sets[k], Y))
  {
    FlattenSnoc(sets, k);
    LeastOfConcat(Flatten(sets[..k]), sets[k], X);
    GreatestOfConcat(Flatten(sets[..k]), sets[k], X);
    LeastOfConcat(Flatten(sets[..k]), sets[k], Y);
    GreatestOfConcat(Flatten(sets[..k]), sets[k], Y);
  }

  /** The fold computes the extremes over all points of the sets, and it
      stops exactly at the first empty set. */
  lemma {:induction false} FoldBoundsSpec(sets: seq<PointSet>)
    requires sets != []
    ensures FoldBounds(sets).Success? <==> forall j :: 0 <= j < |sets| ==> sets[j] != []
    ensures FoldBounds(sets).Success? ==>
      Flatten(sets) != [] && FoldBounds(sets).value == SetBounds(Flatten(sets))
    ensures FoldBounds(sets).Failure? ==>
      FoldBounds(sets).error.EmptyPointSet? &&
      var i := FoldBounds(sets).error.index;
      i < |sets| && sets[i] == [] && forall j :: 0 <= j < i ==> sets[j] != []
  {
    var n := |sets| - 1;
    if n == 0 {
      assert Flatten(sets) == sets[0] by {
        assert sets[..0] == [];
      }
    } else {
      var pre := sets[..n];
      FoldBoundsSpec(pre);
      assert forall j :: 0 <= j < n ==> pre[j] == sets[j];
      if FoldBounds(pre).Success? && sets[n] != [] {
        FoldInSet(sets, n);
        assert sets[..n + 1] == sets;
      }
    }
  }

  /** A successful merge is the corners of the extremes of all points. */
  lemma {:induction false} MergeValue(sets: seq<PointSet>)
    requires Merge(sets).Success?
    ensures Flatten(sets) != []
    ensures var all := Flatten(sets);
      Merge(sets).value == Corners(Least(all, X), Least(all, Y), Greatest(all, X), Greatest(all, Y))
  {
    FoldBoundsSpec(sets);
  }

  /** Once the fold of a prefix fails, the fold of the whole list fails
      the same way. */
  lemma {:induction false} FoldFailurePersists(sets: seq<PointSet>, k: nat)
    requires 0 < k <= |sets| && FoldBounds(sets[..k]).Failure?
    ensures FoldBounds(sets) == FoldBounds(sets[..k])
    decreases |sets|
  {
    if k < |sets| {
      var n := |sets| - 1;
      assert sets[..n][..k] == sets[..k];
      FoldFailurePersists(sets[..n], k);
    } else {
      assert sets[..k] == sets;
    }
  }

  /** Merge fails exactly on an empty list or an empty point set, and names
      the first empty set. */
  lemma {:induction false} MergeFailure(sets: seq<PointSet>)
    ensures Merge(sets).Failure? <==> sets == [] || exists i :: 0 <= i < |sets| && sets[i] == []
    ensures Merge(sets) == Failure(NoPointSets) <==> sets == []
    ensures forall i: nat :: Merge(sets) == Failure(EmptyPointSet(i)) ==>
      i < |sets| && sets[i] == [] && forall j :: 0 <= j < i ==> sets[j] != []
  {
    if sets != [] {
      FoldBoundsSpec(sets);
    }
  }

  /** Every input point lies inside the merged rectangle. */
  lemma {:induction false} MergeEncloses(sets: seq<PointSet>, i: nat, j: nat)
    requires Merge(sets).Success?
    requires i < |sets| && j < |sets[i]|
    ensures Inside(sets[i][j], Merge(sets).value)
  {
    MergeValue(sets);
    FlattenContains(sets, i, j);
    var all := Flatten(sets);
    var k :| 0 <= k < |all| && all[k] == sets[i][j];
    LeastIsMinimum(all, X);
    LeastIsMinimum(all, Y);
    GreatestIsMaximum(all, X);
    GreatestIsMaximum(all, Y);
  }

  /** Each of the four bounds is attained by an input point, so no smaller
      rectangle encloses them all. */
  lemma {:induction false} MergeTight(sets: seq<PointSet>)
    requires Merge(sets).Success?
    ensures var q := Merge(sets).value;
      (exists i, j :: 0 <= i < |sets| && 0 <= j < |sets[i]| && sets[i][j].x == q.c0.x) &&
      (exists i, j :: 0 <= i < |sets| && 0 <= j < |sets[i]| && sets[i][j].y == q.c0.y) &&
      (exists i, j :: 0 <= i < |sets| && 0 <= j < |sets[i]| && sets[i][j].x == q.c2.x) &&
      (exists i, j :: 0 <= i < |sets| && 0 <= j < |sets[i]| && sets[i][j].y == q.c2.y)
  {
    MergeValue(sets);
    var all := Flatten(sets);
    var q := Merge(sets).value;
    LeastIsMinimum(all, X);
    LeastIsMinimum(all, Y);
    GreatestIsMaximum(all, X);
    GreatestIsMaximum(all, Y);
    var a :| 0 <= a < |all| && q.c0.x == all[a].x;
    FlattenFrom(sets, all[a]);
    var b :| 0 <= b < |all| && q.c0.y == all[b].y;
    FlattenFrom(sets, all[b]);
    var c :| 0 <= c < |all| && q.c2.x == all[c].x;
    FlattenFrom(sets, all[c]);
    var d :| 0 <= d < |all| && q.c2.y == all[d].y;
    FlattenFrom(sets, all[d]);
  }

  /** The corners come in the source's order and span a well-formed rectangle. */
  lemma {:induction false} MergeShape(sets: seq<PointSet>)
    requires Merge(sets).Success?
    ensures var q := Merge(sets).value;
      q.c0.x <= q.c2.x && q.c0.y <= q.c2.y &&
      q.c1 == Point(q.c0.x, q.c2.y) && q.c3 == Point(q.c2.x, q.c0.y)
  {
    MergeValue(sets);
    var all := Flatten(sets);
    LeastIsMinimum(all, X);
    LeastIsMinimum(all, Y);
    GreatestIsMaximum(all, X);
    GreatestIsMaximum(all, Y);
  }

  /** A single one-point set merges to four copies of that point. */
  lemma {:induction false} MergeSinglePoint(p: Point)
    ensures Merge([[p]]) == Success(Quad(p, p, p, p))
  {
    assert SetBounds([p]) == Bounds(p.x, p.y, p.x, p.y);
  }

  /** merge_bounding_boxes (main.py:6-18): seeds the extremes from the first
      set, then folds in each further set. */
  method MergeBoundingBoxes(pointsList: seq<PointSet>) returns (r: Result<Quad, GeometryError>)
    ensures r == Merge(pointsList)
  {
    if |pointsList| == 0 {
      return Failure(NoPointSets);
    }
    var first := pointsList[0];
    if first == [] {
      FoldFailurePersists(pointsList, 1);
      return Failure(EmptyPointSet(0));
    }
    var minX, maxX := Least(first, X), Greatest(first, X);
    var minY, maxY := Least(first, Y), Greatest(first, Y);
    var k := 1;
    while k < |pointsList|
      invariant 1 <= k <= |pointsList|
      invariant FoldBounds(pointsList[..k]) == Success(Bounds(minX, minY, maxX, maxY))
    {
      var points := pointsList[k];
      assert pointsList[..k + 1][..k] == pointsList[..k];
      if points == [] {
        FoldFailurePersists(pointsList, k + 1);
        return Failure(EmptyPointSet(k));
      }
      minX := Min(minX, Least(points, X));
      maxX := Max(maxX, Greatest(points, X));
      minY := Min(minY, Least(points, Y));
      maxY := Max(maxY, Greatest(points, Y));
      k := k + 1;
    }
    assert pointsList[..k] == pointsList;
    return Success(Corners(minX, minY, maxX, maxY));
  }
}
