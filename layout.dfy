/**
 * The auto-layout of src/Gauges.cs: the comparator that orders the visible
 * gauges into reading order, and the walk that places them one after the
 * other, keeping a line start `x0` and a current `x` and `y`.
 */
module Layout {
  import opened Extensions
  import opened GaugeModel

  /** The gap between two gauges of a layout, in pixels. */
  const LAYOUT_GAP: int := 8

  /** The cell and neighbourhood sizes derived from the base gauge size. */
  datatype Metrics = Metrics(cellX: int, cellY: int, rangeX: int, rangeY: int)

  /**
   * LAYOUT_CELL_* is the base gauge size plus the gap, LAYOUT_RANGE_* one and a
   * half cells, rounded down.
   */
  function MetricsFor(width: int, height: int): (mt: Metrics)
    requires width > 0 && height > 0
    ensures mt.cellX == width + LAYOUT_GAP && mt.cellY == height + LAYOUT_GAP
    ensures 2 * mt.rangeX <= 3 * mt.cellX < 2 * mt.rangeX + 2
    ensures 2 * mt.rangeY <= 3 * mt.cellY < 2 * mt.rangeY + 2
    ensures mt.cellX < mt.rangeX && mt.cellY < mt.rangeY
    ensures ValidMetrics(mt)
  {
    Metrics(width + LAYOUT_GAP, height + LAYOUT_GAP, 3 * (width + LAYOUT_GAP) / 2, 3 * (height + LAYOUT_GAP) / 2)
  }

  predicate ValidMetrics(mt: Metrics)
  {
    mt.cellX > 0 && mt.cellY > 0 && mt.rangeX > 0 && mt.rangeY > 0
  }

  /** `a.CompareTo(b)` on integers: -1, 0 or 1. */
  function CompareTo(a: int, b: int): int
  {
    if a < b then -1 else if a > b then 1 else 0
  }

  /** Two gauges share a row when the top of one lies within the height of the other. */
  predicate SameRow(l: Gauge, r: Gauge)
  {
    In(l.y, r.y, r.y + r.height) || In(r.y, l.y, l.y + l.height)
  }

  /** The sort comparator: by x within a row, by y otherwise. */
  function Compare(l: Gauge, r: Gauge): (c: int)
    ensures -1 <= c <= 1
    ensures SameRow(l, r) ==> (c < 0 <==> l.x < r.x) && (c == 0 <==> l.x == r.x)
    ensures !SameRow(l, r) ==> (c < 0 <==> l.y < r.y) && (c == 0 <==> l.y == r.y)
  {
    if In(l.y, r.y, r.y + r.height) || In(r.y, l.y, l.y + l.height) then CompareTo(l.x, r.x)
    else CompareTo(l.y, r.y)
  }

  /** Swapping the operands of the comparator negates its answer. */
  lemma CompareAntisymmetric(l: Gauge, r: Gauge)
    ensures Compare(l, r) == -Compare(r, l)
  {
  }

  /**
   * The comparator is not transitive: three gauges of height 10 can each
   * compare below the next one round a cycle, so the sorted order of the
   * visible gauges is not determined by the comparator alone.
   */
  lemma CompareNotTransitive()
    ensures var a, b, c := Gauge(0, 16, 10, 10, true), Gauge(10, 8, 10, 10, true), Gauge(20, 0, 10, 10, true);
      Compare(a, b) < 0 && Compare(b, c) < 0 && Compare(c, a) < 0
  {
  }

  /** The walk's state: line start, current x and current y. */
  datatype Walk = Walk(x0: int, x: int, y: int)

  /** The initial state; x < 0 marks that the next gauge seeds the walk. */
  const START: Walk := Walk(-1, -1, -1)

  /** The walk's state after gauge g; for a gauge that does not seed it, (x, y) is where g goes. */
  function Step(w: Walk, g: Gauge, mt: Metrics, screenWidth: int): (r: Walk)
    requires ValidMetrics(mt)
    // a gauge met while x < 0 seeds the walk and stays where it is
    ensures w.x < 0 ==> r == Walk(g.x, g.x, g.y)
    // a gauge below the current line starts a new line further down, at the line start
    ensures w.x >= 0 && g.y > w.y + g.height ==>
              r.x == r.x0 && r.y > w.y
              && (In(g.x, w.x0 - mt.rangeX, w.x0 + mt.rangeX) ==> r.x0 == w.x0)
              && (!In(g.x, w.x0 - mt.rangeX, w.x0 + mt.rangeX) ==> r.x0 == g.x)
              && (g.y > w.y + mt.rangeY ==> r.y == g.y)
              && (g.y <= w.y + mt.rangeY ==> r.y == w.y + mt.cellY)
    // a gauge on the current line keeps the line start
    ensures w.x >= 0 && g.y <= w.y + g.height ==> r.x0 == w.x0
    // next to the running x it moves one cell to the right, unless that overflows the screen
    ensures w.x >= 0 && g.y <= w.y + g.height && In(g.x, w.x, w.x + mt.rangeX) ==>
              if w.x + mt.cellX + g.width > screenWidth then r == Walk(w.x0, w.x0, w.y - mt.cellY)
              else r == Walk(w.x0, w.x + mt.cellX, w.y)
    // away from it the gauge starts an independent column where it is, unless that overflows
    ensures w.x >= 0 && g.y <= w.y + g.height && !In(g.x, w.x, w.x + mt.rangeX) ==>
              if g.x + g.width > screenWidth then r == Walk(w.x0, w.x0, g.y - mt.cellY)
              else r == Walk(w.x0, g.x, g.y)
  {
    if w.x < 0 then
      Walk(g.x, g.x, g.y)
    else if g.y > w.y + g.height then
      var x0 := if !In(g.x, w.x0 - mt.rangeX, w.x0 + mt.rangeX) then g.x else w.x0;
      var y := if g.y > w.y + mt.rangeY then g.y else w.y + mt.cellY;
      Walk(x0, x0, y)
    else
      var x := if In(g.x, w.x, w.x + mt.rangeX) then w.x + mt.cellX else g.x;
      var y := if In(g.x, w.x, w.x + mt.rangeX) then w.y else g.y;
      if x + g.width > screenWidth then Walk(w.x0, w.x0, y - mt.cellY) else Walk(w.x0, x, y)
  }

  /**
   * The gauges and stored positions during a layout, and the ids whose
   * position the layout has written.
   */
  datatype Placement = Placement(gauges: map<int, Gauge>, positions: map<int, Position>, placed: set<int>)

  /** Whether every gauge the layout has written stores the position it shows. */
  ghost predicate Synced(p: Placement)
  {
    forall id :: id in p.placed ==> id in p.gauges && id in p.positions && p.positions[id] == PositionOf(p.gauges[id])
  }

  /** The placement after walking `ids` from state w. */
  function LayoutFrom(w: Walk, ids: seq<int>, p: Placement, mt: Metrics, screenWidth: int): (r: Placement)
    requires ValidMetrics(mt)
    requires forall i :: 0 <= i < |ids| ==> ids[i] in p.gauges
    ensures r.gauges.Keys == p.gauges.Keys
    decreases |ids|
  {
    if ids == [] then p
    else
      var id := ids[0];
      var g := p.gauges[id];
      var w' := Step(w, g, mt, screenWidth);
      var p' := if w.x < 0 then p
                else Placement(p.gauges[id := g.(x := w'.x, y := w'.y)],
                               p.positions[id := Position(w'.x, w'.y)],
                               p.placed + {id});
      LayoutFrom(w', ids[1..], p', mt, screenWidth)
  }

  /**
   * A layout keeps the set of gauges and every gauge's size and visibility;
   * a gauge not in `ids` is neither moved nor written, and only gauges of `ids`
   * are added to the written ones.
   */
  lemma {:induction false} LayoutKeepsOthers(w: Walk, ids: seq<int>, p: Placement, mt: Metrics, screenWidth: int)
    requires ValidMetrics(mt)
    requires forall i :: 0 <= i < |ids| ==> ids[i] in p.gauges
    ensures var r := LayoutFrom(w, ids, p, mt, screenWidth);
      && r.gauges.Keys == p.gauges.Keys
      && (forall id :: id in p.gauges ==>
            r.gauges[id].width == p.gauges[id].width && r.gauges[id].height == p.gauges[id].height
            && r.gauges[id].visible == p.gauges[id].visible)
      && (forall id :: id !in ids ==>
            (id in p.gauges ==> r.gauges[id] == p.gauges[id])
            && (id in r.positions <==> id in p.positions)
            && (id in p.positions ==> r.positions[id] == p.positions[id])
            && (id in r.placed <==> id in p.placed))
      && (forall id :: id in r.placed ==> id in p.placed || id in ids)
      && p.placed <= r.placed
    decreases |ids|
  {
    if ids != [] {
      var id := ids[0];
      var g := p.gauges[id];
      var w' := Step(w, g, mt, screenWidth);
      var p' := if w.x < 0 then p
                else Placement(p.gauges[id := g.(x := w'.x, y := w'.y)],
                               p.positions[id := Position(w'.x, w'.y)],
                               p.placed + {id});
      LayoutKeepsOthers(w', ids[1..], p', mt, screenWidth);
      forall k | k !in ids
        ensures k !in ids[1..]
      {
      }
    }
  }

  /**
   * When no id repeats, a gauge the layout does not write is neither moved
   * nor has its stored position changed.
   */
  lemma {:induction false} LayoutUnplacedUntouched(w: Walk, ids: seq<int>, p: Placement, mt: Metrics,
                                                   screenWidth: int, id: int)
    requires ValidMetrics(mt)
    requires forall i :: 0 <= i < |ids| ==> ids[i] in p.gauges
    requires forall i, j :: 0 <= i < j < |ids| ==> ids[i] != ids[j]
    requires id in p.gauges && id !in LayoutFrom(w, ids, p, mt, screenWidth).placed
    ensures var r := LayoutFrom(w, ids, p, mt, screenWidth);
      && r.gauges[id] == p.gauges[id]
      && (id in r.positions <==> id in p.positions)
      && (id in p.positions ==> r.positions[id] == p.positions[id])
    decreases |ids|
  {
    if ids != [] {
      var g := p.gauges[ids[0]];
      var w' := Step(w, g, mt, screenWidth);
      var p' := if w.x < 0 then p
                else Placement(p.gauges[ids[0] := g.(x := w'.x, y := w'.y)],
                               p.positions[ids[0] := Position(w'.x, w'.y)],
                               p.placed + {ids[0]});
      LayoutKeepsOthers(w', ids[1..], p', mt, screenWidth);
      if id == ids[0] {
        assert id !in ids[1..];
      } else {
        LayoutUnplacedUntouched(w', ids[1..], p', mt, screenWidth, id);
      }
    }
  }

  /** Every gauge the layout writes stores the same position as the gauge shows. */
  lemma {:induction false} LayoutSynced(w: Walk, ids: seq<int>, p: Placement, mt: Metrics, screenWidth: int)
    requires ValidMetrics(mt)
    requires forall i :: 0 <= i < |ids| ==> ids[i] in p.gauges
    requires Synced(p)
    ensures Synced(LayoutFrom(w, ids, p, mt, screenWidth))
    decreases |ids|
  {
    if ids != [] {
      var id := ids[0];
      var g := p.gauges[id];
      var w' := Step(w, g, mt, screenWidth);
      var p' := if w.x < 0 then p
                else Placement(p.gauges[id := g.(x := w'.x, y := w'.y)],
                               p.positions[id := Position(w'.x, w'.y)],
                               p.placed + {id});
      assert Synced(p');
      LayoutSynced(w', ids[1..], p', mt, screenWidth);
    }
  }

  /** The first gauge of a layout from the start keeps its position and is not written. */
  lemma LayoutKeepsFirst(ids: seq<int>, p: Placement, mt: Metrics, screenWidth: int)
    requires ValidMetrics(mt)
    requires forall i :: 0 <= i < |ids| ==> ids[i] in p.gauges
    requires ids != [] && ids[0] !in ids[1..]
    ensures var r := LayoutFrom(START, ids, p, mt, screenWidth);
      r.gauges[ids[0]] == p.gauges[ids[0]] && (ids[0] in r.placed <==> ids[0] in p.placed)
  {
    var w' := Step(START, p.gauges[ids[0]], mt, screenWidth);
    LayoutKeepsOthers(w', ids[1..], p, mt, screenWidth);
  }

  /**
   * The second gauge of a layout from the start is placed by the step from
   * the state the first gauge seeded, both in the gauge and in the store.
   */
  lemma LayoutPlacesSecond(ids: seq<int>, p: Placement, mt: Metrics, screenWidth: int)
    requires ValidMetrics(mt)
    requires forall i :: 0 <= i < |ids| ==> ids[i] in p.gauges
    requires |ids| >= 2 && p.gauges[ids[0]].x >= 0
    requires forall i :: 2 <= i < |ids| ==> ids[i] != ids[1]
    ensures var first := p.gauges[ids[0]];
      var w := Step(Walk(first.x, first.x, first.y), p.gauges[ids[1]], mt, screenWidth);
      var r := LayoutFrom(START, ids, p, mt, screenWidth);
      && PositionOf(r.gauges[ids[1]]) == Position(w.x, w.y)
      && ids[1] in r.positions && r.positions[ids[1]] == Position(w.x, w.y)
  {
    var first := p.gauges[ids[0]];
    var w1 := Walk(first.x, first.x, first.y);
    assert LayoutFrom(START, ids, p, mt, screenWidth) == LayoutFrom(w1, ids[1..], p, mt, screenWidth);
    var id := ids[1];
    var g := p.gauges[id];
    var w2 := Step(w1, g, mt, screenWidth);
    var p2 := Placement(p.gauges[id := g.(x := w2.x, y := w2.y)], p.positions[id := Position(w2.x, w2.y)],
                        p.placed + {id});
    assert ids[1..][1..] == ids[2..];
    assert LayoutFrom(w1, ids[1..], p, mt, screenWidth) == LayoutFrom(w2, ids[2..], p2, mt, screenWidth);
    LayoutKeepsOthers(w2, ids[2..], p2, mt, screenWidth);
  }
}
