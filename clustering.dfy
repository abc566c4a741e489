/**
 * The clustering of src/Gauges.cs: two gauges are neighbours when each
 * coordinate of one lies within the layout range of the other's, and the
 * cluster of a gauge is everything reachable from it over neighbours.
 */
module Clustering {
  import opened Extensions
  import opened GaugeModel
  import opened Layout

  /** Whether q lies within the layout ranges centred on p, ends included. */
  predicate Near(p: Position, q: Position, mt: Metrics)
  {
    In(q.x, p.x - mt.rangeX, p.x + mt.rangeX) && In(q.y, p.y - mt.rangeY, p.y + mt.rangeY)
  }

  /** Nearness is symmetric because both ranges are centred and closed. */
  lemma NearSymmetric(p: Position, q: Position, mt: Metrics)
    ensures Near(p, q, mt) <==> Near(q, p, mt)
  {
  }

  /** GetNeighBours: the other registered gauges near position p of the gauge `id`. */
  function Neighbours(m: map<int, Gauge>, id: int, p: Position, mt: Metrics): (r: set<int>)
    ensures r <= m.Keys && id !in r
  {
    set k | k in m && k != id && Near(p, PositionOf(m[k]), mt)
  }

  /** The neighbours of a registered gauge at its own position. */
  function Adjacent(m: map<int, Gauge>, a: int, mt: Metrics): set<int>
    requires a in m
  {
    Neighbours(m, a, PositionOf(m[a]), mt)
  }

  /** The neighbour relation between registered gauges is symmetric. */
  lemma AdjacentSymmetric(m: map<int, Gauge>, a: int, b: int, mt: Metrics)
    requires a in m && b in m
    ensures b in Adjacent(m, a, mt) <==> a in Adjacent(m, b, mt)
  {
    NearSymmetric(PositionOf(m[a]), PositionOf(m[b]), mt);
  }

  /** A walk of one or more neighbour steps starting at gauge a. */
  ghost predicate IsPath(m: map<int, Gauge>, mt: Metrics, a: int, path: seq<int>)
  {
    && |path| > 0 && a in m && path[0] in Adjacent(m, a, mt)
    && forall i :: 0 <= i < |path| - 1 ==> path[i] in m && path[i + 1] in Adjacent(m, path[i], mt)
  }

  ghost predicate Reachable(m: map<int, Gauge>, mt: Metrics, a: int, v: int)
  {
    exists path :: IsPath(m, mt, a, path) && path[|path| - 1] == v
  }

  /** The gauges reachable from a in one or more neighbour steps. */
  ghost function Cluster(m: map<int, Gauge>, mt: Metrics, a: int): set<int>
    requires a in m
  {
    set v | v in m && Reachable(m, mt, a, v)
  }

  lemma {:induction false} PathInside(m: map<int, Gauge>, mt: Metrics, a: int, path: seq<int>, i: nat)
    requires IsPath(m, mt, a, path) && i < |path|
    ensures path[i] in m
  {
    if i < |path| - 1 {
    } else if i == 0 {
    } else {
      assert path[i - 1] in m && path[i] in Adjacent(m, path[i - 1], mt);
    }
  }

  /** Extending a walk by one neighbour step. */
  lemma ReachStep(m: map<int, Gauge>, mt: Metrics, a: int, v: int, w: int)
    requires Reachable(m, mt, a, v) && v in m && w in Adjacent(m, v, mt)
    ensures Reachable(m, mt, a, w)
  {
    var path :| IsPath(m, mt, a, path) && path[|path| - 1] == v;
    var path' := path + [w];
    assert IsPath(m, mt, a, path') by {
      forall i | 0 <= i < |path'| - 1
        ensures path'[i] in m && path'[i + 1] in Adjacent(m, path'[i], mt)
      {
        PathInside(m, mt, a, path, i);
      }
    }
    assert path'[|path'| - 1] == w;
  }

  /** Starting a walk with one neighbour step. */
  lemma ReachPrepend(m: map<int, Gauge>, mt: Metrics, a: int, b: int, v: int)
    requires a in m && b in Adjacent(m, a, mt) && Reachable(m, mt, b, v)
    ensures Reachable(m, mt, a, v)
  {
    var path :| IsPath(m, mt, b, path) && path[|path| - 1] == v;
    var path' := [b] + path;
    assert IsPath(m, mt, a, path') by {
      forall i | 0 <= i < |path'| - 1
        ensures path'[i] in m && path'[i + 1] in Adjacent(m, path'[i], mt)
      {
        if i > 0 {
          assert path'[i] == path[i - 1] && path'[i + 1] == path[i];
        }
      }
    }
    assert path'[|path'| - 1] == v;
  }

  /** A walk read backwards is a walk back to its start. */
  lemma {:induction false} PathReversed(m: map<int, Gauge>, mt: Metrics, a: int, path: seq<int>)
    requires IsPath(m, mt, a, path)
    ensures Reachable(m, mt, path[|path| - 1], a)
    decreases |path|
  {
    var n := |path| - 1;
    PathInside(m, mt, a, path, n);
    if n == 0 {
      AdjacentSymmetric(m, a, path[0], mt);
      assert IsPath(m, mt, path[0], [a]);
    } else {
      var prefix := path[..n];
      assert IsPath(m, mt, a, prefix) by {
        forall i | 0 <= i < |prefix| - 1
          ensures prefix[i] in m && prefix[i + 1] in Adjacent(m, prefix[i], mt)
        {
          assert prefix[i] == path[i] && prefix[i + 1] == path[i + 1];
        }
      }
      PathReversed(m, mt, a, prefix);
      assert path[n - 1] in m && path[n] in Adjacent(m, path[n - 1], mt);
      AdjacentSymmetric(m, path[n - 1], path[n], mt);
      ReachPrepend(m, mt, path[n], path[n - 1], a);
    }
  }

  /** Reachability is symmetric. */
  lemma ReachSymmetric(m: map<int, Gauge>, mt: Metrics, a: int, v: int)
    requires Reachable(m, mt, a, v)
    ensures Reachable(m, mt, v, a)
  {
    var path :| IsPath(m, mt, a, path) && path[|path| - 1] == v;
    PathReversed(m, mt, a, path);
  }

  /** Reachability is transitive. */
  lemma {:induction false} ReachTransitive(m: map<int, Gauge>, mt: Metrics, a: int, b: int, v: int)
    requires Reachable(m, mt, a, b) && Reachable(m, mt, b, v)
    ensures Reachable(m, mt, a, v)
  {
    var path :| IsPath(m, mt, b, path) && path[|path| - 1] == v;
    ReachAlong(m, mt, a, b, path);
  }

  lemma {:induction false} ReachAlong(m: map<int, Gauge>, mt: Metrics, a: int, b: int, path: seq<int>)
    requires Reachable(m, mt, a, b) && IsPath(m, mt, b, path)
    ensures Reachable(m, mt, a, path[|path| - 1])
    decreases |path|
  {
    var n := |path| - 1;
    var pa :| IsPath(m, mt, a, pa) && pa[|pa| - 1] == b;
    PathInside(m, mt, a, pa, |pa| - 1);
    if n == 0 {
      ReachStep(m, mt, a, b, path[0]);
    } else {
      var prefix := path[..n];
      assert IsPath(m, mt, b, prefix) by {
        forall i | 0 <= i < |prefix| - 1
          ensures prefix[i] in m && prefix[i + 1] in Adjacent(m, prefix[i], mt)
        {
          assert prefix[i] == path[i] && prefix[i + 1] == path[i + 1];
        }
      }
      ReachAlong(m, mt, a, b, prefix);
      assert path[n - 1] in m && path[n] in Adjacent(m, path[n - 1], mt);
      ReachStep(m, mt, a, path[n - 1], path[n]);
    }
  }

  /** A set that holds a's neighbours and the neighbours of each of its members holds a's cluster. */
  lemma ClosedHoldsCluster(m: map<int, Gauge>, mt: Metrics, a: int, s: set<int>)
    requires a in m && Adjacent(m, a, mt) <= s
    requires forall v :: v in s ==> v in m && Adjacent(m, v, mt) <= s
    ensures Cluster(m, mt, a) <= s
  {
    forall v | v in Cluster(m, mt, a)
      ensures v in s
    {
      var path :| IsPath(m, mt, a, path) && path[|path| - 1] == v;
      PathWithin(m, mt, a, path, s, |path| - 1);
    }
  }

  lemma {:induction false} PathWithin(m: map<int, Gauge>, mt: Metrics, a: int, path: seq<int>, s: set<int>, i: nat)
    requires IsPath(m, mt, a, path) && i < |path|
    requires Adjacent(m, a, mt) <= s
    requires forall v :: v in s ==> v in m && Adjacent(m, v, mt) <= s
    ensures path[i] in s
  {
    if i > 0 {
      PathWithin(m, mt, a, path, s, i - 1);
      assert path[i - 1] in m && path[i] in Adjacent(m, path[i - 1], mt);
    }
  }

  /** A cluster holds the neighbours of the start and of each of its members. */
  lemma ClusterClosed(m: map<int, Gauge>, mt: Metrics, a: int)
    requires a in m
    ensures Adjacent(m, a, mt) <= Cluster(m, mt, a)
    ensures forall v :: v in Cluster(m, mt, a) ==> Adjacent(m, v, mt) <= Cluster(m, mt, a)
  {
    forall b | b in Adjacent(m, a, mt)
      ensures b in Cluster(m, mt, a)
    {
      assert IsPath(m, mt, a, [b]);
    }
    forall v, w | v in Cluster(m, mt, a) && w in Adjacent(m, v, mt)
      ensures w in Cluster(m, mt, a)
    {
      ReachStep(m, mt, a, v, w);
    }
  }

  /** The start belongs to its own cluster exactly when it has a neighbour. */
  lemma ClusterHoldsStart(m: map<int, Gauge>, mt: Metrics, a: int)
    requires a in m
    ensures a in Cluster(m, mt, a) <==> Adjacent(m, a, mt) != {}
  {
    if Adjacent(m, a, mt) != {} {
      var b :| b in Adjacent(m, a, mt);
      assert IsPath(m, mt, a, [b]);
      AdjacentSymmetric(m, a, b, mt);
      ReachStep(m, mt, a, b, a);
    }
    if a in Cluster(m, mt, a) {
      var path :| IsPath(m, mt, a, path) && path[|path| - 1] == a;
      assert path[0] in Adjacent(m, a, mt);
    }
  }

  /** Every member of a cluster has the same cluster. */
  lemma ClusterOfMember(m: map<int, Gauge>, mt: Metrics, a: int, b: int)
    requires a in m && b in Cluster(m, mt, a)
    ensures Cluster(m, mt, b) == Cluster(m, mt, a)
  {
    ReachSymmetric(m, mt, a, b);
    forall v | v in Cluster(m, mt, b)
      ensures v in Cluster(m, mt, a)
    {
      ReachTransitive(m, mt, a, b, v);
    }
    forall v | v in Cluster(m, mt, a)
      ensures v in Cluster(m, mt, b)
    {
      ReachTransitive(m, mt, b, a, v);
    }
  }

  /** A neighbour of a gauge is in its cluster and has the same cluster. */
  lemma NeighbourCluster(m: map<int, Gauge>, mt: Metrics, a: int, b: int)
    requires a in m && b in Adjacent(m, a, mt)
    ensures b in Cluster(m, mt, a) && Cluster(m, mt, b) == Cluster(m, mt, a)
  {
    assert IsPath(m, mt, a, [b]);
    ClusterOfMember(m, mt, a, b);
  }

  /**
   * With 40-pixel gauges, gauges at (100, 100) and (100, 150) form one cluster
   * and a gauge at (400, 400) is alone.
   */
  lemma ClusterExample()
    ensures var mt := MetricsFor(40, 40);
      var m := map[1 := Gauge(100, 100, 40, 40, true), 2 := Gauge(100, 150, 40, 40, true),
                   3 := Gauge(400, 400, 40, 40, true)];
      Cluster(m, mt, 1) == {1, 2} && Cluster(m, mt, 3) == {}
  {
    var mt := MetricsFor(40, 40);
    var m := map[1 := Gauge(100, 100, 40, 40, true), 2 := Gauge(100, 150, 40, 40, true),
                 3 := Gauge(400, 400, 40, 40, true)];
    ExampleAdjacency(m, mt);
    assert Cluster(m, mt, 1) == {1, 2} by {
      ClosedHoldsCluster(m, mt, 1, {1, 2});
      ClusterClosed(m, mt, 1);
      ClusterHoldsStart(m, mt, 1);
    }
    assert Cluster(m, mt, 3) == {} by {
      ClosedHoldsCluster(m, mt, 3, {});
    }
  }

  lemma ExampleAdjacency(m: map<int, Gauge>, mt: Metrics)
    requires mt == MetricsFor(40, 40)
    requires m == map[1 := Gauge(100, 100, 40, 40, true), 2 := Gauge(100, 150, 40, 40, true),
                      3 := Gauge(400, 400, 40, 40, true)]
    ensures Adjacent(m, 1, mt) == {2} && Adjacent(m, 2, mt) == {1} && Adjacent(m, 3, mt) == {}
  {
    assert mt == Metrics(48, 48, 72, 72);
    assert m.Keys == {1, 2, 3};
    assert Near(PositionOf(m[1]), PositionOf(m[2]), mt);
    assert !Near(PositionOf(m[1]), PositionOf(m[3]), mt);
    assert !Near(PositionOf(m[2]), PositionOf(m[3]), mt);
    NearSymmetric(PositionOf(m[1]), PositionOf(m[2]), mt);
    NearSymmetric(PositionOf(m[1]), PositionOf(m[3]), mt);
    NearSymmetric(PositionOf(m[2]), PositionOf(m[3]), mt);
  }
}
