/**
 * The gauge registry of src/Gauges.cs: the registered gauges keyed by window
 * id, the global hide flag, the last observed camera mode and EVA flag, and
 * the operations the host calls on them. The configuration store the registry
 * reads and writes is the class Configuration.
 *
 * Host queries are parameters: the current camera mode (`camMode`), whether
 * the active vessel is on EVA (`evaCam`, false without an active vessel), the
 * screen width and the sorted list of visible gauges for the auto-layout.
 */
module GaugeRegistry {
  import opened Wrappers
  import opened Extensions
  import opened GaugeModel
  import opened Layout
  import opened Clustering
  import Sensors = SensorInspecteur

  /**
   * Some member of a non-empty id set: the next key a loop over a dictionary
   * visits. The loops below visit the keys in this unspecified order.
   */
  method Pick(s: set<int>) returns (x: int)
    requires s != {}
    ensures x in s
  {
    // spelled out so that the choice below is seen to have a witness
    assert (forall y :: y !in s) ==> s == {};
    x :| x in s;
  }

  /**
   * The configuration store as the registry sees it: the set of enabled gauge
   * ids, stored window positions, the four camera permissions, and the
   * position it reports for an id without a stored one.
   */
  class Configuration {
    var enabled: set<int>
    var positions: map<int, Position>
    var permissions: Permissions
    const defaultPositionOf: int -> Position

    constructor (enabled: set<int>, positions: map<int, Position>, permissions: Permissions,
                 defaultPositionOf: int -> Position)
      ensures this.enabled == enabled && this.positions == positions && this.permissions == permissions
      ensures this.defaultPositionOf == defaultPositionOf
    {
      this.enabled := enabled;
      this.positions := positions;
      this.permissions := permissions;
      this.defaultPositionOf := defaultPositionOf;
    }

    function IsGaugeEnabled(id: int): bool
      reads this
    {
      id in enabled
    }

    function GetWindowPosition(id: int): Position
      reads this
    {
      if id in positions then positions[id] else defaultPositionOf(id)
    }

    method SetGaugeEnabled(id: int, value: bool)
      modifies this`enabled
      ensures enabled == if value then old(enabled) + {id} else old(enabled) - {id}
    {
      if value {
        enabled := enabled + {id};
      } else {
        enabled := enabled - {id};
      }
    }

    method SetWindowPosition(id: int, p: Position)
      modifies this`positions
      ensures positions == old(positions)[id := p]
    {
      positions := positions[id := p];
    }

    /** Forgets every stored position, so that each id reports its default. */
    method ResetWindowPositions()
      modifies this`positions
      ensures positions == map[]
    {
      positions := map[];
    }
  }

  /** The gauges registered by a sequence of AddGauge calls: the first registration of an id wins. */
  function Registered(regs: seq<(int, Gauge)>): (m: map<int, Gauge>)
    ensures m.Keys == set i | 0 <= i < |regs| :: regs[i].0
  {
    if regs == [] then map[]
    else
      var n := |regs| - 1;
      var m := Registered(regs[..n]);
      assert (set i | 0 <= i < |regs| :: regs[i].0) == (set i | 0 <= i < n :: regs[..n][i].0) + {regs[n].0};
      if regs[n].0 in m then m else m[regs[n].0 := regs[n].1]
  }

  /** The gauge registered under an id is the one of its first registration. */
  lemma {:induction false} RegisteredFirstWins(regs: seq<(int, Gauge)>, i: nat)
    requires i < |regs|
    requires forall j :: 0 <= j < i ==> regs[j].0 != regs[i].0
    ensures regs[i].0 in Registered(regs) && Registered(regs)[regs[i].0] == regs[i].1
  {
    var n := |regs| - 1;
    if i < n {
      RegisteredFirstWins(regs[..n], i);
    } else {
      assert regs[i].0 !in Registered(regs[..n]);
    }
  }

  /** The registry after AddOptionalGauge for each entry (id, gauge, present) in turn. */
  function WithOptional(m: map<int, Gauge>, optional: seq<(int, Gauge, bool)>): (r: map<int, Gauge>)
    ensures r.Keys == m.Keys + set i | 0 <= i < |optional| && optional[i].2 :: optional[i].0
  {
    if optional == [] then m
    else
      var n := |optional| - 1;
      var r := WithOptional(m, optional[..n]);
      assert (set i | 0 <= i < |optional| && optional[i].2 :: optional[i].0)
             == (set i | 0 <= i < n && optional[..n][i].2 :: optional[..n][i].0)
                + (if optional[n].2 then {optional[n].0} else {});
      if optional[n].2 then r[optional[n].0 := optional[n].1] else r
  }

  /**
   * What the recursive cluster walk from `id` has gathered into c beyond what
   * it was given (c0): only gauges of the cluster of `id`, and with each of
   * them all of its neighbours.
   */
  ghost predicate Collected(m: map<int, Gauge>, mt: Metrics, id: int, c0: set<int>, c: set<int>)
  {
    && id in m && c0 <= c <= m.Keys
    && (forall v :: v in c - c0 ==> v in m && Adjacent(m, v, mt) <= c)
    && c - c0 <= Cluster(m, mt, id)
  }

  /** Recursing into a neighbour n keeps what the walk from `id` has gathered a part of its cluster. */
  lemma CollectStep(m: map<int, Gauge>, mt: Metrics, id: int, c0: set<int>, c: set<int>, n: int, inner: set<int>)
    requires Collected(m, mt, id, c0, c) && n in Adjacent(m, id, mt) && n !in c
    requires Collected(m, mt, n, c + {n}, inner) && Adjacent(m, n, mt) <= inner
    ensures Collected(m, mt, id, c0, inner)
  {
    NeighbourCluster(m, mt, id, n);
    var k := Cluster(m, mt, id);
    assert inner - (c + {n}) <= k;
    assert inner - c0 <= (inner - (c + {n})) + {n} + (c - c0);
    forall v | v in inner - c0
      ensures v in m && Adjacent(m, v, mt) <= inner
    {
      if v in c - c0 {
        assert Adjacent(m, v, mt) <= c;
      }
    }
  }

  class Gauges {
    var gauges: map<int, Gauge>
    var hidden: bool
    var currentCamMode: CameraMode
    var isEvaCam: bool
    const config: Configuration
    const sensorInspecteur: Sensors.SensorInspecteur
    /** Cell and range sizes derived from the base gauge size. */
    const metrics: Metrics

    /**
     * Registers the catalogue one gauge after the other, then each optional
     * gauge whose resource is present. A present optional id must be new: the
     * source adds those without a check; an absent one is never added.
     */
    constructor (config: Configuration, sensorInspecteur: Sensors.SensorInspecteur,
                 gaugeWidth: int, gaugeHeight: int, catalogue: seq<(int, Gauge)>,
                 optional: seq<(int, Gauge, bool)>)
      requires gaugeWidth > 0 && gaugeHeight > 0
      requires forall i, j :: 0 <= i < |catalogue| && 0 <= j < |optional| && optional[j].2 ==> catalogue[i].0 != optional[j].0
      requires forall i, j :: 0 <= i < j < |optional| && optional[i].2 && optional[j].2 ==> optional[i].0 != optional[j].0
      ensures this.config == config && this.sensorInspecteur == sensorInspecteur
      ensures metrics == MetricsFor(gaugeWidth, gaugeHeight)
      ensures gauges == WithOptional(Registered(catalogue), optional)
      ensures !hidden && currentCamMode == Flight && !isEvaCam
    {
      this.config := config;
      this.sensorInspecteur := sensorInspecteur;
      this.metrics := MetricsFor(gaugeWidth, gaugeHeight);
      gauges := map[];
      hidden := false;
      currentCamMode := Flight;
      isEvaCam := false;
      new;
      var i := 0;
      while i < |catalogue|
        invariant 0 <= i <= |catalogue|
        invariant gauges == Registered(catalogue[..i])
        invariant !hidden && currentCamMode == Flight && !isEvaCam
      {
        assert catalogue[..i + 1][..i] == catalogue[..i];
        AddGauge(catalogue[i].0, catalogue[i].1);
        i := i + 1;
      }
      assert catalogue[..i] == catalogue;
      i := 0;
      while i < |optional|
        invariant 0 <= i <= |optional|
        invariant gauges == WithOptional(Registered(catalogue), optional[..i])
        invariant !hidden && currentCamMode == Flight && !isEvaCam
      {
        assert optional[..i + 1][..i] == optional[..i];
        AddOptionalGauge(optional[i].0, optional[i].1, optional[i].2);
        i := i + 1;
      }
      assert optional[..i] == optional;
    }

    ghost function Camera(): CameraState
      reads this
    {
      CameraState(currentCamMode, isEvaCam)
    }

    /** Registers a gauge; a second registration of an id is dropped and the first kept. */
    method AddGauge(id: int, g: Gauge)
      modifies this`gauges
      ensures gauges == if id in old(gauges) then old(gauges) else old(gauges)[id := g]
    {
      if id !in gauges {
        gauges := gauges[id := g];
      }
    }

    /**
     * Registers an optional gauge when its companion resource is present. The
     * id must not be registered yet: the source adds it without a check.
     */
    method AddOptionalGauge(id: int, g: Gauge, present: bool)
      requires present ==> id !in gauges
      modifies this`gauges
      ensures gauges == if present then old(gauges)[id := g] else old(gauges)
    {
      if present {
        gauges := gauges[id := g];
      }
    }

    /** Every gauge drawn exactly when it is enabled and `visible` holds. */
    method SetEnabledGaugesVisible(visible: bool)
      modifies this`gauges
      ensures gauges == EnabledVisible(old(gauges), config.enabled, visible)
      ensures VisibleOnlyIfEnabled(gauges, config.enabled)
    {
      var todo := gauges.Keys;
      while todo != {}
        invariant todo <= old(gauges).Keys
        invariant gauges.Keys == old(gauges).Keys
        invariant forall id :: id in gauges ==>
                    gauges[id] == if id in todo then old(gauges)[id]
                                  else old(gauges)[id].(visible := id in config.enabled && visible)
        decreases todo
      {
        var id := Pick(todo);
        var enabled := config.IsGaugeEnabled(id);
        gauges := gauges[id := gauges[id].(visible := enabled && visible)];
        todo := todo - {id};
      }
      assert forall id :: id in gauges ==> gauges[id] == EnabledVisible(old(gauges), config.enabled, visible)[id];
      EnabledVisibleMeaning(old(gauges), config.enabled, visible);
    }

    /** Hides every gauge and raises the global hide flag. */
    method Hide()
      modifies this`gauges, this`hidden
      ensures gauges == EnabledVisible(old(gauges), config.enabled, false)
      ensures forall id :: id in gauges ==> !gauges[id].visible
      ensures hidden
    {
      SetEnabledGaugesVisible(false);
      hidden := true;
    }

    /** Shows exactly the enabled gauges and lowers the global hide flag. */
    method Unhide()
      modifies this`gauges, this`hidden
      ensures gauges == EnabledVisible(old(gauges), config.enabled, true)
      ensures forall id :: id in gauges ==> (gauges[id].visible <==> id in config.enabled)
      ensures !hidden
    {
      SetEnabledGaugesVisible(true);
      hidden := false;
    }

    function Hidden(): bool
      reads this
    {
      hidden
    }

    /**
     * The visibility part of ShowGauges: resets the sensor sampler, stores the
     * observed camera, and shows every enabled gauge if the camera permits.
     */
    method ShowGauges(camMode: CameraMode, evaCam: bool)
      modifies this`gauges, this`currentCamMode, this`isEvaCam, sensorInspecteur
      ensures sensorInspecteur.IsReset() && sensorInspecteur.sensors == old(sensorInspecteur.sensors)
      ensures currentCamMode == camMode && isEvaCam == evaCam
      ensures gauges == ShowEnabled(old(gauges), config.enabled, IsEnabledInCamera(camMode, evaCam, config.permissions))
      ensures VisibleOnlyIfEnabled(old(gauges), old(config.enabled)) ==> VisibleOnlyIfEnabled(gauges, config.enabled)
    {
      sensorInspecteur.Reset();
      currentCamMode := camMode;
      isEvaCam := evaCam;
      var permitted := IsEnabledInCamera(currentCamMode, evaCam, config.permissions);
      var todo := gauges.Keys;
      while todo != {}
        invariant todo <= old(gauges).Keys
        invariant gauges.Keys == old(gauges).Keys
        invariant forall id :: id in gauges ==>
                    gauges[id] == if id in todo || !(id in config.enabled && permitted) then old(gauges)[id]
                                  else old(gauges)[id].(visible := true)
        invariant currentCamMode == camMode && isEvaCam == evaCam
        invariant sensorInspecteur.IsReset() && sensorInspecteur.sensors == old(sensorInspecteur.sensors)
        decreases todo
      {
        var id := Pick(todo);
        if config.IsGaugeEnabled(id) && permitted {
          gauges := gauges[id := gauges[id].(visible := true)];
        }
        todo := todo - {id};
      }
      assert forall id :: id in gauges ==> gauges[id] == ShowEnabled(old(gauges), config.enabled, permitted)[id];
      ShowEnabledMeaning(old(gauges), config.enabled, permitted);
    }

    /**
     * Compares the observed camera with the stored one and, when forced or
     * when it changed, applies the camera's permission to the enabled gauges
     * and stores the observation.
     */
    method CheckCamera(force: bool, camMode: CameraMode, evaCam: bool)
      modifies this`gauges, this`currentCamMode, this`isEvaCam
      ensures Camera() == NextCameraState(force, old(Camera()), camMode, evaCam)
      ensures currentCamMode == camMode
      ensures gauges == match CameraVisibility(force, old(Camera()), camMode, evaCam, config.permissions)
                        case Some(v) => EnabledVisible(old(gauges), config.enabled, v)
                        case None => old(gauges)
      ensures VisibleOnlyIfEnabled(old(gauges), old(config.enabled)) ==> VisibleOnlyIfEnabled(gauges, config.enabled)
    {
      if force || camMode != currentCamMode || (camMode == Flight && evaCam != isEvaCam) {
        if force {
          if camMode == Flight && evaCam {
            SetEnabledGaugesVisible(config.permissions.inEva);
          } else {
            SetEnabledGaugesVisible(IsEnabledInCamera(camMode, false, config.permissions));
          }
        } else if camMode == Flight && evaCam {
          SetEnabledGaugesVisible(config.permissions.inEva);
        } else if camMode == Flight && !evaCam {
          SetEnabledGaugesVisible(IsEnabledInCamera(camMode, false, config.permissions));
        } else if camMode != currentCamMode {
          SetEnabledGaugesVisible(IsEnabledInCamera(camMode, false, config.permissions));
        }
        isEvaCam := evaCam;
        currentCamMode := camMode;
      }
    }

    /**
     * Stores the permission of a listed camera mode and, if it changed,
     * re-applies the permissions to the gauges by a forced camera check.
     */
    method SetEnabledInCamera(mode: CameraMode, enabled: bool, camMode: CameraMode, evaCam: bool)
      modifies this`gauges, this`currentCamMode, this`isEvaCam, config`permissions
      ensures config.permissions == WithCameraPermission(old(config.permissions), mode, enabled)
      ensures config.permissions == old(config.permissions) ==> gauges == old(gauges) && Camera() == old(Camera())
      ensures config.permissions != old(config.permissions) ==>
                && gauges == EnabledVisible(old(gauges), config.enabled,
                                            IsEnabledInCamera(camMode, evaCam && camMode == Flight, config.permissions))
                && Camera() == CameraState(camMode, evaCam)
    {
      match mode
      case External | Flight =>
        if config.permissions.inFlight != enabled {
          config.permissions := config.permissions.(inFlight := enabled);
          CheckCamera(true, camMode, evaCam);
        }
      case IVA =>
        if config.permissions.inIva != enabled {
          config.permissions := config.permissions.(inIva := enabled);
          CheckCamera(true, camMode, evaCam);
        }
      case Map =>
        if config.permissions.inMap != enabled {
          config.permissions := config.permissions.(inMap := enabled);
          CheckCamera(true, camMode, evaCam);
        }
      case Other =>
    }

    /** Stores the EVA permission and, if it changed, forces a camera check. */
    method SetEnabledInEva(enabled: bool, camMode: CameraMode, evaCam: bool)
      modifies this`gauges, this`currentCamMode, this`isEvaCam, config`permissions
      ensures config.permissions == old(config.permissions).(inEva := enabled)
      ensures config.permissions == old(config.permissions) ==> gauges == old(gauges) && Camera() == old(Camera())
      ensures config.permissions != old(config.permissions) ==>
                && gauges == EnabledVisible(old(gauges), config.enabled,
                                            IsEnabledInCamera(camMode, evaCam && camMode == Flight, config.permissions))
                && Camera() == CameraState(camMode, evaCam)
    {
      if config.permissions.inEva != enabled {
        config.permissions := config.permissions.(inEva := enabled);
        CheckCamera(true, camMode, evaCam);
      }
    }

    /**
     * Enables or disables one gauge in the configuration and updates its
     * visibility against the stored camera mode; no other gauge changes.
     */
    method SetGaugeEnabled(id: int, enabled: bool, evaCam: bool)
      requires id in gauges
      modifies this`gauges, config`enabled
      ensures config.enabled == if enabled then old(config.enabled) + {id} else old(config.enabled) - {id}
      ensures gauges == old(gauges)[id := old(gauges)[id].(visible := NewVisibility(
                          old(gauges)[id].visible, enabled,
                          IsEnabledInCamera(currentCamMode, evaCam, config.permissions)))]
      ensures !enabled ==> !gauges[id].visible
      ensures VisibleOnlyIfEnabled(old(gauges), old(config.enabled)) ==> VisibleOnlyIfEnabled(gauges, config.enabled)
    {
      var gauge := gauges[id];
      if enabled != gauge.visible {
        gauges := gauges[id := gauge.(visible := enabled && IsEnabledInCamera(currentCamMode, evaCam, config.permissions))];
      }
      config.SetGaugeEnabled(id, enabled);
    }

    /** SetGaugeEnabled(id, value) for every registered gauge. */
    method SetAllGaugesEnabled(value: bool, evaCam: bool)
      modifies this`gauges, config`enabled
      ensures config.enabled == if value then old(config.enabled) + old(gauges).Keys
                                else old(config.enabled) - old(gauges).Keys
      ensures gauges.Keys == old(gauges).Keys
      ensures forall id :: id in gauges ==>
                gauges[id] == old(gauges)[id].(visible := NewVisibility(
                                old(gauges)[id].visible, value,
                                IsEnabledInCamera(currentCamMode, evaCam, config.permissions)))
    {
      var permitted := IsEnabledInCamera(currentCamMode, evaCam, config.permissions);
      var todo := gauges.Keys;
      while todo != {}
        invariant todo <= old(gauges).Keys
        invariant gauges.Keys == old(gauges).Keys
        invariant forall id :: id in gauges ==>
                    gauges[id] == if id in todo then old(gauges)[id]
                                  else old(gauges)[id].(visible := NewVisibility(old(gauges)[id].visible, value, permitted))
        invariant config.enabled == if value then old(config.enabled) + (old(gauges).Keys - todo)
                                    else old(config.enabled) - (old(gauges).Keys - todo)
        decreases todo
      {
        var id := Pick(todo);
        SetGaugeEnabled(id, value, evaCam);
        todo := todo - {id};
      }
    }

    /** Enables every gauge: each hidden gauge becomes visible exactly when the camera permits. */
    method EnableAllGauges(evaCam: bool)
      modifies this`gauges, config`enabled
      ensures config.enabled == old(config.enabled) + old(gauges).Keys
      ensures gauges.Keys == old(gauges).Keys
      ensures forall id :: id in gauges ==>
                SameGeometry(gauges[id], old(gauges)[id])
                && gauges[id].visible == (old(gauges)[id].visible
                                          || IsEnabledInCamera(currentCamMode, evaCam, config.permissions))
      ensures VisibleOnlyIfEnabled(gauges, config.enabled)
    {
      SetAllGaugesEnabled(true, evaCam);
    }

    /** Disables every gauge: nothing is drawn afterwards. */
    method DisableAllGauges(evaCam: bool)
      modifies this`gauges, config`enabled
      ensures config.enabled == old(config.enabled) - old(gauges).Keys
      ensures gauges.Keys == old(gauges).Keys
      ensures forall id :: id in gauges ==> SameGeometry(gauges[id], old(gauges)[id]) && !gauges[id].visible
      ensures VisibleOnlyIfEnabled(gauges, config.enabled)
    {
      SetAllGaugesEnabled(false, evaCam);
    }

    /**
     * Lays out the visible gauges, walking them in the order `leftToRight`
     * that sorting them with Compare produced, and stores every position it
     * gives a gauge.
     */
    method AutoLayout(screenWidth: int, leftToRight: seq<int>)
      requires ValidMetrics(metrics)
      requires forall i, j :: 0 <= i < j < |leftToRight| ==> leftToRight[i] != leftToRight[j]
      requires forall i :: 0 <= i < |leftToRight| ==> leftToRight[i] in gauges && gauges[leftToRight[i]].visible
      requires forall id :: id in gauges && gauges[id].visible ==> id in leftToRight
      modifies this`gauges, config`positions
      ensures var r := LayoutFrom(START, leftToRight, Placement(old(gauges), old(config.positions), {}),
                                  metrics, screenWidth);
        gauges == r.gauges && config.positions == r.positions
      ensures gauges.Keys == old(gauges).Keys
      ensures forall id :: id in gauges ==>
                gauges[id].visible == old(gauges)[id].visible
                && gauges[id].width == old(gauges)[id].width && gauges[id].height == old(gauges)[id].height
      ensures forall id :: id in old(gauges) && !old(gauges)[id].visible ==>
                gauges[id] == old(gauges)[id]
                && (id in config.positions <==> id in old(config.positions))
                && (id in old(config.positions) ==> config.positions[id] == old(config.positions)[id])
      ensures |leftToRight| > 0 ==> gauges[leftToRight[0]] == old(gauges)[leftToRight[0]]
      ensures forall id :: id in gauges && gauges[id] != old(gauges)[id] ==>
                id in config.positions && config.positions[id] == PositionOf(gauges[id])
    {
      ghost var p0 := Placement(gauges, config.positions, {});
      ghost var r := LayoutFrom(START, leftToRight, p0, metrics, screenWidth);
      var x0, x, y := -1, -1, -1;
      ghost var placed: set<int> := {};
      var i := 0;
      while i < |leftToRight|
        invariant 0 <= i <= |leftToRight|
        invariant gauges.Keys == old(gauges).Keys
        invariant LayoutFrom(Walk(x0, x, y), leftToRight[i..], Placement(gauges, config.positions, placed),
                             metrics, screenWidth) == r
      {
        var id := leftToRight[i];
        var gauge := gauges[id];
        ghost var w := Walk(x0, x, y);
        ghost var before := Placement(gauges, config.positions, placed);
        assert leftToRight[i..][0] == id && leftToRight[i..][1..] == leftToRight[i + 1..];
        if x < 0 {
          x := gauge.x;
          y := gauge.y;
          x0 := x;
        } else {
          if gauge.y > y + gauge.height {
            x := x0;
            if !In(gauge.x, x0 - metrics.rangeX, x0 + metrics.rangeX) {
              x0 := gauge.x;
              x := gauge.x;
            }
            if gauge.y > y + metrics.rangeY {
              y := gauge.y;
            } else {
              y := y + metrics.cellY;
            }
          } else {
            if In(gauge.x, x, x + metrics.rangeX) {
              x := x + metrics.cellX;
            } else {
              x := gauge.x;
              y := gauge.y;
            }
            if x + gauge.width > screenWidth {
              x := x0;
              y := y - metrics.cellY;
            }
          }
          config.SetWindowPosition(id, Position(x, y));
          gauges := gauges[id := gauge.(x := x, y := y)];
          placed := placed + {id};
        }
        assert Step(w, gauge, metrics, screenWidth) == Walk(x0, x, y);
        i := i + 1;
      }
      assert leftToRight[i..] == [];
      LayoutKeepsOthers(START, leftToRight, p0, metrics, screenWidth);
      LayoutSynced(START, leftToRight, p0, metrics, screenWidth);
      if |leftToRight| > 0 {
        LayoutKeepsFirst(leftToRight, p0, metrics, screenWidth);
      }
      forall id | id in gauges && gauges[id] != old(gauges)[id]
        ensures id in config.positions && config.positions[id] == PositionOf(gauges[id])
      {
        if id !in r.placed {
          LayoutUnplacedUntouched(START, leftToRight, p0, metrics, screenWidth, id);
        }
      }
    }

    /** GetNeighBours: the other registered gauges near position p of gauge `id`. */
    method GetNeighbours(id: int, p: Position) returns (result: set<int>)
      ensures result == Neighbours(gauges, id, p, metrics)
    {
      result := {};
      var todo := gauges.Keys;
      while todo != {}
        invariant todo <= gauges.Keys
        invariant result == Neighbours(gauges, id, p, metrics) - todo
        decreases todo
      {
        var k := Pick(todo);
        if id != k {
          var q := PositionOf(gauges[k]);
          if In(q.x, p.x - metrics.rangeX, p.x + metrics.rangeX) && In(q.y, p.y - metrics.rangeY, p.y + metrics.rangeY) {
            result := result + {k};
          }
        }
        todo := todo - {k};
      }
    }

    /**
     * The recursive step of GetCluster: adds each neighbour of `id` not yet in
     * the cluster, and that neighbour's cluster, to the cluster.
     */
    method CollectCluster(cluster: set<int>, id: int) returns (result: set<int>)
      requires id in gauges && cluster <= gauges.Keys
      ensures Collected(gauges, metrics, id, cluster, result)
      ensures Adjacent(gauges, id, metrics) <= result
      decreases gauges.Keys - cluster
    {
      var neighbours := GetNeighbours(id, PositionOf(gauges[id]));
      result := cluster;
      var todo := neighbours;
      while todo != {}
        invariant todo <= neighbours
        invariant Collected(gauges, metrics, id, cluster, result)
        invariant neighbours - todo <= result
        decreases todo
      {
        var n := Pick(todo);
        if n !in result {
          var inner := CollectCluster(result + {n}, n);
          CollectStep(gauges, metrics, id, cluster, result, n, inner);
          result := inner;
        }
        todo := todo - {n};
      }
    }

    /**
     * GetCluster: the gauges reachable from `start` in one or more neighbour
     * steps; closed under neighbours, and the same from any of its members.
     */
    method GetCluster(start: int) returns (cluster: set<int>)
      requires start in gauges
      ensures cluster == Cluster(gauges, metrics, start)
      ensures forall v :: v in cluster ==> v in gauges && Adjacent(gauges, v, metrics) <= cluster
      ensures start in cluster <==> Adjacent(gauges, start, metrics) != {}
    {
      cluster := CollectCluster({}, start);
      ClosedHoldsCluster(gauges, metrics, start, cluster);
      ClusterClosed(gauges, metrics, start);
      ClusterHoldsStart(gauges, metrics, start);
    }

    /** Stores the current position of every gauge. */
    method SaveWindowPositions()
      modifies config`positions
      ensures config.positions == old(config.positions) + map id | id in gauges :: PositionOf(gauges[id])
      ensures forall id :: id in gauges ==> config.GetWindowPosition(id) == PositionOf(gauges[id])
    {
      var todo := gauges.Keys;
      while todo != {}
        invariant todo <= gauges.Keys
        invariant config.positions == old(config.positions) + map id | id in gauges.Keys - todo :: PositionOf(gauges[id])
        decreases todo
      {
        var id := Pick(todo);
        config.SetWindowPosition(id, PositionOf(gauges[id]));
        todo := todo - {id};
      }
    }

    /** Resets the stored positions and moves every gauge to its default position. */
    method ResetPositions()
      modifies this`gauges, config`positions
      ensures config.positions == map[]
      ensures gauges.Keys == old(gauges).Keys
      ensures forall id :: id in gauges ==>
                gauges[id] == old(gauges)[id].(x := config.defaultPositionOf(id).x, y := config.defaultPositionOf(id).y)
    {
      config.ResetWindowPositions();
      var todo := gauges.Keys;
      while todo != {}
        invariant todo <= old(gauges).Keys
        invariant gauges.Keys == old(gauges).Keys
        invariant forall id :: id in gauges ==>
                    gauges[id] == if id in todo then old(gauges)[id]
                                  else old(gauges)[id].(x := config.defaultPositionOf(id).x, y := config.defaultPositionOf(id).y)
        invariant config.positions == map[]
        decreases todo
      {
        var id := Pick(todo);
        var position := config.GetWindowPosition(id);
        gauges := gauges[id := gauges[id].(x := position.x, y := position.y)];
        todo := todo - {id};
      }
    }

    /** Every gauge takes its stored position and is drawn exactly when enabled. */
    method ReflectGaugeSetChange()
      modifies this`gauges
      ensures gauges == Reflected(old(gauges), config.enabled, map id | id in old(gauges) :: config.GetWindowPosition(id))
      ensures VisibleOnlyIfEnabled(gauges, config.enabled)
    {
      ghost var stored := map id | id in gauges :: config.GetWindowPosition(id);
      var todo := gauges.Keys;
      while todo != {}
        invariant todo <= old(gauges).Keys
        invariant gauges.Keys == old(gauges).Keys
        invariant forall id :: id in gauges ==>
                    gauges[id] == if id in todo then old(gauges)[id]
                                  else old(gauges)[id].(x := stored[id].x, y := stored[id].y, visible := id in config.enabled)
        decreases todo
      {
        var id := Pick(todo);
        var position := config.GetWindowPosition(id);
        gauges := gauges[id := gauges[id].(x := position.x, y := position.y, visible := config.IsGaugeEnabled(id))];
        todo := todo - {id};
      }
      ReflectedMeaning(old(gauges), config.enabled, stored);
    }
  }
}
