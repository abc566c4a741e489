/**
 * Values of the gauge registry in src/Gauges.cs: gauge records, camera modes,
 * the four camera permissions of the configuration, the rule that decides
 * whether gauges may be shown in a camera, the transition rule of CheckCamera,
 * and the maps the bulk visibility setters produce.
 */
module GaugeModel {
  import opened Wrappers

  datatype Position = Position(x: int, y: int)

  /** A gauge window: top-left corner, size and whether it is drawn. */
  datatype Gauge = Gauge(x: int, y: int, width: int, height: int, visible: bool)

  function PositionOf(g: Gauge): Position
  {
    Position(g.x, g.y)
  }

  /** The host's camera modes; Other stands for every mode the source does not list. */
  datatype CameraMode = Flight | External | IVA | Map | Other

  /** The configuration's per-camera permission to show gauges. */
  datatype Permissions = Permissions(inFlight: bool, inEva: bool, inIva: bool, inMap: bool)

  // ---------------------------------------------------------------------------
  // Camera permission

  /**
   * Whether gauges may be shown in camera `mode`: Flight and External use the
   * EVA permission on EVA and the flight permission otherwise, IVA and Map
   * their own, and any other mode always allows them.
   */
  function IsEnabledInCamera(mode: CameraMode, isEva: bool, p: Permissions): (r: bool)
    ensures (mode == Flight || mode == External) && !isEva ==> r == p.inFlight
    ensures (mode == Flight || mode == External) && isEva ==> r == p.inEva
    ensures mode == IVA ==> r == p.inIva
    ensures mode == Map ==> r == p.inMap
    ensures mode == Other ==> r
  {
    match mode
    case External | Flight => if !isEva then p.inFlight else p.inEva
    case IVA => p.inIva
    case Map => p.inMap
    case Other => true
  }

  /** The permissions after SetEnabledInCamera(mode, enabled) stored its flag. */
  function WithCameraPermission(p: Permissions, mode: CameraMode, enabled: bool): Permissions
  {
    match mode
    case External | Flight => p.(inFlight := enabled)
    case IVA => p.(inIva := enabled)
    case Map => p.(inMap := enabled)
    case Other => p
  }

  /** Whether the non-EVA rule of `mode` reads the same flag as camera `m` with EVA flag `eva`. */
  predicate SharesFlag(mode: CameraMode, m: CameraMode, eva: bool)
  {
    || ((mode == Flight || mode == External) && (m == Flight || m == External) && !eva)
    || (mode == IVA && m == IVA)
    || (mode == Map && m == Map)
  }

  /**
   * Setting the permission of a listed camera mode changes the answer exactly
   * for the cameras that read that flag, to the value set.
   */
  lemma CameraPermissionUpdate(p: Permissions, mode: CameraMode, enabled: bool, m: CameraMode, eva: bool)
    requires mode != Other
    ensures IsEnabledInCamera(m, eva, WithCameraPermission(p, mode, enabled))
            == if SharesFlag(mode, m, eva) then enabled else IsEnabledInCamera(m, eva, p)
  {
  }

  // ---------------------------------------------------------------------------
  // Camera transitions

  /** The last camera mode and EVA flag the registry observed. */
  datatype CameraState = CameraState(mode: CameraMode, isEva: bool)

  /** CheckCamera acts when forced, when the mode changed, or when the EVA flag changed in Flight. */
  predicate CameraChanged(force: bool, s: CameraState, camMode: CameraMode, evaCam: bool)
  {
    force || camMode != s.mode || (camMode == Flight && evaCam != s.isEva)
  }

  /**
   * The visibility CheckCamera applies to the enabled gauges, None when it
   * does nothing, following the source's branches in order.
   */
  function CameraVisibility(force: bool, s: CameraState, camMode: CameraMode, evaCam: bool,
                            p: Permissions): (r: Option<bool>)
    ensures r.Some? <==> CameraChanged(force, s, camMode, evaCam)
    ensures r.Some? ==> r.value == IsEnabledInCamera(camMode, evaCam && camMode == Flight, p)
  {
    if !CameraChanged(force, s, camMode, evaCam) then None
    else if force then
      if camMode == Flight && evaCam then Some(p.inEva) else Some(IsEnabledInCamera(camMode, false, p))
    else if camMode == Flight && evaCam then Some(p.inEva)
    else if camMode == Flight && !evaCam then Some(IsEnabledInCamera(camMode, false, p))
    else if camMode != s.mode then Some(IsEnabledInCamera(camMode, false, p))
    else None
  }

  /** The state CheckCamera stores: the observation, when it acted. */
  function NextCameraState(force: bool, s: CameraState, camMode: CameraMode, evaCam: bool): (r: CameraState)
    ensures r.mode == camMode
  {
    if CameraChanged(force, s, camMode, evaCam) then CameraState(camMode, evaCam) else s
  }

  /** Without force, an unchanged mode, and an unchanged EVA flag in Flight, nothing happens. */
  lemma CameraUnchangedNoAction(s: CameraState, camMode: CameraMode, evaCam: bool, p: Permissions)
    requires camMode == s.mode && (camMode != Flight || evaCam == s.isEva)
    ensures CameraVisibility(false, s, camMode, evaCam, p) == None
    ensures NextCameraState(false, s, camMode, evaCam) == s
  {
  }

  /** A second unforced check with the same observation does nothing. */
  lemma CameraCheckIdempotent(force: bool, s: CameraState, camMode: CameraMode, evaCam: bool, p: Permissions)
    ensures var s' := NextCameraState(force, s, camMode, evaCam);
      CameraVisibility(false, s', camMode, evaCam, p) == None
      && NextCameraState(false, s', camMode, evaCam) == s'
  {
  }

  /**
   * Going on EVA in Flight applies the EVA permission; coming back from EVA
   * applies the flight permission.
   */
  lemma CameraEvaSwitch(s: CameraState, evaCam: bool, p: Permissions)
    requires s.mode == Flight && evaCam != s.isEva
    ensures CameraVisibility(false, s, Flight, evaCam, p) == Some(if evaCam then p.inEva else p.inFlight)
  {
  }

  /**
   * In the External camera on EVA, CheckCamera applies the flight permission,
   * while IsEnabledInCamera with the EVA flag (used by ShowGauges and
   * SetGaugeEnabled) reads the EVA permission.
   */
  lemma CameraExternalEvaUsesFlightPermission(s: CameraState, p: Permissions)
    requires s.mode != External
    ensures CameraVisibility(false, s, External, true, p) == Some(p.inFlight)
    ensures IsEnabledInCamera(External, true, p) == p.inEva
  {
  }

  // ---------------------------------------------------------------------------
  // Visibility of the registered gauges

  /** The data-model invariant: only gauges enabled in the configuration are drawn. */
  ghost predicate VisibleOnlyIfEnabled(m: map<int, Gauge>, enabled: set<int>)
  {
    forall id :: id in m && m[id].visible ==> id in enabled
  }

  /** Everything of a gauge but its visibility is the same in both records. */
  predicate SameGeometry(g: Gauge, h: Gauge)
  {
    g.x == h.x && g.y == h.y && g.width == h.width && g.height == h.height
  }

  /** SetEnabledGaugesVisible(v): each gauge drawn exactly when it is enabled and v holds. */
  function EnabledVisible(m: map<int, Gauge>, enabled: set<int>, v: bool): (r: map<int, Gauge>)
    ensures r.Keys == m.Keys
  {
    map id | id in m :: m[id].(visible := id in enabled && v)
  }

  /**
   * After SetEnabledGaugesVisible(v) the invariant holds, every gauge keeps its
   * geometry, with v false nothing is drawn and with v true exactly the enabled
   * gauges are.
   */
  lemma EnabledVisibleMeaning(m: map<int, Gauge>, enabled: set<int>, v: bool)
    ensures VisibleOnlyIfEnabled(EnabledVisible(m, enabled, v), enabled)
    ensures forall id :: id in m ==> SameGeometry(EnabledVisible(m, enabled, v)[id], m[id])
    ensures !v ==> forall id :: id in m ==> !EnabledVisible(m, enabled, v)[id].visible
    ensures v ==> forall id :: id in m ==> (EnabledVisible(m, enabled, v)[id].visible <==> id in enabled)
  {
  }

  /** Applying the same visibility twice is applying it once. */
  lemma EnabledVisibleIdempotent(m: map<int, Gauge>, enabled: set<int>, v: bool)
    ensures EnabledVisible(EnabledVisible(m, enabled, v), enabled, v) == EnabledVisible(m, enabled, v)
  {
  }

  /**
   * ShowGauges: every gauge that is enabled in a camera that permits gauges
   * becomes visible; every other gauge is left as it is.
   */
  function ShowEnabled(m: map<int, Gauge>, enabled: set<int>, permitted: bool): (r: map<int, Gauge>)
    ensures r.Keys == m.Keys
  {
    map id | id in m :: if id in enabled && permitted then m[id].(visible := true) else m[id]
  }

  lemma ShowEnabledMeaning(m: map<int, Gauge>, enabled: set<int>, permitted: bool)
    ensures forall id :: id in m ==>
              SameGeometry(ShowEnabled(m, enabled, permitted)[id], m[id])
              && ShowEnabled(m, enabled, permitted)[id].visible
                 == (m[id].visible || (id in enabled && permitted))
    ensures VisibleOnlyIfEnabled(m, enabled) ==> VisibleOnlyIfEnabled(ShowEnabled(m, enabled, permitted), enabled)
  {
  }

  /**
   * The visibility SetGaugeEnabled gives a gauge: disabling always hides it,
   * enabling a hidden gauge shows it exactly when the camera permits, and an
   * enabled gauge that is already visible stays visible.
   */
  function NewVisibility(visible: bool, enabled: bool, permitted: bool): (r: bool)
    ensures !enabled ==> !r
    ensures enabled && !visible ==> r == permitted
    ensures enabled && visible ==> r
  {
    if enabled != visible then enabled && permitted else visible
  }

  /**
   * ReflectGaugeSetChange: each gauge takes its stored position and is drawn
   * exactly when it is enabled.
   */
  function Reflected(m: map<int, Gauge>, enabled: set<int>, stored: map<int, Position>): (r: map<int, Gauge>)
    requires m.Keys <= stored.Keys
    ensures r.Keys == m.Keys
  {
    map id | id in m :: m[id].(x := stored[id].x, y := stored[id].y, visible := id in enabled)
  }

  lemma ReflectedMeaning(m: map<int, Gauge>, enabled: set<int>, stored: map<int, Position>)
    requires m.Keys <= stored.Keys
    ensures VisibleOnlyIfEnabled(Reflected(m, enabled, stored), enabled)
    ensures forall id :: id in m ==>
              var g := Reflected(m, enabled, stored)[id];
              PositionOf(g) == stored[id] && g.visible == (id in enabled)
              && g.width == m[id].width && g.height == m[id].height
  {
  }
}
