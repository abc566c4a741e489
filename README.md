# NanoGauges core in Dafny

NanoGauges is a plug-in that draws small gauge windows over the flight
scene. This project models four parts of it and proves properties about them:

- **The gauge registry** (`src/Gauges.cs`), in modules `GaugeModel`, `Layout`,
  `Clustering` and `GaugeRegistry`. Gauges are registered under their window
  ids, and the first registration of an id wins. Which gauges are drawn
  depends on the enabled set of the configuration and on per-camera
  permissions. `CheckCamera` reacts to a change of camera mode or EVA state.
  The auto-layout walks the visible gauges in sorted order and snaps them into
  rows. The clustering finds the gauges reachable over the neighbour relation.
  The class `GaugeRegistry.Gauges` holds the registry's mutable state: the gauge
  map, the hide flag, and the last observed camera mode and EVA flag. The class
  `GaugeRegistry.Configuration` stands for the configuration store: the enabled
  ids, the stored window positions and the four camera permissions.
- **The sensor sampler** (`src/inspecteurs/SensorInspecteur.cs`), in module
  `SensorInspecteur`. The scan collects the environment sensors of thermometer
  and gravimeter parts. One inspection cleans each readout, parses it, and
  averages the readings per quantity. Its class keeps the sampler's fields.
- **The text gauge display rule** (`src/gauges/base/HorizontalTextGauge.cs`),
  in module `HorizontalTextGauge`. A null text shows as "N/A", and a longer
  text is cut to 13 characters.
- **The helpers** (`src/util/Extensions.cs`), in module `Extensions`: the
  closed-interval test `In` and the radar altitude.

Host queries are parameters of the operations that make them:

- the current camera mode, and whether the active vessel is on EVA;
- the screen width, and the visible gauges in sorted order;
- the vessel being scanned, and what each sensor module reads out;
- the number parser, as a partial function `string -> Option<real>`.

The base gauge width and height are constructor parameters. The layout cell
and range sizes are derived from them as the source does:
`cell = size + 8` and `range = 3 * cell / 2`, with integer division.

Camera mode `Other` stands for every camera mode that the source's `switch`
statements do not list.

Where the model and the code could be read differently, the model follows the
code:

- In the External camera on EVA, `CheckCamera` applies the flight permission.
  Its EVA branches test for the Flight mode only. `ShowGauges` and
  `SetGaugeEnabled` pass the EVA flag to `IsEnabledInCamera`, so there the EVA
  permission applies. The lemma `CameraExternalEvaUsesFlightPermission` states
  both sides.
- `SetGaugeEnabled(id, true)` leaves an already visible gauge visible, even when
  the camera forbids gauges. It only recomputes the visibility when the
  requested state differs from the visible flag.
- `ReflectGaugeSetChange` shows every enabled gauge. It ignores the camera
  permission and the hide flag.
- In the auto-layout, a gauge that starts a new line is not checked for screen
  overflow. Only a gauge that continues a line is.
- In the auto-layout, the walk uses a negative running x as its "no gauge yet"
  mark. Once a gauge is placed at a negative x, the next gauge seeds the walk
  again and is neither moved nor stored.
- The layout comparator is not transitive (`CompareNotTransitive`). The
  sorted order is therefore an input, and no sortedness is assumed of it.

## Model

| member | source | states |
|---|---|---|
| `Extensions.In` | src/util/Extensions.cs:51-55 | the result is true exactly when a <= x <= b |
| `Extensions.InClosed` | src/util/Extensions.cs:53 | both ends of a non-empty interval belong to it |
| `Extensions.InEmptyWhenReversed` | src/util/Extensions.cs:53 | no x lies in an interval whose lower end exceeds its upper end |
| `Extensions.RadarAltitude` | src/util/Extensions.cs:18-33 | 0 without a main body; over an ocean body the altitude over the terrain when the terrain is above sea level and the altitude otherwise, never more than the altitude; without an ocean the altitude over the terrain |
| `HorizontalTextGauge.DisplayText` | src/gauges/base/HorizontalTextGauge.cs:49-60 | null shows as "N/A"; a text shows as a prefix of itself of at most 13 characters, unchanged when it has at most 13 and exactly 13 long otherwise |
| `HorizontalTextGauge.DisplayTextIdempotent` | src/gauges/base/HorizontalTextGauge.cs:56-59 | displaying a displayed text changes nothing |
| `HorizontalTextGauge.DisplayTextSeesOnlyPrefix` | src/gauges/base/HorizontalTextGauge.cs:56-59 | long texts that agree on their first 13 characters display alike |
| `HorizontalTextGauge.TextGauge.constructor` | src/gauges/base/HorizontalTextGauge.cs:20 | a new gauge has no text style yet |
| `HorizontalTextGauge.TextGauge.OnWindow` | src/gauges/base/HorizontalTextGauge.cs:37-64 | a draw creates the text style if missing and draws the display text of the gauge's text |
| `HorizontalTextGauge.TextGauge.IsOn` | src/gauges/base/HorizontalTextGauge.cs:84-87 | always true |
| `HorizontalTextGauge.TextGauge.IsInLimits` | src/gauges/base/HorizontalTextGauge.cs:97-100 | always true |
| `HorizontalTextGauge.TextGauge.On` | src/gauges/base/HorizontalTextGauge.cs:76-78 | changes nothing; the gauge still reports on |
| `HorizontalTextGauge.TextGauge.Off` | src/gauges/base/HorizontalTextGauge.cs:80-82 | changes nothing; the gauge still reports on |
| `HorizontalTextGauge.TextGauge.InLimits` | src/gauges/base/HorizontalTextGauge.cs:89-91 | changes nothing; the gauge still reports in limits |
| `HorizontalTextGauge.TextGauge.OutOfLimits` | src/gauges/base/HorizontalTextGauge.cs:93-95 | changes nothing; the gauge still reports in limits |
| `HorizontalTextGauge.TextGauge.Reset` | src/gauges/base/HorizontalTextGauge.cs:102-104 | changes nothing |
| `SensorInspecteur.ModuleSensorsMembers` | src/inspecteurs/SensorInspecteur.cs:55-62 | a sensor is collected from a module list exactly when it is one of its environment sensor modules |
| `SensorInspecteur.PartSensorsMembers` | src/inspecteurs/SensorInspecteur.cs:51-63 | a part contributes a sensor exactly when it is named "sensorThermometer" or "sensorGravimeter" and carries that sensor module |
| `SensorInspecteur.PartsSensorsMembers` | src/inspecteurs/SensorInspecteur.cs:45-65 | a sensor is collected from a part list exactly when some part of it contributes it |
| `SensorInspecteur.PartsSensorsSound` | src/inspecteurs/SensorInspecteur.cs:45-65 | every sensor collected from a part list is carried by one of its sensor parts |
| `SensorInspecteur.PartsSensorsComplete` | src/inspecteurs/SensorInspecteur.cs:45-65 | every sensor a sensor part of the list carries is collected |
| `SensorInspecteur.VesselSensorsMembers` | src/inspecteurs/SensorInspecteur.cs:43-65 | a scan collects exactly the sensors of the thermometer and gravimeter parts, and nothing for a null vessel or part list |
| `SensorInspecteur.CleanTemperature` | src/inspecteurs/SensorInspecteur.cs:96 | the cleaned readout is no longer than the readout |
| `SensorInspecteur.CleanTemperatureNumbersOnly` | src/inspecteurs/SensorInspecteur.cs:96 | the cleaned readout holds only '-', '.' and digits |
| `SensorInspecteur.CleanTemperatureConcat` | src/inspecteurs/SensorInspecteur.cs:96 | cleaning works character by character and keeps the order |
| `SensorInspecteur.CleanTemperatureKeepsNumbers` | src/inspecteurs/SensorInspecteur.cs:96 | a readout of '-', '.' and digits only is kept unchanged |
| `SensorInspecteur.CleanTemperatureDropsText` | src/inspecteurs/SensorInspecteur.cs:96-97 | a readout without those characters cleans to the empty text |
| `SensorInspecteur.TextTemperatureSkipped` | src/inspecteurs/SensorInspecteur.cs:96-97 | a temperature readout without number characters gives no reading, whatever the parser makes of the empty text |
| `SensorInspecteur.CleanTemperatureIdempotent` | src/inspecteurs/SensorInspecteur.cs:96 | cleaning twice is cleaning once |
| `SensorInspecteur.CleanTemperatureExample` | src/inspecteurs/SensorInspecteur.cs:96 | "123.4 K" cleans to "123.4" |
| `SensorInspecteur.TemperatureText` | src/inspecteurs/SensorInspecteur.cs:96-97 | the parsed text is the cleaned readout and is non-empty; the readout is skipped only when it cleans to the empty text |
| `SensorInspecteur.TemperatureTextNone` | src/inspecteurs/SensorInspecteur.cs:96-97 | a temperature readout is skipped exactly when it holds no '-', '.' or digit |
| `SensorInspecteur.GravityText` | src/inspecteurs/SensorInspecteur.cs:118-120 | a readout of 5 or fewer characters is skipped; otherwise the parsed text is the readout without exactly its last 5 characters |
| `SensorInspecteur.GravityTextExample` | src/inspecteurs/SensorInspecteur.cs:118-120 | "9.81 m/s2" is parsed as "9.81" |
| `SensorInspecteur.ReadingOf` | src/inspecteurs/SensorInspecteur.cs:88-137 | a TEMP sensor gives the parse of its cleaned non-empty readout, a GRAV sensor the parse of its readout without the suffix, and a failed parse, a null readout, a null or unknown type give nothing, in both directions |
| `SensorInspecteur.NumericTemperatureReading` | src/inspecteurs/SensorInspecteur.cs:91-104 | a TEMP readout of number characters is parsed as it stands, and contributes nothing when the parse fails |
| `SensorInspecteur.ReadingsStep` | src/inspecteurs/SensorInspecteur.cs:147-150 | one more sensor adds its reading to the sum and count of its own quantity and leaves the other quantity alone |
| `SensorInspecteur.MeanBounds` | src/inspecteurs/SensorInspecteur.cs:152-159 | an average lies between the smallest and the largest reading |
| `SensorInspecteur.AveragingExample` | src/inspecteurs/SensorInspecteur.cs:139-159 | thermometers reading 10.0 and 20.0 and one unparsable readout average to 15.0 over two readings |
| `SensorInspecteur.SensorInspecteur.constructor` | src/inspecteurs/SensorInspecteur.cs:24-28 | a new sampler is reset and has no sensors |
| `SensorInspecteur.SensorInspecteur.Reset` | src/inspecteurs/SensorInspecteur.cs:31-39 | values 0, flags false, counts 0; the sensor list is kept |
| `SensorInspecteur.SensorInspecteur.ScanVessel` | src/inspecteurs/SensorInspecteur.cs:41-66 | the sensor list is replaced by the sensors of the vessel's thermometer and gravimeter parts, in part and module order |
| `SensorInspecteur.SensorInspecteur.InspectSensor` | src/inspecteurs/SensorInspecteur.cs:88-137 | the sensor's reading is added to the sum and count of its quantity, which becomes enabled; no reading changes nothing |
| `SensorInspecteur.SensorInspecteur.Inspect` | src/inspecteurs/SensorInspecteur.cs:139-161 | each value becomes the mean of the readings (0 without any), each count their number, each flag true exactly when its count is positive; the sensor list is kept |
| `GaugeModel.IsEnabledInCamera` | src/Gauges.cs:269-284 | Flight and External read the flight permission, or the EVA permission on EVA; IVA and Map read their own; any other mode allows gauges |
| `GaugeModel.CameraPermissionUpdate` | src/Gauges.cs:335-363 | storing a listed mode's permission changes the answer exactly for the cameras that read that permission |
| `GaugeModel.CameraVisibility` | src/Gauges.cs:286-333 | the check acts exactly when forced, when the mode changed, or when the EVA flag changed in Flight, and then applies the permission of the observed camera, EVA counting only in Flight |
| `GaugeModel.NextCameraState` | src/Gauges.cs:292-331 | afterwards the stored mode is the observed one |
| `GaugeModel.CameraUnchangedNoAction` | src/Gauges.cs:292 | without force, with an unchanged mode and an unchanged EVA flag in Flight, nothing changes |
| `GaugeModel.CameraCheckIdempotent` | src/Gauges.cs:286-333 | a second unforced check with the same observation does nothing |
| `GaugeModel.CameraEvaSwitch` | src/Gauges.cs:309-322 | in Flight, going on EVA applies the EVA permission and coming back applies the flight permission |
| `GaugeModel.CameraExternalEvaUsesFlightPermission` | src/Gauges.cs:323-329 | switching to External on EVA applies the flight permission, while the camera rule with EVA reads the EVA permission |
| `GaugeModel.EnabledVisible` | src/Gauges.cs:115-123 | setting the visibility keeps the registered ids |
| `GaugeModel.EnabledVisibleMeaning` | src/Gauges.cs:115-123 | only enabled gauges are drawn and geometry is kept; with false nothing is drawn, with true exactly the enabled gauges |
| `GaugeModel.EnabledVisibleIdempotent` | src/Gauges.cs:115-123 | applying the same visibility twice is applying it once |
| `GaugeModel.ShowEnabled` | src/Gauges.cs:170-177 | showing keeps the registered ids |
| `GaugeModel.ShowEnabledMeaning` | src/Gauges.cs:170-177 | a gauge is drawn afterwards when it was before, or when it is enabled and the camera permits; geometry is kept |
| `GaugeModel.NewVisibility` | src/Gauges.cs:494-497 | disabling hides; enabling a hidden gauge shows it exactly when the camera permits; an enabled visible gauge stays visible |
| `GaugeModel.Reflected` | src/Gauges.cs:572-582 | reflecting keeps the registered ids |
| `GaugeModel.ReflectedMeaning` | src/Gauges.cs:572-582 | every gauge takes its stored position and is drawn exactly when enabled, and keeps its size |
| `Layout.MetricsFor` | src/Gauges.cs:20-24 | cell = size + 8, range = 3 * cell / 2 rounded down, and each range exceeds its cell |
| `Layout.Compare` | src/Gauges.cs:394-404 | gauges in the same row compare by x, others by y, with -1, 0 or 1 |
| `Layout.CompareAntisymmetric` | src/Gauges.cs:394-404 | swapping the operands negates the comparison |
| `Layout.CompareNotTransitive` | src/Gauges.cs:394-404 | three gauges compare below one another round a cycle |
| `Layout.Step` | src/Gauges.cs:413-475 | a gauge met while x < 0 seeds the walk where it is; a lower gauge starts a new line further down at the line start, or at its own x in an independent column; a gauge next to x on the line moves one cell right; on overflow x returns to the line start and y goes up one cell |
| `Layout.LayoutFrom` | src/Gauges.cs:406-480 | a layout keeps the registered ids |
| `Layout.LayoutKeepsOthers` | src/Gauges.cs:406-480 | sizes and visibility are kept, and a gauge not walked is neither moved nor stored |
| `Layout.LayoutUnplacedUntouched` | src/Gauges.cs:415-421 | with distinct ids, a gauge that is not placed keeps its position and stored position |
| `Layout.LayoutSynced` | src/Gauges.cs:476-477 | every placed gauge stores the same position as it shows |
| `Layout.LayoutKeepsFirst` | src/Gauges.cs:415-421 | the first gauge of a layout keeps its position |
| `Layout.LayoutPlacesSecond` | src/Gauges.cs:415-477 | the second gauge is placed by the step from the state the first one seeded |
| `Clustering.NearSymmetric` | src/Gauges.cs:541 | nearness is symmetric: both ranges are centred and closed |
| `Clustering.Neighbours` | src/Gauges.cs:531-549 | the neighbours are registered gauges and never the queried gauge |
| `Clustering.AdjacentSymmetric` | src/Gauges.cs:531-549 | two registered gauges are each other's neighbours or neither is |
| `Clustering.ClosedHoldsCluster` | src/Gauges.cs:559-570 | a set that holds the start's neighbours and is closed under neighbours holds the whole cluster |
| `Clustering.ClusterClosed` | src/Gauges.cs:559-570 | a cluster holds the start's neighbours and is closed under neighbours |
| `Clustering.ClusterHoldsStart` | src/Gauges.cs:552-570 | the start is in its cluster exactly when it has a neighbour |
| `Clustering.ClusterOfMember` | src/Gauges.cs:552-570 | every member of a cluster has the same cluster |
| `Clustering.NeighbourCluster` | src/Gauges.cs:559-570 | a neighbour is in the cluster and has the same cluster |
| `Clustering.ClusterExample` | src/Gauges.cs:552-570 | two 40-pixel gauges 50 pixels apart form one cluster, and a distant gauge has an empty cluster |
| `GaugeRegistry.Registered` | src/Gauges.cs:224-235 | the registered ids are exactly the ids of the registrations |
| `GaugeRegistry.RegisteredFirstWins` | src/Gauges.cs:224-235 | an id maps to the gauge of its first registration |
| `GaugeRegistry.WithOptional` | src/Gauges.cs:237-248 | the optional gauges add exactly the ids of the present ones |
| `GaugeRegistry.CollectStep` | src/Gauges.cs:559-570 | recursing into a new neighbour keeps everything gathered inside the cluster and closed under neighbours |
| `GaugeRegistry.Gauges.constructor` | src/Gauges.cs:26-92 | the catalogue is registered first-wins, then the present optional gauges, whose ids must be new; absent optional gauges are never added; the registry is shown, in Flight, not on EVA |
| `GaugeRegistry.Gauges.AddGauge` | src/Gauges.cs:224-235 | a registered id leaves the registry unchanged; a new id adds exactly that gauge |
| `GaugeRegistry.Gauges.AddOptionalGauge` | src/Gauges.cs:242-248 | a present gauge is added under its new id; an absent one changes nothing |
| `GaugeRegistry.Gauges.SetEnabledGaugesVisible` | src/Gauges.cs:115-123 | every gauge is drawn exactly when it is enabled and the argument is true |
| `GaugeRegistry.Gauges.Hide` | src/Gauges.cs:125-129 | no gauge is drawn and the hide flag is set |
| `GaugeRegistry.Gauges.Unhide` | src/Gauges.cs:131-135 | exactly the enabled gauges are drawn and the hide flag is cleared |
| `GaugeRegistry.Gauges.ShowGauges` | src/Gauges.cs:161-177 | the sampler is reset, the camera observation is stored, and each enabled gauge is shown if the camera permits |
| `GaugeRegistry.Gauges.CheckCamera` | src/Gauges.cs:286-333 | the gauges and the stored camera follow CameraVisibility and NextCameraState |
| `GaugeRegistry.Gauges.SetEnabledInCamera` | src/Gauges.cs:335-363 | the mode's permission is stored; if it changed, the permission of the observed camera is applied to the enabled gauges and the camera stored; otherwise nothing changes |
| `GaugeRegistry.Gauges.SetEnabledInEva` | src/Gauges.cs:365-374 | the EVA permission is stored; if it changed, a forced camera check follows; otherwise nothing changes |
| `GaugeRegistry.Gauges.SetGaugeEnabled` | src/Gauges.cs:491-499 | the id's enabled flag becomes the argument, its visibility follows NewVisibility under the stored camera mode, and no other gauge changes |
| `GaugeRegistry.Gauges.SetAllGaugesEnabled` | src/Gauges.cs:501-515 | SetGaugeEnabled for every registered gauge |
| `GaugeRegistry.Gauges.EnableAllGauges` | src/Gauges.cs:501-507 | every gauge is enabled; a hidden gauge is shown exactly when the camera permits |
| `GaugeRegistry.Gauges.DisableAllGauges` | src/Gauges.cs:509-515 | every gauge is disabled and no gauge is drawn |
| `GaugeRegistry.Gauges.AutoLayout` | src/Gauges.cs:382-483 | the gauges and stored positions are the layout of the sorted visible gauges; invisible gauges are not moved; the first keeps its position; every moved gauge stores the position it shows |
| `GaugeRegistry.Gauges.GetNeighbours` | src/Gauges.cs:531-549 | the result is exactly the other gauges within both ranges of the position |
| `GaugeRegistry.Gauges.CollectCluster` | src/Gauges.cs:559-570 | the recursive step gathers the gauge's neighbours and only members of its cluster, each with its neighbours |
| `GaugeRegistry.Gauges.GetCluster` | src/Gauges.cs:552-557 | the result is exactly the gauges reachable in one or more neighbour steps; it is closed under neighbours and holds the start exactly when the start has a neighbour |
| `GaugeRegistry.Gauges.SaveWindowPositions` | src/Gauges.cs:193-201 | every gauge's position is stored, and reading the store back gives it |
| `GaugeRegistry.Gauges.ResetPositions` | src/Gauges.cs:203-212 | the stored positions are cleared, and every gauge moves to its default position |
| `GaugeRegistry.Gauges.ReflectGaugeSetChange` | src/Gauges.cs:572-582 | every gauge takes its stored position and is drawn exactly when it is enabled |

## Left out

- Rendering is not modelled: `DrawGauges`, the post-draw queue, textures, `GUI.Label` and the float `Rect` scaling. `OnWindow` returns the text it would draw.
- The text style's font size is a float product, and only whether the style exists is modelled.
- `ShowGauges` also resets each shown gauge and the other four inspecteurs. Per-gauge state and those inspecteurs are not part of this model. Only the sensor sampler's `Reset` is modelled.
- `Update` and the `Inspecteur` base class decide when a scan and an inspection run. That timing is not part of this model.
- Gauges are values in a map, not shared objects, so aliasing of gauge objects is not modelled.
- The configuration store is a plain class holding the enabled ids, the stored positions and the four permissions. Its persistence, and the defaults behind `defaultPositionOf`, are not part of this model.
- The configuration's getters, the registry's `Hidden` and the sampler's getters are plain field reads and have no rows of their own.
- `GaugeRegistry.Gauges.SetGaugeEnabled`: an id that is not registered makes the source throw `KeyNotFoundException` at `gauges[id]`; here a registered id is a precondition, and that error path is not modelled.
- `List.Sort` is not modelled. `AutoLayout` takes the sorted visible ids as a parameter.
- `GaugeRegistry.Gauges.AutoLayout`: states the layout of any order of the visible gauges, because the comparator is not transitive and the outcome of the sort is not determined.
- Integers are unbounded. The model does not wrap at 32 bits when positions or sizes overflow.
- Text lengths count characters, not UTF-16 code units.
- `double.Parse` is a parameter, and sums and means are exact reals rather than IEEE doubles.
- `part.Unpack()` for packed parts only affects the host, and is left out.
- A null sensor entry cannot arise from a scan, which only adds sensor modules. The model does not represent one.
- `CopySelectorPositionFrom`, `ShowCloseButtons`, `ResetGauges`, `GetGauge`, `ContainsId` and the enumerators are outside the modelled core.
- The hard-coded gauge catalogue is a constructor parameter. Whether each optional gauge's resource exists is a flag in that parameter.
- Logging and the `volatile` qualifiers are not modelled.
- `AtmosphereDepth`, `IsDrill` and `DrillTempGauge` are not part of this model.
