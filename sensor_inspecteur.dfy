/**
 * The sensor sampler of src/inspecteurs/SensorInspecteur.cs. It collects the
 * environment sensors of the thermometer and gravimeter parts of a vessel,
 * cleans their free-text readouts, parses them and averages temperature and
 * gravity over the sensors whose readout parsed.
 *
 * The host is reached through parameters: the vessel is a value, the current
 * type and readout text of a sensor come from `read`, and the number parser
 * (`double.Parse`) is `parse`, which yields None where the source catches a
 * parse exception.
 */
module SensorInspecteur {
  import opened Wrappers

  const TEMP: string := "TEMP"
  const GRAV: string := "GRAV"
  const THERMOMETER: string := "sensorThermometer"
  const GRAVIMETER: string := "sensorGravimeter"

  /** Length of the unit suffix of a gravity readout. */
  const GRAV_SUFFIX_LENGTH: nat := 5

  /** Identity of an environment sensor module on the host. */
  type SensorHandle = int

  datatype PartModule = EnviroSensor(sensor: SensorHandle) | OtherModule
  datatype Part = Part(name: Option<string>, modules: seq<PartModule>)

  /** A vessel; `parts` is None where the host's part list is null. */
  datatype Vessel = Vessel(parts: Option<seq<Part>>)

  /** What a sensor module shows right now; either field may be null. */
  datatype SensorReadout = SensorReadout(sensorType: Option<string>, readoutInfo: Option<string>)

  /** The value one sensor contributes to an inspection. */
  datatype Reading = Temperature(value: real) | Gravity(value: real) | NoReading

  // ---------------------------------------------------------------------------
  // Source discovery

  predicate IsSensorPart(p: Part)
  {
    p.name == Some(THERMOMETER) || p.name == Some(GRAVIMETER)
  }

  /** The environment sensors among a part's modules, in order. */
  function ModuleSensors(ms: seq<PartModule>): seq<SensorHandle>
  {
    if ms == [] then []
    else
      var last := ms[|ms| - 1];
      ModuleSensors(ms[..|ms| - 1]) + (if last.EnviroSensor? then [last.sensor] else [])
  }

  function PartSensors(p: Part): seq<SensorHandle>
  {
    if IsSensorPart(p) then ModuleSensors(p.modules) else []
  }

  /** The sensors of a part list, part by part in order. */
  function PartsSensors(ps: seq<Part>): seq<SensorHandle>
  {
    if ps == [] then [] else PartsSensors(ps[..|ps| - 1]) + PartSensors(ps[|ps| - 1])
  }

  /** The sensor list a scan of `vessel` produces; empty for a null vessel or part list. */
  function VesselSensors(vessel: Option<Vessel>): seq<SensorHandle>
  {
    if vessel.None? || vessel.value.parts.None? then [] else PartsSensors(vessel.value.parts.value)
  }

  lemma {:induction false} ModuleSensorsMembers(ms: seq<PartModule>, s: SensorHandle)
    ensures s in ModuleSensors(ms) <==> EnviroSensor(s) in ms
  {
    if ms != [] {
      ModuleSensorsMembers(ms[..|ms| - 1], s);
      assert ms == ms[..|ms| - 1] + [ms[|ms| - 1]];
    }
  }

  /** Part p carries the sensor module s and is one of the two sensor parts. */
  predicate CarriesSensor(p: Part, s: SensorHandle)
  {
    IsSensorPart(p) && EnviroSensor(s) in p.modules
  }

  lemma PartSensorsMembers(p: Part, s: SensorHandle)
    ensures s in PartSensors(p) <==> CarriesSensor(p, s)
  {
    ModuleSensorsMembers(p.modules, s);
  }

  /** A sensor collected from a part list comes from some part that carries it. */
  lemma {:induction false} PartsSensorsSound(ps: seq<Part>, s: SensorHandle)
    requires s in PartsSensors(ps)
    ensures exists i :: 0 <= i < |ps| && CarriesSensor(ps[i], s)
  {
    var n := |ps| - 1;
    var front := ps[..n];
    assert PartsSensors(ps) == PartsSensors(front) + PartSensors(ps[n]);
    if s in PartsSensors(front) {
      PartsSensorsSound(front, s);
      var i :| 0 <= i < n && CarriesSensor(front[i], s);
      assert front[i] == ps[i];
    } else {
      PartSensorsMembers(ps[n], s);
    }
  }

  /** Every sensor a part of the list carries is collected. */
  lemma {:induction false} PartsSensorsComplete(ps: seq<Part>, s: SensorHandle, i: int)
    requires 0 <= i < |ps| && CarriesSensor(ps[i], s)
    ensures s in PartsSensors(ps)
  {
    var n := |ps| - 1;
    var front := ps[..n];
    assert PartsSensors(ps) == PartsSensors(front) + PartSensors(ps[n]);
    if i < n {
      assert front[i] == ps[i];
      PartsSensorsComplete(front, s, i);
    } else {
      PartSensorsMembers(ps[n], s);
    }
  }

  lemma PartsSensorsMembers(ps: seq<Part>, s: SensorHandle)
    ensures s in PartsSensors(ps) <==> exists i :: 0 <= i < |ps| && CarriesSensor(ps[i], s)
  {
    if s in PartsSensors(ps) {
      PartsSensorsSound(ps, s);
    }
    if exists i :: 0 <= i < |ps| && CarriesSensor(ps[i], s) {
      var i :| 0 <= i < |ps| && CarriesSensor(ps[i], s);
      PartsSensorsComplete(ps, s, i);
    }
  }

  /**
   * A scan collects exactly the sensor modules of parts named
   * "sensorThermometer" or "sensorGravimeter", and nothing without a vessel
   * and a part list.
   */
  lemma VesselSensorsMembers(vessel: Option<Vessel>, s: SensorHandle)
    ensures s in VesselSensors(vessel) <==>
              vessel.Some? && vessel.value.parts.Some?
              && exists i :: 0 <= i < |vessel.value.parts.value| && CarriesSensor(vessel.value.parts.value[i], s)
  {
    if vessel.Some? && vessel.value.parts.Some? {
      PartsSensorsMembers(vessel.value.parts.value, s);
    }
  }

  // ---------------------------------------------------------------------------
  // Readout cleaning

  /** The characters a temperature readout keeps: sign, decimal point, digits. */
  predicate IsNumberChar(c: char)
  {
    c == '-' || c == '.' || ('0' <= c && c <= '9')
  }

  /** A temperature readout with every character other than `-`, `.` and a digit removed. */
  function CleanTemperature(readout: string): (r: string)
    ensures |r| <= |readout|
  {
    if readout == [] then []
    else
      var c := readout[|readout| - 1];
      CleanTemperature(readout[..|readout| - 1]) + (if IsNumberChar(c) then [c] else [])
  }

  /** A cleaned readout holds only number characters. */
  lemma {:induction false} CleanTemperatureNumbersOnly(readout: string)
    ensures forall i :: 0 <= i < |CleanTemperature(readout)| ==> IsNumberChar(CleanTemperature(readout)[i])
  {
    if readout != [] {
      CleanTemperatureNumbersOnly(readout[..|readout| - 1]);
    }
  }

  /** Cleaning works character by character, in order. */
  lemma {:induction false} CleanTemperatureConcat(a: string, b: string)
    ensures CleanTemperature(a + b) == CleanTemperature(a) + CleanTemperature(b)
  {
    if b != [] {
      var n := |b| - 1;
      assert (a + b)[..|a + b| - 1] == a + b[..n];
      CleanTemperatureConcat(a, b[..n]);
    } else {
      assert a + b == a;
    }
  }

  /** A readout made of number characters only is kept unchanged. */
  lemma {:induction false} CleanTemperatureKeepsNumbers(readout: string)
    requires forall i :: 0 <= i < |readout| ==> IsNumberChar(readout[i])
    ensures CleanTemperature(readout) == readout
  {
    if readout != [] {
      var n := |readout| - 1;
      CleanTemperatureKeepsNumbers(readout[..n]);
      assert readout == readout[..n] + [readout[n]];
    }
  }

  /** A readout without any number character cleans to the empty text. */
  lemma {:induction false} CleanTemperatureDropsText(readout: string)
    requires forall i :: 0 <= i < |readout| ==> !IsNumberChar(readout[i])
    ensures CleanTemperature(readout) == []
  {
    if readout != [] {
      CleanTemperatureDropsText(readout[..|readout| - 1]);
    }
  }

  /** Cleaning twice is cleaning once. */
  lemma CleanTemperatureIdempotent(readout: string)
    ensures CleanTemperature(CleanTemperature(readout)) == CleanTemperature(readout)
  {
    CleanTemperatureNumbersOnly(readout);
    CleanTemperatureKeepsNumbers(CleanTemperature(readout));
  }

  /** The readout "123.4 K" of a thermometer is parsed as "123.4". */
  lemma CleanTemperatureExample()
    ensures CleanTemperature("123.4 K") == "123.4"
  {
    CleanTemperatureConcat("123.4", " K");
    CleanTemperatureKeepsNumbers("123.4");
    CleanTemperatureDropsText(" K");
    assert "123.4" + " K" == "123.4 K";
  }

  /**
   * The text parsed from a temperature readout: the cleaned readout; None
   * (skipped) when cleaning leaves nothing.
   */
  function TemperatureText(readout: string): (r: Option<string>)
    ensures r.Some? ==> r.value == CleanTemperature(readout) && |r.value| > 0
    ensures r.None? ==> CleanTemperature(readout) == []
  {
    var text := CleanTemperature(readout);
    if |text| > 0 then Some(text) else None
  }

  /** A temperature readout is skipped exactly when it holds no number character. */
  lemma {:induction false} TemperatureTextNone(readout: string)
    ensures TemperatureText(readout).None? <==> forall i :: 0 <= i < |readout| ==> !IsNumberChar(readout[i])
  {
    if forall i :: 0 <= i < |readout| ==> !IsNumberChar(readout[i]) {
      CleanTemperatureDropsText(readout);
    } else {
      var i :| 0 <= i < |readout| && IsNumberChar(readout[i]);
      CleanTemperatureConcat(readout[..i], readout[i..]);
      CleanTemperatureConcat([readout[i]], readout[i + 1..]);
      assert readout[..i] + readout[i..] == readout;
      assert [readout[i]] + readout[i + 1..] == readout[i..];
      assert CleanTemperature([readout[i]]) == CleanTemperature([]) + [readout[i]] by {
        assert [readout[i]][..0] == [];
      }
    }
  }

  /**
   * The text parsed from a gravity readout: the readout without its last
   * GRAV_SUFFIX_LENGTH characters; None (skipped) when it has no more than that.
   */
  function GravityText(readout: string): (r: Option<string>)
    ensures r.None? <==> |readout| <= GRAV_SUFFIX_LENGTH
    ensures r.Some? ==> |r.value| == |readout| - GRAV_SUFFIX_LENGTH
                        && r.value + readout[|readout| - GRAV_SUFFIX_LENGTH..] == readout
  {
    if |readout| > GRAV_SUFFIX_LENGTH then Some(readout[..|readout| - GRAV_SUFFIX_LENGTH]) else None
  }

  /** The readout "9.81 m/s2" of a gravimeter is parsed as "9.81". */
  lemma GravityTextExample()
    ensures GravityText("9.81 m/s2") == Some("9.81")
  {
    assert "9.81 m/s2"[..4] == "9.81";
  }

  // ---------------------------------------------------------------------------
  // Inspection

  /**
   * What one sensor contributes: a temperature for a "TEMP" sensor whose
   * cleaned readout is non-empty and parses, a gravity for a "GRAV" sensor
   * whose readout is longer than its suffix and parses, and nothing otherwise.
   */
  function ReadingOf(s: SensorReadout, parse: string -> Option<real>): (r: Reading)
    ensures r.Temperature? ==> s.sensorType == Some(TEMP) && s.readoutInfo.Some?
                               && TemperatureText(s.readoutInfo.value).Some?
                               && parse(TemperatureText(s.readoutInfo.value).value) == Some(r.value)
    ensures r.Gravity? ==> s.sensorType == Some(GRAV) && s.readoutInfo.Some?
                           && GravityText(s.readoutInfo.value).Some?
                           && parse(GravityText(s.readoutInfo.value).value) == Some(r.value)
    ensures s.sensorType.None? || (s.sensorType != Some(TEMP) && s.sensorType != Some(GRAV)) ==> r.NoReading?
    ensures (s.sensorType == Some(TEMP) && s.readoutInfo.Some? && TemperatureText(s.readoutInfo.value).Some?
             && parse(TemperatureText(s.readoutInfo.value).value).Some?) ==> r.Temperature?
    ensures (s.sensorType == Some(GRAV) && s.readoutInfo.Some? && GravityText(s.readoutInfo.value).Some?
             && parse(GravityText(s.readoutInfo.value).value).Some?) ==> r.Gravity?
  {
    if s.sensorType.None? then NoReading
    else if s.sensorType.value == TEMP then
      if s.readoutInfo.None? then NoReading
      else
        var text := TemperatureText(s.readoutInfo.value);
        if text.Some? && parse(text.value).Some? then Temperature(parse(text.value).value) else NoReading
    else if s.sensorType.value == GRAV then
      if s.readoutInfo.None? then NoReading
      else
        var text := GravityText(s.readoutInfo.value);
        if text.Some? && parse(text.value).Some? then Gravity(parse(text.value).value) else NoReading
    else NoReading
  }

  /**
   * A temperature readout without any number character is skipped, whatever
   * the parser would make of the empty text.
   */
  lemma TextTemperatureSkipped(readout: string, parse: string -> Option<real>)
    requires forall i :: 0 <= i < |readout| ==> !IsNumberChar(readout[i])
    ensures ReadingOf(SensorReadout(Some(TEMP), Some(readout)), parse) == NoReading
  {
    CleanTemperatureDropsText(readout);
  }

  /** The temperatures the sensors contribute, in sensor order. */
  function TempReadings(sensors: seq<SensorHandle>, read: SensorHandle -> SensorReadout,
                        parse: string -> Option<real>): seq<real>
  {
    if sensors == [] then []
    else
      var r := ReadingOf(read(sensors[|sensors| - 1]), parse);
      TempReadings(sensors[..|sensors| - 1], read, parse) + (if r.Temperature? then [r.value] else [])
  }

  /** The gravities the sensors contribute, in sensor order. */
  function GravReadings(sensors: seq<SensorHandle>, read: SensorHandle -> SensorReadout,
                        parse: string -> Option<real>): seq<real>
  {
    if sensors == [] then []
    else
      var r := ReadingOf(read(sensors[|sensors| - 1]), parse);
      GravReadings(sensors[..|sensors| - 1], read, parse) + (if r.Gravity? then [r.value] else [])
  }

  function Sum(xs: seq<real>): real
  {
    if xs == [] then 0.0 else Sum(xs[..|xs| - 1]) + xs[|xs| - 1]
  }

  lemma SumAppend(xs: seq<real>, v: real)
    ensures Sum(xs + [v]) == Sum(xs) + v
  {
    assert (xs + [v])[..|xs|] == xs;
  }

  /** How the readings of a prefix of the sensor list grow by one sensor. */
  lemma ReadingsStep(sensors: seq<SensorHandle>, i: nat, read: SensorHandle -> SensorReadout,
                     parse: string -> Option<real>)
    requires i < |sensors|
    ensures var r := ReadingOf(read(sensors[i]), parse);
      && Sum(TempReadings(sensors[..i + 1], read, parse))
         == Sum(TempReadings(sensors[..i], read, parse)) + (if r.Temperature? then r.value else 0.0)
      && |TempReadings(sensors[..i + 1], read, parse)|
         == |TempReadings(sensors[..i], read, parse)| + (if r.Temperature? then 1 else 0)
      && Sum(GravReadings(sensors[..i + 1], read, parse))
         == Sum(GravReadings(sensors[..i], read, parse)) + (if r.Gravity? then r.value else 0.0)
      && |GravReadings(sensors[..i + 1], read, parse)|
         == |GravReadings(sensors[..i], read, parse)| + (if r.Gravity? then 1 else 0)
  {
    assert sensors[..i + 1][..i] == sensors[..i];
    var r := ReadingOf(read(sensors[i]), parse);
    var ts := TempReadings(sensors[..i], read, parse);
    var gs := GravReadings(sensors[..i], read, parse);
    if r.Temperature? {
      SumAppend(ts, r.value);
      assert gs + [] == gs;
    } else if r.Gravity? {
      SumAppend(gs, r.value);
      assert ts + [] == ts;
    } else {
      assert ts + [] == ts;
      assert gs + [] == gs;
    }
  }

  /** The arithmetic mean, and the neutral 0 for no values at all. */
  function Mean(xs: seq<real>): real
  {
    if |xs| == 0 then 0.0 else Sum(xs) / (|xs| as real)
  }

  lemma {:induction false} SumBounds(xs: seq<real>, lo: real, hi: real)
    requires forall i :: 0 <= i < |xs| ==> lo <= xs[i] <= hi
    ensures (|xs| as real) * lo <= Sum(xs) <= (|xs| as real) * hi
  {
    if xs != [] {
      SumBounds(xs[..|xs| - 1], lo, hi);
    }
  }

  /** A mean lies between the smallest and the largest value averaged. */
  lemma MeanBounds(xs: seq<real>, lo: real, hi: real)
    requires |xs| > 0
    requires forall i :: 0 <= i < |xs| ==> lo <= xs[i] <= hi
    ensures lo <= Mean(xs) <= hi
  {
    SumBounds(xs, lo, hi);
    var n := |xs| as real;
    assert Sum(xs) / n >= lo by {
      assert Sum(xs) >= n * lo;
    }
    assert Sum(xs) / n <= hi by {
      assert Sum(xs) <= n * hi;
    }
  }

  /**
   * Two temperature sensors reading 10.0 and 20.0 and a third whose readout
   * does not parse average to 15.0, and the third is left out of the count.
   */
  lemma AveragingExample(read: SensorHandle -> SensorReadout, parse: string -> Option<real>)
    requires read(1) == SensorReadout(Some(TEMP), Some("10.0"))
    requires read(2) == SensorReadout(Some(TEMP), Some("20.0"))
    requires read(3) == SensorReadout(Some(TEMP), Some("-."))
    requires parse("10.0") == Some(10.0) && parse("20.0") == Some(20.0) && parse("-.") == None
    ensures TempReadings([1, 2, 3], read, parse) == [10.0, 20.0]
    ensures Mean(TempReadings([1, 2, 3], read, parse)) == 15.0
  {
    NumericTemperatureReading("10.0", parse);
    NumericTemperatureReading("20.0", parse);
    NumericTemperatureReading("-.", parse);
    assert TempReadings([1], read, parse) == [10.0] by {
      assert [1][..0] == [];
    }
    assert TempReadings([1, 2], read, parse) == [10.0, 20.0] by {
      assert [1, 2][..1] == [1];
    }
    assert TempReadings([1, 2, 3], read, parse) == [10.0, 20.0] by {
      assert [1, 2, 3][..2] == [1, 2];
    }
    assert Sum([10.0, 20.0]) == 30.0 by {
      assert [10.0, 20.0][..1] == [10.0];
      assert [10.0][..0] == [];
    }
  }

  /** A temperature readout made only of number characters is parsed as it stands. */
  lemma NumericTemperatureReading(text: string, parse: string -> Option<real>)
    requires text != [] && forall i :: 0 <= i < |text| ==> IsNumberChar(text[i])
    ensures ReadingOf(SensorReadout(Some(TEMP), Some(text)), parse)
            == if parse(text).Some? then Temperature(parse(text).value) else NoReading
  {
    CleanTemperatureKeepsNumbers(text);
  }

  // ---------------------------------------------------------------------------
  // The sampler

  class SensorInspecteur {
    var temperature: real
    var gravity: real
    var sensorTempEnabled: bool
    var sensorGravEnabled: bool
    var sensorTempCount: int
    var sensorGravCount: int
    var sensors: seq<SensorHandle>

    /** All values, flags and counts at their neutral zero. */
    ghost predicate IsReset()
      reads this
    {
      && temperature == 0.0 && gravity == 0.0
      && !sensorTempEnabled && !sensorGravEnabled
      && sensorTempCount == 0 && sensorGravCount == 0
    }

    constructor ()
      ensures IsReset() && sensors == []
    {
      temperature, gravity := 0.0, 0.0;
      sensorTempEnabled, sensorGravEnabled := false, false;
      sensorTempCount, sensorGravCount := 0, 0;
      sensors := [];
    }

    method Reset()
      modifies this
      ensures IsReset()
      ensures sensors == old(sensors)
    {
      temperature := 0.0;
      gravity := 0.0;
      sensorTempEnabled := false;
      sensorTempCount := 0;
      sensorGravEnabled := false;
      sensorGravCount := 0;
    }

    /** Replaces the sensor list by the sensors found on `vessel`. */
    method ScanVessel(vessel: Option<Vessel>)
      modifies this`sensors
      ensures sensors == VesselSensors(vessel)
    {
      sensors := [];
      if vessel.None? || vessel.value.parts.None? {
        return;
      }
      var parts := vessel.value.parts.value;
      var i := 0;
      while i < |parts|
        invariant 0 <= i <= |parts|
        invariant sensors == PartsSensors(parts[..i])
      {
        var part := parts[i];
        assert parts[..i + 1][..i] == parts[..i];
        assert PartsSensors(parts[..i + 1]) == sensors + PartSensors(part);
        if part.name.Some? && (part.name.value == THERMOMETER || part.name.value == GRAVIMETER) {
          ghost var before := sensors;
          var j := 0;
          while j < |part.modules|
            invariant 0 <= j <= |part.modules|
            invariant sensors == before + ModuleSensors(part.modules[..j])
          {
            assert part.modules[..j + 1][..j] == part.modules[..j];
            if part.modules[j].EnviroSensor? {
              sensors := sensors + [part.modules[j].sensor];
            }
            j := j + 1;
          }
          assert part.modules[..j] == part.modules;
        }
        i := i + 1;
      }
      assert parts[..i] == parts;
    }

    function GetTemperature(): real
      reads this
    {
      temperature
    }

    function GetGravity(): real
      reads this
    {
      gravity
    }

    function IsTempSensorEnabled(): bool
      reads this
    {
      sensorTempEnabled
    }

    function IsGravSensorEnabled(): bool
      reads this
    {
      sensorGravEnabled
    }

    /**
     * Adds one sensor's reading to the running sum and count of its quantity
     * and marks that quantity enabled; a sensor without a reading changes nothing.
     */
    method InspectSensor(s: SensorReadout, parse: string -> Option<real>)
      modifies this`temperature, this`gravity, this`sensorTempEnabled, this`sensorGravEnabled,
               this`sensorTempCount, this`sensorGravCount
      ensures var r := ReadingOf(s, parse);
        && temperature == old(temperature) + (if r.Temperature? then r.value else 0.0)
        && sensorTempCount == old(sensorTempCount) + (if r.Temperature? then 1 else 0)
        && sensorTempEnabled == (old(sensorTempEnabled) || r.Temperature?)
        && gravity == old(gravity) + (if r.Gravity? then r.value else 0.0)
        && sensorGravCount == old(sensorGravCount) + (if r.Gravity? then 1 else 0)
        && sensorGravEnabled == (old(sensorGravEnabled) || r.Gravity?)
    {
      if s.sensorType.None? {
        return;
      }
      if s.sensorType.value == TEMP {
        if s.readoutInfo.Some? {
          var temp := CleanTemperature(s.readoutInfo.value);
          if |temp| > 0 {
            var parsed := parse(temp);
            if parsed.Some? {
              temperature := temperature + parsed.value;
              sensorTempEnabled := true;
              sensorTempCount := sensorTempCount + 1;
            }
          }
        }
      } else if s.sensorType.value == GRAV {
        var readout := s.readoutInfo;
        if readout.Some? && |readout.value| > GRAV_SUFFIX_LENGTH {
          var grav := readout.value[..|readout.value| - GRAV_SUFFIX_LENGTH];
          var parsed := parse(grav);
          if parsed.Some? {
            gravity := gravity + parsed.value;
            sensorGravEnabled := true;
            sensorGravCount := sensorGravCount + 1;
          }
        }
      }
    }

    /**
     * One inspection: each quantity becomes the mean of the readings of the
     * current sensors (0 without any), its count the number of readings, and
     * it is enabled exactly when that count is positive.
     */
    method Inspect(read: SensorHandle -> SensorReadout, parse: string -> Option<real>)
      modifies this`temperature, this`gravity, this`sensorTempEnabled, this`sensorGravEnabled,
               this`sensorTempCount, this`sensorGravCount
      ensures sensors == old(sensors)
      ensures temperature == Mean(TempReadings(sensors, read, parse))
      ensures sensorTempCount == |TempReadings(sensors, read, parse)|
      ensures sensorTempEnabled <==> sensorTempCount > 0
      ensures gravity == Mean(GravReadings(sensors, read, parse))
      ensures sensorGravCount == |GravReadings(sensors, read, parse)|
      ensures sensorGravEnabled <==> sensorGravCount > 0
    {
      temperature := 0.0;
      sensorTempEnabled := false;
      sensorTempCount := 0;
      gravity := 0.0;
      sensorGravEnabled := false;
      sensorGravCount := 0;
      var i := 0;
      while i < |sensors|
        invariant 0 <= i <= |sensors|
        invariant temperature == Sum(TempReadings(sensors[..i], read, parse))
        invariant sensorTempCount == |TempReadings(sensors[..i], read, parse)|
        invariant sensorTempEnabled <==> sensorTempCount > 0
        invariant gravity == Sum(GravReadings(sensors[..i], read, parse))
        invariant sensorGravCount == |GravReadings(sensors[..i], read, parse)|
        invariant sensorGravEnabled <==> sensorGravCount > 0
      {
        ReadingsStep(sensors, i, read, parse);
        InspectSensor(read(sensors[i]), parse);
        i := i + 1;
      }
      assert sensors[..i] == sensors;
      assert TempReadings(sensors[..i], read, parse) == TempReadings(sensors, read, parse);
      assert GravReadings(sensors[..i], read, parse) == GravReadings(sensors, read, parse);
      if sensorTempCount > 0 {
        temperature := temperature / (sensorTempCount as real);
      }
      if sensorGravCount > 0 {
        gravity := gravity / (sensorGravCount as real);
      }
    }
  }
}
