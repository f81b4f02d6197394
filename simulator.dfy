/** The simulated sensor: every measurement records three integers taken
    from its own timestamp (minute, second and microsecond of the clock)
    under the names measure1, measure2 and measure3. */
module Simulator {
  import opened Outcomes
  import opened Buffer
  import opened SensorSettings

  const Measure1: string := "measure1"
  const Measure2: string := "measure2"
  const Measure3: string := "measure3"
  const MeasurementNames: set<string> := {Measure1, Measure2, Measure3}

  /** The settings the constructor cannot do without. */
  const RequiredSettings: set<string> := {"serialnumber", "measurement"}

  /** The required settings, once found. */
  datatype Config = Config(serialnumber: Setting, measurement: Setting)

  /** Reads the required settings in the order the constructor does; the
      first missing one raises SensorConfigError. */
  function LoadSettings(settings: Settings): (r: Result<Config>)
    ensures r.Success? <==> RequiredSettings <= settings.Keys
    ensures r.Failure? ==> r.error == SensorConfigError(MissingSettingMessage)
    ensures r.Success? ==>
              r.value.serialnumber == settings["serialnumber"] && r.value.measurement == settings["measurement"]
  {
    if "serialnumber" !in settings then Failure(SensorConfigError(MissingSettingMessage))
    else if "measurement" !in settings then Failure(SensorConfigError(MissingSettingMessage))
    else Success(Config(settings["serialnumber"], settings["measurement"]))
  }

  /** `dt.minute` of a timestamp; exact because the count starts on a whole
      hour. */
  function Minute(dt: Timestamp): (m: int)
    ensures 0 <= m <= 59
  {
    (dt / 60_000_000) % 60
  }

  /** `dt.second` of a timestamp counted in microseconds. */
  function Second(dt: Timestamp): (s: int)
    ensures 0 <= s <= 59
  {
    (dt / 1_000_000) % 60
  }

  /** `dt.microsecond` of a timestamp counted in microseconds. */
  function Microsecond(dt: Timestamp): (us: int)
    ensures 0 <= us <= 999_999
  {
    dt % 1_000_000
  }

  /** Every value in `xs` lies in `[0, bound]`. */
  ghost predicate Bounded(xs: seq<Reading<int>>, bound: int) {
    forall i :: 0 <= i < |xs| ==> 0 <= xs[i].value <= bound
  }

  class SensorSim {
    var name: string
    var sn: Setting
    var frequency: Setting
    var maxfrequency: int

    /** Measurement name -> readings in the order they were taken. */
    var data: map<string, seq<Reading<int>>>

    /** The buffer has exactly the three names, and every value is one a
        clock field can take. */
    ghost predicate Valid()
      reads this
    {
      && data.Keys == MeasurementNames
      && Bounded(data[Measure1], 59)
      && Bounded(data[Measure2], 59)
      && Bounded(data[Measure3], 999_999)
    }

    /** Every buffer is in time order. */
    ghost predicate TimeOrdered()
      reads this
    {
      forall k :: k in data ==> Sorted(data[k])
    }

    constructor (name: string, config: Config)
      ensures Valid() && TimeOrdered()
      ensures data == map[Measure1 := [], Measure2 := [], Measure3 := []]
      ensures this.name == name && sn == config.serialnumber && frequency == config.measurement
      ensures maxfrequency == 1
    {
      this.name := name;
      sn := config.serialnumber;
      frequency := config.measurement;
      maxfrequency := 1;
      data := map[Measure1 := [], Measure2 := [], Measure3 := []];
    }

    /** `sensorSim(name, settings)`: fails with SensorConfigError when a
        required setting is missing, otherwise a sensor polled at most once
        a second with three empty buffers. */
    static method Create(name: string, settings: Settings) returns (r: Result<SensorSim>)
      ensures r.Success? <==> RequiredSettings <= settings.Keys
      ensures r.Failure? ==> r.error == SensorConfigError(MissingSettingMessage)
      ensures r.Success? ==>
                && fresh(r.value) && r.value.Valid()
                && r.value.data == map[Measure1 := [], Measure2 := [], Measure3 := []]
                && r.value.maxfrequency == 1
                && r.value.name == name
                && r.value.sn == settings["serialnumber"]
                && r.value.frequency == settings["measurement"]
    {
      var config := LoadSettings(settings);
      if config.Failure? {
        return Failure(config.error);
      }
      var sensor := new SensorSim(name, config.value);
      r := Success(sensor);
    }

    /** One acquisition at time `dt`: one reading, all stamped `dt`, is
        appended to each of the three buffers. */
    method Measure(dt: Timestamp)
      requires Valid()
      modifies this`data
      ensures Valid()
      ensures data == old(data)[Measure1 := old(data[Measure1]) + [Reading(dt, Minute(dt))]]
                               [Measure2 := old(data[Measure2]) + [Reading(dt, Second(dt))]]
                               [Measure3 := old(data[Measure3]) + [Reading(dt, Microsecond(dt))]]
      ensures forall k :: k in data ==> |data[k]| == |old(data[k])| + 1
      ensures old(TimeOrdered()) && (forall k :: k in old(data) ==> NotBefore(old(data[k]), dt)) ==> TimeOrdered()
    {
      if TimeOrdered() && forall k :: k in data ==> NotBefore(data[k], dt) {
        AppendPreservesSorted(data[Measure1], Reading(dt, Minute(dt)));
        AppendPreservesSorted(data[Measure2], Reading(dt, Second(dt)));
        AppendPreservesSorted(data[Measure3], Reading(dt, Microsecond(dt)));
      }
      data := data[Measure1 := data[Measure1] + [Reading(dt, Minute(dt))]];
      data := data[Measure2 := data[Measure2] + [Reading(dt, Second(dt))]];
      data := data[Measure3 := data[Measure3] + [Reading(dt, Microsecond(dt))]];
    }

    /** The readings of `name` with `startdt <= t < enddt`, in list order;
        KeyError for a name that is not buffered. */
    method GetData(name: string, startdt: Timestamp, enddt: Timestamp) returns (r: Result<seq<Reading<int>>>)
      ensures name !in data ==> r == Failure(KeyError(name))
      ensures name in data ==> r == Success(Window(data[name], startdt, enddt))
    {
      if name !in data {
        return Failure(KeyError(name));
      }
      var output := [];
      var values := data[name];
      var i := 0;
      while i < |values|
        invariant 0 <= i <= |values|
        invariant output == Window(values[..i], startdt, enddt)
      {
        var val := values[i];
        assert values[..i + 1][..i] == values[..i];
        if val.time >= startdt && val.time < enddt {
          output := output + [val];
        }
        i := i + 1;
      }
      assert values[..i] == values;
      r := Success(output);
    }

    /** Reassigns `name`'s buffer to the readings outside
        `startdt <= t < enddt`, in list order; every other name is left as
        it was, and the invariant still holds. KeyError, and no change, for
        a name that is not buffered. */
    method ClearData(name: string, startdt: Timestamp, enddt: Timestamp) returns (r: Outcome)
      modifies this`data
      ensures name !in old(data) ==> r == Fail(KeyError(name)) && data == old(data)
      ensures name in old(data) ==>
                r == Pass && data == old(data)[name := Outside(old(data[name]), startdt, enddt)]
      ensures old(Valid()) ==> Valid()
      ensures old(TimeOrdered()) ==> TimeOrdered()
    {
      if name !in data {
        return Fail(KeyError(name));
      }
      var savedata := [];
      var values := data[name];
      var i := 0;
      while i < |values|
        invariant 0 <= i <= |values|
        invariant savedata == Outside(values[..i], startdt, enddt)
      {
        var val := values[i];
        assert values[..i + 1][..i] == values[..i];
        if val.time < startdt || val.time >= enddt {
          savedata := savedata + [val];
        }
        i := i + 1;
      }
      assert values[..i] == values;
      if TimeOrdered() {
        ClearPreservesSorted(values, startdt, enddt);
      }
      if Valid() {
        ClearKeepsBounded(values, startdt, enddt, if name == Measure3 then 999_999 else 59);
      }
      data := data[name := savedata];
      r := Pass;
    }
  }

  /** Removal keeps a subset of the readings, so a bound on every value
      survives it. */
  lemma {:induction false} ClearKeepsBounded(xs: seq<Reading<int>>, start: Timestamp, end: Timestamp, bound: int)
    requires Bounded(xs, bound)
    ensures Bounded(Outside(xs, start, end), bound)
  {
    var kept := Outside(xs, start, end);
    forall i | 0 <= i < |kept|
      ensures 0 <= kept[i].value <= bound
    {
      OutsideMember(xs, start, end, kept[i]);
    }
  }
}
