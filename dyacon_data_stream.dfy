/** The Dyacon streaming sensor: whatever text is waiting on its serial port
    is buffered, with the time it was read, under the single measurement
    name "raw". The port itself is not part of this model: `measure` is
    given the number of waiting bytes and their decoded text. */
module DyaconSensor {
  import opened Outcomes
  import opened Buffer
  import opened SensorSettings

  /** The one measurement name this sensor buffers. */
  const Raw: string := "raw"

  /** The settings the constructor cannot do without. */
  const RequiredSettings: set<string> := {"serialnumber", "measurement", "port", "baud"}

  /** The required settings, once found. */
  datatype Config = Config(serialnumber: Setting, measurement: Setting, port: Setting, baud: Setting)

  /** Reads the required settings in the order the constructor does; the
      first missing one raises SensorConfigError. */
  function LoadSettings(settings: Settings): (r: Result<Config>)
    ensures r.Success? <==> RequiredSettings <= settings.Keys
    ensures r.Failure? ==> r.error == SensorConfigError(MissingSettingMessage)
    ensures r.Success? ==>
              && r.value.serialnumber == settings["serialnumber"]
              && r.value.measurement == settings["measurement"]
              && r.value.port == settings["port"]
              && r.value.baud == settings["baud"]
  {
    if "serialnumber" !in settings then Failure(SensorConfigError(MissingSettingMessage))
    else if "measurement" !in settings then Failure(SensorConfigError(MissingSettingMessage))
    else if "port" !in settings then Failure(SensorConfigError(MissingSettingMessage))
    else if "baud" !in settings then Failure(SensorConfigError(MissingSettingMessage))
    else Success(Config(settings["serialnumber"], settings["measurement"], settings["port"], settings["baud"]))
  }

  class DyaconDataStream {
    const interfaceVersion: string := "0.2"

    var name: string
    var sn: Setting
    var frequency: Setting
    var port: Setting
    var baud: Setting
    var maxfrequency: int
    var timeout: int
    var rs: string
    var duplex: string
    var resistors: int
    var bias: int

    /** Measurement name -> readings in the order they were taken. */
    var data: map<string, seq<Reading<string>>>

    /** The buffer only ever has the key "raw": `measure` appends under it
        and `cleardata` only reassigns keys that exist. */
    ghost predicate Valid()
      reads this
    {
      data.Keys == {Raw}
    }

    constructor (name: string, config: Config)
      ensures Valid()
      ensures data == map[Raw := []]
      ensures this.name == name
      ensures sn == config.serialnumber && frequency == config.measurement
      ensures port == config.port && baud == config.baud
      ensures maxfrequency == 0 && timeout == 0
      ensures rs == "RS485" && duplex == "half" && resistors == 1 && bias == 1
    {
      this.name := name;
      sn := config.serialnumber;
      frequency := config.measurement;
      port := config.port;
      baud := config.baud;
      maxfrequency := 0;
      timeout := 0;
      rs := "RS485";
      duplex := "half";
      resistors := 1;
      bias := 1;
      data := map[Raw := []];
    }

    /** `dyaconDataStream(name, settings)`: fails with SensorConfigError
        when a required setting is missing, otherwise a sensor whose only
        buffer, "raw", is empty. */
    static method Create(name: string, settings: Settings) returns (r: Result<DyaconDataStream>)
      ensures r.Success? <==> RequiredSettings <= settings.Keys
      ensures r.Failure? ==> r.error == SensorConfigError(MissingSettingMessage)
      ensures r.Success? ==>
                && fresh(r.value) && r.value.Valid()
                && r.value.data == map[Raw := []]
                && r.value.name == name
                && r.value.sn == settings["serialnumber"]
                && r.value.frequency == settings["measurement"]
                && r.value.port == settings["port"]
                && r.value.baud == settings["baud"]
    {
      var config := LoadSettings(settings);
      if config.Failure? {
        return Failure(config.error);
      }
      var sensor := new DyaconDataStream(name, config.value);
      r := Success(sensor);
    }

    /** One read of the port at time `dt`: when `waiting` bytes are
        available, their decoded `text` is appended to "raw"; otherwise
        nothing changes. */
    method Measure(dt: Timestamp, waiting: int, text: string)
      requires Valid()
      modifies this`data
      ensures Valid()
      ensures waiting > 0 ==> data == old(data)[Raw := old(data[Raw]) + [Reading(dt, text)]]
      ensures waiting <= 0 ==> data == old(data)
    {
      if waiting > 0 {
        data := data[Raw := data[Raw] + [Reading(dt, text)]];
      }
    }

    /** The most recent reading of every measurement name, None where
        nothing has been buffered yet. */
    method GetCurrentData() returns (current: map<string, Option<Reading<string>>>)
      ensures current.Keys == data.Keys
      ensures forall k :: k in current ==> current[k] == Latest(data[k])
    {
      current := map[];
      var todo := data.Keys;
      while todo != {}
        invariant todo <= data.Keys
        invariant current.Keys == data.Keys - todo
        invariant forall k :: k in current ==> current[k] == Latest(data[k])
        decreases todo
      {
        var key :| key in todo;
        var val := data[key];
        if |val| > 0 {
          current := current[key := Some(val[|val| - 1])];
        } else {
          current := current[key := None];
        }
        todo := todo - {key};
      }
    }

    /** The readings of `name` with `startdt <= t < enddt`, in list order;
        KeyError for a name that is not buffered. */
    method GetData(name: string, startdt: Timestamp, enddt: Timestamp) returns (r: Result<seq<Reading<string>>>)
      ensures name !in data ==> r == Failure(KeyError(name))
      ensures name in data ==> r == Success(Window(data[name], startdt, enddt))
    {
      if name !in data {
        return Failure(KeyError(name));
      }
      var output := [];
      var values := data[name];
      var i := 0;
      while i < |values|
        invariant 0 <= i <= |values|
        invariant output == Window(values[..i], startdt, enddt)
      {
        var val := values[i];
        assert values[..i + 1][..i] == values[..i];
        if val.time >= startdt && val.time < enddt {
          output := output + [val];
        }
        i := i + 1;
      }
      assert values[..i] == values;
      r := Success(output);
    }

    /** Reassigns `name`'s buffer to the readings outside
        `startdt <= t < enddt`, in list order; every other name is left as
        it was. KeyError, and no change, for a name that is not buffered. */
    method ClearData(name: string, startdt: Timestamp, enddt: Timestamp) returns (r: Outcome)
      modifies this`data
      ensures name !in old(data) ==> r == Fail(KeyError(name)) && data == old(data)
      ensures name in old(data) ==>
                r == Pass && data == old(data)[name := Outside(old(data[name]), startdt, enddt)]
      ensures data.Keys == old(data.Keys)
      ensures old(Valid()) ==> Valid()
    {
      if name !in data {
        return Fail(KeyError(name));
      }
      var savedata := [];
      var values := data[name];
      var i := 0;
      while i < |values|
        invariant 0 <= i <= |values|
        invariant savedata == Outside(values[..i], startdt, enddt)
      {
        var val := values[i];
        assert values[..i + 1][..i] == values[..i];
        if val.time < startdt || val.time >= enddt {
          savedata := savedata + [val];
        }
        i := i + 1;
      }
      assert values[..i] == values;
      data := data[name := savedata];
      r := Pass;
    }
  }
}
