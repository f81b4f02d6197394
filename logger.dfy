/** The storage step of the data logger: one store of a measurement looks at
    the sensor's buffer for it and, for the 'sample' process, writes the most
    recent reading as one CSV row. The logger sees each sensor through its
    data dictionary, keyed here by sensor name; the CSV writer is the
    sequence of data rows written after the header. */
module Logger {
  import opened Outcomes
  import opened Buffer

  /** The only process the storage step reduces with. */
  const Sample: string := "sample"

  /** One CSV row: the columns dt, measurement, value and sensor. The time
      is kept as the reading's own timestamp; its text formatting is not
      part of this model. */
  datatype Row<V> = Row(dt: Timestamp, measurement: string, value: V, sensor: string)

  /** The rows one store writes for buffer `buffer` of measurement `name`
      on `sensor`: nothing for an empty buffer or a process other than
      'sample', otherwise one row made from the last buffered reading. */
  function StoredRows<V>(name: string, sensor: string, process: string, buffer: seq<Reading<V>>): (rows: seq<Row<V>>)
    ensures |rows| <= 1
    ensures rows != [] <==> buffer != [] && process == Sample
    ensures rows != [] ==>
              && rows[0].measurement == name
              && rows[0].sensor == sensor
              && Reading(rows[0].dt, rows[0].value) == buffer[|buffer| - 1]
    ensures rows != [] && Sorted(buffer) ==> forall i :: 0 <= i < |buffer| ==> buffer[i].time <= rows[0].dt
  {
    if buffer == [] then []
    else if process == Sample then
      var current := buffer[|buffer| - 1];
      [Row(current.time, name, current.value, sensor)]
    else []
  }

  class DataLogger<V> {
    var name: string

    /** Sensor name -> that sensor's data dictionary. */
    var sensors: map<string, map<string, seq<Reading<V>>>>

    /** The data rows written to the CSV file so far. */
    var output: seq<Row<V>>

    constructor (name: string, sensors: map<string, map<string, seq<Reading<V>>>>)
      ensures this.name == name && this.sensors == sensors && output == []
    {
      this.name := name;
      this.sensors := sensors;
      output := [];
    }

    /** `storeMeasurement(name, sensor, process)`: appends the rows
        StoredRows chooses and nothing else. KeyError for an unknown sensor
        or measurement name. No sensor buffer is modified: nothing is
        cleared. */
    method StoreMeasurement(name: string, sensor: string, process: string) returns (r: Outcome)
      modifies this`output
      ensures sensor !in sensors ==> r == Fail(KeyError(sensor)) && output == old(output)
      ensures sensor in sensors && name !in sensors[sensor] ==>
                r == Fail(KeyError(name)) && output == old(output)
      ensures sensor in sensors && name in sensors[sensor] ==>
                r == Pass && output == old(output) + StoredRows(name, sensor, process, sensors[sensor][name])
      ensures sensors == old(sensors)
    {
      if sensor !in sensors {
        return Fail(KeyError(sensor));
      }
      if name !in sensors[sensor] {
        return Fail(KeyError(name));
      }
      var buffer := sensors[sensor][name];
      if |buffer| == 0 {
        return Pass;
      }
      if process == Sample {
        var currentdata := buffer[|buffer| - 1];
        var row := Row(currentdata.time, name, currentdata.value, sensor);
        output := output + [row];
      }
      r := Pass;
    }
  }
}
