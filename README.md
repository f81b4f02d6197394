# DataBear measurement buffer, modelled in Dafny

DataBear is a field telemetry logger. Each sensor object keeps `data`, a
dictionary from measurement name to a list of `(timestamp, value)` pairs in
the order they were taken. Both sensor classes support the same operations on
it:

- `measure` appends readings;
- `getdata(name, start, end)` returns the readings with `start <= t < end`;
- `cleardata(name, start, end)` keeps the other readings;
- `getcurrentdata` (Dyacon stream sensor only) returns the last reading per
  name, or `None`.

The logger's storage step, `storeMeasurement`, turns the most recent reading
of one buffer into one CSV row.

Layout:

- `buffer.dfy` (module `Buffer`): a reading, and the meaning of the range
  query (`Window`) and of the range removal (`Outside`) as functions on a
  list. The lemmas show that the two partition the list and keep its order.
  Removal is idempotent. After a removal the same query is empty, and a
  disjoint window still gives the same answer. Time order survives both.
- `dyacon_data_stream.dfy` (module `DyaconSensor`): class `DyaconDataStream`,
  with the single buffer `"raw"`.
- `simulator.dfy` (module `Simulator`): class `SensorSim`, with the buffers
  `measure1`, `measure2` and `measure3`.
- `logger.dfy` (module `Logger`): the row chosen by a store (`StoredRows`) and
  class `DataLogger`, whose `StoreMeasurement` appends that row to its output.
- `outcomes.dfy`, `settings.dfy`: the errors (`SensorConfigError`, `KeyError`)
  as return values, and the type of a settings value.

Modelling choices:

- Python exceptions become `Result`/`Outcome` return values. This covers
  `SensorConfigError` from a constructor, and `KeyError` from indexing `data`
  or the logger's sensors with an unknown name. Construction goes through a
  static `Create` method, which fails exactly when a required setting is
  missing; the failures of opening the serial port are not modelled (see
  "Left out").
- Timestamps are integers counting microseconds since an hour-aligned instant
  of naive local time, for example 0001-01-01 00:00. The simulator's values
  (`dt.minute`, `dt.second`, `dt.microsecond`) are then exactly that count's
  division and remainder by a minute, a second and an hour's worth of
  microseconds.
- The Dyacon sensor's `measure` is given the time, the number of waiting bytes
  and the decoded text as parameters.
- The logger sees each sensor through its data dictionary, held in a map keyed
  by sensor name (the source's list is replaced, see "Left out"). The CSV writer is the sequence of data rows written after the
  header.

Where the source's comments and its code differ, the model follows the code:

- The docstring of `storeMeasurement` says "Deletes any unstored data"
  (databear/logger.py:90). The body clears nothing (databear/logger.py:92-107),
  so the model promises that no buffer changes.
- The module docstring lists the processes "max, min, avg"
  (databear/logger.py:9), and `storeMeasurement` says its process "is fixed
  at 'sample' for now" (databear/logger.py:89). Only `'sample'` writes a row;
  any other process writes nothing.
- The values stored are integers in the simulator
  (databear/sensors/simulator.py:60-62) and decoded text in the Dyacon sensor
  (databear/sensors/dyaconDataStream.py:68-69). Buffers are generic in their
  value type.
- The Dyacon sensor requires `serialnumber`, `measurement`, `port` and `baud`.
  The simulator requires only `serialnumber` and `measurement`.

## Model

| member | source | states |
|---|---|---|
| `Buffer.Window` | databear/sensors/dyaconDataStream.py:94-99 | getdata's answer: the readings with `start <= t < end`, in list order, never longer than the buffer (the same loop is databear/sensors/simulator.py:75-80). |
| `Buffer.Outside` | databear/sensors/dyaconDataStream.py:107-113 | cleardata's kept list: the readings with `t < start` or `t >= end`, in list order, never longer than the buffer (the same loop is databear/sensors/simulator.py:89-95). |
| `Buffer.Latest` | databear/sensors/dyaconDataStream.py:79-84 | The last reading, or None exactly when the list is empty. The reading is in the list. For a time-ordered list, nothing in the list is newer. |
| `Buffer.WindowMember` | databear/sensors/dyaconDataStream.py:94-99 | A reading is in getdata's answer if and only if it is buffered and `start <= t < end`. |
| `Buffer.OutsideMember` | databear/sensors/dyaconDataStream.py:107-113 | A reading is kept by cleardata if and only if it is buffered and `t < start` or `t >= end`. |
| `Buffer.WindowConcat` | databear/sensors/dyaconDataStream.py:96-98 | The query of a concatenation is the concatenation of the queries, so list order is preserved. |
| `Buffer.OutsideConcat` | databear/sensors/dyaconDataStream.py:109-111 | The removal of a concatenation is the concatenation of the removals, so list order is preserved. |
| `Buffer.Partition` | databear/sensors/dyaconDataStream.py:94-113 | getdata's answer and cleardata's kept list together hold every original reading exactly once; their lengths sum to the original length. |
| `Buffer.AllInWindow` | databear/sensors/simulator.py:75-80 | If every reading is in the window, getdata returns the whole list and cleardata empties it. |
| `Buffer.NoneInWindow` | databear/sensors/simulator.py:89-95 | If no reading is in the window, getdata returns nothing and cleardata is a no-op. |
| `Buffer.WindowAfterClearIsEmpty` | databear/sensors/dyaconDataStream.py:97-113 | After cleardata(name, s, e), getdata(name, s, e) is empty. |
| `Buffer.ClearIdempotent` | databear/sensors/dyaconDataStream.py:107-113 | A second identical cleardata changes nothing. |
| `Buffer.ClearKeepsDisjointWindow` | databear/sensors/simulator.py:89-95 | Clearing one window leaves getdata unchanged on every window that shares no instant with it, including when either window is empty. |
| `Buffer.ClearPreservesSorted` | databear/sensors/simulator.py:89-95 | If timestamps are non-decreasing before cleardata, they are non-decreasing after it. |
| `Buffer.WindowPreservesSorted` | databear/sensors/simulator.py:75-80 | getdata on a time-ordered buffer returns a time-ordered list. |
| `Buffer.AppendPreservesSorted` | databear/sensors/simulator.py:57-62 | Appending a reading no older than the last one keeps the buffer time-ordered. |
| `DyaconSensor.LoadSettings` | databear/sensors/dyaconDataStream.py:31-39 | Fails with SensorConfigError if and only if one of serialnumber, measurement, port, baud is missing; otherwise it yields those four values. |
| `DyaconSensor.DyaconDataStream.constructor` | databear/sensors/dyaconDataStream.py:30-56 | The attributes are the settings given plus the fixed serial constants; `data` is exactly `{'raw': []}`. |
| `DyaconSensor.DyaconDataStream.Create` | databear/sensors/dyaconDataStream.py:19-56 | Construction fails with SensorConfigError exactly when a required setting is missing; otherwise a fresh sensor with the one empty buffer 'raw'. Failure to open the port is not modelled. |
| `DyaconSensor.DyaconDataStream.Measure` | databear/sensors/dyaconDataStream.py:58-69 | With waiting bytes, exactly one `(dt, text)` pair is appended to 'raw'; with none, the buffer is unchanged. A decoding failure is not modelled. |
| `DyaconSensor.DyaconDataStream.GetCurrentData` | databear/sensors/dyaconDataStream.py:71-86 | The result has the same keys as `data`; each maps to the last reading of its list, or None if the list is empty. |
| `DyaconSensor.DyaconDataStream.GetData` | databear/sensors/dyaconDataStream.py:88-99 | Returns exactly the window's readings in order (Window) and changes nothing; KeyError for an unknown name. |
| `DyaconSensor.DyaconDataStream.ClearData` | databear/sensors/dyaconDataStream.py:101-113 | `data[name]` becomes exactly the readings outside the window, in order (Outside); every other key is unchanged; KeyError and no change for an unknown name. |
| `Simulator.LoadSettings` | databear/sensors/simulator.py:28-34 | Fails with SensorConfigError if and only if serialnumber or measurement is missing; otherwise yields both values. |
| `Simulator.Minute` | databear/sensors/simulator.py:60 | The value recorded for measure1 is in [0, 59]. |
| `Simulator.Second` | databear/sensors/simulator.py:61 | The value recorded for measure2 is in [0, 59]. |
| `Simulator.Microsecond` | databear/sensors/simulator.py:62 | The value recorded for measure3 is in [0, 999999]. |
| `Simulator.SensorSim.constructor` | databear/sensors/simulator.py:28-42 | `maxfrequency` is 1 and `data` has exactly the keys measure1, measure2, measure3, each mapped to an empty list. |
| `Simulator.SensorSim.Create` | databear/sensors/simulator.py:17-42 | Construction fails with SensorConfigError exactly when a required setting is missing; otherwise a fresh sensor with three empty buffers. |
| `Simulator.SensorSim.Measure` | databear/sensors/simulator.py:44-62 | Appends exactly one reading to each of the three lists, all with the same timestamp; each length grows by 1; values stay within their bounds; buffers stay in time order when `dt` is no earlier than each last reading. |
| `Simulator.SensorSim.GetData` | databear/sensors/simulator.py:69-80 | Returns exactly the window's readings in order (Window) and changes nothing; KeyError for an unknown name. |
| `Simulator.SensorSim.ClearData` | databear/sensors/simulator.py:83-95 | `data[name]` becomes exactly the readings outside the window, in order; other names unchanged; the value bounds and time order still hold; KeyError for an unknown name. |
| `Simulator.ClearKeepsBounded` | databear/sensors/simulator.py:89-95 | cleardata keeps a subset of the readings, so every value bound the buffer had still holds. |
| `Logger.StoredRows` | databear/logger.py:92-104 | No row for an empty buffer or for a process other than 'sample'; otherwise exactly one row, built from the last reading, with `measurement == name` and `sensor == sensor`; for a time-ordered buffer its time is the newest. |
| `Logger.DataLogger.StoreMeasurement` | databear/logger.py:86-107 | Appends exactly StoredRows to the output and nothing else; leaves every sensor buffer unchanged; KeyError for an unknown sensor or measurement name. |

## Left out

- Serial-port I/O of the Dyacon sensor (opening the port, `reset_input_buffer`, `in_waiting`, `read`, UTF-8 decoding): the waiting byte count and the decoded text are parameters of `Measure`. With them go two error paths. In the source, construction can also fail when `serial.Serial` cannot open the port or rejects the baud rate (databear/sensors/dyaconDataStream.py:52). `measure` can also fail when the bytes are not valid UTF-8, and then nothing is appended (databear/sensors/dyaconDataStream.py:68). The model has neither failure: `DyaconSensor.DyaconDataStream.Create` succeeds whenever the four settings are present, and `DyaconSensor.DyaconDataStream.Measure` always appends when bytes are waiting.
- `datetime.now()`: every timestamp is supplied by the caller. Timestamps count microseconds of naive local time from an hour-aligned instant. Time zones and daylight-saving shifts are not modelled.
- `strftime` formatting of the CSV row's `dt` column: the row keeps the reading's timestamp.
- `print` in the simulator's `measure`: console output only.
- The CSV file itself: opening it, the header row from `writeheader` and closing it. The output is the sequence of data rows.
- The rest of `DataLogger`: the hard-coded configuration in `__init__`, `addSensor`, `scheduleMeasurement`, `scheduleStorage` and the `run` loop. They depend on the `databear.schedule` and `databear.sensor` modules, which are not part of this model, and on sleeping.
- The logger's `self.sensors` is a list (databear/logger.py:48), so `self.sensors[sensor]` with a sensor name (databear/logger.py:92) raises TypeError in the source. The model replaces that list with a map keyed by sensor name, so an unknown name gives `KeyError(sensor)`. That case belongs to the model, not to the program.
- `MeasureError` is imported by both sensor modules but never raised, so it has no counterpart.
- The types of settings values are not checked, as in Python: each is an integer or a text, copied verbatim.
