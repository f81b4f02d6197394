/** Values found in a sensor's settings dictionary. Python does not check
    their types; the sensors copy them verbatim into attributes. */
module SensorSettings {

  datatype Setting = IntSetting(i: int) | TextSetting(s: string)

  type Settings = map<string, Setting>
}
