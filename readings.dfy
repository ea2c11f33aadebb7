/** The data the core works on: sensor readings as the monitoring source
    reports them, and the platform configuration read from the config file. */
module Readings {
  import opened PyValues

  /** One entry of the `readings` list of the monitoring source's JSON.
      `readingIndex` and `readingTypeName` are absent until normalisation
      writes them. */
  datatype Reading = Reading(
    labelOriginal: string,
    labelUser: string,
    value: Num,
    unit: string,
    readingType: int,
    readingIndex: Option<int>,
    readingTypeName: Option<string>)

  /** The configuration sections the core reads: `Platform`, whose options are
      read as ints, and `HWInfoSensorNames`, which maps a sensor role to the
      label the monitoring source uses for it on this machine. An option that
      is not in its map is absent from the file. */
  datatype Config = Config(platform: map<string, int>, sensorNames: map<string, string>)

  /** `config.getint('Platform', key, fallback=fallback)` */
  function PlatformInt(config: Config, key: string, fallback: int): int {
    if key in config.platform then config.platform[key] else fallback
  }

  /** `config.get('HWInfoSensorNames', key, fallback=fallback)` */
  function SensorLabel(config: Config, key: string, fallback: string): string {
    if key in config.sensorNames then config.sensorNames[key] else fallback
  }
}
