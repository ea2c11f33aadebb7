/** The webhook service: derives load and power metrics from one poll's
    readings and posts each one as a state update. A POST is modelled as
    appending the request to the service's `sent` log. */
module Webhook {
  import opened PyValues
  import opened Readings
  import opened HwinfoUtils

  /** The arguments of one `push_reading_to_webhook` call. */
  datatype Update = Update(deviceId: string, deviceName: string, state: State, unit: string)

  /** The JSON body of a state update. */
  datatype Payload = Payload(state: string, friendlyName: string, unitOfMeasurement: string)

  /** A POST: target URL, JSON body and the two headers. */
  datatype Request = Request(target: string, payload: Payload, authorization: string, contentType: string)

  /** The request `push_reading_to_webhook` posts for an update. */
  function BuildRequest(url: string, token: string, u: Update): Request {
    Request(url + u.deviceId, Payload(Str(u.state), u.deviceName, u.unit),
            "Bearer " + token, "application/json")
  }

  /** A request goes to the webhook URL followed by the device id, carries
      the bearer token, and sends the state as text that reads back as the
      exact value pushed. */
  lemma RequestCarriesUpdate(url: string, token: string, u: Update)
    ensures var r := BuildRequest(url, token, u);
      && r.target == url + u.deviceId
      && ParseState(r.payload.state) == Some(u.state)
      && r.payload.friendlyName == u.deviceName && r.payload.unitOfMeasurement == u.unit
      && r.authorization == "Bearer " + token && r.contentType == "application/json"
  {
    ParseStateStr(u.state);
  }

  /** Different updates to one webhook never produce the same request. */
  lemma RequestDeterminesUpdate(url: string, token: string, u: Update, v: Update)
    requires BuildRequest(url, token, u) == BuildRequest(url, token, v)
    ensures u == v
  {
    RequestCarriesUpdate(url, token, u);
    RequestCarriesUpdate(url, token, v);
    SamePrefix(url, u.deviceId, v.deviceId);
  }

  /** The log of requests left by posting `updates` one after another: each
      post appends its request to those already sent. The i-th request of
      the log is the one built from the i-th update. */
  function Requests(url: string, token: string, updates: seq<Update>): (rs: seq<Request>)
    ensures |rs| == |updates|
    ensures forall i :: 0 <= i < |updates| ==> rs[i] == BuildRequest(url, token, updates[i])
  {
    if updates == [] then []
    else Requests(url, token, updates[..|updates| - 1]) + [BuildRequest(url, token, updates[|updates| - 1])]
  }

  /** Posting one more update appends its request. */
  lemma RequestsSnoc(url: string, token: string, updates: seq<Update>, u: Update)
    ensures Requests(url, token, updates + [u]) == Requests(url, token, updates) + [BuildRequest(url, token, u)]
  {
    assert (updates + [u])[..|updates|] == updates;
  }

  /** Posting two runs of updates posts their requests one after the other. */
  lemma RequestsAppend(url: string, token: string, first: seq<Update>, second: seq<Update>)
    ensures Requests(url, token, first + second) == Requests(url, token, first) + Requests(url, token, second)
  {
  }

  // ---------------------------------------------------------------------------
  // Load

  /** `round(value, 1)`: an int stays the same int, a float becomes the
      nearest float with one decimal. */
  function RoundLoad(v: Num): (s: State)
    ensures -0.05 <= s.Real() - v.Real() <= 0.05
    ensures v.Int? <==> s.Whole?
    ensures v.Int? ==> s == Whole(v.i)
  {
    match v
    case Int(i) => Whole(i)
    case Float(x) => Tenths(RoundTenths(x))
  }

  /** One load figure: the reading for the configured label, or a zero with
      unit "%" when zeros are sent. */
  function Usage(readings: seq<Reading>, config: Config, key: string, fallback: string,
                 sendZeros: bool): Found
  {
    if sendZeros then Default("%") else GetIntReading(readings, SensorLabel(config, key, fallback), "%")
  }

  /** The updates `push_load_to_webhook` posts, in order. */
  function LoadUpdates(platformId: string, platformName: string, readings: seq<Reading>,
                       config: Config, sendZeros: bool): seq<Update>
  {
    var cpu := Usage(readings, config, "CpuLoad", "Total CPU Usage", sendZeros);
    var gpu := Usage(readings, config, "GpuLoad", "GPU Core Load", sendZeros);
    var ram := Usage(readings, config, "RamLoad", "Physical Memory Load", sendZeros);
    [ Update(platformId + "_cpu_load", platformName + " CPU Load", RoundLoad(cpu.Value()), cpu.Unit()),
      Update(platformId + "_gpu_load", platformName + " GPU Load", RoundLoad(gpu.Value()), gpu.Unit()),
      Update(platformId + "_ram_load", platformName + " RAM Load", RoundLoad(ram.Value()), ram.Unit()) ]
  }

  /** Three load updates, CPU then GPU then RAM. */
  lemma LoadUpdatesLayout(platformId: string, platformName: string, readings: seq<Reading>,
                          config: Config, sendZeros: bool)
    ensures var us := LoadUpdates(platformId, platformName, readings, config, sendZeros);
      && |us| == 3
      && us[0].deviceId == platformId + "_cpu_load" && us[0].deviceName == platformName + " CPU Load"
      && us[1].deviceId == platformId + "_gpu_load" && us[1].deviceName == platformName + " GPU Load"
      && us[2].deviceId == platformId + "_ram_load" && us[2].deviceName == platformName + " RAM Load"
  {
  }

  /** Sending zeros posts the int 0 with unit "%" for all three loads. */
  lemma LoadUpdatesZeros(platformId: string, platformName: string, readings: seq<Reading>,
                         config: Config)
    ensures forall u :: u in LoadUpdates(platformId, platformName, readings, config, true) ==>
      u.state == Whole(0) && u.unit == "%"
  {
  }

  /** The configuration key and default label of the CPU, GPU and RAM loads,
      in the order they are posted. */
  const LoadSensors: seq<(string, string)> :=
    [("CpuLoad", "Total CPU Usage"), ("GpuLoad", "GPU Core Load"), ("RamLoad", "Physical Memory Load")]

  /** Otherwise load `i` (CPU, GPU, RAM) is posted within 0.05 of its
      configured reading; when a reading carries the label, the first one is
      posted rounded to one decimal in its own unit, and when none does the
      int 0 is posted in "%". */
  lemma LoadUpdatesFollowReadings(platformId: string, platformName: string, readings: seq<Reading>,
                                  config: Config, i: int)
    requires 0 <= i < 3
    ensures var u := LoadUpdates(platformId, platformName, readings, config, false)[i];
      var name := SensorLabel(config, LoadSensors[i].0, LoadSensors[i].1);
      && -0.05 <= u.state.Real() - GetIntReading(readings, name, "%").Value().Real() <= 0.05
      && (forall k :: FirstWithLabel(readings, name, k) ==>
            u.state == RoundLoad(readings[k].value) && u.unit == readings[k].unit)
      && ((forall k :: 0 <= k < |readings| ==> readings[k].labelOriginal != name) ==>
            u.state == Whole(0) && u.unit == "%")
  {
    var name := SensorLabel(config, LoadSensors[i].0, LoadSensors[i].1);
    var us := LoadUpdates(platformId, platformName, readings, config, false);
    var found := GetIntReading(readings, name, "%");
    if i == 0 {
      assert us[0].state == RoundLoad(found.Value()) && us[0].unit == found.Unit();
    } else if i == 1 {
      assert us[1].state == RoundLoad(found.Value()) && us[1].unit == found.Unit();
    } else {
      assert us[2].state == RoundLoad(found.Value()) && us[2].unit == found.Unit();
    }
    FirstWithLabelFound(readings, name, "%");
  }

  // ---------------------------------------------------------------------------
  // Power

  /** `round(total_ram / 1000 / 2.6)`: RAM watts from used plus available
      memory; a missing reading counts as 0. */
  function RamPower(readings: seq<Reading>, config: Config): int {
    var used := GetIntReading(readings, SensorLabel(config, "RamUsed", "Physical Memory Used"), "");
    var available := GetIntReading(readings, SensorLabel(config, "RamAvailable", "Physical Memory Available"), "");
    RoundHalfEven((used.Value().Real() + available.Value().Real()) / 1000.0 / 2.6)
  }

  /** The RAM estimate is the installed memory over 2600, to the nearest watt,
      and 0 W when neither memory reading is present. */
  lemma RamPowerEstimate(readings: seq<Reading>, config: Config)
    ensures var used := GetIntReading(readings, SensorLabel(config, "RamUsed", "Physical Memory Used"), "");
      var available := GetIntReading(readings, SensorLabel(config, "RamAvailable", "Physical Memory Available"), "");
      var total := used.Value().Real() + available.Value().Real();
      && -0.5 <= RamPower(readings, config) as real - total / 2600.0 <= 0.5
      && (used.Default? && available.Default? ==> RamPower(readings, config) == 0)
  {
    var used := GetIntReading(readings, SensorLabel(config, "RamUsed", "Physical Memory Used"), "");
    var available := GetIntReading(readings, SensorLabel(config, "RamAvailable", "Physical Memory Available"), "");
    var total := used.Value().Real() + available.Value().Real();
    assert total / 1000.0 / 2.6 == total / 2600.0;
    if used.Default? && available.Default? {
      RoundOfWhole(0);
    }
  }

  /** `5 * DrivesQuantity`, one drive when the count is not configured. */
  function DrivesPower(config: Config): (w: int)
    ensures "DrivesQuantity" !in config.platform ==> w == 5
    ensures "DrivesQuantity" in config.platform ==> w == 5 * config.platform["DrivesQuantity"]
    ensures w % 5 == 0
  {
    5 * PlatformInt(config, "DrivesQuantity", 1)
  }

  /** The per-component figures before the PSU correction. */
  datatype PowerFigures = PowerFigures(cpu: Found, gpu: Found, ram: int, fans: real, drives: int)

  /** The figures the power branch derives from a poll. */
  function MeasuredFigures(readings: seq<Reading>, config: Config): PowerFigures {
    PowerFigures(
      GetIntReading(readings, SensorLabel(config, "CpuPower", "CPU Package Power"), "W"),
      GetIntReading(readings, SensorLabel(config, "GpuPower", "GPU Power (Total)"), "W"),
      RamPower(readings, config),
      FansPower(readings, config),
      DrivesPower(config))
  }

  /** The figures of send-zeros mode: every component 0 W. */
  function ZeroFigures(): PowerFigures {
    PowerFigures(Default("W"), Default("W"), 0, 0.0, 0)
  }

  /** Total power before the PSU correction. */
  function Total(f: PowerFigures): real {
    f.cpu.Value().Real() + f.gpu.Value().Real() + f.ram as real + f.fans + f.drives as real
  }

  /** `round(x * multiplier)`, posted as an int: the corrected figure to the
      nearest watt. */
  function Corrected(x: real, m: real): (s: State)
    ensures s.Whole?
    ensures -0.5 <= s.Real() - x * m <= 0.5
  {
    Whole(RoundHalfEven(x * m))
  }

  /** The figures a call reports: measured from the poll, or all zero in
      send-zeros mode. */
  function PowerFiguresOf(readings: seq<Reading>, config: Config, sendZeros: bool): PowerFigures {
    if sendZeros then ZeroFigures() else MeasuredFigures(readings, config)
  }

  /** The updates posted for figures `f` under multiplier `m`, in order: the
      total always, then the components when `detailed`. */
  function FigureUpdates(platformId: string, platformName: string, f: PowerFigures, m: real,
                         detailed: bool): seq<Update>
  {
    [Update(platformId + "_total_power", platformName + " Total Power", Corrected(Total(f), m), "W")]
    + if detailed then ComponentUpdates(platformId, platformName, f, m) else []
  }

  /** The detailed updates: CPU, GPU, RAM, drives and fans, in that order. */
  function ComponentUpdates(platformId: string, platformName: string, f: PowerFigures, m: real): seq<Update> {
    [ Update(platformId + "_cpu_power", platformName + " CPU Power", Corrected(f.cpu.Value().Real(), m), f.cpu.Unit()),
      Update(platformId + "_gpu_power", platformName + " GPU Power", Corrected(f.gpu.Value().Real(), m), f.gpu.Unit()),
      Update(platformId + "_ram_power", platformName + " RAM Power", Corrected(f.ram as real, m), "W"),
      Update(platformId + "_drives_power", platformName + " Drives Power", Corrected(f.drives as real, m), "W"),
      Update(platformId + "_fans_power", platformName + " Fans Power", Corrected(f.fans, m), "W") ]
  }

  /** The updates `push_power_to_webhook` is meant to post. */
  function PowerUpdates(platformId: string, platformName: string, psuEfficiency: int,
                        readings: seq<Reading>, config: Config, detailed: bool, sendZeros: bool): seq<Update>
  {
    FigureUpdates(platformId, platformName, PowerFiguresOf(readings, config, sendZeros),
                  PowerMultiplier(psuEfficiency), detailed)
  }

  /** One update, or six when detailed; the total in watts always comes
      first, and the detailed list only adds to it. */
  lemma FigureUpdatesLayout(platformId: string, platformName: string, f: PowerFigures, m: real, detailed: bool)
    ensures var us := FigureUpdates(platformId, platformName, f, m, detailed);
      && |us| == (if detailed then 6 else 1)
      && us[0].deviceId == platformId + "_total_power" && us[0].deviceName == platformName + " Total Power"
      && us[0].unit == "W"
      && us[0] == FigureUpdates(platformId, platformName, f, m, !detailed)[0]
      && (detailed ==>
        && us[1].deviceId == platformId + "_cpu_power" && us[1].deviceName == platformName + " CPU Power"
        && us[2].deviceId == platformId + "_gpu_power" && us[2].deviceName == platformName + " GPU Power"
        && us[3].deviceId == platformId + "_ram_power" && us[3].deviceName == platformName + " RAM Power"
        && us[4].deviceId == platformId + "_drives_power" && us[4].deviceName == platformName + " Drives Power"
        && us[5].deviceId == platformId + "_fans_power" && us[5].deviceName == platformName + " Fans Power"
        && us[1].unit == f.cpu.Unit() && us[2].unit == f.gpu.Unit()
        && us[3].unit == "W" && us[4].unit == "W" && us[5].unit == "W")
  {
  }

  /** Every power figure posted is within half a watt of the figure times the
      PSU multiplier. */
  lemma FigureUpdatesValues(platformId: string, platformName: string, f: PowerFigures, m: real)
    ensures var us := FigureUpdates(platformId, platformName, f, m, true);
      var figures := [Total(f), f.cpu.Value().Real(), f.gpu.Value().Real(), f.ram as real, f.drives as real, f.fans];
      forall k :: 0 <= k < 6 ==> us[k].state.Whole? && -0.5 <= us[k].state.Real() - figures[k] * m <= 0.5
  {
    var us := FigureUpdates(platformId, platformName, f, m, true);
    var figures := [Total(f), f.cpu.Value().Real(), f.gpu.Value().Real(), f.ram as real, f.drives as real, f.fans];
    forall k | 0 <= k < 6 ensures us[k].state == Corrected(figures[k], m) {
    }
  }

  /** Send-zeros mode posts 0 for every power figure, whatever the PSU
      efficiency. */
  lemma PowerUpdatesZeros(platformId: string, platformName: string, psuEfficiency: int,
                          readings: seq<Reading>, config: Config, detailed: bool)
    ensures forall u :: u in PowerUpdates(platformId, platformName, psuEfficiency, readings, config, detailed, true) ==>
      u.state == Whole(0) && u.unit == "W"
  {
    var m := PowerMultiplier(psuEfficiency);
    assert 0.0 * m == 0.0;
    RoundOfWhole(0);
  }

  /** Ids that share the platform prefix are equal only if their suffixes are. */
  lemma SamePrefix(prefix: string, s: string, t: string)
    requires prefix + s == prefix + t
    ensures s == t
  {
    assert s == (prefix + s)[|prefix|..];
    assert t == (prefix + t)[|prefix|..];
  }

  /** The suffixes of the nine device ids one platform posts under. */
  const IdSuffixes: seq<string> := ["_cpu_load", "_gpu_load", "_ram_load", "_total_power", "_cpu_power",
                                    "_gpu_power", "_ram_power", "_drives_power", "_fans_power"]

  /** The nine suffixes are pairwise distinct. */
  lemma IdSuffixesDistinct()
    ensures forall i, j :: 0 <= i < j < |IdSuffixes| ==> IdSuffixes[i] != IdSuffixes[j]
  {
    forall i, j | 0 <= i < j < |IdSuffixes| ensures IdSuffixes[i] != IdSuffixes[j] {
      assert |IdSuffixes[i]| != |IdSuffixes[j]| || IdSuffixes[i][1] != IdSuffixes[j][1];
    }
  }

  /** The load push followed by a detailed power push posts nine updates,
      under the platform id followed by each suffix in turn. */
  lemma DeviceIds(platformId: string, platformName: string, psuEfficiency: int,
                  readings: seq<Reading>, config: Config, sendZeros: bool)
    ensures var us := (LoadUpdates(platformId, platformName, readings, config, sendZeros)
                       + PowerUpdates(platformId, platformName, psuEfficiency, readings, config, true, sendZeros));
      && |us| == |IdSuffixes|
      && forall i :: 0 <= i < |us| ==> us[i].deviceId == platformId + IdSuffixes[i]
  {
    var load := LoadUpdates(platformId, platformName, readings, config, sendZeros);
    var power := PowerUpdates(platformId, platformName, psuEfficiency, readings, config, true, sendZeros);
    LoadUpdatesLayout(platformId, platformName, readings, config, sendZeros);
    FigureUpdatesLayout(platformId, platformName, PowerFiguresOf(readings, config, sendZeros),
                        PowerMultiplier(psuEfficiency), true);
    var us := load + power;
    forall i | 0 <= i < 9 ensures us[i].deviceId == platformId + IdSuffixes[i] {
      if i < 3 { assert us[i] == load[i]; } else { assert us[i] == power[i - 3]; }
    }
  }

  /** The nine device ids one platform posts under are pairwise distinct, so
      no update overwrites another in the state store. */
  lemma DeviceIdsDistinct(platformId: string, platformName: string, psuEfficiency: int,
                          readings: seq<Reading>, config: Config, sendZeros: bool)
    ensures var us := (LoadUpdates(platformId, platformName, readings, config, sendZeros)
                       + PowerUpdates(platformId, platformName, psuEfficiency, readings, config, true, sendZeros));
      forall i, j :: 0 <= i < j < |us| ==> us[i].deviceId != us[j].deviceId
  {
    var us := (LoadUpdates(platformId, platformName, readings, config, sendZeros)
               + PowerUpdates(platformId, platformName, psuEfficiency, readings, config, true, sendZeros));
    DeviceIds(platformId, platformName, psuEfficiency, readings, config, sendZeros);
    IdSuffixesDistinct();
    forall i, j | 0 <= i < j < |us| ensures us[i].deviceId != us[j].deviceId {
      if us[i].deviceId == us[j].deviceId { SamePrefix(platformId, IdSuffixes[i], IdSuffixes[j]); }
    }
  }

  /** The poll of the worked example: 120 W CPU, 200 W GPU, 8,000,000 used
      and 8,000,000 available memory, 70 % CPU load. */
  function ExampleReadings(): seq<Reading> {
    [ Reading("CPU Package Power", "", Int(120), "W", 5, None, None),
      Reading("GPU Power (Total)", "", Int(200), "W", 5, None, None),
      Reading("Physical Memory Used", "", Int(8000000), "MB", 0, None, None),
      Reading("Physical Memory Available", "", Int(8000000), "MB", 0, None, None),
      Reading("Total CPU Usage", "", Int(70), "%", 7, None, None) ]
  }

  /** Two 80 mm and four 120 mm fans, three drives, sensor labels at their
      defaults. */
  function ExampleConfig(): Config {
    Config(map["Fan80mmQuantity" := 2, "Fan120mmQuantity" := 4, "Fan200mmQuantity" := 0,
               "DrivesQuantity" := 3], map[])
  }

  /** Each label of the worked example finds the reading that carries it. */
  lemma ExampleLookups()
    ensures GetIntReading(ExampleReadings(), "CPU Package Power", "W") == Match(ExampleReadings()[0])
    ensures GetIntReading(ExampleReadings(), "GPU Power (Total)", "W") == Match(ExampleReadings()[1])
    ensures GetIntReading(ExampleReadings(), "Physical Memory Used", "") == Match(ExampleReadings()[2])
    ensures GetIntReading(ExampleReadings(), "Physical Memory Available", "") == Match(ExampleReadings()[3])
    ensures GetIntReading(ExampleReadings(), "Total CPU Usage", "%") == Match(ExampleReadings()[4])
  {
    ExampleLookupAt("CPU Package Power", "W", 0);
    ExampleLookupAt("GPU Power (Total)", "W", 1);
    ExampleLookupAt("Physical Memory Used", "", 2);
    ExampleLookupAt("Physical Memory Available", "", 3);
    ExampleLookupAt("Total CPU Usage", "%", 4);
  }

  lemma ExampleLookupAt(name: string, unit: string, k: nat)
    requires k < 5 && name == ExampleReadings()[k].labelOriginal
    ensures GetIntReading(ExampleReadings(), name, unit) == Match(ExampleReadings()[k])
  {
    var rs := ExampleReadings();
    forall j | 0 <= j < k ensures rs[j].labelOriginal != name {
      assert |rs[j].labelOriginal| != |name| || rs[j].labelOriginal[0] != name[0];
    }
    GetIntReadingAt(rs, name, unit, k);
  }

  /** The counts of the worked example's configuration. */
  lemma ExampleCounts()
    ensures FanWeight(ExampleConfig()) == 22
    ensures DrivesPower(ExampleConfig()) == 15
  {
    var fan80, fan120, fan200, drives := "Fan80mmQuantity", "Fan120mmQuantity", "Fan200mmQuantity", "DrivesQuantity";
    assert |fan80| == 15 && |fan120| == 16 && |fan200| == 16 && |drives| == 14;
    assert fan120[3] != fan200[3];
    assert PlatformInt(ExampleConfig(), fan80, 0) == 2;
    assert PlatformInt(ExampleConfig(), fan120, 0) == 4;
    assert PlatformInt(ExampleConfig(), fan200, 0) == 0;
    assert PlatformInt(ExampleConfig(), drives, 1) == 3;
  }

  /** RAM in the worked example: round(16,000,000 / 1000 / 2.6) = 6154 W. */
  lemma ExampleRamPower()
    ensures RamPower(ExampleReadings(), ExampleConfig()) == 6154
  {
    ExampleLookups();
    var total := 8000000.0 + 8000000.0;
    assert total / 1000.0 / 2.6 == 80000.0 / 13.0;
    RoundHalfEvenUnique(80000.0 / 13.0, 6154);
  }

  /** Fans in the worked example: 22 W at full duty times 70 % load. */
  lemma ExampleFansPower()
    ensures FansPower(ExampleReadings(), ExampleConfig()) == 15.4
  {
    ExampleLookups();
    ExampleCounts();
    assert CpuLoad(ExampleReadings(), ExampleConfig()) == 70.0;
  }

  /** The component figures of the worked example: RAM 6154 W, fans 15.4 W,
      drives 15 W. */
  lemma ExampleFigures()
    ensures MeasuredFigures(ExampleReadings(), ExampleConfig())
      == PowerFigures(Match(ExampleReadings()[0]), Match(ExampleReadings()[1]), 6154, 15.4, 15)
  {
    ExampleLookups();
    ExampleRamPower();
    ExampleFansPower();
  }

  /** The worked example end to end: 6504.4 W before the correction, and
      7480 W posted as the total behind an 85 % efficient supply. */
  lemma PowerTotalExample()
    ensures PowerUpdates("main_pc", "Main Pc", 85, ExampleReadings(), ExampleConfig(), false, false)[0].state
      == Whole(7480)
  {
    ExampleFigures();
    var f := PowerFigures(Match(ExampleReadings()[0]), Match(ExampleReadings()[1]), 6154, 15.4, 15);
    assert Total(f) == 6504.4;
    assert PowerMultiplier(85) == 1.15;
    RoundHalfEvenUnique(6504.4 * 1.15, 7480);
  }

  // ---------------------------------------------------------------------------
  // Send-zeros mode as written

  /** A local of `push_power_to_webhook`: a number, or a reading dict. */
  datatype PyValue = Number(x: real) | Dict(entry: Found)

  /** A float multiplier times a local: a number multiplies, a dict raises
      TypeError. */
  predicate Multipliable(v: PyValue) {
    v.Number?
  }

  /** `push_power_to_webhook` as written, from the figures the measuring
      branch would derive and the multiplier: in send-zeros mode `ram_power`,
      `fans_power`, `drives_power` and `total_power` are reading dicts, not
      numbers, so the first multiplication raises before anything is posted. */
  function FigureUpdatesAsWritten(platformId: string, platformName: string, measured: PowerFigures,
                                  m: real, detailed: bool, sendZeros: bool): Result<seq<Update>>
  {
    var zero := Dict(Default("W"));
    var cpu := if sendZeros then Default("W") else measured.cpu;
    var gpu := if sendZeros then Default("W") else measured.gpu;
    var ram := if sendZeros then zero else Number(measured.ram as real);
    var fans := if sendZeros then zero else Number(measured.fans);
    var drives := if sendZeros then zero else Number(measured.drives as real);
    var total := if sendZeros then zero else Number(Total(measured));
    if !Multipliable(total) then Err(TypeError)
    else
      var first := [Update(platformId + "_total_power", platformName + " Total Power",
                           Corrected(total.x, m), "W")];
      if !detailed then Ok(first)
      else if !(Multipliable(ram) && Multipliable(drives) && Multipliable(fans)) then Err(TypeError)
      else
        Ok(first +
          [ Update(platformId + "_cpu_power", platformName + " CPU Power",
                   Corrected(cpu.Value().Real(), m), cpu.Unit()),
            Update(platformId + "_gpu_power", platformName + " GPU Power",
                   Corrected(gpu.Value().Real(), m), gpu.Unit()),
            Update(platformId + "_ram_power", platformName + " RAM Power", Corrected(ram.x, m), "W"),
            Update(platformId + "_drives_power", platformName + " Drives Power", Corrected(drives.x, m), "W"),
            Update(platformId + "_fans_power", platformName + " Fans Power", Corrected(fans.x, m), "W") ])
  }

  /** `push_power_to_webhook` as written, on a poll. */
  function PowerUpdatesAsWritten(platformId: string, platformName: string, psuEfficiency: int,
                                 readings: seq<Reading>, config: Config, detailed: bool,
                                 sendZeros: bool): Result<seq<Update>>
  {
    FigureUpdatesAsWritten(platformId, platformName, MeasuredFigures(readings, config),
                           PowerMultiplier(psuEfficiency), detailed, sendZeros)
  }

  /** As written, send-zeros mode raises a TypeError for every input, where
      the corrected PowerUpdates posts a zero total (and zeros for the rest,
      by PowerUpdatesZeros). */
  lemma SendZerosRaisesAsWritten(platformId: string, platformName: string, psuEfficiency: int,
                                 readings: seq<Reading>, config: Config, detailed: bool)
    ensures PowerUpdatesAsWritten(platformId, platformName, psuEfficiency, readings, config, detailed, true)
      == Err(TypeError)
    ensures PowerUpdates(platformId, platformName, psuEfficiency, readings, config, detailed, true)[0].state
      == Whole(0)
  {
    PowerUpdatesZeros(platformId, platformName, psuEfficiency, readings, config, detailed);
    FigureUpdatesLayout(platformId, platformName, ZeroFigures(), PowerMultiplier(psuEfficiency), detailed);
  }

  /** Outside send-zeros mode the code as written and the corrected model
      post the same updates. */
  lemma AsWrittenAgreesWhenMeasuring(platformId: string, platformName: string, f: PowerFigures,
                                     m: real, detailed: bool)
    ensures FigureUpdatesAsWritten(platformId, platformName, f, m, detailed, false)
      == Ok(FigureUpdates(platformId, platformName, f, m, detailed))
  {
    var r := FigureUpdatesAsWritten(platformId, platformName, f, m, detailed, false);
    var us := FigureUpdates(platformId, platformName, f, m, detailed);
    assert r.Ok?;
    assert |r.value| == |us|;
    assert r.value[0] == us[0];
    if detailed {
      assert r.value[1] == us[1];
      assert r.value[3] == us[3];
      assert r.value[5] == us[5];
    }
    assert r.value == us;
  }

  // ---------------------------------------------------------------------------
  // The service

  class WebhookService {
    const url: string
    const token: string
    const config: Config
    /** Every request posted so far, oldest first. */
    var sent: seq<Request>

    constructor (url: string, token: string, config: Config)
      ensures this.url == url && this.token == token && this.config == config
      ensures sent == []
    {
      this.url := url;
      this.token := token;
      this.config := config;
      sent := [];
    }

    /** `push_reading_to_webhook`: posts one state update. */
    method PushReadingToWebhook(deviceId: string, deviceName: string, state: State, unit: string)
      modifies this
      ensures sent == old(sent) + [BuildRequest(url, token, Update(deviceId, deviceName, state, unit))]
    {
      var data := Payload(Str(state), deviceName, unit);
      var authorization := "Bearer " + token;
      sent := sent + [Request(url + deviceId, data, authorization, "application/json")];
    }

    /** `push_load_to_webhook`: posts the CPU, GPU and RAM load. */
    method PushLoadToWebhook(platformId: string, platformName: string, readings: seq<Reading>,
                             sendZeros: bool)
      modifies this
      ensures sent == old(sent) + Requests(url, token, LoadUpdates(platformId, platformName, readings, config, sendZeros))
    {
      ghost var us := LoadUpdates(platformId, platformName, readings, config, sendZeros);
      var cpuUsage, gpuUsage, ramUsage;
      if sendZeros {
        cpuUsage, gpuUsage, ramUsage := Default("%"), Default("%"), Default("%");
      } else {
        cpuUsage := GetIntReading(readings, SensorLabel(config, "CpuLoad", "Total CPU Usage"), "%");
        gpuUsage := GetIntReading(readings, SensorLabel(config, "GpuLoad", "GPU Core Load"), "%");
        ramUsage := GetIntReading(readings, SensorLabel(config, "RamLoad", "Physical Memory Load"), "%");
      }
      assert us[0].state == RoundLoad(cpuUsage.Value()) && us[0].unit == cpuUsage.Unit();
      assert us[1].state == RoundLoad(gpuUsage.Value()) && us[1].unit == gpuUsage.Unit();
      assert us[2].state == RoundLoad(ramUsage.Value()) && us[2].unit == ramUsage.Unit();
      PushReadingToWebhook(platformId + "_cpu_load", platformName + " CPU Load",
                           RoundLoad(cpuUsage.Value()), cpuUsage.Unit());
      RequestsSnoc(url, token, [], us[0]);
      assert sent == old(sent) + Requests(url, token, [us[0]]);
      PushReadingToWebhook(platformId + "_gpu_load", platformName + " GPU Load",
                           RoundLoad(gpuUsage.Value()), gpuUsage.Unit());
      RequestsSnoc(url, token, [us[0]], us[1]);
      assert sent == old(sent) + Requests(url, token, [us[0], us[1]]);
      PushReadingToWebhook(platformId + "_ram_load", platformName + " RAM Load",
                           RoundLoad(ramUsage.Value()), ramUsage.Unit());
      RequestsSnoc(url, token, [us[0], us[1]], us[2]);
      assert sent == old(sent) + Requests(url, token, [us[0], us[1], us[2]]);
      assert [us[0], us[1], us[2]] == us;
    }

    /** `push_power_to_webhook`, with send-zeros mode posting zeros. */
    method PushPowerToWebhook(platformId: string, platformName: string, psuEfficiency: int,
                              readings: seq<Reading>, detailed: bool, sendZeros: bool)
      modifies this
      ensures sent == old(sent) + Requests(url, token,
        PowerUpdates(platformId, platformName, psuEfficiency, readings, config, detailed, sendZeros))
    {
      var cpuPower, gpuPower, ramPower, fansPower, drivesPower;
      if sendZeros {
        cpuPower, gpuPower := Default("W"), Default("W");
        ramPower, fansPower, drivesPower := 0, 0.0, 0;
      } else {
        cpuPower := GetIntReading(readings, SensorLabel(config, "CpuPower", "CPU Package Power"), "W");
        gpuPower := GetIntReading(readings, SensorLabel(config, "GpuPower", "GPU Power (Total)"), "W");
        ramPower := RamPower(readings, config);
        fansPower := FansPower(readings, config);
        drivesPower := DrivesPower(config);
      }
      var figures := PowerFigures(cpuPower, gpuPower, ramPower, fansPower, drivesPower);
      assert figures == PowerFiguresOf(readings, config, sendZeros);
      var multiplier := PowerMultiplier(psuEfficiency);
      PushPowerFigures(platformId, platformName, figures, multiplier, detailed);
    }

    /** The posting half of `push_power_to_webhook`: the total first, then
        the five components when `detailed`, each times the multiplier and
        rounded to the watt. */
    method PushPowerFigures(platformId: string, platformName: string, figures: PowerFigures,
                            multiplier: real, detailed: bool)
      modifies this
      ensures sent == old(sent) + Requests(url, token,
        FigureUpdates(platformId, platformName, figures, multiplier, detailed))
    {
      ghost var us := FigureUpdates(platformId, platformName, figures, multiplier, detailed);
      var totalPower := Total(figures);
      PushReadingToWebhook(platformId + "_total_power", platformName + " Total Power",
                           Corrected(totalPower, multiplier), "W");
      RequestsSnoc(url, token, [], us[0]);
      if detailed {
        ghost var components := ComponentUpdates(platformId, platformName, figures, multiplier);
        PushComponentFigures(platformId, platformName, figures, multiplier);
        RequestsAppend(url, token, [us[0]], components);
        assert us == [us[0]] + components;
      } else {
        assert us == [us[0]];
      }
    }

    /** The `detailed` block of `push_power_to_webhook`. */
    method PushComponentFigures(platformId: string, platformName: string, figures: PowerFigures,
                                multiplier: real)
      modifies this
      ensures sent == old(sent) + Requests(url, token,
        ComponentUpdates(platformId, platformName, figures, multiplier))
    {
      ghost var us := ComponentUpdates(platformId, platformName, figures, multiplier);
      PushReadingToWebhook(platformId + "_cpu_power", platformName + " CPU Power",
                           Corrected(figures.cpu.Value().Real(), multiplier), figures.cpu.Unit());
      RequestsSnoc(url, token, [], us[0]);
      assert sent == old(sent) + Requests(url, token, [us[0]]);
      PushReadingToWebhook(platformId + "_gpu_power", platformName + " GPU Power",
                           Corrected(figures.gpu.Value().Real(), multiplier), figures.gpu.Unit());
      RequestsSnoc(url, token, [us[0]], us[1]);
      assert sent == old(sent) + Requests(url, token, [us[0], us[1]]);
      PushReadingToWebhook(platformId + "_ram_power", platformName + " RAM Power",
                           Corrected(figures.ram as real, multiplier), "W");
      RequestsSnoc(url, token, [us[0], us[1]], us[2]);
      assert sent == old(sent) + Requests(url, token, [us[0], us[1], us[2]]);
      PushReadingToWebhook(platformId + "_drives_power", platformName + " Drives Power",
                           Corrected(figures.drives as real, multiplier), "W");
      RequestsSnoc(url, token, [us[0], us[1], us[2]], us[3]);
      assert sent == old(sent) + Requests(url, token, [us[0], us[1], us[2], us[3]]);
      PushReadingToWebhook(platformId + "_fans_power", platformName + " Fans Power",
                           Corrected(figures.fans, multiplier), "W");
      RequestsSnoc(url, token, [us[0], us[1], us[2], us[3]], us[4]);
      assert sent == old(sent) + Requests(url, token, [us[0], us[1], us[2], us[3], us[4]]);
      assert [us[0], us[1], us[2], us[3], us[4]] == us;
    }
  }
}
