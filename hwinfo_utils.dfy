/** Reading lookup and the two closed-form pieces of the power model:
    the PSU-efficiency multiplier and the fan power estimate. */
module HwinfoUtils {
  import opened PyValues
  import opened Readings

  /** What a lookup yields: the matching reading itself, or the stand-in
      `{"value": 0, "unit": unit}` when no reading carries the label. */
  datatype Found = Match(reading: Reading) | Default(unit: string) {
    function Value(): Num {
      match this
      case Match(r) => r.value
      case Default(_) => Int(0)
    }

    function Unit(): string {
      match this
      case Match(r) => r.unit
      case Default(u) => u
    }
  }

  /** `k` is the first position whose reading has original label `name`. */
  predicate FirstWithLabel(readings: seq<Reading>, name: string, k: int) {
    && 0 <= k < |readings|
    && readings[k].labelOriginal == name
    && forall j :: 0 <= j < k ==> readings[j].labelOriginal != name
  }

  /** `get_int_reading`: the first reading, in list order, whose original
      label is `name`; the zero default with the caller's unit when there is
      none. */
  function GetIntReading(readings: seq<Reading>, name: string, unit: string): (r: Found)
    ensures r.Default? <==> forall i :: 0 <= i < |readings| ==> readings[i].labelOriginal != name
    ensures r.Default? ==> r.unit == unit && r.Value() == Int(0)
    ensures r.Match? ==> exists k :: FirstWithLabel(readings, name, k) && readings[k] == r.reading
  {
    if readings == [] then Default(unit)
    else if readings[0].labelOriginal == name then
      assert FirstWithLabel(readings, name, 0);
      Match(readings[0])
    else
      var r := GetIntReading(readings[1..], name, unit);
      assert r.Match? ==> exists k :: FirstWithLabel(readings, name, k) && readings[k] == r.reading by {
        if r.Match? {
          var k :| FirstWithLabel(readings[1..], name, k) && readings[1..][k] == r.reading;
          assert FirstWithLabel(readings, name, k + 1) by {
            forall j | 0 <= j < k + 1 ensures readings[j].labelOriginal != name {
              if j > 0 { assert readings[j] == readings[1..][j - 1]; }
            }
          }
        }
      }
      r
  }

  /** A match is the reading at the first position carrying the label, so the
      lookup is determined by that position. */
  lemma GetIntReadingAt(readings: seq<Reading>, name: string, unit: string, k: int)
    requires FirstWithLabel(readings, name, k)
    ensures GetIntReading(readings, name, unit) == Match(readings[k])
  {
    var r := GetIntReading(readings, name, unit);
    var k' :| FirstWithLabel(readings, name, k') && readings[k'] == r.reading;
    assert k' == k;
  }

  /** Whenever some position is the first to carry the label, the lookup
      finds the reading there. */
  lemma FirstWithLabelFound(readings: seq<Reading>, name: string, unit: string)
    ensures forall k :: FirstWithLabel(readings, name, k) ==> GetIntReading(readings, name, unit) == Match(readings[k])
  {
    forall k | FirstWithLabel(readings, name, k)
      ensures GetIntReading(readings, name, unit) == Match(readings[k])
    {
      GetIntReadingAt(readings, name, unit, k);
    }
  }

  /** `calculate_power_multiplier`: wall power per unit of delivered power
      for a PSU of efficiency `psuEfficiency` percent. No range check. */
  function PowerMultiplier(psuEfficiency: int): (m: real)
    ensures m == (200 - psuEfficiency) as real / 100.0
    ensures m >= 1.0 <==> psuEfficiency <= 100
    ensures m > 0.0 <==> psuEfficiency < 200
  {
    var dissipation := 100 - psuEfficiency;
    (100 + dissipation) as real / 100.0
  }

  /** A more efficient supply never draws more from the wall. */
  lemma PowerMultiplierDecreasing(e1: int, e2: int)
    requires e1 < e2
    ensures PowerMultiplier(e1) > PowerMultiplier(e2)
  {
  }

  lemma PowerMultiplierExamples()
    ensures PowerMultiplier(100) == 1.0
    ensures PowerMultiplier(85) == 1.15
    ensures PowerMultiplier(0) == 2.0
  {
  }

  /** Watts of all configured fans at full duty: 1 W per 80 mm fan, 5 W per
      120 mm fan, 7 W per 200 mm fan; an absent count is 0. */
  function FanWeight(config: Config): int {
    PlatformInt(config, "Fan80mmQuantity", 0)
      + 5 * PlatformInt(config, "Fan120mmQuantity", 0)
      + 7 * PlatformInt(config, "Fan200mmQuantity", 0)
  }

  /** The CPU load reading's value, 0 when the configured label is missing. */
  function CpuLoad(readings: seq<Reading>, config: Config): real {
    GetIntReading(readings, SensorLabel(config, "CpuLoad", "Total CPU Usage"), "%").Value().Real()
  }

  /** Scaling by a non-negative factor keeps order. */
  lemma ScaleMonotone(c: real, x: real, y: real)
    requires c >= 0.0 && x <= y
    ensures c * x <= c * y
  {
  }

  /** `calculate_fans_power`: fan power scales with CPU load, with fans never
      taken to run below 40 % duty. */
  function FansPower(readings: seq<Reading>, config: Config): (p: real)
    ensures FanWeight(config) >= 0 ==> p >= 0.4 * FanWeight(config) as real
    ensures CpuLoad(readings, config) <= 40.0 ==> p == 0.4 * FanWeight(config) as real
    ensures CpuLoad(readings, config) >= 40.0 ==>
      p == FanWeight(config) as real / 100.0 * CpuLoad(readings, config)
  {
    FanDutyPower(FanWeight(config), CpuLoad(readings, config))
  }

  /** Full-duty fan watts `weight` at a duty of `load` percent, floored at 40. */
  function FanDutyPower(weight: int, load: real): (p: real)
    ensures weight >= 0 ==> p >= 0.4 * weight as real
    ensures load <= 40.0 ==> p == 0.4 * weight as real
    ensures load >= 40.0 ==> p == weight as real / 100.0 * load
  {
    var w := weight as real / 100.0;
    var duty := if 40.0 >= load then 40.0 else load;
    assert w >= 0.0 ==> w * duty >= w * 40.0 by {
      if w >= 0.0 { ScaleMonotone(w, 40.0, duty); }
    }
    w * duty
  }

  /** With no fan counts configured the estimate is 0 W, whatever the load. */
  lemma FansPowerWithoutFans(readings: seq<Reading>, config: Config)
    requires "Fan80mmQuantity" !in config.platform
    requires "Fan120mmQuantity" !in config.platform
    requires "Fan200mmQuantity" !in config.platform
    ensures FansPower(readings, config) == 0.0
  {
    assert FanWeight(config) == 0;
    FanDutyPowerOfNoFans(CpuLoad(readings, config));
  }

  lemma FanDutyPowerOfNoFans(load: real)
    ensures FanDutyPower(0, load) == 0.0
  {
  }

  /** With non-negative fan counts, higher CPU load never lowers the fan
      estimate. */
  lemma FanDutyPowerMonotone(weight: int, lo: real, hi: real)
    requires weight >= 0 && lo <= hi
    ensures FanDutyPower(weight, lo) <= FanDutyPower(weight, hi)
  {
    ScaleMonotone(weight as real / 100.0, if 40.0 >= lo then 40.0 else lo, if 40.0 >= hi then 40.0 else hi);
  }

  function CpuLoadReading(load: Num): Reading {
    Reading("Total CPU Usage", "Total CPU Usage", load, "%", 7, None, None)
  }

  /** Two 80 mm and four 120 mm fans, CPU load label left at its default:
      22 W at full duty, 15.4 W at 70 % load and the 40 % floor (8.8 W) at
      10 % load. */
  lemma FansPowerExamples()
    ensures var config := Config(map["Fan80mmQuantity" := 2, "Fan120mmQuantity" := 4,
                                     "Fan200mmQuantity" := 0], map[]);
      && FansPower([CpuLoadReading(Int(70))], config) == 15.4
      && FansPower([CpuLoadReading(Float(10.0))], config) == 8.8
  {
    var config := Config(map["Fan80mmQuantity" := 2, "Fan120mmQuantity" := 4,
                             "Fan200mmQuantity" := 0], map[]);
    assert FanWeight(config) == 22;
    assert CpuLoad([CpuLoadReading(Int(70))], config) == 70.0;
    assert CpuLoad([CpuLoadReading(Float(10.0))], config) == 10.0;
  }
}
