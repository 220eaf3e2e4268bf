/** The local data provider used when the backend is unreachable: predicate
    filters over the fixed catalog, and generators that fabricate power,
    energy and weather series of a fixed shape with random values.

    Random draws come from an oracle; each draw reads a fixed slot of it
    (documented per generator), so the order in which the source calls
    `Math.random()` is not modelled, only the ranges its results are
    scaled into. */
module MockApi {
  import opened Common
  import opened Types
  import opened Seqs
  import opened Text
  import opened Sampling
  import Catalog

  /** The error the mock throws: "Installation not found". */
  datatype MockError = InstallationNotFound

  /** What the mock reads from its surroundings: when the module was loaded
      (catalog timestamps), the current local time, and the random stream. */
  datatype Env = Env(loadedAt: Minutes, now: Minutes, rand: Oracle)

  /** `Math.max(0, x)`. */
  function PositivePart(x: real): (r: real)
    ensures r >= 0.0 && r >= x
    ensures r == 0.0 || r == x
  {
    if x > 0.0 then x else 0.0
  }

  // ---------------------------------------------------------------------
  // Catalog accessors

  function GetClients(env: Env): seq<Client> {
    Catalog.Clients(env.loadedAt)
  }

  /** With a truthy `clientId`, the catalog installations of that client in
      catalog order; otherwise the whole catalog. */
  function GetInstallations(env: Env, clientId: Option<string>): (r: seq<Installation>)
    ensures Truthy(clientId) ==> forall i :: 0 <= i < |r| ==> r[i].clientId == clientId.value
    ensures Truthy(clientId) ==> forall inst :: inst in Catalog.Installations(env.loadedAt) && inst.clientId == clientId.value ==> inst in r
    ensures Subsequence(r, Catalog.Installations(env.loadedAt))
    ensures !Truthy(clientId) ==> r == Catalog.Installations(env.loadedAt)
  {
    if Truthy(clientId) then Catalog.InstallationsOf(env.loadedAt, clientId.value)
    else
      SubsequenceOfItself(Catalog.Installations(env.loadedAt));
      Catalog.Installations(env.loadedAt)
  }

  /** With a truthy `installationId`, that installation's issues in order;
      otherwise every issue, resolved ones included. */
  function GetProcessIssues(env: Env, installationId: Option<string>): (r: seq<ProcessIssue>)
    ensures Truthy(installationId) ==> forall i :: 0 <= i < |r| ==> r[i].installationId == installationId.value
    ensures Truthy(installationId) ==> forall x :: x in Catalog.Issues(env.loadedAt) && x.installationId == installationId.value ==> x in r
    ensures Subsequence(r, Catalog.Issues(env.loadedAt))
    ensures !Truthy(installationId) ==> r == Catalog.Issues(env.loadedAt)
  {
    if Truthy(installationId) then
      Filter(Catalog.Issues(env.loadedAt), (issue: ProcessIssue) => issue.installationId == installationId.value)
    else
      SubsequenceOfItself(Catalog.Issues(env.loadedAt));
      Catalog.Issues(env.loadedAt)
  }

  /** The catalog entry with this id, if any. */
  function FindInstallation(env: Env, installationId: string): Option<Installation> {
    Find(Catalog.Installations(env.loadedAt), (inst: Installation) => inst.id == installationId)
  }

  // ---------------------------------------------------------------------
  // Power series: 288 points, 5 minutes apart, ending now.

  /** Iteration `i` of the power loop, `5 * i` minutes before now; the
      power draw is slot `2i`, the irradiation draw slot `2i + 1`. */
  function PowerPointAt(now: Minutes, i: nat, rand: Oracle): PowerData {
    var t := now - 5 * i;
    var day := IsDaylight(HourOf(t));
    var power := if day then Scaled(rand(2 * i), 40.0, 10.0) else 0.0;
    var irradiation := if day then Scaled(rand(2 * i + 1), 600.0, 200.0) else 0.0;
    PowerData(t, Round10(power), Some(Round10(irradiation)))
  }

  /** The series `generatePowerData` returns, oldest point first. */
  function PowerSeries(granularity: string, now: Minutes, rand: Oracle): seq<PowerData> {
    if granularity == "5min" then seq(288, k requires 0 <= k < 288 => PowerPointAt(now, 287 - k, rand))
    else []
  }

  /** `generatePowerData`: push one point per 5-minute step going back from
      now, then reverse. Only the "5min" granularity produces points. */
  method GeneratePowerData(installationId: string, granularity: string, now: Minutes, rand: Oracle)
    returns (data: seq<PowerData>)
    ensures data == PowerSeries(granularity, now, rand)
  {
    var acc: seq<PowerData> := [];
    if granularity == "5min" {
      for i := 0 to 288
        invariant |acc| == i
        invariant forall j :: 0 <= j < i ==> acc[j] == PowerPointAt(now, j, rand)
      {
        var timestamp := now - 5 * i;
        var hour := HourOf(timestamp);
        var power := 0.0;
        var irradiation := 0.0;
        if 6 <= hour && hour <= 18 {
          power := rand(2 * i) * 40.0 + 10.0;
          irradiation := rand(2 * i + 1) * 600.0 + 200.0;
        }
        acc := acc + [PowerData(timestamp, Round10(power), Some(Round10(irradiation)))];
      }
    }
    data := Reversed(acc);
    ReversedAll(acc);
  }

  /** The power series has 288 points in ascending 5-minute steps, the last
      at now; any other granularity gives no points. */
  lemma PowerSeriesShape(granularity: string, now: Minutes, rand: Oracle)
    ensures granularity != "5min" ==> PowerSeries(granularity, now, rand) == []
    ensures granularity == "5min" ==> |PowerSeries(granularity, now, rand)| == 288
    ensures granularity == "5min" ==> PowerSeries(granularity, now, rand)[287].timestamp == now
    ensures granularity == "5min" ==> forall k :: 0 <= k < 287 ==>
      PowerSeries(granularity, now, rand)[k + 1].timestamp == PowerSeries(granularity, now, rand)[k].timestamp + 5
  {
  }

  /** Daylight rule: at night power and irradiation are 0; by day power lies
      in [10, 50] and irradiation in [200, 800] after rounding. */
  lemma PowerPointDaylight(now: Minutes, i: nat, rand: Oracle)
    ensures var p := PowerPointAt(now, i, rand);
      p.irradiation.Some? &&
      (!IsDaylight(HourOf(p.timestamp)) ==> p.power == 0.0 && p.irradiation.value == 0.0) &&
      (IsDaylight(HourOf(p.timestamp)) ==>
        10.0 <= p.power <= 50.0 && 200.0 <= p.irradiation.value <= 800.0)
  {
    var t := now - 5 * i;
    if IsDaylight(HourOf(t)) {
      RoundWithin(Scaled(rand(2 * i), 40.0, 10.0), 100, 500);
      RoundWithin(Scaled(rand(2 * i + 1), 600.0, 200.0), 2000, 8000);
    } else {
      RoundZero();
    }
  }

  /** The daylight rule over a whole generated series. */
  lemma PowerSeriesDaylight(granularity: string, now: Minutes, rand: Oracle)
    ensures forall k :: 0 <= k < |PowerSeries(granularity, now, rand)| ==>
      var p := PowerSeries(granularity, now, rand)[k];
      p.irradiation.Some? &&
      (!IsDaylight(HourOf(p.timestamp)) ==> p.power == 0.0 && p.irradiation.value == 0.0) &&
      (IsDaylight(HourOf(p.timestamp)) ==>
        10.0 <= p.power <= 50.0 && 200.0 <= p.irradiation.value <= 800.0)
  {
    forall k | 0 <= k < |PowerSeries(granularity, now, rand)|
      ensures var p := PowerSeries(granularity, now, rand)[k];
        p.irradiation.Some? &&
        (!IsDaylight(HourOf(p.timestamp)) ==> p.power == 0.0 && p.irradiation.value == 0.0) &&
        (IsDaylight(HourOf(p.timestamp)) ==>
          10.0 <= p.power <= 50.0 && 200.0 <= p.irradiation.value <= 800.0)
    {
      PowerPointDaylight(now, 287 - k, rand);
    }
  }

  // ---------------------------------------------------------------------
  // Energy series: 168 hours, four records per hour.

  /** The unrounded flows of one hour. */
  datatype Flows = Flows(production: real, consumption: real, exported: real, imported: real)

  /** The flows of an hour from its two draws: production only by day,
      export and import as the positive parts of the imbalance. */
  function HourFlows(hour: int, production: Unit, consumption: Unit): Flows {
    var p := if IsDaylight(hour) then Scaled(production, 50.0, 0.0) else 0.0;
    var c := Scaled(consumption, 25.0, 5.0);
    Flows(p, c, PositivePart(p - c), PositivePart(c - p))
  }

  /** Grid balance: production plus import equals consumption plus export,
      at most one of export and import is positive, and nothing is produced
      at night. */
  lemma GridBalance(hour: int, production: Unit, consumption: Unit)
    ensures var f := HourFlows(hour, production, consumption);
      f.production + f.imported == f.consumption + f.exported &&
      (f.exported == 0.0 || f.imported == 0.0) &&
      0.0 <= f.production < 50.0 && 5.0 <= f.consumption < 30.0 &&
      (!IsDaylight(hour) ==> f.production == 0.0 && f.exported == 0.0)
  {
  }

  /** The four records iteration `i` pushes, `i` hours before now, in push
      order: production, consumption, export, import. Draw slots `2i`
      (production) and `2i + 1` (consumption). */
  function EnergyRecordsAt(now: Minutes, i: nat, rand: Oracle): (r: seq<EnergyData>)
    ensures |r| == 4
  {
    var t := now - 60 * i;
    var f := HourFlows(HourOf(t), rand(2 * i), rand(2 * i + 1));
    [ EnergyData(t, Round10(f.production), Production),
      EnergyData(t, Round10(f.consumption), Consumption),
      EnergyData(t, Round10(f.exported), Export),
      EnergyData(t, Round10(f.imported), Import) ]
  }

  /** The series `generateEnergyData` returns: record `k` belongs to hour
      group `k / 4`, oldest first, and within a group the push order is
      reversed. */
  function EnergySeries(granularity: string, now: Minutes, rand: Oracle): seq<EnergyData> {
    if granularity == "hourly" then
      seq(672, k requires 0 <= k < 672 => EnergyRecordsAt(now, 167 - k / 4, rand)[3 - k % 4])
    else []
  }

  lemma ReversedGroupIndex(k: int)
    requires 0 <= k < 672
    ensures (671 - k) / 4 == 167 - k / 4
    ensures (671 - k) % 4 == 3 - k % 4
  {
    var q, r := k / 4, k % 4;
    assert 671 - k == 4 * (167 - q) + (3 - r);
  }

  /** The first `i` hours of the energy loop have been pushed. */
  ghost predicate EnergyPushed(acc: seq<EnergyData>, i: nat, now: Minutes, rand: Oracle) {
    |acc| == 4 * i &&
    forall k :: 0 <= k < |acc| ==> acc[k] == EnergyRecordsAt(now, k / 4, rand)[k % 4]
  }

  lemma EnergyPushStep(acc: seq<EnergyData>, i: nat, now: Minutes, rand: Oracle)
    requires EnergyPushed(acc, i, now, rand)
    ensures EnergyPushed(acc + EnergyRecordsAt(now, i, rand), i + 1, now, rand)
  {
    var next := acc + EnergyRecordsAt(now, i, rand);
    forall k | 4 * i <= k < 4 * i + 4
      ensures next[k] == EnergyRecordsAt(now, k / 4, rand)[k % 4]
    {
      assert k / 4 == i && k % 4 == k - 4 * i;
    }
  }

  /** Record `k` of the reversed push order. */
  lemma ReversedRecordAt(acc: seq<EnergyData>, now: Minutes, rand: Oracle, k: nat)
    requires EnergyPushed(acc, 168, now, rand) && k < 672
    ensures |Reversed(acc)| == 672 && Reversed(acc)[k] == EnergyRecordsAt(now, 167 - k / 4, rand)[3 - k % 4]
  {
    ReversedIndex(acc, k);
    var r := 671 - k;
    assert acc[r] == EnergyRecordsAt(now, r / 4, rand)[r % 4];
    ReversedGroupIndex(k);
  }

  lemma EnergyReversedIsSeries(acc: seq<EnergyData>, now: Minutes, rand: Oracle)
    requires EnergyPushed(acc, 168, now, rand)
    ensures Reversed(acc) == EnergySeries("hourly", now, rand)
  {
    ReversedAll(acc);
    var s := EnergySeries("hourly", now, rand);
    forall k | 0 <= k < 672
      ensures Reversed(acc)[k] == s[k]
    {
      EnergySeriesIndex(now, rand, k);
      ReversedRecordAt(acc, now, rand, k);
    }
  }

  /** `generateEnergyData`: push four records per hour going back from
      now, then reverse. Only the "hourly" granularity produces records. */
  method GenerateEnergyData(installationId: string, granularity: string, now: Minutes, rand: Oracle)
    returns (data: seq<EnergyData>)
    ensures data == EnergySeries(granularity, now, rand)
  {
    var acc: seq<EnergyData> := [];
    if granularity == "hourly" {
      for i := 0 to 168
        invariant EnergyPushed(acc, i, now, rand)
      {
        var timestamp := now - 60 * i;
        var hour := HourOf(timestamp);
        var production := if 6 <= hour && hour <= 18 then rand(2 * i) * 50.0 else 0.0;
        var consumption := rand(2 * i + 1) * 25.0 + 5.0;
        var exportEnergy := PositivePart(production - consumption);
        var importEnergy := PositivePart(consumption - production);
        var group := [ EnergyData(timestamp, Round10(production), Production),
                       EnergyData(timestamp, Round10(consumption), Consumption),
                       EnergyData(timestamp, Round10(exportEnergy), Export),
                       EnergyData(timestamp, Round10(importEnergy), Import) ];
        assert group == EnergyRecordsAt(now, i, rand);
        EnergyPushStep(acc, i, now, rand);
        acc := acc + group;
      }
      EnergyReversedIsSeries(acc, now, rand);
    }
    data := Reversed(acc);
  }

  /** Record `k` of the hourly series. */
  lemma EnergySeriesIndex(now: Minutes, rand: Oracle, k: nat)
    requires k < 672
    ensures EnergySeries("hourly", now, rand)[k] == EnergyRecordsAt(now, 167 - k / 4, rand)[3 - k % 4]
  {
  }

  lemma GroupIndex(j: nat, m: nat)
    requires m < 4
    ensures (4 * j + m) / 4 == j && (4 * j + m) % 4 == m
  {
  }

  /** Record `4j + m` of the hourly series is record `3 - m` of the group
      iteration `167 - j` pushed. */
  lemma EnergySeriesAt(now: Minutes, rand: Oracle, j: nat, m: nat)
    requires j < 168 && m < 4
    ensures EnergySeries("hourly", now, rand)[4 * j + m] == EnergyRecordsAt(now, 167 - j, rand)[3 - m]
  {
    var k := 4 * j + m;
    GroupIndex(j, m);
    EnergySeriesIndex(now, rand, k);
    var i1, i2 := 167 - k / 4, 3 - k % 4;
    assert i1 == 167 - j && i2 == 3 - m;
  }

  /** The hourly energy series: 168 groups of four records in ascending
      hourly order, each group reading import, export, consumption,
      production for one timestamp; other granularities give nothing. */
  lemma EnergySeriesShape(granularity: string, now: Minutes, rand: Oracle)
    ensures granularity != "hourly" ==> EnergySeries(granularity, now, rand) == []
    ensures granularity == "hourly" ==> |EnergySeries(granularity, now, rand)| == 168 * 4
    ensures granularity == "hourly" ==> forall j :: 0 <= j < 168 ==>
      var s := EnergySeries(granularity, now, rand);
      s[4 * j].kind == Import && s[4 * j + 1].kind == Export &&
      s[4 * j + 2].kind == Consumption && s[4 * j + 3].kind == Production &&
      s[4 * j].timestamp == now - 60 * (167 - j) &&
      s[4 * j + 1].timestamp == s[4 * j].timestamp &&
      s[4 * j + 2].timestamp == s[4 * j].timestamp &&
      s[4 * j + 3].timestamp == s[4 * j].timestamp
  {
    if granularity == "hourly" {
      forall j | 0 <= j < 168
        ensures var s := EnergySeries(granularity, now, rand);
          s[4 * j].kind == Import && s[4 * j + 1].kind == Export &&
          s[4 * j + 2].kind == Consumption && s[4 * j + 3].kind == Production &&
          s[4 * j].timestamp == now - 60 * (167 - j) &&
          s[4 * j + 1].timestamp == s[4 * j].timestamp &&
          s[4 * j + 2].timestamp == s[4 * j].timestamp &&
          s[4 * j + 3].timestamp == s[4 * j].timestamp
      {
        EnergySeriesAt(now, rand, j, 0);
        EnergySeriesAt(now, rand, j, 1);
        EnergySeriesAt(now, rand, j, 2);
        EnergySeriesAt(now, rand, j, 3);
        var g := EnergyRecordsAt(now, 167 - j, rand);
        assert g[0].kind == Production && g[1].kind == Consumption && g[2].kind == Export && g[3].kind == Import;
      }
    }
  }

  /** After rounding, at most one of an hour's export and import records is
      positive, every record is non-negative, and production is 0 at night. */
  lemma EnergyRecordsRounded(now: Minutes, i: nat, rand: Oracle)
    ensures var r := EnergyRecordsAt(now, i, rand);
      (r[2].energy == 0.0 || r[3].energy == 0.0) &&
      (forall m :: 0 <= m < 4 ==> r[m].energy >= 0.0) &&
      (!IsDaylight(HourOf(now - 60 * i)) ==> r[0].energy == 0.0 && r[2].energy == 0.0) &&
      r[0].energy <= 50.0 && 5.0 <= r[1].energy <= 30.0
  {
    var t := now - 60 * i;
    var f := HourFlows(HourOf(t), rand(2 * i), rand(2 * i + 1));
    GridBalance(HourOf(t), rand(2 * i), rand(2 * i + 1));
    RoundZero();
    RoundNonNegative(f.production);
    RoundNonNegative(f.consumption);
    RoundNonNegative(f.exported);
    RoundNonNegative(f.imported);
    RoundWithin(f.production, 0, 500);
    RoundWithin(f.consumption, 50, 300);
  }

  // ---------------------------------------------------------------------
  // Weather series: 24 hourly points.

  /** Iteration `i` of the weather loop, `i` hours before now. Draw slots
      `4i` .. `4i + 3`: temperature, humidity, wind speed, irradiation. */
  function WeatherPointAt(now: Minutes, i: nat, rand: Oracle): WeatherData {
    var t := now - 60 * i;
    WeatherData(
      t,
      Round10(Scaled(rand(4 * i), 15.0, 15.0)),
      Round10(Scaled(rand(4 * i + 1), 40.0, 40.0)),
      Round10(Scaled(rand(4 * i + 2), 13.0, 2.0)),
      if IsDaylight(HourOf(t)) then Round10(Scaled(rand(4 * i + 3), 500.0, 100.0)) else 0.0)
  }

  /** The series `getWeatherData` returns, oldest point first. */
  function WeatherSeries(now: Minutes, rand: Oracle): seq<WeatherData> {
    seq(24, k requires 0 <= k < 24 => WeatherPointAt(now, 23 - k, rand))
  }

  /** `getWeatherData`: 24 hourly points pushed going back from now, then
      reversed. The installation and the date range are ignored. */
  method GetWeatherData(env: Env, installationId: string, startDate: Option<string>, endDate: Option<string>)
    returns (data: seq<WeatherData>)
    ensures data == WeatherSeries(env.now, env.rand)
  {
    var acc: seq<WeatherData> := [];
    for i := 0 to 24
      invariant |acc| == i
      invariant forall j :: 0 <= j < i ==> acc[j] == WeatherPointAt(env.now, j, env.rand)
    {
      var timestamp := env.now - 60 * i;
      var irradiation := 0.0;
      if 6 <= HourOf(timestamp) && HourOf(timestamp) <= 18 {
        irradiation := Round10(env.rand(4 * i + 3) * 500.0 + 100.0);
      }
      acc := acc + [WeatherData(
        timestamp,
        Round10(env.rand(4 * i) * 15.0 + 15.0),
        Round10(env.rand(4 * i + 1) * 40.0 + 40.0),
        Round10(env.rand(4 * i + 2) * 13.0 + 2.0),
        irradiation)];
    }
    data := Reversed(acc);
    ReversedAll(acc);
  }

  /** The weather series: 24 points one hour apart ending now; irradiation
      is 0 at night and in [100, 600] by day; temperature, humidity and
      wind speed stay in [15, 30], [40, 80] and [2, 15]. */
  lemma WeatherSeriesContract(now: Minutes, rand: Oracle)
    ensures |WeatherSeries(now, rand)| == 24
    ensures WeatherSeries(now, rand)[23].timestamp == now
    ensures forall k :: 0 <= k < 23 ==>
      WeatherSeries(now, rand)[k + 1].timestamp == WeatherSeries(now, rand)[k].timestamp + 60
    ensures forall k :: 0 <= k < 24 ==>
      var w := WeatherSeries(now, rand)[k];
      (!IsDaylight(HourOf(w.timestamp)) ==> w.irradiation == 0.0) &&
      (IsDaylight(HourOf(w.timestamp)) ==> 100.0 <= w.irradiation <= 600.0) &&
      15.0 <= w.temperature <= 30.0 && 40.0 <= w.humidity <= 80.0 && 2.0 <= w.windSpeed <= 15.0
  {
    forall k | 0 <= k < 24
      ensures var w := WeatherSeries(now, rand)[k];
        (!IsDaylight(HourOf(w.timestamp)) ==> w.irradiation == 0.0) &&
        (IsDaylight(HourOf(w.timestamp)) ==> 100.0 <= w.irradiation <= 600.0) &&
        15.0 <= w.temperature <= 30.0 && 40.0 <= w.humidity <= 80.0 && 2.0 <= w.windSpeed <= 15.0
    {
      var i := 23 - k;
      RoundWithin(Scaled(rand(4 * i), 15.0, 15.0), 150, 300);
      RoundWithin(Scaled(rand(4 * i + 1), 40.0, 40.0), 400, 800);
      RoundWithin(Scaled(rand(4 * i + 2), 13.0, 2.0), 20, 150);
      RoundWithin(Scaled(rand(4 * i + 3), 500.0, 100.0), 1000, 6000);
    }
  }

  // ---------------------------------------------------------------------
  // Per-installation accessors

  /** `getPowerData`: the date range and the installation are ignored. */
  method GetPowerData(env: Env, installationId: string, granularity: string,
                      startDate: Option<string>, endDate: Option<string>)
    returns (data: seq<PowerData>)
    ensures data == PowerSeries(granularity, env.now, env.rand)
  {
    data := GeneratePowerData(installationId, granularity, env.now, env.rand);
  }

  /** `getEnergyData`: the date range and the installation are ignored. */
  method GetEnergyData(env: Env, installationId: string, granularity: string,
                       startDate: Option<string>, endDate: Option<string>)
    returns (data: seq<EnergyData>)
    ensures data == EnergySeries(granularity, env.now, env.rand)
  {
    data := GenerateEnergyData(installationId, granularity, env.now, env.rand);
  }

  /** The detail `getInstallationDetail` returns: four scalar draws (slots
      0 to 3), then a 5-minute power history drawn from the rest of the
      stream, and no weather data. */
  function DetailOf(env: Env, installationId: string): Result<InstallationDetail, MockError> {
    match FindInstallation(env, installationId)
    case None => Err(InstallationNotFound)
    case Some(inst) =>
      Ok(InstallationDetail(
        inst,
        Round10(Scaled(env.rand(0), 40.0, 10.0)),
        Round10(Scaled(env.rand(1), 80.0, 20.0)),
        Round10(Scaled(env.rand(2), 25.0, 5.0)),
        Round10(Scaled(env.rand(3), 70.0, 10.0)),
        PowerSeries("5min", env.now, Skip(env.rand, 4)),
        []))
  }

  /** `getInstallationDetail`: throws "Installation not found" for an id
      outside the catalog. */
  method GetInstallationDetail(env: Env, installationId: string)
    returns (r: Result<InstallationDetail, MockError>)
    ensures r == DetailOf(env, installationId)
  {
    var installation := FindInstallation(env, installationId);
    if installation.None? {
      return Err(InstallationNotFound);
    }
    var rand := env.rand;
    var currentPower := Round10(rand(0) * 40.0 + 10.0);
    var selfConsumption := Round10(rand(1) * 80.0 + 20.0);
    var energyImported := Round10(rand(2) * 25.0 + 5.0);
    var energyExported := Round10(rand(3) * 70.0 + 10.0);
    var history := GeneratePowerData(installationId, "5min", env.now, Skip(rand, 4));
    r := Ok(InstallationDetail(installation.value, currentPower, selfConsumption,
                               energyImported, energyExported, history, []));
  }

  /** The detail fails exactly for ids outside the catalog; otherwise it
      carries that catalog entry, a full 5-minute power history, no weather
      data, and current power in [10, 50]. */
  lemma DetailContract(env: Env, installationId: string)
    ensures DetailOf(env, installationId).Err? <==>
      forall i :: 0 <= i < 3 ==> Catalog.Installations(env.loadedAt)[i].id != installationId
    ensures DetailOf(env, installationId).Ok? ==>
      var d := DetailOf(env, installationId).value;
      d.installation in Catalog.Installations(env.loadedAt) &&
      d.installation.id == installationId &&
      |d.powerHistory| == 288 && d.powerHistory[287].timestamp == env.now &&
      d.weatherData == [] &&
      10.0 <= d.currentPower <= 50.0
  {
    PowerSeriesShape("5min", env.now, Skip(env.rand, 4));
    RoundWithin(Scaled(env.rand(0), 40.0, 10.0), 100, 500);
  }

  /** `getMonthlyReport`: echoes the id and the year, pads the month to two
      digits, and draws the five figures from slots 0 to 4. */
  function GetMonthlyReport(env: Env, installationId: string, month: int, year: int)
    : Result<MonthlyReport, MockError>
  {
    match FindInstallation(env, installationId)
    case None => Err(InstallationNotFound)
    case Some(_) =>
      Ok(MonthlyReport(
        installationId,
        TwoDigit(month),
        year,
        Round10(Scaled(env.rand(0), 4000.0, 1000.0)),
        Round10(Scaled(env.rand(1), 2200.0, 800.0)),
        Round10(Scaled(env.rand(2), 1800.0, 200.0)),
        Round10(Scaled(env.rand(3), 700.0, 100.0)),
        Round10(Scaled(env.rand(4), 20.0, 75.0))))
  }

  /** The report fails exactly for ids outside the catalog; otherwise it
      echoes the id and the year, its month is the two-digit form of
      `month`, and all four totals are non-negative. */
  lemma MonthlyReportContract(env: Env, installationId: string, month: int, year: int)
    ensures GetMonthlyReport(env, installationId, month, year).Err? <==>
      forall i :: 0 <= i < 3 ==> Catalog.Installations(env.loadedAt)[i].id != installationId
    ensures GetMonthlyReport(env, installationId, month, year).Ok? ==>
      var r := GetMonthlyReport(env, installationId, month, year).value;
      r.installationId == installationId && r.year == year &&
      (1 <= month <= 12 ==> |r.month| == 2 && DigitsValue(r.month) == month) &&
      r.totalProduction >= 0.0 && r.totalConsumption >= 0.0 &&
      r.totalExport >= 0.0 && r.totalImport >= 0.0 &&
      75.0 <= r.efficiency <= 95.0
  {
    if 1 <= month <= 12 {
      TwoDigitDenotes(month);
    }
    RoundNonNegative(Scaled(env.rand(0), 4000.0, 1000.0));
    RoundNonNegative(Scaled(env.rand(1), 2200.0, 800.0));
    RoundNonNegative(Scaled(env.rand(2), 1800.0, 200.0));
    RoundNonNegative(Scaled(env.rand(3), 700.0, 100.0));
    RoundWithin(Scaled(env.rand(4), 20.0, 75.0), 750, 950);
  }

  /** `getMonthlyReport('inst-001', 6, 2024)` resolves with month "06". */
  lemma JuneReportScenario(env: Env)
    ensures GetMonthlyReport(env, "inst-001", 6, 2024).Ok?
    ensures GetMonthlyReport(env, "inst-001", 6, 2024).value.month == "06"
    ensures GetMonthlyReport(env, "inst-001", 6, 2024).value.year == 2024
  {
    assert Catalog.Installations(env.loadedAt)[0].id == "inst-001";
    assert NatToString(6) == "6";
  }

  /** `generatePDFReport`: a placeholder PDF blob. */
  function GeneratePdfReport(installationId: string, month: int, year: int): (b: Blob)
    ensures b.mediaType == "application/pdf"
  {
    Blob("Mock PDF content", "application/pdf")
  }
}
