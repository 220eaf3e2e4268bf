/** The installation comparison panel (`InstallationComparison`): one entry
    per installation with its production total over the selected period and
    its energy yield per installed kW, and the totals above the charts. */
module Comparison {
  import opened Common
  import opened Types
  import opened Seqs
  import Metrics
  import Api
  import MockApi

  datatype Period = Daily | Monthly | Yearly

  function PeriodName(p: Period): string {
    match p
    case Daily => "daily"
    case Monthly => "monthly"
    case Yearly => "yearly"
  }

  /** The granularity asked of the energy endpoint:
      `selectedPeriod === 'daily' ? 'hourly' : selectedPeriod`. */
  function Granularity(p: Period): (g: string)
    ensures g == "hourly" <==> p == Daily
    ensures p != Daily ==> g == PeriodName(p)
  {
    if p == Daily then "hourly" else PeriodName(p)
  }

  predicate IsProduction(d: EnergyData) {
    d.kind == Production
  }

  function Energy(d: EnergyData): real {
    d.energy
  }

  /** A record's share of the production total. */
  function ProductionShare(d: EnergyData): real {
    if d.kind == Production then d.energy else 0.0
  }

  /** `energyData.filter(d => d.type === 'production').reduce((sum, d) => sum + d.energy, 0)`. */
  function ProductionTotal(data: seq<EnergyData>): real {
    SumOf(Filter(data, IsProduction), Energy)
  }

  /** Only production counts: the total is the sum over all records with
      consumption, export and import records counted as zero. */
  lemma ProductionTotalCountsProductionOnly(data: seq<EnergyData>)
    ensures ProductionTotal(data) == SumOf(data, ProductionShare)
  {
    SumFilter(data, IsProduction, Energy, ProductionShare);
  }

  /** The total adds up over a split of the records. */
  lemma ProductionTotalAppend(data: seq<EnergyData>, more: seq<EnergyData>)
    ensures ProductionTotal(data + more) == ProductionTotal(data) + ProductionTotal(more)
  {
    FilterAppend(data, more, IsProduction);
    SumAppend(Filter(data, IsProduction), Filter(more, IsProduction), Energy);
  }

  /** The total lies in [0, n * cap] when every production record lies in
      [0, cap]. */
  lemma ProductionTotalBounds(data: seq<EnergyData>, cap: real)
    requires cap >= 0.0
    requires forall i :: 0 <= i < |data| && data[i].kind == Production ==> 0.0 <= data[i].energy <= cap
    ensures 0.0 <= ProductionTotal(data) <= |data| as real * cap
  {
    ProductionTotalCountsProductionOnly(data);
    assert forall i :: 0 <= i < |data| ==> 0.0 <= ProductionShare(data[i]) <= cap;
    SumBounds(data, ProductionShare, 0.0, cap);
  }

  /** `installedPower > 0 ? totalEnergy / installedPower : 0`. */
  function Yield(totalEnergy: real, installedPower: real): (y: real)
    ensures installedPower > 0.0 ==> y * installedPower == totalEnergy
    ensures installedPower <= 0.0 ==> y == 0.0
    ensures installedPower > 0.0 && totalEnergy >= 0.0 ==> y >= 0.0
    ensures totalEnergy == 0.0 ==> y == 0.0
  {
    if installedPower > 0.0 then totalEnergy / installedPower else 0.0
  }

  /** The comparison entry built for one installation from its energy
      records. */
  function Entry(inst: Installation, data: seq<EnergyData>, p: Period): InstallationComparison {
    var total := ProductionTotal(data);
    InstallationComparison(inst.id, inst.name, inst.installedPower, total,
                           Yield(total, inst.installedPower), PeriodName(p))
  }

  /** The energy records fetched for one installation. */
  function EnergyOf(b: Api.Backend, env: MockApi.Env, inst: Installation, p: Period): seq<EnergyData> {
    Api.GetEnergyData(b, env, inst.id, Granularity(p), None, None)
  }

  /** The fan-out of `loadData`: one entry per installation, in the same
      order, each carrying its installation's id, name and rating, the
      selected period, the production total of its own records, and the
      yield of that total per installed kW. */
  function Entries(b: Api.Backend, env: MockApi.Env, installations: seq<Installation>, p: Period)
    : (r: seq<InstallationComparison>)
    ensures |r| == |installations|
    ensures forall i :: 0 <= i < |r| ==>
      r[i].installationId == installations[i].id &&
      r[i].installationName == installations[i].name &&
      r[i].totalPower == installations[i].installedPower &&
      r[i].period == PeriodName(p) &&
      r[i].totalEnergy == SumOf(EnergyOf(b, env, installations[i], p), ProductionShare) &&
      r[i].energyYield == Yield(r[i].totalEnergy, installations[i].installedPower)
  {
    var r := seq(|installations|, i requires 0 <= i < |installations| =>
      Entry(installations[i], EnergyOf(b, env, installations[i], p), p));
    assert forall i :: 0 <= i < |r| ==> r[i].totalEnergy == SumOf(EnergyOf(b, env, installations[i], p), ProductionShare) by {
      forall i | 0 <= i < |r|
        ensures r[i].totalEnergy == SumOf(EnergyOf(b, env, installations[i], p), ProductionShare)
      {
        ProductionTotalCountsProductionOnly(EnergyOf(b, env, installations[i], p));
      }
    }
    r
  }

  /** What `loadData` leaves behind: the installations of the client (all
      when there is none) and their comparison entries. */
  datatype View = View(installations: seq<Installation>, entries: seq<InstallationComparison>)

  function LoadData(b: Api.Backend, env: MockApi.Env, clientId: Option<string>, p: Period): (v: View)
    ensures v.installations == Api.GetInstallations(b, env, clientId)
    ensures |v.entries| == |v.installations|
    ensures forall i :: 0 <= i < |v.entries| ==> v.entries[i].installationId == v.installations[i].id
  {
    var installations := Api.GetInstallations(b, env, clientId);
    View(installations, Entries(b, env, installations, p))
  }

  function EntryEnergy(e: InstallationComparison): real {
    e.totalEnergy
  }

  function EntryYield(e: InstallationComparison): real {
    e.energyYield
  }

  /** `comparisonData.reduce((sum, data) => sum + data.totalEnergy, 0)`. */
  function TotalEnergy(entries: seq<InstallationComparison>): real {
    SumOf(entries, EntryEnergy)
  }

  /** The mean yield of the entries, 0 when there are none. */
  function AverageYield(entries: seq<InstallationComparison>): real {
    if |entries| > 0 then SumOf(entries, EntryYield) / |entries| as real else 0.0
  }

  /** The average yield is 0 for no entries and otherwise lies between the
      smallest and the largest yield; the energy total lies between `n`
      times the smallest and `n` times the largest entry total. */
  lemma TotalsBounds(entries: seq<InstallationComparison>, lo: real, hi: real)
    ensures entries == [] ==> AverageYield(entries) == 0.0 && TotalEnergy(entries) == 0.0
    ensures entries != [] && (forall i :: 0 <= i < |entries| ==> lo <= entries[i].energyYield <= hi) ==>
      lo <= AverageYield(entries) <= hi
    ensures (forall i :: 0 <= i < |entries| ==> lo <= entries[i].totalEnergy <= hi) ==>
      |entries| as real * lo <= TotalEnergy(entries) <= |entries| as real * hi
  {
    if entries != [] && (forall i :: 0 <= i < |entries| ==> lo <= entries[i].energyYield <= hi) {
      SumBounds(entries, EntryYield, lo, hi);
      MeanWithin(SumOf(entries, EntryYield), |entries| as real, lo, hi);
    }
    if forall i :: 0 <= i < |entries| ==> lo <= entries[i].totalEnergy <= hi {
      SumBounds(entries, EntryEnergy, lo, hi);
    }
  }

  lemma MeanWithin(sum: real, n: real, lo: real, hi: real)
    requires n > 0.0 && n * lo <= sum <= n * hi
    ensures lo <= sum / n <= hi
  {
    assert sum / n * n == sum;
  }

  /** With the backend down, an installation's records are the mock
      series of the period's granularity. */
  lemma MockEnergy(b: Api.Backend, env: MockApi.Env, inst: Installation, p: Period)
    requires Api.Down(b)
    ensures EnergyOf(b, env, inst, p) == MockApi.EnergySeries(Granularity(p), env.now, env.rand)
  {
    var rq := Api.GetRequest(Api.EnergyEndpoint(inst.id, Granularity(p), None, None));
    assert !Api.IsOk(b.energy(rq));
  }

  /** The mock energy data feeds the panel only for `daily`: with the
      backend down, a `monthly` or `yearly` entry has no energy and no
      yield, while a `daily` entry has a non-negative total. */
  lemma MockEntry(b: Api.Backend, env: MockApi.Env, inst: Installation, p: Period)
    requires Api.Down(b)
    ensures p != Daily ==>
      (Entry(inst, EnergyOf(b, env, inst, p), p).totalEnergy == 0.0 &&
       Entry(inst, EnergyOf(b, env, inst, p), p).energyYield == 0.0)
    ensures p == Daily ==> Entry(inst, EnergyOf(b, env, inst, p), p).totalEnergy >= 0.0
  {
    MockEnergy(b, env, inst, p);
    if p == Daily {
      MockDailyNonNegative(env);
    } else {
      MockApi.EnergySeriesShape(Granularity(p), env.now, env.rand);
    }
  }

  lemma MockDailyNonNegative(env: MockApi.Env)
    ensures ProductionTotal(MockApi.EnergySeries("hourly", env.now, env.rand)) >= 0.0
  {
    MockSeriesProductionBounded(env);
    ProductionTotalBounds(MockApi.EnergySeries("hourly", env.now, env.rand), 50.0);
  }

  /** Every production record of the mock hourly series lies in [0, 50]. */
  lemma MockSeriesProductionBounded(env: MockApi.Env)
    ensures var s := MockApi.EnergySeries("hourly", env.now, env.rand);
      forall k :: 0 <= k < |s| && s[k].kind == Production ==> 0.0 <= s[k].energy <= 50.0
  {
    var s := MockApi.EnergySeries("hourly", env.now, env.rand);
    forall k | 0 <= k < |s| && s[k].kind == Production
      ensures 0.0 <= s[k].energy <= 50.0
    {
      MockApi.EnergySeriesIndex(env.now, env.rand, k);
      MockApi.EnergyRecordsRounded(env.now, 167 - k / 4, env.rand);
      var g := MockApi.EnergyRecordsAt(env.now, 167 - k / 4, env.rand);
      assert g[1].kind == Consumption && g[2].kind == Export && g[3].kind == Import;
    }
  }
}
