/** The shared data contract: one datatype per entity of `src/types/index.ts`.
    Timestamps are local wall-clock minutes; quantities are reals. */
module Types {
  import opened Common

  /** Local wall-clock time, in minutes since the epoch. */
  type Minutes = int

  datatype Status = Active | Inactive | Maintenance | Error

  datatype Installation = Installation(
    id: string,
    name: string,
    clientId: string,
    clientName: string,
    installedPower: real,  // kW
    location: string,
    status: Status,
    lastUpdate: Minutes)

  datatype Client = Client(
    id: string,
    name: string,
    email: string,
    installations: seq<Installation>)

  datatype PowerData = PowerData(
    timestamp: Minutes,
    power: real,                 // kW
    irradiation: Option<real>)   // W/m2

  datatype EnergyKind = Production | Consumption | Export | Import

  datatype EnergyData = EnergyData(
    timestamp: Minutes,
    energy: real,  // kWh
    kind: EnergyKind)

  datatype InstallationComparison = InstallationComparison(
    installationId: string,
    installationName: string,
    totalPower: real,
    totalEnergy: real,
    energyYield: real,  // kWh/kW
    period: string)

  datatype WeatherData = WeatherData(
    timestamp: Minutes,
    temperature: real,
    humidity: real,
    windSpeed: real,
    irradiation: real)

  datatype InstallationDetail = InstallationDetail(
    installation: Installation,
    currentPower: real,
    selfConsumption: real,  // `autokonsumpcja`
    energyImported: real,
    energyExported: real,
    powerHistory: seq<PowerData>,
    weatherData: seq<WeatherData>)

  datatype IssueKind = Warning | Error | Info

  datatype ProcessIssue = ProcessIssue(
    id: string,
    installationId: string,
    kind: IssueKind,
    message: string,
    timestamp: Minutes,
    resolved: bool)

  datatype MonthlyReport = MonthlyReport(
    installationId: string,
    month: string,
    year: int,
    totalProduction: real,
    totalConsumption: real,
    totalExport: real,
    totalImport: real,
    efficiency: real)

  /** A binary payload with its media type. */
  datatype Blob = Blob(content: string, mediaType: string)
}
