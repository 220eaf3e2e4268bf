/** The client every page talks to (`ApiClient` in `src/lib/api.ts`). Each
    accessor first asks the backend at `BaseUrl`; when that request fails in
    any way its `try` catches (no answer, a status outside 2xx, a body that
    does not parse), it answers with the mock client's result for the same
    arguments instead.

    The backend is an input: one `fetch` function per payload type, from a
    request to what came back. */
module Api {
  import opened Common
  import opened Types
  import opened Text
  import opened Query
  import MockApi
  import Catalog

  const BaseUrl: string := "http://localhost:8000"

  const InstallationsPath: string := "/api/installations"
  const ClientsPath: string := "/api/clients"
  const PowerDataPath: string := "/api/power-data"
  const EnergyDataPath: string := "/api/energy-data"
  const WeatherDataPath: string := "/api/weather-data"
  const ReportsPath: string := "/api/reports"
  const IssuesPath: string := "/api/issues"

  datatype HttpMethod = Get | Post

  datatype Request = Request(verb: HttpMethod, url: string)

  /** What `fetch` gives back: a response with its status and its body as
      parsed (`None` when the body cannot be read or parsed), or a rejected
      promise (the backend is unreachable). */
  datatype Reply<T> = Reply(status: int, body: Option<T>) | NetworkError

  /** `response.ok`: a 2xx status. */
  predicate IsOk<T>(reply: Reply<T>) {
    reply.Reply? && 200 <= reply.status <= 299
  }

  /** The reply carries a payload the caller can use. */
  predicate Delivers<T>(reply: Reply<T>) {
    IsOk(reply) && reply.body.Some?
  }

  /** The backend: one `fetch` per payload type. */
  datatype Backend = Backend(
    clients: Request -> Reply<seq<Client>>,
    installations: Request -> Reply<seq<Installation>>,
    power: Request -> Reply<seq<PowerData>>,
    energy: Request -> Reply<seq<EnergyData>>,
    weather: Request -> Reply<seq<WeatherData>>,
    detail: Request -> Reply<InstallationDetail>,
    issues: Request -> Reply<seq<ProcessIssue>>,
    report: Request -> Reply<MonthlyReport>,
    pdf: Request -> Reply<Blob>)

  /** No request to the backend gets a 2xx answer. */
  ghost predicate Down(b: Backend) {
    (forall rq :: !IsOk(b.clients(rq))) &&
    (forall rq :: !IsOk(b.installations(rq))) &&
    (forall rq :: !IsOk(b.power(rq))) &&
    (forall rq :: !IsOk(b.energy(rq))) &&
    (forall rq :: !IsOk(b.weather(rq))) &&
    (forall rq :: !IsOk(b.detail(rq))) &&
    (forall rq :: !IsOk(b.issues(rq))) &&
    (forall rq :: !IsOk(b.report(rq))) &&
    (forall rq :: !IsOk(b.pdf(rq)))
  }

  // ---------------------------------------------------------------------
  // Requests

  /** The GET `request(endpoint)` sends: always to `BaseUrl + endpoint`. */
  function GetRequest(endpoint: string): (rq: Request)
    ensures rq.verb == Get
    ensures |rq.url| == |BaseUrl| + |endpoint|
    ensures rq.url[..|BaseUrl|] == BaseUrl && rq.url[|BaseUrl|..] == endpoint
  {
    Request(Get, BaseUrl + endpoint)
  }

  /** `request<T>(endpoint)`: it resolves with the payload exactly when the
      reply is 2xx with a readable body, and rejects otherwise. */
  function Send<T>(fetch: Request -> Reply<T>, endpoint: string): (r: Option<T>)
    ensures r.Some? <==> Delivers(fetch(GetRequest(endpoint)))
    ensures !IsOk(fetch(GetRequest(endpoint))) ==> r.None?
    ensures r.Some? ==> Some(r.value) == fetch(GetRequest(endpoint)).body
  {
    var reply := fetch(GetRequest(endpoint));
    if IsOk(reply) then reply.body else None
  }

  /** `try { return await request(..) } catch { return mock(..) }`. */
  function OrFallback<T>(remote: Option<T>, fallback: T): (r: T)
    ensures remote.Some? ==> r == remote.value
    ensures remote.None? ==> r == fallback
  {
    if remote.Some? then remote.value else fallback
  }

  // ---------------------------------------------------------------------
  // Endpoints

  /** `client_id` is appended, unencoded, only for a truthy id. */
  function InstallationsEndpoint(clientId: Option<string>): string {
    if Truthy(clientId) then InstallationsPath + "?client_id=" + clientId.value
    else InstallationsPath
  }

  /** `installation_id` is appended, unencoded, only for a truthy id. */
  function IssuesEndpoint(installationId: Option<string>): string {
    if Truthy(installationId) then IssuesPath + "?installation_id=" + installationId.value
    else IssuesPath
  }

  /** The optional date range: each bound only when it is truthy. */
  function DateParams(startDate: Option<string>, endDate: Option<string>): Params {
    (if Truthy(startDate) then [("start_date", startDate.value)] else []) +
    (if Truthy(endDate) then [("end_date", endDate.value)] else [])
  }

  /** The query of the power and energy requests. */
  function SeriesParams(installationId: string, granularity: string,
                        startDate: Option<string>, endDate: Option<string>): Params {
    [("installation_id", installationId), ("granularity", granularity)] + DateParams(startDate, endDate)
  }

  /** The query of the weather request. */
  function WeatherParams(installationId: string, startDate: Option<string>, endDate: Option<string>): Params {
    [("installation_id", installationId)] + DateParams(startDate, endDate)
  }

  function PowerEndpoint(installationId: string, granularity: string,
                         startDate: Option<string>, endDate: Option<string>): string {
    PowerDataPath + "?" + Serialize(SeriesParams(installationId, granularity, startDate, endDate))
  }

  function EnergyEndpoint(installationId: string, granularity: string,
                          startDate: Option<string>, endDate: Option<string>): string {
    EnergyDataPath + "?" + Serialize(SeriesParams(installationId, granularity, startDate, endDate))
  }

  function WeatherEndpoint(installationId: string, startDate: Option<string>, endDate: Option<string>): string {
    WeatherDataPath + "?" + Serialize(WeatherParams(installationId, startDate, endDate))
  }

  function DetailEndpoint(installationId: string): string {
    InstallationsPath + "/" + installationId + "/detail"
  }

  /** One `name=value` parameter written straight into a template. */
  function RawParam(name: string, value: string): string {
    name + "=" + value
  }

  /** The report query `installation_id=<id>&month=<m>&year=<y>`, with the
      id interpolated unencoded. */
  function ReportQuery(installationId: string, month: int, year: int): string {
    RawParam("installation_id", installationId) + "&" +
    RawParam("month", IntToString(month)) + "&" +
    RawParam("year", IntToString(year))
  }

  function MonthlyReportEndpoint(installationId: string, month: int, year: int): string {
    ReportsPath + "/monthly?" + ReportQuery(installationId, month, year)
  }

  /** The PDF request: a POST, not through `request`, to the reports path
      with the same query as the monthly report. */
  function PdfRequest(installationId: string, month: int, year: int): (rq: Request)
    ensures rq.verb == Post
    ensures |rq.url| >= |BaseUrl| && rq.url[..|BaseUrl|] == BaseUrl
    ensures rq.url[|BaseUrl|..] == ReportsPath + "/pdf?" + ReportQuery(installationId, month, year)
  {
    Request(Post, BaseUrl + ReportsPath + "/pdf?" + ReportQuery(installationId, month, year))
  }

  // ---------------------------------------------------------------------
  // Accessors

  function GetClients(b: Backend, env: MockApi.Env): (r: seq<Client>)
    ensures Delivers(b.clients(GetRequest(ClientsPath))) ==>
      r == b.clients(GetRequest(ClientsPath)).body.value
    ensures !Delivers(b.clients(GetRequest(ClientsPath))) ==> r == MockApi.GetClients(env)
  {
    OrFallback(Send(b.clients, ClientsPath), MockApi.GetClients(env))
  }

  function GetInstallations(b: Backend, env: MockApi.Env, clientId: Option<string>): (r: seq<Installation>)
    ensures var reply := b.installations(GetRequest(InstallationsEndpoint(clientId)));
      (Delivers(reply) ==> r == reply.body.value) &&
      (!Delivers(reply) ==> r == MockApi.GetInstallations(env, clientId))
    ensures !Delivers(b.installations(GetRequest(InstallationsEndpoint(clientId)))) && Truthy(clientId) ==>
      forall i :: 0 <= i < |r| ==> r[i].clientId == clientId.value
  {
    OrFallback(Send(b.installations, InstallationsEndpoint(clientId)),
               MockApi.GetInstallations(env, clientId))
  }

  function GetPowerData(b: Backend, env: MockApi.Env, installationId: string, granularity: string,
                        startDate: Option<string>, endDate: Option<string>): (r: seq<PowerData>)
    ensures var reply := b.power(GetRequest(PowerEndpoint(installationId, granularity, startDate, endDate)));
      (Delivers(reply) ==> r == reply.body.value) &&
      (!Delivers(reply) ==> r == MockApi.PowerSeries(granularity, env.now, env.rand))
  {
    OrFallback(Send(b.power, PowerEndpoint(installationId, granularity, startDate, endDate)),
               MockApi.PowerSeries(granularity, env.now, env.rand))
  }

  function GetEnergyData(b: Backend, env: MockApi.Env, installationId: string, granularity: string,
                         startDate: Option<string>, endDate: Option<string>): (r: seq<EnergyData>)
    ensures var reply := b.energy(GetRequest(EnergyEndpoint(installationId, granularity, startDate, endDate)));
      (Delivers(reply) ==> r == reply.body.value) &&
      (!Delivers(reply) ==> r == MockApi.EnergySeries(granularity, env.now, env.rand))
  {
    OrFallback(Send(b.energy, EnergyEndpoint(installationId, granularity, startDate, endDate)),
               MockApi.EnergySeries(granularity, env.now, env.rand))
  }

  function GetWeatherData(b: Backend, env: MockApi.Env, installationId: string,
                          startDate: Option<string>, endDate: Option<string>): (r: seq<WeatherData>)
    ensures var reply := b.weather(GetRequest(WeatherEndpoint(installationId, startDate, endDate)));
      (Delivers(reply) ==> r == reply.body.value) &&
      (!Delivers(reply) ==> r == MockApi.WeatherSeries(env.now, env.rand))
  {
    OrFallback(Send(b.weather, WeatherEndpoint(installationId, startDate, endDate)),
               MockApi.WeatherSeries(env.now, env.rand))
  }

  function GetInstallationDetail(b: Backend, env: MockApi.Env, installationId: string)
    : (r: Result<InstallationDetail, MockApi.MockError>)
    ensures var reply := b.detail(GetRequest(DetailEndpoint(installationId)));
      (Delivers(reply) ==> r == Ok(reply.body.value)) &&
      (!Delivers(reply) ==> r == MockApi.DetailOf(env, installationId))
  {
    match Send(b.detail, DetailEndpoint(installationId))
    case Some(d) => Ok(d)
    case None => MockApi.DetailOf(env, installationId)
  }

  function GetProcessIssues(b: Backend, env: MockApi.Env, installationId: Option<string>)
    : (r: seq<ProcessIssue>)
    ensures var reply := b.issues(GetRequest(IssuesEndpoint(installationId)));
      (Delivers(reply) ==> r == reply.body.value) &&
      (!Delivers(reply) ==> r == MockApi.GetProcessIssues(env, installationId))
    ensures !Delivers(b.issues(GetRequest(IssuesEndpoint(installationId)))) && Truthy(installationId) ==>
      forall i :: 0 <= i < |r| ==> r[i].installationId == installationId.value
  {
    OrFallback(Send(b.issues, IssuesEndpoint(installationId)),
               MockApi.GetProcessIssues(env, installationId))
  }

  function GetMonthlyReport(b: Backend, env: MockApi.Env, installationId: string, month: int, year: int)
    : (r: Result<MonthlyReport, MockApi.MockError>)
    ensures var reply := b.report(GetRequest(MonthlyReportEndpoint(installationId, month, year)));
      (Delivers(reply) ==> r == Ok(reply.body.value)) &&
      (!Delivers(reply) ==> r == MockApi.GetMonthlyReport(env, installationId, month, year))
  {
    match Send(b.report, MonthlyReportEndpoint(installationId, month, year))
    case Some(report) => Ok(report)
    case None => MockApi.GetMonthlyReport(env, installationId, month, year)
  }

  /** Why `generatePDFReport` can still reject: the body is read outside the
      `try` (`return response.blob()` is not awaited inside it). */
  datatype PdfError = BodyUnreadable

  /** `generatePDFReport`: a non-2xx status or no answer gives the mock
      blob; a 2xx answer gives its body, and a body that cannot be read
      rejects the call. */
  function GeneratePdfReport(b: Backend, installationId: string, month: int, year: int)
    : (r: Result<Blob, PdfError>)
    ensures var reply := b.pdf(PdfRequest(installationId, month, year));
      (r.Err? <==> IsOk(reply) && reply.body.None?) &&
      (Delivers(reply) ==> r == Ok(reply.body.value)) &&
      (!IsOk(reply) ==> r.Ok? && r.value.mediaType == "application/pdf")
  {
    var reply := b.pdf(PdfRequest(installationId, month, year));
    if !IsOk(reply) then Ok(MockApi.GeneratePdfReport(installationId, month, year))
    else if reply.body.None? then Err(BodyUnreadable)
    else Ok(reply.body.value)
  }

  // ---------------------------------------------------------------------
  // Properties

  /** With the backend down, every accessor answers exactly what the mock
      client answers for the same arguments, and the PDF is the mock PDF. */
  lemma DownMeansMock(b: Backend, env: MockApi.Env)
    requires Down(b)
    ensures GetClients(b, env) == MockApi.GetClients(env)
    ensures forall c :: GetInstallations(b, env, c) == MockApi.GetInstallations(env, c)
    ensures forall id, g, s, e :: GetPowerData(b, env, id, g, s, e) == MockApi.PowerSeries(g, env.now, env.rand)
    ensures forall id, g, s, e :: GetEnergyData(b, env, id, g, s, e) == MockApi.EnergySeries(g, env.now, env.rand)
    ensures forall id, s, e :: GetWeatherData(b, env, id, s, e) == MockApi.WeatherSeries(env.now, env.rand)
    ensures forall id :: GetInstallationDetail(b, env, id) == MockApi.DetailOf(env, id)
    ensures forall i :: GetProcessIssues(b, env, i) == MockApi.GetProcessIssues(env, i)
    ensures forall id, m, y :: GetMonthlyReport(b, env, id, m, y) == MockApi.GetMonthlyReport(env, id, m, y)
    ensures forall id, m, y :: GeneratePdfReport(b, id, m, y) == Ok(MockApi.GeneratePdfReport(id, m, y))
  {
  }

  /** With the backend down, the detail page fails exactly for ids outside
      the catalog, and otherwise shows that catalog entry. */
  lemma DownDetail(b: Backend, env: MockApi.Env, installationId: string)
    requires Down(b)
    ensures GetInstallationDetail(b, env, installationId).Err? <==>
      forall i :: 0 <= i < 3 ==> Catalog.Installations(env.loadedAt)[i].id != installationId
    ensures GetInstallationDetail(b, env, installationId).Ok? ==>
      GetInstallationDetail(b, env, installationId).value.installation.id == installationId
  {
    MockApi.DetailContract(env, installationId);
  }

  /** `getInstallations` asks `/api/installations?client_id=<c>` exactly
      when `c` is truthy, and `/api/installations` otherwise; likewise
      `getProcessIssues` with `/api/issues?installation_id=<i>`. */
  lemma OptionalIdEndpoints(c: Option<string>)
    ensures Truthy(c) <==> InstallationsEndpoint(c) != InstallationsPath
    ensures Truthy(c) ==> InstallationsEndpoint(c)[|InstallationsPath|..] == "?client_id=" + c.value
    ensures Truthy(c) <==> IssuesEndpoint(c) != IssuesPath
    ensures Truthy(c) ==> IssuesEndpoint(c)[|IssuesPath|..] == "?installation_id=" + c.value
  {
    if Truthy(c) {
      assert |InstallationsEndpoint(c)| > |InstallationsPath|;
      assert |IssuesEndpoint(c)| > |IssuesPath|;
    }
  }

  /** A power or energy query carries `installation_id` and `granularity`
      first, then `start_date` and `end_date` only when they are truthy;
      reading it back gives exactly those pairs. */
  lemma SeriesQueryCarries(installationId: string, granularity: string,
                           startDate: Option<string>, endDate: Option<string>)
    ensures var q := Parse(Serialize(SeriesParams(installationId, granularity, startDate, endDate)));
      q == AsBytes(SeriesParams(installationId, granularity, startDate, endDate)) &&
      |q| == 2 + (if Truthy(startDate) then 1 else 0) + (if Truthy(endDate) then 1 else 0) &&
      q[0] == (Utf8String("installation_id"), Utf8String(installationId)) &&
      q[1] == (Utf8String("granularity"), Utf8String(granularity))
  {
    var ps := SeriesParams(installationId, granularity, startDate, endDate);
    ParseSerialize(ps);
    var q := AsBytes(ps);
    assert q[0] == (Utf8String(ps[0].0), Utf8String(ps[0].1));
    assert q[1..] == AsBytes(ps[1..]);
    assert q[1] == (Utf8String(ps[1].0), Utf8String(ps[1].1));
  }

  predicate IsDateName(name: string) {
    name == "start_date" || name == "end_date"
  }

  /** The date parameters are named `start_date` and `end_date` only. */
  lemma DateParamNames(startDate: Option<string>, endDate: Option<string>)
    ensures forall i :: 0 <= i < |DateParams(startDate, endDate)| ==>
      IsDateName(DateParams(startDate, endDate)[i].0)
  {
  }

  /** A weather query carries `installation_id` first and otherwise only
      the date bounds, so never `granularity`. */
  lemma WeatherQueryNames(installationId: string, startDate: Option<string>, endDate: Option<string>)
    ensures var ps := WeatherParams(installationId, startDate, endDate);
      ps[0] == ("installation_id", installationId) &&
      forall i :: 1 <= i < |ps| ==> IsDateName(ps[i].0)
  {
    var ps := WeatherParams(installationId, startDate, endDate);
    DateParamNames(startDate, endDate);
    assert forall i :: 1 <= i < |ps| ==> ps[i] == DateParams(startDate, endDate)[i - 1];
  }

  /** Reading a weather query back gives exactly its pairs. */
  lemma WeatherQueryCarries(installationId: string, startDate: Option<string>, endDate: Option<string>)
    ensures var q := Parse(Serialize(WeatherParams(installationId, startDate, endDate)));
      q == AsBytes(WeatherParams(installationId, startDate, endDate)) &&
      |q| == 1 + (if Truthy(startDate) then 1 else 0) + (if Truthy(endDate) then 1 else 0) &&
      q[0] == (Utf8String("installation_id"), Utf8String(installationId))
  {
    var ps := WeatherParams(installationId, startDate, endDate);
    ParseSerialize(ps);
    assert AsBytes(ps)[0] == (Utf8String(ps[0].0), Utf8String(ps[0].1));
  }

  /** A parameter written into a template is free of `&` exactly when its
      value is, and carries as many. */
  lemma RawParamSeparators(name: string, value: string)
    requires '&' !in name
    ensures multiset(RawParam(name, value))['&'] == multiset(value)['&']
    ensures ('&' in value) <==> ('&' in RawParam(name, value))
  {
    assert RawParam(name, value) == name + "=" + value;
    assert '&' !in multiset(name);
  }

  /** Three parameters joined by `&` split back into those parameters
      when no name or value holds a `&`. */
  lemma JoinedPieces(n1: string, v1: string, n2: string, v2: string, n3: string, v3: string)
    requires '&' !in n1 && '&' !in n2 && '&' !in n3
    requires '&' !in v1 && '&' !in v2 && '&' !in v3
    ensures Split(RawParam(n1, v1) + "&" + RawParam(n2, v2) + "&" + RawParam(n3, v3), '&') ==
      [RawParam(n1, v1), RawParam(n2, v2), RawParam(n3, v3)]
  {
    var a, m, y := RawParam(n1, v1), RawParam(n2, v2), RawParam(n3, v3);
    RawParamSeparators(n1, v1);
    RawParamSeparators(n2, v2);
    RawParamSeparators(n3, v3);
    assert a + "&" + m + "&" + y == a + "&" + (m + "&" + y);
    SplitPlain(a, m + "&" + y);
    SplitPlain(m, y);
    SplitWhole(y);
  }

  /** Three parameters joined by `&` split into one piece more than the
      separators their values hold, plus two. */
  lemma JoinedPieceCount(n1: string, v1: string, n2: string, v2: string, n3: string, v3: string)
    requires '&' !in n1 && '&' !in n2 && '&' !in n3
    ensures |Split(RawParam(n1, v1) + "&" + RawParam(n2, v2) + "&" + RawParam(n3, v3), '&')| ==
      3 + multiset(v1)['&'] + multiset(v2)['&'] + multiset(v3)['&']
  {
    var a, m, y := RawParam(n1, v1), RawParam(n2, v2), RawParam(n3, v3);
    RawParamSeparators(n1, v1);
    RawParamSeparators(n2, v2);
    RawParamSeparators(n3, v3);
    SplitCount(a + "&" + m + "&" + y, '&');
    assert multiset("&")['&'] == 1;
  }

  lemma ReportNamesPlain()
    ensures '&' !in "installation_id" && '&' !in "month" && '&' !in "year"
  {
  }

  /** For an id without `&`, the report query splits into exactly its
      three parameters. */
  lemma ReportQueryPieces(installationId: string, month: int, year: int)
    requires '&' !in installationId
    ensures Split(ReportQuery(installationId, month, year), '&') ==
      [RawParam("installation_id", installationId),
       RawParam("month", IntToString(month)),
       RawParam("year", IntToString(year))]
  {
    ReportNamesPlain();
    JoinedPieces("installation_id", installationId, "month", IntToString(month), "year", IntToString(year));
  }

  /** The PDF request carries the report query after `/pdf?`: for an id
      without `&`, exactly `installation_id`, `month` and `year`. */
  lemma PdfQueryPieces(installationId: string, month: int, year: int)
    requires '&' !in installationId
    ensures var rq := PdfRequest(installationId, month, year);
      |rq.url| >= |BaseUrl| + |ReportsPath| + 5 &&
      Split(rq.url[|BaseUrl| + |ReportsPath| + 5..], '&') ==
        [RawParam("installation_id", installationId),
         RawParam("month", IntToString(month)),
         RawParam("year", IntToString(year))]
  {
    var rq := PdfRequest(installationId, month, year);
    var tail := rq.url[|BaseUrl|..];
    assert tail == ReportsPath + "/pdf?" + ReportQuery(installationId, month, year);
    assert rq.url[|BaseUrl| + |ReportsPath| + 5..] == tail[|ReportsPath| + 5..];
    assert tail[|ReportsPath| + 5..] == ReportQuery(installationId, month, year);
    ReportQueryPieces(installationId, month, year);
  }

  /** Because the id is interpolated unencoded, every `&` in it adds a
      parameter to the report query. */
  lemma ReportQueryUnencodedId(installationId: string, month: int, year: int)
    ensures |Split(ReportQuery(installationId, month, year), '&')| == 3 + multiset(installationId)['&']
  {
    ReportNamesPlain();
    JoinedPieceCount("installation_id", installationId, "month", IntToString(month), "year", IntToString(year));
    assert '&' !in IntToString(month) && '&' !in IntToString(year);
  }
}
