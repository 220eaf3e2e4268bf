# Solar monitoring dashboard: data access, session and derived figures

This project models the logic behind a solar-installation monitoring
dashboard, a Next.js front end for installers and their clients, and
proves properties of that model. The dashboard shows installations, power
and energy series, weather, process issues and monthly reports.

- **API client (`Api`).** Every accessor asks the backend first. When the
  request fails in any way, it answers with the mock client's result for
  the same arguments. The endpoint strings and the query strings it builds
  are modelled character by character.
- **URL queries (`Query`).** `URLSearchParams` is modelled as form
  encoding together with its parser, so that what a query carries can be
  stated.
- **Mock client (`MockApi`, `Catalog`, `Sampling`).** It holds a fixed
  catalog of three installations, two clients and three issues. Its three
  generators (power every 5 minutes, energy every hour, weather every
  hour) are loops that push and then reverse. Each is proved equal to a
  specification function, and the daylight, range and grid-balance rules
  are proved about those functions.
- **Route guard (`Middleware`).** It decides whether a request proceeds
  or is redirected to the login page.
- **Session (`Auth`, `LoginForm`, `Browser`).** The `useAuth` hook and the
  login form work over a three-key `localStorage`, a cookie jar and the
  current location.
- **Page figures (`Metrics`, `Comparison`, `IssuesPanel`, `ReportPanel`,
  `Dashboard`, `InstallationsPage`).** These are the figures and lookups
  the pages compute from the fetched lists. The monthly-report panel is a
  class whose methods update its state step by step.

The model's inputs:

- **The backend.** A record of functions, one per payload type, from a
  request to the reply that came back: a status with a parsed body, or a
  network error. `Api.Down(b)` says no request gets a 2xx reply. Under it
  every accessor is proved to answer exactly what the mock answers.
- **The clock.** Time is whole minutes of local wall-clock time. The hour
  of day is `(t / 60) % 24`.
- **Randomness.** `Math.random()` is an oracle `nat -> [0, 1)`. Each draw
  reads a documented slot of it. Only the ranges its values are scaled
  into are modelled, plus the half-up rounding to tenths.

All three generators test `hour <= 18`, so hour 18 counts as daylight.

## Model

| member | source | states |
|---|---|---|
| Api.GetRequest | src/lib/api.ts:33-35 | every GET goes to the base URL followed by the endpoint, unchanged |
| Api.Send | src/lib/api.ts:33-53 | `request` resolves exactly when the reply is 2xx with a readable body, with that body; any non-2xx status or network error rejects |
| Api.OrFallback | src/lib/api.ts:56-62 | a remote payload wins; a failed request gives the fallback |
| Api.PdfRequest | src/lib/api.ts:178-182 | the PDF request is a POST to the base URL followed by `/api/reports/pdf?` and the report query `installation_id=<id>&month=<m>&year=<y>`, the id unencoded |
| Api.GetClients | src/lib/api.ts:56-62 | the remote client list when it is delivered, the mock list otherwise |
| Api.GetInstallations | src/lib/api.ts:64-73 | the remote list when it is delivered; otherwise the mock's answer for the same client id, which then holds only that client's installations |
| Api.GetPowerData | src/lib/api.ts:76-94 | the remote series when it is delivered, otherwise the mock power series for the same granularity |
| Api.GetEnergyData | src/lib/api.ts:96-114 | the remote records when they are delivered, otherwise the mock energy series for the same granularity |
| Api.GetWeatherData | src/lib/api.ts:116-144 | the remote series when it is delivered, otherwise the mock 24-hour weather series |
| Api.GetInstallationDetail | src/lib/api.ts:147-153 | the remote detail when it is delivered, otherwise the mock detail or its "Installation not found" error |
| Api.GetProcessIssues | src/lib/api.ts:156-165 | the remote issues when they are delivered; otherwise the mock's answer for the same id, which then holds only that installation's issues |
| Api.GetMonthlyReport | src/lib/api.ts:168-176 | the remote report when it is delivered, otherwise the mock report or its error |
| Api.GeneratePdfReport | src/lib/api.ts:178-198 | it rejects exactly when a 2xx reply has an unreadable body; a delivered body is returned as is; a non-2xx reply or no answer gives the mock `application/pdf` blob |
| Api.DownMeansMock | src/lib/api.ts:56-198 | with the backend down, all nine accessors answer exactly what the mock answers for the same arguments |
| Api.DownDetail | src/lib/api.ts:147-153 | with the backend down, the detail fails exactly for ids outside the catalog and otherwise carries the requested id |
| Api.OptionalIdEndpoints | src/lib/api.ts:64-68 | `?client_id=<c>` and `?installation_id=<i>` are appended, unencoded, exactly when the id is truthy |
| Api.SeriesQueryCarries | src/lib/api.ts:83-88 | a power or energy query parses back to exactly its pairs: `installation_id` and `granularity` first, then one more pair for each truthy date bound |
| Api.DateParamNames | src/lib/api.ts:86-87 | the optional date pairs are named only `start_date` and `end_date` |
| Api.WeatherQueryNames | src/lib/api.ts:128-132 | a weather query starts with `installation_id` and otherwise carries only date bounds, never `granularity` |
| Api.WeatherQueryCarries | src/lib/api.ts:128-132 | a weather query parses back to exactly its pairs, one more for each truthy date bound |
| Api.RawParamSeparators | src/lib/api.ts:171 | an interpolated `name=value` holds as many `&` as its value |
| Api.JoinedPieces | src/lib/api.ts:171 | three `&`-joined parameters split back into exactly those parameters when none holds a `&` |
| Api.JoinedPieceCount | src/lib/api.ts:171 | three `&`-joined parameters split into three pieces plus one per `&` inside the values |
| Api.ReportQueryPieces | src/lib/api.ts:171 | for an id without `&`, the report query splits into `installation_id`, `month` and `year` |
| Api.ReportQueryUnencodedId | src/lib/api.ts:171 | since the id is not encoded, every `&` in it adds a parameter to the report query |
| Api.PdfQueryPieces | src/lib/api.ts:181 | for an id without `&`, the query of the PDF request splits into exactly `installation_id`, `month` and `year` |
| Api.InstallationsEndpoint | src/lib/api.ts:66-68 | the installations endpoint, with `?client_id=<c>` only for a truthy id; its laws are proved by Api.OptionalIdEndpoints |
| Api.IssuesEndpoint | src/lib/api.ts:158-160 | the issues endpoint, with `?installation_id=<i>` only for a truthy id; its laws are proved by Api.OptionalIdEndpoints |
| Api.PowerEndpoint | src/lib/api.ts:83-90 | the power path, `?`, and the serialized series query; what the query carries is proved by Api.SeriesQueryCarries |
| Api.EnergyEndpoint | src/lib/api.ts:103-110 | the energy path, `?`, and the serialized series query; what the query carries is proved by Api.SeriesQueryCarries |
| Api.WeatherEndpoint | src/lib/api.ts:128-140 | the weather path, `?`, and the serialized weather query; what it carries is proved by Api.WeatherQueryNames and Api.WeatherQueryCarries |
| Api.DetailEndpoint | src/lib/api.ts:149 | `/api/installations/<id>/detail`, with the id unencoded |
| Api.MonthlyReportEndpoint | src/lib/api.ts:170-171 | `/api/reports/monthly?` followed by the report query |
| Api.ReportQuery | src/lib/api.ts:171 | `installation_id=<id>&month=<m>&year=<y>` with the id unencoded; how it splits is proved by Api.ReportQueryPieces and Api.ReportQueryUnencodedId |
| Query.DecodeEncode | src/lib/api.ts:83-88 | decoding a form-encoded string gives the UTF-8 bytes of the original |
| Query.EncodedIsPlain | src/lib/api.ts:83-88 | a form-encoded string never contains `&` or `=` |
| Query.SplitSerialize | src/lib/api.ts:83-88 | a serialized query splits on `&` into exactly one encoded `name=value` piece per pair |
| Query.ParseSerialize | src/lib/api.ts:83-88 | parsing a serialized `URLSearchParams` gives back exactly its pairs, as bytes |
| Query.PercentBytes | src/lib/api.ts:83-88 | percent-encoding writes three characters per byte |
| Query.Split | src/lib/api.ts:171 | splitting on a separator gives at least one piece |
| Query.SplitCount | src/lib/api.ts:171 | a string splits into one more piece than it holds separators |
| Query.FormEncode | src/lib/api.ts:83-88 | the form encoding of one name or value; Query.DecodeEncode proves it decodes back to the UTF-8 bytes, Query.EncodedIsPlain that it holds no `&` or `=` |
| Query.Serialize | src/lib/api.ts:83-88 | `URLSearchParams.toString()`: encoded `name=value` pairs joined by `&`; Query.ParseSerialize proves it parses back to its pairs |
| Query.FormDecode | src/lib/api.ts:83-88 | the decoding of one piece, `+` as space and `%XX` as a byte; Query.DecodeEncode proves it inverts the encoding |
| Query.Parse | src/lib/api.ts:83-88 | the `URLSearchParams` parser up to bytes; Query.ParseSerialize proves it inverts the serializer |
| MockApi.PositivePart | src/lib/mockApi.ts:130-131 | `Math.max(0, x)` is non-negative, at least `x`, and either 0 or `x` |
| MockApi.GetClients | src/lib/mockApi.ts:147-150 | the catalog clients; Catalog.ClientViewsAgree proves each client's installations are the catalog filtered by its id |
| MockApi.PowerSeries | src/lib/mockApi.ts:88-115 | the series `generatePowerData` returns, oldest first; its shape and daylight laws are proved by MockApi.PowerSeriesShape and MockApi.PowerSeriesDaylight |
| MockApi.EnergySeries | src/lib/mockApi.ts:118-143 | the records `generateEnergyData` returns, oldest hour first; its laws are proved by MockApi.EnergySeriesShape, MockApi.EnergyRecordsRounded and MockApi.GridBalance |
| MockApi.WeatherSeries | src/lib/mockApi.ts:192-208 | the series `getWeatherData` returns, oldest first; its laws are proved by MockApi.WeatherSeriesContract |
| MockApi.DetailOf | src/lib/mockApi.ts:211-228 | the detail or the "Installation not found" error; its laws are proved by MockApi.DetailContract |
| MockApi.GetMonthlyReport | src/lib/mockApi.ts:238-256 | the report or the "Installation not found" error; its laws are proved by MockApi.MonthlyReportContract |
| MockApi.GetInstallations | src/lib/mockApi.ts:152-158 | a truthy client id gives exactly the catalog installations of that client, in catalog order; otherwise the whole catalog |
| MockApi.GetProcessIssues | src/lib/mockApi.ts:230-236 | a truthy id gives exactly that installation's issues, in order; otherwise every issue, resolved ones included |
| MockApi.GeneratePowerData | src/lib/mockApi.ts:88-115 | the loop that pushes one point per 5-minute step and then reverses produces exactly the power series |
| MockApi.PowerSeriesShape | src/lib/mockApi.ts:92-114 | `5min` gives 288 points, 5 minutes apart in ascending order, the last at now; any other granularity gives none |
| MockApi.PowerPointDaylight | src/lib/mockApi.ts:96-110 | at night power and irradiation are 0; by day power lies in [10, 50] and irradiation in [200, 800] after rounding |
| MockApi.PowerSeriesDaylight | src/lib/mockApi.ts:94-114 | the daylight rule holds at every point of a generated power series |
| MockApi.GridBalance | src/lib/mockApi.ts:128-131 | production plus import equals consumption plus export; at most one of export and import is positive; production lies in [0, 50) and consumption in [5, 30); nothing is produced or exported at night |
| MockApi.GenerateEnergyData | src/lib/mockApi.ts:118-143 | the loop that pushes four records per hour and then reverses produces exactly the energy series |
| MockApi.EnergySeriesAt | src/lib/mockApi.ts:133-142 | record `4j + m` of the hourly series is record `3 - m` of the group pushed for hour `167 - j` |
| MockApi.EnergySeriesShape | src/lib/mockApi.ts:122-142 | `hourly` gives 168 groups of four records in ascending hourly order, the last group at now; each group reads import, export, consumption, production for one timestamp; any other granularity gives none |
| MockApi.EnergyRecordsRounded | src/lib/mockApi.ts:126-137 | after rounding every record is non-negative, at most one of export and import is positive, production and export are 0 at night, production is at most 50 and consumption lies in [5, 30] |
| MockApi.EnergyRecordsAt | src/lib/mockApi.ts:133-138 | each hour pushes four records |
| MockApi.GetWeatherData | src/lib/mockApi.ts:180-209 | the loop that pushes 24 hourly points and then reverses produces exactly the weather series |
| MockApi.WeatherSeriesContract | src/lib/mockApi.ts:195-208 | 24 points one hour apart, the last at now; irradiation is 0 at night and in [100, 600] by day; temperature, humidity and wind speed stay in [15, 30], [40, 80] and [2, 15] |
| MockApi.GetPowerData | src/lib/mockApi.ts:160-168 | the answer is the power series of the granularity; the installation and the date range are ignored |
| MockApi.GetEnergyData | src/lib/mockApi.ts:170-178 | the answer is the energy series of the granularity; the installation and the date range are ignored |
| MockApi.GetInstallationDetail | src/lib/mockApi.ts:211-228 | the method builds exactly the specified detail or the "Installation not found" error |
| MockApi.DetailContract | src/lib/mockApi.ts:211-228 | the detail fails exactly for ids outside the catalog; otherwise it carries that catalog entry, a 288-point power history ending now, no weather data and a current power in [10, 50] |
| MockApi.MonthlyReportContract | src/lib/mockApi.ts:238-256 | the report fails exactly for ids outside the catalog; otherwise it echoes the id and the year, gives the month as the two digits that denote it, has non-negative totals and an efficiency in [75, 95] |
| MockApi.JuneReportScenario | src/lib/mockApi.ts:246-249 | the June 2024 report of `inst-001` exists with month `"06"` and year 2024 |
| MockApi.GeneratePdfReport | src/lib/mockApi.ts:258-261 | the mock blob has media type `application/pdf` |
| Catalog.KeysResolve | src/lib/mockApi.ts:12-85 | installation and client ids are unique; every installation's client and every issue's installation exist |
| Catalog.ClientViewsAgree | src/lib/mockApi.ts:12-85 | each client's installation list is the catalog filtered by its id: two installations for `client-001`, one for `client-002` |
| Sampling.Scaled | src/lib/mockApi.ts:102-103 | `Math.random() * span + offset` lies in [offset, offset + span) |
| Sampling.HourOf | src/lib/mockApi.ts:96 | an hour of day lies in 0..23 |
| Sampling.RoundWithin | src/lib/mockApi.ts:108-109 | rounding to tenths keeps a value within any range whose ends are whole tenths |
| Sampling.Round10 | src/lib/mockApi.ts:108-109 | `Math.round(x * 10) / 10`, half-up to tenths; Sampling.RoundWithin bounds it |
| Sampling.IsDaylight | src/lib/mockApi.ts:101 | hours 6 to 18, both included |
| Text.NatToStringRoundTrip | src/lib/mockApi.ts:248 | a number's decimal digits read back to that number, without a leading zero |
| Text.PadStart | src/lib/mockApi.ts:248 | `padStart` yields the target length, keeps the string as its suffix and fills the rest |
| Text.TwoDigitDenotes | src/lib/mockApi.ts:248 | a month in 0..99 pads to two digits that denote it |
| Text.IndexFrom | src/middleware.ts:15 | the search finds the first occurrence at or after its start, or reports there is none |
| Middleware.TokenOf | src/middleware.ts:14-15 | a non-empty cookie wins; otherwise the header with its first `Bearer ` removed; nothing when neither is present |
| Middleware.Decide | src/middleware.ts:9-24 | a request proceeds exactly when its path is `/login` or its token is non-empty; otherwise it is redirected to `/login` on the same origin |
| Middleware.LoginAlwaysProceeds | src/middleware.ts:9-11 | `/login` proceeds whatever the cookie and header |
| Middleware.StripBearer | src/middleware.ts:15 | removing the first `Bearer ` from `Bearer <t>` leaves `t` |
| Middleware.BearerHeader | src/middleware.ts:15-21 | with no cookie, a `Bearer <t>` header proceeds exactly when `t` is non-empty, so `Bearer ` alone is redirected |
| Middleware.NoTokenRedirects | src/middleware.ts:18-21 | no cookie and no header means a redirect to the same origin's `/login` |
| Middleware.TokenNotValidated | src/middleware.ts:24 | any two non-empty cookie tokens get the same decision: proceed |
| Middleware.HeaderWithoutBearer | src/middleware.ts:15 | a header without `Bearer ` is used whole as the token |
| Auth.StoredUser | src/hooks/useAuth.ts:20-26 | a store describes a user exactly when all three keys are present and non-empty, and that user is its email and role |
| Auth.LoginStore | src/hooks/useAuth.ts:36-38 | the store after `login`; Auth.LoginThenCheck and Auth.LoginKeepsOtherKeys prove what it holds |
| Auth.LogoutStore | src/hooks/useAuth.ts:45-47 | the store after `logout`; Auth.LogoutThenCheck proves it describes no user and keeps other keys |
| Auth.LoginThenCheck | src/hooks/useAuth.ts:34-41 | reading the store back after a login gives the user who logged in, exactly when email and role are non-empty |
| Auth.LogoutThenCheck | src/hooks/useAuth.ts:43-47 | after a logout the store describes no user, and every other key is kept |
| Auth.LoginKeepsOtherKeys | src/hooks/useAuth.ts:36-38 | login adds exactly the three session keys and keeps every other entry |
| Auth.AuthHook.constructor | src/hooks/useAuth.ts:12-13 | no user, loading |
| Auth.AuthHook.CheckAuth | src/hooks/useAuth.ts:18-29 | in the browser, a store that describes a user sets that user; otherwise the user stays as it was; loading is over either way |
| Auth.AuthHook.Login | src/hooks/useAuth.ts:34-41 | in the browser the store becomes the login store and the user the one who logged in; cookies and location are untouched |
| Auth.AuthHook.Logout | src/hooks/useAuth.ts:43-55 | in the browser the three keys and the cookie are removed, the user is cleared and the location is `/login`; on the server nothing changes |
| Auth.AuthHook.IsAuthenticated | src/hooks/useAuth.ts:57 | authenticated exactly when there is a user |
| Auth.AuthHook.IsAdmin | src/hooks/useAuth.ts:58 | admin exactly when the user's role is `admin` |
| Auth.AuthHook.AdminIsAuthenticated | src/hooks/useAuth.ts:57-58 | every admin is authenticated |
| Browser.Window.GetItem | src/hooks/useAuth.ts:20-22 | `getItem` gives the stored value, `null` for a missing key |
| Browser.Window.SetItem | src/hooks/useAuth.ts:36-38 | `setItem` updates one key and nothing else |
| Browser.Window.RemoveItem | src/hooks/useAuth.ts:45-47 | `removeItem` drops one key and nothing else |
| Browser.Window.SetCookie | src/components/LoginForm.tsx:55 | a cookie write sets that cookie, replacing any of the same name, and changes nothing else |
| Browser.Window.ExpireCookie | src/hooks/useAuth.ts:50 | an expired cookie write deletes that cookie and nothing else |
| Browser.Window.Navigate | src/hooks/useAuth.ts:53 | navigation changes the location only |
| LoginForm.Authenticate | src/components/LoginForm.tsx:48-72 | the admin pair signs in as `admin`, the user pair as `user`, and any other pair is refused |
| LoginForm.MixedPairsRefused | src/components/LoginForm.tsx:48-72 | one account's email with the other account's password is refused |
| LoginForm.Form.constructor | src/components/LoginForm.tsx:19-25 | both fields empty, not loading, no error |
| LoginForm.Form.HandleInputChange | src/components/LoginForm.tsx:28-36 | the named field takes the new value, every other field is kept and the error is cleared |
| LoginForm.Form.HandleSubmit | src/components/LoginForm.tsx:38-77 | a known pair writes the session keys with the granted role, sets the day-long cookie and goes home with no error; any other pair writes nothing and shows the error; loading is over either way |
| LoginForm.LoginSessionHolds | src/components/LoginForm.tsx:48-69 | after a successful login the stored session reads back as that user, and the route guard lets the cookie through on any page |
| Metrics.SelectionArg | src/components/ProcessIssues.tsx:37-39 | the `'all'` selection means no filter; any other selection is passed on |
| Metrics.ActiveInstallations | src/app/page.tsx:43 | exactly the installations with status `active`, in order |
| Metrics.AttentionInstallations | src/app/installations/page.tsx:149 | exactly the installations with status `error` or `maintenance`, in order |
| Metrics.TotalInstalledPower | src/app/page.tsx:44 | the sum of installed power; the laws are proved by TotalInstalledPowerLaws |
| Metrics.TotalInstalledPowerLaws | src/app/page.tsx:44 | the total adds up over a split of the list, and lies in [0, n * cap] when every rating is in [0, cap] |
| Metrics.StatusCounts | src/app/installations/page.tsx:107-149 | the active and needs-attention lists never share an installation; together they are at most the total, and equal it exactly when none is inactive |
| Metrics.ActiveIssues | src/components/ProcessIssues.tsx:82 | exactly the unresolved issues, in order |
| Metrics.ResolvedIssues | src/components/ProcessIssues.tsx:83 | exactly the resolved issues, in order |
| Metrics.CriticalIssues | src/app/page.tsx:46 | the open issues of type `error`; Metrics.CriticalAreOpenErrors proves they are exactly the open errors, in order |
| Metrics.IssuePartition | src/components/ProcessIssues.tsx:82-83 | open and resolved issues partition the list: their lengths and multisets add up to the list's, and each issue is in exactly one |
| Metrics.CriticalAreOpenErrors | src/app/page.tsx:45-46 | the critical issues are exactly the open errors, in order, and a subsequence of the open issues |
| Metrics.NameOr | src/components/MonthlyReport.tsx:101 | `?.name \|\| fallback`: an absent or empty name gives the fallback, anything else the name |
| Metrics.FindInstallation | src/components/MonthlyReport.tsx:100 | `find` gives an installation with that id, and nothing exactly when none has it |
| Metrics.FindInstallationUnique | src/components/MonthlyReport.tsx:100 | with unique ids, `find` returns the installation whose id it was given |
| Metrics.InstallationName | src/components/MonthlyReport.tsx:99-102 | a name other than `Unknown Installation` belongs to an installation with that id; an unknown id gives `Unknown Installation` |
| Metrics.ClientName | src/app/installations/page.tsx:40-43 | a name other than `Unknown Client` belongs to a client with that id; an unknown id gives `Unknown Client` |
| Metrics.InstallationNameFound | src/components/MonthlyReport.tsx:99-102 | with unique ids, the lookup gives an installation's own non-empty name |
| Metrics.ClientNameFound | src/app/installations/page.tsx:40-43 | with unique ids, the lookup gives a client's own non-empty name |
| Comparison.Granularity | src/components/InstallationComparison.tsx:36 | `daily` asks for `hourly`; `monthly` and `yearly` are passed through |
| Comparison.ProductionTotal | src/components/InstallationComparison.tsx:41-43 | the sum of `energy` over production records; its laws are proved by the three ProductionTotal lemmas below |
| Comparison.Entry | src/components/InstallationComparison.tsx:40-56 | one comparison entry; Comparison.Entries states its fields |
| Comparison.TotalEnergy | src/components/InstallationComparison.tsx:69 | the sum of the entries' totals; Comparison.TotalsBounds bounds it |
| Comparison.AverageYield | src/components/InstallationComparison.tsx:70-72 | the mean yield, 0 for no entries; Comparison.TotalsBounds proves it lies between the smallest and largest yields |
| Comparison.ProductionTotalCountsProductionOnly | src/components/InstallationComparison.tsx:41-43 | the production total is the sum over all records with the other types counted as 0 |
| Comparison.ProductionTotalAppend | src/components/InstallationComparison.tsx:41-43 | the production total adds up over a split of the records |
| Comparison.ProductionTotalBounds | src/components/InstallationComparison.tsx:41-43 | the total lies in [0, n * cap] when every production record lies in [0, cap] |
| Comparison.Yield | src/components/InstallationComparison.tsx:45-47 | for a positive rating, yield times rating is the total; otherwise the yield is 0; it is non-negative for a non-negative total |
| Comparison.Entries | src/components/InstallationComparison.tsx:33-59 | one entry per installation in the same order, with its id, name and rating, the selected period, the production-only total of its own records, and as yield that total divided by its rating (0 for a rating of 0 or less) |
| Comparison.LoadData | src/components/InstallationComparison.tsx:26-66 | the installations of the client (all when there is none), and one entry per installation carrying its id |
| Comparison.TotalsBounds | src/components/InstallationComparison.tsx:69-72 | the average yield is 0 for no entries and otherwise lies between the smallest and largest yields; the energy total lies between n times the smallest and n times the largest entry total |
| Comparison.MeanWithin | src/components/InstallationComparison.tsx:70-72 | a mean of values in [lo, hi] lies in [lo, hi] |
| Comparison.MockEnergy | src/components/InstallationComparison.tsx:36-40 | with the backend down, an installation's records are the mock series of the period's granularity |
| Comparison.MockEntry | src/components/InstallationComparison.tsx:36-47 | with the backend down, a `monthly` or `yearly` entry has zero energy and zero yield, and a `daily` entry has a non-negative total |
| Comparison.MockSeriesProductionBounded | src/components/InstallationComparison.tsx:41-43 | every production record of the mock hourly series lies in [0, 50] |
| IssuesPanel.IssueBadgeVariant | src/components/ProcessIssues.tsx:61-72 | `error` is destructive, `warning` secondary and `info` outline, each exactly |
| IssuesPanel.ErrorRate | src/components/ProcessIssues.tsx:187 | the share of issues that are open errors, in percent, 0 for no issues; IssuesPanel.ErrorRateBounds proves its range and ends |
| IssuesPanel.ErrorRateBounds | src/components/ProcessIssues.tsx:187 | the error rate lies in [0, 100]; it is 0 exactly when no issue is an open error and 100 exactly when every issue is one |
| IssuesPanel.RatioPercent | src/components/ProcessIssues.tsx:187 | `c / n * 100` for `c <= n` lies in [0, 100] and hits the ends exactly at `c = 0` and `c = n` |
| IssuesPanel.LoadData | src/components/ProcessIssues.tsx:26-46 | installations are fetched only when the panel is not tied to one installation; issues are fetched for the selection, `'all'` meaning every issue |
| IssuesPanel.LoadedIssues | src/components/ProcessIssues.tsx:37-39 | with the backend down, `'all'` lists every catalog issue and an id lists exactly that installation's issues |
| IssuesPanel.InstallationNameAsWritten | src/components/ProcessIssues.tsx:74-80 | without the prop every issue is labelled `Current Installation`; with it, a name other than `Unknown Installation` belongs to an installation of the list with the issue's id, and an id not in the list (in particular an empty list) gives `Unknown Installation` |
| IssuesPanel.AsWrittenNeverNames | src/components/ProcessIssues.tsx:74-80 | as written, with the list the panel starts with, every issue is labelled `Unknown Installation` or `Current Installation`, never by its installation's name |
| IssuesPanel.AsWrittenHidesLoadedName | src/components/ProcessIssues.tsx:31-34 | with the backend down, the panel for all installations has `Solar Farm Alpha` in its list yet labels that installation's issue `Current Installation` |
| IssuesPanel.InstallationNameFor | src/components/ProcessIssues.tsx:74-80 | corrected: a panel tied to one installation says `Current Installation`; otherwise a found name belongs to the issue's installation |
| IssuesPanel.CorrectedNamesResolve | src/components/ProcessIssues.tsx:74-80 | with the corrected lookup and the backend down, every catalog issue is labelled with its own installation's name |
| IssuesPanel.CatalogIssueNames | src/lib/mockApi.ts:12-85 | issue `k` of the catalog belongs to installation `k`, and the lookup finds its name |
| Dashboard.LoadDashboardData | src/app/page.tsx:24-41 | the three unfiltered lists, each remote or mock |
| Dashboard.Summarize | src/app/page.tsx:43-46 | the active installations, the power total, the open and the critical issues; Dashboard.MockDashboard gives their values with the backend down |
| Dashboard.Recent | src/app/page.tsx:303-310 | the empty state exactly when every issue is resolved; otherwise the first min(5, n) open issues, in order |
| Dashboard.MockDashboard | src/app/page.tsx:43-46 | with the backend down: two active installations of three, 160.5 kW installed, two open issues of which one is critical, both shown as recent |
| Dashboard.CatalogFigures | src/app/page.tsx:43-46 | the catalog's active installations, power total, open and critical issues |
| Dashboard.CatalogPower | src/app/page.tsx:44 | the catalog's ratings add up to 160.5 kW |
| InstallationsPage.LoadData | src/app/installations/page.tsx:23-38 | the installations of the selected client (all for `'all'`) and the client list |
| InstallationsPage.StatusColor | src/app/installations/page.tsx:45-58 | each status maps to its own colour class, one to one |
| InstallationsPage.Summarize | src/app/installations/page.tsx:107-149 | the cards show the total, the active count, the needs-attention count and the power total; active plus attention is at most the total |
| InstallationsPage.MockPageNames | src/app/installations/page.tsx:40-43 | with the backend down, every listed installation's client resolves to the name the installation carries, and a selected client lists only its installations |
| InstallationsPage.CatalogClientNames | src/app/installations/page.tsx:40-43 | each catalog installation's client name is what the client list gives for its id |
| ReportPanel.PdfFileNameEnds | src/components/MonthlyReport.tsx:75 | the file name ends in `-MM.pdf`, where `MM` is two digits denoting the month |
| ReportPanel.PdfFileName | src/components/MonthlyReport.tsx:75 | `monthly-report-<id>-<year>-<MM>.pdf`; ReportPanel.PdfFileNameEnds and ReportPanel.PdfFileNamesDistinct prove its ending and that it tells months and years apart |
| ReportPanel.IsSpecific | src/components/MonthlyReport.tsx:65 | a selection that is neither empty nor `'all'` |
| ReportPanel.NameTail | src/components/MonthlyReport.tsx:75 | the last seven characters of a dated name are the separator, the month and the extension |
| ReportPanel.NameParts | src/components/MonthlyReport.tsx:75 | two dated names agree only when their years and months agree |
| ReportPanel.PdfFileNamesDistinct | src/components/MonthlyReport.tsx:75 | two different months or years of one installation never share a file name |
| ReportPanel.Years | src/components/MonthlyReport.tsx:115 | five years, strictly descending from the current year, covering exactly the current year and the four before it |
| ReportPanel.ClientOfInstallation | src/components/MonthlyReport.tsx:104-108 | a name other than `Unknown Client` is the client of an installation with that id; an unknown installation gives `Unknown Client` |
| ReportPanel.CatalogNamesResolve | src/components/MonthlyReport.tsx:99-108 | both lookups resolve every catalog installation: to its name and to its client's name |
| ReportPanel.AllReports | src/components/MonthlyReport.tsx:51-55 | one report per installation in installation order, or nothing exactly when some fetch rejects |
| ReportPanel.ReportsFor | src/components/MonthlyReport.tsx:39-55 | a specific selection yields exactly its one report; `'all'` or an empty selection yields the fan-out |
| ReportPanel.MockAllReports | src/components/MonthlyReport.tsx:46-55 | with the backend down, `'all'` yields three reports, one per catalog installation in order, each for the selected year |
| ReportPanel.MockReport | src/components/MonthlyReport.tsx:39-43 | with the backend down, a report is the mock's, and exists for every catalog installation with its id and the year |
| ReportPanel.Panel.constructor | src/components/MonthlyReport.tsx:20-28 | empty lists, loading, not generating, on the given month and year, with the given installation or `'all'` |
| ReportPanel.Panel.LoadData | src/components/MonthlyReport.tsx:34-62 | clients and installations are replaced; reports are replaced when every fetch resolves and kept when one rejects; loading ends either way; nothing else changes |
| ReportPanel.Panel.LoadLists | src/components/MonthlyReport.tsx:39-43 | both lists are replaced by the fetched ones |
| ReportPanel.Panel.LoadReports | src/components/MonthlyReport.tsx:46-58 | the reports of the selection replace the old ones, or are kept when a fetch rejects |
| ReportPanel.Panel.GeneratePdf | src/components/MonthlyReport.tsx:64-85 | nothing happens for an empty or `'all'` selection; otherwise one download of the generated PDF under its dated name, none when generation rejects, and `generatingPDF` is false afterwards |
| ReportPanel.Panel.SendEmailReport | src/components/MonthlyReport.tsx:87-97 | the call gets past its guard exactly for a specific selection, and nothing in the panel changes; the source sends nothing past the guard and only logs |

## Left out

- Network I/O, JSON parsing and blob contents are not modelled. The backend is an input: per request, a status with a parsed body, or a network error.
- The `setTimeout` delays of the mock client are latency only.
- `Date`, `toISOString` and locale formatting are not modelled. Time is whole minutes of local time, and timestamps are kept as minutes rather than ISO strings.
- Random magnitudes are not modelled. `Math.random()` is an oracle, and each draw reads a fixed slot of it, so the order of the source's draws is not captured. Draws are not shared between calls.
- Floating point is not modelled. Values are exact reals, and rounding is exact half-up rounding to tenths.
- One environment (load time, clock, random stream) is used for every call of one page load.
- `Promise.all` is modelled as a sequential map that fails when any element fails. Concurrency and request order are not modelled.
- JSX, charts, React effects and re-render triggers are left out. A page's state after a load is a value or a class field.
- The `console` logging in `catch` blocks and in `sendEmailReport` is left out.
- The login form's `showPassword` toggle is left out. It changes only how the password field is displayed.
- The `<a>` element, object URL and click that start a download are not modelled. A download is a file name and a blob appended to the panel's list.
- The middleware matcher regex is left out. It is routing configuration and selects which paths reach the guard.
- The `catch` branch of the login form's submit cannot be reached: nothing in its `try` throws in the model.
- The badge default for an unknown issue kind cannot be reached here. Issue kinds are a closed datatype, so the three named kinds are the only inputs.
- The gray default of the status colour cannot be reached here either. Statuses are a closed datatype.
- The installation detail page and the `InstallationDetail`, `WeatherCard`, `ActivePowerClock` and `Navigation` components are not part of this model. They are rendering or timer-driven display simulations.
- Comparison.LoadData: its ensures states the ids of the entries; the names, ratings, period, totals and yields are stated by Comparison.Entries, which it calls.
- The URL parser decodes percent-escapes to bytes and stops there. The final UTF-8 decoding step of `URLSearchParams` is not modelled.
- The `Authorization` header check uses only the first `Bearer ` occurrence, as `String.replace` does. Headers are plain strings with no case folding.

## Findings

| source | as written | input that shows it | evidently intended | confidence | as-written member | corrected member |
|---|---|---|---|---|---|---|
| src/components/ProcessIssues.tsx:74-80 | `getInstallationName` looks the name up only when the `installationId` prop is given, but the installation list is loaded only when that prop is absent (lines 31-34), so no issue is ever shown with its installation's name | the panel with no prop and the backend down: its list holds `Solar Farm Alpha`, yet issue `issue-001` of `inst-001` is labelled `Current Installation` | say `Current Installation` when the prop is given, otherwise look the issue's installation up in the loaded list | high, not executed | IssuesPanel.AsWrittenHidesLoadedName | IssuesPanel.CorrectedNamesResolve |
