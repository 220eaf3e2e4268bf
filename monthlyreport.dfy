/** The monthly report panel (`MonthlyReport`): it loads the clients, the
    installations and the reports of the selected month (one installation
    or all of them), downloads a PDF of one installation's report under a
    dated file name, and resolves installation and client names. */
module ReportPanel {
  import opened Common
  import opened Types
  import opened Seqs
  import opened Text
  import opened Metrics
  import Api
  import MockApi
  import Catalog

  /** A selection names one installation: neither empty nor `'all'`. */
  predicate IsSpecific(selected: string) {
    selected != "" && selected != "all"
  }

  /** `monthly-report-<id>-<year>-<MM>.pdf`. */
  function PdfFileName(installationId: string, year: int, month: int): string {
    "monthly-report-" + installationId + "-" + IntToString(year) + "-" + TwoDigit(month) + ".pdf"
  }

  /** For a month in 1..12 the name ends in `-<MM>.pdf` with `MM` two
      digits denoting the month. */
  lemma PdfFileNameEnds(installationId: string, year: int, month: int)
    requires 1 <= month <= 12
    ensures var f := PdfFileName(installationId, year, month);
      |f| >= 7 && f[|f| - 7] == '-' && f[|f| - 4..] == ".pdf" &&
      DigitsValue(f[|f| - 6..|f| - 4]) == month
  {
    TwoDigitDenotes(month);
    NameTail("monthly-report-" + installationId + "-" + IntToString(year), "-", TwoDigit(month), ".pdf");
  }

  /** The last seven characters of `h + d + mm + e` for a one-character
      separator, a two-character month and a four-character extension. */
  lemma NameTail(h: string, d: string, mm: string, e: string)
    requires |d| == 1 && |mm| == 2 && |e| == 4
    ensures var f := h + d + mm + e;
      |f| >= 7 && f[|f| - 7] == d[0] && f[|f| - 6..|f| - 4] == mm && f[|f| - 4..] == e
  {
    var f := h + d + mm + e;
    assert f[|f| - 7] == d[0];
    assert f[|f| - 6..|f| - 4] == mm;
    assert f[|f| - 4..] == e;
  }

  /** Two names built around the same prefix, separator and extension
      from a year and a two-character month agree only when both parts
      agree. */
  lemma NameParts(p: string, y1: string, y2: string, d: string, m1: string, m2: string, e: string)
    requires |m1| == 2 && |m2| == 2
    requires p + y1 + d + m1 + e == p + y2 + d + m2 + e
    ensures y1 == y2 && m1 == m2
  {
    var f := p + y1 + d + m1 + e;
    var g := p + y2 + d + m2 + e;
    assert |y1| == |y2| by {
      assert |f| == |p| + |y1| + |d| + 2 + |e|;
      assert |g| == |p| + |y2| + |d| + 2 + |e|;
    }
    var k := |p| + |y1|;
    assert y1 == f[|p|..k];
    assert y2 == g[|p|..k];
    assert m1 == f[k + |d|..k + |d| + 2];
    assert m2 == g[k + |d|..k + |d| + 2];
  }

  /** Different months or years of one installation never share a file
      name (for years written without a sign). */
  lemma PdfFileNamesDistinct(installationId: string, y1: nat, m1: int, y2: nat, m2: int)
    requires 1 <= m1 <= 12 && 1 <= m2 <= 12
    requires PdfFileName(installationId, y1, m1) == PdfFileName(installationId, y2, m2)
    ensures y1 == y2 && m1 == m2
  {
    TwoDigitDenotes(m1);
    TwoDigitDenotes(m2);
    NameParts("monthly-report-" + installationId + "-", IntToString(y1), IntToString(y2),
              "-", TwoDigit(m1), TwoDigit(m2), ".pdf");
    NatToStringRoundTrip(y1);
    NatToStringRoundTrip(y2);
  }

  /** `Array.from({ length: 5 }, (_, i) => currentYear - i)`: the current
      year and the four before it, newest first. */
  function Years(currentYear: int): (ys: seq<int>)
    ensures |ys| == 5 && ys[0] == currentYear && ys[4] == currentYear - 4
    ensures forall i, j :: 0 <= i < j < |ys| ==> ys[i] > ys[j]
    ensures forall y :: y in ys <==> currentYear - 4 <= y <= currentYear
  {
    var ys := seq(5, i => currentYear - i);
    assert forall y :: currentYear - 4 <= y <= currentYear ==> y in ys by {
      forall y | currentYear - 4 <= y <= currentYear
        ensures y in ys
      {
        assert ys[currentYear - y] == y;
      }
    }
    ys
  }

  /** `getClientName(installationId)`: the client of the installation with
      that id, `'Unknown Client'` when either is missing. */
  function ClientOfInstallation(installations: seq<Installation>, clients: seq<Client>, installationId: string)
    : (r: string)
    ensures r != UnknownClient ==>
      exists i, c :: 0 <= i < |installations| && 0 <= c < |clients| &&
        installations[i].id == installationId && clients[c].id == installations[i].clientId &&
        clients[c].name == r
    ensures (forall i :: 0 <= i < |installations| ==> installations[i].id != installationId) ==> r == UnknownClient
  {
    match FindInstallation(installations, installationId)
    case None => UnknownClient
    case Some(inst) => ClientName(clients, inst.clientId)
  }

  /** Both lookups resolve every catalog installation: by name, and to the
      client its record names. */
  lemma CatalogNamesResolve(loadedAt: Minutes)
    ensures forall k :: 0 <= k < 3 ==>
      var insts := Catalog.Installations(loadedAt);
      InstallationName(insts, insts[k].id) == insts[k].name &&
      ClientOfInstallation(insts, Catalog.Clients(loadedAt), insts[k].id) == insts[k].clientName
  {
    forall k | 0 <= k < 3
      ensures var insts := Catalog.Installations(loadedAt);
        InstallationName(insts, insts[k].id) == insts[k].name &&
        ClientOfInstallation(insts, Catalog.Clients(loadedAt), insts[k].id) == insts[k].clientName
    {
      CatalogEntryResolves(loadedAt, k);
    }
  }

  lemma CatalogEntryResolves(loadedAt: Minutes, k: nat)
    requires k < 3
    ensures var insts := Catalog.Installations(loadedAt);
      InstallationName(insts, insts[k].id) == insts[k].name &&
      ClientOfInstallation(insts, Catalog.Clients(loadedAt), insts[k].id) == insts[k].clientName
  {
    var insts, cs := Catalog.Installations(loadedAt), Catalog.Clients(loadedAt);
    Catalog.KeysResolve(loadedAt);
    FindInstallationUnique(insts, k);
    InstallationNameFound(insts, k);
    ClientNameFound(cs, if k == 1 then 1 else 0);
  }

  /** The reports of every installation, in installation order, or nothing
      when any of them rejects (`Promise.all`). */
  function AllReports(b: Api.Backend, env: MockApi.Env, installations: seq<Installation>, month: int, year: int)
    : (r: Option<seq<MonthlyReport>>)
    ensures r.Some? <==>
      forall i :: 0 <= i < |installations| ==> Api.GetMonthlyReport(b, env, installations[i].id, month, year).Ok?
    ensures r.Some? ==>
      (|r.value| == |installations| &&
       forall i :: 0 <= i < |installations| ==>
         r.value[i] == Api.GetMonthlyReport(b, env, installations[i].id, month, year).value)
    decreases |installations|
  {
    if installations == [] then Some([])
    else
      match Api.GetMonthlyReport(b, env, installations[0].id, month, year)
      case Err(_) => None
      case Ok(first) =>
        match AllReports(b, env, installations[1..], month, year)
        case None => None
        case Some(rest) => Some([first] + rest)
  }

  /** The reports `loadData` shows: one for a specific selection, one per
      installation otherwise; nothing when a fetch rejects. */
  function ReportsFor(b: Api.Backend, env: MockApi.Env, selected: string, installations: seq<Installation>,
                      month: int, year: int): (r: Option<seq<MonthlyReport>>)
    ensures IsSpecific(selected) ==>
      (r.Some? <==> Api.GetMonthlyReport(b, env, selected, month, year).Ok?) &&
      (r.Some? ==> r.value == [Api.GetMonthlyReport(b, env, selected, month, year).value])
    ensures !IsSpecific(selected) ==> r == AllReports(b, env, installations, month, year)
  {
    if IsSpecific(selected) then
      match Api.GetMonthlyReport(b, env, selected, month, year)
      case Ok(report) => Some([report])
      case Err(_) => None
    else AllReports(b, env, installations, month, year)
  }

  /** With the backend down, `'all'` yields one report per catalog
      installation, in catalog order, each for its installation and the
      selected year. */
  lemma MockAllReports(b: Api.Backend, env: MockApi.Env, month: int, year: int)
    requires Api.Down(b)
    ensures var r := ReportsFor(b, env, "all", Catalog.Installations(env.loadedAt), month, year);
      r.Some? && |r.value| == 3 &&
      forall i :: 0 <= i < 3 ==>
        r.value[i].installationId == Catalog.Installations(env.loadedAt)[i].id && r.value[i].year == year
  {
    forall i | 0 <= i < 3
      ensures var r := Api.GetMonthlyReport(b, env, Catalog.Installations(env.loadedAt)[i].id, month, year);
        r.Ok? && r.value.installationId == Catalog.Installations(env.loadedAt)[i].id && r.value.year == year
    {
      MockReport(b, env, Catalog.Installations(env.loadedAt)[i].id, month, year);
      Catalog.KeysResolve(env.loadedAt);
    }
  }

  /** With the backend down, a report comes from the mock: it exists for
      every catalog installation and carries its id and the year. */
  lemma MockReport(b: Api.Backend, env: MockApi.Env, installationId: string, month: int, year: int)
    requires Api.Down(b)
    ensures Api.GetMonthlyReport(b, env, installationId, month, year) ==
      MockApi.GetMonthlyReport(env, installationId, month, year)
    ensures (exists i :: 0 <= i < 3 && Catalog.Installations(env.loadedAt)[i].id == installationId) ==>
      var r := Api.GetMonthlyReport(b, env, installationId, month, year);
      r.Ok? && r.value.installationId == installationId && r.value.year == year
  {
    assert !Api.IsOk(b.report(Api.GetRequest(Api.MonthlyReportEndpoint(installationId, month, year))));
    MockApi.MonthlyReportContract(env, installationId, month, year);
  }

  /** A downloaded file: its name and its content. */
  datatype Download = Download(fileName: string, blob: Blob)

  class Panel {
    const backend: Api.Backend
    const env: MockApi.Env
    var reports: seq<MonthlyReport>
    var installations: seq<Installation>
    var clients: seq<Client>
    var loading: bool
    var selectedInstallation: string
    var selectedMonth: int
    var selectedYear: int
    var generatingPdf: bool
    /** The files the browser has been asked to save, oldest first. */
    var downloads: seq<Download>

    /** A panel for `installationId` (all installations when absent), on
        the current month and year. */
    constructor (backend: Api.Backend, env: MockApi.Env, installationId: Option<string>,
                 currentMonth: int, currentYear: int)
      ensures this.backend == backend && this.env == env
      ensures selectedInstallation == if Truthy(installationId) then installationId.value else "all"
      ensures selectedMonth == currentMonth && selectedYear == currentYear
      ensures reports == [] && installations == [] && clients == []
      ensures loading && !generatingPdf && downloads == []
    {
      this.backend := backend;
      this.env := env;
      selectedInstallation := if Truthy(installationId) then installationId.value else "all";
      selectedMonth := currentMonth;
      selectedYear := currentYear;
      reports := [];
      installations := [];
      clients := [];
      loading := true;
      generatingPdf := false;
      downloads := [];
    }

    /** `loadData`: clients and installations are replaced; the reports
        are replaced when every fetch resolves and kept when one rejects;
        loading is over either way. Nothing else changes. */
    method LoadData()
      modifies this`loading, this`clients, this`installations, this`reports
      ensures clients == Api.GetClients(backend, env)
      ensures installations == Api.GetInstallations(backend, env, None)
      ensures var fetched := ReportsFor(backend, env, selectedInstallation, installations, selectedMonth, selectedYear);
        (fetched.Some? ==> reports == fetched.value) && (fetched.None? ==> reports == old(reports))
      ensures !loading
    {
      loading := true;
      LoadLists();
      LoadReports();
      loading := false;
    }

    /** The first step of `loadData`: both lists are replaced. */
    method LoadLists()
      modifies this`clients, this`installations
      ensures clients == Api.GetClients(backend, env)
      ensures installations == Api.GetInstallations(backend, env, None)
    {
      clients := Api.GetClients(backend, env);
      installations := Api.GetInstallations(backend, env, None);
    }

    /** The second step of `loadData`: the reports of the selection for the
        installations now loaded, kept as they were when a fetch rejects. */
    method LoadReports()
      modifies this`reports
      ensures var fetched := ReportsFor(backend, env, selectedInstallation, installations, selectedMonth, selectedYear);
        (fetched.Some? ==> reports == fetched.value) && (fetched.None? ==> reports == old(reports))
    {
      var fetched := ReportsFor(backend, env, selectedInstallation, installations, selectedMonth, selectedYear);
      if fetched.Some? {
        reports := fetched.value;
      }
    }

    /** `generatePDF`: nothing for an empty or `'all'` selection; otherwise
        one download of the generated PDF under its dated name, or none
        when generation rejects. `generatingPdf` is false afterwards, and
        nothing but the downloads and that flag changes. */
    method GeneratePdf()
      modifies this`downloads, this`generatingPdf
      ensures !IsSpecific(selectedInstallation) ==>
        downloads == old(downloads) && generatingPdf == old(generatingPdf)
      ensures IsSpecific(selectedInstallation) ==>
        var r := Api.GeneratePdfReport(backend, selectedInstallation, selectedMonth, selectedYear);
        !generatingPdf &&
        (r.Ok? ==>
          downloads == old(downloads) + [Download(PdfFileName(selectedInstallation, selectedYear, selectedMonth), r.value)]) &&
        (r.Err? ==> downloads == old(downloads))
    {
      if !IsSpecific(selectedInstallation) {
        return;
      }
      generatingPdf := true;
      var r := Api.GeneratePdfReport(backend, selectedInstallation, selectedMonth, selectedYear);
      if r.Ok? {
        downloads := downloads + [Download(PdfFileName(selectedInstallation, selectedYear, selectedMonth), r.value)];
      }
      generatingPdf := false;
    }

    /** `sendEmailReport`: the call gets past its guard only for a specific
        selection, and changes nothing in the panel. Past the guard the
        source sends nothing; it only logs. */
    method SendEmailReport() returns (proceeds: bool)
      ensures proceeds <==> IsSpecific(selectedInstallation)
    {
      proceeds := IsSpecific(selectedInstallation);
    }
  }
}
