/** The dashboard (`src/app/page.tsx`): it loads installations, clients and
    issues together and shows the running installations, the installed
    power, the open and critical issues and the five most recent open
    issues. */
module Dashboard {
  import opened Common
  import opened Types
  import opened Seqs
  import opened Metrics
  import Api
  import MockApi
  import Catalog

  /** What `loadDashboardData` leaves behind. */
  datatype View = View(installations: seq<Installation>, clients: seq<Client>, issues: seq<ProcessIssue>)

  /** `loadDashboardData`: the three unfiltered lists. None of the three
      accessors can reject, so the lists are always replaced. */
  function LoadDashboardData(b: Api.Backend, env: MockApi.Env): (v: View)
    ensures v.installations == Api.GetInstallations(b, env, None)
    ensures v.clients == Api.GetClients(b, env)
    ensures v.issues == Api.GetProcessIssues(b, env, None)
  {
    View(Api.GetInstallations(b, env, None), Api.GetClients(b, env), Api.GetProcessIssues(b, env, None))
  }

  /** The figures the cards and tabs show. */
  datatype Summary = Summary(
    activeInstallations: seq<Installation>,
    totalInstalledPower: real,
    activeIssues: seq<ProcessIssue>,
    criticalIssues: seq<ProcessIssue>)

  function Summarize(v: View): Summary {
    Summary(ActiveInstallations(v.installations), TotalInstalledPower(v.installations),
            ActiveIssues(v.issues), CriticalIssues(v.issues))
  }

  /** The "Recent Issues" tab: an empty state, or the first open issues. */
  datatype RecentIssues = NoActiveIssues | Latest(items: seq<ProcessIssue>)

  /** `activeIssues.length === 0 ? … : activeIssues.slice(0, 5)`: the empty
      state exactly when every issue is resolved, otherwise the first
      `min(5, n)` open issues in list order. */
  function Recent(issues: seq<ProcessIssue>): (v: RecentIssues)
    ensures v.NoActiveIssues? <==> forall i :: 0 <= i < |issues| ==> issues[i].resolved
    ensures v.Latest? ==>
      (|v.items| == if |ActiveIssues(issues)| < 5 then |ActiveIssues(issues)| else 5) &&
      v.items == ActiveIssues(issues)[..|v.items|] &&
      forall i :: 0 <= i < |v.items| ==> !v.items[i].resolved && v.items[i] in issues
  {
    var active := ActiveIssues(issues);
    if |active| == 0 then
      NoActiveIssues
    else
      assert active[0] in issues && !active[0].resolved;
      Latest(active[..if |active| < 5 then |active| else 5])
  }

  /** With the backend down, the dashboard shows the catalog: two running
      installations out of three, 160.5 kW installed, two open issues of
      which one is critical, and both open issues in the recent list. */
  lemma MockDashboard(b: Api.Backend, env: MockApi.Env)
    requires Api.Down(b)
    ensures var v := LoadDashboardData(b, env);
      var insts, issues := Catalog.Installations(env.loadedAt), Catalog.Issues(env.loadedAt);
      var s := Summarize(v);
      s.activeInstallations == [insts[0], insts[1]] &&
      s.totalInstalledPower == 160.5 &&
      s.activeIssues == [issues[0], issues[2]] &&
      s.criticalIssues == [issues[2]] &&
      Recent(v.issues) == Latest([issues[0], issues[2]])
  {
    assert !Api.IsOk(b.installations(Api.GetRequest(Api.InstallationsEndpoint(None))));
    assert !Api.IsOk(b.issues(Api.GetRequest(Api.IssuesEndpoint(None))));
    CatalogFigures(env.loadedAt);
    var open := ActiveIssues(Catalog.Issues(env.loadedAt));
    assert open[..2] == open;
  }

  /** The figures of the catalog lists themselves. */
  lemma CatalogFigures(loadedAt: Minutes)
    ensures var insts, issues := Catalog.Installations(loadedAt), Catalog.Issues(loadedAt);
      ActiveInstallations(insts) == [insts[0], insts[1]] &&
      TotalInstalledPower(insts) == 160.5 &&
      ActiveIssues(issues) == [issues[0], issues[2]] &&
      CriticalIssues(issues) == [issues[2]]
  {
    var insts, issues := Catalog.Installations(loadedAt), Catalog.Issues(loadedAt);
    assert insts[2..][1..] == [];
    assert insts[1..][1..] == insts[2..];
    assert Filter(insts[2..], IsActive) == [];
    assert Filter(insts[1..], IsActive) == [insts[1]];
    CatalogPower(loadedAt);
    assert issues[2..][1..] == [];
    assert issues[1..][1..] == issues[2..];
    assert Filter(issues[2..], IsUnresolved) == [issues[2]];
    assert Filter(issues[1..], IsUnresolved) == [issues[2]];
    var open := [issues[0], issues[2]];
    assert open[1..][1..] == [];
    assert Filter(open[1..], IsErrorKind) == [issues[2]];
  }

  /** The catalog's ratings add up to 160.5 kW. */
  lemma CatalogPower(loadedAt: Minutes)
    ensures TotalInstalledPower(Catalog.Installations(loadedAt)) == 160.5
  {
    var insts := Catalog.Installations(loadedAt);
    assert insts[..2][..1] == insts[..1] && insts[..1][..0] == [];
    assert SumOf(insts[..1], InstalledPower) == 50.0;
    assert SumOf(insts[..2], InstalledPower) == 60.5;
  }
}
