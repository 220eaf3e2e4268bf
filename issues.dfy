/** The process-issues panel (`ProcessIssues`): it lists the issues of the
    selected installation (or all), splits them into open and resolved,
    shows an error rate, a badge per issue kind and the installation each
    issue belongs to. */
module IssuesPanel {
  import opened Common
  import opened Types
  import opened Seqs
  import opened Metrics
  import Api
  import MockApi
  import Catalog

  const CurrentInstallation: string := "Current Installation"

  datatype BadgeVariant = Destructive | Secondary | Outline

  /** `getIssueBadgeVariant`. */
  function IssueBadgeVariant(kind: IssueKind): (v: BadgeVariant)
    ensures v == Destructive <==> kind == IssueKind.Error
    ensures v == Secondary <==> kind == Warning
    ensures v == Outline <==> kind == Info
  {
    match kind
    case Error => Destructive
    case Warning => Secondary
    case Info => Outline
  }

  /** The "Error Rate" card: the share of all issues, in percent, that are
      open errors; 0 when there are no issues. */
  function ErrorRate(issues: seq<ProcessIssue>): real {
    if |issues| > 0 then |CriticalIssues(issues)| as real / |issues| as real * 100.0 else 0.0
  }

  /** The rate is a percentage: 0 exactly when no issue is an open error,
      100 exactly when every issue is one. */
  lemma ErrorRateBounds(issues: seq<ProcessIssue>)
    ensures 0.0 <= ErrorRate(issues) <= 100.0
    ensures ErrorRate(issues) == 0.0 <==>
      forall i :: 0 <= i < |issues| ==> issues[i].resolved || issues[i].kind != IssueKind.Error
    ensures ErrorRate(issues) == 100.0 <==>
      issues != [] && forall i :: 0 <= i < |issues| ==> !issues[i].resolved && issues[i].kind == IssueKind.Error
  {
    CriticalAreOpenErrors(issues);
    FilterLengthFull(issues, IsCritical);
    var c, n := |CriticalIssues(issues)|, |issues|;
    if n > 0 {
      RatioPercent(c, n);
    }
    if forall i :: 0 <= i < |issues| ==> issues[i].resolved || issues[i].kind != IssueKind.Error {
      if c > 0 {
        var x := CriticalIssues(issues)[0];
        assert x in issues;
      }
    }
  }

  /** `c / n * 100` for `0 <= c <= n`, `n > 0`: a percentage that is 0 and
      100 exactly at the ends. */
  lemma RatioPercent(c: nat, n: nat)
    requires 0 < n && c <= n
    ensures 0.0 <= c as real / n as real * 100.0 <= 100.0
    ensures c as real / n as real * 100.0 == 0.0 <==> c == 0
    ensures c as real / n as real * 100.0 == 100.0 <==> c == n
  {
    var q := c as real / n as real;
    assert q * n as real == c as real;
    assert q * 100.0 == 100.0 <==> q == 1.0;
    assert q == 1.0 <==> c as real == n as real;
    assert q * 100.0 == 0.0 <==> q == 0.0;
  }

  /** What `loadData` leaves behind. */
  datatype View = View(installations: seq<Installation>, issues: seq<ProcessIssue>)

  /** `loadData`: the installation list is fetched only when the panel is
      not tied to one installation (otherwise the previous list stays),
      and the issues of the selection are fetched, `'all'` meaning every
      issue. */
  function LoadData(b: Api.Backend, env: MockApi.Env, installationId: Option<string>, selected: string,
                    installations: seq<Installation>): (v: View)
    ensures Truthy(installationId) ==> v.installations == installations
    ensures !Truthy(installationId) ==> v.installations == Api.GetInstallations(b, env, None)
    ensures v.issues == Api.GetProcessIssues(b, env, SelectionArg(selected))
  {
    View(if Truthy(installationId) then installations else Api.GetInstallations(b, env, None),
         Api.GetProcessIssues(b, env, SelectionArg(selected)))
  }

  /** With the backend down, selecting `'all'` lists every catalog issue,
      resolved ones included, and selecting an id lists exactly that
      installation's issues. */
  lemma LoadedIssues(b: Api.Backend, env: MockApi.Env, installationId: Option<string>, selected: string,
                     installations: seq<Installation>)
    requires Api.Down(b)
    ensures selected == "all" ==>
      LoadData(b, env, installationId, selected, installations).issues == Catalog.Issues(env.loadedAt)
    ensures selected != "all" && selected != "" ==>
      forall x :: x in LoadData(b, env, installationId, selected, installations).issues <==>
        x in Catalog.Issues(env.loadedAt) && x.installationId == selected
  {
    var rq := Api.GetRequest(Api.IssuesEndpoint(SelectionArg(selected)));
    assert !Api.IsOk(b.issues(rq));
  }

  /** `getInstallationName` as written: the lookup runs only when the panel
      IS tied to one installation, which is exactly when the list was not
      loaded. */
  function InstallationNameAsWritten(installationId: Option<string>, installations: seq<Installation>,
                                     issueInstallationId: string): (r: string)
    ensures !Truthy(installationId) ==> r == CurrentInstallation
    ensures Truthy(installationId) && r != UnknownInstallation ==>
      exists i :: 0 <= i < |installations| && installations[i].id == issueInstallationId &&
        installations[i].name == r
    ensures (Truthy(installationId) &&
             forall i :: 0 <= i < |installations| ==> installations[i].id != issueInstallationId) ==>
      r == UnknownInstallation
    ensures Truthy(installationId) && installations == [] ==> r == UnknownInstallation
  {
    if Truthy(installationId) then InstallationName(installations, issueInstallationId)
    else CurrentInstallation
  }

  /** As written, no issue is ever shown with its installation's name: a
      panel tied to one installation starts with an empty list and never
      loads it, and a panel for all installations loads the list but
      labels every issue "Current Installation". */
  lemma AsWrittenNeverNames(b: Api.Backend, env: MockApi.Env, installationId: Option<string>, selected: string)
    ensures var v := LoadData(b, env, installationId, selected, []);
      forall k :: 0 <= k < |v.issues| ==>
        InstallationNameAsWritten(installationId, v.installations, v.issues[k].installationId)
          in {UnknownInstallation, CurrentInstallation}
  {
  }

  /** The input that shows it: with the backend down, the panel for all
      installations has "Solar Farm Alpha" in its loaded list, yet labels
      the issue on that installation "Current Installation". */
  lemma AsWrittenHidesLoadedName(b: Api.Backend, env: MockApi.Env)
    requires Api.Down(b)
    ensures var v := LoadData(b, env, None, "all", []);
      |v.issues| == 3 && v.issues[0].installationId == "inst-001" &&
      InstallationName(v.installations, "inst-001") == "Solar Farm Alpha" &&
      InstallationNameAsWritten(None, v.installations, v.issues[0].installationId) == CurrentInstallation
  {
    LoadedIssues(b, env, None, "all", []);
    var rq := Api.GetRequest(Api.InstallationsEndpoint(None));
    assert !Api.IsOk(b.installations(rq));
    var insts := Catalog.Installations(env.loadedAt);
    Catalog.KeysResolve(env.loadedAt);
    InstallationNameFound(insts, 0);
  }

  /** The evidently intended `getInstallationName`: a panel tied to one
      installation says "Current Installation"; otherwise the issue's
      installation is looked up in the loaded list. */
  function InstallationNameFor(installationId: Option<string>, installations: seq<Installation>,
                               issueInstallationId: string): (r: string)
    ensures Truthy(installationId) ==> r == CurrentInstallation
    ensures !Truthy(installationId) && r != UnknownInstallation ==>
      exists i :: 0 <= i < |installations| && installations[i].id == issueInstallationId &&
        installations[i].name == r
  {
    if Truthy(installationId) then CurrentInstallation
    else InstallationName(installations, issueInstallationId)
  }

  /** With the corrected lookup and the backend down, the panel for all
      installations names every catalog issue by the installation it
      belongs to. */
  lemma CorrectedNamesResolve(b: Api.Backend, env: MockApi.Env)
    requires Api.Down(b)
    ensures var v := LoadData(b, env, None, "all", []);
      |v.issues| == 3 &&
      forall k :: 0 <= k < 3 ==>
        InstallationNameFor(None, v.installations, v.issues[k].installationId) ==
          Catalog.Installations(env.loadedAt)[k].name
  {
    LoadedIssues(b, env, None, "all", []);
    var rq := Api.GetRequest(Api.InstallationsEndpoint(None));
    assert !Api.IsOk(b.installations(rq));
    CatalogIssueNames(env.loadedAt);
  }

  /** Each catalog issue's installation is found in the catalog by id:
      issue `k` belongs to installation `k`. */
  lemma CatalogIssueNames(loadedAt: Minutes)
    ensures forall k :: 0 <= k < 3 ==>
      InstallationName(Catalog.Installations(loadedAt), Catalog.Issues(loadedAt)[k].installationId) ==
        Catalog.Installations(loadedAt)[k].name
  {
    forall k | 0 <= k < 3
      ensures InstallationName(Catalog.Installations(loadedAt), Catalog.Issues(loadedAt)[k].installationId) ==
        Catalog.Installations(loadedAt)[k].name
    {
      CatalogIssueName(loadedAt, k);
    }
  }

  lemma CatalogIssueName(loadedAt: Minutes, k: nat)
    requires k < 3
    ensures InstallationName(Catalog.Installations(loadedAt), Catalog.Issues(loadedAt)[k].installationId) ==
      Catalog.Installations(loadedAt)[k].name
  {
    var insts, issues := Catalog.Installations(loadedAt), Catalog.Issues(loadedAt);
    Catalog.KeysResolve(loadedAt);
    InstallationNameFound(insts, k);
    assert issues[k].installationId == insts[k].id;
  }
}
