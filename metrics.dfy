/** The derived figures several pages compute from fetched lists: which
    installations are running or need attention, which issues are open or
    critical, installed-power totals, and name lookups with their
    fallbacks. */
module Metrics {
  import opened Common
  import opened Types
  import opened Seqs

  const UnknownInstallation: string := "Unknown Installation"
  const UnknownClient: string := "Unknown Client"

  /** A selector whose `'all'` entry means "no filter":
      `selected === 'all' ? undefined : selected`. */
  function SelectionArg(selected: string): (arg: Option<string>)
    ensures arg.None? <==> selected == "all"
    ensures arg.Some? ==> arg.value == selected
  {
    if selected == "all" then None else Some(selected)
  }

  // ---------------------------------------------------------------------
  // Installations

  predicate IsActive(inst: Installation) {
    inst.status == Active
  }

  predicate IsNotActive(inst: Installation) {
    inst.status != Active
  }

  /** Status `'error'` or `'maintenance'`. */
  predicate NeedsAttention(inst: Installation) {
    inst.status == Status.Error || inst.status == Maintenance
  }

  function InstalledPower(inst: Installation): real {
    inst.installedPower
  }

  /** `installations.filter(inst => inst.status === 'active')`. */
  function ActiveInstallations(s: seq<Installation>): (r: seq<Installation>)
    ensures forall inst :: inst in r <==> inst in s && inst.status == Active
    ensures Subsequence(r, s)
  {
    Filter(s, IsActive)
  }

  /** `installations.filter(i => i.status === 'error' || i.status === 'maintenance')`. */
  function AttentionInstallations(s: seq<Installation>): (r: seq<Installation>)
    ensures forall inst :: inst in r <==> inst in s && (inst.status == Status.Error || inst.status == Maintenance)
    ensures Subsequence(r, s)
  {
    Filter(s, NeedsAttention)
  }

  /** `installations.reduce((sum, inst) => sum + inst.installedPower, 0)`. */
  function TotalInstalledPower(s: seq<Installation>): real {
    SumOf(s, InstalledPower)
  }

  /** The total adds up over a split of the list, and is non-negative (at
      most `n` times the largest rating) when every rating is. */
  lemma TotalInstalledPowerLaws(a: seq<Installation>, b: seq<Installation>, cap: real)
    ensures TotalInstalledPower(a + b) == TotalInstalledPower(a) + TotalInstalledPower(b)
    ensures (forall i :: 0 <= i < |a| ==> 0.0 <= a[i].installedPower <= cap) ==>
      0.0 <= TotalInstalledPower(a) <= |a| as real * cap
  {
    SumAppend(a, b, InstalledPower);
    if forall i :: 0 <= i < |a| ==> 0.0 <= a[i].installedPower <= cap {
      SumBounds(a, InstalledPower, 0.0, cap);
    }
  }

  /** The "active" and "needs attention" counts never share an
      installation, so together they are at most the total; they make up
      the total exactly when no installation is inactive. */
  lemma StatusCounts(s: seq<Installation>)
    ensures forall inst :: inst in ActiveInstallations(s) ==> inst !in AttentionInstallations(s)
    ensures |ActiveInstallations(s)| + |AttentionInstallations(s)| <= |s|
    ensures multiset(ActiveInstallations(s)) + multiset(AttentionInstallations(s)) <= multiset(s)
    ensures |ActiveInstallations(s)| + |AttentionInstallations(s)| == |s| <==>
      forall i :: 0 <= i < |s| ==> s[i].status != Inactive
  {
    FilterSplit(s, IsActive, IsNotActive);
    FilterFilter(s, IsNotActive, NeedsAttention, NeedsAttention);
    var rest := Filter(s, IsNotActive);
    FilterSubMultiset(rest, NeedsAttention);
    FilterLengthFull(rest, NeedsAttention);
    RestNeedsAttention(s);
  }

  /** Among the installations that are not active, all need attention
      exactly when none is inactive. */
  lemma RestNeedsAttention(s: seq<Installation>)
    ensures (forall k :: 0 <= k < |Filter(s, IsNotActive)| ==> NeedsAttention(Filter(s, IsNotActive)[k])) <==>
      forall i :: 0 <= i < |s| ==> s[i].status != Inactive
  {
    var rest := Filter(s, IsNotActive);
    if forall i :: 0 <= i < |s| ==> s[i].status != Inactive {
      forall k | 0 <= k < |rest|
        ensures NeedsAttention(rest[k])
      {
        assert rest[k] in s;
      }
    } else {
      var i :| 0 <= i < |s| && s[i].status == Inactive;
      assert IsNotActive(s[i]);
      assert s[i] in rest;
      var k :| 0 <= k < |rest| && rest[k] == s[i];
      assert !NeedsAttention(rest[k]);
    }
  }

  // ---------------------------------------------------------------------
  // Issues

  predicate IsUnresolved(issue: ProcessIssue) {
    !issue.resolved
  }

  predicate IsResolved(issue: ProcessIssue) {
    issue.resolved
  }

  predicate IsErrorKind(issue: ProcessIssue) {
    issue.kind == IssueKind.Error
  }

  predicate IsCritical(issue: ProcessIssue) {
    !issue.resolved && issue.kind == IssueKind.Error
  }

  /** `issues.filter(issue => !issue.resolved)`. */
  function ActiveIssues(s: seq<ProcessIssue>): (r: seq<ProcessIssue>)
    ensures forall issue :: issue in r <==> issue in s && !issue.resolved
    ensures Subsequence(r, s)
  {
    Filter(s, IsUnresolved)
  }

  /** `issues.filter(issue => issue.resolved)`. */
  function ResolvedIssues(s: seq<ProcessIssue>): (r: seq<ProcessIssue>)
    ensures forall issue :: issue in r <==> issue in s && issue.resolved
    ensures Subsequence(r, s)
  {
    Filter(s, IsResolved)
  }

  /** `activeIssues.filter(issue => issue.type === 'error')`. */
  function CriticalIssues(s: seq<ProcessIssue>): seq<ProcessIssue> {
    Filter(ActiveIssues(s), IsErrorKind)
  }

  /** Open and resolved issues split the list: every issue lands in exactly
      one of them, each keeps the original order, and none is lost. */
  lemma IssuePartition(s: seq<ProcessIssue>)
    ensures |ActiveIssues(s)| + |ResolvedIssues(s)| == |s|
    ensures multiset(ActiveIssues(s)) + multiset(ResolvedIssues(s)) == multiset(s)
    ensures forall issue :: issue in s ==> (issue in ActiveIssues(s) <==> issue !in ResolvedIssues(s))
  {
    FilterSplit(s, IsUnresolved, IsResolved);
  }

  /** The critical issues are the open errors of the whole list, taken in
      order out of the open issues. */
  lemma CriticalAreOpenErrors(s: seq<ProcessIssue>)
    ensures CriticalIssues(s) == Filter(s, IsCritical)
    ensures Subsequence(CriticalIssues(s), ActiveIssues(s))
    ensures forall issue :: issue in CriticalIssues(s) <==>
      issue in s && !issue.resolved && issue.kind == IssueKind.Error
  {
    FilterFilter(s, IsUnresolved, IsErrorKind, IsCritical);
  }

  // ---------------------------------------------------------------------
  // Name lookups

  /** `x?.name || fallback`: an empty name counts as missing. */
  function NameOr(name: Option<string>, fallback: string): (r: string)
    ensures r == fallback <==> name.None? || name.value == "" || name.value == fallback
    ensures r != fallback ==> name.Some? && r == name.value
  {
    if name.Some? && name.value != "" then name.value else fallback
  }

  predicate HasId(id: string, inst: Installation) {
    inst.id == id
  }

  /** `installations.find(inst => inst.id === id)`: the first installation
      with that id, nothing when there is none. */
  function FindInstallation(installations: seq<Installation>, id: string): (r: Option<Installation>)
    ensures r.Some? ==> r.value in installations && r.value.id == id
    ensures r.None? <==> forall i :: 0 <= i < |installations| ==> installations[i].id != id
  {
    Find(installations, (inst: Installation) => HasId(id, inst))
  }

  /** With unique ids, the search finds exactly the installation whose id
      it was given. */
  lemma FindInstallationUnique(installations: seq<Installation>, i: nat)
    requires i < |installations|
    requires forall j :: 0 <= j < |installations| && installations[j].id == installations[i].id ==> j == i
    ensures FindInstallation(installations, installations[i].id) == Some(installations[i])
  {
    var id := installations[i].id;
    assert FindIndex(installations, (inst: Installation) => HasId(id, inst)) == Some(i);
  }

  /** `installations.find(inst => inst.id === id)?.name || 'Unknown Installation'`. */
  function InstallationName(installations: seq<Installation>, id: string): (r: string)
    ensures r != UnknownInstallation ==>
      exists i :: 0 <= i < |installations| && installations[i].id == id && installations[i].name == r
    ensures (forall i :: 0 <= i < |installations| ==> installations[i].id != id) ==> r == UnknownInstallation
  {
    var found := FindInstallation(installations, id);
    NameOr(if found.Some? then Some(found.value.name) else None, UnknownInstallation)
  }

  /** `clients.find(c => c.id === clientId)?.name || 'Unknown Client'`. */
  function ClientName(clients: seq<Client>, clientId: string): (r: string)
    ensures r != UnknownClient ==>
      exists i :: 0 <= i < |clients| && clients[i].id == clientId && clients[i].name == r
    ensures (forall i :: 0 <= i < |clients| ==> clients[i].id != clientId) ==> r == UnknownClient
  {
    var found := Find(clients, (c: Client) => c.id == clientId);
    NameOr(if found.Some? then Some(found.value.name) else None, UnknownClient)
  }

  /** With unique ids, the installation lookup gives the named entry's
      name whenever that name is non-empty. */
  lemma InstallationNameFound(installations: seq<Installation>, i: nat)
    requires i < |installations|
    requires forall j :: 0 <= j < |installations| && installations[j].id == installations[i].id ==> j == i
    ensures installations[i].name != "" ==>
      InstallationName(installations, installations[i].id) == installations[i].name
  {
    FindInstallationUnique(installations, i);
  }

  /** With unique ids, the client lookup gives the named entry's name
      whenever that name is non-empty. */
  lemma ClientNameFound(clients: seq<Client>, c: nat)
    requires c < |clients|
    requires forall j :: 0 <= j < |clients| && clients[j].id == clients[c].id ==> j == c
    ensures clients[c].name != "" ==> ClientName(clients, clients[c].id) == clients[c].name
  {
    var cid := clients[c].id;
    assert FindIndex(clients, (cl: Client) => cl.id == cid) == Some(c);
  }
}
