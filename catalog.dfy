/** The fixed fixture behind every mock response: three installations, two
    clients and three issues. Timestamps are taken when the module loads. */
module Catalog {
  import opened Types
  import opened Seqs

  function Installations(loadedAt: Minutes): seq<Installation> {
    [ Installation("inst-001", "Solar Farm Alpha", "client-001", "Green Energy Corp",
                   50.0, "Warsaw, Poland", Active, loadedAt),
      Installation("inst-002", "Residential Solar 1", "client-002", "John Smith",
                   10.5, "Krakow, Poland", Active, loadedAt),
      Installation("inst-003", "Industrial Solar", "client-001", "Green Energy Corp",
                   100.0, "Gdansk, Poland", Maintenance, loadedAt) ]
  }

  /** The installations whose `clientId` is `clientId`, in catalog order. */
  function InstallationsOf(loadedAt: Minutes, clientId: string): seq<Installation> {
    Filter(Installations(loadedAt), (inst: Installation) => inst.clientId == clientId)
  }

  function Clients(loadedAt: Minutes): seq<Client> {
    [ Client("client-001", "Green Energy Corp", "contact@greenenergy.com",
             InstallationsOf(loadedAt, "client-001")),
      Client("client-002", "John Smith", "john.smith@email.com",
             InstallationsOf(loadedAt, "client-002")) ]
  }

  function Issues(loadedAt: Minutes): seq<ProcessIssue> {
    [ ProcessIssue("issue-001", "inst-001", Warning,
                   "Inverter efficiency below optimal range", loadedAt - 2 * 60, false),
      ProcessIssue("issue-002", "inst-002", Info,
                   "Scheduled maintenance completed", loadedAt - 24 * 60, true),
      ProcessIssue("issue-003", "inst-003", IssueKind.Error,
                   "Communication lost with monitoring system", loadedAt - 30, false) ]
  }

  /** Installation and client ids are unique, and no key dangles: every
      installation's client and every issue's installation exist. */
  lemma KeysResolve(loadedAt: Minutes)
    ensures forall i, j :: 0 <= i < j < 3 ==> Installations(loadedAt)[i].id != Installations(loadedAt)[j].id
    ensures Clients(loadedAt)[0].id != Clients(loadedAt)[1].id
    ensures forall i :: 0 <= i < 3 ==>
      exists c :: 0 <= c < 2 && Clients(loadedAt)[c].id == Installations(loadedAt)[i].clientId
    ensures forall k :: 0 <= k < 3 ==>
      exists i :: 0 <= i < 3 && Installations(loadedAt)[i].id == Issues(loadedAt)[k].installationId
  {
    var insts, cs, iss := Installations(loadedAt), Clients(loadedAt), Issues(loadedAt);
    assert insts[0].clientId == cs[0].id && insts[1].clientId == cs[1].id && insts[2].clientId == cs[0].id;
    assert iss[0].installationId == insts[0].id;
    assert iss[1].installationId == insts[1].id;
    assert iss[2].installationId == insts[2].id;
  }

  /** Each client's installation list is the view of the catalog by its id. */
  lemma ClientViewsAgree(loadedAt: Minutes)
    ensures forall c :: 0 <= c < 2 ==>
      Clients(loadedAt)[c].installations == InstallationsOf(loadedAt, Clients(loadedAt)[c].id)
    ensures InstallationsOf(loadedAt, "client-001") == [Installations(loadedAt)[0], Installations(loadedAt)[2]]
    ensures InstallationsOf(loadedAt, "client-002") == [Installations(loadedAt)[1]]
  {
    var s := Installations(loadedAt);
    assert s[1..][1..][1..] == [];
    assert s[1..][1..] == [s[2]];
    assert s[1..] == [s[1], s[2]];
    var one := (inst: Installation) => inst.clientId == "client-001";
    var two := (inst: Installation) => inst.clientId == "client-002";
    assert Filter(s[2..], one) == [s[2]];
    assert Filter(s[1..], one) == [s[2]];
    assert Filter(s[2..], two) == [];
    assert Filter(s[1..], two) == [s[1]];
  }
}
