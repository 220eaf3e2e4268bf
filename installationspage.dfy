/** The installations list (`src/app/installations/page.tsx`): the
    installations of the selected client (or all), each with its client's
    name and a status colour, under four summary cards. */
module InstallationsPage {
  import opened Common
  import opened Types
  import opened Seqs
  import opened Metrics
  import Api
  import MockApi
  import Catalog

  /** What `loadData` leaves behind. */
  datatype View = View(installations: seq<Installation>, clients: seq<Client>)

  /** `loadData`: the installations of the selected client, `'all'`
      meaning every client, and the client list. */
  function LoadData(b: Api.Backend, env: MockApi.Env, selectedClient: string): (v: View)
    ensures v.installations == Api.GetInstallations(b, env, SelectionArg(selectedClient))
    ensures v.clients == Api.GetClients(b, env)
  {
    View(Api.GetInstallations(b, env, SelectionArg(selectedClient)), Api.GetClients(b, env))
  }

  /** `getStatusColor`. */
  function StatusColor(status: Status): (c: string)
    ensures c == "bg-green-100 text-green-800" <==> status == Active
    ensures c == "bg-red-100 text-red-800" <==> status == Status.Error
    ensures c == "bg-yellow-100 text-yellow-800" <==> status == Maintenance
    ensures c == "bg-gray-100 text-gray-800" <==> status == Inactive
  {
    match status
    case Active => "bg-green-100 text-green-800"
    case Inactive => "bg-gray-100 text-gray-800"
    case Maintenance => "bg-yellow-100 text-yellow-800"
    case Error => "bg-red-100 text-red-800"
  }

  /** The four summary cards. */
  datatype Summary = Summary(total: nat, active: nat, totalPower: real, attention: nat)

  /** The cards: how many installations, how many running, their installed
      power, and how many need attention; the running and needs-attention
      counts never overlap, so together they are at most the total. */
  function Summarize(installations: seq<Installation>): (s: Summary)
    ensures s.total == |installations|
    ensures s.active == |ActiveInstallations(installations)|
    ensures s.attention == |AttentionInstallations(installations)|
    ensures s.totalPower == TotalInstalledPower(installations)
    ensures s.active + s.attention <= s.total
  {
    StatusCounts(installations);
    Summary(|installations|, |ActiveInstallations(installations)|,
            TotalInstalledPower(installations), |AttentionInstallations(installations)|)
  }

  /** With the backend down, every listed installation's client is found in
      the client list under the name the installation itself carries, and
      selecting a client lists only that client's installations. */
  lemma MockPageNames(b: Api.Backend, env: MockApi.Env, selectedClient: string)
    requires Api.Down(b)
    ensures var v := LoadData(b, env, selectedClient);
      (forall i :: 0 <= i < |v.installations| ==>
        ClientName(v.clients, v.installations[i].clientId) == v.installations[i].clientName) &&
      (selectedClient != "all" && selectedClient != "" ==>
        forall i :: 0 <= i < |v.installations| ==> v.installations[i].clientId == selectedClient)
  {
    var arg := SelectionArg(selectedClient);
    assert !Api.IsOk(b.installations(Api.GetRequest(Api.InstallationsEndpoint(arg))));
    assert !Api.IsOk(b.clients(Api.GetRequest(Api.ClientsPath)));
    var v := LoadData(b, env, selectedClient);
    var insts := Catalog.Installations(env.loadedAt);
    SubsequenceMembers(v.installations, insts);
    CatalogClientNames(env.loadedAt);
    forall i | 0 <= i < |v.installations|
      ensures ClientName(v.clients, v.installations[i].clientId) == v.installations[i].clientName
    {
      assert v.installations[i] in insts;
    }
  }

  /** Each catalog installation's client name is what the client list
      gives for its client id. */
  lemma CatalogClientNames(loadedAt: Minutes)
    ensures forall k :: 0 <= k < 3 ==>
      ClientName(Catalog.Clients(loadedAt), Catalog.Installations(loadedAt)[k].clientId) ==
        Catalog.Installations(loadedAt)[k].clientName
  {
    var insts, cs := Catalog.Installations(loadedAt), Catalog.Clients(loadedAt);
    Catalog.KeysResolve(loadedAt);
    ClientNameFound(cs, 0);
    ClientNameFound(cs, 1);
  }
}
