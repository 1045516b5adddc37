/** The public status route: one record per stored config, in table order,
    built from a live query of the game server and the config's recent
    player history, or an offline record when either of those fails. */
module StatusRoute {
  import opened Schema
  import Monitor

  /** What the route learns about one config: the game server's answer, and
      whether the history read that follows it succeeded. */
  datatype Probe = Probe(query: Monitor.QueryResult, historyOk: bool)

  /** One element of the JSON array. `online` is `status: 'online'`. */
  datatype Entry = Entry(
    id: nat,
    name: string,
    gameType: string,
    serverIp: string,
    serverPort: int,
    online: bool,
    players: nat,
    maxPlayers: int,
    history: seq<Sample>)

  /** The record for one config; any failure inside the per-server `try`
      yields the offline record. */
  function EntryFor(server: ServerConfig, probe: Probe, history: seq<Sample>): (e: Entry)
    ensures e.id == server.id && e.gameType == server.gameType
    ensures e.serverIp == server.serverIp && e.serverPort == server.serverPort
  {
    if probe.query.Online? && probe.historyOk then
      var state := probe.query.state;
      Entry(server.id, state.name, server.gameType, server.serverIp, server.serverPort,
            true, |state.players|, state.maxPlayers, Recent(history, server.id))
    else
      Entry(server.id, "Unknown", server.gameType, server.serverIp, server.serverPort,
            false, 0, 0, [])
  }

  /** `servers.map(...)`, evaluated one server after another. */
  function Entries(servers: seq<ServerConfig>, probes: seq<Probe>, history: seq<Sample>): (r: seq<Entry>)
    requires |probes| == |servers|
    ensures |r| == |servers|
    ensures forall k :: 0 <= k < |servers| ==> r[k] == EntryFor(servers[k], probes[k], history)
  {
    if servers == [] then []
    else
      var n := |servers| - 1;
      var rest := Entries(servers[..n], probes[..n], history);
      assert forall k :: 0 <= k < n ==> servers[..n][k] == servers[k] && probes[..n][k] == probes[k];
      rest + [EntryFor(servers[n], probes[n], history)]
  }

  /** The route's answer: the array, or 500 when the database fails. */
  datatype StatusReply = Statuses(entries: seq<Entry>) | StatusError

  /** `GET`. */
  function GetStatus(connected: bool, servers: seq<ServerConfig>, probes: seq<Probe>, history: seq<Sample>): (r: StatusReply)
    requires |probes| == |servers|
    ensures r.StatusError? <==> !connected
    ensures connected ==> r == Statuses(Entries(servers, probes, history))
    ensures r.Statuses? ==>
      |r.entries| == |servers|
      && forall k :: 0 <= k < |servers| ==> r.entries[k] == EntryFor(servers[k], probes[k], history)
  {
    if connected then Statuses(Entries(servers, probes, history)) else StatusError
  }

  // ----------------------------------------------------------- properties

  /** An online record carries the live name and counts and the config's
      latest samples (at most 24, oldest first); an offline record is named
      "Unknown" with no players, no capacity and no history. */
  lemma EntryContents(server: ServerConfig, probe: Probe, history: seq<Sample>)
    ensures var e := EntryFor(server, probe, history);
      && (e.online <==> probe.query.Online? && probe.historyOk)
      && (e.online ==>
            e.name == probe.query.state.name
            && e.players == |probe.query.state.players|
            && e.maxPlayers == probe.query.state.maxPlayers
            && |e.history| <= HistoryLimit
            && (forall s :: s in e.history ==> s.serverConfigId == server.id)
            && e.history == Recent(history, server.id)
            && |e.history| == (if |SamplesOf(history, server.id)| <= HistoryLimit
                               then |SamplesOf(history, server.id)| else HistoryLimit)
            && e.history == SamplesOf(history, server.id)[|SamplesOf(history, server.id)| - |e.history|..])
      && (!e.online ==> e.name == "Unknown" && e.players == 0 && e.maxPlayers == 0 && e.history == [])
  {
    RecentIsBoundedSuffix(history, server.id);
  }

  /** One server's failure changes no other server's record: two probe
      lists that agree everywhere but at `j` give records that agree
      everywhere but at `j`. */
  lemma FailureIsolated(servers: seq<ServerConfig>, probes: seq<Probe>, others: seq<Probe>,
                        history: seq<Sample>, j: nat)
    requires |probes| == |servers| && |others| == |servers|
    requires forall k :: 0 <= k < |servers| && k != j ==> probes[k] == others[k]
    ensures forall k :: 0 <= k < |servers| && k != j ==>
      Entries(servers, probes, history)[k] == Entries(servers, others, history)[k]
  {
  }

  /** The array keeps the table's order: its ids are the configs' ids, in turn. */
  lemma EntriesFollowTableOrder(servers: seq<ServerConfig>, probes: seq<Probe>, history: seq<Sample>)
    requires |probes| == |servers|
    ensures var r := Entries(servers, probes, history);
      forall k :: 0 <= k < |r| ==> r[k].id == servers[k].id && r[k].serverIp == servers[k].serverIp
  {
  }
}
