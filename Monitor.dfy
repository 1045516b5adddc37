/** The background status updater: one pass over every stored server
    config that queries the game server, records a player-count sample,
    reads back the recent history, composes a Discord embed and creates or
    edits the config's status message, persisting a new message id when it
    changed. The game query, the SQL statements and the Discord HTTP call
    are inputs: a query result, the statement that fails (if any) and the
    HTTP response. Both copies of the updater are modelled; `Build` selects
    the one whose embed cosmetics apply. */
module Monitor {
  import opened Schema
  import opened Text

  /** `Updater` is utils/ServerMonitor.ts (the one the runner script starts),
      `App` its near-copy under app/utils/. */
  datatype Build = Updater | App

  // ------------------------------------------------------------ game query

  datatype Player = Player(name: Option<string>)

  /** What a successful GameDig query reports. `raw` is the protocol's raw
      record when it is an object. */
  datatype GameState = GameState(
    name: string,
    players: seq<Player>,
    maxPlayers: int,
    mapName: string,
    version: Option<string>,
    ping: Option<int>,
    connect: string,
    raw: Option<map<string, string>>)

  datatype QueryResult = Online(state: GameState) | Failed

  /** The SQL statement of a row's try block that throws, if any. */
  datatype DbFault = NoFault | InsertFails | ReadFails | UpdateFails

  /** Discord's answer to a create or edit: OK with the message's id, a
      non-OK status, or a fetch that threw. */
  datatype Response = Delivered(id: string) | Rejected(status: int) | Unreachable

  /** Everything the outside world decides about one row in one pass. */
  datatype RowInput = RowInput(query: QueryResult, fault: DbFault, response: Response)

  // ------------------------------------------------------------------ embeds

  datatype Field = Field(name: string, value: string, inline: bool)

  datatype Embed = Embed(
    title: string,
    description: Option<string>,
    fields: seq<Field>,
    color: int,
    image: Option<string>,
    footer: Option<string>)

  const Blurple: int := 0x7289DA
  const DarkGrey: int := 0x2F3136
  const Red: int := 0xff0000

  const PlayersLabel: string := "\U{1F465} Players"
  const MapLabel: string := "\U{1F5FA}\U{FE0F} Map"
  const GameLabel: string := "\U{1F3F7}\U{FE0F} Game"
  const ConnectLabel: string := "\U{1F517} Connect"
  const VersionLabel: string := "\U{1F4CA} Version"
  const PingLabel: string := "\U{1F4F6} Ping"
  const ChartUrl: string := "attachment://chart.png"

  function PlayerListLabel(n: nat): string {
    "\U{1F4CB} Player List (" + NatToString(n) + ")"
  }

  function Code(s: string): string {
    "`" + s + "`"
  }

  /** `getGameType`: the raw record's `game` entry, or "N/A". */
  function GameType(state: GameState): (r: string)
    ensures state.raw.Some? && "game" in state.raw.value ==> r == state.raw.value["game"]
    ensures !(state.raw.Some? && "game" in state.raw.value) ==> r == "N/A"
  {
    if state.raw.Some? && "game" in state.raw.value then state.raw.value["game"] else "N/A"
  }

  /** `p.name || 'Unknown'`. */
  function DisplayName(p: Player): (r: string)
    ensures r != ""
  {
    if Truthy(p.name) then p.name.value else "Unknown"
  }

  function DisplayNames(players: seq<Player>): (r: seq<string>)
    ensures |r| == |players|
    ensures forall k :: 0 <= k < |players| ==> r[k] == DisplayName(players[k])
  {
    seq(|players|, k requires 0 <= k < |players| => DisplayName(players[k]))
  }

  /** The fenced, sorted, newline-joined player list before the length cut. */
  function FencedPlayerList(players: seq<Player>): string {
    "```\n" + Join(Sort(DisplayNames(players)), "\n") + "```"
  }

  /** The player-list field's value. */
  function PlayerListValue(players: seq<Player>): (r: string)
  {
    Truncate(FencedPlayerList(players))
  }

  /** The embed for a server that answered; `series` is the player counts of
      the recent history, oldest first. */
  function StatusEmbed(build: Build, state: GameState, series: seq<int>): (e: Embed)
    ensures e.title == "\U{1F3AE} " + state.name + " Server Status"
    ensures e.image == Some(ChartUrl)
    ensures e.description.Some? <==> build == Updater
    ensures e.footer.Some? <==> build == Updater
    ensures e.color == if build == Updater then Blurple else DarkGrey
  {
    var n := |state.players|;
    var head := [
      Field(PlayersLabel, Code(NatToString(n) + "/" + IntToString(state.maxPlayers)), true),
      Field(MapLabel, Code(state.mapName), true),
      Field(GameLabel, Code(GameType(state)), true)];
    var list := if n > 0 then [Field(PlayerListLabel(n), PlayerListValue(state.players), false)] else [];
    var connect := [Field(ConnectLabel, Code(state.connect), false)];
    var version := if Truthy(state.version) then [Field(VersionLabel, Code(state.version.value), true)] else [];
    var ping := if state.ping.Some? then [Field(PingLabel, Code(IntToString(state.ping.value) + "ms"), true)] else [];
    Embed(
      "\U{1F3AE} " + state.name + " Server Status",
      if build == Updater then Some("Player count trend: " + Code(Join(Decimals(series), ","))) else None,
      head + list + connect + version + ping,
      if build == Updater then Blurple else DarkGrey,
      Some(ChartUrl),
      if build == Updater then Some("Player count updated every minute") else None)
  }

  function Decimals(series: seq<int>): (r: seq<string>)
    ensures |r| == |series|
  {
    seq(|series|, k requires 0 <= k < |series| => IntToString(series[k]))
  }

  /** The embed sent when anything in a row's handling throws. */
  function ErrorEmbed(row: ServerConfig): (e: Embed)
    ensures e.title == "Server Status Error" && e.fields == [] && e.color == Red
    ensures e.image.None? && e.footer.None?
    ensures e.description == Some("Unable to query the game server at " + row.serverIp + ":" + IntToString(row.serverPort))
  {
    Embed(
      "Server Status Error",
      Some("Unable to query the game server at " + row.serverIp + ":" + IntToString(row.serverPort)),
      [], Red, None, None)
  }

  // ----------------------------------------------------------- sending

  datatype Verb = Post | Patch

  /** What an embed is built from: a status embed from the query result and
      the recent history, an error embed from the row. */
  datatype Payload = Status(build: Build, state: GameState, series: seq<int>) | Error(row: ServerConfig)

  function EmbedOf(p: Payload): Embed {
    match p
    case Status(build, state, series) => StatusEmbed(build, state, series)
    case Error(row) => ErrorEmbed(row)
  }

  /** One request to Discord: its verb, its URL, the payload whose embed it
      carries, and the series the attached chart image plots (`None` when no
      image is attached). */
  datatype Send = Send(verb: Verb, url: string, payload: Payload, chart: Option<seq<int>>)

  const ApiBase: string := "https://discord.com/api/v10"

  function MessagesUrl(channelId: string): string {
    ApiBase + "/channels/" + channelId + "/messages"
  }

  /** `sendOrUpdateDiscordMessage`: the request it makes and the id it
      returns (`null` is `None`). */
  function SendOrUpdate(channelId: string, payload: Payload, messageId: Option<string>,
                        chart: Option<seq<int>>, response: Response): (r: (Send, Option<string>))
    ensures r.0.verb == Patch <==> Truthy(messageId)
    ensures r.0.url == if Truthy(messageId) then MessagesUrl(channelId) + "/" + messageId.value
                       else MessagesUrl(channelId)
    ensures r.0.payload == payload && r.0.chart == chart
    ensures r.1.Some? <==> response.Delivered?
    ensures response.Delivered? ==> r.1 == Some(response.id)
  {
    var edit := Truthy(messageId);
    var send := Send(if edit then Patch else Post,
                     if edit then MessagesUrl(channelId) + "/" + messageId.value else MessagesUrl(channelId),
                     payload, chart);
    (send, if response.Delivered? then Some(response.id) else None)
  }

  /** The error embed for `row`, sent with the row's stored message id and
      no chart; its result is ignored. */
  function ErrorSend(row: ServerConfig): Send {
    SendOrUpdate(row.channelId, Error(row), row.messageId, None, Unreachable).0
  }

  /** `messageId && messageId !== row.message_id`. */
  predicate ShouldPersist(got: Option<string>, stored: Option<string>) {
    Truthy(got) && got != stored
  }

  // --------------------------------------------------------- one row

  /** What handling one row does: the sample it appends, the requests it
      sends, and the message id it writes back. */
  datatype Effect = Effect(sample: Option<Sample>, sends: seq<Send>, persisted: Option<string>)

  function RowEffect(build: Build, row: ServerConfig, input: RowInput, history: seq<Sample>): (e: Effect)
    ensures 1 <= |e.sends| <= 2
    ensures e.sample == AppendedSample(row, input)
    ensures e.persisted.Some? ==>
      input.response.Delivered? && e.persisted == Some(input.response.id) && ShouldPersist(e.persisted, row.messageId)
  {
    RowEffectWith(build, row, input, SeriesAfter(row, input, history))
  }

  /** The player counts the history read returns once the row's sample is
      in: what the chart plots and the embed's trend lists. */
  function SeriesAfter(row: ServerConfig, input: RowInput, history: seq<Sample>): seq<int> {
    match input.query
    case Failed => []
    case Online(state) => Counts(Recent(history + [Sample(row.id, |state.players|)], row.id))
  }

  /** The row's handling once the recent history (`series`) is known. */
  function RowEffectWith(build: Build, row: ServerConfig, input: RowInput, series: seq<int>): (e: Effect)
    ensures 1 <= |e.sends| <= 2
    ensures e.sample == AppendedSample(row, input)
    ensures e.persisted.Some? ==>
      input.response.Delivered? && e.persisted == Some(input.response.id) && ShouldPersist(e.persisted, row.messageId)
  {
    match input.query
    case Failed => Effect(None, [ErrorSend(row)], None)
    case Online(state) =>
      if input.fault == InsertFails then Effect(None, [ErrorSend(row)], None)
      else
        var sample := Sample(row.id, |state.players|);
        if input.fault == ReadFails then Effect(Some(sample), [ErrorSend(row)], None)
        else
          var (send, got) := SendOrUpdate(row.channelId, Status(build, state, series),
                                          row.messageId, Some(series), input.response);
          if !ShouldPersist(got, row.messageId) then Effect(Some(sample), [send], None)
          else if input.fault == UpdateFails then Effect(Some(sample), [send, ErrorSend(row)], None)
          else Effect(Some(sample), [send], got)
  }

  /** `UPDATE server_configs SET message_id = $1 WHERE id = $2`. */
  function SetMessageId(configs: seq<ServerConfig>, id: nat, messageId: string): (r: seq<ServerConfig>)
    ensures |r| == |configs|
    ensures forall k :: 0 <= k < |r| ==> r[k].id == configs[k].id
    ensures forall k :: 0 <= k < |r| ==>
      r[k] == if configs[k].id == id then configs[k].(messageId := Some(messageId)) else configs[k]
  {
    seq(|configs|, k requires 0 <= k < |configs| =>
      if configs[k].id == id then configs[k].(messageId := Some(messageId)) else configs[k])
  }

  // --------------------------------------------------------- one pass

  /** The tables and the requests sent so far. */
  datatype World = World(configs: seq<ServerConfig>, history: seq<Sample>, sends: seq<Send>)

  function Step(build: Build, w: World, row: ServerConfig, input: RowInput): World {
    var e := RowEffect(build, row, input, w.history);
    World(
      if e.persisted.Some? then SetMessageId(w.configs, row.id, e.persisted.value) else w.configs,
      if e.sample.Some? then w.history + [e.sample.value] else w.history,
      w.sends + e.sends)
  }

  /** The `for (const row of result.rows)` loop over the rows listed at the
      start of the pass. */
  function Run(build: Build, rows: seq<ServerConfig>, inputs: seq<RowInput>, w: World): (r: World)
    requires |inputs| == |rows|
    ensures |r.configs| == |w.configs|
    ensures |w.history| <= |r.history| <= |w.history| + |rows|
    ensures |w.sends| + |rows| <= |r.sends| <= |w.sends| + 2 * |rows|
  {
    if rows == [] then w
    else
      var n := |rows| - 1;
      Step(build, Run(build, rows[..n], inputs[..n], w), rows[n], inputs[n])
  }

  /** `updateGameStatus`: no connection (or no listing) means nothing happens. */
  function Pass(build: Build, connected: bool, configs: seq<ServerConfig>, history: seq<Sample>,
                inputs: seq<RowInput>): (r: World)
    requires |inputs| == |configs|
    ensures !connected ==> r == World(configs, history, [])
    ensures |r.configs| == |configs| && |history| <= |r.history| <= |history| + |configs|
    ensures connected ==> |configs| <= |r.sends| <= 2 * |configs|
  {
    if connected then Run(build, configs, inputs, World(configs, history, []))
    else World(configs, history, [])
  }

  method UpdateGameStatus(db: Database, build: Build, connected: bool, inputs: seq<RowInput>)
    returns (sends: seq<Send>)
    requires db.Valid() && |inputs| == |db.configs|
    modifies db
    ensures db.Valid() && db.nextId == old(db.nextId)
    ensures World(db.configs, db.history, sends) == Pass(build, connected, old(db.configs), old(db.history), inputs)
  {
    sends := [];
    if !connected {
      return;
    }
    var rows := db.configs;
    for k := 0 to |rows|
      invariant db.Valid() && db.nextId == old(db.nextId)
      invariant World(db.configs, db.history, sends) == Run(build, rows[..k], inputs[..k], World(rows, old(db.history), []))
    {
      ghost var before := World(db.configs, db.history, sends);
      var rowSends := UpdateRow(db, build, rows[k], inputs[k]);
      sends := sends + rowSends;
      RunExtend(build, rows, inputs, k, World(rows, old(db.history), []));
    }
    assert rows[..|rows|] == rows && inputs[..|rows|] == inputs;
  }

  lemma RunExtend(build: Build, rows: seq<ServerConfig>, inputs: seq<RowInput>, k: nat, w: World)
    requires |inputs| == |rows| && k < |rows|
    ensures Run(build, rows[..k + 1], inputs[..k + 1], w) == Step(build, Run(build, rows[..k], inputs[..k], w), rows[k], inputs[k])
  {
    assert rows[..k + 1][..k] == rows[..k] && inputs[..k + 1][..k] == inputs[..k];
  }

  /** The body of the loop for one row, with its try/catch. */
  method UpdateRow(db: Database, build: Build, row: ServerConfig, input: RowInput)
    returns (sends: seq<Send>)
    requires db.Valid()
    modifies db
    ensures db.Valid() && db.nextId == old(db.nextId)
    ensures var e := RowEffect(build, row, input, old(db.history));
      && sends == e.sends
      && db.history == (if e.sample.Some? then old(db.history) + [e.sample.value] else old(db.history))
      && db.configs == (if e.persisted.Some? then SetMessageId(old(db.configs), row.id, e.persisted.value) else old(db.configs))
  {
    match input.query {
      case Failed =>
        sends := [ErrorSend(row)];
      case Online(state) =>
        if input.fault == InsertFails {
          sends := [ErrorSend(row)];
        } else {
          var sample := Sample(row.id, |state.players|);
          db.history := db.history + [sample];
          if input.fault == ReadFails {
            sends := [ErrorSend(row)];
          } else {
            var series := Counts(Recent(db.history, row.id));
            var (send, got) := SendOrUpdate(row.channelId, Status(build, state, series), row.messageId, Some(series), input.response);
            sends := [send];
            if ShouldPersist(got, row.messageId) {
              if input.fault == UpdateFails {
                sends := sends + [ErrorSend(row)];
              } else {
                db.configs := SetMessageId(db.configs, row.id, got.value);
              }
            }
          }
        }
    }
  }

  // ------------------------------------------------ what a pass amounts to

  /** The sample handling `row` appends: one with the player count, unless
      the query or the insert failed. */
  function AppendedSample(row: ServerConfig, input: RowInput): (r: Option<Sample>)
    ensures r.Some? ==> r.value.serverConfigId == row.id
  {
    match input.query
    case Failed => None
    case Online(state) => if input.fault == InsertFails then None else Some(Sample(row.id, |state.players|))
  }

  function AsSeq(o: Option<Sample>): seq<Sample> {
    if o.Some? then [o.value] else []
  }

  /** The samples a pass appends, in row order. */
  function NewSamples(rows: seq<ServerConfig>, inputs: seq<RowInput>): seq<Sample>
    requires |inputs| == |rows|
  {
    if rows == [] then []
    else
      var n := |rows| - 1;
      NewSamples(rows[..n], inputs[..n]) + AsSeq(AppendedSample(rows[n], inputs[n]))
  }

  /** The requests a pass sends when every row reads the history as it was
      before the pass. */
  function AllSends(build: Build, rows: seq<ServerConfig>, inputs: seq<RowInput>, history: seq<Sample>): seq<Send>
    requires |inputs| == |rows|
  {
    if rows == [] then []
    else
      var n := |rows| - 1;
      AllSends(build, rows[..n], inputs[..n], history) + RowEffect(build, rows[n], inputs[n], history).sends
  }

  /** The message id a row holds after its handling. */
  function NewMessageId(build: Build, row: ServerConfig, input: RowInput, history: seq<Sample>): Option<string> {
    var e := RowEffect(build, row, input, history);
    if e.persisted.Some? then e.persisted else row.messageId
  }

  /** A row's handling sees the history only through that config's own samples. */
  lemma RowEffectLocal(build: Build, row: ServerConfig, input: RowInput, h1: seq<Sample>, h2: seq<Sample>)
    requires SamplesOf(h1, row.id) == SamplesOf(h2, row.id)
    ensures RowEffect(build, row, input, h1) == RowEffect(build, row, input, h2)
  {
    SeriesLocal(row, input, h1, h2);
  }

  /** The series a row plots depends on the history only through that
      config's own samples. */
  lemma SeriesLocal(row: ServerConfig, input: RowInput, h1: seq<Sample>, h2: seq<Sample>)
    requires SamplesOf(h1, row.id) == SamplesOf(h2, row.id)
    ensures SeriesAfter(row, input, h1) == SeriesAfter(row, input, h2)
  {
    if input.query.Online? {
      var s := Sample(row.id, |input.query.state.players|);
      assert (h1 + [s])[..|h1|] == h1 && (h2 + [s])[..|h2|] == h2;
      assert SamplesOf(h1 + [s], row.id) == SamplesOf(h2 + [s], row.id);
    }
  }

  lemma RowSample(build: Build, row: ServerConfig, input: RowInput, history: seq<Sample>)
    ensures RowEffect(build, row, input, history).sample == AppendedSample(row, input)
  {
  }

  lemma {:induction false} NewSamplesOtherIds(rows: seq<ServerConfig>, inputs: seq<RowInput>, id: nat)
    requires |inputs| == |rows|
    requires forall j :: 0 <= j < |rows| ==> rows[j].id != id
    ensures forall s :: s in NewSamples(rows, inputs) ==> s.serverConfigId != id
  {
    if rows != [] {
      var n := |rows| - 1;
      NewSamplesOtherIds(rows[..n], inputs[..n], id);
    }
  }

  /** The samples a pass appends are those of the rows whose query and
      insert succeeded, in row order. */
  lemma {:induction false} RunHistory(build: Build, rows: seq<ServerConfig>, inputs: seq<RowInput>, w: World)
    requires |inputs| == |rows|
    ensures Run(build, rows, inputs, w).history == w.history + NewSamples(rows, inputs)
  {
    if rows == [] {
      assert w.history + [] == w.history;
    } else {
      var m := |rows| - 1;
      RunHistory(build, rows[..m], inputs[..m], w);
      RowSample(build, rows[m], inputs[m], Run(build, rows[..m], inputs[..m], w).history);
    }
  }

  /** The history a row sees during the pass holds the same samples of its
      own config as the history before the pass. */
  lemma HistorySeenByRow(build: Build, rows: seq<ServerConfig>, inputs: seq<RowInput>, w: World)
    requires UniqueIds(rows) && |inputs| == |rows| && rows != []
    ensures var m := |rows| - 1;
      SamplesOf(Run(build, rows[..m], inputs[..m], w).history, rows[m].id) == SamplesOf(w.history, rows[m].id)
  {
    var m := |rows| - 1;
    RunHistory(build, rows[..m], inputs[..m], w);
    NewSamplesOtherIds(rows[..m], inputs[..m], rows[m].id);
    SamplesOfOtherAppend(w.history, NewSamples(rows[..m], inputs[..m]), rows[m].id);
  }

  /** The requests a pass sends are each row's own requests, computed from
      the history as it stood before the pass, in row order. */
  lemma {:induction false} RunSends(build: Build, rows: seq<ServerConfig>, inputs: seq<RowInput>, w: World)
    requires UniqueIds(rows) && |inputs| == |rows|
    ensures Run(build, rows, inputs, w).sends == w.sends + AllSends(build, rows, inputs, w.history)
  {
    if rows == [] {
      assert w.sends + [] == w.sends;
    } else {
      var m := |rows| - 1;
      RunSends(build, rows[..m], inputs[..m], w);
      var before := Run(build, rows[..m], inputs[..m], w);
      HistorySeenByRow(build, rows, inputs, w);
      RowEffectLocal(build, rows[m], inputs[m], before.history, w.history);
      StepSends(build, before, rows[m], inputs[m]);
      AppendAssoc(w.sends, AllSends(build, rows[..m], inputs[..m], w.history),
                  RowEffect(build, rows[m], inputs[m], w.history).sends);
    }
  }

  lemma AppendAssoc(a: seq<Send>, b: seq<Send>, c: seq<Send>)
    ensures (a + b) + c == a + (b + c)
  {
  }

  lemma StepSends(build: Build, w: World, row: ServerConfig, input: RowInput)
    ensures Step(build, w, row, input).sends == w.sends + RowEffect(build, row, input, w.history).sends
  {
  }

  /** Each row's message id is changed by its own handling only. */
  lemma {:induction false} RunConfigs(build: Build, table: seq<ServerConfig>, rows: seq<ServerConfig>,
                                      inputs: seq<RowInput>, history: seq<Sample>)
    requires UniqueIds(table) && |inputs| == |rows| && |rows| <= |table| && rows == table[..|rows|]
    ensures var after := Run(build, rows, inputs, World(table, history, [])).configs;
      && |after| == |table|
      && forall k :: 0 <= k < |table| ==>
           after[k] == if k < |rows| then rows[k].(messageId := NewMessageId(build, rows[k], inputs[k], history))
                       else table[k]
  {
    if rows != [] {
      var m := |rows| - 1;
      var w := World(table, history, []);
      assert rows[..m] == table[..m];
      RunConfigs(build, table, rows[..m], inputs[..m], history);
      var before := Run(build, rows[..m], inputs[..m], w);
      HistorySeenByRow(build, rows, inputs, w);
      RowEffectLocal(build, rows[m], inputs[m], before.history, history);
      var e := RowEffect(build, rows[m], inputs[m], history);
      var after := Run(build, rows, inputs, w).configs;
      assert after == if e.persisted.Some? then SetMessageId(before.configs, rows[m].id, e.persisted.value)
                      else before.configs;
      forall k | 0 <= k < |table|
        ensures after[k] == if k < |rows| then rows[k].(messageId := NewMessageId(build, rows[k], inputs[k], history))
                            else table[k]
      {
        if k != m {
          assert before.configs[k].id == table[k].id != rows[m].id;
        }
      }
    }
  }

  /** One pass in closed form: no row's outcome depends on another row's input. */
  lemma PassClosedForm(build: Build, configs: seq<ServerConfig>, history: seq<Sample>, inputs: seq<RowInput>)
    requires UniqueIds(configs) && |inputs| == |configs|
    ensures var w := Pass(build, true, configs, history, inputs);
      && w.history == history + NewSamples(configs, inputs)
      && w.sends == AllSends(build, configs, inputs, history)
      && |w.configs| == |configs|
      && forall k :: 0 <= k < |configs| ==>
           w.configs[k] == configs[k].(messageId := NewMessageId(build, configs[k], inputs[k], history))
  {
    assert configs[..|configs|] == configs;
    RunHistory(build, configs, inputs, World(configs, history, []));
    RunSends(build, configs, inputs, World(configs, history, []));
    RunConfigs(build, configs, configs, inputs, history);
    assert [] + AllSends(build, configs, inputs, history) == AllSends(build, configs, inputs, history);
  }

  /** `SamplesOf` distributes over appending. */
  lemma {:induction false} SamplesOfAppend(a: seq<Sample>, b: seq<Sample>, id: nat)
    ensures SamplesOf(a + b, id) == SamplesOf(a, id) + SamplesOf(b, id)
    decreases |b|
  {
    if b == [] {
      assert a + b == a;
    } else {
      var b' := b[..|b| - 1];
      assert (a + b)[..|a + b| - 1] == a + b';
      SamplesOfAppend(a, b', id);
    }
  }

  lemma {:induction false} NewSamplesOfRow(rows: seq<ServerConfig>, inputs: seq<RowInput>, k: nat)
    requires UniqueIds(rows) && |inputs| == |rows| && k < |rows|
    ensures SamplesOf(NewSamples(rows, inputs), rows[k].id) == AsSeq(AppendedSample(rows[k], inputs[k]))
  {
    var n := |rows| - 1;
    var id := rows[k].id;
    var pre := NewSamples(rows[..n], inputs[..n]);
    var own := AppendedSample(rows[n], inputs[n]);
    assert NewSamples(rows, inputs) == pre + AsSeq(own);
    SamplesOfAppend(pre, AsSeq(own), id);
    SamplesOfAsSeq(own, id);
    UniqueIdsPrefix(rows, n);
    if k == n {
      NewSamplesOtherIds(rows[..n], inputs[..n], id);
      SamplesOfOtherAppend([], pre, id);
      assert [] + pre == pre;
      assert SamplesOf(pre, id) == [];
    } else {
      NewSamplesOfRow(rows[..n], inputs[..n], k);
      assert rows[..n][k] == rows[k] && inputs[..n][k] == inputs[k];
      assert SamplesOf(AsSeq(own), id) == [];
    }
  }

  /** A prefix of a table with unique ids has unique ids, none of them the
      id of the row after it. */
  lemma UniqueIdsPrefix(rows: seq<ServerConfig>, n: nat)
    requires UniqueIds(rows) && n < |rows|
    ensures UniqueIds(rows[..n])
    ensures forall j :: 0 <= j < n ==> rows[..n][j].id != rows[n].id
  {
  }

  /** The samples of `id` among at most one sample. */
  lemma SamplesOfAsSeq(o: Option<Sample>, id: nat)
    ensures SamplesOf(AsSeq(o), id) == if o.Some? && o.value.serverConfigId == id then AsSeq(o) else []
  {
    if o.Some? {
      assert AsSeq(o)[..0] == [];
    }
  }

  /** Per config, a pass records exactly one new sample, carrying the number
      of players the query reported, when the query and the insert
      succeeded, and none otherwise; older samples are kept. */
  lemma PassRecordsOneSamplePerConfig(build: Build, configs: seq<ServerConfig>, history: seq<Sample>,
                                      inputs: seq<RowInput>, k: nat)
    requires UniqueIds(configs) && |inputs| == |configs| && k < |configs|
    ensures var after := Pass(build, true, configs, history, inputs).history;
      SamplesOf(after, configs[k].id) == SamplesOf(history, configs[k].id) +
        (match inputs[k].query
         case Online(state) =>
           if inputs[k].fault == InsertFails then [] else [Sample(configs[k].id, |state.players|)]
         case Failed => [])
  {
    PassClosedForm(build, configs, history, inputs);
    SamplesOfAppend(history, NewSamples(configs, inputs), configs[k].id);
    NewSamplesOfRow(configs, inputs, k);
  }

  /** A pass changes only message ids, and a row's id changes exactly when
      its status message went out, came back with a non-empty id different
      from the stored one, and the UPDATE succeeded; it then holds that id.
      A failed query or any failure before the send leaves it as it was. */
  lemma PassMessageIds(build: Build, configs: seq<ServerConfig>, history: seq<Sample>,
                       inputs: seq<RowInput>, k: nat)
    requires UniqueIds(configs) && |inputs| == |configs| && k < |configs|
    ensures var after := Pass(build, true, configs, history, inputs).configs;
      && |after| == |configs|
      && after[k] == configs[k].(messageId := after[k].messageId)
      && (after[k].messageId != configs[k].messageId <==>
            inputs[k].query.Online? && inputs[k].fault == NoFault && inputs[k].response.Delivered?
            && inputs[k].response.id != "" && Some(inputs[k].response.id) != configs[k].messageId)
      && (after[k].messageId != configs[k].messageId ==> after[k].messageId == Some(inputs[k].response.id))
  {
    assert configs[..|configs|] == configs && inputs[..|configs|] == inputs;
    RunConfigs(build, configs, configs, inputs, history);
    NewMessageIdCases(build, configs[k], inputs[k], history);
  }

  /** The message id a row holds after its handling differs from the stored
      one exactly when a non-empty, different id came back and nothing failed. */
  lemma NewMessageIdCases(build: Build, row: ServerConfig, input: RowInput, history: seq<Sample>)
    ensures var m := NewMessageId(build, row, input, history);
      && (m != row.messageId <==>
            input.query.Online? && input.fault == NoFault && input.response.Delivered?
            && input.response.id != "" && Some(input.response.id) != row.messageId)
      && (m != row.messageId ==> m == Some(input.response.id))
  {
  }

  /** Each row sends one or two requests. The first is an edit of the stored
      message exactly when one is stored, and a create otherwise. A second
      one is sent only when the UPDATE of a new id failed: the error embed,
      again against the old stored id. Error embeds are red and carry no chart. */
  lemma RowSends(build: Build, row: ServerConfig, input: RowInput, history: seq<Sample>)
    ensures var sends := RowEffect(build, row, input, history).sends;
      && 1 <= |sends| <= 2
      && (forall k :: 0 <= k < |sends| ==>
            (sends[k].verb == Patch <==> Truthy(row.messageId))
            && sends[k].url == (if Truthy(row.messageId) then MessagesUrl(row.channelId) + "/" + row.messageId.value
                                else MessagesUrl(row.channelId)))
      && (|sends| == 2 <==>
            (input.query.Online? && input.fault == UpdateFails && input.response.Delivered?
             && input.response.id != "" && Some(input.response.id) != row.messageId))
      && (|sends| == 2 ==> sends[1] == ErrorSend(row))
      && (sends[0].chart.None? <==> input.query.Failed? || input.fault in {InsertFails, ReadFails})
  {
  }

  /** A failure while handling a row (the query, the insert or the history
      read) sends only the red error embed naming `ip:port`, without a
      chart, and records no new message id. */
  lemma FailureSendsErrorEmbed(build: Build, row: ServerConfig, input: RowInput, history: seq<Sample>)
    requires input.query.Failed? || input.fault == InsertFails || input.fault == ReadFails
    ensures var e := RowEffect(build, row, input, history);
      && e.sends == [ErrorSend(row)]
      && e.persisted.None?
      && EmbedOf(e.sends[0].payload).color == Red
      && EmbedOf(e.sends[0].payload).fields == []
      && e.sends[0].chart.None? && EmbedOf(e.sends[0].payload).image.None?
      && EmbedOf(e.sends[0].payload).description == Some("Unable to query the game server at " + row.serverIp + ":" + IntToString(row.serverPort))
  {
  }

  /** A successful status send carries the history that includes the sample
      just recorded: the chart plots at most 24 counts, the last of which is
      the current player count. */
  lemma StatusSendCarriesFreshHistory(build: Build, row: ServerConfig, input: RowInput, history: seq<Sample>)
    requires input.query.Online? && input.fault != InsertFails && input.fault != ReadFails
    ensures var sends := RowEffect(build, row, input, history).sends;
      && |sends| >= 1 && sends[0].chart.Some?
      && var series := sends[0].chart.value;
      && 1 <= |series| <= HistoryLimit
      && series[|series| - 1] == |input.query.state.players|
      && sends[0].payload == Status(build, input.query.state, series)
  {
    var count := |input.query.state.players|;
    RecentAfterAppend(history, row.id, count);
    RecentIsBoundedSuffix(history + [Sample(row.id, count)], row.id);
    var series := SeriesAfter(row, input, history);
    assert 1 <= |series| <= HistoryLimit && series[|series| - 1] == count;
    StatusSendFirst(build, row, input, series);
  }

  /** The first request of a row whose query, insert and read succeeded is
      the status embed over `series`, with `series` as its chart. */
  lemma StatusSendFirst(build: Build, row: ServerConfig, input: RowInput, series: seq<int>)
    requires input.query.Online? && input.fault != InsertFails && input.fault != ReadFails
    ensures var sends := RowEffectWith(build, row, input, series).sends;
      |sends| >= 1 && sends[0].chart == Some(series) && sends[0].payload == Status(build, input.query.state, series)
  {
  }

  /** A server that has no stored message and stays unreachable gets a new
      error message created on every pass: the error branch ignores the id
      Discord returns, so message_id stays NULL and the next pass creates
      again. */
  lemma UnreachableWithoutMessageCreatesEveryPass(build: Build, configs: seq<ServerConfig>, history: seq<Sample>,
                                                  first: seq<RowInput>, second: seq<RowInput>, k: nat)
    requires UniqueIds(configs) && |first| == |configs| && |second| == |configs| && k < |configs|
    requires configs[k].messageId == None && first[k].query.Failed? && second[k].query.Failed?
    ensures var w1 := Pass(build, true, configs, history, first);
      && |w1.configs| == |configs|
      && w1.configs[k].messageId == None
      && |Pass(build, true, w1.configs, w1.history, second).configs| == |configs|
      && Pass(build, true, w1.configs, w1.history, second).configs[k].messageId == None
      && RowEffect(build, w1.configs[k], second[k], w1.history).sends[0].verb == Post
      && RowEffect(build, configs[k], first[k], history).sends[0].verb == Post
  {
    PassMessageIds(build, configs, history, first, k);
    var w1 := Pass(build, true, configs, history, first);
    assert UniqueIds(w1.configs) by {
      PassClosedForm(build, configs, history, first);
    }
    PassMessageIds(build, w1.configs, w1.history, second, k);
  }

  // ------------------------------------------------------- embed contents

  /** The status embed's fields, in order: Players "n/max", Map, Game (the
      raw `game` or "N/A"), the player list only when someone is online,
      Connect, Version only when it is a non-empty string, Ping only when
      reported. */
  lemma StatusEmbedFields(build: Build, state: GameState, series: seq<int>)
    ensures var f := StatusEmbed(build, state, series).fields;
      var n := |state.players|;
      var list := if n > 0 then 1 else 0;
      && |f| == 4 + list + (if Truthy(state.version) then 1 else 0) + (if state.ping.Some? then 1 else 0)
      && f[0] == Field(PlayersLabel, Code(NatToString(n) + "/" + IntToString(state.maxPlayers)), true)
      && f[1] == Field(MapLabel, Code(state.mapName), true)
      && f[2] == Field(GameLabel, Code(if state.raw.Some? && "game" in state.raw.value then state.raw.value["game"] else "N/A"), true)
      && (n > 0 ==> f[3] == Field(PlayerListLabel(n), PlayerListValue(state.players), false))
      && f[3 + list] == Field(ConnectLabel, Code(state.connect), false)
      && (Truthy(state.version) ==> f[4 + list] == Field(VersionLabel, Code(state.version.value), true))
      && (state.ping.Some? ==> f[|f| - 1] == Field(PingLabel, Code(IntToString(state.ping.value) + "ms"), true))
  {
    var n := |state.players|;
    var head := [
      Field(PlayersLabel, Code(NatToString(n) + "/" + IntToString(state.maxPlayers)), true),
      Field(MapLabel, Code(state.mapName), true),
      Field(GameLabel, Code(GameType(state)), true)];
    var list := if n > 0 then [Field(PlayerListLabel(n), PlayerListValue(state.players), false)] else [];
    var connect := [Field(ConnectLabel, Code(state.connect), false)];
    var version := if Truthy(state.version) then [Field(VersionLabel, Code(state.version.value), true)] else [];
    var ping := if state.ping.Some? then [Field(PingLabel, Code(IntToString(state.ping.value) + "ms"), true)] else [];
    assert StatusEmbed(build, state, series).fields == head + list + connect + version + ping;
    FieldLayout(head, list, connect, version, ping);
  }

  /** Indexing into the concatenation the embed's fields are built from. */
  lemma FieldLayout(head: seq<Field>, list: seq<Field>, connect: seq<Field>, version: seq<Field>, ping: seq<Field>)
    requires |head| == 3 && |list| <= 1 && |connect| == 1 && |version| <= 1 && |ping| <= 1
    ensures var f := head + list + connect + version + ping;
      && |f| == 4 + |list| + |version| + |ping|
      && f[0] == head[0] && f[1] == head[1] && f[2] == head[2]
      && (|list| == 1 ==> f[3] == list[0])
      && f[3 + |list|] == connect[0]
      && (|version| == 1 ==> f[4 + |list|] == version[0])
      && (|ping| == 1 ==> f[|f| - 1] == ping[0])
  {
  }

  /** The player list is the players' names (a missing or empty name shown
      as "Unknown"), sorted, one per line inside a code fence, cut to 1021
      characters plus "..." when it would exceed Discord's 1024-character
      field limit. */
  lemma PlayerListShape(players: seq<Player>)
    ensures var v := PlayerListValue(players);
      var names := Sort(DisplayNames(players));
      var full := "```\n" + Join(names, "\n") + "```";
      && Sorted(names) && multiset(names) == multiset(DisplayNames(players))
      && (forall k :: 0 <= k < |players| ==> DisplayNames(players)[k] == (if Truthy(players[k].name) then players[k].name.value else "Unknown"))
      && |v| <= 1024
      && (|full| <= 1024 ==> v == full)
      && (|full| > 1024 ==> v == full[..1021] + "...")
  {
  }

  /** The player list does not depend on the order the query lists the
      players in. */
  lemma PlayerListOrderIndependent(players: seq<Player>, others: seq<Player>)
    requires multiset(DisplayNames(players)) == multiset(DisplayNames(others))
    ensures PlayerListValue(players) == PlayerListValue(others)
  {
    SortPermutationInvariant(DisplayNames(players), DisplayNames(others));
  }

  /** The two copies of the updater build the same fields; the updater
      adds the trend line and the footer and uses Discord's blurple, the
      copy under app/ uses a dark grey and neither extra. */
  lemma BuildsDifferOnlyInCosmetics(state: GameState, series: seq<int>)
    ensures StatusEmbed(App, state, series)
         == StatusEmbed(Updater, state, series).(description := None, color := DarkGrey, footer := None)
    ensures StatusEmbed(Updater, state, series).description
         == Some("Player count trend: `" + Join(Decimals(series), ",") + "`")
    ensures StatusEmbed(Updater, state, series).color == Blurple
    ensures StatusEmbed(Updater, state, series).footer.Some?
    ensures StatusEmbed(Updater, state, series).image == Some(ChartUrl)
  {
    var j := Join(Decimals(series), ",");
    assert "Player count trend: " + Code(j) == "Player count trend: `" + j + "`";
  }

  // ------------------------------------------------------- a whole scenario

  /** The samples of a pass over three rows: row 1's, then row 2's, then row 3's. */
  lemma ThreeRowSamples(rows: seq<ServerConfig>, inputs: seq<RowInput>)
    requires |rows| == 3 && |inputs| == 3
    ensures NewSamples(rows, inputs)
         == AsSeq(AppendedSample(rows[0], inputs[0])) + AsSeq(AppendedSample(rows[1], inputs[1]))
            + AsSeq(AppendedSample(rows[2], inputs[2]))
  {
    assert rows[..2][..1] == rows[..1] && rows[..1][..0] == [];
    assert inputs[..2][..1] == inputs[..1] && inputs[..1][..0] == [];
    assert NewSamples(rows[..1], inputs[..1]) == AsSeq(AppendedSample(rows[0], inputs[0]));
  }

  /** The requests of a pass over three rows: row 1's, then row 2's, then row 3's. */
  lemma ThreeRowSends(build: Build, rows: seq<ServerConfig>, inputs: seq<RowInput>, history: seq<Sample>)
    requires |rows| == 3 && |inputs| == 3
    ensures AllSends(build, rows, inputs, history)
         == RowEffect(build, rows[0], inputs[0], history).sends + RowEffect(build, rows[1], inputs[1], history).sends
            + RowEffect(build, rows[2], inputs[2], history).sends
  {
    assert rows[..2][..1] == rows[..1] && rows[..1][..0] == [];
    assert inputs[..2][..1] == inputs[..1] && inputs[..1][..0] == [];
    assert AllSends(build, rows[..1], inputs[..1], history) == RowEffect(build, rows[0], inputs[0], history).sends;
  }

  /** The three-server scenario: configs A, B and C (ids 1, 2, 3), none
      with a stored message; A and C answer with 5 and 12 players, B does
      not answer. */
  predicate ThreeServers(rows: seq<ServerConfig>, inputs: seq<RowInput>) {
    && |rows| == 3 && rows[0].id == 1 && rows[1].id == 2 && rows[2].id == 3
    && (forall k :: 0 <= k < 3 ==> rows[k].messageId == None)
    && |inputs| == 3
    && inputs[0].query.Online? && |inputs[0].query.state.players| == 5
    && inputs[0].fault == NoFault && inputs[0].response == Delivered("m1")
    && inputs[1].query.Failed?
    && inputs[2].query.Online? && |inputs[2].query.state.players| == 12
    && inputs[2].fault == NoFault && inputs[2].response == Delivered("m3")
  }

  /** The pass records two samples, A's and then C's. */
  lemma ThreeServerHistory(build: Build, history: seq<Sample>, rows: seq<ServerConfig>, inputs: seq<RowInput>)
    requires ThreeServers(rows, inputs)
    ensures Pass(build, true, rows, history, inputs).history == history + [Sample(1, 5), Sample(3, 12)]
  {
    PassHistory(build, rows, history, inputs);
    ThreeRowSamples(rows, inputs);
  }

  /** The history after a pass: the samples of the rows whose query and
      insert succeeded, appended in row order. */
  lemma PassHistory(build: Build, configs: seq<ServerConfig>, history: seq<Sample>, inputs: seq<RowInput>)
    requires |inputs| == |configs|
    ensures Pass(build, true, configs, history, inputs).history == history + NewSamples(configs, inputs)
  {
    RunHistory(build, configs, inputs, World(configs, history, []));
  }

  /** The requests of a pass: each row's own, in row order. */
  lemma PassSends(build: Build, configs: seq<ServerConfig>, history: seq<Sample>, inputs: seq<RowInput>)
    requires UniqueIds(configs) && |inputs| == |configs|
    ensures Pass(build, true, configs, history, inputs).sends == AllSends(build, configs, inputs, history)
  {
    RunSends(build, configs, inputs, World(configs, history, []));
    assert [] + AllSends(build, configs, inputs, history) == AllSends(build, configs, inputs, history);
  }

  /** The pass sends three creates: A's status, B's error embed without a
      chart, C's status. */
  lemma ThreeServerSends(build: Build, history: seq<Sample>, rows: seq<ServerConfig>, inputs: seq<RowInput>)
    requires ThreeServers(rows, inputs)
    ensures var sends := Pass(build, true, rows, history, inputs).sends;
      && |sends| == 3
      && (forall k :: 0 <= k < 3 ==> sends[k].verb == Post)
      && sends[0].chart.Some? && sends[1] == ErrorSend(rows[1]) && sends[2].chart.Some?
  {
    assert UniqueIds(rows);
    PassSends(build, rows, history, inputs);
    ThreeServerAllSends(build, history, rows, inputs);
  }

  /** The same three requests, read off the pass's closed form. */
  lemma ThreeServerAllSends(build: Build, history: seq<Sample>, rows: seq<ServerConfig>, inputs: seq<RowInput>)
    requires ThreeServers(rows, inputs)
    ensures var sends := AllSends(build, rows, inputs, history);
      && |sends| == 3
      && (forall k :: 0 <= k < 3 ==> sends[k].verb == Post)
      && sends[0].chart.Some? && sends[1] == ErrorSend(rows[1]) && sends[2].chart.Some?
  {
    ThreeServerRowSends(build, history, rows, inputs);
    ThreeRowSends(build, rows, inputs, history);
    Singles(AllSends(build, rows, inputs, history), RowEffect(build, rows[0], inputs[0], history).sends,
            RowEffect(build, rows[1], inputs[1], history).sends, RowEffect(build, rows[2], inputs[2], history).sends,
            ErrorSend(rows[1]));
  }

  /** Three one-request rows send three creates when each of them is one. */
  lemma Singles(all: seq<Send>, a: seq<Send>, b: seq<Send>, c: seq<Send>, e: Send)
    requires all == a + b + c
    requires |a| == 1 && a[0].verb == Post && a[0].chart.Some?
    requires b == [e] && e.verb == Post
    requires |c| == 1 && c[0].verb == Post && c[0].chart.Some?
    ensures |all| == 3 && (forall k :: 0 <= k < 3 ==> all[k].verb == Post)
    ensures all[0].chart.Some? && all[1] == e && all[2].chart.Some?
  {
    assert all == [a[0], e, c[0]];
  }

  lemma ThreeServerRowSends(build: Build, history: seq<Sample>, rows: seq<ServerConfig>, inputs: seq<RowInput>)
    requires ThreeServers(rows, inputs)
    ensures var s0 := RowEffect(build, rows[0], inputs[0], history).sends;
      |s0| == 1 && s0[0].verb == Post && s0[0].chart.Some?
    ensures RowEffect(build, rows[1], inputs[1], history).sends == [ErrorSend(rows[1])]
    ensures ErrorSend(rows[1]).verb == Post
    ensures var s2 := RowEffect(build, rows[2], inputs[2], history).sends;
      |s2| == 1 && s2[0].verb == Post && s2[0].chart.Some?
  {
    RowSends(build, rows[0], inputs[0], history);
    FailureSendsErrorEmbed(build, rows[1], inputs[1], history);
    RowSends(build, rows[1], inputs[1], history);
    RowSends(build, rows[2], inputs[2], history);
  }

  /** The pass stores the ids Discord returned for A and C, and leaves B's
      message id NULL. */
  lemma ThreeServerMessageIds(build: Build, history: seq<Sample>, rows: seq<ServerConfig>, inputs: seq<RowInput>)
    requires ThreeServers(rows, inputs)
    ensures Pass(build, true, rows, history, inputs).configs
         == [rows[0].(messageId := Some("m1")), rows[1], rows[2].(messageId := Some("m3"))]
  {
    assert UniqueIds(rows);
    ThreeServerNewIds(build, history, rows, inputs);
    PassOfThreeIds(build, history, rows, inputs, Some("m1"), None, Some("m3"));
    assert rows[1].(messageId := None) == rows[1];
  }

  /** The configs after a pass over three rows, given each row's new message id. */
  lemma PassOfThreeIds(build: Build, history: seq<Sample>, rows: seq<ServerConfig>, inputs: seq<RowInput>,
                       m0: Option<string>, m1: Option<string>, m2: Option<string>)
    requires UniqueIds(rows) && |rows| == 3 && |inputs| == 3
    requires NewMessageId(build, rows[0], inputs[0], history) == m0
    requires NewMessageId(build, rows[1], inputs[1], history) == m1
    requires NewMessageId(build, rows[2], inputs[2], history) == m2
    ensures Pass(build, true, rows, history, inputs).configs
         == [rows[0].(messageId := m0), rows[1].(messageId := m1), rows[2].(messageId := m2)]
  {
    PassConfigs(build, rows, history, inputs);
    var after := Pass(build, true, rows, history, inputs).configs;
    assert after[0] == rows[0].(messageId := m0);
    assert after[1] == rows[1].(messageId := m1);
    assert after[2] == rows[2].(messageId := m2);
  }

  /** The configs after a pass: each row with the message id its own
      handling leaves it. */
  lemma PassConfigs(build: Build, configs: seq<ServerConfig>, history: seq<Sample>, inputs: seq<RowInput>)
    requires UniqueIds(configs) && |inputs| == |configs|
    ensures var after := Pass(build, true, configs, history, inputs).configs;
      && |after| == |configs|
      && forall k :: 0 <= k < |configs| ==>
           after[k] == configs[k].(messageId := NewMessageId(build, configs[k], inputs[k], history))
  {
    assert configs[..|configs|] == configs && inputs[..|configs|] == inputs;
    RunConfigs(build, configs, configs, inputs, history);
  }

  lemma ThreeServerNewIds(build: Build, history: seq<Sample>, rows: seq<ServerConfig>, inputs: seq<RowInput>)
    requires ThreeServers(rows, inputs)
    ensures NewMessageId(build, rows[0], inputs[0], history) == Some("m1")
    ensures NewMessageId(build, rows[1], inputs[1], history) == None
    ensures NewMessageId(build, rows[2], inputs[2], history) == Some("m3")
  {
    NewMessageIdCases(build, rows[0], inputs[0], history);
    NewMessageIdCases(build, rows[1], inputs[1], history);
    NewMessageIdCases(build, rows[2], inputs[2], history);
  }
}
