/** The two tables the dashboard and the updater share (server_configs and
    player_history), the optional values JSON and SQL hand around, and the
    "last 24 samples, oldest first" history read. */
module Schema {

  datatype Option<+T> = None | Some(value: T)

  /** JavaScript truthiness of an optional string: null, undefined and "" are falsy. */
  predicate Truthy(s: Option<string>) {
    s.Some? && s.value != ""
  }

  /** One row of server_configs. A NULL message_id is `None`. */
  datatype ServerConfig = ServerConfig(
    id: nat,
    guildId: string,
    channelId: string,
    gameType: string,
    serverIp: string,
    serverPort: int,
    messageId: Option<string>,
    messageInterval: int)

  /** One row of player_history; rows are kept in insertion order, which is
      the order of their timestamps. */
  datatype Sample = Sample(serverConfigId: nat, playerCount: nat)

  /** The number of samples the history read returns at most. */
  const HistoryLimit: nat := 24

  predicate UniqueIds(configs: seq<ServerConfig>) {
    forall i, j :: 0 <= i < j < |configs| ==> configs[i].id != configs[j].id
  }

  /** The samples of one config, in insertion order. */
  function SamplesOf(history: seq<Sample>, id: nat): (r: seq<Sample>)
    ensures |r| <= |history|
    ensures forall s :: s in r ==> s.serverConfigId == id
  {
    if history == [] then []
    else
      var rest := SamplesOf(history[..|history| - 1], id);
      var last := history[|history| - 1];
      if last.serverConfigId == id then rest + [last] else rest
  }

  /** `SELECT ... WHERE server_config_id = id ORDER BY timestamp DESC LIMIT 24`
      followed by `.reverse()`: the most recent samples, oldest first. */
  function Recent(history: seq<Sample>, id: nat): (r: seq<Sample>)
    ensures |r| <= HistoryLimit
    ensures forall s :: s in r ==> s.serverConfigId == id
  {
    var mine := SamplesOf(history, id);
    if |mine| <= HistoryLimit then mine else mine[|mine| - HistoryLimit..]
  }

  /** The player counts of a sample series, in order. */
  function Counts(samples: seq<Sample>): (r: seq<int>)
    ensures |r| == |samples|
    ensures forall k :: 0 <= k < |samples| ==> r[k] == samples[k].playerCount
  {
    seq(|samples|, k requires 0 <= k < |samples| => samples[k].playerCount)
  }

  /** The history read returns at most 24 samples, all of the config asked
      for, and they are the latest ones in order: a suffix of the config's samples. */
  lemma RecentIsBoundedSuffix(history: seq<Sample>, id: nat)
    ensures |Recent(history, id)| <= HistoryLimit
    ensures |Recent(history, id)| == if |SamplesOf(history, id)| <= HistoryLimit then |SamplesOf(history, id)| else HistoryLimit
    ensures Recent(history, id) == SamplesOf(history, id)[|SamplesOf(history, id)| - |Recent(history, id)|..]
    ensures forall s :: s in Recent(history, id) ==> s.serverConfigId == id
  {
  }

  /** Read-your-write: a sample just appended for `id` is the last one the
      history read returns, and the read is never empty afterwards. */
  lemma {:induction false} RecentAfterAppend(history: seq<Sample>, id: nat, count: nat)
    ensures var r := Recent(history + [Sample(id, count)], id);
      |r| > 0 && r[|r| - 1] == Sample(id, count)
    ensures var r := Recent(history + [Sample(id, count)], id);
      |r| == if |SamplesOf(history, id)| < HistoryLimit then |SamplesOf(history, id)| + 1 else HistoryLimit
  {
    var h := history + [Sample(id, count)];
    assert h[..|h| - 1] == history;
    assert SamplesOf(h, id) == SamplesOf(history, id) + [Sample(id, count)];
  }

  /** A sample of another config does not change what the read returns for `id`. */
  lemma {:induction false} SamplesOfOtherAppend(history: seq<Sample>, extra: seq<Sample>, id: nat)
    requires forall s :: s in extra ==> s.serverConfigId != id
    ensures SamplesOf(history + extra, id) == SamplesOf(history, id)
    decreases |extra|
  {
    if extra == [] {
      assert history + extra == history;
    } else {
      var h := history + extra;
      var e' := extra[..|extra| - 1];
      assert h[..|h| - 1] == history + e';
      assert extra[|extra| - 1] in extra;
      SamplesOfOtherAppend(history, e', id);
      assert h[|h| - 1] == extra[|extra| - 1];
    }
  }

  /** The database both route handlers and the updater work on. `nextId` is
      the SERIAL counter of server_configs. */
  class Database {
    var configs: seq<ServerConfig>
    var history: seq<Sample>
    var nextId: nat

    ghost predicate Valid()
      reads this
    {
      UniqueIds(configs) && forall k :: 0 <= k < |configs| ==> configs[k].id < nextId
    }

    constructor ()
      ensures Valid() && configs == [] && history == [] && nextId == 1
    {
      configs := [];
      history := [];
      nextId := 1;
    }
  }
}
