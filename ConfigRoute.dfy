/** The dashboard's server-config route: GET lists every stored config;
    POST stores one keyed by guild, server address and port, rewriting the
    channel, game type and interval of an existing row or inserting a new
    row. Columns are NOT NULL except `message_id`, so a request that leaves
    out a value the statement writes fails like any other database error. */
module ConfigRoute {
  import opened Schema

  /** The interval stored when the request gives none (or 0). */
  const DefaultInterval: int := 60

  /** The JSON body of a POST; an absent field is `None`. */
  datatype ConfigRequest = ConfigRequest(
    guildId: Option<string>,
    channelId: Option<string>,
    gameType: Option<string>,
    serverIp: Option<string>,
    serverPort: Option<int>,
    messageInterval: Option<int>)

  /** `{ success: true }`, or the 500 answer to a database error. */
  datatype Answer = Success | ServerError

  /** `messageInterval || 60`. */
  function Interval(m: Option<int>): (r: int)
    ensures r != 0
    ensures m.Some? && m.value != 0 ==> r == m.value
    ensures m.None? || m.value == 0 ==> r == DefaultInterval
  {
    if m.Some? && m.value != 0 then m.value else DefaultInterval
  }

  /** `guild_id = $1 AND server_ip = $2 AND server_port = $3`; a NULL
      parameter matches nothing. */
  predicate Matches(row: ServerConfig, request: ConfigRequest) {
    && request.guildId == Some(row.guildId)
    && request.serverIp == Some(row.serverIp)
    && request.serverPort == Some(row.serverPort)
  }

  /** The position of the first row with the request's key. */
  function FindKey(configs: seq<ServerConfig>, request: ConfigRequest): (i: Option<nat>)
    ensures i.Some? ==> i.value < |configs| && Matches(configs[i.value], request)
    ensures i.Some? ==> forall k :: 0 <= k < i.value ==> !Matches(configs[k], request)
    ensures i.None? <==> forall k :: 0 <= k < |configs| ==> !Matches(configs[k], request)
  {
    if configs == [] then None
    else if Matches(configs[0], request) then Some(0)
    else
      var rest := FindKey(configs[1..], request);
      assert forall k :: 1 <= k < |configs| ==> configs[k] == configs[1..][k - 1];
      if rest.Some? then Some(rest.value + 1) else None
  }

  /** The table and the SERIAL counter after a POST, with its answer. */
  datatype Outcome = Outcome(configs: seq<ServerConfig>, nextId: nat, answer: Answer)

  /** POST on a reachable database. */
  function Upsert(configs: seq<ServerConfig>, nextId: nat, request: ConfigRequest): (o: Outcome)
    ensures o.nextId == nextId || o.nextId == nextId + 1
    ensures |o.configs| == |configs| + (o.nextId - nextId)
    ensures forall k :: 0 <= k < |configs| ==> o.configs[k].id == configs[k].id
    ensures o.answer == ServerError ==> o.configs == configs && o.nextId == nextId
  {
    match FindKey(configs, request)
    case Some(i) =>
      if request.channelId.None? || request.gameType.None? then Outcome(configs, nextId, ServerError)
      else
        Outcome(configs[i := configs[i].(channelId := request.channelId.value,
                                         gameType := request.gameType.value,
                                         messageInterval := Interval(request.messageInterval))],
                nextId, Success)
    case None =>
      if request.guildId.None? || request.channelId.None? || request.gameType.None?
         || request.serverIp.None? || request.serverPort.None?
      then Outcome(configs, nextId, ServerError)
      else
        Outcome(configs + [NewRow(nextId, request)], nextId + 1, Success)
  }

  /** The row an INSERT adds: every submitted field, no message yet. */
  function NewRow(id: nat, request: ConfigRequest): ServerConfig
    requires request.guildId.Some? && request.channelId.Some? && request.gameType.Some?
    requires request.serverIp.Some? && request.serverPort.Some?
  {
    ServerConfig(id, request.guildId.value, request.channelId.value, request.gameType.value,
                 request.serverIp.value, request.serverPort.value, None, Interval(request.messageInterval))
  }

  /** No two rows share a (guild, address, port) key. */
  predicate UniqueKeys(configs: seq<ServerConfig>) {
    forall i, j :: 0 <= i < j < |configs| ==>
      !(configs[i].guildId == configs[j].guildId && configs[i].serverIp == configs[j].serverIp
        && configs[i].serverPort == configs[j].serverPort)
  }

  /** `POST`: look the key up, then UPDATE that row or INSERT a new one. A
      failed connection or statement answers 500 and writes nothing. */
  method PostConfig(db: Database, request: ConfigRequest, connected: bool) returns (answer: Answer)
    requires db.Valid()
    modifies db
    ensures db.Valid() && db.history == old(db.history)
    ensures !connected ==> answer == ServerError && db.configs == old(db.configs) && db.nextId == old(db.nextId)
    ensures connected ==>
      Outcome(db.configs, db.nextId, answer) == Upsert(old(db.configs), old(db.nextId), request)
  {
    if !connected {
      return ServerError;
    }
    UpsertKeepsIds(db.configs, db.nextId, request);
    var existing := FindKey(db.configs, request);
    if existing.Some? {
      if request.channelId.None? || request.gameType.None? {
        return ServerError;
      }
      var i := existing.value;
      db.configs := db.configs[i := db.configs[i].(channelId := request.channelId.value,
                                                   gameType := request.gameType.value,
                                                   messageInterval := Interval(request.messageInterval))];
    } else {
      if request.guildId.None? || request.channelId.None? || request.gameType.None?
         || request.serverIp.None? || request.serverPort.None? {
        return ServerError;
      }
      db.configs := db.configs + [NewRow(db.nextId, request)];
      db.nextId := db.nextId + 1;
    }
    return Success;
  }

  /** The answer to `GET`. */
  datatype Listing = Rows(rows: seq<ServerConfig>) | ListError

  /** `GET`: every row of the table, or 500 when the database is unreachable. */
  method GetConfigs(db: Database, connected: bool) returns (listing: Listing)
    ensures connected ==> listing == Rows(db.configs)
    ensures !connected ==> listing == ListError
  {
    if !connected {
      return ListError;
    }
    return Rows(db.configs);
  }

  // ----------------------------------------------------------- properties

  /** POST succeeds exactly when every value its statement writes is
      present: on an existing key the channel and game type, on a new key
      all five columns. A failed POST changes nothing. */
  lemma UpsertAnswer(configs: seq<ServerConfig>, nextId: nat, request: ConfigRequest)
    ensures var o := Upsert(configs, nextId, request);
      && (o.answer == Success <==>
            request.channelId.Some? && request.gameType.Some?
            && (FindKey(configs, request).None? ==>
                  request.guildId.Some? && request.serverIp.Some? && request.serverPort.Some?))
      && (o.answer == ServerError ==> o.configs == configs && o.nextId == nextId)
  {
  }

  /** On an existing key, POST rewrites only that row's channel, game type
      and interval; the row count, every other row, and the row's id, key
      and message id are unchanged. */
  lemma UpdateTouchesOnlyItsRow(configs: seq<ServerConfig>, nextId: nat, request: ConfigRequest, i: nat)
    requires FindKey(configs, request) == Some(i)
    requires request.channelId.Some? && request.gameType.Some?
    ensures var o := Upsert(configs, nextId, request);
      && o.answer == Success && o.nextId == nextId
      && |o.configs| == |configs|
      && (forall k :: 0 <= k < |configs| && k != i ==> o.configs[k] == configs[k])
      && o.configs[i].id == configs[i].id
      && o.configs[i].guildId == configs[i].guildId
      && o.configs[i].serverIp == configs[i].serverIp
      && o.configs[i].serverPort == configs[i].serverPort
      && o.configs[i].messageId == configs[i].messageId
      && o.configs[i].channelId == request.channelId.value
      && o.configs[i].gameType == request.gameType.value
      && o.configs[i].messageInterval == Interval(request.messageInterval)
  {
  }

  /** On a new key, POST appends exactly one row carrying every submitted
      field, the next SERIAL id and no message id. */
  lemma InsertAppendsOneRow(configs: seq<ServerConfig>, nextId: nat, request: ConfigRequest)
    requires forall k :: 0 <= k < |configs| ==> !Matches(configs[k], request)
    requires request.guildId.Some? && request.channelId.Some? && request.gameType.Some?
    requires request.serverIp.Some? && request.serverPort.Some?
    ensures var o := Upsert(configs, nextId, request);
      && o.answer == Success && o.nextId == nextId + 1
      && |o.configs| == |configs| + 1
      && o.configs[..|configs|] == configs
      && o.configs[|configs|] == ServerConfig(nextId, request.guildId.value, request.channelId.value,
           request.gameType.value, request.serverIp.value, request.serverPort.value, None,
           Interval(request.messageInterval))
  {
    assert (configs + [NewRow(nextId, request)])[..|configs|] == configs;
  }

  /** A POST keeps ids unique and below the SERIAL counter. */
  lemma UpsertKeepsIds(configs: seq<ServerConfig>, nextId: nat, request: ConfigRequest)
    requires UniqueIds(configs) && forall k :: 0 <= k < |configs| ==> configs[k].id < nextId
    ensures var o := Upsert(configs, nextId, request);
      && UniqueIds(o.configs) && (forall k :: 0 <= k < |o.configs| ==> o.configs[k].id < o.nextId)
      && o.nextId >= nextId
  {
  }

  /** A POST never gives two rows the same key, so the row it looks up is
      the only one with that key. */
  lemma UpsertKeepsKeysUnique(configs: seq<ServerConfig>, nextId: nat, request: ConfigRequest)
    requires UniqueKeys(configs)
    ensures UniqueKeys(Upsert(configs, nextId, request).configs)
  {
    var o := Upsert(configs, nextId, request);
    if FindKey(configs, request).None? && o.answer == Success {
      var row := NewRow(nextId, request);
      forall i | 0 <= i < |configs|
        ensures !(configs[i].guildId == row.guildId && configs[i].serverIp == row.serverIp
                  && configs[i].serverPort == row.serverPort)
      {
        assert !Matches(configs[i], request);
      }
    }
  }

  /** Posting the same request twice leaves the table as posting it once:
      the second POST finds the row the first one wrote and rewrites it with
      the same values. */
  lemma UpsertIdempotent(configs: seq<ServerConfig>, nextId: nat, request: ConfigRequest)
    ensures var once := Upsert(configs, nextId, request);
      var twice := Upsert(once.configs, once.nextId, request);
      twice.configs == once.configs && twice.nextId == once.nextId && twice.answer == once.answer
  {
    var once := Upsert(configs, nextId, request);
    match FindKey(configs, request)
    case Some(i) =>
      if once.answer == Success {
        UpdateTouchesOnlyItsRow(configs, nextId, request, i);
        assert FindKey(once.configs, request) == Some(i) by {
          assert forall k :: 0 <= k < i ==> once.configs[k] == configs[k];
          assert Matches(once.configs[i], request);
        }
        UpdateTouchesOnlyItsRow(once.configs, once.nextId, request, i);
        assert once.configs[i := once.configs[i].(channelId := request.channelId.value,
                                                  gameType := request.gameType.value,
                                                  messageInterval := Interval(request.messageInterval))]
            == once.configs;
      }
    case None =>
      if once.answer == Success {
        var n := |configs|;
        assert FindKey(once.configs, request) == Some(n) by {
          assert forall k :: 0 <= k < n ==> once.configs[k] == configs[k];
          assert Matches(once.configs[n], request);
        }
        UpdateTouchesOnlyItsRow(once.configs, once.nextId, request, n);
        assert once.configs[n := once.configs[n].(channelId := request.channelId.value,
                                                  gameType := request.gameType.value,
                                                  messageInterval := Interval(request.messageInterval))]
            == once.configs;
      }
  }
}
