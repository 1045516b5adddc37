# discord.s status bot: a Dafny model of its core

discord.s keeps one Discord message per configured game server up to date.
The message shows whether the server is online, its player count, a sorted
player list and a chart of the recent player counts. A web dashboard, behind a
password, lets an operator register servers and talk to Discord. A public page
shows every server's status.

This project models:

- **The updater pass** (`Monitor`, `Chart`, `Schema`, `Text`). `updateGameStatus`
  goes through every stored config. For each one it:
  - queries the game server;
  - records a player-count sample;
  - reads back the latest 24 samples, oldest first;
  - builds the status embed (player list sorted, fenced and cut to 1024 characters);
  - creates or edits the Discord message;
  - stores the returned message id when it changed.

  Any failure in a row sends a red error embed instead, and the loop goes on with
  the next row. The pass is a method over the `Database` class (the
  `server_configs` and `player_history` tables). It is proved equal to a
  row-by-row function, and that function is proved equal to a closed form.
  Both copies of the updater are covered:
  - `utils/ServerMonitor.ts`, the one the runner script starts;
  - `app/utils/ServerMonitor.ts`, whose only differences are embed cosmetics
    (lines 199-209) and its Chart.js drawing.

  A `Build` value selects the copy. The app copy's `sendOrUpdateDiscordMessage`
  (73-108), row loop (165-286) and `getGameType` (288-293) are the same code as
  in `utils/`. The updater's integer chart grid is its own module.
- **The Discord proxy route** (`DiscordRoute`). `lastRequestTime` is a field of a
  `Discord` class. Time is a `now` field that advances with the pacing sleeps, the
  reply latencies and the `Retry-After` sleeps. `fetchFromDiscord` is a recursive
  method, as in the source. Discord's replies are a script, and every request
  sent is appended to a log. The GET and POST action switches are pure
  validators.
- **The config route** (`ConfigRoute`). Upsert keyed on guild, address and
  port, and the listing.
- **The status route** (`StatusRoute`). An order-preserving map with a
  per-server offline fallback.
- **The login route and middleware** (`Auth`).

The game query, SQL and HTTP calls are inputs. For the updater:

- a `QueryResult` (`Online(state)` or `Failed`);
- a `DbFault` naming the statement of the row's `try` block that throws, if any;
- a Discord `Response` (`Delivered(id)`, `Rejected(status)` or `Unreachable`).

Every connection failure is a `connected: bool` parameter.

The updater does not use the dashboard's rate-limited fetch. It calls Discord
directly, with no 429 handling, and pauses for a fixed second after each
successful row (`utils/ServerMonitor.ts:289`). The model follows this code.

## Model

| member | source | states |
|---|---|---|
| Schema.Recent | utils/ServerMonitor.ts:219-223 | the history read returns at most 24 samples, all of the config asked for |
| Schema.RecentIsBoundedSuffix | utils/ServerMonitor.ts:219-223 | the history read returns at most 24 samples, all of the asked config, and they are the config's latest samples in insertion order (a suffix of length min(n, 24)) |
| Schema.RecentAfterAppend | utils/ServerMonitor.ts:213-223 | after the insert, the read is non-empty and ends with the sample just inserted; its length grows by one until it reaches 24 |
| Schema.SamplesOfOtherAppend | utils/ServerMonitor.ts:219-222 | samples of other configs appended to the table do not change what the read filters out for a config |
| Text.NatToString | utils/ServerMonitor.ts:233 | a count renders as a non-empty run of decimal digits with no leading zero |
| Text.IntToString | utils/ServerMonitor.ts:277 | an integer renders non-empty, with a leading minus sign exactly when it is negative |
| Text.ParseNatToString | utils/ServerMonitor.ts:233 | reading the rendered digits back gives the count: rendering loses nothing |
| Text.NatToStringInjective | utils/ServerMonitor.ts:233 | distinct counts render as distinct text |
| Text.JoinLength | utils/ServerMonitor.ts:247 | `join` yields the parts' total length plus one separator between each two parts |
| Text.LeTotal | utils/ServerMonitor.ts:246 | the name order used by the sort is total |
| Text.LeTransitive | utils/ServerMonitor.ts:246 | the name order is transitive |
| Text.LeAntisymmetric | utils/ServerMonitor.ts:246 | two names ordered both ways are equal |
| Text.Insert | utils/ServerMonitor.ts:246 | placing a name into a sorted list keeps it sorted and adds exactly that name |
| Text.Sort | utils/ServerMonitor.ts:246 | the sorted names are in order and are a permutation of the input |
| Text.InsertFront | utils/ServerMonitor.ts:246 | a name no greater than a sorted list's head may go in front, and the list stays sorted |
| Text.InsertBehind | utils/ServerMonitor.ts:246 | a name greater than the head goes behind it: the head followed by the sorted rest-with-the-name is sorted and holds exactly the list's names plus that one |
| Text.SameHead | utils/ServerMonitor.ts:246 | two sorted lists with the same names start with the same name |
| Text.SortedUnique | utils/ServerMonitor.ts:246 | two sorted lists with the same names are the same list |
| Text.SortPermutationInvariant | utils/ServerMonitor.ts:246 | the sort's output depends only on the multiset of names, not on their arrival order |
| Text.Truncate | utils/ServerMonitor.ts:253-255 | the field value is at most 1024 characters; a value within the limit is unchanged; a longer one becomes its first 1021 characters plus "..." |
| Text.TruncateIdempotent | utils/ServerMonitor.ts:253-255 | cutting an already cut value changes nothing |
| Chart.MaxCount | utils/ServerMonitor.ts:127 | the top of the scale is at least 10, bounds every sample, and is 10 or one of the samples |
| Chart.MinCount | utils/ServerMonitor.ts:128 | the bottom of the scale is at most 0, below every sample, and is 0 or one of the samples |
| Chart.ColumnIndex | utils/ServerMonitor.ts:157 | column i samples index floor(i*(len-1)/24), which lies in [0, len-1] for a non-empty series; an empty series gives 0 or -1 |
| Chart.Level | utils/ServerMonitor.ts:159 | a sample fills floor((v-min)*10/(max-min)) cells, stated by its two bracketing inequalities, and never more than 10 |
| Chart.ColumnHeight | utils/ServerMonitor.ts:152-159 | column i fills the level of the sample at `ColumnIndex(i, len)` = ⌊i·(len−1)/24⌋ for a series of length len, scaled to the series, on the scale from the series' minimum (at most 0) to its maximum (at least 10); an index outside the series fills none; no column fills more than 10 cells |
| Chart.ScaleNeverClips | utils/ServerMonitor.ts:126-159 | min <= 0 < 10 <= max, so the divisor is positive; every column fits the grid; a column at the series maximum reaches the top |
| Chart.LevelAtTop | utils/ServerMonitor.ts:159 | the largest count fills all 10 cells |
| Chart.LevelMonotone | utils/ServerMonitor.ts:159 | a larger sample never draws a shorter column |
| Chart.EmptyHistoryDrawsNothing | utils/ServerMonitor.ts:126-165 | an empty history draws an empty grid |
| Chart.Glyph | utils/ServerMonitor.ts:162 | corrected glyph: row j (0 at the bottom) is filled exactly when j is below the column's level |
| Chart.GlyphAsWritten | utils/ServerMonitor.ts:162 | as written, row j of a column of level h is filled exactly when j + h reaches 10, i.e. the top h rows |
| Chart.BarHangsFromTop | utils/ServerMonitor.ts:156-165 | as written, a single sample of 3 leaves the bottom cell empty and fills the top one; the corrected glyph does the opposite |
| Chart.GlyphPlacements | utils/ServerMonitor.ts:161-164 | the written column is the bar flipped upside down; the two agree only for an empty or a full column |
| Chart.DrawGrid | utils/ServerMonitor.ts:156-165 | the nested loops fill a fresh 24 x 10 grid in which every cell is the corrected glyph of its column's level |
| Monitor.GameType | utils/ServerMonitor.ts:320-325 | the raw record's `game` entry when it has one, otherwise "N/A" |
| Monitor.StatusEmbed | utils/ServerMonitor.ts:229-280 | the status embed is titled with the server's name and shows the chart image; the trend description, footer and blurple colour belong to the updater build, dark grey to the other |
| Monitor.ErrorEmbed | utils/ServerMonitor.ts:295-300 | the error embed is red, titled "Server Status Error", has no fields, image or footer, and names the row's address and port |
| Monitor.DisplayName | utils/ServerMonitor.ts:245 | a player's listed name is never empty (a missing or empty name is replaced) |
| Monitor.DisplayNames | utils/ServerMonitor.ts:244-245 | one listed name per player, in order |
| Monitor.SendOrUpdate | utils/ServerMonitor.ts:78-113 | the request is a PATCH of `/channels/{c}/messages/{id}` exactly when a non-empty message id is stored, and otherwise a POST of `/channels/{c}/messages`; it returns the reply's id on success, and nothing for a non-OK status or a thrown error |
| Monitor.SetMessageId | utils/ServerMonitor.ts:284 | the UPDATE rewrites the message id of the row with that id, and keeps every other row and column |
| Monitor.AppendedSample | utils/ServerMonitor.ts:213-217 | a row's sample, when there is one, belongs to that row's config |
| Monitor.RowEffectWith | utils/ServerMonitor.ts:204-302 | a row sends one or two requests, appends a sample exactly when its query succeeded and the INSERT did not fail, and writes back only a new, different id Discord returned |
| Monitor.RowEffect | utils/ServerMonitor.ts:204-302 | the same three facts for a row handled against the history it reads |
| Monitor.Run | utils/ServerMonitor.ts:202-303 | the loop keeps the table's row count, appends at most one sample per row and sends one or two requests per row |
| Monitor.Pass | utils/ServerMonitor.ts:194-318 | without a connection nothing changes and nothing is sent; otherwise a pass over n configs sends between n and 2n requests and appends at most n samples |
| Monitor.UpdateRow | utils/ServerMonitor.ts:204-302 | handling one row changes the tables as its row effect says: the sample appended, the message id written back, the requests sent; ids stay unique |
| Monitor.UpdateGameStatus | utils/ServerMonitor.ts:194-318 | the pass over the rows listed at its start leaves the tables and the sent requests equal to the row-by-row pass; with no connection, nothing changes and nothing is sent |
| Monitor.SeriesLocal | utils/ServerMonitor.ts:219-223 | the chart series a row draws depends on the history only through its own config's samples |
| Monitor.RowEffectLocal | utils/ServerMonitor.ts:219-222 | a row's handling depends on the history only through its own config's samples |
| Monitor.RowSample | utils/ServerMonitor.ts:213-217 | the sample a row appends does not depend on the history |
| Monitor.NewSamplesOtherIds | utils/ServerMonitor.ts:213-217 | rows of other configs append no sample for a config |
| Monitor.RunHistory | utils/ServerMonitor.ts:202-217 | a pass appends exactly the samples of the rows whose query and insert succeeded, in row order |
| Monitor.HistorySeenByRow | utils/ServerMonitor.ts:219-222 | the history a row reads during the pass has the same samples of its config as the history before the pass |
| Monitor.RunSends | utils/ServerMonitor.ts:202-302 | the requests of a pass are each row's own requests in row order, computed from the history before the pass |
| Monitor.RunConfigs | utils/ServerMonitor.ts:282-286 | each row's message id is changed only by that row's handling |
| Monitor.PassClosedForm | utils/ServerMonitor.ts:202-303 | a whole pass in closed form: the samples appended, the requests sent and each row's new message id; no row's outcome depends on another row's input |
| Monitor.SamplesOfAppend | utils/ServerMonitor.ts:219-222 | filtering one config's samples distributes over appending |
| Monitor.NewSamplesOfRow | utils/ServerMonitor.ts:213-217 | among a pass's new samples, a config has exactly its own row's sample, if any |
| Monitor.PassRecordsOneSamplePerConfig | utils/ServerMonitor.ts:213-217 | per config, a pass keeps the older samples and appends exactly one sample with the queried player count when the query and insert succeed, and none otherwise |
| Monitor.NewMessageIdCases | utils/ServerMonitor.ts:282-286 | a row's new message id differs from the stored one exactly when the query succeeded, nothing failed, Discord returned a non-empty id, and that id is not the stored one; it is then the returned id |
| Monitor.PassMessageIds | utils/ServerMonitor.ts:282-286 | a pass changes only message ids. A row's id changes exactly when all of these hold: the query succeeded, no statement failed, Discord returned a non-empty id, and that id differs from the stored one. The id then becomes the returned one; the error branch never changes it |
| Monitor.RowSends | utils/ServerMonitor.ts:282-301 | each row sends one or two requests, all PATCH exactly when a message id is stored. A second request, the error embed, is sent only when storing a new id fails. The first carries no chart exactly when the query, the insert or the history read failed |
| Monitor.FailureSendsErrorEmbed | utils/ServerMonitor.ts:290-302 | a failed query, insert or history read sends only the red error embed naming ip:port, with no fields, chart or image, and stores no message id |
| Monitor.StatusSendFirst | utils/ServerMonitor.ts:282 | when the query succeeds and the database does not fail, the first send carries the series as its chart and the status message built from it |
| Monitor.StatusSendCarriesFreshHistory | utils/ServerMonitor.ts:213-241 | a status send carries a chart of 1 to 24 counts ending with the current player count, and its payload is the status message built from that same series |
| Monitor.UnreachableWithoutMessageCreatesEveryPass | utils/ServerMonitor.ts:290-302 | a server with no stored message that stays unreachable keeps a NULL message id, so every pass creates a new error message |
| Monitor.StatusEmbedFields | utils/ServerMonitor.ts:229-280 | the embed fields in order: Players "n/max", Map, Game (raw game or "N/A"), the player list only when n > 0, Connect, Version only when non-empty, Ping only when reported |
| Monitor.FieldLayout | utils/ServerMonitor.ts:232-280 | the position of each field in the list that the pushes build |
| Monitor.PlayerListShape | utils/ServerMonitor.ts:243-258 | the player list is the names with "Unknown" for a missing name, sorted (a permutation), newline-joined in a code fence, at most 1024 characters, and cut to 1021 characters plus "..." exactly when longer |
| Monitor.PlayerListOrderIndependent | utils/ServerMonitor.ts:244-247 | the player list does not depend on the order the query reports players in |
| Monitor.BuildsDifferOnlyInCosmetics | app/utils/ServerMonitor.ts:199-209 | the app copy's embed is the updater's embed without the trend description and the footer, in dark grey instead of blurple; the updater's description is "Player count trend: `c1,c2,...`" |
| Monitor.ThreeRowSamples | utils/ServerMonitor.ts:202-217 | over three rows, the new samples are row 1's, then row 2's, then row 3's |
| Monitor.ThreeRowSends | utils/ServerMonitor.ts:202-302 | over three rows, the sends are row 1's, then row 2's, then row 3's, each against the history the pass started from |
| Monitor.PassHistory | utils/ServerMonitor.ts:202-217 | a pass appends to the history exactly the new samples of its rows, in table order |
| Monitor.PassSends | utils/ServerMonitor.ts:202-302 | when config ids are distinct, a pass sends every row's requests in table order, each as if the pass had not yet appended anything |
| Monitor.PassConfigs | utils/ServerMonitor.ts:282-286 | when config ids are distinct, a pass keeps the table's length and gives every row its own new message id, changing nothing else |
| Monitor.ThreeServerAllSends | utils/ServerMonitor.ts:202-302 | in the three-server scenario, the rows' sends are three creates: a status with a chart, B's error embed, a status with a chart |
| Monitor.ThreeServerNewIds | utils/ServerMonitor.ts:282-286 | in the three-server scenario, A's new id is "m1", B keeps NULL and C's is "m3" |
| Monitor.PassOfThreeIds | utils/ServerMonitor.ts:282-286 | a pass over three configs with distinct ids stores each row's new message id in its own row |
| Monitor.ThreeServerHistory | utils/ServerMonitor.ts:202-217 | scenario A (5 players), B (unreachable), C (12 players): the pass appends (1, 5) and then (3, 12) |
| Monitor.ThreeServerRowSends | utils/ServerMonitor.ts:282-301 | in that scenario, A and C each send one create with a chart, and B sends its error embed as a create |
| Monitor.ThreeServerSends | utils/ServerMonitor.ts:202-302 | in that scenario, the pass sends three creates: A's status, B's error embed without a chart, C's status |
| Monitor.ThreeServerMessageIds | utils/ServerMonitor.ts:282-286 | in that scenario, the pass stores the ids returned for A and C, and B's stays NULL |
| DiscordRoute.SendTime | app/api/discord/route.ts:21-25 | a request leaves at once when 5000 ms have passed since the last one, otherwise exactly 5000 ms after it; never earlier than now |
| DiscordRoute.LeadingDigits | app/api/discord/route.ts:38 | the longest digit prefix of the header, the part `parseInt` reads |
| DiscordRoute.ParseRetryAfter | app/api/discord/route.ts:38 | the header counts as missing exactly when it is absent or empty |
| DiscordRoute.RetryDelays | app/api/discord/route.ts:38-39 | a 429 sleeps 5000 ms with no or an empty header, and 1000*n ms for a header of n followed by non-digits, as `setTimeout` clamps it: 0 seconds, or more than 2147483647 ms, sleeps 1 ms. A header not starting with a digit is NaN, which also sleeps 1 ms |
| DiscordRoute.Throttled | app/api/discord/route.ts:37 | the number of leading 429 replies |
| DiscordRoute.FetchTrace | app/api/discord/route.ts:20-46 | a call sends at most one request per scripted reply and never turns the clock back |
| DiscordRoute.FetchOutcome | app/api/discord/route.ts:36-45 | a call sends one request per leading 429 and one more. It returns the first other reply's JSON when that reply is 2xx, and fails with its status otherwise. Only an all-429 script runs out |
| DiscordRoute.RetryWaits | app/api/discord/route.ts:36-40 | after a 429 the retry leaves no earlier than the throttled reply's arrival plus its Retry-After delay (`parseInt(header \|\| '5')` seconds, clamped by `setTimeout` to 1..2147483647 ms) |
| DiscordRoute.TraceSpaced | app/api/discord/route.ts:21-40 | the requests of one call, retries included, leave at least 5000 ms apart and 5000 ms after the previous request, never before the call started |
| DiscordRoute.ConsSpaced | app/api/discord/route.ts:21-40 | a retry's send times, all at least 5000 ms after the first send and spaced among themselves, stay spaced with the first send in front |
| DiscordRoute.Requests | app/api/discord/route.ts:27-41 | one request per send time: request k leaves at send time k with the call's verb, URL and body, so a retry repeats the same endpoint, method and body |
| DiscordRoute.LogAppend | app/api/discord/route.ts:40 | logging a call's first request and then its retry's requests logs exactly the call's requests |
| DiscordRoute.RequestsCons | app/api/discord/route.ts:40 | the requests of a retried call are the first request followed by the retry's requests |
| DiscordRoute.SpacedExtend | app/api/discord/route.ts:21-25 | a request that leaves 5000 ms after the last one keeps the whole log spaced |
| DiscordRoute.Discord.constructor | app/api/discord/route.ts:7 | a fresh module has `lastRequestTime` 0 and an empty log |
| DiscordRoute.Discord.Fetch | app/api/discord/route.ts:20-46 | the call returns the trace's result, advances the clock to its end, and appends exactly its requests to the log (same verb, URL and body on every retry). The log stays spaced by 5000 ms; the back-off after a 429 is stated by DiscordRoute.RetryWaits |
| DiscordRoute.Discord.Retry | app/api/discord/route.ts:36-40 | on a 429 the call sends, sleeps out the reply and its clamped Retry-After delay, and calls itself again; the result, clock and log are those of the whole trace, and the log stays spaced |
| DiscordRoute.Discord.Send | app/api/discord/route.ts:25-34 | a request sent once the gate is open is logged and becomes `lastRequestTime`; the log stays spaced |
| DiscordRoute.Discord.HandleGet | app/api/discord/route.ts:48-80 | a rejected GET answers 400 without touching Discord or the gate; a forwarded one answers the fetch's JSON, or 500 when it failed, leaves the clock at the end of the fetch and logs exactly its requests |
| DiscordRoute.Discord.HandlePost | app/api/discord/route.ts:82-111 | a rejected POST answers 400 without touching Discord or the gate; a forwarded one answers the fetch's JSON, or 500 when it failed, leaves the clock at the end of the fetch and logs exactly its requests |
| DiscordRoute.Answer | app/api/discord/route.ts:76-79 | a fetch's JSON is answered as is; a thrown non-OK status becomes 500 "Internal Server Error" |
| DiscordRoute.GetPlan | app/api/discord/route.ts:53-74 | a GET is forwarded exactly for getGuilds, or for getChannels/getGuild with a non-empty guildId; otherwise it gets 400. getGuilds calls `/users/@me/guilds`, getChannels `/guilds/{id}/channels` and getGuild `/guilds/{id}` |
| DiscordRoute.PostPlan | app/api/discord/route.ts:87-105 | a POST is forwarded exactly for sendMessage with non-empty channelId and content, or createChannel with non-empty guildId and name and a defined type (0 included); otherwise it gets 400 |
| DiscordRoute.ForwardedTargets | app/api/discord/route.ts:54-101 | each forwarded action calls its own endpoint (getGuilds `/users/@me/guilds`, getChannels `/guilds/{id}/channels`, getGuild `/guilds/{id}`, sendMessage `/channels/{id}/messages`, createChannel `/guilds/{id}/channels`) naming the caller's guild or channel, and the bodies carry the caller's fields unchanged |
| ConfigRoute.Interval | app/api/server-config/route.ts:42 | the stored interval is never 0: a given non-zero interval is kept, and a missing or 0 one becomes 60 |
| ConfigRoute.FindKey | app/api/server-config/route.ts:31-36 | the lookup finds the first row with the request's guild, address and port, or reports that none has them |
| ConfigRoute.PostConfig | app/api/server-config/route.ts:23-62 | with no connection, nothing changes and the answer is 500; otherwise the table, the id counter and the answer are the upsert's. The history is untouched and ids stay unique |
| ConfigRoute.GetConfigs | app/api/server-config/route.ts:8-21 | the listing is every stored row, or 500 without a connection |
| ConfigRoute.UpsertAnswer | app/api/server-config/route.ts:36-61 | the POST succeeds exactly when every value its statement writes into a NOT NULL column is present; a failed POST changes nothing |
| ConfigRoute.Upsert | app/api/server-config/route.ts:30-51 | a POST adds at most one row and advances the id counter by exactly the rows it adds; existing rows keep their ids; a failed statement changes nothing |
| ConfigRoute.UpdateTouchesOnlyItsRow | app/api/server-config/route.ts:36-43 | on an existing key (the first row the lookup finds, duplicates allowed), only that row's channel, game type and interval are rewritten. The row count, the other rows, and the row's id, key and message id are kept |
| ConfigRoute.InsertAppendsOneRow | app/api/server-config/route.ts:44-51 | on a new key, exactly one row is appended with every submitted field, the next id, no message id and the defaulted interval |
| ConfigRoute.UpsertKeepsIds | app/api/server-config/route.ts:44-51 | ids stay unique and below the SERIAL counter |
| ConfigRoute.UpsertKeepsKeysUnique | app/api/server-config/route.ts:30-51 | sequential POSTs never give two rows the same key |
| ConfigRoute.UpsertIdempotent | app/api/server-config/route.ts:30-51 | posting the same request twice leaves the table, the id counter and the answer as posting it once, on every table, duplicate keys included |
| StatusRoute.EntryFor | app/api/server-status/route.ts:17-53 | each record copies the config's id, game type, address and port |
| StatusRoute.Entries | app/api/server-status/route.ts:16-54 | one record per config, in table order, each built from that config's probe alone |
| StatusRoute.GetStatus | app/api/server-status/route.ts:9-64 | the route answers 500 exactly when the database is unreachable; otherwise it answers the array of records, one per config in table order, record k built from config k and its probe |
| StatusRoute.EntryContents | app/api/server-status/route.ts:24-52 | a record is online exactly when the query and the history read succeed. An online record has the live name, player count and capacity, and its history is exactly the history read: the config's latest min(n, 24) samples, oldest first. An offline record is "Unknown" with 0, 0 and no history |
| StatusRoute.FailureIsolated | app/api/server-status/route.ts:16-54 | one server's failure changes no other server's record |
| StatusRoute.EntriesFollowTableOrder | app/api/server-status/route.ts:16-54 | the records' ids and addresses follow the table's order |
| Auth.Login | app/api/auth/route.ts:5-15 | success exactly when the password strictly equals the configured one. It then answers 200 with the `auth=true` cookie (httpOnly, secure, strict, one hour); otherwise it answers 401 with no cookie |
| Auth.Guard | middleware.ts:4-12 | the guard redirects exactly the `/dashboard`-prefixed paths without an `auth=true` cookie |
| Auth.Middleware | middleware.ts:4-16 | with the `auth=true` cookie, or on a path outside `/dashboard`, a request always passes |
| Auth.MiddlewareDecision | middleware.ts:4-16 | a dashboard path is redirected exactly when its auth cookie is not exactly "true"; every other path passes |
| Auth.LoginCookieAdmits | app/api/auth/route.ts:8-11 | the cookie a successful login sets opens every dashboard path |
| Auth.FailedLoginLocksOut | app/api/auth/route.ts:14 | a failed login sets no cookie, so a browser without one stays redirected |
| Auth.UnsetPasswordAcceptsEmptyBody | app/api/auth/route.ts:6-8 | with no configured password, a body without a password field logs in, but an empty password does not |
| Auth.PrefixWiderThanMatcher | middleware.ts:7-16 | the guard alone would catch "/dashboards"; the matcher keeps the middleware off that path |

## Left out

- Game queries (GameDig), Postgres and HTTP are inputs, not code: a query
  result, the failing statement and Discord's response.
  - Connection and listing failures are a `connected` flag.
  - The bot token, FormData encoding and JSON parsing are not modelled.
  - A JSON field present as `null` is not modelled: an optional field is
    either absent (`None`) or a value. So `{"type": null}`, which the
    createChannel check forwards (`null === undefined` is false), and
    `{"password": null}`, which fails against an unset password, are not
    represented.
  - A `response.json()` that throws is not modelled.
  - A `fetch` that throws before any status is not modelled; the updater's
    `Unreachable` response stands for it.
- Database setup, the pool's error handler, `initializeUpdater`'s
  `setInterval` and the runner script are process lifecycle, not logic.
- The updater's one-second pause after each successful row, and timers in
  general: the updater has no clock in the model.
- Embed timestamps (`new Date().toISOString()`) are not modelled. The history
  read's `ORDER BY timestamp` is identified with insertion order, so equal
  timestamps are not modelled.
- The chart image is not modelled, only its integer cell grid. This covers
  canvas pixel positions, fonts, the y-axis labels with `Math.round`, and the
  app copy's Chart.js rendering. A failure while drawing is not modelled.
- Chart.Level: uses exact integer division where the source divides in
    floating point before `Math.floor`. This matters only when rounding
    error would cross a cell boundary.
- Text.Le: names are ordered by code point, not by `localeCompare`'s
  locale collation.
- Text.Truncate: lengths count characters, not JavaScript UTF-16 code units,
  so names outside the Basic Multilingual Plane are measured differently.
- Monitor.GameType: the raw `game` entry is taken as a string. Other JSON
  types would be rendered by JavaScript's conversion, which is not modelled.
- The GameDig port `parseInt(row.server_port)` is not modelled; the port is
  already an integer in the table.
- Concurrency is not modelled:
  - overlapping updater passes;
  - concurrent dashboard handlers racing on `lastRequestTime`;
  - `Promise.all` in the status route, modelled as a sequential map.

  The 5000 ms spacing is proved for sequential calls only.
- DiscordRoute.Discord.Fetch: the source retries 429 replies with no limit.
  The model retries while its script of replies lasts. A script of nothing
  but 429s ends in `Exhausted`, which the handlers answer as `Pending`: a
  call still waiting, not an answer of the route.
- DiscordRoute.ParseRetryAfter: a header with leading whitespace or a sign
  is read as NaN. `parseInt` would skip the whitespace and honour the sign.
  The header is given to the model already parsed, as `RetryHeader`.
- ConfigRoute.FindKey: the SELECT has no ORDER BY. The model takes the first
  matching row in table order, and proves that sequential POSTs never create
  two rows with one key.
- ConfigRoute.PostConfig: a failed INSERT is assumed not to consume a SERIAL
  value. The request body is taken as already parsed, and a body that is not
  JSON is not modelled.
- The status route's `name`, `players` and `max_players` come from the
  query result type shared with the updater; other GameDig fields are not
  modelled.

## Findings

| source | as written | input that shows it | evidently intended | confidence | as-written member | corrected member |
|---|---|---|---|---|---|---|
| utils/ServerMonitor.ts:156-165 | row `j` (drawn at `bottom - j*cellHeight`, so `j = 0` is the bottom row) is filled when `j >= chartHeight - normalizedValue`, so a bar of level h fills the top h rows | a history of one sample with 3 players: the scale is 0..10, so the level is 3. Rows 7-9 (the top) are filled and rows 0-6 (the bottom) are empty | bars stand on the bottom axis: row j is filled when j < level | not executed | Chart.BarHangsFromTop | Chart.Glyph |
