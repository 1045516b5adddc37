/** The dashboard's proxy to Discord's REST API: a module-wide pacing gate
    that keeps five seconds between requests, a retry on 429 after the
    `Retry-After` delay, and the GET and POST actions that map onto Discord
    endpoints. The clock is a field the model advances by the sleeps and by
    each reply's latency; Discord itself is a script of replies. */
module DiscordRoute {
  import opened Schema
  import opened Text
  import Monitor

  /** `RATE_LIMIT_INTERVAL`, in milliseconds. */
  const RateLimitInterval: int := 5000

  /** Seconds waited after a 429 whose `Retry-After` header is absent or empty. */
  const DefaultRetrySeconds: nat := 5

  datatype Method = Get | Post

  /** The JSON bodies the route sends. */
  datatype Body = Content(content: string) | NewChannel(name: string, kind: int)

  /** One request as it leaves for Discord, stamped with the time it left. */
  datatype Request = Request(time: int, verb: Method, url: string, body: Option<Body>)

  /** One reply from Discord: its status, its `Retry-After` header as
      `parseInt` reads it, how long it took to arrive, and its JSON text. */
  datatype Reply = Reply(status: int, retryAfter: RetryHeader, latency: nat, json: string)

  /** What `fetchFromDiscord` settles to. `Exhausted` means the scripted
      replies ran out while it was still retrying. */
  datatype FetchResult = Json(json: string) | Failed(status: int) | Exhausted

  predicate IsOk(status: int) {
    200 <= status < 300
  }

  /** When a request may leave: at once if the last one left at least five
      seconds ago, otherwise when five seconds have passed since it did. */
  function SendTime(now: int, last: int): (t: int)
    ensures t >= now && t >= last + RateLimitInterval
    ensures t == now <==> now - last >= RateLimitInterval
    ensures t != now ==> t == last + RateLimitInterval
  {
    if now - last < RateLimitInterval then now + (RateLimitInterval - (now - last)) else now
  }

  // ------------------------------------------------------------ Retry-After

  /** The longest prefix of `s` made of decimal digits. */
  function LeadingDigits(s: string): (r: string)
    ensures IsDigits(r) && |r| <= |s| && r == s[..|r|]
    ensures |r| < |s| ==> !('0' <= s[|r|] <= '9')
  {
    if s == [] || !('0' <= s[0] <= '9') then []
    else [s[0]] + LeadingDigits(s[1..])
  }

  /** `parseInt(header || '5', 10)`: no header (or an empty one), a whole
      number of seconds, or NaN when the header does not start with a digit. */
  datatype RetryHeader = Missing | Seconds(n: nat) | NotANumber

  function ParseRetryAfter(header: Option<string>): (h: RetryHeader)
    ensures h.Missing? <==> !Truthy(header)
  {
    if !Truthy(header) then Missing
    else
      var digits := LeadingDigits(header.value);
      if digits == [] then NotANumber else Seconds(ParseNat(digits))
  }

  /** The longest delay `setTimeout` honours; a longer one, a shorter one
      than 1 ms, or NaN is replaced by 1 ms. */
  const TimerMax: nat := 2147483647

  function TimerDelay(ms: nat): (d: nat)
    ensures 1 <= d <= TimerMax
  {
    if 1 <= ms <= TimerMax then ms else 1
  }

  /** How long the call sleeps after a 429, in milliseconds: the header's
      seconds times 1000, as `setTimeout` clamps it. NaN seconds fire after 1 ms. */
  function RetryMs(h: RetryHeader): (ms: nat)
  {
    match h
    case Missing => TimerDelay(1000 * DefaultRetrySeconds)
    case Seconds(n) => TimerDelay(1000 * n)
    case NotANumber => 1
  }

  /** A missing or empty header waits five seconds, a header of `n` seconds
      waits `n` seconds when that fits the timer (0 and too long a delay wait
      1 ms), a header with trailing text after its digits (such as "2.5")
      waits the whole seconds before it, and one that does not start with a
      digit waits 1 ms. */
  lemma RetryDelays(n: nat, rest: string, junk: string)
    requires rest == [] || !('0' <= rest[0] <= '9')
    requires junk != [] && !('0' <= junk[0] <= '9')
    ensures RetryMs(ParseRetryAfter(None)) == 1000 * DefaultRetrySeconds
    ensures RetryMs(ParseRetryAfter(Some(""))) == 1000 * DefaultRetrySeconds
    ensures 0 < n && 1000 * n <= TimerMax ==> RetryMs(ParseRetryAfter(Some(NatToString(n) + rest))) == 1000 * n
    ensures n == 0 || 1000 * n > TimerMax ==> RetryMs(ParseRetryAfter(Some(NatToString(n) + rest))) == 1
    ensures RetryMs(ParseRetryAfter(Some(junk))) == 1
  {
    DigitsPrefix(NatToString(n), rest);
    ParseNatToString(n);
  }

  lemma {:induction false} DigitsPrefix(d: string, rest: string)
    requires IsDigits(d)
    requires rest == [] || !('0' <= rest[0] <= '9')
    ensures LeadingDigits(d + rest) == d
    decreases |d|
  {
    if d == [] {
      assert d + rest == rest;
    } else {
      assert (d + rest)[1..] == d[1..] + rest;
      DigitsPrefix(d[1..], rest);
      assert d == [d[0]] + d[1..];
    }
  }

  // ---------------------------------------------------- the fetch, as a trace

  /** The send times of a call, what it settles to, and the clock when it returns. */
  datatype Trace = Trace(times: seq<int>, result: FetchResult, clock: int)

  /** `fetchFromDiscord` started at `now` with the last request sent at
      `last`, answered by `replies` in turn. */
  function FetchTrace(now: int, last: int, replies: seq<Reply>): (tr: Trace)
    ensures |tr.times| <= |replies| && tr.clock >= now
    decreases |replies|
  {
    if replies == [] then Trace([], Exhausted, now)
    else
      var t := SendTime(now, last);
      var reply := replies[0];
      var arrived := t + reply.latency;
      if IsOk(reply.status) then Trace([t], Json(reply.json), arrived)
      else if reply.status == 429 then
        var rest := FetchTrace(arrived + RetryMs(reply.retryAfter), t, replies[1..]);
        Trace([t] + rest.times, rest.result, rest.clock)
      else Trace([t], Failed(reply.status), arrived)
  }

  /** The number of leading 429 replies. */
  function Throttled(replies: seq<Reply>): (n: nat)
    ensures n <= |replies|
    ensures forall k :: 0 <= k < n ==> replies[k].status == 429
    ensures n < |replies| ==> replies[n].status != 429
  {
    if replies == [] || replies[0].status != 429 then 0 else 1 + Throttled(replies[1..])
  }

  /** The call sends one request per leading 429 and one more for the first
      other reply; it returns that reply's JSON when it is a 2xx and fails
      with its status otherwise. Only when every scripted reply is a 429
      does it run out. */
  lemma {:induction false} FetchOutcome(now: int, last: int, replies: seq<Reply>)
    ensures var tr := FetchTrace(now, last, replies);
      var n := Throttled(replies);
      && (n < |replies| ==> |tr.times| == n + 1)
      && (n == |replies| ==> |tr.times| == n && tr.result == Exhausted)
      && (n < |replies| && IsOk(replies[n].status) ==> tr.result == Json(replies[n].json))
      && (n < |replies| && !IsOk(replies[n].status) ==> tr.result == Failed(replies[n].status))
    decreases |replies|
  {
    if replies != [] && replies[0].status == 429 {
      var t := SendTime(now, last);
      FetchOutcome(t + replies[0].latency + RetryMs(replies[0].retryAfter), t, replies[1..]);
    }
  }

  /** After a 429 the call sleeps out the reply and its Retry-After delay
      before the next request leaves: the retry goes out no earlier than the
      throttled reply's arrival plus the delay the header asks for. */
  lemma {:induction false} RetryWaits(now: int, last: int, replies: seq<Reply>)
    requires |replies| >= 2 && replies[0].status == 429
    ensures var ts := FetchTrace(now, last, replies).times;
      |ts| >= 2 && ts[1] >= ts[0] + replies[0].latency + RetryMs(replies[0].retryAfter)
  {
    var t := SendTime(now, last);
    var next := t + replies[0].latency + RetryMs(replies[0].retryAfter);
    TraceSpaced(next, t, replies[1..]);
    FetchOutcome(next, t, replies[1..]);
    var rest := FetchTrace(next, t, replies[1..]).times;
    assert FetchTrace(now, last, replies).times == [t] + rest;
  }

  /** Consecutive requests of one call leave at least five seconds apart,
      and the first leaves at least five seconds after `last`, never before `now`. */
  lemma {:induction false} TraceSpaced(now: int, last: int, replies: seq<Reply>)
    ensures var ts := FetchTrace(now, last, replies).times;
      && (forall i, j :: 0 <= i < j < |ts| ==> ts[i] + RateLimitInterval <= ts[j])
      && (forall i :: 0 <= i < |ts| ==> last + RateLimitInterval <= ts[i] && now <= ts[i])
      && FetchTrace(now, last, replies).clock >= now
      && (ts != [] ==> FetchTrace(now, last, replies).clock >= ts[|ts| - 1])
    decreases |replies|
  {
    var tr := FetchTrace(now, last, replies);
    if replies != [] {
      var t := SendTime(now, last);
      if replies[0].status != 429 || IsOk(replies[0].status) {
        assert tr.times == [t];
      } else {
        var next := t + replies[0].latency + RetryMs(replies[0].retryAfter);
        var rest := FetchTrace(next, t, replies[1..]);
        assert tr == Trace([t] + rest.times, rest.result, rest.clock);
        TraceSpaced(next, t, replies[1..]);
        ConsSpaced(now, last, t, rest.times);
      }
    }
  }

  /** A send time five seconds or more before every later one, put in front
      of a spaced series, keeps it spaced, and bounds below carry over. */
  lemma ConsSpaced(now: int, last: int, t: int, rest: seq<int>)
    requires now <= t && last + RateLimitInterval <= t
    requires forall i, j :: 0 <= i < j < |rest| ==> rest[i] + RateLimitInterval <= rest[j]
    requires forall i :: 0 <= i < |rest| ==> t + RateLimitInterval <= rest[i]
    ensures var ts := [t] + rest;
      && (forall i, j :: 0 <= i < j < |ts| ==> ts[i] + RateLimitInterval <= ts[j])
      && (forall i :: 0 <= i < |ts| ==> last + RateLimitInterval <= ts[i] && now <= ts[i])
  {
    var ts := [t] + rest;
    forall i, j | 0 <= i < j < |ts| ensures ts[i] + RateLimitInterval <= ts[j] {
      assert ts[j] == rest[j - 1];
      if i > 0 {
        assert ts[i] == rest[i - 1];
      }
    }
  }

  /** The requests a call sends, one per send time. */
  function Requests(verb: Method, url: string, body: Option<Body>, times: seq<int>): (r: seq<Request>)
    ensures |r| == |times|
    ensures forall k :: 0 <= k < |times| ==> r[k] == Request(times[k], verb, url, body)
  {
    if times == [] then []
    else [Request(times[0], verb, url, body)] + Requests(verb, url, body, times[1..])
  }

  lemma RequestsCons(verb: Method, url: string, body: Option<Body>, t: int, times: seq<int>)
    ensures Requests(verb, url, body, [t] + times) == [Request(t, verb, url, body)] + Requests(verb, url, body, times)
  {
    assert ([t] + times)[1..] == times;
  }

  /** Logging one request and then the rest of a call's requests logs the
      whole call. */
  lemma LogAppend(log: seq<Request>, verb: Method, url: string, body: Option<Body>, t: int, times: seq<int>)
    ensures log + [Request(t, verb, url, body)] + Requests(verb, url, body, times)
      == log + Requests(verb, url, body, [t] + times)
  {
    RequestsCons(verb, url, body, t, times);
  }

  /** Every two requests in the log left at least five seconds apart. */
  predicate Spaced(log: seq<Request>) {
    forall i, j :: 0 <= i < j < |log| ==> log[i].time + RateLimitInterval <= log[j].time
  }

  // ------------------------------------------------------- the route module

  /** The route module's state: `lastRequestTime` and the clock it reads. */
  class Discord {
    var lastRequestTime: int
    var now: int
    /** Every request sent so far, oldest first. */
    var log: seq<Request>

    ghost predicate Valid()
      reads this
    {
      && now >= lastRequestTime
      && Spaced(log)
      && (log != [] ==> lastRequestTime == log[|log| - 1].time)
    }

    /** A fresh module: `lastRequestTime = 0` at a non-negative clock. */
    constructor (start: nat)
      ensures Valid() && lastRequestTime == 0 && now == start && log == []
    {
      lastRequestTime := 0;
      now := start;
      log := [];
    }

    /** `fetchFromDiscord(endpoint, method, body)`: wait for the gate, send,
        and on a 429 sleep `Retry-After` seconds and call itself again. */
    method Fetch(verb: Method, endpoint: string, body: Option<Body>, replies: seq<Reply>)
      returns (r: FetchResult)
      requires Valid()
      modifies this
      decreases |replies|, 1
      ensures Valid()
      ensures var tr := FetchTrace(old(now), old(lastRequestTime), replies);
        && r == tr.result && now == tr.clock
        && log == old(log) + Requests(verb, Monitor.ApiBase + endpoint, body, tr.times)
    {
      if replies == [] {
        return Exhausted;
      }
      var reply := replies[0];
      if reply.status == 429 {
        r := Retry(verb, endpoint, body, replies);
        return;
      }
      ghost var tr := FetchTrace(now, lastRequestTime, replies);
      ghost var before := log;
      var url := Monitor.ApiBase + endpoint;
      var t := SendTime(now, lastRequestTime);
      var resume := t + reply.latency;
      if IsOk(reply.status) {
        assert tr == Trace([t], Json(reply.json), resume);
        Send(Request(t, verb, url, body), resume);
        LogAppend(before, verb, url, body, t, []);
        return Json(reply.json);
      } else {
        assert tr == Trace([t], Failed(reply.status), resume);
        Send(Request(t, verb, url, body), resume);
        LogAppend(before, verb, url, body, t, []);
        return Failed(reply.status);
      }
    }

    /** The 429 branch of `fetchFromDiscord`: send, sleep out the reply and
        its Retry-After delay, then call again with the remaining replies. */
    method Retry(verb: Method, endpoint: string, body: Option<Body>, replies: seq<Reply>)
      returns (r: FetchResult)
      requires Valid()
      requires replies != [] && replies[0].status == 429
      modifies this
      decreases |replies|, 0
      ensures Valid()
      ensures var tr := FetchTrace(old(now), old(lastRequestTime), replies);
        && r == tr.result && now == tr.clock
        && log == old(log) + Requests(verb, Monitor.ApiBase + endpoint, body, tr.times)
    {
      ghost var tr := FetchTrace(now, lastRequestTime, replies);
      ghost var before := log;
      var url := Monitor.ApiBase + endpoint;
      var reply := replies[0];
      var t := SendTime(now, lastRequestTime);
      var resume := t + reply.latency + RetryMs(reply.retryAfter);
      ghost var rest := FetchTrace(resume, t, replies[1..]);
      assert tr == Trace([t] + rest.times, rest.result, rest.clock);
      Send(Request(t, verb, url, body), resume);
      r := Fetch(verb, endpoint, body, replies[1..]);
      LogAppend(before, verb, url, body, t, rest.times);
    }

    /** Sending one request once the gate has opened: it is logged, becomes
        `lastRequestTime`, and the clock moves on to `resume`, when the
        reply (and any Retry-After sleep) is over. */
    method Send(request: Request, resume: int)
      requires Valid()
      requires request.time >= now && request.time >= lastRequestTime + RateLimitInterval
      requires resume >= request.time
      modifies this
      ensures Valid()
      ensures now == resume && lastRequestTime == request.time
      ensures log == old(log) + [request]
    {
      SpacedExtend(log, request);
      lastRequestTime := request.time;
      now := resume;
      log := log + [request];
    }

    /** The GET handler: `?action=...&guildId=...`. */
    method HandleGet(action: Option<string>, guildId: Option<string>, replies: seq<Reply>)
      returns (reply: HttpReply)
      requires Valid()
      modifies this
      ensures Valid()
      ensures match GetPlan(action, guildId)
        case Reject(status, message) =>
          reply == Error(status, message) && unchanged(this)
        case Forward(verb, endpoint, body) =>
          var tr := FetchTrace(old(now), old(lastRequestTime), replies);
          && reply == Answer(tr.result) && now == tr.clock
          && log == old(log) + Requests(verb, Monitor.ApiBase + endpoint, body, tr.times)
    {
      match GetPlan(action, guildId)
      case Reject(status, message) =>
        return Error(status, message);
      case Forward(verb, endpoint, body) =>
        var r := Fetch(verb, endpoint, body, replies);
        return Answer(r);
    }

    /** The POST handler, on the request's JSON body. */
    method HandlePost(request: PostBody, replies: seq<Reply>)
      returns (reply: HttpReply)
      requires Valid()
      modifies this
      ensures Valid()
      ensures match PostPlan(request)
        case Reject(status, message) =>
          reply == Error(status, message) && unchanged(this)
        case Forward(verb, endpoint, body) =>
          var tr := FetchTrace(old(now), old(lastRequestTime), replies);
          && reply == Answer(tr.result) && now == tr.clock
          && log == old(log) + Requests(verb, Monitor.ApiBase + endpoint, body, tr.times)
    {
      match PostPlan(request)
      case Reject(status, message) =>
        return Error(status, message);
      case Forward(verb, endpoint, body) =>
        var r := Fetch(verb, endpoint, body, replies);
        return Answer(r);
    }
  }

  /** Appending a request that leaves five seconds after the last keeps the log spaced. */
  lemma SpacedExtend(log: seq<Request>, r: Request)
    requires Spaced(log)
    requires log != [] ==> log[|log| - 1].time + RateLimitInterval <= r.time
    ensures Spaced(log + [r])
  {
    var l := log + [r];
    forall i, j | 0 <= i < j < |l| ensures l[i].time + RateLimitInterval <= l[j].time {
      if j == |log| && i < |log| - 1 {
        assert log[i].time + RateLimitInterval <= log[|log| - 1].time;
      }
    }
  }

  // ------------------------------------------------------------- dispatch

  /** What a handler does with a request: answer it at once, or forward it. */
  datatype Plan = Reject(status: int, message: string) | Forward(verb: Method, endpoint: string, body: Option<Body>)

  /** The handler's HTTP answer. `Pending` stands for a call still retrying
      when the scripted replies ran out. */
  datatype HttpReply = Ok(json: string) | Error(status: int, message: string) | Pending

  /** A fetch that throws becomes a 500. */
  function Answer(r: FetchResult): (reply: HttpReply)
    ensures r.Json? <==> reply.Ok?
    ensures r.Json? ==> reply.json == r.json
    ensures r.Failed? <==> reply == Error(500, "Internal Server Error")
  {
    match r
    case Json(j) => Ok(j)
    case Failed(_) => Error(500, "Internal Server Error")
    case Exhausted => Pending
  }

  /** The GET actions. */
  function GetPlan(action: Option<string>, guildId: Option<string>): (p: Plan)
    ensures p.Forward? ==> p.verb == Get && p.body.None?
    ensures p.Forward? <==>
      action == Some("getGuilds") || (action in {Some("getChannels"), Some("getGuild")} && Truthy(guildId))
    ensures p.Reject? ==> p.status == 400
    ensures p.Forward? ==>
      p.endpoint == if action == Some("getGuilds") then "/users/@me/guilds"
                    else if action == Some("getChannels") then "/guilds/" + guildId.value + "/channels"
                    else "/guilds/" + guildId.value
  {
    if action == Some("getGuilds") then Forward(Get, "/users/@me/guilds", None)
    else if action == Some("getChannels") || action == Some("getGuild") then
      if !Truthy(guildId) then Reject(400, "Guild ID is required")
      else if action == Some("getChannels") then Forward(Get, "/guilds/" + guildId.value + "/channels", None)
      else Forward(Get, "/guilds/" + guildId.value, None)
    else Reject(400, "Invalid action")
  }

  /** The fields of the POST request body; an absent field is `None`. */
  datatype PostBody = PostBody(
    action: Option<string>,
    channelId: Option<string>,
    content: Option<string>,
    guildId: Option<string>,
    name: Option<string>,
    kind: Option<int>)

  /** The POST actions. */
  function PostPlan(request: PostBody): (p: Plan)
    ensures p.Forward? ==> p.verb == Post && p.body.Some?
    ensures p.Forward? <==>
      (request.action == Some("sendMessage") && Truthy(request.channelId) && Truthy(request.content))
      || (request.action == Some("createChannel") && Truthy(request.guildId) && Truthy(request.name) && request.kind.Some?)
    ensures p.Reject? ==> p.status == 400
  {
    if request.action == Some("sendMessage") then
      if !Truthy(request.channelId) || !Truthy(request.content) then
        Reject(400, "Channel ID and content are required")
      else Forward(Post, "/channels/" + request.channelId.value + "/messages", Some(Content(request.content.value)))
    else if request.action == Some("createChannel") then
      if !Truthy(request.guildId) || !Truthy(request.name) || request.kind.None? then
        Reject(400, "Guild ID, name, and type are required")
      else Forward(Post, "/guilds/" + request.guildId.value + "/channels",
                   Some(NewChannel(request.name.value, request.kind.value)))
    else Reject(400, "Invalid action")
  }

  /** The endpoint a forwarded request goes to names the guild or channel
      the caller gave, and the body carries the caller's fields unchanged. */
  lemma ForwardedTargets(action: Option<string>, guildId: Option<string>, request: PostBody)
    ensures var p := GetPlan(action, guildId);
      && (p.Forward? && action == Some("getGuilds") ==> p.endpoint == "/users/@me/guilds")
      && (p.Forward? && action == Some("getChannels") ==> p.endpoint == "/guilds/" + guildId.value + "/channels")
      && (p.Forward? && action == Some("getGuild") ==> p.endpoint == "/guilds/" + guildId.value)
    ensures var p := PostPlan(request);
      && (p.Forward? && request.action == Some("sendMessage") ==>
            p.endpoint == "/channels/" + request.channelId.value + "/messages"
            && p.body == Some(Content(request.content.value)))
      && (p.Forward? && request.action == Some("createChannel") ==>
            p.endpoint == "/guilds/" + request.guildId.value + "/channels"
            && p.body == Some(NewChannel(request.name.value, request.kind.value)))
  {
  }
}
