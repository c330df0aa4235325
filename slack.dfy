/**
 * The Slack Web API as the reaper sees it: requests and the parts of the JSON
 * responses it reads, the classification of one HTTP response, the retry loop
 * of `slack_api_http`, and the platform itself as an object that answers
 * requests from a finite script and records what was asked of it.
 */
module Slack {
  import opened Wrappers

  /** A value in a request payload. `Null` is Python's `None`. */
  datatype Value = Str(text: string) | Int(number: int) | Null

  /** A request payload: form fields for POST, query parameters for GET. */
  type Fields = map<string, Value>

  datatype HttpMethod = Get | Post

  /** One HTTP request to `https://slack.com/api/` followed by the endpoint's path. */
  datatype Request = Request(endpoint: Endpoint, fields: Fields, httpMethod: HttpMethod)

  /** An entry of a history page: its timestamp in whole seconds and its optional `subtype`. */
  datatype Message = Message(ts: int, subtype: Option<string>)

  /** The four fields `get_all_channels` keeps of a listed channel. */
  datatype Channel = Channel(id: string, name: string, created: int, numMembers: int)

  /** A channel as `channels.list` returns it (only the fields named here are modelled). */
  datatype ListedChannel = ListedChannel(id: string, name: string, created: int, numMembers: int, topic: string, purpose: string)

  /** `channel.purpose.value` and `channel.topic.value` of a `channels.info` response. */
  datatype ChannelInfo = ChannelInfo(purpose: string, topic: string)

  /**
   * The decoded JSON body of a response: `ok`, `error` when present, and the
   * keys the reaper reads, each absent (`None`) when the body lacks it.
   */
  datatype Body = Body(
    ok: bool,
    error: Option<string>,
    channels: Option<seq<ListedChannel>>,
    messages: Option<seq<Message>>,
    channel: Option<ChannelInfo>)

  /** One HTTP response: status code, body, and the `Retry-After` header when sent. */
  datatype Response = Response(status: int, body: Body, retryAfter: Option<int>)

  const StatusOk := 200
  const StatusTooManyRequests := 429
  const NotAuthed := "not_authed"
  const TokenKey := "token"

  /** The Web API methods the reaper calls; `Path` is the name that follows `https://slack.com/api/`. */
  datatype Endpoint = ChannelsList | ChannelsHistory | ChannelsInfo | ChatPostMessage | ChannelsArchive
  {
    function Path(): string {
      match this
      case ChannelsList => "channels.list"
      case ChannelsHistory => "channels.history"
      case ChannelsInfo => "channels.info"
      case ChatPostMessage => "chat.postMessage"
      case ChannelsArchive => "channels.archive"
    }
  }

  const ListEndpoint := ChannelsList
  const HistoryEndpoint := ChannelsHistory
  const InfoEndpoint := ChannelsInfo
  const PostEndpoint := ChatPostMessage
  const ArchiveEndpoint := ChannelsArchive

  /** What one response tells the wrapper to do. `Silence` stands for a request that is never answered. */
  datatype Step = AuthFailure | Answer(body: Body) | Rejected | Throttle(delay: int) | MissingRetryAfter | Silence

  /**
   * The wrapper's reading of one response, in the order it tests:
   * `not_authed` on a 200 first, then `ok` on a 200, then 429, else a failure.
   */
  function Classify(r: Response): (s: Step)
    ensures s.AuthFailure? <==> r.status == StatusOk && r.body.error == Some(NotAuthed)
    ensures s.Answer? <==> r.status == StatusOk && r.body.error != Some(NotAuthed) && r.body.ok
    ensures s.Answer? ==> s.body == r.body
    ensures s.Throttle? <==> r.status == StatusTooManyRequests && r.retryAfter.Some?
    ensures s.Throttle? ==> s.delay == r.retryAfter.value
    ensures s.MissingRetryAfter? <==> r.status == StatusTooManyRequests && r.retryAfter.None?
    ensures s.Rejected? <==> !s.AuthFailure? && !s.Answer? && r.status != StatusTooManyRequests
    ensures !s.Silence?
  {
    if r.status == StatusOk && r.body.error == Some(NotAuthed) then AuthFailure
    else if r.status == StatusOk && r.body.ok then Answer(r.body)
    else if r.status == StatusTooManyRequests then
      (if r.retryAfter.Some? then Throttle(r.retryAfter.value) else MissingRetryAfter)
    else Rejected
  }

  /**
   * The effect of one wrapper call on the script: the step it ends on, how many
   * responses it consumed, how many requests it sent, and the sleeps it took.
   */
  datatype Settled = Settled(last: Step, used: nat, sent: nat, delays: seq<int>)

  /**
   * One wrapper call against the responses still to come, when the next attempt
   * is preceded by `delay` seconds (slept only when positive): every 429 is
   * followed by a new attempt after its `Retry-After`, and the first other
   * response ends the call.
   */
  function Settle(script: seq<Response>, delay: int): (s: Settled)
    ensures !s.last.Throttle?
    ensures s.used <= |script|
    ensures s.sent == if s.last.Silence? then s.used + 1 else s.used
    ensures s.last.Silence? ==> s.used == |script|
    ensures forall i :: 0 <= i < |s.delays| ==> s.delays[i] > 0
    decreases |script|
  {
    var pause := if delay > 0 then [delay] else [];
    if script == [] then Settled(Silence, 0, 1, pause)
    else
      var step := Classify(script[0]);
      if step.Throttle? then
        var rest := Settle(script[1..], step.delay);
        Settled(rest.last, rest.used + 1, rest.sent + 1, pause + rest.delays)
      else Settled(step, 1, 1, pause)
  }

  /** A throttle costs one response, one request and its pause, and the call goes on with its `Retry-After`. */
  lemma SettleThrottle(script: seq<Response>, delay: int)
    requires script != [] && Classify(script[0]).Throttle?
    ensures var s := Settle(script, delay);
      var rest := Settle(script[1..], Classify(script[0]).delay);
      && s.last == rest.last && s.used == rest.used + 1 && s.sent == rest.sent + 1
      && s.delays == (if delay > 0 then [delay] else []) + rest.delays
  {
  }

  /** Any other response ends the call after one request. */
  lemma SettleFinal(script: seq<Response>, delay: int)
    requires script != [] && !Classify(script[0]).Throttle?
    ensures Settle(script, delay) == Settled(Classify(script[0]), 1, 1, if delay > 0 then [delay] else [])
  {
  }

  /** The `Retry-After` values of a run of throttling responses that are worth a sleep. */
  function PositiveDelays(throttles: seq<Response>): seq<int>
    requires forall i :: 0 <= i < |throttles| ==> throttles[i].retryAfter.Some?
  {
    if throttles == [] then []
    else
      (if throttles[0].retryAfter.value > 0 then [throttles[0].retryAfter.value] else [])
      + PositiveDelays(throttles[1..])
  }

  /**
   * A run of `k` throttling responses followed by any other response: the call
   * sends `k + 1` identical requests, sleeps exactly for the positive
   * `Retry-After` values in order (never before the first attempt), and ends
   * on the first non-429 response.
   */
  lemma {:induction false} ThrottledRetries(script: seq<Response>, k: nat, delay: int)
    requires k < |script|
    requires forall i :: 0 <= i < k ==> script[i].status == StatusTooManyRequests && script[i].retryAfter.Some?
    requires script[k].status != StatusTooManyRequests
    ensures Settle(script, delay) ==
      Settled(Classify(script[k]), k + 1, k + 1, (if delay > 0 then [delay] else []) + PositiveDelays(script[..k]))
    decreases k
  {
    if k > 0 {
      ThrottledRetries(script[1..], k - 1, script[0].retryAfter.value);
      assert script[1..][..k - 1] == script[..k][1..];
    }
  }

  /** A call is left waiting exactly when every remaining response is a throttle. */
  lemma {:induction false} SilenceOnlyAfterThrottles(script: seq<Response>, delay: int)
    ensures Settle(script, delay).last.Silence? <==> forall i :: 0 <= i < |script| ==> Classify(script[i]).Throttle?
    decreases |script|
  {
    if script != [] {
      SilenceOnlyAfterThrottles(script[1..], if Classify(script[0]).Throttle? then Classify(script[0]).delay else 0);
      if forall i :: 1 <= i < |script| ==> Classify(script[i]).Throttle? {
        assert forall i :: 0 <= i < |script| - 1 ==> Classify(script[1..][i]).Throttle?;
      }
    }
  }

  /** What `slack_api_http` hands back to its caller. */
  datatype ApiResult =
    | Json(body: Body)   // the decoded body of an `ok` response
    | NoneResult         // Python `None`
    | Raised             // an exception propagates out of the wrapper
    | Exited             // `sys.exit(1)`: the process ends
    | Stalled            // no answer in the script: the original would still be waiting

  /**
   * The result for the step a call ended on. A non-ok, non-429 response gives
   * `None` in the class version and an exception in the script (`strict`); a
   * 429 without `Retry-After` raises `KeyError`, rewrapped, in both.
   */
  function Outcome(last: Step, strict: bool): (r: ApiResult)
    requires !last.Throttle?
    ensures r.Exited? <==> last.AuthFailure?
    ensures r.Json? <==> last.Answer?
    ensures r.Json? ==> r.body == last.body
    ensures r.NoneResult? <==> last.Rejected? && !strict
    ensures r.Stalled? <==> last.Silence?
  {
    match last
    case AuthFailure => Exited
    case Answer(b) => Json(b)
    case Rejected => if strict then Raised else NoneResult
    case MissingRetryAfter => Raised
    case Silence => Stalled
  }

  /** Why a run stopped before the end: `sys.exit(1)`, an uncaught exception, or a wait that never ends. */
  datatype Halt = AuthExit | Crash | Stall

  /** What a caller that subscripts the result gets: the body, or the way the run ends (`None[...]` is a `TypeError`). */
  function Fetch(r: ApiResult): (f: Result<Body, Halt>)
    ensures f.Success? <==> r.Json?
    ensures f.Failure? ==> (f.error == AuthExit <==> r.Exited?) && (f.error == Stall <==> r.Stalled?)
  {
    match r
    case Json(b) => Success(b)
    case NoneResult => Failure(Crash)
    case Raised => Failure(Crash)
    case Exited => Failure(AuthExit)
    case Stalled => Failure(Stall)
  }

  /** What a caller that discards the result gets: nothing, unless the run ends. */
  function Ignore(r: ApiResult): (h: Option<Halt>)
    ensures h.None? <==> r.Json? || r.NoneResult?
    ensures h.Some? ==> (h.value == AuthExit <==> r.Exited?) && (h.value == Stall <==> r.Stalled?)
  {
    match r
    case Json(_) => None
    case NoneResult => None
    case Raised => Some(Crash)
    case Exited => Some(AuthExit)
    case Stalled => Some(Stall)
  }

  /**
   * How the caller of a call to `endpoint` ends the run when the call hands
   * back `result`, or `None` when the run goes on. The callers of
   * `channels.list` and `channels.info` subscript the body for `channels` and
   * `channel` (a missing key is a `KeyError`); the caller of
   * `channels.history` reads the body only if there is one; the posts and the
   * archive calls discard the result.
   */
  function Stop(endpoint: Endpoint, result: ApiResult): (h: Option<Halt>)
    ensures h.Some? ==> (h.value == AuthExit <==> result.Exited?) && (h.value == Stall <==> result.Stalled?)
    ensures result.Raised? || result.Exited? || result.Stalled? ==> h.Some?
    ensures endpoint == PostEndpoint || endpoint == ArchiveEndpoint ==> h == Ignore(result)
    ensures endpoint == HistoryEndpoint ==> (h.None? <==> result.Json?)
    ensures endpoint == ListEndpoint ==> (h.None? <==> result.Json? && result.body.channels.Some?)
    ensures endpoint == InfoEndpoint ==> (h.None? <==> result.Json? && result.body.channel.Some?)
  {
    match endpoint
    case ChannelsList =>
      (match Fetch(result)
       case Failure(h) => Some(h)
       case Success(body) => if body.channels.None? then Some(Crash) else None)
    case ChannelsInfo =>
      (match Fetch(result)
       case Failure(h) => Some(h)
       case Success(body) => if body.channel.None? then Some(Crash) else None)
    case ChannelsHistory =>
      (match Fetch(result)
       case Failure(h) => Some(h)
       case Success(_) => None)
    case ChatPostMessage => Ignore(result)
    case ChannelsArchive => Ignore(result)
  }

  /** One logical call of the wrapper and what it handed back. */
  datatype Exchange = Exchange(request: Request, result: ApiResult)

  /** How exchange `e` ends the run, if it does. */
  function Stops(e: Exchange): Option<Halt> {
    Stop(e.request.endpoint, e.result)
  }

  /** No exchange from position `from` on ended the run. */
  predicate Calm(log: seq<Exchange>, from: nat) {
    forall i :: from <= i < |log| ==> Stops(log[i]).None?
  }

  /** The exchanges from `from` on end with the one that stopped the run with `h`, and no earlier one stopped it. */
  predicate EndsWith(log: seq<Exchange>, from: nat, h: Halt) {
    && from < |log|
    && (forall i :: from <= i < |log| - 1 ==> Stops(log[i]).None?)
    && Stops(log[|log| - 1]) == Some(h)
  }

  /** Two calm stretches make a calm stretch. */
  lemma CalmAppend(a: seq<Exchange>, b: seq<Exchange>, from: nat)
    requires from <= |a| && Calm(a, from) && Calm(b, 0)
    ensures Calm(a + b, from)
  {
    forall i | from <= i < |a + b|
      ensures Stops((a + b)[i]).None?
    {
      if i >= |a| {
        assert (a + b)[i] == b[i - |a|];
      }
    }
  }

  /** A run that stops on the exchange after a calm stretch ends with that exchange. */
  lemma HaltAfter(prefix: seq<Exchange>, from: nat, ex: Exchange, h: Halt)
    requires from <= |prefix| && Calm(prefix, from) && Stops(ex) == Some(h)
    ensures EndsWith(prefix + [ex], from, h)
  {
    assert forall i :: 0 <= i < |prefix| ==> (prefix + [ex])[i] == prefix[i];
  }

  /** A run that stops somewhere after a calm stretch ends as it stops, counted from the start of the stretch. */
  lemma HaltLater(prefix: seq<Exchange>, log: seq<Exchange>, from: nat, h: Halt)
    requires from <= |prefix| && prefix <= log && Calm(prefix, from) && EndsWith(log, |prefix|, h)
    ensures EndsWith(log, from, h)
  {
    assert forall i :: 0 <= i < |prefix| ==> log[i] == prefix[i];
  }

  // ---------------------------------------------------------------- the platform's side

  /** The platform's side of a run: the responses still to come, every request sent, every sleep taken. */
  datatype Platform = Platform(script: seq<Response>, wire: seq<Request>, sleeps: seq<int>)

  /** The platform after one wrapper call sends `request`: `Settle` says what it consumed, sent and slept. */
  function AfterCall(p: Platform, request: Request): Platform {
    var s := Settle(p.script, 0);
    Platform(p.script[s.used..], p.wire + Repeat(request, s.sent), p.sleeps + s.delays)
  }

  /** What the next wrapper call hands back against `p`. */
  function CallResult(p: Platform, strict: bool): ApiResult {
    Outcome(Settle(p.script, 0).last, strict)
  }

  /**
   * The calls `log[lo..hi]` were answered by the platform, in order, from
   * `p0` to `p`: each result is what the next responses of the script give, and
   * the script, the wire and the sleeps moved on exactly as each call's
   * retries say.
   */
  ghost predicate Served(p0: Platform, p: Platform, log: seq<Exchange>, lo: nat, hi: nat, strict: bool)
    requires lo <= hi <= |log|
    decreases hi - lo
  {
    if lo == hi then p == p0
    else
      && log[lo].result == CallResult(p0, strict)
      && Served(AfterCall(p0, log[lo].request), p, log, lo + 1, hi, strict)
  }

  /** A served stretch stays served when the log grows. */
  lemma {:induction false} ServedExtend(p0: Platform, p: Platform, log: seq<Exchange>, log2: seq<Exchange>, lo: nat, hi: nat, strict: bool)
    requires lo <= hi <= |log| && log <= log2 && Served(p0, p, log, lo, hi, strict)
    ensures Served(p0, p, log2, lo, hi, strict)
    decreases hi - lo
  {
    if lo < hi {
      ServedExtend(AfterCall(p0, log[lo].request), p, log, log2, lo + 1, hi, strict);
    }
  }

  /** Two served stretches, one after the other, are a served stretch. */
  lemma {:induction false} ServedJoin(p0: Platform, p1: Platform, p2: Platform, log: seq<Exchange>, a: nat, b: nat, c: nat, strict: bool)
    requires a <= b <= c <= |log|
    requires Served(p0, p1, log, a, b, strict) && Served(p1, p2, log, b, c, strict)
    ensures Served(p0, p2, log, a, c, strict)
    decreases b - a
  {
    if a < b {
      ServedJoin(AfterCall(p0, log[a].request), p1, p2, log, a + 1, b, c, strict);
    }
  }

  /** The calls made since `log0`, then those made since `log1`, are the calls made since `log0`. */
  lemma ServedChain(p0: Platform, log0: seq<Exchange>, p1: Platform, log1: seq<Exchange>,
                    p2: Platform, log2: seq<Exchange>, strict: bool)
    requires log0 <= log1 <= log2
    requires Served(p0, p1, log1, |log0|, |log1|, strict) && Served(p1, p2, log2, |log1|, |log2|, strict)
    ensures log0 <= log2 && Served(p0, p2, log2, |log0|, |log2|, strict)
  {
    ServedExtend(p0, p1, log1, log2, |log0|, |log1|, strict);
    ServedJoin(p0, p1, p2, log2, |log0|, |log1|, |log2|, strict);
  }

  /**
   * The platform decides: two logs that send the same requests from the same
   * platform get the same results and leave the platform in the same state.
   */
  lemma {:induction false} ServedDetermined(p0: Platform, p: Platform, q: Platform, xs: seq<Exchange>, ys: seq<Exchange>, lo: nat, strict: bool)
    requires |xs| == |ys| && lo <= |xs|
    requires Served(p0, p, xs, lo, |xs|, strict) && Served(p0, q, ys, lo, |ys|, strict)
    requires forall i :: lo <= i < |xs| ==> xs[i].request == ys[i].request
    ensures p == q
    ensures forall i :: lo <= i < |xs| ==> xs[i] == ys[i]
    decreases |xs| - lo
  {
    if lo < |xs| {
      ServedDetermined(AfterCall(p0, xs[lo].request), p, q, xs, ys, lo + 1, strict);
    }
  }

  /** Everything sent on the wire during a served stretch is one of its logged requests: nothing goes out unlogged. */
  lemma {:induction false} ServedWire(p0: Platform, p: Platform, log: seq<Exchange>, lo: nat, hi: nat, strict: bool)
    requires lo <= hi <= |log| && Served(p0, p, log, lo, hi, strict)
    ensures p0.wire <= p.wire
    ensures forall j :: |p0.wire| <= j < |p.wire| ==> exists k :: lo <= k < hi && log[k].request == p.wire[j]
    decreases hi - lo
  {
    if lo < hi {
      var p1 := AfterCall(p0, log[lo].request);
      ServedWire(p1, p, log, lo + 1, hi, strict);
      forall j | |p0.wire| <= j < |p.wire|
        ensures exists k :: lo <= k < hi && log[k].request == p.wire[j]
      {
        if j < |p1.wire| {
          assert p.wire[j] == p1.wire[j] == log[lo].request;
        }
      }
    }
  }

  /** A served stretch that calls no `endpoint` puts no request to `endpoint` on the wire. */
  lemma ServedAvoids(p0: Platform, p: Platform, log: seq<Exchange>, lo: nat, hi: nat, strict: bool, endpoint: Endpoint)
    requires lo <= hi <= |log| && Served(p0, p, log, lo, hi, strict)
    requires forall k :: lo <= k < hi ==> log[k].request.endpoint != endpoint
    ensures p0.wire <= p.wire
    ensures forall j :: |p0.wire| <= j < |p.wire| ==> p.wire[j].endpoint != endpoint
  {
    ServedWire(p0, p, log, lo, hi, strict);
  }

  /** The request the wrapper sends once it has written the token into the payload. */
  function Issued(endpoint: Endpoint, fields: Fields, httpMethod: HttpMethod, token: Value): Request {
    Request(endpoint, fields[TokenKey := token], httpMethod)
  }

  function ListFields(): Fields {
    map["exclude_archived" := Int(1)]
  }

  function HistoryFields(channelId: string): Fields {
    map["inclusive" := Int(0), "oldest" := Int(0), "count" := Int(50), "channel" := Str(channelId)]
  }

  function InfoFields(channelId: string): Fields {
    map["channel" := Str(channelId)]
  }

  function PostFields(channelId: string, text: string): Fields {
    map["channel" := Str(channelId), "username" := Str("channel_reaper"), "icon_emoji" := Str(":ghost:"), "text" := Str(text)]
  }

  function ArchiveFields(channelId: string): Fields {
    map["channel" := Str(channelId)]
  }

  /** The request of `channels.list`, once the token is in. */
  function ListRequest(token: Value): Request {
    Issued(ListEndpoint, ListFields(), Get, token)
  }

  /** The request of `channels.history` for one channel. */
  function HistoryRequest(channelId: string, token: Value): Request {
    Issued(HistoryEndpoint, HistoryFields(channelId), Get, token)
  }

  /** The request of `channels.info` for one channel. */
  function InfoRequest(channelId: string, token: Value): Request {
    Issued(InfoEndpoint, InfoFields(channelId), Get, token)
  }

  /** The `chat.postMessage` request of `send_channel_message`. */
  function PostRequest(channelId: string, text: string, token: Value): Request {
    Issued(PostEndpoint, PostFields(channelId, text), Post, token)
  }

  /** The request of `channels.archive`, sent with the default method, GET. */
  function ArchiveRequest(channelId: string, token: Value): Request {
    Issued(ArchiveEndpoint, ArchiveFields(channelId), Get, token)
  }

  /** `n` copies of `x`. */
  function Repeat<T>(x: T, n: nat): (r: seq<T>)
    ensures |r| == n && forall i :: 0 <= i < n ==> r[i] == x
  {
    if n == 0 then [] else Repeat(x, n - 1) + [x]
  }

  /** A caller's payload dict, which the wrapper updates in place. */
  class Payload {
    var fields: Fields

    constructor (fields: Fields)
      ensures this.fields == fields
    {
      this.fields := fields;
    }
  }

  /**
   * The platform during one run: the responses it will still give, in order,
   * every HTTP request sent to it (`wire`), every wrapper call with its result
   * (`log`), and the sleeps taken between attempts.
   */
  class Remote {
    var script: seq<Response>
    var wire: seq<Request>
    var log: seq<Exchange>
    ghost var sleeps: seq<int>

    constructor (script: seq<Response>)
      ensures this.script == script && wire == [] && log == [] && sleeps == []
    {
      this.script := script;
      wire, log := [], [];
      sleeps := [];
    }

    /** The platform's side as a value. */
    ghost function State(): Platform
      reads this
    {
      Platform(script, wire, sleeps)
    }

    /** Since state `p0` with call log `log0`, the log only grew, and every call logged since was answered by the platform. */
    ghost predicate ServedSince(p0: Platform, log0: seq<Exchange>, strict: bool)
      reads this
    {
      log0 <= log && Served(p0, State(), log, |log0|, |log|, strict)
    }
  }

  /**
   * What the loop of `Attempts` keeps: `n` responses of the script are used,
   * and the sleeps taken so far followed by what `Settle` does with the rest
   * make up the whole call `goal`.
   */
  ghost predicate Attempted(goal: Settled, script: seq<Response>, n: nat, rest: seq<Response>, delay: int, slept: seq<int>) {
    && n <= |script| && rest == script[n..]
    && goal.last == Settle(rest, delay).last
    && goal.used == n + Settle(rest, delay).used
    && goal.sent == n + Settle(rest, delay).sent
    && goal.delays == slept + Settle(rest, delay).delays
  }

  /** After a throttle the call goes on with one response fewer, its pause taken and its `Retry-After` as the delay. */
  lemma AttemptedThrottle(goal: Settled, script: seq<Response>, n: nat, rest: seq<Response>, delay: int, slept: seq<int>)
    requires Attempted(goal, script, n, rest, delay, slept)
    requires rest != [] && Classify(rest[0]).Throttle?
    ensures Attempted(goal, script, n + 1, rest[1..], Classify(rest[0]).delay,
                      slept + if delay > 0 then [delay] else [])
  {
    var pause := if delay > 0 then [delay] else [];
    var next := Settle(rest[1..], Classify(rest[0]).delay);
    SettleThrottle(rest, delay);
    assert (slept + pause) + next.delays == slept + (pause + next.delays);
    assert script[n..][1..] == script[n + 1..];
  }

  /** Any other response, or the end of the script, settles the call here. */
  lemma AttemptedEnd(goal: Settled, script: seq<Response>, n: nat, rest: seq<Response>, delay: int, slept: seq<int>)
    requires Attempted(goal, script, n, rest, delay, slept)
    requires rest == [] || !Classify(rest[0]).Throttle?
    ensures var pause := if delay > 0 then [delay] else [];
      && goal.delays == slept + pause
      && goal.sent == n + 1
      && (rest == [] ==> goal.last == Silence && goal.used == n)
      && (rest != [] ==> goal.last == Classify(rest[0]) && goal.used == n + 1 && rest[1..] == script[n + 1..])
  {
    if rest != [] {
      SettleFinal(rest, delay);
      assert script[n..][1..] == script[n + 1..];
    }
  }

  /**
   * The attempts of one wrapper call: send `request`, and on every 429 sleep
   * for its `Retry-After` (only when positive) and send it again, until some
   * other response arrives or the script runs out. Returns the step the call
   * ended on, the responses left, the requests sent and the sleeps taken.
   */
  method Attempts(script: seq<Response>, request: Request)
    returns (last: Step, rest: seq<Response>, sent: seq<Request>, ghost slept: seq<int>)
    ensures var s := Settle(script, 0);
      && last == s.last && rest == script[s.used..] && sent == Repeat(request, s.sent) && slept == s.delays
  {
    ghost var goal := Settle(script, 0);
    ghost var n: nat := 0;
    rest, sent, slept := script, [], [];
    var delay := 0;
    while true
      invariant Attempted(goal, script, n, rest, delay, slept) && sent == Repeat(request, n)
      decreases |rest|
    {
      var pause := if delay > 0 then [delay] else [];
      if rest == [] || !Classify(rest[0]).Throttle? {
        AttemptedEnd(goal, script, n, rest, delay, slept);
      } else {
        AttemptedThrottle(goal, script, n, rest, delay, slept);
      }
      slept := slept + pause;   // time.sleep(retry_delay) when retry_delay > 0
      sent := sent + [request];
      if rest == [] {
        last := Silence;
        return;
      }
      var step := Classify(rest[0]);
      if !step.Throttle? {
        last, rest := step, rest[1..];
        return;
      }
      rest, n, delay := rest[1..], n + 1, step.delay;
    }
  }

  /**
   * `slack_api_http`: write the token into the caller's payload, send the
   * request, and on every 429 send the identical request again after sleeping
   * for its `Retry-After`, until some other response arrives.
   */
  method Call(remote: Remote, endpoint: Endpoint, payload: Payload, httpMethod: HttpMethod, token: Value, strict: bool)
    returns (out: ApiResult)
    modifies remote, payload
    ensures payload.fields == old(payload.fields)[TokenKey := token]
    ensures
      var request := Request(endpoint, payload.fields, httpMethod);
      var s := Settle(old(remote.script), 0);
      && out == Outcome(s.last, strict)
      && remote.script == old(remote.script)[s.used..]
      && remote.wire == old(remote.wire) + Repeat(request, s.sent)
      && remote.sleeps == old(remote.sleeps) + s.delays
      && remote.log == old(remote.log) + [Exchange(request, out)]
    ensures remote.ServedSince(old(remote.State()), old(remote.log), strict)
  {
    payload.fields := payload.fields[TokenKey := token];
    var request := Request(endpoint, payload.fields, httpMethod);
    var last, rest, sent, slept := Attempts(remote.script, request);
    out := Outcome(last, strict);
    remote.script, remote.wire := rest, remote.wire + sent;
    remote.sleeps := remote.sleeps + slept;
    remote.log := remote.log + [Exchange(request, out)];
  }
}
