/**
 * What one run of either version of the reaper is made of: the channels it
 * visits and the verdicts it reaches on each, the channels it selects, in
 * inventory order, the calls it makes to each endpoint, and the lines it
 * prints or logs.
 */
module Runs {
  import opened Wrappers
  import opened Slack
  import opened Policy

  const DryRunBanner := "THIS IS A DRY RUN. NO CHANNELS ARE ACTUALLY ARCHIVED."
  const AuthHelp := "Need to setup auth. eg, SLACK_TOKEN=<secret token> python slack-autoarchive.py"

  /** `'Archiving channel... %s' % channel['name']`. */
  function ArchivingLine(c: Channel): string {
    "Archiving channel... " + c.name
  }

  /**
   * The lines written after a call with result `r`: the wrapper writes the
   * help line before `sys.exit(1)` (to the audit log in the class version, to
   * standard output in the script).
   */
  function AuthNoted(audit: seq<string>, r: ApiResult): seq<string> {
    if r.Exited? then audit + [AuthHelp] else audit
  }

  // ---------------------------------------------------------------- visits

  /**
   * What the platform answered for one channel of the inventory, and the two
   * verdicts drawn from it. The script makes no `channels.info` call (`info`
   * is then `NoneResult`), and no `channels.history` call for an exempt
   * channel (`history` is then `NoneResult` and `disused` false).
   */
  datatype Visit = Visit(channel: Channel, info: ApiResult, history: ApiResult, exempt: bool, disused: bool, notice: ApiResult, archive: ApiResult)

  /** The channel is archived: not exempt and disused. */
  predicate Selected(v: Visit) {
    !v.exempt && v.disused
  }

  /** The visited channels, in order. */
  function Channels(vs: seq<Visit>): (cs: seq<Channel>)
    ensures |cs| == |vs| && forall i :: 0 <= i < |vs| ==> cs[i] == vs[i].channel
  {
    seq(|vs|, i requires 0 <= i < |vs| => vs[i].channel)
  }

  /** Which visited channels are archived. */
  function Flags(vs: seq<Visit>): (flags: seq<bool>)
    ensures |flags| == |vs| && forall i :: 0 <= i < |vs| ==> (flags[i] <==> Selected(vs[i]))
  {
    seq(|vs|, i requires 0 <= i < |vs| => Selected(vs[i]))
  }

  /** The channels selected on a sequence of visits, in visiting order. */
  function Archived(vs: seq<Visit>): seq<Channel>
    decreases |vs|
  {
    if vs == [] then []
    else
      var v := vs[|vs| - 1];
      Archived(vs[..|vs| - 1]) + if Selected(v) then [v.channel] else []
  }

  /** The selected channels are the visited channels filtered by their flags, order kept. */
  lemma {:induction false} ArchivedFilters(vs: seq<Visit>)
    ensures Archived(vs) == FilterBy(Channels(vs), Flags(vs))
    decreases |vs|
  {
    if vs != [] {
      var n := |vs| - 1;
      ArchivedFilters(vs[..n]);
      assert Channels(vs)[..n] == Channels(vs[..n]);
      assert Flags(vs)[..n] == Flags(vs[..n]);
    }
  }

  /** The answers of one run: the listing, each visit, and the report. */
  datatype Trace = Trace(listing: ApiResult, visits: seq<Visit>, report: ApiResult)

  /** How a run ends: with the archived channels, or stopped. */
  datatype RunOutcome = Finished(archived: seq<Channel>) | Halted(halt: Halt)

  /** One more visit adds its channel to the visited ones, and to the selected ones when it is selected. */
  lemma Extend(vs: seq<Visit>, v: Visit)
    ensures Channels(vs + [v]) == Channels(vs) + [v.channel]
    ensures Archived(vs + [v]) == Archived(vs) + if Selected(v) then [v.channel] else []
  {
  }

  // ---------------------------------------------------------------- calls

  /** The requests of `log` sent to `endpoint`, in order. */
  function CallsTo(log: seq<Exchange>, endpoint: Endpoint): seq<Request>
    decreases |log|
  {
    if log == [] then []
    else
      var last := log[|log| - 1].request;
      CallsTo(log[..|log| - 1], endpoint) + if last.endpoint == endpoint then [last] else []
  }

  /** Selecting the calls to one endpoint distributes over concatenation. */
  lemma {:induction false} CallsToAppend(a: seq<Exchange>, b: seq<Exchange>, endpoint: Endpoint)
    ensures CallsTo(a + b, endpoint) == CallsTo(a, endpoint) + CallsTo(b, endpoint)
    decreases |b|
  {
    if b == [] {
      assert a + b == a;
    } else {
      var n := |b| - 1;
      assert (a + b)[..|a| + n] == a + b[..n];
      assert (a + b)[|a| + n] == b[n];
      CallsToAppend(a, b[..n], endpoint);
      var last := if b[n].request.endpoint == endpoint then [b[n].request] else [];
      AppendAssociates(CallsTo(a, endpoint), CallsTo(b[..n], endpoint), last);
    }
  }

  /** The calls to `endpoint` in a single exchange. */
  lemma CallsToOne(x: Exchange, endpoint: Endpoint)
    ensures CallsTo([x], endpoint) == if x.request.endpoint == endpoint then [x.request] else []
  {
  }

  /** A leading exchange with another endpoint adds no call to `endpoint`. */
  lemma CallsAfter(first: Exchange, run: seq<Exchange>, rest: seq<Exchange>, endpoint: Endpoint)
    requires first.request.endpoint != endpoint
    ensures CallsTo([first] + run + rest, endpoint) == CallsTo(run, endpoint) + CallsTo(rest, endpoint)
  {
    CallsToOne(first, endpoint);
    CallsToAppend([first], run, endpoint);
    CallsToAppend([first] + run, rest, endpoint);
    assert CallsTo([first] + run, endpoint) == CallsTo(run, endpoint);
  }

  /** A log without calls to `endpoint` holds no request to it. */
  lemma {:induction false} CallsToEmpty(log: seq<Exchange>, endpoint: Endpoint)
    requires CallsTo(log, endpoint) == []
    ensures forall i :: 0 <= i < |log| ==> log[i].request.endpoint != endpoint
    decreases |log|
  {
    if log != [] {
      var n := |log| - 1;
      CallsToEmpty(log[..n], endpoint);
      assert forall i :: 0 <= i < n ==> log[..n][i] == log[i];
    }
  }

  /** The calls to `endpoint` among two exchanges. */
  lemma CallsToPair(x: Exchange, y: Exchange, endpoint: Endpoint)
    ensures CallsTo([x, y], endpoint)
      == (if x.request.endpoint == endpoint then [x.request] else [])
       + (if y.request.endpoint == endpoint then [y.request] else [])
  {
    assert [x, y][..1] == [x] && [x][..0] == [];
    assert CallsTo([x], endpoint) == CallsTo([], endpoint) + if x.request.endpoint == endpoint then [x.request] else [];
    assert CallsTo([x, y], endpoint) == CallsTo([x], endpoint) + if y.request.endpoint == endpoint then [y.request] else [];
  }

  /** The `channels.archive` requests for `cs`, in order. */
  function ArchiveRequests(cs: seq<Channel>, token: Value): (rs: seq<Request>)
    ensures |rs| == |cs| && forall i :: 0 <= i < |cs| ==> rs[i] == ArchiveRequest(cs[i].id, token)
  {
    seq(|cs|, i requires 0 <= i < |cs| => ArchiveRequest(cs[i].id, token))
  }

  /** The notices `archive_channel` posts to `cs`, in order. */
  function NoticeRequests(cs: seq<Channel>, notice: string, token: Value): (rs: seq<Request>)
    ensures |rs| == |cs| && forall i :: 0 <= i < |cs| ==> rs[i] == PostRequest(cs[i].id, notice, token)
  {
    seq(|cs|, i requires 0 <= i < |cs| => PostRequest(cs[i].id, notice, token))
  }

  /** One more channel adds its archive request at the end. */
  lemma ArchiveRequestsStep(cs: seq<Channel>, c: Channel, token: Value)
    ensures ArchiveRequests(cs + [c], token) == ArchiveRequests(cs, token) + [ArchiveRequest(c.id, token)]
  {
  }

  /** One more channel adds its notice at the end. */
  lemma NoticeRequestsStep(cs: seq<Channel>, c: Channel, notice: string, token: Value)
    ensures NoticeRequests(cs + [c], notice, token) == NoticeRequests(cs, notice, token) + [PostRequest(c.id, notice, token)]
  {
  }

  /** The channel a request names, if any. */
  function Target(r: Request): Value {
    if "channel" in r.fields then r.fields["channel"] else Null
  }

  /** Every archive call in `log` comes straight after a post to the same channel. */
  predicate NoticedFirst(log: seq<Exchange>) {
    forall k :: 0 <= k < |log| && log[k].request.endpoint == ArchiveEndpoint ==>
      && 0 < k
      && log[k - 1].request.endpoint == PostEndpoint
      && Target(log[k - 1].request) == Target(log[k].request)
  }

  /** A log none of whose requests goes to `endpoint` holds no call to it. */
  lemma {:induction false} NoCallsTo(log: seq<Exchange>, endpoint: Endpoint)
    requires forall k :: 0 <= k < |log| ==> log[k].request.endpoint != endpoint
    ensures CallsTo(log, endpoint) == []
    decreases |log|
  {
    if log != [] {
      NoCallsTo(log[..|log| - 1], endpoint);
    }
  }

  /** No exchange from position `from` on is a call to one of `endpoints`. */
  predicate NoCallTo(log: seq<Exchange>, from: nat, endpoints: set<Endpoint>) {
    forall k :: from <= k < |log| ==> log[k].request.endpoint !in endpoints
  }

  /** Two stretches without a call to `endpoints`, one after the other, make one. */
  lemma NoCallChain(log1: seq<Exchange>, log2: seq<Exchange>, from: nat, endpoints: set<Endpoint>)
    requires from <= |log1| && log1 <= log2
    requires NoCallTo(log1, from, endpoints) && NoCallTo(log2, |log1|, endpoints)
    ensures NoCallTo(log2, from, endpoints)
  {
    forall k | from <= k < |log1|
      ensures log2[k].request.endpoint !in endpoints
    {
      assert log2[k] == log1[k];
    }
  }

  // ---------------------------------------------------------------- sequences

  /** A prefix of a prefix is a prefix. */
  lemma PrefixChain<T>(a: seq<T>, b: seq<T>, c: seq<T>)
    requires a <= b && b <= c
    ensures a <= c
  {
  }

  /** Dropping the first part of a concatenation leaves the rest. */
  lemma DropPrefix<T>(a: seq<T>, b: seq<T>, c: seq<T>, d: seq<T>)
    ensures (a + b + c + d)[|a|..] == b + c + d
  {
  }

  /** Taking one more element of a sequence appends that element. */
  lemma TakeOneMore<T>(s: seq<T>, i: nat)
    requires i < |s|
    ensures s[..i + 1] == s[..i] + [s[i]]
  {
  }

  /** Concatenation regroups freely. */
  lemma AppendAssociates<T>(a: seq<T>, b: seq<T>, c: seq<T>)
    ensures a + (b + c) == (a + b) + c
  {
  }
}
