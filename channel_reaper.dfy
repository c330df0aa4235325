/**
 * `ChannelReaper`, the class version of the reaper: it lists the workspace's
 * channels, checks each one for an exemption and for staleness, archives
 * (or, in a dry run, only reports) the stale unexempted ones in inventory
 * order, and sends the admin report.
 *
 * The platform is a `Remote`; `auditLog` is the `./audit.log` logger.
 */
module ChannelReaper {
  import opened Wrappers
  import opened Text
  import opened Slack
  import opened Config
  import opened Policy
  import opened Runs

  // ---------------------------------------------------------------- specification

  /** The exemption test once the channel's purpose and topic are known. */
  predicate Exempt(c: Channel, info: ChannelInfo, marker: string, keywords: seq<string>) {
    Contains(info.purpose, marker) || Contains(info.topic, marker) || AnyKeywordMatches(keywords, c.name)
  }

  /**
   * `is_channel_whitelisted` once `channels.info` answered with `result`:
   * exempt when the marker occurs in the purpose or the topic, or some keyword
   * without its `#`s occurs in the name; a result without a `channel` stops the run.
   */
  function WhitelistVerdict(result: ApiResult, c: Channel, marker: string, keywords: seq<string>): (r: Result<bool, Halt>)
    ensures r.Success? <==> result.Json? && result.body.channel.Some?
    ensures r.Success? ==> (r.value <==>
      || Contains(result.body.channel.value.purpose, marker)
      || Contains(result.body.channel.value.topic, marker)
      || exists i :: 0 <= i < |keywords| && Contains(c.name, StripHashes(keywords[i])))
    ensures r.Failure? ==> Stop(InfoEndpoint, result) == Some(r.error)
  {
    match Fetch(result)
    case Failure(h) => Failure(h)
    case Success(body) =>
      if body.channel.None? then Failure(Crash)   // KeyError on ['channel']
      else Success(Exempt(c, body.channel.value, marker, keywords))
  }

  /** An empty marker exempts every channel whose `channels.info` answered. */
  lemma EmptyMarkerExemptsAll(result: ApiResult, c: Channel, keywords: seq<string>)
    requires result.Json? && result.body.channel.Some?
    ensures WhitelistVerdict(result, c, "", keywords) == Success(true)
  {
    EmptyIsContained(result.body.channel.value.purpose);
  }

  /** The visit did not stop the run, and its verdicts are the ones its answers give. */
  predicate Completed(v: Visit, s: Settings, keywords: seq<string>) {
    && WhitelistVerdict(v.info, v.channel, s.skipChannelStr, keywords) == Success(v.exempt)
    && DisusedVerdict(v.history, v.channel, s.tooOld, s.minMembers, s.skipSubtypes) == Success(v.disused)
    && (Selected(v) && !s.dryRun ==> Ignore(v.notice).None? && Ignore(v.archive).None?)
  }

  /**
   * The calls of one visit: `channels.info`, then `channels.history`, and, for
   * a selected channel outside a dry run, the notice and then the archive call.
   */
  function VisitLog(v: Visit, s: Settings, notice: string): seq<Exchange> {
    var token := Str(s.slackToken);
    [Exchange(InfoRequest(v.channel.id, token), v.info), Exchange(HistoryRequest(v.channel.id, token), v.history)]
    + if Selected(v) && !s.dryRun then
        [Exchange(PostRequest(v.channel.id, notice, token), v.notice), Exchange(ArchiveRequest(v.channel.id, token), v.archive)]
      else []
  }

  /** The checks' two calls, then the notice and the archive call of a selected channel outside a dry run, are its visit. */
  lemma {:induction false} VisitedAfter(v: Visit, s: Settings, notice: string, log0: seq<Exchange>, checked: seq<Exchange>, log: seq<Exchange>)
    requires var token := Str(s.slackToken);
      checked == log0 + [Exchange(InfoRequest(v.channel.id, token), v.info), Exchange(HistoryRequest(v.channel.id, token), v.history)]
    requires Selected(v) && !s.dryRun ==> log == checked + [
      Exchange(PostRequest(v.channel.id, notice, Str(s.slackToken)), v.notice),
      Exchange(ArchiveRequest(v.channel.id, Str(s.slackToken)), v.archive)]
    requires !(Selected(v) && !s.dryRun) ==> log == checked
    ensures log == log0 + VisitLog(v, s, notice)
  {
    if Selected(v) && !s.dryRun {
      AppendAssociates(log0, checked[|log0|..], log[|checked|..]);
    }
  }

  /** The calls of a sequence of visits, in order. */
  function RunLog(vs: seq<Visit>, s: Settings, notice: string): seq<Exchange>
    decreases |vs|
  {
    if vs == [] then [] else RunLog(vs[..|vs| - 1], s, notice) + VisitLog(vs[|vs| - 1], s, notice)
  }

  /** The audit lines `archive_channel` writes for one channel: once in a dry run, twice otherwise. */
  function ChannelAudit(c: Channel, dryRun: bool): seq<string> {
    if dryRun then [ArchivingLine(c)] else [ArchivingLine(c), ArchivingLine(c)]
  }

  /** The audit lines for the archived channels: each named once in a dry run, twice otherwise. */
  function ArchivingAudit(archived: seq<Channel>, dryRun: bool): (lines: seq<string>)
    decreases |archived|
  {
    if archived == [] then []
    else
      var c := archived[|archived| - 1];
      ArchivingAudit(archived[..|archived| - 1], dryRun) + ChannelAudit(c, dryRun)
  }

  /** The admin report call: exactly one when an admin channel is set, none otherwise. */
  function ReportLog(archived: seq<Channel>, s: Settings, result: ApiResult): seq<Exchange> {
    if s.adminChannel != "" then
      [Exchange(PostRequest(s.adminChannel, ReportText(archived, s.dryRun), Str(s.slackToken)), result)]
    else []
  }

  /** A completed visit makes no call that ends the run. */
  lemma VisitCalm(v: Visit, s: Settings, keywords: seq<string>, notice: string)
    requires Completed(v, s, keywords)
    ensures Calm(VisitLog(v, s, notice), 0)
  {
    var log := VisitLog(v, s, notice);
    assert Stops(log[0]) == Stop(InfoEndpoint, v.info);
    assert Stops(log[1]) == Stop(HistoryEndpoint, v.history);
    if Selected(v) && !s.dryRun {
      assert Stops(log[2]) == Stop(PostEndpoint, v.notice);
      assert Stops(log[3]) == Stop(ArchiveEndpoint, v.archive);
    }
  }

  /** A run of completed visits contains no call that ends the run. */
  lemma {:induction false} RunLogCalm(vs: seq<Visit>, s: Settings, keywords: seq<string>, notice: string)
    requires forall i :: 0 <= i < |vs| ==> Completed(vs[i], s, keywords)
    ensures Calm(RunLog(vs, s, notice), 0)
    decreases |vs|
  {
    if vs != [] {
      var n := |vs| - 1;
      RunLogCalm(vs[..n], s, keywords, notice);
      VisitCalm(vs[n], s, keywords, notice);
      CalmAppend(RunLog(vs[..n], s, notice), VisitLog(vs[n], s, notice), 0);
    }
  }

  /** One more visit extends the selection and the calls at their ends. */
  lemma VisitStep(vs: seq<Visit>, v: Visit, s: Settings, notice: string)
    ensures Archived(vs + [v]) == Archived(vs) + if Selected(v) then [v.channel] else []
    ensures RunLog(vs + [v], s, notice) == RunLog(vs, s, notice) + VisitLog(v, s, notice)
    ensures Channels(vs + [v]) == Channels(vs) + [v.channel]
  {
  }

  /** Archiving one more channel adds its lines at the end of the audit. */
  lemma ArchivingAuditStep(archived: seq<Channel>, c: Channel, dryRun: bool)
    ensures ArchivingAudit(archived + [c], dryRun) == ArchivingAudit(archived, dryRun) + ChannelAudit(c, dryRun)
  {
  }

  /**
   * Where the loop of `main` stands after the visits `vs` to the channels
   * `prefix`, from platform log `log0` and audit log `audit0`.
   */
  ghost predicate Reaped(s: Settings, keywords: seq<string>, notice: string, prefix: seq<Channel>,
                         vs: seq<Visit>, archived: seq<Channel>,
                         log0: seq<Exchange>, audit0: seq<string>, log: seq<Exchange>, audit: seq<string>)
  {
    && Channels(vs) == prefix
    && (forall j :: 0 <= j < |vs| ==> Completed(vs[j], s, keywords))
    && archived == Archived(vs)
    && log == log0 + RunLog(vs, s, notice)
    && audit == audit0 + ArchivingAudit(archived, s.dryRun)
  }

  /** A completed visit to the next channel carries the loop one channel further. */
  lemma ReapedStep(s: Settings, keywords: seq<string>, notice: string, prefix: seq<Channel>,
                   vs: seq<Visit>, archived: seq<Channel>, v: Visit,
                   log0: seq<Exchange>, audit0: seq<string>, log: seq<Exchange>, audit: seq<string>,
                   log1: seq<Exchange>, audit1: seq<string>)
    requires Reaped(s, keywords, notice, prefix, vs, archived, log0, audit0, log, audit)
    requires Completed(v, s, keywords)
    requires log1 == log + VisitLog(v, s, notice)
    requires audit1 == if Selected(v) then audit + ChannelAudit(v.channel, s.dryRun) else audit
    ensures Reaped(s, keywords, notice, prefix + [v.channel], vs + [v],
                   if Selected(v) then archived + [v.channel] else archived,
                   log0, audit0, log1, audit1)
  {
    VisitStep(vs, v, s, notice);
    AppendAssociates(log0, RunLog(vs, s, notice), VisitLog(v, s, notice));
    if Selected(v) {
      ArchivingAuditStep(archived, v.channel, s.dryRun);
      AppendAssociates(audit0, ArchivingAudit(archived, s.dryRun), ChannelAudit(v.channel, s.dryRun));
    }
  }

  /** The listing answered, and every listed channel was visited, in order, and both checks completed. */
  ghost predicate VisitedAll(listing: ApiResult, vs: seq<Visit>, s: Settings, keywords: seq<string>) {
    && listing.Json? && listing.body.channels.Some?
    && Channels(vs) == Inventory(listing.body.channels.value)
    && (forall i :: 0 <= i < |vs| ==> Completed(vs[i], s, keywords))
  }

  /**
   * What a finished run did, from platform log `log0` and audit log `audit0`:
   * it listed the channels, visited every listed channel in order with both
   * checks, archived exactly the selected ones in inventory order, sent the
   * report, asked the platform nothing else, and wrote the banner (in a dry
   * run) and the archiving lines.
   */
  ghost predicate FinishedRun(log0: seq<Exchange>, log: seq<Exchange>, audit0: seq<string>, audit: seq<string>,
                              s: Settings, keywords: seq<string>, notice: string, archived: seq<Channel>, trace: Trace)
  {
    var vs := trace.visits;
    && VisitedAll(trace.listing, vs, s, keywords)
    && archived == FilterBy(Channels(vs), Flags(vs))
    && (s.adminChannel != "" ==> Ignore(trace.report).None?)
    && log == log0 + [Exchange(ListRequest(Str(s.slackToken)), trace.listing)]
         + RunLog(vs, s, notice) + ReportLog(archived, s, trace.report)
    && audit == (if s.dryRun then audit0 + [DryRunBanner] else audit0) + ArchivingAudit(archived, s.dryRun)
  }

  /** One visit posts and archives only a selected channel outside a dry run, once each. */
  lemma VisitCalls(v: Visit, s: Settings, notice: string)
    ensures var token := Str(s.slackToken);
      var chosen := Selected(v) && !s.dryRun;
      && CallsTo(VisitLog(v, s, notice), ArchiveEndpoint) == (if chosen then [ArchiveRequest(v.channel.id, token)] else [])
      && CallsTo(VisitLog(v, s, notice), PostEndpoint) == (if chosen then [PostRequest(v.channel.id, notice, token)] else [])
  {
    var token := Str(s.slackToken);
    var checks := [Exchange(InfoRequest(v.channel.id, token), v.info), Exchange(HistoryRequest(v.channel.id, token), v.history)];
    CallsToPair(checks[0], checks[1], ArchiveEndpoint);
    CallsToPair(checks[0], checks[1], PostEndpoint);
    if Selected(v) && !s.dryRun {
      var acts := [Exchange(PostRequest(v.channel.id, notice, token), v.notice), Exchange(ArchiveRequest(v.channel.id, token), v.archive)];
      CallsToPair(acts[0], acts[1], ArchiveEndpoint);
      CallsToPair(acts[0], acts[1], PostEndpoint);
      CallsToAppend(checks, acts, ArchiveEndpoint);
      CallsToAppend(checks, acts, PostEndpoint);
    } else {
      assert VisitLog(v, s, notice) == checks;
    }
  }

  /**
   * Over a whole sweep, the only archive calls are those for the selected
   * channels, one per channel, in inventory order, and none in a dry run.
   */
  lemma {:induction false} RunLogArchives(vs: seq<Visit>, s: Settings, notice: string)
    ensures CallsTo(RunLog(vs, s, notice), ArchiveEndpoint)
      == if s.dryRun then [] else ArchiveRequests(Archived(vs), Str(s.slackToken))
    decreases |vs|
  {
    if vs != [] {
      var n := |vs| - 1;
      var v := vs[n];
      var token := Str(s.slackToken);
      RunLogArchives(vs[..n], s, notice);
      assert RunLog(vs, s, notice) == RunLog(vs[..n], s, notice) + VisitLog(v, s, notice);
      assert Archived(vs) == Archived(vs[..n]) + if Selected(v) then [v.channel] else [];
      CallsToAppend(RunLog(vs[..n], s, notice), VisitLog(v, s, notice), ArchiveEndpoint);
      VisitCalls(v, s, notice);
      ArchiveRequestsStep(Archived(vs[..n]), v.channel, token);
    }
  }


  /**
   * Over a whole sweep, the only notices are those to the selected channels,
   * one per channel, in inventory order, and none in a dry run.
   */
  lemma {:induction false} RunLogNotices(vs: seq<Visit>, s: Settings, notice: string)
    ensures CallsTo(RunLog(vs, s, notice), PostEndpoint)
      == if s.dryRun then [] else NoticeRequests(Archived(vs), notice, Str(s.slackToken))
    decreases |vs|
  {
    if vs != [] {
      var n := |vs| - 1;
      var v := vs[n];
      var token := Str(s.slackToken);
      RunLogNotices(vs[..n], s, notice);
      assert RunLog(vs, s, notice) == RunLog(vs[..n], s, notice) + VisitLog(v, s, notice);
      assert Archived(vs) == Archived(vs[..n]) + if Selected(v) then [v.channel] else [];
      CallsToAppend(RunLog(vs[..n], s, notice), VisitLog(v, s, notice), PostEndpoint);
      VisitCalls(v, s, notice);
      NoticeRequestsStep(Archived(vs[..n]), v.channel, notice, token);
    }
  }

  /** Every archive call of a sweep comes straight after the notice to the same channel. */
  lemma {:induction false} NoticePrecedesArchive(vs: seq<Visit>, s: Settings, notice: string)
    ensures NoticedFirst(RunLog(vs, s, notice))
    decreases |vs|
  {
    if vs != [] {
      var n := |vs| - 1;
      var v := vs[n];
      var token := Str(s.slackToken);
      NoticePrecedesArchive(vs[..n], s, notice);
      var prefix := RunLog(vs[..n], s, notice);
      var tail := VisitLog(v, s, notice);
      var log := prefix + tail;
      forall k | 0 <= k < |log| && log[k].request.endpoint == ArchiveEndpoint
        ensures 0 < k && log[k - 1].request.endpoint == PostEndpoint && Target(log[k - 1].request) == Target(log[k].request)
      {
        if k < |prefix| {
          assert log[k] == prefix[k];
          assert prefix[k].request.endpoint == ArchiveEndpoint;
          assert 0 < k;
          assert log[k - 1] == prefix[k - 1];
        } else {
          assert log[k] == tail[k - |prefix|];
          assert k - |prefix| == 3;
          assert log[k - 1] == tail[2];
          assert "channel" != TokenKey;
        }
      }
    }
  }

  /** The archive calls of a listing, a sweep and a report are those of the sweep. */
  lemma SweepArchives(listing: Exchange, vs: seq<Visit>, s: Settings, notice: string, report: seq<Exchange>)
    requires listing.request.endpoint == ListEndpoint
    requires forall k :: 0 <= k < |report| ==> report[k].request.endpoint == PostEndpoint
    ensures CallsTo([listing] + RunLog(vs, s, notice) + report, ArchiveEndpoint)
      == if s.dryRun then [] else ArchiveRequests(Archived(vs), Str(s.slackToken))
  {
    RunLogArchives(vs, s, notice);
    CallsAfter(listing, RunLog(vs, s, notice), report, ArchiveEndpoint);
    NoCallsTo(report, ArchiveEndpoint);
  }

  /** The posts of a listing, a sweep and a report are the sweep's notices, then the report. */
  lemma SweepPosts(listing: Exchange, vs: seq<Visit>, s: Settings, notice: string, report: seq<Exchange>)
    requires listing.request.endpoint == ListEndpoint
    ensures CallsTo([listing] + RunLog(vs, s, notice) + report, PostEndpoint)
      == (if s.dryRun then [] else NoticeRequests(Archived(vs), notice, Str(s.slackToken))) + CallsTo(report, PostEndpoint)
  {
    RunLogNotices(vs, s, notice);
    CallsAfter(listing, RunLog(vs, s, notice), report, PostEndpoint);
  }

  /**
   * A finished run archived exactly the channels it reports, in inventory
   * order, and none in a dry run; it posted a notice to each of them, in the
   * same order, and then the admin report when an admin channel is set.
   */
  lemma FinishedRunCalls(log0: seq<Exchange>, log: seq<Exchange>, audit0: seq<string>, audit: seq<string>,
                         s: Settings, keywords: seq<string>, notice: string, archived: seq<Channel>, trace: Trace)
    requires FinishedRun(log0, log, audit0, audit, s, keywords, notice, archived, trace)
    ensures |log0| <= |log|
    ensures CallsTo(log[|log0|..], ArchiveEndpoint)
      == if s.dryRun then [] else ArchiveRequests(archived, Str(s.slackToken))
    ensures CallsTo(log[|log0|..], PostEndpoint)
      == (if s.dryRun then [] else NoticeRequests(archived, notice, Str(s.slackToken)))
       + (if s.adminChannel != "" then [PostRequest(s.adminChannel, ReportText(archived, s.dryRun), Str(s.slackToken))] else [])
  {
    var vs := trace.visits;
    var listing := Exchange(ListRequest(Str(s.slackToken)), trace.listing);
    var report := ReportLog(archived, s, trace.report);
    DropPrefix(log0, [listing], RunLog(vs, s, notice), report);
    ArchivedFilters(vs);
    ReportCalls(archived, s, trace.report);
    SweepArchives(listing, vs, s, notice, report);
    SweepPosts(listing, vs, s, notice, report);
  }

  /** A finished dry run logs no call to `channels.archive`. */
  lemma DryRunNoArchiveCall(log0: seq<Exchange>, log: seq<Exchange>, audit0: seq<string>, audit: seq<string>,
                            s: Settings, keywords: seq<string>, notice: string, archived: seq<Channel>, trace: Trace)
    requires FinishedRun(log0, log, audit0, audit, s, keywords, notice, archived, trace)
    requires s.dryRun
    ensures |log0| <= |log|
    ensures forall k :: |log0| <= k < |log| ==> log[k].request.endpoint != ArchiveEndpoint
  {
    var calls := log[|log0|..];
    FinishedRunCalls(log0, log, audit0, audit, s, keywords, notice, archived, trace);
    CallsToEmpty(calls, ArchiveEndpoint);
    forall k | |log0| <= k < |log|
      ensures log[k].request.endpoint != ArchiveEndpoint
    {
      assert log[k] == calls[k - |log0|];
    }
  }

  /**
   * A finished dry run sent no archive request to the platform at all: every
   * request on the wire was a logged call, and none of those was an archive call.
   */
  lemma DryRunArchivesNothing(p0: Platform, p: Platform, start: nat, log0: seq<Exchange>, log: seq<Exchange>,
                              audit0: seq<string>, audit: seq<string>,
                              s: Settings, keywords: seq<string>, notice: string, archived: seq<Channel>, trace: Trace)
    requires start == |log0| && log0 <= log && Served(p0, p, log, start, |log|, false)
    requires FinishedRun(log0, log, audit0, audit, s, keywords, notice, archived, trace)
    requires s.dryRun
    ensures p0.wire <= p.wire
    ensures forall j :: |p0.wire| <= j < |p.wire| ==> p.wire[j].endpoint != ArchiveEndpoint
  {
    DryRunNoArchiveCall(log0, log, audit0, audit, s, keywords, notice, archived, trace);
    ServedAvoids(p0, p, log, start, |log|, false, ArchiveEndpoint);
  }

  /** The report log posts the report, once, when an admin channel is set, and asks nothing else. */
  lemma ReportCalls(archived: seq<Channel>, s: Settings, result: ApiResult)
    ensures var report := ReportLog(archived, s, result);
      && (forall k :: 0 <= k < |report| ==> report[k].request.endpoint == PostEndpoint)
      && CallsTo(report, PostEndpoint)
        == if s.adminChannel != "" then [PostRequest(s.adminChannel, ReportText(archived, s.dryRun), Str(s.slackToken))] else []
  {
  }

  /** Appending the report log adds no call to `channels.archive`. */
  lemma ReportArchivesNothing(log0: seq<Exchange>, archived: seq<Channel>, s: Settings, result: ApiResult)
    ensures NoCallTo(log0 + ReportLog(archived, s, result), |log0|, {ArchiveEndpoint})
  {
  }

  /** Completed passes make no call that stops the run, so a report that stops it is where the run ends. */
  lemma ReportHalts(log0: seq<Exchange>, vs: seq<Visit>, s: Settings, keywords: seq<string>, notice: string,
                    archived: seq<Channel>, result: ApiResult)
    requires forall j :: 0 <= j < |vs| ==> Completed(vs[j], s, keywords)
    requires s.adminChannel != "" && Ignore(result).Some?
    ensures EndsWith(log0 + RunLog(vs, s, notice) + ReportLog(archived, s, result), |log0|, Ignore(result).value)
  {
    RunLogCalm(vs, s, keywords, notice);
    CalmAppend(log0, RunLog(vs, s, notice), |log0|);
    var post := Exchange(PostRequest(s.adminChannel, ReportText(archived, s.dryRun), Str(s.slackToken)), result);
    HaltAfter(log0 + RunLog(vs, s, notice), |log0|, post, Ignore(result).value);
  }

  // ---------------------------------------------------------------- stopped runs

  /**
   * The calls of a pass that stopped the run: the first calls of the visit
   * `v`, and the verdicts its answers gave as far as the pass got: past
   * `channels.info` the exemption, past `channels.history` the staleness, and
   * past the notice a notice that did not stop the run.
   */
  predicate Interrupted(v: Visit, s: Settings, keywords: seq<string>, notice: string, calls: seq<Exchange>) {
    && calls <= VisitLog(v, s, notice)
    && (2 <= |calls| ==> WhitelistVerdict(v.info, v.channel, s.skipChannelStr, keywords) == Success(v.exempt))
    && (3 <= |calls| ==> DisusedVerdict(v.history, v.channel, s.tooOld, s.minMembers, s.skipSubtypes) == Success(v.disused))
    && (4 <= |calls| ==> Ignore(v.notice).None?)
  }

  /** A pass that stopped in its checks made the `channels.info` call, or both calls once the first gave its verdict. */
  lemma {:induction false} ChecksInterrupted(v: Visit, s: Settings, keywords: seq<string>, notice: string, log0: seq<Exchange>, log: seq<Exchange>)
    requires var token := Str(s.slackToken);
      var asked := Exchange(InfoRequest(v.channel.id, token), v.info);
      || log == log0 + [asked]
      || (&& WhitelistVerdict(v.info, v.channel, s.skipChannelStr, keywords) == Success(v.exempt)
          && log == log0 + [asked, Exchange(HistoryRequest(v.channel.id, token), v.history)])
    ensures Interrupted(v, s, keywords, notice, log[|log0|..])
  {
    assert log[|log0|..] <= VisitLog(v, s, notice)[..2];
  }

  /**
   * A pass that stopped after both checks selected its channel, outside a dry
   * run, made the notice, or the notice and then the archive call.
   */
  lemma {:induction false} ActsInterrupted(v: Visit, s: Settings, keywords: seq<string>, notice: string,
                        log0: seq<Exchange>, checked: seq<Exchange>, log: seq<Exchange>)
    requires WhitelistVerdict(v.info, v.channel, s.skipChannelStr, keywords) == Success(v.exempt)
    requires DisusedVerdict(v.history, v.channel, s.tooOld, s.minMembers, s.skipSubtypes) == Success(v.disused)
    requires Selected(v) && !s.dryRun
    requires checked == log0 + VisitLog(v, s, notice)[..2]
    requires var post := Exchange(PostRequest(v.channel.id, notice, Str(s.slackToken)), v.notice);
      || log == checked + [post]
      || (Ignore(v.notice).None? && log == checked + [post, Exchange(ArchiveRequest(v.channel.id, Str(s.slackToken)), v.archive)])
    ensures Interrupted(v, s, keywords, notice, log[|log0|..])
  {
    var full := VisitLog(v, s, notice);
    if |log| == |checked| + 1 {
      assert log[|log0|..] == full[..3];
    } else {
      assert log[|log0|..] == full;
    }
  }

  /**
   * An interrupted pass archived nothing, or its own channel only, and then
   * outside a dry run and after both checks selected it.
   */
  lemma {:induction false} InterruptedArchives(v: Visit, s: Settings, keywords: seq<string>, notice: string, calls: seq<Exchange>)
    requires Interrupted(v, s, keywords, notice, calls)
    ensures CallsTo(calls, ArchiveEndpoint) == [] || (
      && Selected(v) && !s.dryRun
      && WhitelistVerdict(v.info, v.channel, s.skipChannelStr, keywords) == Success(v.exempt)
      && DisusedVerdict(v.history, v.channel, s.tooOld, s.minMembers, s.skipSubtypes) == Success(v.disused)
      && CallsTo(calls, ArchiveEndpoint) == [ArchiveRequest(v.channel.id, Str(s.slackToken))])
  {
    if |calls| < 4 {
      ChecksArchiveNothing(v, s, notice, calls);
    } else {
      VisitCalls(v, s, notice);
      assert |VisitLog(v, s, notice)| == 4 && calls == VisitLog(v, s, notice);
    }
  }

  /** The first three calls of a visit hold no `channels.archive` call. */
  lemma {:induction false} ChecksArchiveNothing(v: Visit, s: Settings, notice: string, calls: seq<Exchange>)
    requires calls <= VisitLog(v, s, notice) && |calls| < 4
    ensures CallsTo(calls, ArchiveEndpoint) == []
  {
    var full := VisitLog(v, s, notice);
    forall k | 0 <= k < |calls|
      ensures calls[k].request.endpoint != ArchiveEndpoint
    {
      assert calls[k] == full[k];
    }
    NoCallsTo(calls, ArchiveEndpoint);
  }

  /**
   * After the loop of `main` over `channels` and the admin report, from
   * platform log `log0`: every channel visited in order with both checks,
   * the selected ones reported, and no call but the visits' and the report's.
   */
  ghost predicate Reported(s: Settings, keywords: seq<string>, notice: string, channels: seq<Channel>,
                           vs: seq<Visit>, archived: seq<Channel>, report: ApiResult, log0: seq<Exchange>, log: seq<Exchange>)
  {
    && Channels(vs) == channels
    && (forall j :: 0 <= j < |vs| ==> Completed(vs[j], s, keywords))
    && archived == FilterBy(Channels(vs), Flags(vs))
    && log == log0 + RunLog(vs, s, notice) + ReportLog(archived, s, report)
  }

  /** A loop over every channel, then the report on the channels it selected. */
  lemma {:induction false} ReportedAfter(s: Settings, keywords: seq<string>, notice: string, channels: seq<Channel>,
                      vs: seq<Visit>, archived: seq<Channel>, report: ApiResult,
                      log0: seq<Exchange>, reaped: seq<Exchange>, log: seq<Exchange>)
    requires Channels(vs) == channels && archived == Archived(vs)
    requires forall j :: 0 <= j < |vs| ==> Completed(vs[j], s, keywords)
    requires reaped == log0 + RunLog(vs, s, notice) && log == reaped + ReportLog(archived, s, report)
    ensures Reported(s, keywords, notice, channels, vs, archived, report, log0, log)
  {
    ArchivedFilters(vs);
  }

  /**
   * Where the loop of `main` over `channels` stopped, from platform log
   * `log0`: after the completed visits `vs` to the first channels, in order,
   * partway through the pass `stopped` over the next one.
   */
  ghost predicate StoppedIn(s: Settings, keywords: seq<string>, notice: string, channels: seq<Channel>,
                            vs: seq<Visit>, stopped: Visit, log0: seq<Exchange>, log: seq<Exchange>)
  {
    var done := log0 + RunLog(vs, s, notice);
    && |vs| < |channels| && Channels(vs) == channels[..|vs|] && stopped.channel == channels[|vs|]
    && (forall j :: 0 <= j < |vs| ==> Completed(vs[j], s, keywords))
    && done <= log
    && Interrupted(stopped, s, keywords, notice, log[|done|..])
  }

  /** How the loop of `main` over `channels` and the report ended: through both, or stopped in the pass `stopped`. */
  ghost predicate LoopEnded(s: Settings, keywords: seq<string>, notice: string, channels: seq<Channel>, vs: seq<Visit>,
                            archived: seq<Channel>, report: ApiResult, stopped: Option<Visit>, log0: seq<Exchange>, log: seq<Exchange>)
  {
    match stopped
    case None => Reported(s, keywords, notice, channels, vs, archived, report, log0, log)
    case Some(v) => StoppedIn(s, keywords, notice, channels, vs, v, log0, log)
  }

  /**
   * What a run that stopped had done, from platform log `log0`: it asked for
   * the listing; when that answered, it visited the first channels of the
   * inventory in order, with both checks, and then stopped either partway
   * through the pass `stopped` over the next channel or, with every channel
   * visited, on the admin report.
   */
  ghost predicate StoppedRun(log0: seq<Exchange>, log: seq<Exchange>, s: Settings, keywords: seq<string>, notice: string,
                             trace: Trace, stopped: Option<Visit>)
  {
    var vs := trace.visits;
    var listed := log0 + [Exchange(ListRequest(Str(s.slackToken)), trace.listing)];
    var done := listed + RunLog(vs, s, notice);
    && (forall j :: 0 <= j < |vs| ==> Completed(vs[j], s, keywords))
    && done <= log
    && if !(trace.listing.Json? && trace.listing.body.channels.Some?) then
         vs == [] && stopped.None? && log == listed
       else
         var inventory := Inventory(trace.listing.body.channels.value);
         match stopped
         case Some(v) =>
           && |vs| < |inventory| && Channels(vs) == inventory[..|vs|] && v.channel == inventory[|vs|]
           && Interrupted(v, s, keywords, notice, log[|done|..])
         case None =>
           Channels(vs) == inventory && log == done + ReportLog(Archived(vs), s, trace.report)
  }

  /** A run whose listing answered, and whose loop and report then went through, finished. */
  lemma {:induction false} FinishedAfterListing(log0: seq<Exchange>, listed: seq<Exchange>, log: seq<Exchange>,
                             audit0: seq<string>, audit: seq<string>, s: Settings, keywords: seq<string>, notice: string,
                             listing: ApiResult, vs: seq<Visit>, archived: seq<Channel>, report: ApiResult)
    requires listing.Json? && listing.body.channels.Some?
    requires listed == log0 + [Exchange(ListRequest(Str(s.slackToken)), listing)]
    requires LoopEnded(s, keywords, notice, Inventory(listing.body.channels.value), vs, archived, report, None, listed, log)
    requires s.adminChannel != "" ==> Ignore(report).None?
    requires audit == (if s.dryRun then audit0 + [DryRunBanner] else audit0) + ArchivingAudit(archived, s.dryRun)
    ensures FinishedRun(log0, log, audit0, audit, s, keywords, notice, archived, Trace(listing, vs, report))
  {
  }

  /** A run that stopped after its listing answered: in the loop, or on the report. */
  lemma {:induction false} StoppedAfterListing(log0: seq<Exchange>, listed: seq<Exchange>, log: seq<Exchange>,
                            s: Settings, keywords: seq<string>, notice: string,
                            listing: ApiResult, vs: seq<Visit>, archived: seq<Channel>, report: ApiResult, stopped: Option<Visit>)
    requires listing.Json? && listing.body.channels.Some?
    requires listed == log0 + [Exchange(ListRequest(Str(s.slackToken)), listing)]
    requires LoopEnded(s, keywords, notice, Inventory(listing.body.channels.value), vs, archived, report, stopped, listed, log)
    ensures StoppedRun(log0, log, s, keywords, notice, Trace(listing, vs, report), stopped)
  {
    if stopped.None? {
      ArchivedFilters(vs);
    }
  }

  /**
   * A run that stopped archived the channels its completed visits selected,
   * in inventory order, and at most one more: the channel of the interrupted
   * pass, once both checks had selected it. In a dry run it archived nothing.
   */
  lemma {:induction false} StoppedRunArchives(log0: seq<Exchange>, log: seq<Exchange>, s: Settings, keywords: seq<string>, notice: string,
                           trace: Trace, stopped: Option<Visit>)
    requires StoppedRun(log0, log, s, keywords, notice, trace, stopped)
    ensures |log0| <= |log|
    ensures var token := Str(s.slackToken);
      var archives := CallsTo(log[|log0|..], ArchiveEndpoint);
      var done := if s.dryRun then [] else ArchiveRequests(Archived(trace.visits), token);
      || archives == done
      || (&& stopped.Some? && Selected(stopped.value) && !s.dryRun
          && WhitelistVerdict(stopped.value.info, stopped.value.channel, s.skipChannelStr, keywords) == Success(stopped.value.exempt)
          && DisusedVerdict(stopped.value.history, stopped.value.channel, s.tooOld, s.minMembers, s.skipSubtypes)
               == Success(stopped.value.disused)
          && archives == done + [ArchiveRequest(stopped.value.channel.id, token)])
  {
    var vs := trace.visits;
    var listing := Exchange(ListRequest(Str(s.slackToken)), trace.listing);
    var done := log0 + [listing] + RunLog(vs, s, notice);
    var rest := log[|done|..];
    assert log == done + rest;
    ListedArchives(log0, listing, vs, s, notice, rest);
    if stopped.Some? {
      InterruptedArchives(stopped.value, s, keywords, notice, rest);
    } else if trace.listing.Json? && trace.listing.body.channels.Some? {
      assert rest == ReportLog(Archived(vs), s, trace.report);
      ReportCalls(Archived(vs), s, trace.report);
      NoCallsTo(rest, ArchiveEndpoint);
    } else {
      assert rest == [];
    }
  }

  /** The archive calls after `log0` of a listing, some visits and more calls `rest`. */
  lemma {:induction false} ListedArchives(log0: seq<Exchange>, listing: Exchange, vs: seq<Visit>, s: Settings, notice: string, rest: seq<Exchange>)
    requires listing.request.endpoint == ListEndpoint
    ensures CallsTo((log0 + [listing] + RunLog(vs, s, notice) + rest)[|log0|..], ArchiveEndpoint)
      == (if s.dryRun then [] else ArchiveRequests(Archived(vs), Str(s.slackToken))) + CallsTo(rest, ArchiveEndpoint)
  {
    DropPrefix(log0, [listing], RunLog(vs, s, notice), rest);
    RunLogArchives(vs, s, notice);
    CallsAfter(listing, RunLog(vs, s, notice), rest, ArchiveEndpoint);
  }

  // ---------------------------------------------------------------- the class

  class Reaper {
    const settings: Settings
    const slack: Remote
    var auditLog: seq<string>

    /** `ChannelReaper()`: the settings are read once, at `now`. */
    constructor (env: Environment, now: int, slack: Remote)
      ensures settings == GetChannelReaperSettings(env, now) && this.slack == slack && auditLog == []
    {
      settings := GetChannelReaperSettings(env, now);
      this.slack := slack;
      auditLog := [];
    }

    /** `slack_api_http` with the configured token, a `None` on rejection, and the log line before `sys.exit(1)`. */
    method SlackApiHttp(endpoint: Endpoint, fields: Fields, httpMethod: HttpMethod) returns (out: ApiResult)
      modifies this, slack
      ensures
        var request := Issued(endpoint, fields, httpMethod, Str(settings.slackToken));
        var s := Settle(old(slack.script), 0);
        && out == Outcome(s.last, false)
        && slack.script == old(slack.script)[s.used..]
        && slack.wire == old(slack.wire) + Repeat(request, s.sent)
        && slack.sleeps == old(slack.sleeps) + s.delays
        && slack.log == old(slack.log) + [Exchange(request, out)]
      ensures slack.ServedSince(old(slack.State()), old(slack.log), false)
      ensures auditLog == AuthNoted(old(auditLog), out)
    {
      var payload := new Payload(fields);
      out := Call(slack, endpoint, payload, httpMethod, Str(settings.slackToken), false);
      if out.Exited? {
        auditLog := auditLog + [AuthHelp];
      }
    }

    /** `get_all_channels`: the listed channels in order, reduced to id, name, creation and member count. */
    method GetAllChannels() returns (r: Result<seq<Channel>, Halt>, listing: ApiResult)
      modifies this, slack
      ensures slack.log == old(slack.log) + [Exchange(ListRequest(Str(settings.slackToken)), listing)]
      ensures slack.ServedSince(old(slack.State()), old(slack.log), false)
      ensures auditLog == AuthNoted(old(auditLog), listing)
      ensures r.Success? <==> listing.Json? && listing.body.channels.Some?
      ensures r.Success? ==> r.value == Inventory(listing.body.channels.value)
      ensures r.Failure? ==> Stop(ListEndpoint, listing) == Some(r.error)
    {
      listing := SlackApiHttp(ListEndpoint, ListFields(), Get);
      var fetched := Fetch(listing);
      if fetched.Failure? {
        r := Failure(fetched.error);
        return;
      }
      if fetched.value.channels.None? {
        r := Failure(Crash);   // KeyError on ['channels']
        return;
      }
      var all := ProjectChannels(fetched.value.channels.value);
      assert all == Inventory(fetched.value.channels.value);
      r := Success(all);
    }

    /**
     * `get_last_message_timestamp`, with the bot-message fallback as written.
     * The fallback never fires: a `datetime` is always true, so the epoch is
     * never taken, and `c >= x > c` never holds. The flag is therefore false
     * exactly when the history has no `messages`.
     */
    method GetLastMessageTimestamp(history: Body, baseline: int) returns (ts: int, isUser: bool)
      ensures (ts, isUser) == Activity(history.messages, baseline, settings.skipSubtypes)
      ensures !isUser <==> history.messages.None?
      ensures history.messages.None? ==> ts == baseline
    {
      var lastMessage := baseline;
      var lastBotMessage := baseline;
      if history.messages.None? {
        return lastMessage, false;
      }
      lastMessage := ScanHistory(history.messages.value, settings.skipSubtypes, baseline);
      lastBotMessage := if DatetimeTruthy(lastMessage) then lastBotMessage else Epoch;
      var fallback := baseline >= lastBotMessage > baseline;
      ts := if fallback then lastBotMessage else lastMessage;
      isUser := !fallback;
    }

    /** `is_channel_disused`: one `channels.history` call, judged against `cutoff`. */
    method IsChannelDisused(c: Channel, cutoff: int) returns (r: Result<bool, Halt>, history: ApiResult)
      modifies this, slack
      ensures slack.log == old(slack.log) + [Exchange(HistoryRequest(c.id, Str(settings.slackToken)), history)]
      ensures slack.ServedSince(old(slack.State()), old(slack.log), false)
      ensures auditLog == AuthNoted(old(auditLog), history)
      ensures r == DisusedVerdict(history, c, cutoff, settings.minMembers, settings.skipSubtypes)
    {
      history := SlackApiHttp(HistoryEndpoint, HistoryFields(c.id), Get);
      var fetched := Fetch(history);
      if fetched.Failure? {
        r := Failure(fetched.error);
        return;
      }
      var last, isUser := GetLastMessageTimestamp(fetched.value, c.created);
      var minMembers := settings.minMembers;
      var hasMinUsers := minMembers == 0 || minMembers > c.numMembers;
      r := Success(last <= cutoff && (!isUser || hasMinUsers));
    }

    /** `is_channel_whitelisted`: one `channels.info` call, then the marker and the keywords. */
    method IsChannelWhitelisted(c: Channel, keywords: seq<string>) returns (r: Result<bool, Halt>, info: ApiResult)
      modifies this, slack
      ensures slack.log == old(slack.log) + [Exchange(InfoRequest(c.id, Str(settings.slackToken)), info)]
      ensures slack.ServedSince(old(slack.State()), old(slack.log), false)
      ensures auditLog == AuthNoted(old(auditLog), info)
      ensures r == WhitelistVerdict(info, c, settings.skipChannelStr, keywords)
    {
      info := SlackApiHttp(InfoEndpoint, InfoFields(c.id), Get);
      var fetched := Fetch(info);
      if fetched.Failure? {
        r := Failure(fetched.error);
        return;
      }
      if fetched.value.channel.None? {
        r := Failure(Crash);
        return;
      }
      var marker := settings.skipChannelStr;
      var purpose, topic := fetched.value.channel.value.purpose, fetched.value.channel.value.topic;
      r := Success(Contains(purpose, marker) || Contains(topic, marker) || AnyKeywordMatches(keywords, c.name));
    }

    /** `send_channel_message`: one `chat.postMessage` as `channel_reaper` with the ghost icon; its result is discarded. */
    method SendChannelMessage(channelId: string, text: string) returns (h: Option<Halt>, result: ApiResult)
      modifies this, slack
      ensures slack.log == old(slack.log) + [Exchange(PostRequest(channelId, text, Str(settings.slackToken)), result)]
      ensures slack.ServedSince(old(slack.State()), old(slack.log), false)
      ensures auditLog == AuthNoted(old(auditLog), result)
      ensures h == Ignore(result)
    {
      result := SlackApiHttp(PostEndpoint, PostFields(channelId, text), Post);
      h := Ignore(result);
    }

    /**
     * `archive_channel`: log the channel; outside a dry run post the notice,
     * archive, and log the channel again.
     */
    method ArchiveChannel(c: Channel, notice: string) returns (h: Option<Halt>, noticeResult: ApiResult, archiveResult: ApiResult)
      modifies this, slack
      ensures slack.ServedSince(old(slack.State()), old(slack.log), false)
      ensures settings.dryRun ==> h.None? && unchanged(slack) && auditLog == old(auditLog) + ChannelAudit(c, true)
      ensures !settings.dryRun && h.None? ==>
        && Ignore(noticeResult).None? && Ignore(archiveResult).None?
        && slack.log == old(slack.log) + [
             Exchange(PostRequest(c.id, notice, Str(settings.slackToken)), noticeResult),
             Exchange(ArchiveRequest(c.id, Str(settings.slackToken)), archiveResult)]
        && auditLog == old(auditLog) + ChannelAudit(c, false)
      ensures h.Some? ==> !settings.dryRun && EndsWith(slack.log, |old(slack.log)|, h.value)
      ensures h.Some? ==>
        var post := Exchange(PostRequest(c.id, notice, Str(settings.slackToken)), noticeResult);
        || slack.log == old(slack.log) + [post]
        || (&& Ignore(noticeResult).None?
            && slack.log == old(slack.log) + [post, Exchange(ArchiveRequest(c.id, Str(settings.slackToken)), archiveResult)])
      ensures old(auditLog) + [ArchivingLine(c)] <= auditLog
    {
      var line := ArchivingLine(c);
      auditLog := auditLog + [line];
      noticeResult, archiveResult := NoneResult, NoneResult;
      h := None;
      if !settings.dryRun {
        h, noticeResult := SendChannelMessage(c.id, notice);
        if h.Some? {
          HaltAfter(old(slack.log), |old(slack.log)|, slack.log[|slack.log| - 1], h.value);
          return;
        }
        ghost var posted, postedLog := slack.State(), slack.log;
        archiveResult := SlackApiHttp(ArchiveEndpoint, ArchiveFields(c.id), Get);
        ServedChain(old(slack.State()), old(slack.log), posted, postedLog, slack.State(), slack.log, false);
        ghost var post := Exchange(PostRequest(c.id, notice, Str(settings.slackToken)), noticeResult);
        ghost var archive := Exchange(ArchiveRequest(c.id, Str(settings.slackToken)), archiveResult);
        assert slack.log == old(slack.log) + [post, archive] by {
          AppendAssociates(old(slack.log), [post], [archive]);
        }
        h := Ignore(archiveResult);
        if h.Some? {
          HaltAfter(postedLog, |old(slack.log)|, archive, h.value);
          return;
        }
        auditLog := auditLog + [line];
      }
    }

    /** `send_admin_report`: when an admin channel is set, one message naming the archived channels. */
    method SendAdminReport(archived: seq<Channel>) returns (h: Option<Halt>, result: ApiResult)
      modifies this, slack
      ensures slack.log == old(slack.log) + ReportLog(archived, settings, result)
      ensures slack.ServedSince(old(slack.State()), old(slack.log), false)
      ensures settings.adminChannel == "" ==> unchanged(slack)
      ensures auditLog == if settings.adminChannel != "" then AuthNoted(old(auditLog), result) else old(auditLog)
      ensures h == (if settings.adminChannel != "" then Ignore(result) else None)
      ensures h.None? ==> auditLog == old(auditLog)
    {
      h, result := None, NoneResult;
      if settings.adminChannel != "" {
        var names := Join(ChannelTags(archived), ", ");
        var message := ReportHeader(|archived|) + names;
        if settings.dryRun {
          message := DryRunPrefix + message;
        }
        assert message == ReportText(archived, settings.dryRun);
        h, result := SendChannelMessage(settings.adminChannel, message);
      }
    }

    /**
     * The two checks of one pass of `main`'s loop, both always asked, in
     * order: `channels.info`, then `channels.history`.
     */
    method CheckChannel(c: Channel, keywords: seq<string>)
      returns (h: Option<Halt>, exempt: bool, disused: bool, info: ApiResult, history: ApiResult)
      modifies this, slack
      ensures slack.ServedSince(old(slack.State()), old(slack.log), false)
      ensures h.None? ==>
        && WhitelistVerdict(info, c, settings.skipChannelStr, keywords) == Success(exempt)
        && DisusedVerdict(history, c, settings.tooOld, settings.minMembers, settings.skipSubtypes) == Success(disused)
        && slack.log == old(slack.log) + [Exchange(InfoRequest(c.id, Str(settings.slackToken)), info),
                                          Exchange(HistoryRequest(c.id, Str(settings.slackToken)), history)]
        && auditLog == old(auditLog)
      ensures h.Some? ==> EndsWith(slack.log, |old(slack.log)|, h.value)
      ensures h.Some? ==>
        var asked := Exchange(InfoRequest(c.id, Str(settings.slackToken)), info);
        || slack.log == old(slack.log) + [asked]
        || (&& WhitelistVerdict(info, c, settings.skipChannelStr, keywords) == Success(exempt)
            && slack.log == old(slack.log) + [asked, Exchange(HistoryRequest(c.id, Str(settings.slackToken)), history)])
      ensures NoCallTo(slack.log, |old(slack.log)|, {PostEndpoint, ArchiveEndpoint})
      ensures old(auditLog) <= auditLog
    {
      var whitelisted;
      whitelisted, info := IsChannelWhitelisted(c, keywords);
      history := NoneResult;
      if whitelisted.Failure? {
        HaltAfter(old(slack.log), |old(slack.log)|, slack.log[|slack.log| - 1], whitelisted.error);
        return Some(whitelisted.error), false, false, info, history;
      }
      ghost var asked, askedLog := slack.State(), slack.log;
      var verdict;
      verdict, history := IsChannelDisused(c, settings.tooOld);
      ServedChain(old(slack.State()), old(slack.log), asked, askedLog, slack.State(), slack.log, false);
      ghost var infoCall := Exchange(InfoRequest(c.id, Str(settings.slackToken)), info);
      ghost var historyCall := Exchange(HistoryRequest(c.id, Str(settings.slackToken)), history);
      assert slack.log == old(slack.log) + [infoCall, historyCall] by {
        AppendAssociates(old(slack.log), [infoCall], [historyCall]);
      }
      if verdict.Failure? {
        HaltAfter(askedLog, |old(slack.log)|, historyCall, verdict.error);
        return Some(verdict.error), whitelisted.value, false, info, history;
      }
      h, exempt, disused := None, whitelisted.value, verdict.value;
    }

    /**
     * One pass of `main`'s loop: both checks, in order, and the archive when
     * the channel is not exempt and disused.
     */
    method ReapChannel(c: Channel, keywords: seq<string>, notice: string) returns (h: Option<Halt>, selected: bool, v: Visit)
      modifies this, slack
      ensures v.channel == c
      ensures slack.ServedSince(old(slack.State()), old(slack.log), false)
      ensures h.None? ==>
        && Completed(v, settings, keywords)
        && (selected <==> Selected(v))
        && slack.log == old(slack.log) + VisitLog(v, settings, notice)
        && auditLog == if selected then old(auditLog) + ChannelAudit(c, settings.dryRun) else old(auditLog)
      ensures h.Some? ==> EndsWith(slack.log, |old(slack.log)|, h.value)
      ensures h.Some? ==> Interrupted(v, settings, keywords, notice, slack.log[|old(slack.log)|..])
      ensures settings.dryRun ==>
        NoCallTo(slack.log, |old(slack.log)|, {PostEndpoint, ArchiveEndpoint})
      ensures old(auditLog) <= auditLog
    {
      var exempt, disused, info, history;
      h, exempt, disused, info, history := CheckChannel(c, keywords);
      if h.Some? {
        v := Visit(c, info, history, exempt, false, NoneResult, NoneResult);
        ChecksInterrupted(v, settings, keywords, notice, old(slack.log), slack.log);
        return h, false, v;
      }
      selected := !exempt && disused;
      var noticeResult, archiveResult := NoneResult, NoneResult;
      ghost var checkedLog := slack.log;
      if selected {
        ghost var checked := slack.State();
        h, noticeResult, archiveResult := ArchiveChannel(c, notice);
        ServedChain(old(slack.State()), old(slack.log), checked, checkedLog, slack.State(), slack.log, false);
        v := Visit(c, info, history, exempt, disused, noticeResult, archiveResult);
        if h.Some? {
          HaltLater(checkedLog, slack.log, |old(slack.log)|, h.value);
          ActsInterrupted(v, settings, keywords, notice, old(slack.log), checkedLog, slack.log);
          return;
        }
      }
      v := Visit(c, info, history, exempt, disused, noticeResult, archiveResult);
      VisitedAfter(v, settings, notice, old(slack.log), checkedLog, slack.log);
    }

    /**
     * `main`: build the keyword list, then sweep the workspace.
     * A finished run is accounted for by `FinishedRun`, and a stopped run by
     * `StoppedRun`: it made no call after the one that stopped it.
     */
    method Run(whitelistLines: seq<string>, notice: string) returns (outcome: RunOutcome, ghost trace: Trace, ghost stopped: Option<Visit>)
      modifies this, slack
      ensures slack.ServedSince(old(slack.State()), old(slack.log), false)
      ensures outcome.Finished? ==> FinishedRun(old(slack.log), slack.log, old(auditLog), auditLog, settings,
        WhitelistKeywords(whitelistLines, settings.whitelistKeywords), notice, outcome.archived, trace)
      ensures outcome.Halted? ==> EndsWith(slack.log, |old(slack.log)|, outcome.halt)
      ensures outcome.Halted? ==> StoppedRun(old(slack.log), slack.log, settings,
        WhitelistKeywords(whitelistLines, settings.whitelistKeywords), notice, trace, stopped)
      ensures settings.dryRun ==> NoCallTo(slack.log, |old(slack.log)|, {ArchiveEndpoint})
      ensures settings.dryRun ==>
        old(slack.wire) <= slack.wire && forall j :: |old(slack.wire)| <= j < |slack.wire| ==> slack.wire[j].endpoint != ArchiveEndpoint
      ensures old(auditLog) <= auditLog
    {
      var keywords := WhitelistKeywords(whitelistLines, settings.whitelistKeywords);
      ghost var start := |slack.log|;
      outcome, trace, stopped := Sweep(keywords, notice);
      if settings.dryRun {
        ServedAvoids(old(slack.State()), slack.State(), slack.log, start, |slack.log|, false, ArchiveEndpoint);
      }
    }

    /** The rest of `main`: the dry-run banner, the listing, then the channels and the report. */
    method Sweep(keywords: seq<string>, notice: string) returns (outcome: RunOutcome, ghost trace: Trace, ghost stopped: Option<Visit>)
      modifies this, slack
      ensures slack.ServedSince(old(slack.State()), old(slack.log), false)
      ensures outcome.Finished? ==> FinishedRun(old(slack.log), slack.log, old(auditLog), auditLog, settings,
        keywords, notice, outcome.archived, trace)
      ensures outcome.Halted? ==> EndsWith(slack.log, |old(slack.log)|, outcome.halt)
      ensures outcome.Halted? ==> StoppedRun(old(slack.log), slack.log, settings, keywords, notice, trace, stopped)
      ensures settings.dryRun ==> NoCallTo(slack.log, |old(slack.log)|, {ArchiveEndpoint})
      ensures old(auditLog) <= auditLog
    {
      if settings.dryRun {
        auditLog := auditLog + [DryRunBanner];
      }
      var listed, listing := GetAllChannels();
      trace, stopped := Trace(listing, [], NoneResult), None;
      if listed.Failure? {
        HaltAfter(old(slack.log), |old(slack.log)|, slack.log[|slack.log| - 1], listed.error);
        return Halted(listed.error), trace, stopped;
      }
      ghost var start, startLog, startAudit := slack.State(), slack.log, auditLog;
      assert Calm(startLog, |old(slack.log)|) && NoCallTo(startLog, |old(slack.log)|, {ArchiveEndpoint});
      var h, archived;
      ghost var visits, report;
      h, archived, visits, report, stopped := ReapAndReport(listed.value, keywords, notice);
      ServedChain(old(slack.State()), old(slack.log), start, startLog, slack.State(), slack.log, false);
      PrefixChain(old(auditLog), startAudit, auditLog);
      if settings.dryRun {
        NoCallChain(startLog, slack.log, |old(slack.log)|, {ArchiveEndpoint});
      }
      trace := Trace(listing, visits, report);
      if h.Some? {
        HaltLater(startLog, slack.log, |old(slack.log)|, h.value);
        StoppedAfterListing(old(slack.log), startLog, slack.log, settings, keywords, notice, listing, visits, archived, report, stopped);
        return Halted(h.value), trace, stopped;
      }
      FinishedAfterListing(old(slack.log), startLog, slack.log, old(auditLog), auditLog, settings, keywords, notice,
                           listing, visits, archived, report);
      outcome := Finished(archived);
    }

    /**
     * The loop of `main` over the listed channels, then the admin report on
     * the channels it archived.
     */
    method ReapAndReport(channels: seq<Channel>, keywords: seq<string>, notice: string)
      returns (h: Option<Halt>, archived: seq<Channel>, ghost visits: seq<Visit>, ghost report: ApiResult, ghost stopped: Option<Visit>)
      modifies this, slack
      ensures slack.ServedSince(old(slack.State()), old(slack.log), false)
      ensures LoopEnded(settings, keywords, notice, channels, visits, archived, report, stopped, old(slack.log), slack.log)
      ensures h.None? ==>
        && stopped.None?
        && (settings.adminChannel != "" ==> Ignore(report).None?)
        && auditLog == old(auditLog) + ArchivingAudit(archived, settings.dryRun)
      ensures h.Some? ==> EndsWith(slack.log, |old(slack.log)|, h.value)
      ensures stopped.Some? ==> h.Some?
      ensures settings.dryRun ==> NoCallTo(slack.log, |old(slack.log)|, {ArchiveEndpoint})
      ensures old(auditLog) <= auditLog
    {
      report := NoneResult;
      ghost var interrupted;
      h, archived, visits, interrupted := ReapChannels(channels, keywords, notice);
      if h.Some? {
        stopped := Some(interrupted);
        return;
      }
      stopped := None;
      ghost var reaped, reapedLog, reapedAudit := slack.State(), slack.log, auditLog;
      h, report := SendAdminReport(archived);
      ServedChain(old(slack.State()), old(slack.log), reaped, reapedLog, slack.State(), slack.log, false);
      ReportedAfter(settings, keywords, notice, channels, visits, archived, report, old(slack.log), reapedLog, slack.log);
      if settings.dryRun {
        ReportArchivesNothing(reapedLog, archived, settings, report);
        NoCallChain(reapedLog, slack.log, |old(slack.log)|, {ArchiveEndpoint});
      }
      if h.Some? {
        ReportHalts(old(slack.log), visits, settings, keywords, notice, archived, report);
        PrefixChain(old(auditLog), reapedAudit, auditLog);
        return;
      }
      assert auditLog == reapedAudit;
    }

    /**
     * The loop of `main`: every channel, in inventory order, passes through
     * both checks; the selected ones are collected in order and archived.
     */
    method ReapChannels(channels: seq<Channel>, keywords: seq<string>, notice: string)
      returns (h: Option<Halt>, archived: seq<Channel>, visits: seq<Visit>, ghost stopped: Visit)
      modifies this, slack
      ensures slack.ServedSince(old(slack.State()), old(slack.log), false)
      ensures h.None? ==> Reaped(settings, keywords, notice, channels, visits, archived, old(slack.log), old(auditLog), slack.log, auditLog)
      ensures h.Some? ==> EndsWith(slack.log, |old(slack.log)|, h.value)
      ensures h.Some? ==> StoppedIn(settings, keywords, notice, channels, visits, stopped, old(slack.log), slack.log)
      ensures settings.dryRun ==>
        NoCallTo(slack.log, |old(slack.log)|, {PostEndpoint, ArchiveEndpoint})
      ensures old(auditLog) <= auditLog
    {
      archived, visits := [], [];
      stopped := Visit(Channel("", "", 0, 0), NoneResult, NoneResult, false, false, NoneResult, NoneResult);
      assert channels[..|channels|] == channels;
      h := None;
      for i := 0 to |channels|
        invariant h.None?
        invariant slack.ServedSince(old(slack.State()), old(slack.log), false)
        invariant settings.dryRun ==>
          NoCallTo(slack.log, |old(slack.log)|, {PostEndpoint, ArchiveEndpoint})
        invariant Reaped(settings, keywords, notice, channels[..i], visits, archived,
                         old(slack.log), old(auditLog), slack.log, auditLog)
      {
        var c := channels[i];
        ghost var p, log, audit := slack.State(), slack.log, auditLog;
        var selected, v;
        h, selected, v := ReapChannel(c, keywords, notice);
        ServedChain(old(slack.State()), old(slack.log), p, log, slack.State(), slack.log, false);
        if settings.dryRun {
          NoCallChain(log, slack.log, |old(slack.log)|, {PostEndpoint, ArchiveEndpoint});
        }
        if h.Some? {
          RunLogCalm(visits, settings, keywords, notice);
          CalmAppend(old(slack.log), RunLog(visits, settings, notice), |old(slack.log)|);
          HaltLater(log, slack.log, |old(slack.log)|, h.value);
          stopped := v;
          return;
        }
        ReapedStep(settings, keywords, notice, channels[..i], visits, archived, v,
                   old(slack.log), old(auditLog), log, audit, slack.log, auditLog);
        if selected {
          archived := archived + [c];
        }
        TakeOneMore(channels, i);
        visits := visits + [v];
      }
    }
  }
}
