/**
 * `slack-autoarchive.py`, the older script version of the reaper: settings
 * are module globals read once at import, the whitelist is by keyword only
 * (no `channels.info` call), a channel's history is fetched only when no
 * keyword exempts it, `archive_channel` prints every selected channel, and
 * the wrapper raises on a rejected call instead of returning `None`.
 *
 * The platform is a `Remote`; `stdout` holds the printed lines and
 * `auditLog` the lines of `logging.info` into `audit.log`.
 */
module ArchiveScript {
  import opened Wrappers
  import opened Text
  import opened Slack
  import opened Config
  import opened Policy
  import opened Runs

  // ---------------------------------------------------------------- globals

  /** The module-level constants; `ADMIN_CHANNEL`, `SLACK_TOKEN` and `WHITELIST_KEYWORDS` stay `None` when unset. */
  datatype Globals = Globals(
    adminChannel: Option<string>,
    daysInactive: int,
    minMembers: int,
    dryRun: bool,
    slackToken: Option<string>,
    tooOld: int,
    whitelistKeywords: Option<string>,
    skipSubtypes: set<string>)

  /** The globals of a script imported at `now` in environment `env`. */
  function LoadGlobals(env: Environment, now: int): (g: Globals)
    ensures g.adminChannel == env.adminChannel && g.slackToken == env.slackToken
    ensures g.whitelistKeywords == env.whitelistKeywords
    ensures g.dryRun <==> env.dryRun.None? || env.dryRun == Some("true")
    ensures g.daysInactive == (if env.daysInactive.Some? then env.daysInactive.value else 60)
    ensures g.minMembers == (if env.minMembers.Some? then env.minMembers.value else 0)
    ensures now - g.tooOld == g.daysInactive * SecondsPerDay
    ensures g.skipSubtypes == {"channel_leave", "channel_join"}
  {
    var days := env.daysInactive.GetOr(DefaultDaysInactive);
    Globals(
      adminChannel := env.adminChannel,
      daysInactive := days,
      minMembers := env.minMembers.GetOr(0),
      dryRun := DryRunFlag(env.dryRun),
      slackToken := env.slackToken,
      tooOld := Cutoff(now, days),
      whitelistKeywords := env.whitelistKeywords,
      skipSubtypes := SkipSubtypes)
  }

  /**
   * The script and `get_channel_reaper_settings` read the same environment
   * the same way, except that the script keeps an unset string as `None`
   * where the settings put `''`.
   */
  lemma GlobalsMatchSettings(env: Environment, now: int)
    ensures var g := LoadGlobals(env, now);
      var s := GetChannelReaperSettings(env, now);
      && g.dryRun == s.dryRun && g.daysInactive == s.daysInactive && g.minMembers == s.minMembers
      && g.tooOld == s.tooOld && g.skipSubtypes == s.skipSubtypes
      && g.adminChannel.GetOr("") == s.adminChannel
      && g.slackToken.GetOr("") == s.slackToken
      && g.whitelistKeywords.GetOr("") == s.whitelistKeywords
  {
  }

  /** What `payload['token'] = SLACK_TOKEN` writes: the token, or `None`. */
  function TokenValue(g: Globals): (v: Value)
    ensures v.Null? <==> g.slackToken.None?
    ensures v.Str? ==> g.slackToken == Some(v.text)
  {
    if g.slackToken.Some? then Str(g.slackToken.value) else Null
  }

  /** `if ADMIN_CHANNEL:`: the report goes out only to a set, non-empty admin channel. */
  function ReportChannel(g: Globals): (channel: string)
    ensures channel != "" <==> g.adminChannel.Some? && g.adminChannel.value != ""
  {
    g.adminChannel.GetOr("")
  }

  /** `WHITELIST_KEYWORDS` as `get_whitelist_keywords` tests it: an unset or empty value adds nothing. */
  function KeywordSetting(g: Globals): string {
    g.whitelistKeywords.GetOr("")
  }

  // ---------------------------------------------------------------- specification

  /**
   * The visit did not stop the run, and its verdicts are those the script
   * draws: the keywords alone decide the exemption, and only an unexempted
   * channel has its history fetched and judged.
   */
  predicate ScriptCompleted(v: Visit, g: Globals, keywords: seq<string>) {
    && v.info == NoneResult
    && v.exempt == AnyKeywordMatches(keywords, v.channel.name)
    && (if v.exempt then v.history == NoneResult && !v.disused
        else DisusedVerdict(v.history, v.channel, g.tooOld, g.minMembers, g.skipSubtypes) == Success(v.disused))
    && (Selected(v) && !g.dryRun ==> Ignore(v.notice).None? && Ignore(v.archive).None?)
  }

  /**
   * The calls of one pass of the loop: `channels.history` unless a keyword
   * exempts the channel, then, for a selected channel outside a dry run, the
   * notice and the archive call.
   */
  function ScriptVisitLog(v: Visit, g: Globals, notice: string): seq<Exchange> {
    var token := TokenValue(g);
    (if v.exempt then [] else [Exchange(HistoryRequest(v.channel.id, token), v.history)])
    + if Selected(v) && !g.dryRun then
        [Exchange(PostRequest(v.channel.id, notice, token), v.notice), Exchange(ArchiveRequest(v.channel.id, token), v.archive)]
      else []
  }

  /** The calls of a sequence of passes, in order. */
  function ScriptRunLog(vs: seq<Visit>, g: Globals, notice: string): seq<Exchange>
    decreases |vs|
  {
    if vs == [] then [] else ScriptRunLog(vs[..|vs| - 1], g, notice) + ScriptVisitLog(vs[|vs| - 1], g, notice)
  }

  /** One more checked channel adds its history request at the end. */
  lemma HistoryRequestsStep(cs: seq<Channel>, c: Channel, token: Value)
    ensures HistoryRequests(cs + [c], token) == HistoryRequests(cs, token) + [HistoryRequest(c.id, token)]
  {
  }

  /** The channels whose history the script fetched: the ones no keyword exempts, in order. */
  function Checked(vs: seq<Visit>): seq<Channel>
    decreases |vs|
  {
    if vs == [] then []
    else
      var v := vs[|vs| - 1];
      Checked(vs[..|vs| - 1]) + if v.exempt then [] else [v.channel]
  }

  /** The `channels.history` requests for `cs`, in order. */
  function HistoryRequests(cs: seq<Channel>, token: Value): (rs: seq<Request>)
    ensures |rs| == |cs| && forall i :: 0 <= i < |cs| ==> rs[i] == HistoryRequest(cs[i].id, token)
  {
    seq(|cs|, i requires 0 <= i < |cs| => HistoryRequest(cs[i].id, token))
  }

  /** The lines `archive_channel` prints, one per archived channel, in order. */
  function ArchivingLines(cs: seq<Channel>): (lines: seq<string>)
    ensures |lines| == |cs| && forall i :: 0 <= i < |cs| ==> lines[i] == ArchivingLine(cs[i])
  {
    seq(|cs|, i requires 0 <= i < |cs| => ArchivingLine(cs[i]))
  }

  /** The admin report call: exactly one when `ADMIN_CHANNEL` is set and non-empty, none otherwise. */
  function ScriptReportLog(archived: seq<Channel>, g: Globals, result: ApiResult): seq<Exchange> {
    if ReportChannel(g) != "" then
      [Exchange(PostRequest(ReportChannel(g), ReportText(archived, g.dryRun), TokenValue(g)), result)]
    else []
  }

  /** The listing answered, and every listed channel went through the loop, in order. */
  ghost predicate ScriptVisitedAll(listing: ApiResult, vs: seq<Visit>, g: Globals, keywords: seq<string>) {
    && listing.Json? && listing.body.channels.Some?
    && Channels(vs) == Inventory(listing.body.channels.value)
    && (forall i :: 0 <= i < |vs| ==> ScriptCompleted(vs[i], g, keywords))
  }

  /**
   * What the script did after printing its banner, from platform log `log0`
   * and audit log `audit0`: it listed the channels, passed every listed
   * channel through the loop in order, archived exactly the selected ones in
   * inventory order, sent the report, asked the platform nothing else, and
   * logged one line per archived channel outside a dry run.
   */
  ghost predicate ScriptSwept(log0: seq<Exchange>, log: seq<Exchange>, audit0: seq<string>, audit: seq<string>,
                              g: Globals, keywords: seq<string>, notice: string, archived: seq<Channel>, trace: Trace)
  {
    var vs := trace.visits;
    && ScriptVisitedAll(trace.listing, vs, g, keywords)
    && archived == FilterBy(Channels(vs), Flags(vs))
    && (ReportChannel(g) != "" ==> Ignore(trace.report).None?)
    && log == log0 + [Exchange(ListRequest(TokenValue(g)), trace.listing)]
         + ScriptRunLog(vs, g, notice) + ScriptReportLog(archived, g, trace.report)
    && audit == audit0 + (if g.dryRun then [] else ArchivingLines(archived))
  }

  /**
   * A finished run of the script: the sweep above, with the output holding
   * the banner (in a dry run) followed by one line per archived channel.
   */
  ghost predicate ScriptFinished(log0: seq<Exchange>, log: seq<Exchange>, out0: seq<string>, out: seq<string>,
                                 audit0: seq<string>, audit: seq<string>,
                                 g: Globals, keywords: seq<string>, notice: string, archived: seq<Channel>, trace: Trace)
  {
    && ScriptSwept(log0, log, audit0, audit, g, keywords, notice, archived, trace)
    && out == (if g.dryRun then out0 + [DryRunBanner] else out0) + ArchivingLines(archived)
  }

  // ---------------------------------------------------------------- lemmas

  /** A completed pass makes no call that ends the run. */
  lemma ScriptVisitCalm(v: Visit, g: Globals, keywords: seq<string>, notice: string)
    requires ScriptCompleted(v, g, keywords)
    ensures Calm(ScriptVisitLog(v, g, notice), 0)
  {
    var log := ScriptVisitLog(v, g, notice);
    var k := if v.exempt then 0 else 1;
    if !v.exempt {
      assert Stops(log[0]) == Stop(HistoryEndpoint, v.history);
    }
    if Selected(v) && !g.dryRun {
      assert Stops(log[k]) == Stop(PostEndpoint, v.notice);
      assert Stops(log[k + 1]) == Stop(ArchiveEndpoint, v.archive);
    }
  }

  /** A run of completed passes contains no call that ends the run. */
  lemma {:induction false} ScriptRunLogCalm(vs: seq<Visit>, g: Globals, keywords: seq<string>, notice: string)
    requires forall i :: 0 <= i < |vs| ==> ScriptCompleted(vs[i], g, keywords)
    ensures Calm(ScriptRunLog(vs, g, notice), 0)
    decreases |vs|
  {
    if vs != [] {
      var n := |vs| - 1;
      ScriptRunLogCalm(vs[..n], g, keywords, notice);
      ScriptVisitCalm(vs[n], g, keywords, notice);
      CalmAppend(ScriptRunLog(vs[..n], g, notice), ScriptVisitLog(vs[n], g, notice), 0);
    }
  }

  /** One more pass extends the calls and the fetched histories at their ends. */
  lemma ScriptVisitStep(vs: seq<Visit>, v: Visit, g: Globals, notice: string)
    ensures ScriptRunLog(vs + [v], g, notice) == ScriptRunLog(vs, g, notice) + ScriptVisitLog(v, g, notice)
    ensures Checked(vs + [v]) == Checked(vs) + if v.exempt then [] else [v.channel]
  {
  }

  /**
   * One pass fetches the history only of an unexempted channel, and posts and
   * archives only a selected channel outside a dry run, once each.
   */
  lemma ScriptVisitCalls(v: Visit, g: Globals, notice: string)
    ensures var token := TokenValue(g);
      var chosen := Selected(v) && !g.dryRun;
      && CallsTo(ScriptVisitLog(v, g, notice), HistoryEndpoint) == (if v.exempt then [] else [HistoryRequest(v.channel.id, token)])
      && CallsTo(ScriptVisitLog(v, g, notice), ArchiveEndpoint) == (if chosen then [ArchiveRequest(v.channel.id, token)] else [])
      && CallsTo(ScriptVisitLog(v, g, notice), PostEndpoint) == (if chosen then [PostRequest(v.channel.id, notice, token)] else [])
  {
    var token := TokenValue(g);
    var check := Exchange(HistoryRequest(v.channel.id, token), v.history);
    var checks := if v.exempt then [] else [check];
    var post := Exchange(PostRequest(v.channel.id, notice, token), v.notice);
    var archive := Exchange(ArchiveRequest(v.channel.id, token), v.archive);
    var acts := if Selected(v) && !g.dryRun then [post, archive] else [];
    CallsToOne(check, HistoryEndpoint);
    CallsToOne(check, ArchiveEndpoint);
    CallsToOne(check, PostEndpoint);
    CallsToPair(post, archive, HistoryEndpoint);
    CallsToPair(post, archive, ArchiveEndpoint);
    CallsToPair(post, archive, PostEndpoint);
    CallsToAppend(checks, acts, HistoryEndpoint);
    CallsToAppend(checks, acts, ArchiveEndpoint);
    CallsToAppend(checks, acts, PostEndpoint);
  }

  /** The script fetches the history of exactly the channels no keyword exempts, in inventory order. */
  lemma {:induction false} ScriptRunHistories(vs: seq<Visit>, g: Globals, notice: string)
    ensures CallsTo(ScriptRunLog(vs, g, notice), HistoryEndpoint) == HistoryRequests(Checked(vs), TokenValue(g))
    decreases |vs|
  {
    if vs != [] {
      var n := |vs| - 1;
      var v := vs[n];
      ScriptRunHistories(vs[..n], g, notice);
      assert ScriptRunLog(vs, g, notice) == ScriptRunLog(vs[..n], g, notice) + ScriptVisitLog(v, g, notice);
      assert Checked(vs) == Checked(vs[..n]) + if v.exempt then [] else [v.channel];
      CallsToAppend(ScriptRunLog(vs[..n], g, notice), ScriptVisitLog(v, g, notice), HistoryEndpoint);
      ScriptVisitCalls(v, g, notice);
      HistoryRequestsStep(Checked(vs[..n]), v.channel, TokenValue(g));
    }
  }

  /** The checked channels are those the keywords leave unexempted, and every archived channel is among them. */
  lemma {:induction false} CheckedChannels(vs: seq<Visit>, g: Globals, keywords: seq<string>, c: Channel)
    requires forall i :: 0 <= i < |vs| ==> ScriptCompleted(vs[i], g, keywords)
    ensures c in Checked(vs) <==> c in Channels(vs) && !AnyKeywordMatches(keywords, c.name)
    ensures c in Archived(vs) ==> c in Checked(vs)
    decreases |vs|
  {
    if vs != [] {
      var n := |vs| - 1;
      var v := vs[n];
      CheckedChannels(vs[..n], g, keywords, c);
      Extend(vs[..n], v);
      ScriptVisitStep(vs[..n], v, g, notice := "");
      assert vs[..n] + [v] == vs;
    }
  }

  /** Over a whole run, the archive calls are those for the selected channels, in order, and none in a dry run. */
  lemma {:induction false} ScriptRunArchives(vs: seq<Visit>, g: Globals, notice: string)
    ensures CallsTo(ScriptRunLog(vs, g, notice), ArchiveEndpoint)
      == if g.dryRun then [] else ArchiveRequests(Archived(vs), TokenValue(g))
    decreases |vs|
  {
    if vs != [] {
      var n := |vs| - 1;
      var v := vs[n];
      ScriptRunArchives(vs[..n], g, notice);
      assert ScriptRunLog(vs, g, notice) == ScriptRunLog(vs[..n], g, notice) + ScriptVisitLog(v, g, notice);
      assert Archived(vs) == Archived(vs[..n]) + if Selected(v) then [v.channel] else [];
      CallsToAppend(ScriptRunLog(vs[..n], g, notice), ScriptVisitLog(v, g, notice), ArchiveEndpoint);
      ScriptVisitCalls(v, g, notice);
      ArchiveRequestsStep(Archived(vs[..n]), v.channel, TokenValue(g));
    }
  }

  /** Over a whole run, the notices go to the selected channels, in order, and none in a dry run. */
  lemma {:induction false} ScriptRunNotices(vs: seq<Visit>, g: Globals, notice: string)
    ensures CallsTo(ScriptRunLog(vs, g, notice), PostEndpoint)
      == if g.dryRun then [] else NoticeRequests(Archived(vs), notice, TokenValue(g))
    decreases |vs|
  {
    if vs != [] {
      var n := |vs| - 1;
      var v := vs[n];
      ScriptRunNotices(vs[..n], g, notice);
      assert ScriptRunLog(vs, g, notice) == ScriptRunLog(vs[..n], g, notice) + ScriptVisitLog(v, g, notice);
      assert Archived(vs) == Archived(vs[..n]) + if Selected(v) then [v.channel] else [];
      CallsToAppend(ScriptRunLog(vs[..n], g, notice), ScriptVisitLog(v, g, notice), PostEndpoint);
      ScriptVisitCalls(v, g, notice);
      NoticeRequestsStep(Archived(vs[..n]), v.channel, notice, TokenValue(g));
    }
  }

  /** Every archive call of the script comes straight after the notice to the same channel. */
  lemma {:induction false} ScriptNoticePrecedesArchive(vs: seq<Visit>, g: Globals, notice: string)
    ensures NoticedFirst(ScriptRunLog(vs, g, notice))
    decreases |vs|
  {
    if vs != [] {
      var n := |vs| - 1;
      var v := vs[n];
      ScriptNoticePrecedesArchive(vs[..n], g, notice);
      var prefix := ScriptRunLog(vs[..n], g, notice);
      var tail := ScriptVisitLog(v, g, notice);
      var log := prefix + tail;
      forall k | 0 <= k < |log| && log[k].request.endpoint == ArchiveEndpoint
        ensures 0 < k && log[k - 1].request.endpoint == PostEndpoint && Target(log[k - 1].request) == Target(log[k].request)
      {
        if k < |prefix| {
          assert log[k] == prefix[k];
          assert prefix[k].request.endpoint == ArchiveEndpoint;
          assert 0 < k;
          assert log[k - 1] == prefix[k - 1];
        } else {
          var j := k - |prefix|;
          assert log[k] == tail[j];
          assert Selected(v) && !g.dryRun;
          assert j == |tail| - 1 && 0 < j;
          assert log[k - 1] == tail[j - 1];
          assert "channel" != TokenKey;
        }
      }
    }
  }

  /** The report log posts the report, once, when the admin channel is set and non-empty, and asks nothing else. */
  lemma ScriptReportCalls(archived: seq<Channel>, g: Globals, result: ApiResult)
    ensures var report := ScriptReportLog(archived, g, result);
      && (forall k :: 0 <= k < |report| ==> report[k].request.endpoint == PostEndpoint)
      && CallsTo(report, PostEndpoint)
        == if ReportChannel(g) != "" then [PostRequest(ReportChannel(g), ReportText(archived, g.dryRun), TokenValue(g))] else []
  {
  }

  /** Appending the script's report log adds no call to `channels.archive`. */
  lemma ScriptReportArchivesNothing(log0: seq<Exchange>, archived: seq<Channel>, g: Globals, result: ApiResult)
    ensures NoCallTo(log0 + ScriptReportLog(archived, g, result), |log0|, {ArchiveEndpoint})
  {
  }

  /** Completed passes make no call that stops the run, so a report that stops it is where the run ends. */
  lemma ScriptReportHalts(log0: seq<Exchange>, vs: seq<Visit>, g: Globals, keywords: seq<string>, notice: string,
                          archived: seq<Channel>, result: ApiResult)
    requires forall j :: 0 <= j < |vs| ==> ScriptCompleted(vs[j], g, keywords)
    requires ReportChannel(g) != "" && Ignore(result).Some?
    ensures EndsWith(log0 + ScriptRunLog(vs, g, notice) + ScriptReportLog(archived, g, result), |log0|, Ignore(result).value)
  {
    ScriptRunLogCalm(vs, g, keywords, notice);
    CalmAppend(log0, ScriptRunLog(vs, g, notice), |log0|);
    var post := Exchange(PostRequest(ReportChannel(g), ReportText(archived, g.dryRun), TokenValue(g)), result);
    HaltAfter(log0 + ScriptRunLog(vs, g, notice), |log0|, post, Ignore(result).value);
  }

  /** The calls to `endpoint` of a listing, a sweep and a report are the sweep's, when neither of the others calls it. */
  lemma ScriptSweepCalls(listing: Exchange, vs: seq<Visit>, g: Globals, notice: string, report: seq<Exchange>, endpoint: Endpoint)
    requires listing.request.endpoint == ListEndpoint && endpoint != ListEndpoint && endpoint != PostEndpoint
    requires forall k :: 0 <= k < |report| ==> report[k].request.endpoint == PostEndpoint
    ensures CallsTo([listing] + ScriptRunLog(vs, g, notice) + report, endpoint) == CallsTo(ScriptRunLog(vs, g, notice), endpoint)
  {
    CallsAfter(listing, ScriptRunLog(vs, g, notice), report, endpoint);
    NoCallsTo(report, endpoint);
  }

  /** The posts of a listing, a sweep and a report are the sweep's notices, then the report. */
  lemma ScriptSweepPosts(listing: Exchange, vs: seq<Visit>, g: Globals, notice: string, report: seq<Exchange>)
    requires listing.request.endpoint == ListEndpoint
    ensures CallsTo([listing] + ScriptRunLog(vs, g, notice) + report, PostEndpoint)
      == (if g.dryRun then [] else NoticeRequests(Archived(vs), notice, TokenValue(g))) + CallsTo(report, PostEndpoint)
  {
    ScriptRunNotices(vs, g, notice);
    CallsAfter(listing, ScriptRunLog(vs, g, notice), report, PostEndpoint);
  }

  /**
   * A finished run of the script fetched the history of exactly the channels
   * no keyword exempts, in inventory order; archived exactly the channels it
   * reports, in inventory order, and none in a dry run; posted a notice to
   * each of them in the same order; and then posted the admin report when
   * `ADMIN_CHANNEL` is set and non-empty.
   */
  lemma ScriptFinishedCalls(log0: seq<Exchange>, log: seq<Exchange>, out0: seq<string>, out: seq<string>,
                            audit0: seq<string>, audit: seq<string>,
                            g: Globals, keywords: seq<string>, notice: string, archived: seq<Channel>, trace: Trace)
    requires ScriptFinished(log0, log, out0, out, audit0, audit, g, keywords, notice, archived, trace)
    ensures |log0| <= |log|
    ensures CallsTo(log[|log0|..], HistoryEndpoint) == HistoryRequests(Checked(trace.visits), TokenValue(g))
    ensures CallsTo(log[|log0|..], ArchiveEndpoint)
      == if g.dryRun then [] else ArchiveRequests(archived, TokenValue(g))
    ensures CallsTo(log[|log0|..], PostEndpoint)
      == (if g.dryRun then [] else NoticeRequests(archived, notice, TokenValue(g)))
       + (if ReportChannel(g) != "" then [PostRequest(ReportChannel(g), ReportText(archived, g.dryRun), TokenValue(g))] else [])
  {
    var vs := trace.visits;
    var listing := Exchange(ListRequest(TokenValue(g)), trace.listing);
    var report := ScriptReportLog(archived, g, trace.report);
    DropPrefix(log0, [listing], ScriptRunLog(vs, g, notice), report);
    ArchivedFilters(vs);
    ScriptReportCalls(archived, g, trace.report);
    ScriptSweepCalls(listing, vs, g, notice, report, HistoryEndpoint);
    ScriptSweepCalls(listing, vs, g, notice, report, ArchiveEndpoint);
    ScriptRunHistories(vs, g, notice);
    ScriptRunArchives(vs, g, notice);
    ScriptSweepPosts(listing, vs, g, notice, report);
  }

  /** A finished dry run of the script logs no call to `channels.archive`. */
  lemma ScriptDryRunNoArchiveCall(log0: seq<Exchange>, log: seq<Exchange>, out0: seq<string>, out: seq<string>,
                                  audit0: seq<string>, audit: seq<string>,
                                  g: Globals, keywords: seq<string>, notice: string, archived: seq<Channel>, trace: Trace)
    requires ScriptFinished(log0, log, out0, out, audit0, audit, g, keywords, notice, archived, trace)
    requires g.dryRun
    ensures |log0| <= |log|
    ensures forall k :: |log0| <= k < |log| ==> log[k].request.endpoint != ArchiveEndpoint
  {
    var calls := log[|log0|..];
    ScriptFinishedCalls(log0, log, out0, out, audit0, audit, g, keywords, notice, archived, trace);
    CallsToEmpty(calls, ArchiveEndpoint);
    forall k | |log0| <= k < |log|
      ensures log[k].request.endpoint != ArchiveEndpoint
    {
      assert log[k] == calls[k - |log0|];
    }
  }

  /**
   * A finished dry run of the script sent no archive request to the platform
   * at all: every request on the wire was a logged call, and none of those was
   * an archive call.
   */
  lemma ScriptDryRunArchivesNothing(p0: Platform, p: Platform, start: nat, log0: seq<Exchange>, log: seq<Exchange>,
                                    out0: seq<string>, out: seq<string>, audit0: seq<string>, audit: seq<string>,
                                    g: Globals, keywords: seq<string>, notice: string, archived: seq<Channel>, trace: Trace)
    requires start == |log0| && log0 <= log && Served(p0, p, log, start, |log|, true)
    requires ScriptFinished(log0, log, out0, out, audit0, audit, g, keywords, notice, archived, trace)
    requires g.dryRun
    ensures p0.wire <= p.wire
    ensures forall j :: |p0.wire| <= j < |p.wire| ==> p.wire[j].endpoint != ArchiveEndpoint
  {
    ScriptDryRunNoArchiveCall(log0, log, out0, out, audit0, audit, g, keywords, notice, archived, trace);
    ServedAvoids(p0, p, log, start, |log|, true, ArchiveEndpoint);
  }

  /**
   * Where the top-level loop stands after the passes `vs` over the channels
   * `prefix`, from platform log `log0`, output `out0` and audit log `audit0`.
   */
  ghost predicate Looped(g: Globals, keywords: seq<string>, notice: string, prefix: seq<Channel>,
                         vs: seq<Visit>, archived: seq<Channel>,
                         log0: seq<Exchange>, out0: seq<string>, audit0: seq<string>,
                         log: seq<Exchange>, out: seq<string>, audit: seq<string>)
  {
    && Channels(vs) == prefix
    && (forall j :: 0 <= j < |vs| ==> ScriptCompleted(vs[j], g, keywords))
    && archived == Archived(vs)
    && log == log0 + ScriptRunLog(vs, g, notice)
    && out == out0 + ArchivingLines(archived)
    && audit == audit0 + (if g.dryRun then [] else ArchivingLines(archived))
  }

  /** A completed pass over the next channel carries the loop one channel further. */
  lemma LoopedStep(g: Globals, keywords: seq<string>, notice: string, prefix: seq<Channel>,
                   vs: seq<Visit>, archived: seq<Channel>, v: Visit,
                   log0: seq<Exchange>, out0: seq<string>, audit0: seq<string>,
                   log: seq<Exchange>, out: seq<string>, audit: seq<string>,
                   log1: seq<Exchange>, out1: seq<string>, audit1: seq<string>)
    requires Looped(g, keywords, notice, prefix, vs, archived, log0, out0, audit0, log, out, audit)
    requires ScriptCompleted(v, g, keywords)
    requires log1 == log + ScriptVisitLog(v, g, notice)
    requires out1 == if Selected(v) then out + [ArchivingLine(v.channel)] else out
    requires audit1 == if Selected(v) && !g.dryRun then audit + [ArchivingLine(v.channel)] else audit
    ensures Looped(g, keywords, notice, prefix + [v.channel], vs + [v],
                   if Selected(v) then archived + [v.channel] else archived,
                   log0, out0, audit0, log1, out1, audit1)
  {
    Extend(vs, v);
    ScriptVisitStep(vs, v, g, notice);
    AppendAssociates(log0, ScriptRunLog(vs, g, notice), ScriptVisitLog(v, g, notice));
    if Selected(v) {
      var c := v.channel;
      assert ArchivingLines(archived + [c]) == ArchivingLines(archived) + [ArchivingLine(c)];
      AppendAssociates(out0, ArchivingLines(archived), [ArchivingLine(c)]);
      AppendAssociates(audit0, ArchivingLines(archived), [ArchivingLine(c)]);
    }
  }

  // ---------------------------------------------------------------- stopped runs

  /**
   * The calls of a pass that stopped the script: the first calls of the visit
   * `v` to a channel no keyword exempts, and the verdicts its answers gave as
   * far as the pass got: past `channels.history` the staleness, and past the
   * notice a notice that did not stop the run.
   */
  predicate ScriptInterrupted(v: Visit, g: Globals, keywords: seq<string>, notice: string, calls: seq<Exchange>) {
    && !v.exempt && !AnyKeywordMatches(keywords, v.channel.name)
    && calls <= ScriptVisitLog(v, g, notice)
    && (2 <= |calls| ==> DisusedVerdict(v.history, v.channel, g.tooOld, g.minMembers, g.skipSubtypes) == Success(v.disused))
    && (3 <= |calls| ==> Ignore(v.notice).None?)
  }

  /** A pass that stopped in its checks made the one `channels.history` call. */
  lemma {:induction false} ScriptChecksInterrupted(v: Visit, g: Globals, keywords: seq<string>, notice: string,
                                                   log0: seq<Exchange>, log: seq<Exchange>)
    requires !v.exempt && !AnyKeywordMatches(keywords, v.channel.name)
    requires log == log0 + [Exchange(HistoryRequest(v.channel.id, TokenValue(g)), v.history)]
    ensures ScriptInterrupted(v, g, keywords, notice, log[|log0|..])
  {
    assert log[|log0|..] == ScriptVisitLog(v, g, notice)[..1];
  }

  /**
   * A pass that stopped after its check selected the channel, outside a dry
   * run, made the notice, or the notice and then the archive call.
   */
  lemma {:induction false} ScriptActsInterrupted(v: Visit, g: Globals, keywords: seq<string>, notice: string,
                                                 log0: seq<Exchange>, checked: seq<Exchange>, log: seq<Exchange>)
    requires !v.exempt && !AnyKeywordMatches(keywords, v.channel.name)
    requires DisusedVerdict(v.history, v.channel, g.tooOld, g.minMembers, g.skipSubtypes) == Success(v.disused)
    requires Selected(v) && !g.dryRun
    requires checked == log0 + [Exchange(HistoryRequest(v.channel.id, TokenValue(g)), v.history)]
    requires var post := Exchange(PostRequest(v.channel.id, notice, TokenValue(g)), v.notice);
      || log == checked + [post]
      || (Ignore(v.notice).None? && log == checked + [post, Exchange(ArchiveRequest(v.channel.id, TokenValue(g)), v.archive)])
    ensures ScriptInterrupted(v, g, keywords, notice, log[|log0|..])
  {
    var full := ScriptVisitLog(v, g, notice);
    if |log| == |checked| + 1 {
      assert log[|log0|..] == full[..2];
    } else {
      assert log[|log0|..] == full;
    }
  }

  /**
   * An interrupted pass archived nothing, or its own channel only, and then
   * outside a dry run and after its check selected it.
   */
  lemma {:induction false} ScriptInterruptedArchives(v: Visit, g: Globals, keywords: seq<string>, notice: string, calls: seq<Exchange>)
    requires ScriptInterrupted(v, g, keywords, notice, calls)
    ensures CallsTo(calls, ArchiveEndpoint) == [] || (
      && Selected(v) && !g.dryRun
      && DisusedVerdict(v.history, v.channel, g.tooOld, g.minMembers, g.skipSubtypes) == Success(v.disused)
      && CallsTo(calls, ArchiveEndpoint) == [ArchiveRequest(v.channel.id, TokenValue(g))])
  {
    if |calls| < 3 {
      ScriptChecksArchiveNothing(v, g, notice, calls);
    } else {
      ScriptVisitCalls(v, g, notice);
      assert |ScriptVisitLog(v, g, notice)| == 3 && calls == ScriptVisitLog(v, g, notice);
    }
  }

  /** The first two calls of a pass over an unexempted channel hold no `channels.archive` call. */
  lemma {:induction false} ScriptChecksArchiveNothing(v: Visit, g: Globals, notice: string, calls: seq<Exchange>)
    requires !v.exempt && calls <= ScriptVisitLog(v, g, notice) && |calls| < 3
    ensures CallsTo(calls, ArchiveEndpoint) == []
  {
    var full := ScriptVisitLog(v, g, notice);
    forall k | 0 <= k < |calls|
      ensures calls[k].request.endpoint != ArchiveEndpoint
    {
      assert calls[k] == full[k];
    }
    NoCallsTo(calls, ArchiveEndpoint);
  }

  /** The pass's check, then the notice and the archive call of a selected channel outside a dry run, are its visit. */
  lemma {:induction false} ScriptVisitedAfter(v: Visit, g: Globals, notice: string,
                                              log0: seq<Exchange>, checked: seq<Exchange>, log: seq<Exchange>)
    requires checked == log0 + (if v.exempt then [] else [Exchange(HistoryRequest(v.channel.id, TokenValue(g)), v.history)])
    requires Selected(v) && !g.dryRun ==> log == checked + [
      Exchange(PostRequest(v.channel.id, notice, TokenValue(g)), v.notice),
      Exchange(ArchiveRequest(v.channel.id, TokenValue(g)), v.archive)]
    requires !(Selected(v) && !g.dryRun) ==> log == checked
    ensures log == log0 + ScriptVisitLog(v, g, notice)
  {
    if Selected(v) && !g.dryRun {
      AppendAssociates(log0, checked[|log0|..], log[|checked|..]);
    }
  }

  /**
   * After the top-level loop over `channels` and the admin report, from
   * platform log `log0`: every channel went through the loop in order, the
   * selected ones were reported, and no call was made but the passes' and
   * the report's.
   */
  ghost predicate ScriptReported(g: Globals, keywords: seq<string>, notice: string, channels: seq<Channel>,
                                 vs: seq<Visit>, archived: seq<Channel>, report: ApiResult, log0: seq<Exchange>, log: seq<Exchange>)
  {
    && Channels(vs) == channels
    && (forall j :: 0 <= j < |vs| ==> ScriptCompleted(vs[j], g, keywords))
    && archived == FilterBy(Channels(vs), Flags(vs))
    && log == log0 + ScriptRunLog(vs, g, notice) + ScriptReportLog(archived, g, report)
  }

  /** A loop over every channel, then the report on the channels it selected. */
  lemma {:induction false} ScriptReportedAfter(g: Globals, keywords: seq<string>, notice: string, channels: seq<Channel>,
                                               vs: seq<Visit>, archived: seq<Channel>, report: ApiResult,
                                               log0: seq<Exchange>, swept: seq<Exchange>, log: seq<Exchange>)
    requires Channels(vs) == channels && archived == Archived(vs)
    requires forall j :: 0 <= j < |vs| ==> ScriptCompleted(vs[j], g, keywords)
    requires swept == log0 + ScriptRunLog(vs, g, notice) && log == swept + ScriptReportLog(archived, g, report)
    ensures ScriptReported(g, keywords, notice, channels, vs, archived, report, log0, log)
  {
    ArchivedFilters(vs);
  }

  /**
   * Where the top-level loop over `channels` stopped, from platform log
   * `log0`: after the completed passes `vs` over the first channels, in
   * order, partway through the pass `stopped` over the next one.
   */
  ghost predicate ScriptStoppedIn(g: Globals, keywords: seq<string>, notice: string, channels: seq<Channel>,
                                  vs: seq<Visit>, stopped: Visit, log0: seq<Exchange>, log: seq<Exchange>)
  {
    var done := log0 + ScriptRunLog(vs, g, notice);
    && |vs| < |channels| && Channels(vs) == channels[..|vs|] && stopped.channel == channels[|vs|]
    && (forall j :: 0 <= j < |vs| ==> ScriptCompleted(vs[j], g, keywords))
    && done <= log
    && ScriptInterrupted(stopped, g, keywords, notice, log[|done|..])
  }

  /** How the top-level loop over `channels` and the report ended: through both, or stopped in the pass `stopped`. */
  ghost predicate ScriptLoopEnded(g: Globals, keywords: seq<string>, notice: string, channels: seq<Channel>, vs: seq<Visit>,
                                  archived: seq<Channel>, report: ApiResult, stopped: Option<Visit>,
                                  log0: seq<Exchange>, log: seq<Exchange>)
  {
    match stopped
    case None => ScriptReported(g, keywords, notice, channels, vs, archived, report, log0, log)
    case Some(v) => ScriptStoppedIn(g, keywords, notice, channels, vs, v, log0, log)
  }

  /**
   * What a stopped run of the script had done, from platform log `log0`: it
   * asked for the listing; when that answered, it passed the first channels
   * of the inventory through the loop in order, and then stopped either
   * partway through the pass `stopped` over the next channel or, with every
   * channel passed, on the admin report.
   */
  ghost predicate ScriptStoppedRun(log0: seq<Exchange>, log: seq<Exchange>, g: Globals, keywords: seq<string>, notice: string,
                                   trace: Trace, stopped: Option<Visit>)
  {
    var vs := trace.visits;
    var listed := log0 + [Exchange(ListRequest(TokenValue(g)), trace.listing)];
    var done := listed + ScriptRunLog(vs, g, notice);
    && (forall j :: 0 <= j < |vs| ==> ScriptCompleted(vs[j], g, keywords))
    && done <= log
    && if !(trace.listing.Json? && trace.listing.body.channels.Some?) then
         vs == [] && stopped.None? && log == listed
       else
         var inventory := Inventory(trace.listing.body.channels.value);
         match stopped
         case Some(v) =>
           && |vs| < |inventory| && Channels(vs) == inventory[..|vs|] && v.channel == inventory[|vs|]
           && ScriptInterrupted(v, g, keywords, notice, log[|done|..])
         case None =>
           Channels(vs) == inventory && log == done + ScriptReportLog(Archived(vs), g, trace.report)
  }

  /** A run whose listing answered, and whose loop and report then went through, swept the workspace. */
  lemma {:induction false} ScriptSweptAfterListing(log0: seq<Exchange>, listed: seq<Exchange>, log: seq<Exchange>,
                                                   audit0: seq<string>, audit: seq<string>,
                                                   g: Globals, keywords: seq<string>, notice: string,
                                                   listing: ApiResult, vs: seq<Visit>, archived: seq<Channel>, report: ApiResult)
    requires listing.Json? && listing.body.channels.Some?
    requires listed == log0 + [Exchange(ListRequest(TokenValue(g)), listing)]
    requires ScriptLoopEnded(g, keywords, notice, Inventory(listing.body.channels.value), vs, archived, report, None, listed, log)
    requires ReportChannel(g) != "" ==> Ignore(report).None?
    requires audit == audit0 + (if g.dryRun then [] else ArchivingLines(archived))
    ensures ScriptSwept(log0, log, audit0, audit, g, keywords, notice, archived, Trace(listing, vs, report))
  {
  }

  /** A run of the script that stopped after its listing answered: in the loop, or on the report. */
  lemma {:induction false} ScriptStoppedAfterListing(log0: seq<Exchange>, listed: seq<Exchange>, log: seq<Exchange>,
                                                     g: Globals, keywords: seq<string>, notice: string, listing: ApiResult,
                                                     vs: seq<Visit>, archived: seq<Channel>, report: ApiResult, stopped: Option<Visit>)
    requires listing.Json? && listing.body.channels.Some?
    requires listed == log0 + [Exchange(ListRequest(TokenValue(g)), listing)]
    requires ScriptLoopEnded(g, keywords, notice, Inventory(listing.body.channels.value), vs, archived, report, stopped, listed, log)
    ensures ScriptStoppedRun(log0, log, g, keywords, notice, Trace(listing, vs, report), stopped)
  {
    if stopped.None? {
      ArchivedFilters(vs);
    }
  }

  /**
   * A stopped run of the script archived the channels its completed passes
   * selected, in inventory order, and at most one more: the channel of the
   * interrupted pass, once its check had selected it. In a dry run it
   * archived nothing.
   */
  lemma {:induction false} ScriptStoppedRunArchives(log0: seq<Exchange>, log: seq<Exchange>, g: Globals, keywords: seq<string>,
                                                    notice: string, trace: Trace, stopped: Option<Visit>)
    requires ScriptStoppedRun(log0, log, g, keywords, notice, trace, stopped)
    ensures |log0| <= |log|
    ensures var token := TokenValue(g);
      var archives := CallsTo(log[|log0|..], ArchiveEndpoint);
      var done := if g.dryRun then [] else ArchiveRequests(Archived(trace.visits), token);
      || archives == done
      || (&& stopped.Some? && Selected(stopped.value) && !g.dryRun
          && DisusedVerdict(stopped.value.history, stopped.value.channel, g.tooOld, g.minMembers, g.skipSubtypes)
               == Success(stopped.value.disused)
          && archives == done + [ArchiveRequest(stopped.value.channel.id, token)])
  {
    var vs := trace.visits;
    var listing := Exchange(ListRequest(TokenValue(g)), trace.listing);
    var done := log0 + [listing] + ScriptRunLog(vs, g, notice);
    var rest := log[|done|..];
    assert log == done + rest;
    ScriptListedArchives(log0, listing, vs, g, notice, rest);
    if stopped.Some? {
      ScriptInterruptedArchives(stopped.value, g, keywords, notice, rest);
    } else if trace.listing.Json? && trace.listing.body.channels.Some? {
      assert rest == ScriptReportLog(Archived(vs), g, trace.report);
      ScriptReportCalls(Archived(vs), g, trace.report);
      NoCallsTo(rest, ArchiveEndpoint);
    } else {
      assert rest == [];
    }
  }

  /** The archive calls after `log0` of a listing, some passes and more calls `rest`. */
  lemma {:induction false} ScriptListedArchives(log0: seq<Exchange>, listing: Exchange, vs: seq<Visit>, g: Globals,
                                                notice: string, rest: seq<Exchange>)
    requires listing.request.endpoint == ListEndpoint
    ensures CallsTo((log0 + [listing] + ScriptRunLog(vs, g, notice) + rest)[|log0|..], ArchiveEndpoint)
      == (if g.dryRun then [] else ArchiveRequests(Archived(vs), TokenValue(g))) + CallsTo(rest, ArchiveEndpoint)
  {
    DropPrefix(log0, [listing], ScriptRunLog(vs, g, notice), rest);
    ScriptRunArchives(vs, g, notice);
    CallsAfter(listing, ScriptRunLog(vs, g, notice), rest, ArchiveEndpoint);
  }

  // ---------------------------------------------------------------- the script

  class Script {
    const globals: Globals
    const slack: Remote
    var stdout: seq<string>
    var auditLog: seq<string>

    /** Importing the script: the globals are read once, at `now`. */
    constructor (env: Environment, now: int, slack: Remote)
      ensures globals == LoadGlobals(env, now) && this.slack == slack && stdout == [] && auditLog == []
    {
      globals := LoadGlobals(env, now);
      this.slack := slack;
      stdout, auditLog := [], [];
    }

    /**
     * `slack_api_http` with `SLACK_TOKEN`: an exception on rejection, and the
     * help line printed before `sys.exit(1)`.
     */
    method SlackApiHttp(endpoint: Endpoint, fields: Fields, httpMethod: HttpMethod) returns (out: ApiResult)
      modifies this, slack
      ensures
        var request := Issued(endpoint, fields, httpMethod, TokenValue(globals));
        var s := Settle(old(slack.script), 0);
        && out == Outcome(s.last, true)
        && slack.script == old(slack.script)[s.used..]
        && slack.wire == old(slack.wire) + Repeat(request, s.sent)
        && slack.sleeps == old(slack.sleeps) + s.delays
        && slack.log == old(slack.log) + [Exchange(request, out)]
      ensures !out.NoneResult?
      ensures slack.ServedSince(old(slack.State()), old(slack.log), true)
      ensures stdout == AuthNoted(old(stdout), out) && auditLog == old(auditLog)
    {
      var payload := new Payload(fields);
      out := Call(slack, endpoint, payload, httpMethod, TokenValue(globals), true);
      if out.Exited? {
        stdout := stdout + [AuthHelp];
      }
    }

    /** `get_all_channels`: the listed channels in order, reduced to id, name, creation and member count. */
    method GetAllChannels() returns (r: Result<seq<Channel>, Halt>, listing: ApiResult)
      modifies this, slack
      ensures slack.ServedSince(old(slack.State()), old(slack.log), true)
      ensures slack.log == old(slack.log) + [Exchange(ListRequest(TokenValue(globals)), listing)]
      ensures stdout == AuthNoted(old(stdout), listing) && auditLog == old(auditLog)
      ensures r.Success? <==> listing.Json? && listing.body.channels.Some?
      ensures r.Success? ==> r.value == Inventory(listing.body.channels.value)
      ensures r.Failure? ==> Stop(ListEndpoint, listing) == Some(r.error)
    {
      listing := SlackApiHttp(ListEndpoint, ListFields(), Get);
      var fetched := Fetch(listing);
      if fetched.Failure? {
        r := Failure(fetched.error);
        return;
      }
      if fetched.value.channels.None? {
        r := Failure(Crash);   // KeyError on ['channels']
        return;
      }
      var all := ProjectChannels(fetched.value.channels.value);
      assert all == Inventory(fetched.value.channels.value);
      r := Success(all);
    }

    /**
     * `get_last_message_timestamp`, with the bot-message fallback as written.
     * The fallback never fires: a `datetime` is always true, so the epoch
     * branch is dead and the bot time stays equal to `baseline`, which is
     * never after itself. The flag is therefore false exactly when the
     * history has no `messages`.
     */
    method GetLastMessageTimestamp(history: Body, baseline: int) returns (ts: int, isUser: bool)
      ensures (ts, isUser) == Activity(history.messages, baseline, globals.skipSubtypes)
      ensures !isUser <==> history.messages.None?
      ensures history.messages.None? ==> ts == baseline
    {
      var lastMessage := baseline;
      var lastBotMessage := baseline;
      if history.messages.None? {
        return lastMessage, false;
      }
      lastMessage := ScanHistory(history.messages.value, globals.skipSubtypes, baseline);
      lastBotMessage := if DatetimeTruthy(lastMessage) then lastBotMessage else Epoch;
      var fallback := lastBotMessage > baseline && lastMessage <= baseline;
      ts := if fallback then lastBotMessage else lastMessage;
      isUser := !fallback;
    }

    /** `is_channel_disused`: one `channels.history` call, judged against `cutoff`. */
    method IsChannelDisused(c: Channel, cutoff: int) returns (r: Result<bool, Halt>, history: ApiResult)
      modifies this, slack
      ensures slack.ServedSince(old(slack.State()), old(slack.log), true)
      ensures slack.log == old(slack.log) + [Exchange(HistoryRequest(c.id, TokenValue(globals)), history)]
      ensures stdout == AuthNoted(old(stdout), history) && auditLog == old(auditLog)
      ensures r == DisusedVerdict(history, c, cutoff, globals.minMembers, globals.skipSubtypes)
      ensures NoCallTo(slack.log, |old(slack.log)|, {PostEndpoint, ArchiveEndpoint})
    {
      history := SlackApiHttp(HistoryEndpoint, HistoryFields(c.id), Get);
      var fetched := Fetch(history);
      if fetched.Failure? {
        r := Failure(fetched.error);
        return;
      }
      var last, isUser := GetLastMessageTimestamp(fetched.value, c.created);
      var hasMinUsers := globals.minMembers == 0 || globals.minMembers > c.numMembers;
      r := Success(last <= cutoff && (!isUser || hasMinUsers));
    }

    /** `send_channel_message`: one `chat.postMessage` as `channel_reaper` with the ghost icon. */
    method SendChannelMessage(channelId: string, text: string) returns (h: Option<Halt>, result: ApiResult)
      modifies this, slack
      ensures slack.ServedSince(old(slack.State()), old(slack.log), true)
      ensures slack.log == old(slack.log) + [Exchange(PostRequest(channelId, text, TokenValue(globals)), result)]
      ensures stdout == AuthNoted(old(stdout), result) && auditLog == old(auditLog)
      ensures h == Ignore(result)
    {
      result := SlackApiHttp(PostEndpoint, PostFields(channelId, text), Post);
      h := Ignore(result);
    }

    /**
     * `archive_channel`: print the channel; outside a dry run post the
     * notice, archive, and log the line.
     */
    method ArchiveChannel(c: Channel, notice: string) returns (h: Option<Halt>, noticeResult: ApiResult, archiveResult: ApiResult)
      modifies this, slack
      ensures slack.ServedSince(old(slack.State()), old(slack.log), true)
      ensures globals.dryRun ==>
        && h.None? && unchanged(slack)
        && stdout == old(stdout) + [ArchivingLine(c)] && auditLog == old(auditLog)
      ensures !globals.dryRun && h.None? ==>
        && Ignore(noticeResult).None? && Ignore(archiveResult).None?
        && slack.log == old(slack.log) + [
             Exchange(PostRequest(c.id, notice, TokenValue(globals)), noticeResult),
             Exchange(ArchiveRequest(c.id, TokenValue(globals)), archiveResult)]
        && stdout == old(stdout) + [ArchivingLine(c)]
        && auditLog == old(auditLog) + [ArchivingLine(c)]
      ensures h.Some? ==> !globals.dryRun && EndsWith(slack.log, |old(slack.log)|, h.value)
      ensures h.Some? ==>
        var post := Exchange(PostRequest(c.id, notice, TokenValue(globals)), noticeResult);
        || slack.log == old(slack.log) + [post]
        || (&& Ignore(noticeResult).None?
            && slack.log == old(slack.log) + [post, Exchange(ArchiveRequest(c.id, TokenValue(globals)), archiveResult)])
      ensures old(stdout) + [ArchivingLine(c)] <= stdout && old(auditLog) <= auditLog
    {
      var line := ArchivingLine(c);
      stdout := stdout + [line];
      noticeResult, archiveResult := NoneResult, NoneResult;
      h := None;
      if !globals.dryRun {
        h, noticeResult := SendChannelMessage(c.id, notice);
        if h.Some? {
          HaltAfter(old(slack.log), |old(slack.log)|, slack.log[|slack.log| - 1], h.value);
          return;
        }
        ghost var posted, postedLog := slack.State(), slack.log;
        archiveResult := SlackApiHttp(ArchiveEndpoint, ArchiveFields(c.id), Get);
        ServedChain(old(slack.State()), old(slack.log), posted, postedLog, slack.State(), slack.log, true);
        ghost var post := Exchange(PostRequest(c.id, notice, TokenValue(globals)), noticeResult);
        ghost var archive := Exchange(ArchiveRequest(c.id, TokenValue(globals)), archiveResult);
        assert slack.log == old(slack.log) + [post, archive] by {
          AppendAssociates(old(slack.log), [post], [archive]);
        }
        h := Ignore(archiveResult);
        if h.Some? {
          HaltAfter(postedLog, |old(slack.log)|, slack.log[|slack.log| - 1], h.value);
          return;
        }
        auditLog := auditLog + [line];
      }
    }

    /** `send_admin_report`: when `ADMIN_CHANNEL` is set and non-empty, one message naming the archived channels. */
    method SendAdminReport(archived: seq<Channel>) returns (h: Option<Halt>, result: ApiResult)
      modifies this, slack
      ensures slack.ServedSince(old(slack.State()), old(slack.log), true)
      ensures slack.log == old(slack.log) + ScriptReportLog(archived, globals, result)
      ensures stdout == (if ReportChannel(globals) != "" then AuthNoted(old(stdout), result) else old(stdout))
      ensures ReportChannel(globals) == "" ==> unchanged(slack)
      ensures auditLog == old(auditLog)
      ensures h == (if ReportChannel(globals) != "" then Ignore(result) else None)
    {
      h, result := None, NoneResult;
      if globals.adminChannel.Some? && globals.adminChannel.value != "" {
        var names := Join(ChannelTags(archived), ", ");
        var message := ReportHeader(|archived|) + names;
        if globals.dryRun {
          message := DryRunPrefix + message;
        }
        assert message == ReportText(archived, globals.dryRun);
        h, result := SendChannelMessage(globals.adminChannel.value, message);
      }
    }

    /**
     * The checks of one pass of the top-level loop: the keyword test, then,
     * only when no keyword exempts the channel, the staleness check.
     */
    method CheckChannel(c: Channel, keywords: seq<string>) returns (h: Option<Halt>, exempt: bool, disused: bool, history: ApiResult)
      modifies this, slack
      ensures slack.ServedSince(old(slack.State()), old(slack.log), true)
      ensures exempt == AnyKeywordMatches(keywords, c.name)
      ensures h.None? ==>
        && (if exempt then history == NoneResult && !disused
            else DisusedVerdict(history, c, globals.tooOld, globals.minMembers, globals.skipSubtypes) == Success(disused))
        && slack.log == old(slack.log) + (if exempt then [] else [Exchange(HistoryRequest(c.id, TokenValue(globals)), history)])
      ensures h.Some? ==> !exempt && EndsWith(slack.log, |old(slack.log)|, h.value)
      ensures h.Some? ==> slack.log == old(slack.log) + [Exchange(HistoryRequest(c.id, TokenValue(globals)), history)]
      ensures NoCallTo(slack.log, |old(slack.log)|, {PostEndpoint, ArchiveEndpoint})
      ensures stdout == AuthNoted(old(stdout), history) && auditLog == old(auditLog)
    {
      h, disused, history := None, false, NoneResult;
      exempt := AnyKeywordMatches(keywords, c.name);
      if exempt {
        return;
      }
      var verdict;
      verdict, history := IsChannelDisused(c, globals.tooOld);
      if verdict.Failure? {
        HaltAfter(old(slack.log), |old(slack.log)|, slack.log[|slack.log| - 1], verdict.error);
        return Some(verdict.error), false, false, history;
      }
      disused := verdict.value;
    }

    /** One pass of the top-level loop: the checks, and the archive when the channel is disused. */
    method VisitChannel(c: Channel, keywords: seq<string>, notice: string) returns (h: Option<Halt>, selected: bool, v: Visit)
      modifies this, slack
      ensures slack.ServedSince(old(slack.State()), old(slack.log), true)
      ensures v.channel == c
      ensures h.None? ==>
        && ScriptCompleted(v, globals, keywords)
        && (selected <==> Selected(v))
        && slack.log == old(slack.log) + ScriptVisitLog(v, globals, notice)
        && stdout == (if selected then old(stdout) + [ArchivingLine(c)] else old(stdout))
        && auditLog == (if selected && !globals.dryRun then old(auditLog) + [ArchivingLine(c)] else old(auditLog))
      ensures h.Some? ==> EndsWith(slack.log, |old(slack.log)|, h.value)
      ensures h.Some? ==> ScriptInterrupted(v, globals, keywords, notice, slack.log[|old(slack.log)|..])
      ensures globals.dryRun ==>
        NoCallTo(slack.log, |old(slack.log)|, {PostEndpoint, ArchiveEndpoint})
      ensures old(stdout) <= stdout && old(auditLog) <= auditLog
    {
      var exempt, disused, history;
      h, exempt, disused, history := CheckChannel(c, keywords);
      if h.Some? {
        v := Visit(c, NoneResult, history, exempt, false, NoneResult, NoneResult);
        ScriptChecksInterrupted(v, globals, keywords, notice, old(slack.log), slack.log);
        return h, false, v;
      }
      selected := !exempt && disused;
      var noticeResult, archiveResult := NoneResult, NoneResult;
      ghost var checkedLog := slack.log;
      if selected {
        ghost var checked := slack.State();
        h, noticeResult, archiveResult := ArchiveChannel(c, notice);
        ServedChain(old(slack.State()), old(slack.log), checked, checkedLog, slack.State(), slack.log, true);
        v := Visit(c, NoneResult, history, exempt, disused, noticeResult, archiveResult);
        if h.Some? {
          HaltLater(checkedLog, slack.log, |old(slack.log)|, h.value);
          ScriptActsInterrupted(v, globals, keywords, notice, old(slack.log), checkedLog, slack.log);
          return;
        }
      }
      v := Visit(c, NoneResult, history, exempt, disused, noticeResult, archiveResult);
      ScriptVisitedAfter(v, globals, notice, old(slack.log), checkedLog, slack.log);
    }

    /**
     * The top-level loop over the listed channels: each one, in inventory
     * order, goes through the keyword test and, when not exempt, the staleness
     * check; the selected ones are collected in order and archived.
     */
    method ArchiveChannels(channels: seq<Channel>, keywords: seq<string>, notice: string)
      returns (h: Option<Halt>, archived: seq<Channel>, visits: seq<Visit>, ghost stopped: Visit)
      modifies this, slack
      ensures slack.ServedSince(old(slack.State()), old(slack.log), true)
      ensures h.None? ==>
        && Channels(visits) == channels
        && (forall j :: 0 <= j < |visits| ==> ScriptCompleted(visits[j], globals, keywords))
        && archived == Archived(visits)
        && slack.log == old(slack.log) + ScriptRunLog(visits, globals, notice)
        && stdout == old(stdout) + ArchivingLines(archived)
        && auditLog == old(auditLog) + (if globals.dryRun then [] else ArchivingLines(archived))
      ensures h.Some? ==> EndsWith(slack.log, |old(slack.log)|, h.value)
      ensures h.Some? ==> ScriptStoppedIn(globals, keywords, notice, channels, visits, stopped, old(slack.log), slack.log)
      ensures globals.dryRun ==>
        NoCallTo(slack.log, |old(slack.log)|, {PostEndpoint, ArchiveEndpoint})
      ensures old(stdout) <= stdout && old(auditLog) <= auditLog
    {
      archived, visits := [], [];
      stopped := Visit(Channel("", "", 0, 0), NoneResult, NoneResult, false, false, NoneResult, NoneResult);
      assert channels[..|channels|] == channels;
      h := None;
      for i := 0 to |channels|
        invariant h.None?
        invariant slack.ServedSince(old(slack.State()), old(slack.log), true)
        invariant globals.dryRun ==>
          NoCallTo(slack.log, |old(slack.log)|, {PostEndpoint, ArchiveEndpoint})
        invariant Looped(globals, keywords, notice, channels[..i], visits, archived,
                         old(slack.log), old(stdout), old(auditLog), slack.log, stdout, auditLog)
      {
        var c := channels[i];
        ghost var p, log, out, audit := slack.State(), slack.log, stdout, auditLog;
        var selected, v;
        h, selected, v := VisitChannel(c, keywords, notice);
        ServedChain(old(slack.State()), old(slack.log), p, log, slack.State(), slack.log, true);
        if globals.dryRun {
          NoCallChain(log, slack.log, |old(slack.log)|, {PostEndpoint, ArchiveEndpoint});
        }
        if h.Some? {
          ScriptRunLogCalm(visits, globals, keywords, notice);
          CalmAppend(old(slack.log), ScriptRunLog(visits, globals, notice), |old(slack.log)|);
          HaltLater(log, slack.log, |old(slack.log)|, h.value);
          stopped := v;
          return;
        }
        LoopedStep(globals, keywords, notice, channels[..i], visits, archived, v,
                   old(slack.log), old(stdout), old(auditLog), log, out, audit, slack.log, stdout, auditLog);
        if selected {
          archived := archived + [c];
        }
        TakeOneMore(channels, i);
        visits := visits + [v];
      }
    }

    /** The loop, then the admin report on the channels it archived. */
    method ArchiveAndReport(channels: seq<Channel>, keywords: seq<string>, notice: string)
      returns (h: Option<Halt>, archived: seq<Channel>, ghost visits: seq<Visit>, ghost report: ApiResult,
               ghost stopped: Option<Visit>)
      modifies this, slack
      ensures slack.ServedSince(old(slack.State()), old(slack.log), true)
      ensures ScriptLoopEnded(globals, keywords, notice, channels, visits, archived, report, stopped, old(slack.log), slack.log)
      ensures stopped.Some? ==> h.Some?
      ensures h.None? ==>
        && stopped.None?
        && (ReportChannel(globals) != "" ==> Ignore(report).None?)
        && stdout == old(stdout) + ArchivingLines(archived)
        && auditLog == old(auditLog) + (if globals.dryRun then [] else ArchivingLines(archived))
      ensures h.Some? ==> EndsWith(slack.log, |old(slack.log)|, h.value)
      ensures globals.dryRun ==> NoCallTo(slack.log, |old(slack.log)|, {ArchiveEndpoint})
      ensures old(stdout) <= stdout && old(auditLog) <= auditLog
    {
      report := NoneResult;
      ghost var interrupted;
      h, archived, visits, interrupted := ArchiveChannels(channels, keywords, notice);
      if h.Some? {
        stopped := Some(interrupted);
        return;
      }
      stopped := None;
      ghost var swept, sweptLog, sweptOut := slack.State(), slack.log, stdout;
      h, report := SendAdminReport(archived);
      ServedChain(old(slack.State()), old(slack.log), swept, sweptLog, slack.State(), slack.log, true);
      ScriptReportedAfter(globals, keywords, notice, channels, visits, archived, report, old(slack.log), sweptLog, slack.log);
      if globals.dryRun {
        ScriptReportArchivesNothing(sweptLog, archived, globals, report);
        NoCallChain(sweptLog, slack.log, |old(slack.log)|, {ArchiveEndpoint});
      }
      if h.Some? {
        ScriptReportHalts(old(slack.log), visits, globals, keywords, notice, archived, report);
        PrefixChain(old(stdout), sweptOut, stdout);
        return;
      }
    }

    /**
     * The script's top level: the dry-run banner, the keyword list, the
     * listing, the loop and the report. A finished run is accounted for by
     * `ScriptFinished`; a stopped run made no call after the one that
     * stopped it.
     */
    method Run(whitelistLines: seq<string>, notice: string) returns (outcome: RunOutcome, ghost trace: Trace, ghost stopped: Option<Visit>)
      modifies this, slack
      ensures slack.ServedSince(old(slack.State()), old(slack.log), true)
      ensures outcome.Finished? ==> ScriptFinished(old(slack.log), slack.log, old(stdout), stdout, old(auditLog), auditLog,
        globals, WhitelistKeywords(whitelistLines, KeywordSetting(globals)), notice, outcome.archived, trace)
      ensures outcome.Halted? ==> EndsWith(slack.log, |old(slack.log)|, outcome.halt)
      ensures outcome.Halted? ==> ScriptStoppedRun(old(slack.log), slack.log, globals,
        WhitelistKeywords(whitelistLines, KeywordSetting(globals)), notice, trace, stopped)
      ensures globals.dryRun ==> NoCallTo(slack.log, |old(slack.log)|, {ArchiveEndpoint})
      ensures globals.dryRun ==>
        old(slack.wire) <= slack.wire && forall j :: |old(slack.wire)| <= j < |slack.wire| ==> slack.wire[j].endpoint != ArchiveEndpoint
      ensures old(stdout) <= stdout && old(auditLog) <= auditLog
    {
      if globals.dryRun {
        stdout := stdout + [DryRunBanner];
      }
      var keywords := WhitelistKeywords(whitelistLines, KeywordSetting(globals));
      ghost var printed := stdout;
      ghost var start := |slack.log|;
      outcome, trace, stopped := Sweep(keywords, notice);
      if globals.dryRun {
        ServedAvoids(old(slack.State()), slack.State(), slack.log, start, |slack.log|, true, ArchiveEndpoint);
      }
      assert printed == if globals.dryRun then old(stdout) + [DryRunBanner] else old(stdout);
    }

    /** The top level once the keyword list is built. */
    method Sweep(keywords: seq<string>, notice: string) returns (outcome: RunOutcome, ghost trace: Trace, ghost stopped: Option<Visit>)
      modifies this, slack
      ensures slack.ServedSince(old(slack.State()), old(slack.log), true)
      ensures outcome.Finished? ==>
        && ScriptSwept(old(slack.log), slack.log, old(auditLog), auditLog, globals, keywords, notice, outcome.archived, trace)
        && stdout == old(stdout) + ArchivingLines(outcome.archived)
      ensures outcome.Halted? ==> EndsWith(slack.log, |old(slack.log)|, outcome.halt)
      ensures outcome.Halted? ==> ScriptStoppedRun(old(slack.log), slack.log, globals, keywords, notice, trace, stopped)
      ensures globals.dryRun ==> NoCallTo(slack.log, |old(slack.log)|, {ArchiveEndpoint})
      ensures old(stdout) <= stdout && old(auditLog) <= auditLog
    {
      var listed, listing := GetAllChannels();
      trace, stopped := Trace(listing, [], NoneResult), None;
      if listed.Failure? {
        HaltAfter(old(slack.log), |old(slack.log)|, slack.log[|slack.log| - 1], listed.error);
        return Halted(listed.error), trace, stopped;
      }
      ghost var start, startLog, startOut := slack.State(), slack.log, stdout;
      assert Calm(startLog, |old(slack.log)|) && NoCallTo(startLog, |old(slack.log)|, {ArchiveEndpoint});
      var h, archived;
      ghost var visits, report;
      h, archived, visits, report, stopped := ArchiveAndReport(listed.value, keywords, notice);
      ServedChain(old(slack.State()), old(slack.log), start, startLog, slack.State(), slack.log, true);
      PrefixChain(old(stdout), startOut, stdout);
      trace := Trace(listing, visits, report);
      if h.Some? {
        HaltLater(startLog, slack.log, |old(slack.log)|, h.value);
        ScriptStoppedAfterListing(old(slack.log), startLog, slack.log, globals, keywords, notice, listing,
                                  visits, archived, report, stopped);
        return Halted(h.value), trace, stopped;
      }
      ScriptSweptAfterListing(old(slack.log), startLog, slack.log, old(auditLog), auditLog, globals, keywords, notice,
                              listing, visits, archived, report);
      outcome := Finished(archived);
    }
  }
}
