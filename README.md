# slack-autoarchive, modelled in Dafny

slack-autoarchive is a Slack channel reaper. It runs periodically with a bot
token and does the following:

1. It lists the workspace's channels.
2. For each channel, it decides two things:
   - whether the channel is **exempt**. This is the case when a `%noarchive`
     marker appears in its topic or purpose, or when a whitelist keyword
     appears in its name.
   - whether the channel is **disused**. Its newest counted message must be no
     later than the cutoff. Messages whose subtype is `channel_join` or
     `channel_leave` are not counted, and the cutoff is *now* minus
     `DAYS_INACTIVE` days. With `MIN_MEMBERS` non-zero, a channel with a user
     message and at least `MIN_MEMBERS` members is never disused. The default
     `MIN_MEMBERS` is 0, and then the member count protects no channel.
3. Every channel that is disused and not exempt gets a notice and is then
   archived, unless the run is a dry run.
4. At the end, a report is sent to an admin channel.

The repository holds the logic twice:

- the class `ChannelReaper` in `slack_autoarchive.py`, with its settings built
  by `config.py`;
- the older script `slack-autoarchive.py`, which uses module globals. It checks
  keywords only, skips the staleness check for a channel that a keyword
  exempts, and raises an exception where the class version returns `None`.

Both are modelled:

| file | module | what it holds |
|---|---|---|
| `wrappers.dfy` | `Wrappers` | `Option`, `Result` |
| `text.dfy` | `Text` | the Python string operations used: `strip`, `split`, `join`, `in`, `%d` |
| `slack.dfy` | `Slack` | requests and response bodies, the classification of one HTTP response, the retry loop of `slack_api_http` (`Attempts`, `Call`), and the platform as an object (`Remote`) that answers from a finite script of responses and records every request, every sleep and every logical call |
| `config.dfy` | `Config` | `get_channel_reaper_settings` as a function of an environment and a clock value |
| `policy.dfy` | `Policy` | the decision logic shared by both versions: the history scan, the staleness predicate, keyword matching, the keyword list, the admin report text and the order-preserving filter |
| `runs.dfy` | `Runs` | per-channel visits and the calls a run makes |
| `channel_reaper.dfy` | `ChannelReaper` | the class version (`class Reaper`) and what a finished or stopped run did |
| `archive_script.dfy` | `ArchiveScript` | the script version (`class Script`) and what a finished or stopped run did |

Time is an integer number of seconds. Each environment variable is an
`Option`, and the integer ones are already parsed. The whitelist file's lines
and the notice text are inputs.

A run either finishes or stops. A finished run is described by
`ChannelReaper.FinishedRun` or `ArchiveScript.ScriptFinished`, which cover:

- every call made to the platform, in order;
- the channels archived;
- the lines written.

A run stops on `sys.exit(1)`, on an uncaught exception, or when the script of
responses runs out. `Slack.Stop` says, for each endpoint, which results of a
call to it end the run: the caller of `channels.list` or `channels.info`
needs a body with `channels` or `channel`, the caller of `channels.history`
needs a body, and the posts and the archive calls only stop on an exception,
an exit or a stall. A stopped run ends with the call whose result stops it,
and no earlier call of that run stops it (`Slack.EndsWith`).

A stopped run is described by `ChannelReaper.StoppedRun` or
`ArchiveScript.ScriptStoppedRun`. When the listing did not answer, the listing
call is the only call. Otherwise the run made the listing call, then the calls
of the channels it passed, each pass complete and in inventory order. Then
either:

- the run stopped partway through the pass over the next channel
  (`Interrupted`, `ScriptInterrupted`). Its calls are a prefix of that pass's
  calls, and each verdict they reached is recorded: the exemption, the
  staleness, and a notice that did not stop the run; or
- every channel was passed, and the run stopped on the admin report.

`StoppedRunArchives` and `ScriptStoppedRunArchives` read the archive calls off
this. A stopped run archived the channels its complete passes selected, in
inventory order, and none in a dry run. At most one more channel was
archived: the channel of the interrupted pass, when its checks had selected
it outside a dry run.

Some promises hold however a run ends (`Runs.NoCallTo`). A dry run makes
no `channels.archive` call, and its loop makes no `chat.postMessage` call;
only the admin report posts. Both `Run` methods carry this through to the
wire. The output and the audit log only grow. The archiving line for a
channel is written even when a call for that channel then stops the run.

The platform is an object (`Slack.Remote`) that answers from its script of
responses. It records every request put on the wire, every sleep taken and
every logical call with its result. Every method that calls the platform
ensures `ServedSince` on it. This means every call logged during the method got the
result that the platform's script gives for it. It also means the script, the
wire and the sleeps moved on exactly as the retries of those calls say. So the
model cannot invent a listing or send a request it does not log. The methods
that make no call leave the platform unchanged: a dry-run `archive_channel`,
and `send_admin_report` with no admin channel.

## Model

| member | source | states |
|---|---|---|
| `Text.Strip` | slack_autoarchive.py:180 | `str.strip(chars)`: the result is the middle of the input, everything cut from either end is in the strip set, and the result neither starts nor ends with a stripped character |
| `Text.StripIdempotent` | slack_autoarchive.py:39 | stripping a stripped keyword changes nothing |
| `Text.EmptyIsContained` | slack_autoarchive.py:181 | Python's `'' in name` holds for every name |
| `Text.Split` | slack_autoarchive.py:42 | `str.split(',')` yields at least one part, no part contains the separator, and joining the parts with the separator gives back the input |
| `Text.SplitJoin` | slack_autoarchive.py:42 | splitting a separator-free join gives back exactly the parts |
| `Text.JoinContainsPart` | slack_autoarchive.py:214-215 | every part of a joined string occurs in it |
| `Text.NatToString` | slack_autoarchive.py:216 | `%d` of a count: at least one decimal digit, a leading `0` only in `"0"` for the count 0, reading back to the count |
| `Slack.Classify` | slack_autoarchive.py:85-98 | one response: 200 with `error == 'not_authed'` is an auth failure (tested before `ok`); 200 with `ok` returns the body; 429 with `Retry-After` is a throttle with that delay; 429 without it is a missing header; anything else is rejected |
| `Slack.Settle` | slack_autoarchive.py:94-98 | the wrapper's recursion on a script of responses: it ends on a non-throttle step or when the script runs out, and every recorded sleep is positive |
| `Slack.ThrottledRetries` | slack_autoarchive.py:77-78 | `k` throttles followed by a final response give `k` retries (`k + 1` requests), the final response's step as the result, and a sleep of exactly each positive `Retry-After`, in order; the first attempt never sleeps |
| `Slack.SilenceOnlyAfterThrottles` | slack_autoarchive.py:94-98 | the call is left waiting exactly when every response in the script is a throttle |
| `Slack.Outcome` | slack-autoarchive.py:72-83 | auth failure exits; an `ok` body is returned; a rejection is `None` in the class version and an exception in the script; a missing `Retry-After` raises in both |
| `Slack.Fetch` | slack_autoarchive.py:107-108 | a caller that subscripts the result gets the body only from an `ok` response; `None` or an exception ends the run |
| `Slack.Ignore` | slack_autoarchive.py:194-196 | a caller that discards the result carries on after a body or `None`, and stops on an exception, an exit or a stall |
| `Slack.Attempts` | slack_autoarchive.py:77-98 | the retry loop consumes exactly the responses `Settle` says, re-sends the identical request once per attempt, and sleeps exactly `Settle`'s delays |
| `Slack.Call` | slack_autoarchive.py:70-101 | the token is written into the caller's payload; the platform's script, wire, sleeps and call log advance as `Settle` says, and the result is the `Outcome` of the final step; the one new logged call is served by the platform (`ServedSince`) |
| `Slack.Stop` | slack_autoarchive.py:103-221 | per endpoint, which results end the run: an exit, an exception or a stall always do, and an exit and a stall are told apart; posts and archive calls stop exactly as `Ignore`; a history call goes on iff it got a body; a listing or an info call goes on iff its body has `channels` or `channel` |
| `Slack.ServedChain` | slack_autoarchive.py:223-248 | the calls served since one state, then those served since a later state, are the calls served since the first state, and the log only grew |
| `Slack.ServedDetermined` | slack_autoarchive.py:60-101 | two logs that send the same requests from the same platform state get the same results and leave the same platform state |
| `Slack.ServedWire` | slack_autoarchive.py:79-82 | the wire only grows during a served stretch, and every request added to it is the request of one of the stretch's logged calls |
| `Slack.ServedAvoids` | slack_autoarchive.py:79-82 | a served stretch with no logged call to an endpoint puts no request to that endpoint on the wire |
| `Config.DryRunFlag` | config.py:18 | dry run iff `DRY_RUN` is absent or exactly `'true'` |
| `Config.Cutoff` | config.py:20 | the cutoff is exactly `days` × 86400 seconds before `now`, and not after `now` iff `days` is not negative |
| `Config.GetChannelReaperSettings` | config.py:9-24 | every setting with its default: `DAYS_INACTIVE` 60, `MIN_MEMBERS` 0, dry run iff `DRY_RUN` is absent or exactly `'true'`, empty admin channel, token and keywords, `SLACK_SKIP_PURPOSE` `%noarchive`, skip subtypes exactly `channel_leave` and `channel_join` |
| `Config.EmptyEnvironmentDefaults` | config.py:11-23 | an empty environment gives a dry run with a 60-day cutoff, no member threshold, empty strings and the `%noarchive` marker |
| `Policy.FirstActivityAt` | slack_autoarchive.py:127-133 | when message `k` is the first one not skipped, the scan yields its timestamp |
| `Policy.FirstActivityAllSkipped` | slack_autoarchive.py:121-133 | when every message is skipped, the scan yields the baseline (the channel's creation) |
| `Policy.ScanHistory` | slack_autoarchive.py:127-133 | the loop with `continue` and `break` computes `FirstActivity` |
| `Policy.Disused` | slack_autoarchive.py:157-160 | disused only when the last activity is at or before the cutoff (inclusive); then disused when there is no user message, or `min_members` is 0, or it exceeds the member count; never disused when a user message is present and `min_members` is non-zero and at most the member count |
| `Policy.ChannelDisused` | slack_autoarchive.py:152-153 | with no `messages` key, a channel is judged by its creation time alone |
| `Policy.DisusedVerdict` | slack_autoarchive.py:143-160 | a verdict exists iff `channels.history` returned a body, and then it is the staleness predicate on that body; otherwise the run stops exactly as `Stop` says for a history call with that result |
| `Policy.OnlySkippedMessages` | slack_autoarchive.py:127-141 | a history of only join/leave messages is judged on the creation time, as a user channel |
| `Policy.FirstCountedMessageDecides` | slack_autoarchive.py:127-160 | when message `k` is the first counted one, the channel is disused iff that message is at or before the cutoff and the member threshold does not protect it |
| `Policy.AnyKeywordMatches` | slack_autoarchive.py:179-183 | the keyword loop (also `is_channel_whitelisted` at slack-autoarchive.py:136-141) is true iff some keyword with its `#`s stripped from both ends is a case-sensitive substring of the name |
| `Policy.EmptyKeywordExemptsAll` | slack_autoarchive.py:179-182 | an empty keyword (or one made only of `#`) exempts every channel |
| `Policy.HashedKeywordExample` | slack_autoarchive.py:180-181 | the keyword `#infra` exempts `infra-alerts` |
| `Policy.WhitelistKeywords` | slack_autoarchive.py:33-43 | the list is the file lines, each whitespace-stripped, in order, then the setting split on `,` without stripping, which rejoins to the setting; nothing is appended when the setting is empty |
| `Policy.KeywordsAsWritten` | slack_autoarchive.py:39-42 | the code as written fails with `TypeError` exactly when the setting is non-empty, and otherwise agrees with the intended list |
| `Policy.KeywordSettingFails` | slack-autoarchive.py:38-40 | `WHITELIST_KEYWORDS=infra` with no file: as written `TypeError`, intended `["infra"]` |
| `Policy.ReportNamesEveryChannel` | slack_autoarchive.py:214-217 | the admin report names every archived channel with its `#` |
| `Policy.ReportLayout` | slack_autoarchive.py:216-219 | the report starts `[DRY RUN] Archiving N channels: ` in a dry run and `Archiving N channels: ` (without the prefix) otherwise, where N reads back as the channel count |
| `Policy.FilterByAppend` | slack_autoarchive.py:243-244 | filtering the inventory distributes over concatenation, so order is kept |
| `Policy.FilterByMembers` | slack_autoarchive.py:243-244 | a channel is archived iff it is in the inventory at a position whose flag is set |
| `Policy.FilterByExtremes` | slack_autoarchive.py:243-244 | no flags set archives nothing; all flags set archives the whole inventory in order |
| `Policy.ProjectChannels` | slack_autoarchive.py:109-116 | the appending loop keeps one entry per listed channel, in listing order, with its id, name, creation time and member count |
| `Runs.ArchivedFilters` | slack_autoarchive.py:243-244 | the channels appended in the loop are the inventory filtered by "not exempt and disused" |
| `ChannelReaper.WhitelistVerdict` | slack_autoarchive.py:163-183 | a verdict exists iff `channels.info` returned a channel, and then the channel is exempt iff the marker occurs in the purpose or the topic, or some stripped keyword occurs in the name; otherwise the run stops exactly as `Stop` says for an info call with that result |
| `ChannelReaper.EmptyMarkerExemptsAll` | slack_autoarchive.py:173-176 | `SLACK_SKIP_PURPOSE=''` exempts every channel whose info answers |
| `ChannelReaper.VisitCalm` | slack_autoarchive.py:239-246 | no call of a completed visit ends the run: `Stop` is `None` for each of its info, history, notice and archive calls |
| `ChannelReaper.RunLogCalm` | slack_autoarchive.py:235-246 | visits that all completed contain no call that ends the run, by `Stop` on each call's endpoint and result |
| `ChannelReaper.VisitCalls` | slack_autoarchive.py:239-246 | one visit archives and posts a notice only to a selected channel outside a dry run, once each |
| `ChannelReaper.RunLogArchives` | slack_autoarchive.py:235-246 | the archive calls of the loop are those for the selected channels, in inventory order, and none in a dry run |
| `ChannelReaper.RunLogNotices` | slack_autoarchive.py:204-206 | the notices of the loop go to the selected channels, in inventory order, and none in a dry run |
| `ChannelReaper.NoticePrecedesArchive` | slack_autoarchive.py:204-208 | every archive call comes right after the notice to the same channel |
| `ChannelReaper.ReportCalls` | slack_autoarchive.py:211-221 | the report is one post to the admin channel when it is set, with the report text, and nothing otherwise |
| `ChannelReaper.ReportArchivesNothing` | slack_autoarchive.py:211-221 | the report adds no `channels.archive` call to the log |
| `ChannelReaper.ReportHalts` | slack_autoarchive.py:235-248 | after passes that all completed, a report whose post stops the run is the call the run ends on |
| `ChannelReaper.DryRunNoArchiveCall` | slack_autoarchive.py:200-201 | a finished dry run logs no `channels.archive` call |
| `ChannelReaper.DryRunArchivesNothing` | slack_autoarchive.py:200-201 | a finished dry run whose calls were served by the platform put no `channels.archive` request on the wire at all |
| `ChannelReaper.FinishedRunCalls` | slack_autoarchive.py:223-248 | a finished run archived exactly the reported channels in inventory order and none in a dry run; it posted the notices in the same order, then the report exactly once iff the admin channel is set, even with no channels or in a dry run |
| `ChannelReaper.VisitedAfter` | slack_autoarchive.py:239-246 | the two checks' calls, followed by the notice and the archive call of a selected channel outside a dry run (nothing otherwise), are exactly the visit's calls |
| `ChannelReaper.ChecksInterrupted` | slack_autoarchive.py:239-242 | a pass that stopped in its checks made the `channels.info` call, or both calls once the first gave its exemption verdict; these calls are an interrupted pass |
| `ChannelReaper.ActsInterrupted` | slack_autoarchive.py:198-209 | a pass that stopped after both verdicts selected its channel, outside a dry run, made the notice, or the notice and then (after a notice that did not stop) the archive call; these calls are an interrupted pass |
| `ChannelReaper.InterruptedArchives` | slack_autoarchive.py:239-246 | an interrupted pass made no archive call, or exactly one, for its own channel, and only after both verdicts selected it outside a dry run |
| `ChannelReaper.ChecksArchiveNothing` | slack_autoarchive.py:239-242 | the first three calls of a visit (the checks and the notice) hold no `channels.archive` call |
| `ChannelReaper.ReportedAfter` | slack_autoarchive.py:235-248 | the loop over every channel with complete passes, then the report, is a finished loop: the channels in order, the archived ones the filtered inventory, and the log exactly the visits' calls then the report's |
| `ChannelReaper.FinishedAfterListing` | slack_autoarchive.py:223-248 | a listing that answered, then a loop and a report that went through, with the banner and the channel lines in the audit log, is a `FinishedRun` |
| `ChannelReaper.StoppedAfterListing` | slack_autoarchive.py:233-248 | a listing that answered, then a loop that stopped partway through a pass or a report that stopped, is a `StoppedRun` |
| `ChannelReaper.StoppedRunArchives` | slack_autoarchive.py:233-248 | a stopped run archived exactly the channels its complete passes selected, in inventory order, and none in a dry run, plus at most the channel of the interrupted pass, only when both checks had selected it outside a dry run |
| `ChannelReaper.ListedArchives` | slack_autoarchive.py:233-246 | after the listing, the archive calls of complete passes and any later calls are those for the selected channels in inventory order (none in a dry run), then the later calls' own |
| `ChannelReaper.Reaper.constructor` | slack_autoarchive.py:24-26 | the settings are read once, and the audit log starts empty |
| `ChannelReaper.Reaper.SlackApiHttp` | slack_autoarchive.py:60-101 | `Call` with the settings' token; `None` for a rejection; the auth help line goes to the audit log before the exit; the call is served by the platform |
| `ChannelReaper.Reaper.GetAllChannels` | slack_autoarchive.py:103-117 | one `channels.list` call, served by the platform; the inventory, in listing order, iff the body has `channels`; otherwise the run stops as `Stop` says for that result |
| `ChannelReaper.Reaper.GetLastMessageTimestamp` | slack_autoarchive.py:119-141 | the class's bot fallback, `c >= x > c`, never holds, so the result is the scan with "is user" false exactly when `messages` is absent |
| `ChannelReaper.Reaper.IsChannelDisused` | slack_autoarchive.py:143-160 | one `channels.history` call for the channel, served by the platform, then `DisusedVerdict` |
| `ChannelReaper.Reaper.IsChannelWhitelisted` | slack_autoarchive.py:163-183 | one `channels.info` call for the channel, served by the platform, then `WhitelistVerdict` |
| `ChannelReaper.Reaper.SendChannelMessage` | slack_autoarchive.py:185-196 | one POST to `chat.postMessage` as `channel_reaper` with `:ghost:`, served by the platform; only a run-ending result stops the caller |
| `ChannelReaper.Reaper.ArchiveChannel` | slack_autoarchive.py:198-209 | dry run: the platform is unchanged (no call, nothing on the wire, no sleep) and one audit line; otherwise the notice, then the archive call, both served, and the line logged twice; a stop ends on the call that stopped it, after the notice alone or after the notice (which did not stop) and the archive call; whatever happens, the audit log first gains the archiving line |
| `ChannelReaper.Reaper.SendAdminReport` | slack_autoarchive.py:211-221 | with an admin channel, one served post of the report text; without one, the platform is unchanged |
| `ChannelReaper.Reaper.CheckChannel` | slack_autoarchive.py:239-242 | both checks are made for every channel (info, then history), each call served; when both answer, the verdicts are `WhitelistVerdict` and `DisusedVerdict` on those answers; otherwise the run ends on the call that stopped it, after the info call alone or after both calls with the exemption verdict reached; either way no post and no archive call is made and the audit log only grows |
| `ChannelReaper.Reaper.ReapChannel` | slack_autoarchive.py:239-246 | one pass: both checks, and a selected channel is archived; the log is exactly the visit's calls, all served, and the audit gains the channel's lines iff it is selected; a pass that stops leaves the calls of an `Interrupted` visit to its channel; in a dry run no post and no archive call is made, even when the pass stops; the audit log only grows |
| `ChannelReaper.Reaper.ReapChannels` | slack_autoarchive.py:233-246 | the loop visits every channel in order, completes both checks for each, and appends exactly the selected ones; a loop that stops has complete visits to the first channels, in order, and then an interrupted pass over the next one (`StoppedIn`); every call is served; in a dry run no post and no archive call is made, whether the loop finishes or stops; the audit log only grows |
| `ChannelReaper.Reaper.ReapAndReport` | slack_autoarchive.py:233-248 | the loop, then the report on the archived channels, which are the filtered inventory; either both went through or the loop stopped in a pass (`LoopEnded`); every call is served, and a stop ends the log; in a dry run no archive call is made, whether the run finishes or stops; the audit log only grows |
| `ChannelReaper.Reaper.Sweep` | slack_autoarchive.py:235-248 | listing, loop and report together satisfy `FinishedRun` with every call served by the platform, or the run ends on the call that stopped it and satisfies `StoppedRun`; in a dry run no archive call is made either way; the audit log only grows |
| `ChannelReaper.Reaper.Run` | slack_autoarchive.py:223-248 | `main`: the dry-run banner, the keyword list from the file lines and the setting, then `Sweep`, with every call served: `FinishedRun` or `StoppedRun`; a dry run, finished or stopped, logs no archive call and puts no `channels.archive` request on the wire |
| `ArchiveScript.LoadGlobals` | slack-autoarchive.py:16-26 | the module globals: unset strings stay `None`, `DAYS_INACTIVE` 60, `MIN_MEMBERS` 0, a dry run iff `DRY_RUN` is unset or exactly `'true'`, the cutoff fixed once at import, the same two skip subtypes |
| `ArchiveScript.GlobalsMatchSettings` | slack-autoarchive.py:16-26 | the globals agree with `get_channel_reaper_settings` on every shared setting, once `None` is read as `''` |
| `ArchiveScript.TokenValue` | slack-autoarchive.py:58 | an unset `SLACK_TOKEN` is sent as `None`; a set one is sent unchanged |
| `ArchiveScript.ReportChannel` | slack-autoarchive.py:164 | the report is sent only to a set, non-empty `ADMIN_CHANNEL` |
| `ArchiveScript.ScriptVisitCalm` | slack-autoarchive.py:183-186 | no call of a completed pass ends the run: `Stop` is `None` for its history call, when made, and for its notice and archive calls |
| `ArchiveScript.ScriptRunLogCalm` | slack-autoarchive.py:179-186 | passes that all completed contain no call that ends the run, by `Stop` on each call's endpoint and result |
| `ArchiveScript.ScriptVisitCalls` | slack-autoarchive.py:183-186 | one pass fetches the history only when no keyword exempts the channel, and posts and archives only a selected channel outside a dry run |
| `ArchiveScript.ScriptRunHistories` | slack-autoarchive.py:183-184 | the history calls are for exactly the unexempted channels, in inventory order (short-circuit `and`) |
| `ArchiveScript.CheckedChannels` | slack-autoarchive.py:183-185 | a channel's history is fetched iff it is listed and no keyword exempts it, and every archived channel was checked |
| `ArchiveScript.ScriptRunArchives` | slack-autoarchive.py:179-186 | the archive calls are those for the selected channels, in order, and none in a dry run |
| `ArchiveScript.ScriptRunNotices` | slack-autoarchive.py:155-157 | the notices go to the selected channels, in order, and none in a dry run |
| `ArchiveScript.ScriptNoticePrecedesArchive` | slack-autoarchive.py:155-159 | every archive call comes right after the notice to the same channel |
| `ArchiveScript.ScriptReportCalls` | slack-autoarchive.py:163-169 | the report is one post to `ADMIN_CHANNEL` when it is set and non-empty, and nothing otherwise |
| `ArchiveScript.ScriptReportArchivesNothing` | slack-autoarchive.py:163-169 | the report adds no `channels.archive` call to the log |
| `ArchiveScript.ScriptReportHalts` | slack-autoarchive.py:179-188 | after passes that all completed, a report whose post stops the run is the call the run ends on |
| `ArchiveScript.ScriptDryRunNoArchiveCall` | slack-autoarchive.py:152-153 | a finished dry run of the script logs no `channels.archive` call |
| `ArchiveScript.ScriptDryRunArchivesNothing` | slack-autoarchive.py:152-153 | a finished dry run of the script whose calls were served by the platform put no `channels.archive` request on the wire at all |
| `ArchiveScript.ScriptFinishedCalls` | slack-autoarchive.py:172-188 | a finished script fetched the histories of exactly the unexempted channels, archived exactly the reported channels in order and none in a dry run, posted the notices in the same order, then the report iff `ADMIN_CHANNEL` is set |
| `ArchiveScript.ScriptVisitedAfter` | slack-autoarchive.py:183-186 | the check's call (none for an exempt channel), followed by the notice and the archive call of a selected channel outside a dry run (nothing otherwise), are exactly the pass's calls |
| `ArchiveScript.ScriptChecksInterrupted` | slack-autoarchive.py:183-184 | a pass that stopped in its check made the one `channels.history` call for a channel no keyword exempts; this call is an interrupted pass |
| `ArchiveScript.ScriptActsInterrupted` | slack-autoarchive.py:150-160 | a pass that stopped after its check selected the channel, outside a dry run, made the notice, or the notice and then (after a notice that did not stop) the archive call; these calls are an interrupted pass |
| `ArchiveScript.ScriptInterruptedArchives` | slack-autoarchive.py:183-186 | an interrupted pass made no archive call, or exactly one, for its own channel, and only after its check selected it outside a dry run |
| `ArchiveScript.ScriptChecksArchiveNothing` | slack-autoarchive.py:183-186 | the first two calls of a pass over an unexempted channel (the history call and the notice) hold no `channels.archive` call |
| `ArchiveScript.ScriptReportedAfter` | slack-autoarchive.py:179-188 | the loop over every channel with complete passes, then the report, is a finished loop: the channels in order, the archived ones the filtered inventory, and the log exactly the passes' calls then the report's |
| `ArchiveScript.ScriptSweptAfterListing` | slack-autoarchive.py:177-188 | a listing that answered, then a loop and a report that went through, with one audit line per archived channel outside a dry run, is `ScriptSwept` |
| `ArchiveScript.ScriptStoppedAfterListing` | slack-autoarchive.py:177-188 | a listing that answered, then a loop that stopped partway through a pass or a report that stopped, is a `ScriptStoppedRun` |
| `ArchiveScript.ScriptStoppedRunArchives` | slack-autoarchive.py:177-188 | a stopped run of the script archived exactly the channels its complete passes selected, in inventory order, and none in a dry run, plus at most the channel of the interrupted pass, only when its check had selected it outside a dry run |
| `ArchiveScript.ScriptListedArchives` | slack-autoarchive.py:179-186 | after the listing, the archive calls of complete passes and any later calls are those for the selected channels in inventory order (none in a dry run), then the later calls' own |
| `ArchiveScript.Script.constructor` | slack-autoarchive.py:16-28 | importing the script fixes the globals once; `stdout` and `auditLog` hold only the lines this run adds |
| `ArchiveScript.Script.SlackApiHttp` | slack-autoarchive.py:55-83 | `Call` with `SLACK_TOKEN` in strict mode, served by the platform: never `None`, because a rejection raises; the help line is printed before the exit |
| `ArchiveScript.Script.GetAllChannels` | slack-autoarchive.py:87-94 | one `channels.list` call, served by the platform; the inventory iff the body has `channels`; otherwise the run stops as `Stop` says for that result |
| `ArchiveScript.Script.GetLastMessageTimestamp` | slack-autoarchive.py:97-117 | the epoch branch is dead (a `datetime` is always true), so the bot time keeps the baseline and the fallback never fires: "is user" is false exactly when `messages` is absent |
| `ArchiveScript.Script.IsChannelDisused` | slack-autoarchive.py:120-132 | one `channels.history` call, served by the platform, judged against the import-time cutoff with `DisusedVerdict`; no post and no archive call |
| `ArchiveScript.Script.SendChannelMessage` | slack-autoarchive.py:144-147 | one POST to `chat.postMessage` as `channel_reaper` with `:ghost:`, served by the platform; only a run-ending result stops the caller |
| `ArchiveScript.Script.ArchiveChannel` | slack-autoarchive.py:150-160 | always prints the line first, even when a call then stops the run; in a dry run the platform is unchanged; otherwise it posts the notice, archives, both served, then logs the line to the audit log; a stop ends on the call that stopped it, after the notice alone or after the notice (which did not stop) and the archive call |
| `ArchiveScript.Script.SendAdminReport` | slack-autoarchive.py:163-169 | the served report post iff `ADMIN_CHANNEL` is set and non-empty, with the `[DRY RUN] ` prefix in a dry run; otherwise the platform is unchanged |
| `ArchiveScript.Script.CheckChannel` | slack-autoarchive.py:183-184 | the keyword test first; a `channels.history` call, served, only for a channel no keyword exempts, judged by `DisusedVerdict`; a stop ends on that call, which is then the only call; no post and no archive call is made |
| `ArchiveScript.Script.VisitChannel` | slack-autoarchive.py:183-186 | the keyword test first, and no history call for an exempt channel; a selected channel is archived; the log is exactly the pass's calls, all served; a pass that stops leaves the calls of a `ScriptInterrupted` pass over its channel; in a dry run no post and no archive call is made, even when the pass stops; output and audit log only grow |
| `ArchiveScript.Script.ArchiveChannels` | slack-autoarchive.py:177-186 | the loop passes every channel in order and appends exactly the selected ones; one printed line per archived channel; a loop that stops has complete passes over the first channels, in order, and then an interrupted pass over the next one (`ScriptStoppedIn`); every call is served; in a dry run no post and no archive call is made, whether the loop finishes or stops; output and audit log only grow |
| `ArchiveScript.Script.ArchiveAndReport` | slack-autoarchive.py:177-188 | the loop, then the report on the archived channels, which are the filtered inventory; either both went through or the loop stopped in a pass (`ScriptLoopEnded`); every call is served, and a stop ends the log; in a dry run no archive call is made either way; output and audit log only grow |
| `ArchiveScript.Script.Sweep` | slack-autoarchive.py:179-188 | listing, loop and report together satisfy `ScriptSwept` with every call served by the platform, or the run ends on the call that stopped it and satisfies `ScriptStoppedRun`; in a dry run no archive call is made either way; output and audit log only grow |
| `ArchiveScript.Script.Run` | slack-autoarchive.py:172-188 | the banner printed in a dry run, the keyword list, then the sweep: together `ScriptFinished` or `ScriptStoppedRun`, with every call served; a dry run, finished or stopped, logs no archive call and puts no `channels.archive` request on the wire |

## Left out

- HTTP, URL building and JSON decoding. A response is a status code, the
  decoded fields the code reads, and an optional `Retry-After`. The `requests`
  exceptions that the `try` rewraps are not modelled. A body without `ok` (a
  `KeyError`) is treated as `ok` false.
- Floating-point time, `datetime.fromtimestamp` and the local time zone. Times
  are whole seconds, and the cutoff is the clock value, passed in, minus
  `DAYS_INACTIVE` × 86400.
- `int()` parsing of the environment: the integer settings arrive parsed.
- Reading `whitelist.txt` and `templates.json`: the lines and the notice text
  are parameters.
- Template interpolation (`% DAYS_INACTIVE`, `.format(...)`): the notice text
  is opaque. `get_channel_alerts` is not part of this model.
- The logger's timestamps and levels, the console copy of the log, and the
  progress dots on standard output. The model records the messages only. The
  logger setup in `utils.py` is not part of this model.
- `time.sleep` and `sys.exit`: each sleep is a recorded (ghost) delay, and the
  exit is a result value that ends the run.
- The platform answers from a finite script of responses. When the script runs
  out, the call ends as `Stalled`, which stands for the original waiting or
  retrying forever.
- There is no one-second spacing between calls, no multiplier on
  `Retry-After`, no cap on retries and no pagination of `channels.list`. The
  code has none of these, even though its comments quote Slack's
  rate-limit guidance. The `retry` argument is ignored, and the model retries
  for as long as the script holds throttles.
- `ArchiveScript.Script.constructor`: `auditLog` starts empty and holds only
  this run's lines. The script's `logging.basicConfig` (slack-autoarchive.py:28)
  gives no `filemode`, so it appends to an existing audit file; the lines that
  earlier runs left there are not modelled. The class version opens its log
  with `filemode='w'` (utils.py:13), so its empty start is exact.
- `Slack.Settle` and `Slack.Attempts` do not model Python's recursion limit.
  The wrapper retries by calling itself, so roughly 1000 consecutive 429
  responses raise `RecursionError`. The `except Exception` rewraps it, and the
  run ends with an exception. In the model the same run keeps retrying.
- In the script, `get_whitelist_keywords` returns a one-shot `map` iterator
  when `WHITELIST_KEYWORDS` is unset. The model treats the keyword list as a
  list that every channel sees in full. The iterator exhaustion after the first
  channel is not reproduced.
- `Policy.KeywordsAsWritten` models the `TypeError` from adding a `map` to a
  list. It does not model the exhaustion just described.
- `ChannelReaper.Reaper.Run` builds the keyword list with the corrected
  `Policy.WhitelistKeywords`. As written, `main` raises `TypeError` whenever
  `WHITELIST_KEYWORDS` is set; see the first row under "Findings" and
  `Policy.KeywordsAsWritten`.
- `ArchiveScript.Script.Run` builds the keyword list with the corrected
  `Policy.WhitelistKeywords`. As written, the script raises `TypeError`
  whenever `WHITELIST_KEYWORDS` is set; see the second row under "Findings"
  and `Policy.KeywordSettingFails`.
- `ChannelReaper.Reaper.GetLastMessageTimestamp` and
  `ArchiveScript.Script.GetLastMessageTimestamp` follow the code: the bot
  fallback never fires. A reading of the comments, where a history of only
  bot messages is reported as "not a user message", is not what the code does,
  and the model follows the code.

## Findings

| source | as written | input that shows it | evidently intended | confidence | as-written member | corrected member |
|---|---|---|---|---|---|---|
| slack_autoarchive.py:39-42 | `keywords = map(...)` then `keywords + whitelist_keywords.split(',')` adds a `map` object to a list, which raises `TypeError` under Python 3 | `WHITELIST_KEYWORDS=infra` and no `whitelist.txt` | the stripped file lines followed by `['infra']` | high, not executed | `Policy.KeywordsAsWritten` | `Policy.WhitelistKeywords` |
| slack-autoarchive.py:38-40 | the same `map` + list addition under the `python3.6` shebang | `WHITELIST_KEYWORDS=infra` and no `whitelist.txt` | `['infra']` | high, not executed | `Policy.KeywordSettingFails` | `Policy.WhitelistKeywords` |
