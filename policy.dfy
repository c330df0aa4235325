/**
 * The archive decision shared by both versions of the reaper: what counts as
 * the last activity in a history page, when a channel is disused, when a
 * keyword exempts it, how the keyword list is assembled, what the admin
 * report says, and the order-preserving filter that picks the channels to
 * archive out of the inventory.
 */
module Policy {
  import opened Wrappers
  import opened Text
  import opened Slack

  // ---------------------------------------------------------------- activity

  /** `'subtype' in message and message['subtype'] in skip_subtypes`. */
  predicate Skipped(m: Message, skip: set<string>) {
    m.subtype.Some? && m.subtype.value in skip
  }

  /** The timestamp of the newest message that is not skipped, or `baseline` when every message is. */
  function FirstActivity(messages: seq<Message>, skip: set<string>, baseline: int): int
    decreases |messages|
  {
    if messages == [] then baseline
    else if Skipped(messages[0], skip) then FirstActivity(messages[1..], skip, baseline)
    else messages[0].ts
  }

  /** When message `k` is the first that is not skipped, its timestamp is the activity. */
  lemma {:induction false} FirstActivityAt(messages: seq<Message>, skip: set<string>, baseline: int, k: nat)
    requires k < |messages| && !Skipped(messages[k], skip)
    requires forall j :: 0 <= j < k ==> Skipped(messages[j], skip)
    ensures FirstActivity(messages, skip, baseline) == messages[k].ts
    decreases k
  {
    if k > 0 {
      FirstActivityAt(messages[1..], skip, baseline, k - 1);
    }
  }

  /** When every message is skipped, the activity is the baseline (the channel's creation). */
  lemma {:induction false} FirstActivityAllSkipped(messages: seq<Message>, skip: set<string>, baseline: int)
    requires forall j :: 0 <= j < |messages| ==> Skipped(messages[j], skip)
    ensures FirstActivity(messages, skip, baseline) == baseline
    decreases |messages|
  {
    if messages != [] {
      FirstActivityAllSkipped(messages[1..], skip, baseline);
    }
  }

  /**
   * The scan over a history page, newest first: skip membership noise, take
   * the first other message's timestamp and stop; keep `baseline` otherwise.
   */
  method ScanHistory(messages: seq<Message>, skip: set<string>, baseline: int) returns (ts: int)
    ensures ts == FirstActivity(messages, skip, baseline)
  {
    ts := baseline;
    var i := 0;
    while i < |messages|
      invariant 0 <= i <= |messages|
      invariant FirstActivity(messages[i..], skip, baseline) == FirstActivity(messages, skip, baseline)
      invariant ts == baseline
    {
      if Skipped(messages[i], skip) {
        assert messages[i..][1..] == messages[i + 1..];
        i := i + 1;
        continue;
      }
      ts := messages[i].ts;
      break;
    }
  }

  /**
   * What the classifier actually returns, for a history body whose `messages`
   * key is `messages`: the creation instant and `False` without the key,
   * otherwise the first counted message's time (or creation) and `True`.
   */
  function Activity(messages: Option<seq<Message>>, baseline: int, skip: set<string>): (int, bool) {
    if messages.None? then (baseline, false) else (FirstActivity(messages.value, skip, baseline), true)
  }

  /** A Python `datetime` is always true in a boolean context (it defines neither `__bool__` nor `__len__`). */
  predicate DatetimeTruthy(t: int) {
    true
  }

  /** `datetime.utcfromtimestamp(0)`, in seconds. */
  const Epoch := 0

  // ---------------------------------------------------------------- staleness

  /**
   * `is_channel_disused`'s verdict: the last activity is at or before the
   * cutoff, and either it was not a user message or the member threshold does
   * not protect the channel (`min_members == 0 or min_members > num_members`).
   */
  function Disused(last: int, cutoff: int, isUser: bool, minMembers: int, numMembers: int): (r: bool)
    ensures r ==> last <= cutoff
    ensures last <= cutoff && !isUser ==> r
    ensures last <= cutoff && minMembers == 0 ==> r
    ensures last <= cutoff && minMembers > numMembers ==> r
    ensures isUser && minMembers != 0 && minMembers <= numMembers ==> !r
  {
    var hasMinUsers := minMembers == 0 || minMembers > numMembers;
    last <= cutoff && (!isUser || hasMinUsers)
  }

  /** The verdict for a channel whose history body has `messages` as its `messages` key. */
  function ChannelDisused(c: Channel, messages: Option<seq<Message>>, cutoff: int, minMembers: int, skip: set<string>): (r: bool)
    ensures messages.None? ==> (r <==> c.created <= cutoff)
  {
    var (last, isUser) := Activity(messages, c.created, skip);
    Disused(last, cutoff, isUser, minMembers, c.numMembers)
  }

  /**
   * `is_channel_disused` once `channels.history` answered with `result`: a body
   * is judged by its `messages`; anything else stops the run (`'messages' not
   * in None` raises `TypeError`).
   */
  function DisusedVerdict(result: ApiResult, c: Channel, cutoff: int, minMembers: int, skip: set<string>): (r: Result<bool, Halt>)
    ensures r.Success? <==> result.Json?
    ensures r.Success? ==> r.value == ChannelDisused(c, result.body.messages, cutoff, minMembers, skip)
    ensures r.Failure? ==> Stop(HistoryEndpoint, result) == Some(r.error)
  {
    match Fetch(result)
    case Failure(h) => Failure(h)
    case Success(body) => Success(ChannelDisused(c, body.messages, cutoff, minMembers, skip))
  }

  /**
   * A page whose every message is membership noise leaves the creation time as
   * the activity, still flagged as a user message: such a channel is disused
   * exactly when it was created by the cutoff and the member threshold does not
   * protect it.
   */
  lemma OnlySkippedMessages(c: Channel, messages: seq<Message>, cutoff: int, minMembers: int, skip: set<string>)
    requires forall j :: 0 <= j < |messages| ==> Skipped(messages[j], skip)
    ensures ChannelDisused(c, Some(messages), cutoff, minMembers, skip)
        <==> c.created <= cutoff && (minMembers == 0 || minMembers > c.numMembers)
  {
    FirstActivityAllSkipped(messages, skip, c.created);
  }

  /**
   * When message `k` is the first counted one, it alone decides: the channel is
   * disused exactly when that message is at or before the cutoff (inclusive) and
   * the member threshold does not protect the channel.
   */
  lemma FirstCountedMessageDecides(c: Channel, messages: seq<Message>, k: nat, cutoff: int, minMembers: int, skip: set<string>)
    requires k < |messages| && !Skipped(messages[k], skip)
    requires forall j :: 0 <= j < k ==> Skipped(messages[j], skip)
    ensures ChannelDisused(c, Some(messages), cutoff, minMembers, skip)
        <==> messages[k].ts <= cutoff && (minMembers == 0 || minMembers > c.numMembers)
  {
    FirstActivityAt(messages, skip, c.created, k);
  }

  // ---------------------------------------------------------------- exemption

  /** `white_listed_channel.strip('#')`. */
  function StripHashes(keyword: string): string {
    Strip(keyword, {'#'})
  }

  /**
   * The keyword loop of `is_channel_whitelisted`: true as soon as some keyword,
   * with `#` stripped from both ends, is a substring of the channel name.
   */
  function AnyKeywordMatches(keywords: seq<string>, name: string): (r: bool)
    ensures r <==> exists i :: 0 <= i < |keywords| && Contains(name, StripHashes(keywords[i]))
    decreases |keywords|
  {
    if keywords == [] then false
    else if Contains(name, StripHashes(keywords[0])) then true
    else
      var rest := AnyKeywordMatches(keywords[1..], name);
      assert forall i :: 1 <= i < |keywords| ==> keywords[i] == keywords[1..][i - 1];
      rest
  }

  /** A keyword that is empty once its `#`s are stripped (`""`, `"#"`, ...) exempts every channel. */
  lemma EmptyKeywordExemptsAll(keywords: seq<string>, i: nat, name: string)
    requires i < |keywords| && StripHashes(keywords[i]) == ""
    ensures AnyKeywordMatches(keywords, name)
  {
    EmptyIsContained(name);
  }

  /** `#infra` exempts `infra-alerts`: the `#`s are stripped before matching. */
  lemma HashedKeywordExample()
    ensures AnyKeywordMatches(["#infra"], "infra-alerts")
  {
    var hashes := {'#'};
    assert "#infra"[0] in hashes && "#infra"[1..] == "infra";
    assert LeadingRun("infra", hashes) == 0;
    assert LeadingRun("#infra", hashes) == 1;
    assert "#infra"[1..] == "infra";
    assert TrailingRun("infra", hashes) == 0;
    assert StripHashes("#infra") == "infra";
    assert "infra" <= "infra-alerts"[0..];
    assert Contains("infra-alerts", StripHashes(["#infra"][0]));
  }

  /**
   * `get_whitelist_keywords`: the lines of `whitelist.txt`, each stripped of
   * surrounding whitespace, in order, followed, when the setting is non-empty,
   * by the setting split on `,` with nothing stripped.
   */
  function WhitelistKeywords(lines: seq<string>, setting: string): (r: seq<string>)
    ensures |r| == |lines| + (if setting == "" then 0 else |Split(setting, ',')|)
    ensures forall i :: 0 <= i < |lines| ==> r[i] == StripSpace(lines[i])
    ensures setting != "" ==> Join(r[|lines|..], ",") == setting
    ensures forall i :: |lines| <= i < |r| ==> ',' !in r[i]
  {
    var stripped := seq(|lines|, i requires 0 <= i < |lines| => StripSpace(lines[i]));
    var extra := if setting == "" then [] else Split(setting, ',');
    assert (stripped + extra)[|lines|..] == extra;
    stripped + extra
  }

  /** The error Python 3 raises when a `map` object and a list are added. */
  datatype PyError = TypeError

  /**
   * `get_whitelist_keywords` as written, under Python 3: `map` yields an
   * iterator, and adding the split setting to it raises `TypeError`, so the
   * keyword list exists only when the setting is empty.
   */
  function KeywordsAsWritten(lines: seq<string>, setting: string): (r: Result<seq<string>, PyError>)
    ensures r.Failure? <==> setting != ""
    ensures r.Success? ==> r.value == WhitelistKeywords(lines, setting)
  {
    var stripped := seq(|lines|, i requires 0 <= i < |lines| => StripSpace(lines[i]));
    if setting != "" then Failure(TypeError) else Success(stripped)
  }

  /** `WHITELIST_KEYWORDS=infra` with no whitelist file: the code as written fails where `["infra"]` was meant. */
  lemma KeywordSettingFails()
    ensures KeywordsAsWritten([], "infra") == Failure(TypeError)
    ensures WhitelistKeywords([], "infra") == ["infra"]
  {
    assert ',' !in "infra";
    assert Split("infra", ',') == ["infra"];
  }

  // ---------------------------------------------------------------- report

  const DryRunPrefix := "[DRY RUN] "

  /** `'#' + channel['name']` for each channel, in order. */
  function ChannelTags(channels: seq<Channel>): (tags: seq<string>)
    ensures |tags| == |channels|
    ensures forall i :: 0 <= i < |channels| ==> tags[i] == "#" + channels[i].name
  {
    seq(|channels|, i requires 0 <= i < |channels| => "#" + channels[i].name)
  }

  /** `'Archiving %d channels: ' % count`. */
  function ReportHeader(count: nat): string {
    "Archiving " + NatToString(count) + " channels: "
  }

  /** The admin report: `Archiving N channels: #a, #b`, prefixed with `[DRY RUN] ` in a dry run. */
  function ReportText(channels: seq<Channel>, dryRun: bool): string {
    (if dryRun then DryRunPrefix else "") + ReportHeader(|channels|) + Join(ChannelTags(channels), ", ")
  }

  /** Every archived channel is named, with its `#`, in the report. */
  lemma ReportNamesEveryChannel(channels: seq<Channel>, dryRun: bool, i: nat)
    requires i < |channels|
    ensures Contains(ReportText(channels, dryRun), "#" + channels[i].name)
  {
    var head := (if dryRun then DryRunPrefix else "") + ReportHeader(|channels|);
    JoinContainsPart(ChannelTags(channels), ", ", i);
    ContainsWithin(head, Join(ChannelTags(channels), ", "), "", "#" + channels[i].name);
    assert head + Join(ChannelTags(channels), ", ") + "" == ReportText(channels, dryRun);
  }

  /** The report header opens with the `A` of `Archiving`. */
  lemma HeaderOpens(count: nat)
    ensures |ReportHeader(count)| > 0 && ReportHeader(count)[0] == 'A'
  {
  }

  /** A text opening with `A` does not open with `[DRY RUN] `, and opens with its own first part. */
  lemma OpensUndecorated(head: string, tail: string)
    requires |head| > 0 && head[0] == 'A'
    ensures head <= head + tail && !(DryRunPrefix <= head + tail)
  {
  }

  /**
   * The report opens with `[DRY RUN] ` exactly in a dry run, then with the
   * count of archived channels, whose digits read back as that count.
   */
  lemma ReportLayout(channels: seq<Channel>, dryRun: bool)
    ensures var r := ReportText(channels, dryRun);
      && (dryRun ==> DryRunPrefix + ReportHeader(|channels|) <= r)
      && (!dryRun ==> ReportHeader(|channels|) <= r && !(DryRunPrefix <= r))
      && DigitsValue(NatToString(|channels|)) == |channels|
  {
    var header := ReportHeader(|channels|);
    var names := Join(ChannelTags(channels), ", ");
    if dryRun {
      assert ReportText(channels, dryRun) == (DryRunPrefix + header) + names;
    } else {
      assert ReportText(channels, dryRun) == "" + header + names;
      assert "" + header == header;
      HeaderOpens(|channels|);
      OpensUndecorated(header, names);
    }
  }

  // ---------------------------------------------------------------- selection

  /** The elements of `xs` whose flag is set, in their original order. */
  function FilterBy<T>(xs: seq<T>, keep: seq<bool>): (r: seq<T>)
    requires |xs| == |keep|
    ensures |r| <= |xs|
    decreases |xs|
  {
    if xs == [] then []
    else FilterBy(xs[..|xs| - 1], keep[..|keep| - 1]) + (if keep[|keep| - 1] then [xs[|xs| - 1]] else [])
  }

  /** Filtering a concatenation filters each part and keeps them in order. */
  lemma {:induction false} FilterByAppend<T>(xs: seq<T>, keep: seq<bool>, ys: seq<T>, flags: seq<bool>)
    requires |xs| == |keep| && |ys| == |flags|
    ensures FilterBy(xs + ys, keep + flags) == FilterBy(xs, keep) + FilterBy(ys, flags)
    decreases |ys|
  {
    if ys != [] {
      var n := |ys| - 1;
      assert (xs + ys)[..|xs| + n] == xs + ys[..n];
      assert (keep + flags)[..|keep| + n] == keep + flags[..n];
      assert (xs + ys)[|xs| + n] == ys[n] && (keep + flags)[|keep| + n] == flags[n];
      var tail := if flags[n] then [ys[n]] else [];
      assert FilterBy(xs + ys, keep + flags) == FilterBy(xs + ys[..n], keep + flags[..n]) + tail;
      assert FilterBy(ys, flags) == FilterBy(ys[..n], flags[..n]) + tail;
      FilterByAppend(xs, keep, ys[..n], flags[..n]);
      assert FilterBy(xs, keep) + FilterBy(ys[..n], flags[..n]) + tail
        == FilterBy(xs, keep) + (FilterBy(ys[..n], flags[..n]) + tail);
    } else {
      assert xs + ys == xs && keep + flags == keep;
      assert FilterBy(ys, flags) == [];
    }
  }

  /** An element is selected exactly when it sits at a position whose flag is set. */
  lemma {:induction false} FilterByMembers<T>(xs: seq<T>, keep: seq<bool>, x: T)
    requires |xs| == |keep|
    ensures x in FilterBy(xs, keep) <==> exists i :: 0 <= i < |xs| && keep[i] && xs[i] == x
    decreases |xs|
  {
    if xs != [] {
      var n := |xs| - 1;
      var prefix := FilterBy(xs[..n], keep[..n]);
      var tail := if keep[n] then [xs[n]] else [];
      assert FilterBy(xs, keep) == prefix + tail;
      assert x in prefix + tail <==> x in prefix || x in tail;
      FilterByMembers(xs[..n], keep[..n], x);
      if x in prefix {
        var i :| 0 <= i < n && keep[..n][i] && xs[..n][i] == x;
        assert keep[i] && xs[i] == x;
      }
      if exists i :: 0 <= i < |xs| && keep[i] && xs[i] == x {
        var i :| 0 <= i < |xs| && keep[i] && xs[i] == x;
        if i < n {
          assert keep[..n][i] && xs[..n][i] == x;
        }
      }
    }
  }

  /** With no flag set nothing is selected; with every flag set, everything is, in order. */
  lemma {:induction false} FilterByExtremes<T>(xs: seq<T>, keep: seq<bool>)
    requires |xs| == |keep|
    ensures (forall i :: 0 <= i < |keep| ==> !keep[i]) ==> FilterBy(xs, keep) == []
    ensures (forall i :: 0 <= i < |keep| ==> keep[i]) ==> FilterBy(xs, keep) == xs
    decreases |xs|
  {
    if xs != [] {
      var n := |xs| - 1;
      FilterByExtremes(xs[..n], keep[..n]);
      assert xs[..n] + [xs[n]] == xs;
    }
  }

  // ---------------------------------------------------------------- inventory

  /** The dictionary `get_all_channels` builds from a listed channel. */
  function Project(c: ListedChannel): Channel {
    Channel(c.id, c.name, c.created, c.numMembers)
  }

  /** The inventory `get_all_channels` builds: each listed channel projected, in listing order. */
  function Inventory(listed: seq<ListedChannel>): (all: seq<Channel>)
    ensures |all| == |listed| && forall i :: 0 <= i < |listed| ==> all[i] == Project(listed[i])
  {
    seq(|listed|, i requires 0 <= i < |listed| => Project(listed[i]))
  }

  /** The loop of `get_all_channels`: one entry per listed channel, in listing order, with its four fields. */
  method ProjectChannels(listed: seq<ListedChannel>) returns (all: seq<Channel>)
    ensures |all| == |listed|
    ensures forall i :: 0 <= i < |listed| ==>
      all[i].id == listed[i].id && all[i].name == listed[i].name
      && all[i].created == listed[i].created && all[i].numMembers == listed[i].numMembers
  {
    all := [];
    for i := 0 to |listed|
      invariant |all| == i
      invariant forall j :: 0 <= j < i ==> all[j] == Project(listed[j])
    {
      all := all + [Channel(listed[i].id, listed[i].name, listed[i].created, listed[i].numMembers)];
    }
  }
}
