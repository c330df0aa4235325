/**
 * `get_channel_reaper_settings`: the reaper's settings, read once from the
 * environment with their defaults, and the staleness cutoff fixed from the
 * clock at that moment.
 */
module Config {
  import opened Wrappers

  /**
   * The environment variables the reaper reads, each `None` when unset.
   * `DAYS_INACTIVE` and `MIN_MEMBERS` are given as the integers `int()` made of them.
   */
  datatype Environment = Environment(
    adminChannel: Option<string>,       // ADMIN_CHANNEL
    daysInactive: Option<int>,          // DAYS_INACTIVE
    minMembers: Option<int>,            // MIN_MEMBERS
    dryRun: Option<string>,             // DRY_RUN
    slackToken: Option<string>,         // SLACK_TOKEN
    whitelistKeywords: Option<string>,  // WHITELIST_KEYWORDS
    skipPurpose: Option<string>)        // SLACK_SKIP_PURPOSE

  /** The settings dictionary; instants are whole seconds since the epoch. */
  datatype Settings = Settings(
    adminChannel: string,
    daysInactive: int,
    minMembers: int,
    dryRun: bool,
    slackToken: string,
    tooOld: int,
    whitelistKeywords: string,
    skipSubtypes: set<string>,
    skipChannelStr: string)

  const SecondsPerDay := 86400
  const DefaultDaysInactive := 60
  const DefaultSkipChannelStr := "%noarchive"

  /** Message subtypes that never count as activity: members joining and leaving. */
  const SkipSubtypes: set<string> := {"channel_leave", "channel_join"}

  /** `os.environ.get('DRY_RUN', 'true') == 'true'`: a dry run unless the variable is set to anything but exactly `true`. */
  function DryRunFlag(value: Option<string>): (dry: bool)
    ensures dry <==> value.None? || value == Some("true")
  {
    value.GetOr("true") == "true"
  }

  /** `now - timedelta(days=days)`, in seconds. */
  function Cutoff(now: int, days: int): (t: int)
    ensures t <= now <==> days >= 0
    ensures now - t == days * SecondsPerDay
  {
    now - days * SecondsPerDay
  }

  /** The settings for a run started at `now` in environment `env`. */
  function GetChannelReaperSettings(env: Environment, now: int): (s: Settings)
    ensures s.dryRun <==> env.dryRun.None? || env.dryRun == Some("true")
    ensures s.daysInactive == (if env.daysInactive.Some? then env.daysInactive.value else DefaultDaysInactive)
    ensures now - s.tooOld == s.daysInactive * SecondsPerDay
    ensures s.minMembers == (if env.minMembers.Some? then env.minMembers.value else 0)
    ensures s.adminChannel == (if env.adminChannel.Some? then env.adminChannel.value else "")
    ensures s.slackToken == (if env.slackToken.Some? then env.slackToken.value else "")
    ensures s.whitelistKeywords == (if env.whitelistKeywords.Some? then env.whitelistKeywords.value else "")
    ensures s.skipSubtypes == {"channel_leave", "channel_join"}
    ensures s.skipChannelStr == (if env.skipPurpose.Some? then env.skipPurpose.value else "%noarchive")
  {
    var days := env.daysInactive.GetOr(DefaultDaysInactive);
    Settings(
      adminChannel := env.adminChannel.GetOr(""),
      daysInactive := days,
      minMembers := env.minMembers.GetOr(0),
      dryRun := DryRunFlag(env.dryRun),
      slackToken := env.slackToken.GetOr(""),
      tooOld := Cutoff(now, days),
      whitelistKeywords := env.whitelistKeywords.GetOr(""),
      skipSubtypes := SkipSubtypes,
      skipChannelStr := env.skipPurpose.GetOr(DefaultSkipChannelStr))
  }

  /** The empty environment: a dry run, a 60-day window, no member threshold, the `%noarchive` marker. */
  lemma {:induction false} EmptyEnvironmentDefaults(now: int)
    ensures var s := GetChannelReaperSettings(Environment(None, None, None, None, None, None, None), now);
      && s.dryRun
      && s.tooOld == now - 60 * 86400
      && s.minMembers == 0
      && s.adminChannel == "" && s.slackToken == "" && s.whitelistKeywords == ""
      && s.skipChannelStr == "%noarchive"
  {
  }
}
