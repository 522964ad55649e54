/** Reading the configuration (`parseConfig`, main.go:104-211): every setting
    is checked in a fixed order and the first one that fails is reported. */
module Settings {
  import opened Wrappers
  import opened Structs

  /** The settings as they are read from the configuration file, before any
      check: the two bucket names, the workday, the time zone, the `slack`
      section and the `messages` section. */
  datatype RawConfig = RawConfig(
    managerBucket: string,
    channelBucket: string,
    workdayStart: int,
    workdayEnd: int,
    location: string,
    botToken: string,
    legacyToken: string,
    mainChannelID: string,
    managerID: string,
    highThreshold: int,
    lowThreshold: int,
    blacklist: seq<string>,
    profileError: string,
    bdParseError: string,
    personalIncoming: string,
    personalToday: string,
    managerAnnounce: string,
    channelAnnounce: string)

  /** What `parseConfig` hands back when every check passes. */
  datatype Parsed = Parsed(managerBucket: string, channelBucket: string, botToken: string, config: Config, messages: Messages)

  /** The zone name that is loaded: an empty name means UTC. */
  function ZoneName(location: string): (name: string)
    ensures name != ""
    ensures location != "" ==> name == location
  {
    if location == "" then "UTC" else location
  }

  /** `time.LoadLocation` succeeds for `UTC`, `Local` and the names of the
      zone database, given here as `zones`. */
  predicate KnownZone(zones: set<string>, name: string) {
    name == "UTC" || name == "Local" || name in zones
  }

  /** The settings that can be wrong, one per check. */
  datatype Problem =
    | EmptyManagerBucket
    | EmptyChannelBucket
    | EmptyWorkday
    | WrongLocation
    | EmptyBotToken
    | EmptyLegacyToken
    | EmptyMainChannel
    | EmptyManager
    | ZeroHighThreshold
    | ZeroLowThreshold
    | ThresholdsReversed
    | EmptyProfileError
    | EmptyBdParseError
    | EmptyPersonalIncoming
    | EmptyPersonalToday
    | EmptyManagerAnnounce
    | EmptyChannelAnnounce

  /** The error text reported for each problem. */
  function Text(p: Problem): string {
    match p
    case EmptyManagerBucket => "manager_bucket can't be empty"
    case EmptyChannelBucket => "channel_bucket can't be empty"
    case EmptyWorkday => "workday_start can't be higher than or equal to workday_end"
    case WrongLocation => "location is wrong"
    case EmptyBotToken => "bot_token can't be empty"
    case EmptyLegacyToken => "legacy_token can't be empty"
    case EmptyMainChannel => "main_channel_id can't be empty"
    case EmptyManager => "manager_id can't be empty"
    case ZeroHighThreshold => "bd_treshold_high can't be zero"
    case ZeroLowThreshold => "bd_treshold_low can't be zero"
    case ThresholdsReversed => "bd_treshold_low can't be higher than bd_treshold_high"
    case EmptyProfileError => "messages.profile_error can't be empty"
    case EmptyBdParseError => "messages.bd_parse_error can't be empty"
    case EmptyPersonalIncoming => "messages.personal_incoming can't be empty"
    case EmptyPersonalToday => "messages.personal_today can't be empty"
    case EmptyManagerAnnounce => "messages.manager_announce can't be empty"
    case EmptyChannelAnnounce => "messages.channel_announce can't be empty"
  }

  /** One check: whether it holds, and the problem reported when it does not. */
  datatype Rule = Rule(holds: bool, problem: Problem)

  /** The number of checks. */
  const RuleCount := 17

  /** Check number `k`, in the order the checks are made. An empty blacklist
      is only warned about, so it is not among them. */
  function RuleAt(raw: RawConfig, zones: set<string>, k: nat): Rule
    requires k < RuleCount
  {
    if k == 0 then Rule(raw.managerBucket != "", EmptyManagerBucket)
    else if k == 1 then Rule(raw.channelBucket != "", EmptyChannelBucket)
    else if k == 2 then Rule(raw.workdayStart < raw.workdayEnd, EmptyWorkday)
    else if k == 3 then Rule(KnownZone(zones, ZoneName(raw.location)), WrongLocation)
    else if k == 4 then Rule(raw.botToken != "", EmptyBotToken)
    else if k == 5 then Rule(raw.legacyToken != "", EmptyLegacyToken)
    else if k == 6 then Rule(raw.mainChannelID != "", EmptyMainChannel)
    else if k == 7 then Rule(raw.managerID != "", EmptyManager)
    else if k == 8 then Rule(raw.highThreshold != 0, ZeroHighThreshold)
    else if k == 9 then Rule(raw.lowThreshold != 0, ZeroLowThreshold)
    else if k == 10 then Rule(raw.highThreshold >= raw.lowThreshold, ThresholdsReversed)
    else if k == 11 then Rule(raw.profileError != "", EmptyProfileError)
    else if k == 12 then Rule(raw.bdParseError != "", EmptyBdParseError)
    else if k == 13 then Rule(raw.personalIncoming != "", EmptyPersonalIncoming)
    else if k == 14 then Rule(raw.personalToday != "", EmptyPersonalToday)
    else if k == 15 then Rule(raw.managerAnnounce != "", EmptyManagerAnnounce)
    else Rule(raw.channelAnnounce != "", EmptyChannelAnnounce)
  }

  /** All the checks, in order. */
  function Rules(raw: RawConfig, zones: set<string>): (rules: seq<Rule>)
    ensures |rules| == RuleCount
  {
    seq(RuleCount, k requires 0 <= k < RuleCount => RuleAt(raw, zones, k))
  }

  /** The error of the first check that fails, if any. */
  function FirstBroken(rules: seq<Rule>): Option<Problem> {
    if rules == [] then None
    else if !rules[0].holds then Some(rules[0].problem)
    else FirstBroken(rules[1..])
  }

  /** `FirstBroken` finds nothing exactly when every check holds, and
      otherwise names a failing check all of whose predecessors hold. */
  lemma {:induction false} FirstBrokenIsFirst(rules: seq<Rule>)
    ensures FirstBroken(rules).None? <==> forall i :: 0 <= i < |rules| ==> rules[i].holds
    ensures FirstBroken(rules).Some? ==>
              exists i :: 0 <= i < |rules| && !rules[i].holds && rules[i].problem == FirstBroken(rules).value
                          && forall j :: 0 <= j < i ==> rules[j].holds
  {
    if rules != [] && rules[0].holds {
      FirstBrokenIsFirst(rules[1..]);
      if FirstBroken(rules).Some? {
        var i :| 0 <= i < |rules[1..]| && !rules[1..][i].holds && rules[1..][i].problem == FirstBroken(rules).value
                 && forall j :: 0 <= j < i ==> rules[1..][j].holds;
        assert forall j :: 0 <= j < i + 1 ==> rules[j].holds by {
          forall j | 0 <= j < i + 1 ensures rules[j].holds {
            if j > 0 { assert rules[j] == rules[1..][j - 1]; }
          }
        }
        assert rules[i + 1] == rules[1..][i];
      } else {
        forall i | 0 <= i < |rules| ensures rules[i].holds {
          if i > 0 { assert rules[i] == rules[1..][i - 1]; }
        }
      }
    }
  }

  /** The first failing check is the one reported. */
  lemma {:induction false} FirstBrokenAt(rules: seq<Rule>, k: nat)
    requires k < |rules| && !rules[k].holds
    requires forall j :: 0 <= j < k ==> rules[j].holds
    ensures FirstBroken(rules) == Some(rules[k].problem)
    decreases k
  {
    if k > 0 {
      assert rules[1..][k - 1] == rules[k];
      FirstBrokenAt(rules[1..], k - 1);
    }
  }

  /** The first failing check of a configuration is the one reported. */
  lemma FirstRuleBroken(raw: RawConfig, zones: set<string>, k: nat)
    requires k < RuleCount && !RuleAt(raw, zones, k).holds
    requires forall j :: 0 <= j < k ==> RuleAt(raw, zones, j).holds
    ensures Validated(raw, zones) == Err(Text(RuleAt(raw, zones, k).problem))
  {
    FirstBrokenAt(Rules(raw, zones), k);
  }

  /** A configuration all of whose checks hold is accepted. */
  lemma NoRuleBroken(raw: RawConfig, zones: set<string>)
    requires forall j :: 0 <= j < RuleCount ==> RuleAt(raw, zones, j).holds
    ensures Validated(raw, zones) == Ok(ParsedOf(raw))
  {
    NoneBroken(Rules(raw, zones));
  }

  /** When every check holds, nothing is reported. */
  lemma {:induction false} NoneBroken(rules: seq<Rule>)
    requires forall j :: 0 <= j < |rules| ==> rules[j].holds
    ensures FirstBroken(rules) == None
  {
    if rules != [] {
      NoneBroken(rules[1..]);
    }
  }

  /** The settings an accepted file yields: the zone name resolved, the bot's
      own ID and the manager's conversation left to be filled in after
      connecting, and the two shutdown texts never set. */
  function ParsedOf(raw: RawConfig): Parsed {
    Parsed(raw.managerBucket, raw.channelBucket, raw.botToken,
           Config(raw.workdayStart, raw.workdayEnd, ZoneName(raw.location), "", raw.legacyToken,
                  raw.mainChannelID, raw.managerID, "", raw.highThreshold, raw.lowThreshold, raw.blacklist),
           Messages("", "", raw.profileError, raw.bdParseError, raw.personalIncoming, raw.personalToday,
                    raw.managerAnnounce, raw.channelAnnounce))
  }

  /** The outcome of reading `raw`: the first failed check, or the settings. */
  function Validated(raw: RawConfig, zones: set<string>): Result<Parsed> {
    match FirstBroken(Rules(raw, zones))
    case Some(p) => Err(Text(p))
    case None => Ok(ParsedOf(raw))
  }

  /** What an accepted configuration guarantees to the watchers: a
      non-empty workday, two non-zero thresholds in order, a known zone, the
      buckets, tokens and IDs present and the six templates non-empty. */
  lemma AcceptedConfig(raw: RawConfig, zones: set<string>)
    requires Validated(raw, zones).Ok?
    ensures var p := Validated(raw, zones).value;
            var c := p.config;
            var m := p.messages;
            && p.managerBucket != "" && p.channelBucket != "" && p.botToken != ""
            && c.workdayStart < c.workdayEnd
            && KnownZone(zones, c.location)
            && c.legacyToken != "" && c.mainChannelID != "" && c.managerID != ""
            && c.highThreshold != 0 && c.lowThreshold != 0 && c.lowThreshold <= c.highThreshold
            && m.profileError != "" && m.bdParseError != "" && m.personalIncoming != ""
            && m.personalToday != "" && m.managerAnnounce != "" && m.channelAnnounce != ""
            && m.shutdownAnnounce == "" && m.shutdownError == ""
            && c.blacklist == raw.blacklist
  {
    FirstBrokenIsFirst(Rules(raw, zones));
    assert forall k :: 0 <= k < RuleCount ==> RuleAt(raw, zones, k).holds by {
      forall k | 0 <= k < RuleCount ensures RuleAt(raw, zones, k).holds {
        assert Rules(raw, zones)[k].holds;
      }
    }
    assert RuleAt(raw, zones, 0).holds && RuleAt(raw, zones, 1).holds && RuleAt(raw, zones, 2).holds;
    assert RuleAt(raw, zones, 3).holds && RuleAt(raw, zones, 4).holds && RuleAt(raw, zones, 5).holds;
    assert RuleAt(raw, zones, 6).holds && RuleAt(raw, zones, 7).holds && RuleAt(raw, zones, 8).holds;
    assert RuleAt(raw, zones, 9).holds && RuleAt(raw, zones, 10).holds && RuleAt(raw, zones, 11).holds;
    assert RuleAt(raw, zones, 12).holds && RuleAt(raw, zones, 13).holds && RuleAt(raw, zones, 14).holds;
    assert RuleAt(raw, zones, 15).holds && RuleAt(raw, zones, 16).holds;
  }

  /** A rejected configuration is rejected for a check that really fails,
      and every check before it passed. */
  lemma RejectedConfig(raw: RawConfig, zones: set<string>)
    requires Validated(raw, zones).Err?
    ensures exists i :: 0 <= i < |Rules(raw, zones)| && !Rules(raw, zones)[i].holds
              && Text(Rules(raw, zones)[i].problem) == Validated(raw, zones).error
              && forall j :: 0 <= j < i ==> Rules(raw, zones)[j].holds
  {
    FirstBrokenIsFirst(Rules(raw, zones));
  }

  /** `parseConfig`: the checks one after the other, returning at the first
      failure. */
  method ParseConfig(raw: RawConfig, zones: set<string>) returns (r: Result<Parsed>)
    ensures r == Validated(raw, zones)
  {
    if raw.managerBucket == "" {
      FirstRuleBroken(raw, zones, 0);
      return Err(Text(EmptyManagerBucket));
    }
    if raw.channelBucket == "" {
      FirstRuleBroken(raw, zones, 1);
      return Err(Text(EmptyChannelBucket));
    }
    if raw.workdayStart >= raw.workdayEnd {
      FirstRuleBroken(raw, zones, 2);
      return Err(Text(EmptyWorkday));
    }
    var loc := raw.location;
    if loc == "" {
      loc := "UTC";
    }
    if !(loc == "UTC" || loc == "Local" || loc in zones) {
      FirstRuleBroken(raw, zones, 3);
      return Err(Text(WrongLocation));
    }
    if raw.botToken == "" {
      FirstRuleBroken(raw, zones, 4);
      return Err(Text(EmptyBotToken));
    }
    if raw.legacyToken == "" {
      FirstRuleBroken(raw, zones, 5);
      return Err(Text(EmptyLegacyToken));
    }
    if raw.mainChannelID == "" {
      FirstRuleBroken(raw, zones, 6);
      return Err(Text(EmptyMainChannel));
    }
    if raw.managerID == "" {
      FirstRuleBroken(raw, zones, 7);
      return Err(Text(EmptyManager));
    }
    if raw.highThreshold == 0 {
      FirstRuleBroken(raw, zones, 8);
      return Err(Text(ZeroHighThreshold));
    }
    if raw.lowThreshold == 0 {
      FirstRuleBroken(raw, zones, 9);
      return Err(Text(ZeroLowThreshold));
    }
    if raw.highThreshold < raw.lowThreshold {
      FirstRuleBroken(raw, zones, 10);
      return Err(Text(ThresholdsReversed));
    }
    var c := Config(raw.workdayStart, raw.workdayEnd, loc, "", raw.legacyToken, raw.mainChannelID,
                    raw.managerID, "", raw.highThreshold, raw.lowThreshold, raw.blacklist);
    if raw.profileError == "" {
      FirstRuleBroken(raw, zones, 11);
      return Err(Text(EmptyProfileError));
    }
    if raw.bdParseError == "" {
      FirstRuleBroken(raw, zones, 12);
      return Err(Text(EmptyBdParseError));
    }
    if raw.personalIncoming == "" {
      FirstRuleBroken(raw, zones, 13);
      return Err(Text(EmptyPersonalIncoming));
    }
    if raw.personalToday == "" {
      FirstRuleBroken(raw, zones, 14);
      return Err(Text(EmptyPersonalToday));
    }
    if raw.managerAnnounce == "" {
      FirstRuleBroken(raw, zones, 15);
      return Err(Text(EmptyManagerAnnounce));
    }
    if raw.channelAnnounce == "" {
      FirstRuleBroken(raw, zones, 16);
      return Err(Text(EmptyChannelAnnounce));
    }
    var m := Messages("", "", raw.profileError, raw.bdParseError, raw.personalIncoming, raw.personalToday,
                      raw.managerAnnounce, raw.channelAnnounce);
    NoRuleBroken(raw, zones);
    return Ok(Parsed(raw.managerBucket, raw.channelBucket, raw.botToken, c, m));
  }
}
