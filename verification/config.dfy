/** The configuration record of config/config.go and `ParseEnv`, read as a
    pure function of the process environment. */
module Config {
  import opened Wrappers
  import opened GoInt
  import opened GoTime
  import Strconv

  /** The process environment. `os.Getenv` cannot tell an unset variable
      from one set to the empty string, so neither can this model. */
  type Env = map<string, string>

  const AuthServerIPVar := "AUTH_SERVER_IP"
  const AuthServerPortVar := "AUTH_SERVER_PORT"
  const RTMPServerFQDNVar := "RTMP_SERVER_FQDN"
  const RTMPServerPortVar := "RTMP_SERVER_PORT"
  const TwitchClientIDVar := "TWITCH_CLIENT_ID"
  const TwitchClientSecretVar := "TWITCH_CLIENT_SECRET"
  const DiscordWebhookVar := "DISCORD_WEBHOOK"
  const DiscordEnabledVar := "DISCORD_ENABLED"
  const TwitchEnabledVar := "TWITCH_ENABLED"
  const TwitchPollRateVar := "TWITCH_POLL_RATE"

  /** Poll rate used when TWITCH_POLL_RATE does not parse, in seconds. */
  const DefaultPollRateSeconds: int := 60
  /** Smallest poll rate the configuration lets through, in seconds. */
  const MinPollRateSeconds: int := 5

  /** The parsed configuration; `twitchPollRate` is a `time.Duration` in
      nanoseconds. */
  datatype Config = Config(
    authServerIP: string,
    authServerPort: string,
    rtmpServerFQDN: string,
    rtmpServerPort: string,
    twitchEnabled: bool,
    twitchClientID: string,
    twitchClientSecret: string,
    discordWebhook: string,
    discordEnabled: bool,
    twitchPollRate: int)

  /** `ParseEnv` declares an error result but never produces one. */
  datatype ConfigError = ConfigError(message: string)

  /** `os.Getenv`: the variable's value, or "" when it is unset. */
  function Getenv(env: Env, name: string): (v: string)
    ensures name in env ==> v == env[name]
    ensures name !in env ==> v == ""
  {
    if name in env then env[name] else ""
  }

  /** A boolean flag: `strconv.ParseBool`, with `false` on a parse error. */
  function ParseFlag(raw: string): (enabled: bool)
    ensures enabled <==> raw in Strconv.TrueStrings
  {
    match Strconv.ParseBool(raw)
    case Some(b) => b
    case None => false
  }

  /** The floor on the poll rate: the least value that is at least both
      `sec` and the minimum. */
  function ClampPollRate(sec: int): (r: int)
    ensures r >= MinPollRateSeconds && r >= sec
    ensures r == sec || r == MinPollRateSeconds
  {
    if sec < MinPollRateSeconds then MinPollRateSeconds else sec
  }

  /** The poll rate in seconds, from the result of parsing TWITCH_POLL_RATE. */
  function PollRateSeconds(parsed: Option<int>): (sec: int)
    ensures sec >= MinPollRateSeconds
    ensures parsed.None? ==> sec == DefaultPollRateSeconds
    ensures parsed.Some? && parsed.value >= MinPollRateSeconds ==> sec == parsed.value
    ensures parsed.Some? && parsed.value < MinPollRateSeconds ==> sec == MinPollRateSeconds
  {
    var sec := if parsed.None? then DefaultPollRateSeconds else parsed.value;
    ClampPollRate(sec)
  }

  /** `(*Config).ParseEnv`. `parseInt` stands for `strconv.ParseInt(s, 0, 0)`,
      which lies outside this model; the lemmas below say what holds when it
      meets `Strconv.IsParseInt`. */
  function ParseEnv(env: Env, parseInt: string -> Option<int>): (r: Result<Config, ConfigError>)
    ensures r.Success?
    ensures r.value.authServerIP == Getenv(env, AuthServerIPVar)
    ensures r.value.authServerPort == Getenv(env, AuthServerPortVar)
    ensures r.value.rtmpServerFQDN == Getenv(env, RTMPServerFQDNVar)
    ensures r.value.rtmpServerPort == Getenv(env, RTMPServerPortVar)
    ensures r.value.twitchClientID == Getenv(env, TwitchClientIDVar)
    ensures r.value.twitchClientSecret == Getenv(env, TwitchClientSecretVar)
    ensures r.value.discordWebhook == Getenv(env, DiscordWebhookVar)
    ensures r.value.discordEnabled <==> Getenv(env, DiscordEnabledVar) in Strconv.TrueStrings
    ensures r.value.twitchEnabled <==> Getenv(env, TwitchEnabledVar) in Strconv.TrueStrings
    ensures IsInt64(r.value.twitchPollRate)
  {
    var pollRateSec := PollRateSeconds(parseInt(Getenv(env, TwitchPollRateVar)));
    Success(Config(
      authServerIP := Getenv(env, AuthServerIPVar),
      authServerPort := Getenv(env, AuthServerPortVar),
      rtmpServerFQDN := Getenv(env, RTMPServerFQDNVar),
      rtmpServerPort := Getenv(env, RTMPServerPortVar),
      twitchEnabled := ParseFlag(Getenv(env, TwitchEnabledVar)),
      twitchClientID := Getenv(env, TwitchClientIDVar),
      twitchClientSecret := Getenv(env, TwitchClientSecretVar),
      discordWebhook := Getenv(env, DiscordWebhookVar),
      discordEnabled := ParseFlag(Getenv(env, DiscordEnabledVar)),
      twitchPollRate := SecondsToDuration(pollRateSec)))
  }

  /** The raw TWITCH_POLL_RATE value ParseEnv hands to the integer parser. */
  function RawPollRate(env: Env): string {
    Getenv(env, TwitchPollRateVar)
  }

  /** Clamping is idempotent, and leaves a value at or above the floor alone. */
  lemma ClampPollRateIdempotent(sec: int)
    ensures ClampPollRate(ClampPollRate(sec)) == ClampPollRate(sec)
    ensures sec >= MinPollRateSeconds <==> ClampPollRate(sec) == sec
  {
  }

  /** A poll rate that fails to parse (including a range error) becomes 60 s. */
  lemma PollRateDefault(env: Env, parseInt: string -> Option<int>)
    requires parseInt(RawPollRate(env)).None?
    ensures ParseEnv(env, parseInt).value.twitchPollRate == DefaultPollRateSeconds * Second
  {
  }

  /** An unset (or empty) TWITCH_POLL_RATE becomes 60 s. */
  lemma PollRateUnsetIsDefault(env: Env, parseInt: string -> Option<int>)
    requires Strconv.IsParseInt(parseInt)
    requires RawPollRate(env) == ""
    ensures ParseEnv(env, parseInt).value.twitchPollRate == DefaultPollRateSeconds * Second
  {
    PollRateDefault(env, parseInt);
  }

  /** An out-of-range decimal poll rate is a range error, so it becomes 60 s. */
  lemma PollRateOutOfRangeIsDefault(env: Env, parseInt: string -> Option<int>)
    requires Strconv.IsParseInt(parseInt)
    requires Strconv.IsCanonicalDecimal(RawPollRate(env))
    requires !IsInt64(Strconv.DecimalValue(RawPollRate(env)))
    ensures ParseEnv(env, parseInt).value.twitchPollRate == DefaultPollRateSeconds * Second
  {
    PollRateDefault(env, parseInt);
  }

  /** A parsed value below the floor, zero and negatives included, becomes
      exactly 5 s. */
  lemma PollRateBelowFloor(env: Env, parseInt: string -> Option<int>)
    requires parseInt(RawPollRate(env)).Some?
    requires parseInt(RawPollRate(env)).value < MinPollRateSeconds
    ensures ParseEnv(env, parseInt).value.twitchPollRate == MinPollRateSeconds * Second
  {
  }

  /** A parsed value at or above the floor is kept, as long as its Duration
      fits in an `int64`. */
  lemma PollRateKept(env: Env, parseInt: string -> Option<int>)
    requires parseInt(RawPollRate(env)).Some?
    requires MinPollRateSeconds <= parseInt(RawPollRate(env)).value <= MaxWholeSeconds
    ensures ParseEnv(env, parseInt).value.twitchPollRate == parseInt(RawPollRate(env)).value * Second
  {
  }

  /** While the parsed seconds do not overflow the Duration, the poll rate is
      a whole number of seconds, at least 5 s. */
  lemma PollRateWholeSecondsAboveFloor(env: Env, parseInt: string -> Option<int>)
    requires parseInt(RawPollRate(env)).None? || parseInt(RawPollRate(env)).value <= MaxWholeSeconds
    ensures var d := ParseEnv(env, parseInt).value.twitchPollRate;
      && d >= MinPollRateSeconds * Second
      && d % Second == 0
      && MinPollRateSeconds <= d / Second <= MaxWholeSeconds
  {
    var sec := PollRateSeconds(parseInt(RawPollRate(env)));
    assert ParseEnv(env, parseInt).value.twitchPollRate == sec * Second;
    assert (sec * Second) / Second == sec;
  }

  /** Beyond MaxWholeSeconds the `int64` product wraps: the Duration no
      longer equals the parsed number of seconds. */
  lemma PollRateOverflows(env: Env, parseInt: string -> Option<int>)
    requires parseInt(RawPollRate(env)).Some?
    requires parseInt(RawPollRate(env)).value > MaxWholeSeconds
    ensures ParseEnv(env, parseInt).value.twitchPollRate != parseInt(RawPollRate(env)).value * Second
  {
  }

  /** TWITCH_POLL_RATE=9223372037 yields a negative poll rate, under any
      parser meeting the contract. */
  lemma PollRateOverflowWitness(env: Env, parseInt: string -> Option<int>)
    requires Strconv.IsParseInt(parseInt)
    requires RawPollRate(env) == "9223372037"
    ensures ParseEnv(env, parseInt).value.twitchPollRate == -9_223_372_036_709_551_616
  {
    Strconv.OverflowingDecimalValue();
    DurationOverflowWitness();
  }

  /** A flag that is unset, or set to anything but a true-string, is false;
      the two flags are read independently. */
  lemma FlagsDefaultFalse(env: Env, parseInt: string -> Option<int>)
    ensures DiscordEnabledVar !in env ==> !ParseEnv(env, parseInt).value.discordEnabled
    ensures TwitchEnabledVar !in env ==> !ParseEnv(env, parseInt).value.twitchEnabled
    ensures Strconv.ParseBool(Getenv(env, TwitchEnabledVar)).None? ==> !ParseEnv(env, parseInt).value.twitchEnabled
    ensures Strconv.ParseBool(Getenv(env, DiscordEnabledVar)).None? ==> !ParseEnv(env, parseInt).value.discordEnabled
  {
  }

  /** The listen-address variables are not defaulted here: unset, they stay "". */
  lemma ListenVarsNotDefaulted(env: Env, parseInt: string -> Option<int>)
    requires AuthServerIPVar !in env && AuthServerPortVar !in env
    ensures ParseEnv(env, parseInt).value.authServerIP == ""
    ensures ParseEnv(env, parseInt).value.authServerPort == ""
  {
  }
}
