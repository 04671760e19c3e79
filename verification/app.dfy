/** The startup decisions of app/app.go: the bucket list and the loop that
    ensures every bucket exists, whether the Twitch scheduler starts, and the
    address the server listens on. The key/value store is reduced to the set
    of bucket names it holds; its own errors are an oracle. */
module App {
  import opened Wrappers
  import opened GoTime
  import Strconv
  import Config

  /** Every bucket the program uses. */
  const DataBuckets: seq<string> := [
    "ConfigBucket",
    "PublisherBucket",
    "RTMPLiveBucket",
    "TwitchStreamBucket",
    "TwitchLiveBucket",
    "TwitchNotificationBucket",
    "StreamInfoBucket"
  ]

  const DefaultAuthServerIP := "127.0.0.1"
  const DefaultAuthServerPort := "9090"

  /** The names of the buckets a store holds. */
  type Store = set<string>

  /** An error from the store's update transaction; its cause is not modelled. */
  datatype StoreError = StoreError

  lemma DataBucketsDistinct()
    ensures |DataBuckets| == 7
    ensures forall i, j :: 0 <= i < j < |DataBuckets| ==> DataBuckets[i] != DataBuckets[j]
  {
  }

  /** One `db.Update` whose transaction calls `CreateBucketIfNotExists(name)`.
      `fails` says whether the store reports an error for this attempt, in
      which case the transaction is rolled back. */
  function UpdateEnsureBucket(db: Store, name: string, fails: bool): (r: Result<Store, StoreError>)
    ensures r.Success? <==> !fails
    ensures r.Success? ==> name in r.value && db <= r.value && r.value <= db + {name}
  {
    if fails then Failure(StoreError) else Success(db + {name})
  }

  /** The buckets the attempts not in `faults` create. */
  function Created(names: seq<string>, faults: set<nat>): set<string> {
    set i | 0 <= i < |names| && i !in faults :: names[i]
  }

  lemma CreatedSnoc(names: seq<string>, k: nat, faults: set<nat>)
    requires k < |names|
    ensures Created(names[..k + 1], faults)
         == Created(names[..k], faults) + (if k in faults then {} else {names[k]})
  {
    var prefix := names[..k + 1];
    assert forall i :: 0 <= i < k ==> prefix[i] == names[..k][i];
  }

  /** The loop of `init`: one update per name, in order. The error each
      update returns is dropped, so a failure does not stop later attempts.
      `faults` holds the indices of the attempts the store fails. */
  method EnsureBuckets(db: Store, names: seq<string>, faults: set<nat>) returns (db': Store)
    ensures db' == db + Created(names, faults)
    ensures forall i :: 0 <= i < |names| && i !in faults ==> names[i] in db'
    ensures (forall i :: 0 <= i < |names| ==> names[i] in db) ==> db' == db
  {
    db' := db;
    var b := 0;
    while b < |names|
      invariant 0 <= b <= |names|
      invariant db' == db + Created(names[..b], faults)
    {
      var r := UpdateEnsureBucket(db', names[b], b in faults);
      if r.Success? {
        db' := r.value;
      }
      CreatedSnoc(names, b, faults);
      b := b + 1;
    }
    assert names[..|names|] == names;
  }

  /** Bucket initialisation at startup. With no store failures every bucket
      exists afterwards; buckets already there are never removed; on a store
      that already holds them all, nothing changes. */
  method InitBuckets(db: Store, faults: set<nat>) returns (db': Store)
    ensures db' == db + Created(DataBuckets, faults)
    ensures db <= db'
    ensures db' - db <= set n | n in DataBuckets
    ensures faults == {} ==> forall n :: n in DataBuckets ==> n in db'
    ensures (forall n :: n in DataBuckets ==> n in db) ==> db' == db
  {
    db' := EnsureBuckets(db, DataBuckets, faults);
  }

  /** The Twitch scheduler's period when `Run` starts it, `None` when it does not. */
  function SchedulerPeriod(conf: Config.Config): (period: Option<int>)
    ensures period.Some? <==> conf.twitchEnabled
    ensures period.Some? ==> period.value == conf.twitchPollRate
  {
    if conf.twitchEnabled then Some(conf.twitchPollRate) else None
  }

  /** The configuration after `Run` fills in an unset listen IP and port. */
  function WithListenDefaults(conf: Config.Config): (c: Config.Config)
    ensures c.authServerIP != "" && c.authServerPort != ""
    ensures conf.authServerIP != "" ==> c.authServerIP == conf.authServerIP
    ensures conf.authServerIP == "" ==> c.authServerIP == DefaultAuthServerIP
    ensures conf.authServerPort != "" ==> c.authServerPort == conf.authServerPort
    ensures conf.authServerPort == "" ==> c.authServerPort == DefaultAuthServerPort
    ensures c == conf.(authServerIP := c.authServerIP, authServerPort := c.authServerPort)
  {
    var ip := if conf.authServerIP == "" then DefaultAuthServerIP else conf.authServerIP;
    var port := if conf.authServerPort == "" then DefaultAuthServerPort else conf.authServerPort;
    conf.(authServerIP := ip, authServerPort := port)
  }

  /** Splits `s` at its first colon, `None` when it has none. */
  function SplitAtFirstColon(s: string): (r: Option<(string, string)>)
    ensures r.None? <==> ':' !in s
    ensures r.Some? ==> ':' !in r.value.0 && s == r.value.0 + ":" + r.value.1
  {
    if |s| == 0 then None
    else if s[0] == ':' then Some(([], s[1..]))
    else match SplitAtFirstColon(s[1..])
      case None => None
      case Some((host, port)) => Some(([s[0]] + host, port))
  }

  /** `fmt.Sprintf("%s:%s", ip, port)`: the IP and the port joined by a
      colon, so that an IP without a colon can be read back from it. */
  function ListenAddress(conf: Config.Config): (addr: string)
    ensures |addr| == |conf.authServerIP| + 1 + |conf.authServerPort|
    ensures addr[..|conf.authServerIP|] == conf.authServerIP
    ensures addr[|conf.authServerIP|] == ':'
    ensures addr[|conf.authServerIP| + 1..] == conf.authServerPort
    ensures ':' !in conf.authServerIP ==>
      SplitAtFirstColon(addr) == Some((conf.authServerIP, conf.authServerPort))
  {
    var ip, port := conf.authServerIP, conf.authServerPort;
    assert (':' !in ip ==> SplitAtFirstColon(ip + ":" + port) == Some((ip, port))) by {
      if ':' !in ip {
        ListenAddressRoundTrip(ip, port);
      }
    }
    ip + ":" + port
  }

  /** The listen address determines the IP and port it was built from when
      the IP holds no colon: splitting it at its first colon gives them back. */
  lemma {:induction false} ListenAddressRoundTrip(ip: string, port: string)
    requires ':' !in ip
    ensures SplitAtFirstColon(ip + ":" + port) == Some((ip, port))
  {
    if |ip| == 0 {
      assert ip + ":" + port == [':'] + port;
    } else {
      var s := ip + ":" + port;
      ListenAddressRoundTrip(ip[1..], port);
      assert s[0] == ip[0] && ip[0] != ':';
      assert s[1..] == ip[1..] + ":" + port;
      assert [ip[0]] + ip[1..] == ip;
    }
  }

  /** What `Run` settles before serving: the configuration it keeps (listen
      defaults applied), the scheduler period if it starts the scheduler,
      and the listen address. */
  datatype Startup = Startup(conf: Config.Config, schedulerPeriod: Option<int>, listenAddress: string)

  /** `Run`, up to the call that starts serving. A `ParseEnv` error would be
      fatal; `ParseEnv` never reports one, so `Run` always gets this far. */
  function Run(env: Config.Env, parseInt: string -> Option<int>): (r: Result<Startup, Config.ConfigError>)
    ensures r.Success?
    ensures r.value.schedulerPeriod.Some? <==> Config.Getenv(env, Config.TwitchEnabledVar) in Strconv.TrueStrings
    ensures r.value.schedulerPeriod.Some? ==> r.value.schedulerPeriod.value == r.value.conf.twitchPollRate
    ensures var ip := Config.Getenv(env, Config.AuthServerIPVar);
      r.value.conf.authServerIP == if ip == "" then DefaultAuthServerIP else ip
    ensures var port := Config.Getenv(env, Config.AuthServerPortVar);
      r.value.conf.authServerPort == if port == "" then DefaultAuthServerPort else port
    ensures r.value.listenAddress == r.value.conf.authServerIP + ":" + r.value.conf.authServerPort
  {
    match Config.ParseEnv(env, parseInt)
    case Failure(e) => Failure(e)
    case Success(parsed) =>
      var period := SchedulerPeriod(parsed);
      var conf := WithListenDefaults(parsed);
      Success(Startup(conf, period, ListenAddress(conf)))
  }

  /** The scheduler starts, with the parsed poll rate, iff TWITCH_ENABLED is
      a true-string; while the poll rate does not overflow, that period is a
      whole number of seconds, at least 5 s. */
  lemma SchedulerStartsIffEnabled(env: Config.Env, parseInt: string -> Option<int>)
    requires parseInt(Config.RawPollRate(env)).None? || parseInt(Config.RawPollRate(env)).value <= MaxWholeSeconds
    ensures var s := Run(env, parseInt).value;
      && (s.schedulerPeriod.Some? <==> Config.Getenv(env, Config.TwitchEnabledVar) in Strconv.TrueStrings)
      && (s.schedulerPeriod.Some? ==>
            && s.schedulerPeriod.value == Config.ParseEnv(env, parseInt).value.twitchPollRate
            && s.schedulerPeriod.value >= Config.MinPollRateSeconds * Second
            && s.schedulerPeriod.value % Second == 0)
  {
    Config.PollRateWholeSecondsAboveFloor(env, parseInt);
  }

  /** With neither listen variable set, the server listens on 127.0.0.1:9090. */
  lemma DefaultListenAddress(env: Config.Env, parseInt: string -> Option<int>)
    requires Config.AuthServerIPVar !in env && Config.AuthServerPortVar !in env
    ensures Run(env, parseInt).value.listenAddress == "127.0.0.1:9090"
  {
  }

  /** The listen address reads back as the effective IP and port: each the
      variable's value when set, the default otherwise. */
  lemma ListenAddressFromEnv(env: Config.Env, parseInt: string -> Option<int>)
    requires ':' !in Config.Getenv(env, Config.AuthServerIPVar)
    ensures var ip := Config.Getenv(env, Config.AuthServerIPVar);
      var port := Config.Getenv(env, Config.AuthServerPortVar);
      SplitAtFirstColon(Run(env, parseInt).value.listenAddress)
        == Some((if ip == "" then DefaultAuthServerIP else ip,
                 if port == "" then DefaultAuthServerPort else port))
  {
    var conf := Run(env, parseInt).value.conf;
    ListenAddressRoundTrip(conf.authServerIP, conf.authServerPort);
  }

  /** Applying the listen defaults leaves every other setting as parsed. */
  lemma RunKeepsOtherSettings(env: Config.Env, parseInt: string -> Option<int>)
    ensures var parsed := Config.ParseEnv(env, parseInt).value;
      Run(env, parseInt).value.conf
        == parsed.(authServerIP := Run(env, parseInt).value.conf.authServerIP,
                   authServerPort := Run(env, parseInt).value.conf.authServerPort)
  {
  }
}
