# rtmpauthbot effective configuration, in Dafny

This project models how rtmpauthbot turns its process environment into the
configuration it runs with, and which startup decisions follow from that:

- `Config.ParseEnv` (config/config.go) reads ten environment variables. Seven
  string settings are copied verbatim. Two boolean flags go through
  `strconv.ParseBool`, and any parse error reads as `false`. The Twitch poll
  rate goes through `strconv.ParseInt(s, 0, 0)`. It becomes 60 s when parsing
  fails, is floor-clamped to 5 s, and is converted to a `time.Duration` by an
  `int64` multiplication that can wrap around.
- `App` (app/app.go) holds the seven data buckets and the `init` loop that
  ensures each bucket exists in the store. A store error on one bucket is
  dropped, and the loop goes on to the next. `App.Run` models the startup
  decisions: the Twitch scheduler starts, with the parsed poll rate, exactly
  when `TWITCH_ENABLED` is a true-string, and the server listens on
  `ip:port`, with an unset IP read as `127.0.0.1` and an unset port as `9090`.

Modules:

- `Wrappers`: `Option` and `Result`.
- `GoInt` / `GoTime`: `int64` two's-complement wrap-around and `time.Duration`.
- `Strconv`: `ParseBool` written out exactly. `IsParseInt` is a contract
  for `strconv.ParseInt`, and `DecimalParseInt` is a parser that meets it.
- `Config`: the `Config` record, `ParseEnv` and its lemmas.
- `App`: the bucket list and loop, the scheduler decision, listen-address
  defaulting and `Run`.

External inputs become parameters. The environment is a
`map<string, string>`, and a missing key reads as `""`, as with `os.Getenv`.
`strconv.ParseInt` is a function parameter `parseInt`. The lemmas that need
it to behave like Go's parser assume `Strconv.IsParseInt(parseInt)`. That
contract says three things:

- `""` is an error.
- Every value returned fits in an `int64`, the width of Go's `int` on a 64-bit build.
- An optionally signed run of decimal digits with no superfluous leading zero
  yields its value, or an error when the value is out of range.

Leading zeros are excluded on purpose, because base 0 reads `010` as octal 8
and rejects `08`. The bbolt store becomes the set of bucket names it holds.
Whether a given update fails is an oracle, `faults`, holding the indices of
the failing attempts.

Behaviour of the program worth knowing, all of it modelled:

- `ParseEnv` declares an `error` result but always returns nil
  (`Config.ParseEnv` ensures `r.Success?`). A malformed value falls back to a
  default without any error.
- `init` discards the error of every `db.Update`, so a failed bucket creation
  is never reported and never stops the loop.
- The poll rate's floor is 5 s and its default 60 s.
- Above 9223372036 s the Duration wraps around. TWITCH_POLL_RATE=9223372037
  gives a poll rate of -9223372036709551616 ns (`Config.PollRateOverflowWitness`).

## Model

| member | source | states |
|---|---|---|
| Config.Getenv | config/config.go:40-46 | A variable reads as its value when set and as "" when unset |
| Strconv.ParseBool | config/config.go:47-56 | Some(true) exactly for 1 t T TRUE true True; Some(false) exactly for 0 f F FALSE false False; an error for everything else |
| Strconv.ParseBoolSetsDisjoint | config/config.go:47-56 | No string is both a true-string and a false-string; the empty string (an unset variable) is neither and does not parse |
| Config.ParseFlag | config/config.go:47-56 | A flag is enabled iff its raw value is one of the true-strings; every parse error gives false |
| Config.FlagsDefaultFalse | config/config.go:47-56 | DISCORD_ENABLED and TWITCH_ENABLED are false when unset or unparseable, each read independently |
| Config.ParseEnv | config/config.go:35-69 | Never returns an error; the seven string fields equal their variables verbatim; each flag is true iff its variable is a true-string; the poll rate is an int64 Duration |
| Config.ListenVarsNotDefaulted | config/config.go:40-41 | AUTH_SERVER_IP and AUTH_SERVER_PORT are not defaulted by ParseEnv: unset, they stay "" |
| Config.ClampPollRate | config/config.go:62-65 | The clamped rate is at least 5 and at least the input, and is either the input or 5 |
| Config.ClampPollRateIdempotent | config/config.go:62-65 | Clamping twice equals clamping once; the clamp leaves a value unchanged iff it is at least 5 |
| Config.PollRateSeconds | config/config.go:57-65 | The seconds value is always at least 5; a parse error gives 60; a parsed value of 5 or more is kept; a parsed value below 5 gives exactly 5 |
| Config.PollRateDefault | config/config.go:57-61 | Whenever the parser reports an error, the poll rate is 60 s |
| Config.PollRateUnsetIsDefault | config/config.go:57-61 | An unset or empty TWITCH_POLL_RATE gives 60 s under any parser meeting the ParseInt contract |
| Config.PollRateOutOfRangeIsDefault | config/config.go:57-61 | A decimal TWITCH_POLL_RATE outside the int64 range gives 60 s |
| Config.PollRateBelowFloor | config/config.go:62-66 | A parsed value below 5, including zero and negatives, gives exactly 5 s |
| Config.PollRateKept | config/config.go:62-66 | A parsed value from 5 to 9223372036 gives exactly that many seconds |
| Config.PollRateWholeSecondsAboveFloor | config/config.go:57-66 | If the parsed value does not overflow, the Duration is a whole number of seconds, from 5 to 9223372036 |
| Config.PollRateOverflows | config/config.go:66 | If the parsed value exceeds 9223372036, the Duration no longer equals that many seconds |
| Config.PollRateOverflowWitness | config/config.go:57-66 | TWITCH_POLL_RATE=9223372037 gives a negative poll rate of -9223372036709551616 ns |
| GoInt.Wrap64 | config/config.go:66 | int64 arithmetic: the result fits in an int64, is congruent to the exact value modulo 2^64, and equals it when it fits |
| GoTime.SecondsToDuration | config/config.go:66 | The Duration is the int64 congruent to sec × 10^9 modulo 2^64, which is Go's two's-complement product; it equals sec × 10^9 ns exactly when sec is within ±9223372036 and differs from it outside that range |
| GoTime.DurationOverflowWitness | config/config.go:66 | 9223372036 s converts exactly; 9223372037 s wraps to a negative Duration |
| Strconv.IsParseInt | config/config.go:57 | The contract for strconv.ParseInt(s, 0, 0): "" is an error, every value fits in int64, a canonical decimal yields its value or a range error; consequently "0" yields 0 and "-1" yields -1 |
| Strconv.DecimalParseInt | config/config.go:57 | The decimal parser returns a value only for a canonical decimal that fits in int64, and then returns that decimal's value |
| Strconv.DecimalParseIntIsParseInt | config/config.go:57 | The ParseInt contract can be met, so lemmas that assume it are not vacuous |
| Strconv.OverflowingDecimalValue | config/config.go:57 | "9223372037" is a canonical decimal denoting 9223372037 |
| Strconv.DecimalExamples | config/config.go:57 | "-3" denotes -3; "010", "" and "+" are not canonical decimals |
| App.DataBucketsDistinct | app/app.go:17-25 | There are seven bucket names and they are pairwise distinct |
| App.UpdateEnsureBucket | app/app.go:63-69 | An update succeeds iff the store does not fail it; on success the bucket exists and no other bucket is added or removed; on failure the store is unchanged |
| App.EnsureBuckets | app/app.go:61-70 | The result is the old store plus exactly the names whose attempt did not fail, so a failure never keeps a later name from being created; a store already holding every name is unchanged |
| App.InitBuckets | app/app.go:61-70 | The store afterwards is the old store plus exactly the data buckets whose update did not fail, so one failure does not stop the rest; no existing bucket is removed and only data buckets are added; with no failures all seven exist; a second run on an initialised store changes nothing |
| App.SchedulerPeriod | app/app.go:91-99 | The scheduler starts iff TwitchEnabled, and it starts with the configured poll rate |
| App.WithListenDefaults | app/app.go:115-121 | An empty IP becomes exactly 127.0.0.1 and an empty port exactly 9090; a non-empty value is kept; every other setting is unchanged |
| App.ListenAddress | app/app.go:122 | For every IP and port, the address is the IP, then one colon right after the IP, then the port; for an IP without a colon, splitting at the first colon gives back exactly the IP and the port |
| App.ListenAddressRoundTrip | app/app.go:122 | For an IP without a colon, splitting ip:port at its first colon gives back exactly the IP and the port |
| App.Run | app/app.go:74-122 | Startup never hits the fatal ParseEnv branch; the scheduler starts iff TWITCH_ENABLED is a true-string, with the configured poll rate; the kept IP and port are each the variable's value when set and 127.0.0.1 / 9090 otherwise, whatever characters the IP holds; the listen address is the effective IP, a colon, then the effective port |
| App.SchedulerStartsIffEnabled | app/app.go:91-99 | Composed with ParseEnv: the scheduler starts iff TWITCH_ENABLED is a true-string, with the parsed poll rate; absent overflow, that rate is at least 5 s and a whole number of seconds |
| App.DefaultListenAddress | app/app.go:116-122 | With neither AUTH_SERVER_IP nor AUTH_SERVER_PORT set, the server listens on 127.0.0.1:9090 |
| App.ListenAddressFromEnv | app/app.go:116-122 | For an AUTH_SERVER_IP without a colon, the listen address reads back as the effective IP and port: each variable's value when set, the default otherwise |
| App.RunKeepsOtherSettings | app/app.go:115-121 | Listen-address defaulting changes only the IP and port of the configuration Run keeps |

## Left out

- Command-line flags, the license, environment and unit-file printers, and their `os.Exit` paths (app/app.go:27-45) are process control and text output.
- Logging is left out because it only has side effects.
- `bolt.Open`, `db.Close` and the second open of the database in `Run` (app/app.go:54-59, 82-86) belong to the storage engine. Only the set of bucket names is modelled.
- `App.UpdateEnsureBucket` does not distinguish the causes of a store error (bad bucket name, I/O, a closed database). They are one oracle, because bbolt is not part of this model.
- HTTP route registration and `http.ListenAndServe` (app/app.go:101-113, 124-129) are left out. So is whether the network stack accepts the address, for example an IPv6 literal without brackets.
- `TwitchScheduler` and all handlers live in `controllers`, which is not part of this model. `Run` calls `TwitchScheduler` synchronously (app/app.go:96). The model takes the startup decisions as settled in order and does not say whether that call returns.
- `DatabasePath` (config/config.go:27-32) depends on the path cleaning done by `filepath.Join`, which is not part of this model. The only easy case is an empty DATA_PATH, which gives "rtmpauthbot.db".
- `Config.ParseEnv`: the full base-0 grammar of `strconv.ParseInt` is left out. That covers `0x`, `0o` and `0b` prefixes, octal leading zeros and `_` separators. The poll rate for such inputs depends on the parser passed in, and `Strconv.IsParseInt` pins down only the empty string, canonical decimals and the int64 range.
- `Strconv.DecimalParseInt` rejects every non-canonical form, including ones Go accepts such as `0x10`. It exists to show the contract can be met, not to stand in for Go's parser.
- Strconv.IsParseInt: assumes Go's `int` is 64 bits wide. With bitSize 0, `strconv.ParseInt` checks the range of `int`, so on a 32-bit build a value above 2147483647 (such as 3000000000) is a range error and gives 60 s. The Duration overflow then cannot occur. The model covers 64-bit builds only.
