# Failover Ethereum client: a Dafny model

This project models the core of a Go library that wraps two Ethereum RPC
clients, a main one and a backup ("failover") one, behind a single client
interface. Each operation calls the main client and records one metrics
observation. If the main call fails with anything other than the caller's own
cancellation or deadline, the operation calls the backup once, records a second
observation, and returns the backup's result and error verbatim. The model
covers:

- `config.go` (module `Configuration`): the `Config` record, its `Valid` check
  on the two client names, and the two environment loaders, stated only as
  "a loaded config passes `Valid`, otherwise the process exits".
- `prometheus.go` (module `Prometheus`): the `Metrics` class. Its request
  counter is a `map<Key, nat>` and its latency histogram a map from key to the
  sequence of millisecond samples. The key is `(method, client, success)`. The
  class also has a registered flag and a ghost history of observations. Its
  invariant `Valid()` ties both maps to the history.
- `ethclient.go` (module `EthClient`): `shouldFailover`, the dispatch sequence
  written once as the generic `Client.Dispatch`, and `New`'s construction order.
  Dispatch is used by three representative operations: `BalanceAt` (returns a
  value), `SendTransaction` (returns only an error) and `TransactionByHash`
  (returns two results).

How external things are modelled:

- Physical RPC calls are oracles. An operation is given the reply (result and
  possibly-nil error) that the main call returns, and the reply the backup call
  would return.
- The clock is replaced by the elapsed `time.Duration`, in nanoseconds, of each
  call. Observe converts it to whole milliseconds, truncating toward zero as
  `Duration.Milliseconds` does.
- Dial outcomes in `New` are oracles: the error each dial returns, if any.
- `envconfig` decoding is a function from the prefix to the decoded `Config`.
- Errors are `Canceled | DeadlineExceeded | Other(code)`. `shouldFailover`
  compares by identity, so an error that wraps a context error is an `Other`.
- Go's `len` on a string counts UTF-8 bytes, so `Valid` compares `ByteLen`.
  `ByteLen` agrees with the character count on ASCII names.

Three behaviours of the code are kept as written:

- `Valid` does not check that the names are non-empty.
- `Observe` has no nil guard. `c.metrics` is set only when `EnablePrometheus`
  holds (ethclient.go:69-73), so with metrics disabled every operation
  dereferences nil and panics. `Client.Dispatch` and the operations therefore
  *require* `metrics != null`. `New` ensures `c.metrics != null` exactly when
  `EnablePrometheus` holds.
- `TransactionByHash` records its observations under the label
  `"BalanceAtTransactionByHash"`. This is kept as written and listed under
  Findings.

`New` also returns a backup-dial error without closing the main connection it
has already dialled. The model's step log (`Dial(Main)` followed by the error)
makes this visible, but connection closing is not modelled.

## Model

| member | source | states |
|---|---|---|
| `Configuration.Config.Valid` | config.go:23-31 | A config is accepted (nil error) iff both names are shorter than 32 bytes; a reported error names one of the two fields |
| `Configuration.ConfigError.Message` | config.go:24-29 | The error text is "invalid RpcName: " or "invalid RpcFailoverName: " followed by the offending name |
| `Configuration.ByteLen` | config.go:24-27 | Go's `len`: the UTF-8 byte count, between the character count and four times it, zero only for the empty name |
| `Configuration.AsciiByteLen` | config.go:24-27 | On ASCII names the byte length equals the character count |
| `Configuration.RpcNameCheckedFirst` | config.go:24-26 | When RpcName is too long, the error concerns RpcName, whatever FailoverRpcName is |
| `Configuration.FailoverRpcNameReported` | config.go:27-29 | A too-long FailoverRpcName is reported when RpcName passes |
| `Configuration.ValidIgnoresOtherFields` | config.go:23-31 | Two configs with the same names validate alike: URLs and the Prometheus flag are ignored |
| `Configuration.ValidAcceptsShortAsciiNames` | config.go:23-31 | Every pair of ASCII names of 0..31 characters is accepted, empty names included |
| `Configuration.ValidRejectsLongNames` | config.go:23-31 | Any name of 32 or more characters is rejected |
| `Configuration.NameLengthBoundary` | config.go:12-29 | A 32-character name is rejected (for either field); 31-character names are accepted |
| `Configuration.ConfigFromEnvPrefix` | config.go:42-49 | The loader yields the decoded config iff it passes Valid, and then it passes Valid; otherwise the process exits with the error's message |
| `Configuration.ConfigFromEnv` | config.go:33-40 | Same, under the default prefix "ethclient" |
| `Prometheus.LatencyBucketsArePowersOfTwo` | prometheus.go:25-27 | The buckets are the eleven powers of two 2..2048, strictly increasing |
| `Prometheus.FormatBool` | prometheus.go:67 | The success label is "true" for true and "false" for false |
| `Prometheus.FormatBoolInjective` | prometheus.go:67-72 | Different outcomes get different success labels |
| `Prometheus.Milliseconds` | prometheus.go:73 | A latency sample is the elapsed Duration in whole milliseconds, truncated toward zero, with the Duration's sign |
| `Prometheus.VectorLabels` | prometheus.go:24-51 | Counter and histogram carry the same const labels app and chain, set from the construction arguments; the variable labels are exactly method, client, success; the histogram uses the fixed buckets |
| `Prometheus.ObserveStep` | prometheus.go:63-74 | One observation increments the counter at its own key by one, appends its sample under the same key, and changes no other key |
| `Prometheus.CountIsOccurrences` | prometheus.go:63-68 | The counter at any key equals the number of observations made with that key |
| `Prometheus.SamplesAreLatencies` | prometheus.go:69-74 | The samples at any key are the latencies of the observations with that key, in order |
| `Prometheus.OneSamplePerCount` | prometheus.go:63-74 | Under every key the histogram holds exactly as many samples as the counter's value |
| `Prometheus.CountsAppend` | prometheus.go:63-68 | Further observations raise a counter by exactly the number of them that carry its key |
| `Prometheus.CountsMonotonic` | prometheus.go:63-68 | Counters never decrease |
| `Prometheus.NObservationsCountN` | prometheus.go:63-68 | Starting from zero, N observations with key k leave the counter at k equal to N |
| `Prometheus.Metrics.constructor` | prometheus.go:30-51 | newMetrics: empty vectors, unregistered, with the counter and histogram options for the given app and chain |
| `Prometheus.Metrics.Register` | prometheus.go:53-56 | Sets the registered flag; the vectors and the history are unchanged |
| `Prometheus.Metrics.Unregister` | prometheus.go:58-61 | Clears the registered flag; the vectors and the history are unchanged |
| `Prometheus.Metrics.Observe` | prometheus.go:63-74 | Increments the counter at (method, client, FormatBool(success)) by one and appends one millisecond sample under the same key; keeps the invariant; leaves registration unchanged |
| `EthClient.ShouldFailover` | ethclient.go:77-82 | False exactly for Canceled and DeadlineExceeded, true for every other error |
| `EthClient.DispatchTrace` | ethclient.go:84-101 | At most two attempts, main first; the backup is called iff the main error is non-nil and failover-eligible; one observation per attempt, in order, with the op label, that attempt's client name and success; the last attempt's reply is returned verbatim; the returned error is nil iff the last attempt succeeded |
| `EthClient.PrimarySucceeds` | ethclient.go:84-100 | Main succeeds: no backup call, one observation (op, RpcName, true), the main reply returned |
| `EthClient.PrimaryAborted` | ethclient.go:89-92 | Main canceled or past its deadline: no backup call, one observation (op, RpcName, false), the main result and error returned unchanged |
| `EthClient.PrimaryFailsOver` | ethclient.go:94-98 | Any other main error: one backup call, observations (op, RpcName, false) then (op, FailoverRpcName, backup succeeded), the backup's result and error returned |
| `EthClient.NoErrorSwallowed` | ethclient.go:84-101 | A nil returned error means the deciding attempt succeeded; if both calls fail an error is returned; a returned error is the main's or the backup's |
| `EthClient.DispatchCounts` | ethclient.go:87-97 | One operation raises the main attempt's counter key by one, the backup attempt's key by one more when the backup was called, and no other key |
| `EthClient.DispatchLabels` | ethclient.go:87-97 | Every observation of an operation carries that operation's label |
| `EthClient.TransactionByHashMislabelled` | ethclient.go:621-638 | A TransactionByHash call never moves a counter keyed "TransactionByHash" but does raise one keyed "BalanceAtTransactionByHash" |
| `EthClient.Construct` | ethclient.go:52-73 | New's order: validate first, with no dial if validation fails; main dial before backup dial, and the backup dial only after the main dial succeeds; success iff all three succeed; metrics registered iff success with Prometheus enabled, as the last step after both dials |
| `EthClient.New` | ethclient.go:41-75 | Follows Construct's steps and error; returns a client iff there is no error; the client holds the config and both dialled addresses; it has metrics iff Prometheus is enabled, and those metrics are fresh, registered and labelled with app and chain |
| `EthClient.Client.constructor` | ethclient.go:63-68 | The client struct: config and both connections set, no metrics yet |
| `EthClient.Client.Dispatch` | ethclient.go:84-101 | The dispatch sequence: the reply, the attempts appended to the log and the observations appended to the metrics history are those of DispatchTrace with RpcName and FailoverRpcName; the metrics invariant and registration are kept |
| `EthClient.Client.BalanceAt` | ethclient.go:84-101 | BalanceAt is dispatch labelled "BalanceAt", returning the deciding attempt's balance and error |
| `EthClient.Client.SendTransaction` | ethclient.go:488-505 | SendTransaction is error-only dispatch labelled "SendTransaction", with the same attempt and observation discipline |
| `EthClient.Client.TransactionByHash` | ethclient.go:621-638 | As written: dispatch labelled "BalanceAtTransactionByHash", returning both results and the error of the deciding attempt |
| `EthClient.Client.TransactionByHashCorrected` | ethclient.go:621-638 | With the label corrected: the same dispatch, and every observation it records is labelled "TransactionByHash" |

## Left out

- `EthClient.Client.Dispatch`, `BalanceAt`, `SendTransaction` and `TransactionByHash` require `metrics != null`, where the source panics on a nil dereference when Prometheus is disabled. The panic itself is not modelled.
- `EthClient.Client.constructor`: the client holds the Config by value. The source keeps the caller's `*Config` (ethclient.go:20, 44, 65) and reads `RpcName` and `FailoverRpcName` again on every call, while `Valid` runs only once in `New`. So a caller who changes its Config after `New` changes the labels of later observations, and a name of 32 bytes or more then escapes validation. The model does not capture this aliasing.
- The other ~28 operation wrappers: apart from their names and signatures they are identical to the three modelled ones.
- `Close` and the RPC transport (`ethclient.Dial`, go-ethereum types, subscriptions): these are calls into a foreign library. Dial outcomes are oracle parameters.
- The clock (`time.Now`, `time.Since`) and the float64 conversion of samples: latencies enter as a Duration in nanoseconds, and samples are integers.
- Prometheus internals: the registry, `MustRegister` panicking on duplicate registration, and bucket counting. Registration is a flag.
- `envconfig.MustProcess` parsing and its `required`/`default` handling: this is an external library, replaced by a function from prefix to config.
- zerolog logging and the default-logger fallback (ethclient.go:46-51), which are I/O only.
- Concurrent in-flight calls and the thread safety of counters: the model is sequential.
- Integer widths: counters and durations are unbounded integers. Go uses float64 counters and int64 durations.

## Findings

| source | as written | input that shows it | evidently intended | confidence | as-written member | corrected member |
|---|---|---|---|---|---|---|
| ethclient.go:624 | `TransactionByHash` observes under the method label "BalanceAtTransactionByHash" (also at line 634) | any call of TransactionByHash: the counter for ("TransactionByHash", RpcName, success) stays unchanged | the label is the operation's own name, "TransactionByHash", as in every other wrapper | high (not executed) | `EthClient.Client.TransactionByHash`, exhibited by `EthClient.TransactionByHashMislabelled` | `EthClient.Client.TransactionByHashCorrected` |
