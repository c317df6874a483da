# trilogy_aurora in Dafny

A model of `TrilogyAurora::Client`, the failover-aware wrapper around a raw Trilogy
(MySQL-protocol) connection. When Aurora promotes a new primary, the old connection
can briefly land on a read-only node. A write then fails with a server error whose
message contains `--read-only`. The client recognises that error. It then either
closes the connection and raises the error (`aurora_disconnect_on_readonly`), or it
warns, sleeps on a linear-then-capped backoff, reconnects and runs the query again,
up to `aurora_max_retry` times.

Files:

- `trilogy.dfy` (module `Trilogy`) models the raw client as seen from the wrapper.
  An `Oracle` fixes the server's answers in advance: the reply to the k-th query,
  whether the k-th `close` raises, and whether the k-th connection attempt is refused.
  The class `World` holds a cursor into those answers and an event log of every
  effect: `Queried`, `Warned`, `Slept`, `Closed`, `Connected`. The class `Connection`
  is one raw connection; it never changes once made.
- `trace.dfy` (module `Trace`) counts the events of a log by kind and lists the
  delays it slept.
- `client.dfy` (module `TrilogyAurora`) holds the classification rule, the backoff
  formula and the specification functions `DisconnectEffect`, `ReconnectEffect`,
  `Handle` (one pass through the `begin`/`rescue` block) and `QueryEffect` (a whole
  `query` call). It also holds the class `Client`, whose field `trilogy` is
  `@trilogy`. Its methods are proved against those functions. `Client.Query` is the
  `begin`/`rescue`/`retry` loop written as a `while` loop over `tryCount`.
- `properties.dfy` (module `TrilogyAuroraProperties`) proves what a call promises
  for every behaviour of the server.
- `scenarios.dfy` (module `TrilogyAuroraScenarios`) replays the cases of the
  repository's test suite on the class model against scripted servers.

The model follows the code:

- The `aurora_` options stay in the hash that reaches `::Trilogy.new`.
  The whole hash is passed on (`lib/trilogy_aurora/client.rb:11`), and both values
  are read back from the current connection's `connection_options` on every failure
  (lines 40 and 46).
- `aurora_max_retry` has no default. When it is missing, the comparison
  `try_count <= nil` on line 46 raises an `ArgumentError`. That happens before any
  warning, as soon as a read-only error is handled in retry mode. The model keeps
  the option as `Option<int>` and returns that `ArgumentError`. A negative value
  allows no retry.
- `reconnect!` on a client whose `@trilogy` is nil raises instead of installing a
  new connection. The no-op `disconnect!` runs first, then `@trilogy.connection_options`
  raises `NoMethodError`. Likewise, `query` on a nil `@trilogy` raises `NoMethodError`
  without asking the server.
- When the reconnection inside the retry loop is refused, the error of
  `::Trilogy.new` reaches the caller, not the read-only error. `@trilogy` keeps the
  old, closed connection.

## Model

| member | source | states |
|---|---|---|
| Trilogy.World.Connect | lib/trilogy_aurora/client.rb:11 | `::Trilogy.new(options)` uses the next connection answer of the server; it logs the attempt with its options and either raises the refusal or returns a fresh connection holding exactly those options |
| Trilogy.Connection.Query | lib/trilogy_aurora/client.rb:34 | the raw `query` logs the SQL and returns the server's next reply |
| Trilogy.Connection.Close | lib/trilogy_aurora/client.rb:23 | the raw `close` logs the close and reports whether it raised |
| Trilogy.World.Warn | lib/trilogy_aurora/client.rb:41-44 | `warn` appends one warning to the log and touches nothing else |
| Trilogy.World.Sleep | lib/trilogy_aurora/client.rb:52 | `sleep` appends one sleep of the given length to the log and touches nothing else |
| TrilogyAurora.Backoff | lib/trilogy_aurora/client.rb:47 | the delay never exceeds the 10-second ceiling and is never negative for a retry numbered from 1 |
| TrilogyAurora.Budget | lib/trilogy_aurora/client.rb:46 | the number of retries allowed is `aurora_max_retry` itself when it is present and not negative |
| TrilogyAurora.DisconnectEffect | lib/trilogy_aurora/client.rb:22-26 | `disconnect!` closes at most once (only a live connection) and never queries or connects |
| TrilogyAurora.ReconnectEffect | lib/trilogy_aurora/client.rb:15-19 | `reconnect!` succeeds only after exactly one close and one accepted connection with the old options; on a nil connection it raises `NoMethodError` with no effect |
| TrilogyAurora.Handle | lib/trilogy_aurora/client.rb:33-57 | an attempt retries only within the retry budget, after exactly five events ending in an accepted connection with the same options; every attempt starts by running the query |
| TrilogyAurora.QueryEffect | lib/trilogy_aurora/client.rb:30-59 | every call runs the query first, and it ends within the retry budget |
| TrilogyAurora.HandleReconnects | lib/trilogy_aurora/client.rb:53-57 | a retrying attempt installs exactly one new connection, and a finishing one installs none |
| TrilogyAurora.Client.New | lib/trilogy_aurora/client.rb:10-12 | construction connects at once with all the options; a refused connection is raised and no client is made |
| TrilogyAurora.Client.Disconnect | lib/trilogy_aurora/client.rb:22-26 | the method has no error result: it closes the connection if there is one, swallows whatever `close` raises and leaves `@trilogy` as it was |
| TrilogyAurora.Client.Reconnect | lib/trilogy_aurora/client.rb:15-19 | the world changes as `ReconnectEffect` says; on success `@trilogy` is a fresh connection, different from the old one, holding a copy of its options; on failure it is unchanged |
| TrilogyAurora.Client.Attempt | lib/trilogy_aurora/client.rb:33-57 | one pass of the `begin`/`rescue` block matches `Handle`: same reply, same events, same answers used; it asks for a retry exactly when `Handle` does, and then `@trilogy` is fresh |
| TrilogyAurora.Client.Query | lib/trilogy_aurora/client.rb:30-59 | the loop returns what `QueryEffect` returns from a retry count of 0 and leaves the log and the server's answers as it says; `@trilogy` is replaced exactly when the call reconnected; a nil `@trilogy` raises `NoMethodError` and changes nothing |
| TrilogyAuroraProperties.IncludesIffOccurs | lib/trilogy_aurora/client.rb:36 | the `include?` test holds exactly when the marker occurs at some offset of the message |
| TrilogyAuroraProperties.FailoverMessageIsReadOnly | spec/trilogy_aurora/client_spec.rb:74-78 | the server's failover message is classified as a read-only error |
| TrilogyAuroraProperties.NotReadOnly | lib/trilogy_aurora/client.rb:35-36 | an error that is not a `Trilogy::Error`, one with a nil message, and one whose message has no dash are never classified as read-only |
| TrilogyAuroraProperties.UnknownColumnIsNotReadOnly | spec/trilogy_aurora/client_spec.rb:98-104 | the "Unknown column" error is not classified as read-only |
| TrilogyAuroraProperties.Schedule | lib/trilogy_aurora/client.rb:47-52 | the delays of `n` retries in a row are the backoffs of their retry numbers, in order |
| TrilogyAuroraProperties.BackoffGrowsThenSaturates | lib/trilogy_aurora/client.rb:47 | the first retry waits 0 seconds; each later one waits 1.5 seconds more than the one before until the 10-second ceiling, reached at retry 8 |
| TrilogyAuroraProperties.TenRetriesSchedule | spec/trilogy_aurora/client_spec.rb:91-96 | ten retries wait 0, 1.5, 3, 4.5, 6, 7.5, 9, 10, 10 and 10 seconds |
| TrilogyAuroraProperties.RetriesExactlyWhen | lib/trilogy_aurora/client.rb:36-54 | an attempt retries if and only if the reply is a read-only error, the disconnect flag is off, `aurora_max_retry` is present and not used up, and the reconnection is accepted; the step is query, warning, sleep of the same delay, close, connect, in that order |
| TrilogyAuroraProperties.FinishedAttempt | lib/trilogy_aurora/client.rb:33-57 | an attempt that finishes runs one query, installs no connection, sleeps exactly when it tried to connect, warns once per close, and uses exactly the server answers it logged |
| TrilogyAuroraProperties.FinishReturnsGiven | lib/trilogy_aurora/client.rb:36-57 | an attempt that finishes returns its reply, the `ArgumentError` of a missing `aurora_max_retry`, or the error of the refused reconnection |
| TrilogyAuroraProperties.RetriedAttempt | lib/trilogy_aurora/client.rb:46-54 | a retry step runs one query, sleeps once for the backoff of its retry number, closes once and installs one connection |
| TrilogyAuroraProperties.QueryReconnectsWithinBudget | lib/trilogy_aurora/client.rb:38-57 | a call reconnects at most as often as `aurora_max_retry` allows and runs the query exactly once more than it reconnects |
| TrilogyAuroraProperties.QuerySleepsPairWithConnects | lib/trilogy_aurora/client.rb:41-53 | a call sleeps exactly as often as it tries to connect, warns exactly as often as it closes, and uses exactly those close and connect answers |
| TrilogyAuroraProperties.QuerySleepsOnSchedule | lib/trilogy_aurora/client.rb:47-52 | the delays a call sleeps are the backoff schedule from its first retry on, in order |
| TrilogyAuroraProperties.QueryReturnsWhatItWasGiven | lib/trilogy_aurora/client.rb:33-58 | a call returns the last reply, the `ArgumentError` of a missing `aurora_max_retry`, or the refusal of its last connection attempt; it never makes up another error |
| TrilogyAuroraProperties.ReconnectDespiteFailedClose | lib/trilogy_aurora/client.rb:15-26 | `reconnect!` installs a new connection exactly when the server accepts it, whether or not `close` raised |
| TrilogyAuroraProperties.DisconnectOnlyCloses | lib/trilogy_aurora/client.rb:22-26 | `disconnect!` causes one close on a live connection and nothing on a nil one |
| TrilogyAuroraProperties.UnclassifiedErrorPropagates | lib/trilogy_aurora/client.rb:34-36 | a success, or an error that is not a read-only error, comes back from the first attempt unchanged, with one query and no other effect |
| TrilogyAuroraProperties.DisconnectsInsteadOfRetrying | lib/trilogy_aurora/client.rb:40-45 | in disconnect mode a read-only error gives one query, one warning and one close, and is raised again: no sleep and no reconnect |
| TrilogyAuroraProperties.MissingMaxRetryRaisesArgumentError | lib/trilogy_aurora/client.rb:46 | without `aurora_max_retry`, a read-only error in retry mode turns into an `ArgumentError` after one query |
| TrilogyAuroraProperties.FailoverRunReconnects | lib/trilogy_aurora/client.rb:38-57 | `k` read-only errors in a row, each followed by an accepted reconnection, give `k` reconnects, connection attempts and closes, and return the reply after them |
| TrilogyAuroraProperties.FailoverRun | lib/trilogy_aurora/client.rb:38-57 | `k` read-only errors in a row give `k + 1` queries, `k` sleeps on the backoff schedule, `k` closes and `k` reconnects, and return the reply to the last attempt |
| TrilogyAuroraProperties.TenFailovers | spec/trilogy_aurora/client_spec.rb:81-96 | with `aurora_max_retry: 10` against a server stuck in read-only mode: 11 queries, 10 reconnects, sleeps 0 to 10 on the schedule, then the read-only error |
| TrilogyAuroraProperties.RecoversAfterTwoFailovers | lib/trilogy_aurora/client.rb:31-54 | two read-only errors and then a success return the rows after three queries and two reconnects, having slept 0 and 1.5 seconds |
| TrilogyAuroraProperties.AttemptOrdered | lib/trilogy_aurora/client.rb:38-54 | the events of one attempt are in order, and an attempt that finishes does not end on an unused connection |
| TrilogyAuroraProperties.QueryOrdered | lib/trilogy_aurora/client.rb:30-59 | in a whole call every query is the same SQL and every connection uses the same options; each sleep comes right after the failed query and the warning that names its delay, and right before the close and the connection attempt; an accepted connection is used at once for the same query |
| TrilogyAuroraProperties.OrderedAppend | lib/trilogy_aurora/client.rb:54 | the order of events is kept when a retry step is followed by the rest of the call |
| TrilogyAuroraScenarios.StuckServerRetriesTenTimes | spec/trilogy_aurora/client_spec.rb:81-96 | on the class model, a client with `aurora_max_retry: 10` against a server stuck in read-only mode runs 11 queries, reconnects 10 times, sleeps on the schedule and raises the read-only error |
| TrilogyAuroraScenarios.HealthyServerAnswersOnce | spec/trilogy_aurora/client_spec.rb:52-67 | a healthy server's rows are returned after a single raw query |
| TrilogyAuroraScenarios.UnknownColumnIsRaisedAtOnce | spec/trilogy_aurora/client_spec.rb:98-115 | an "Unknown column" error is raised after one query, with no reconnect |
| TrilogyAuroraScenarios.StandardErrorIsRaisedAtOnce | spec/trilogy_aurora/client_spec.rb:118-130 | any other `StandardError` is raised after one query, with no reconnect |
| TrilogyAuroraScenarios.DisconnectModeClosesOnce | spec/trilogy_aurora/client_spec.rb:33-49 | in disconnect mode the read-only error is raised after one query, one warning and one close |
| TrilogyAuroraScenarios.ReconnectAfterFailedClose | spec/trilogy_aurora/client_spec.rb:150-164 | `reconnect!` raises nothing and installs a different connection with the same options, even though `close` raised |
| TrilogyAuroraScenarios.SecondCallGetsFreshBudget | lib/trilogy_aurora/client.rb:31 | the retry count starts at 0 on every call: after one call has used up `aurora_max_retry: 1`, the next call still retries and succeeds |

## Left out

- The delegation through `method_missing`, `respond_to_missing?`, `self.method_missing`, `self.const_missing` and `self.const_defined?` (`lib/trilogy_aurora/client.rb:61-89`). It forwards to a library that is not part of this model and has no logic of its own.
- The ActiveRecord adapter and the constant swap in `lib/trilogy_aurora.rb`. They are glue around `TrilogyAdapter`, which is not part of this model.
- The real Trilogy client: sockets, authentication, result sets and the extra arguments `query(...)` forwards. The server is an oracle of replies, and rows are opaque.
- `String#squish` on the two warnings (`lib/trilogy_aurora/client.rb:41` and `:48`) comes from ActiveSupport, which the library does not load itself. The model assumes it is loaded, as it is under Rails and in the repository's test setup. Without it, both warning branches raise `NoMethodError` before warning, closing or sleeping, and that error reaches the caller instead of the read-only error.
- Real time and real output. `sleep` and `warn` are log events. The warning wording is not modelled, only which warning it is and, for a retry, its delay.
- Errors from `close` that are not `StandardError`s. `disconnect!` does not rescue those, and the model treats every `close` failure as rescued.
- `aurora_max_retry` values that are not integers (a float, a string). They are modelled only as present integers or absent.
- A closed connection's own behaviour. The oracle's replies do not depend on whether the connection that asks was closed before. So a `query` after disconnect mode is answered like any other query.
- Ruby's object identity beyond the connection handle. The options copied by `dup` are a value here, so "a copy" means equal options in a new connection.
- Concurrency. Each client is used by one caller at a time.
