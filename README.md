# rollrus in Dafny

This project models `rollrus`, a logrus hook that ships log entries to Rollbar. The model covers the sequential logic around its concurrent pipeline:

- **Field serialiser** (`Fields`, `fields.dfy`): `convertFields` turns logrus fields into the string map sent to Rollbar. A `time.Time` is written in RFC 3339 form. Any other `fmt.Stringer` uses its `String()`. Everything else uses `%+v`. The three renderings are parameters (`Formatters`), so every result holds for any choice of them. Field values carry their dynamic type as a tag (`Logrus.Value`). `IsStringer` records that `time.Time` is itself a Stringer, so the order of the type switch matters.
- **Configuration** (`Config`, `config.dfy`): `NewHookForLevels` fills in missing options. The defaults are trigger levels {Error, Fatal, Panic}, a channel buffer of capacity `2 * DefaultNumWorkers`, and `8 * runtime.NumCPU()` workers. `NumCPU` is an unspecified positive constant.
- **Lifecycle** (`Lifecycle`, `lifecycle.dfy`): a pure state machine for what `Fire` and `Close` do to a hook. It tracks the buffer contents, the buffer's closed flag, the `closed` signal, the `sync.Once` flag, how often Close's guarded body ran, and the `WaitGroup` counter. Lemmas over any sequence of calls prove three things. Close's body runs at most once. After a Close the shutdown is complete. The buffer holds exactly the fired entries, in order.
- **Hook** (`Rollrus`, `hook.dfy`): the class `Hook` with the fields the source updates in place. `Fire` and `Close` are proved to take exactly the steps of the state machine. The constructor `NewHookForLevels` is proved to start in that machine's initial state with the defaulted options. `Levels` only reads the triggers. `setupLogging` returns either a hook or the no-op closer, depending on the token. `ReportPanic` (package level and method) is modelled with Go's `recover()` rule as a function.

The Rollbar client is reduced to its settings (`Client(token, environment)`). What `Client.Critical` returns is a parameter. Output written to stderr is recorded in the result instead of printed.

Two observations about the code:
- `Levels` tests only for a nil slice, so an explicitly empty, non-nil trigger slice would be returned as is, giving an empty level set. No hook built in this package can have one, because `NewHookForLevels` replaces every empty `LogLevels` (`Rollrus.NewHookLevels`).
- The package-level `ReportPanic` is documented to report the panic when a token is set (rollrus.go:133). As written it cannot (see Findings).

## Model

| member | source | states |
|---|---|---|
| `Fields.ConvertValue` | rollrus.go:181-191 | A time value gives its RFC 3339 rendering. A non-time Stringer gives exactly its `String()`. Any other value gives its `%+v` rendering. |
| `Fields.ConvertFields` | rollrus.go:179-195 | The loop returns a map with exactly the input's keys. Each key maps to the conversion of that key's own value. |
| `Fields.ConvertedKeys` | rollrus.go:180-192 | Conversion neither adds nor drops a key, so the output has as many entries as the input. |
| `Fields.TimeWinsOverStringer` | rollrus.go:182-187 | A `time.Time` counts as a Stringer, yet it always takes the RFC 3339 path. Where the two renderings differ, its `String()` text is never produced. |
| `Fields.ConvertedLocal` | rollrus.go:181-191 | Two field maps that agree on a key give the same output for that key, so each entry depends only on its own value. |
| `Fields.ConvertedUpdate` | rollrus.go:181-191 | Setting one field changes only that key of the output, to the conversion of the new value. |
| `Fields.ConvertedUnion` | rollrus.go:179-195 | Converting the union of two field maps with disjoint keys gives the union of their conversions. |
| `Fields.UserAndTimestampExample` | rollrus.go:179-195 | `{"user": alice, "at": t}` becomes `{"user": %+v of alice, "at": RFC 3339 of t}`. |
| `Config.Defaulted` | rollrus.go:59-69 | After defaulting, every option is set. Empty levels become {Error, Fatal, Panic}. A nil buffer becomes a channel buffer of the default size. Zero workers become the default count. Any option that was set stays unchanged. |
| `Config.DefaultedFixedPoint` | rollrus.go:59-69 | Defaulting leaves a configuration unchanged exactly when all its options are already set. |
| `Config.DefaultedIdempotent` | rollrus.go:59-69 | Defaulting twice gives the same result as defaulting once. |
| `Config.EmptyConfigDefaults` | rollrus.go:52-69 | The empty configuration that `NewHook` passes gets every default. |
| `Config.DefaultTriggersAreErrorOrWorse` | rollrus.go:29-33 | A level is in the default trigger set exactly when it is Error, Fatal or Panic. |
| `Lifecycle.FireStep` | rollrus.go:143-146 | Fire appends the entry to the buffer and changes nothing else. |
| `Lifecycle.CloseStep` | rollrus.go:159-167 | The first Close runs the body: it closes `closed` and the buffer and counts one body run. A later Close leaves these unchanged. Every Close ends with no live worker and the queue untouched. |
| `Lifecycle.StepKeepsConsistent` | rollrus.go:143-167 | Fire and Close preserve the link between the once flag, the body-run count, the closed signal, the closed buffer and the worker count. |
| `Lifecycle.RunConsistent` | rollrus.go:159-167 | Any sequence of calls preserves that invariant. Afterwards the once flag is set exactly when it was set before or some call was a Close. |
| `Lifecycle.CloseBodyAtMostOnce` | rollrus.go:159-163 | From a new hook, any sequence of calls runs Close's body at most once. It runs exactly once when the sequence contains a Close. |
| `Lifecycle.CloseIsBarrier` | rollrus.go:159-166 | After any sequence that contains a Close, the signal is raised, the buffer is closed and no worker is live. |
| `Lifecycle.RunQueue` | rollrus.go:143-146 | The buffer holds the fired entries in firing order. In the model this holds with Close calls interleaved anywhere; a push after Close is the model's choice (see Left out). |
| `Lifecycle.FireOnly` | rollrus.go:143-146 | Without a Close, only the queue changes: no shutdown happens and every worker stays live. |
| `Rollrus.Hook.NewHookForLevels` | rollrus.go:58-91 | The constructor builds a hook from the defaulted configuration. Its triggers, buffer and worker count are the defaulted ones. All workers are counted in the WaitGroup, and nothing is queued or closed. |
| `Rollrus.Hook.Levels` | rollrus.go:170-175 | Levels returns the triggers, or the default set when they are nil. It is empty only for an explicitly empty trigger slice. |
| `Rollrus.Hook.Fire` | rollrus.go:143-146 | Fire returns nil and takes exactly the state machine's Fire step. |
| `Rollrus.Hook.Close` | rollrus.go:159-167 | Close returns nil, takes exactly the state machine's Close step and keeps the hook's invariant. |
| `Rollrus.NewHookLevels` | rollrus.go:170-175 | A hook built by `NewHookForLevels` reports the configured levels, or the default set when none were configured. The set is never empty. |
| `Rollrus.CloseTwice` | rollrus.go:159-167 | Two Close calls on any valid hook both return nil. The hook stays valid, its new state is the state machine's Close step of the old one, and the body has run exactly once in total. |
| `Rollrus.NoopClose` | rollrus.go:19-21 | The no-op closer's Close returns nil. |
| `Rollrus.SetupLogging` | rollrus.go:106-119 | Models the unexported `setupLogging(token, env, config)`. The result is the no-op closer exactly when the token is empty. Otherwise it is a new valid hook with the given client settings, in its initial state, whose triggers, buffer and worker count are those of the defaulted configuration. With an empty token the configuration is not read, so a negative worker count is accepted there. |
| `Rollrus.SetupLoggingForLevelsReportsLevels` | rollrus.go:95-104 | With a token, the returned hook reports the configured levels, or {Error, Fatal, Panic} when none are configured (as with the exported `SetupLogging`). The reported set is never empty. |
| `Rollrus.CloseCloser` | rollrus.go:17-21 | Closing whatever `setupLogging` returned gives nil. For a hook the new state is exactly the state machine's Close step of the old one, so the queue is kept and the shutdown completes. |
| `Rollrus.SetupAndCloseWithoutToken` | rollrus.go:109-116 | With an empty token, setting up and then closing returns nil for every configuration, including a negative worker count. |
| `Rollrus.Recover` | rollrus.go:125 | `recover()` returns the panic in flight only when called directly by a deferred function. Otherwise it returns nil. |
| `Rollrus.HookReportPanic` | rollrus.go:124-131 | The recovered panic is reported. A failed report is printed with its error. For every non-nil panic value, and for no panic, the panic propagates unchanged, so reporting never masks it. A nil panic value is not modelled (see Left out). |
| `Rollrus.ReportPanic` | rollrus.go:134-139 | A client is created exactly when the token is non-empty. With an empty token nothing is reported or printed. The panic propagates unchanged. |
| `Rollrus.ReportPanicMissesPanic` | rollrus.go:134-139 | As written, with a token set and a panic in flight, nothing is reported. |
| `Rollrus.ReportPanicRecovering` | rollrus.go:134-139 | Corrected version: with a token set, the panic in flight is reported and a failed report is printed. Without a token nothing happens. The panic propagates unchanged for every non-nil panic value. |

## Findings

| source | as written | input that shows it | evidently intended | confidence | as-written member | corrected member |
|---|---|---|---|---|---|---|
| rollrus.go:134-139 | `ReportPanic(token, env)` calls `h.ReportPanic()`, and that method calls `recover()`. Used as `defer ReportPanic(token, env)`, `recover()` is not called directly by the deferred function, so it returns nil. | a non-empty token while a panic is in flight: nothing reaches Rollbar | the panic in flight is reported, then re-raised | high (Go's `recover` rule), not executed | `Rollrus.ReportPanicMissesPanic` | `Rollrus.ReportPanicRecovering` |

## Left out

- The worker goroutines, the `chan chan job` pool and the dispatch loop are not modelled. That includes matching entries to workers, the severity mapping and the report call. They exist for concurrency, and `newWorker` is not part of this model.
- Rollrus.Hook.Close: `wg.Wait()` is modelled as the WaitGroup counter dropping to zero. This abstracts the workers, which observe `closed` and call `Done`. Concurrent callers of Close are not modelled; the once-guard is checked for one caller making any sequence of calls.
- The buffer packages (`buffer`, `buffer/channel`) are not part of this model. The buffer is the sequence of pushed entries plus a closed flag. Draining and capacity are not modelled.
- Rollrus.Hook.Fire: after Close the model still records the push and returns nil. In the code, Fire pushes to the buffer that Close closed; with the default channel buffer that push may panic (a send on a closed channel) or block. Which one happens depends on the buffer implementation, which is not part of this model. `Lifecycle.RunQueue` and `Lifecycle.FireStep` inherit this choice.
- Aliasing of the trigger slice is not modelled. In Go, `triggers` shares its backing array with the caller's `config.LogLevels` or with the package-level `defaultTriggerLevels`, so later writes to that slice change what `Levels()` returns. The model's `triggers` is an immutable sequence.
- Entries still queued when Close runs (the late-entry race) are not modelled, because the dispatcher is not modelled.
- `Client.Critical` and the report call are network I/O. Their result is a parameter, and the message text `fmt.Errorf("panic: %q", p)` is not modelled.
- The stderr write is recorded as the error printed, not as the formatted line.
- Panic propagation is modelled as the value still in flight, not as Go's unwinding.
- Rollrus.HookReportPanic: a nil panic value (`panic(nil)`) is not modelled. `Option<PanicValue>` uses `None` for "no panic in flight". Under Go's semantics before 1.21 (a go.mod below 1.21, or GODEBUG `panicnil=1`), `recover()` then returns nil but still stops the panic. The `p != nil` test skips both the report and the re-panic, so the panic is swallowed. The same holds for `Rollrus.ReportPanicRecovering`. From Go 1.21 on, `panic(nil)` raises a non-nil `*runtime.PanicNilError`, which the model covers as an ordinary panic value.
- `log.SetFormatter` and `log.AddHook` in `setupLogging` change logrus's global state and are not modelled. The choice of which entries reach Fire is logrus's, based on `Levels`.
- `NewHook`, `SetupLogging` and `SetupLoggingForLevels` only forward their arguments. They are covered by the members they call (`Config.EmptyConfigDefaults` for the empty configuration).
- The `Hook` embeds `roll.Client`, so it can be used as a Rollbar client itself. That use is not modelled.
- `runtime.NumCPU()` is an unspecified positive constant.
- The internals of `time.Format`, `String()` and `fmt.Sprintf("%+v")` are parameters. Whether `%+v` gives a non-empty string cannot be stated.
- A negative `NumWorkers` with a non-empty token is excluded by a precondition, because `make` panics on a negative channel capacity when the hook is built. With an empty token the configuration is never read, so any `NumWorkers` is accepted there (`Rollrus.SetupLogging`, `Rollrus.SetupAndCloseWithoutToken`).
