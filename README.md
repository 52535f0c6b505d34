# influx-daylight in Dafny

`influxdl` is a long-running process. It works out the next sunrise or sunset
for a fixed location, waits for it, then writes an annotation (a labelled
instant) to an InfluxDB/Grafana-style HTTP annotations endpoint, and repeats.
This project models its three pieces of logic, all in `cmd/influxdl/main.go`.
It proves what each piece promises.

- `scheduler.dfy` (module `Scheduler`): the selection rule `nextTime`. Instants
  are integers counting nanoseconds. The astronomical calculation
  (`sunrise.SunriseSunset`) is a function parameter `Almanac` from location
  and calendar date to a sunrise and a sunset. The local-time calendar date of
  an instant (`Year`/`Month`/`Day`) is a function parameter `Calendar`.
  `now.Add(24 * time.Hour)` is the addition of `Day` nanoseconds.
- `annotation.dfy` (module `Annotation`): `addAnnotation`, as the request
  record it builds and the single round-trip it makes. `url.Parse`,
  `json.Marshal` and `http.NewRequest` are the function fields of `Library`.
  Each may fail. `http.DefaultClient.Do` is a `Transport` function returning
  either a response or an error.
- `dispatcher.dfy` (module `Dispatcher`): the `for`/`select` loop of
  `app.Action`. The class `Loop` records what it observably does: its
  annotation calls, its log lines and how many times it reached the top of
  the loop. `Iterate` is one pass. `Run` is the first `n` passes of the
  unbounded loop. The timer/signal race is an input, `Pass`: the clock
  reading `nextTime` takes in that pass, together with which side of the
  `select` won. A fired timer also carries the network's behaviour for that
  pass.
- `wrappers.dfy` (module `Wrappers`): `Option` and `Result`.

The comment at `cmd/influxdl/main.go:118` says the loop runs "until the next
time occurs or a signal is received", and the `return nil` at line 137 exists
to be reached after a signal. As written, though, the `break` at line 133
leaves only the `select`, so the `for` at line 119 goes round again and line
137 is unreachable. The model follows the code: a signal pass writes nothing
and the loop continues (`SignalDoesNotStop`).
A reader might expect the chosen instant always to lie in the future. The
code guarantees this only while one of today's two events is still ahead:
`NoFutureGuaranteeWhenBothPassed` shows an almanac for which the third branch
returns a past instant.

## Model

| member | source | states |
|---|---|---|
| Scheduler.NextTime | cmd/influxdl/main.go:18-47 | the label is "sunrise" or "sunset"; it is "sunset" exactly when today's sunrise is not after `now` and today's sunset is, and the instant is then today's sunset; while either of today's events is ahead, the instant is strictly after `now` |
| Scheduler.SunriseAhead | cmd/influxdl/main.go:32-34 | if today's sunrise is after `now`, the result is (today's sunrise, "sunrise") |
| Scheduler.SunsetAhead | cmd/influxdl/main.go:35-37 | if today's sunrise is not after `now` but today's sunset is, the result is (today's sunset, "sunset") |
| Scheduler.BothPassed | cmd/influxdl/main.go:38-46 | if neither of today's events is after `now`, the result is the sunrise of the date of `now + 24h`, labelled "sunrise"; that date's sunset has no influence |
| Scheduler.NoFutureGuaranteeWhenBothPassed | cmd/influxdl/main.go:38-46 | on the third branch the chosen instant can lie in the past: it depends only on the almanac |
| Scheduler.SameWindowSameEvent | cmd/influxdl/main.go:24-37 | two clock readings on the same date, on the same side of today's sunrise and sunset, with an event ahead, choose the same event |
| Scheduler.ReachedEventNotReselected | cmd/influxdl/main.go:32-37 | once the clock has reached an event chosen from today's table, a later choice from the same table lies strictly after it and has the other label |
| Annotation.UnixSeconds | cmd/influxdl/main.go:56 | `t.Unix()` is the whole second containing `t`, rounded towards minus infinity |
| Annotation.BuildRequest | cmd/influxdl/main.go:49-71 | a parse failure is returned as-is; any other failure is the encoder's or the request constructor's; on success: method POST, path `/api/annotations` whatever the address's path, every other URL part kept, exactly the headers `Content-Type: application/json` and `User-Agent: Influx Daylight`, Basic credentials present iff both strings are non-empty and then equal to them, body `{time: t in unix seconds, isRegion: false, text}`, and the encoded bytes those of that body |
| Annotation.AddAnnotation | cmd/influxdl/main.go:49-78 | a build error is returned; after a built request, no error iff the round-trip completes, else the transport's error |
| Annotation.ParseFailureSendsNothing | cmd/influxdl/main.go:50-53 | a failed address parse returns its error and the transport cannot influence the result |
| Annotation.StatusIgnored | cmd/influxdl/main.go:72-77 | a completed round-trip returns no error whatever the response |
| Annotation.SecondPrecision | cmd/influxdl/main.go:55-59 | instants within the same second build the same request |
| Dispatcher.PassWrites | cmd/influxdl/main.go:120-134 | a fired pass makes exactly one write, with the label and instant of that pass's `nextTime`; a signal pass makes none |
| Dispatcher.Failures | cmd/influxdl/main.go:129-131 | a line is logged exactly when it is the message of some failed write; nothing is logged iff no write failed; there are never more log lines than writes |
| Dispatcher.Loop.constructor | cmd/influxdl/main.go:112-119 | the loop starts with no writes, no log lines and no passes |
| Dispatcher.Loop.Iterate | cmd/influxdl/main.go:119-135 | one pass appends that pass's writes, logs each failed write's message and nothing else, and returns to the top of the loop |
| Dispatcher.Loop.Run | cmd/influxdl/main.go:119-135 | `n` passes append the writes of those passes in order, and control returns to the top of the loop `n` times |
| Dispatcher.RunWritesAppend | cmd/influxdl/main.go:119-135 | the writes of consecutive passes are the writes of the first part followed by those of the second part |
| Dispatcher.WritesFollowFiredPasses | cmd/influxdl/main.go:120-131 | the number of writes equals the number of fired passes, and the k-th write carries the label and instant `nextTime` gave the k-th fired pass: no retry, no duplicate |
| Dispatcher.WriteErrorsFromAddAnnotation | cmd/influxdl/main.go:123-131 | the error recorded with the k-th write is what `addAnnotation` returned for the k-th fired pass |
| Dispatcher.SignalDoesNotStop | cmd/influxdl/main.go:119-135 | a signal pass writes nothing, and the passes after it write what they would have written without it |
| Dispatcher.NetworkDoesNotSteer | cmd/influxdl/main.go:123-131 | write errors change nothing but the log: with other network answers, the same passes make the same number of writes with the same labels and instants |

## Left out

- The astronomical computation (`sunrise.SunriseSunset`) is floating-point numerics in a foreign library. It is the parameter `Almanac`. Polar day and night are whatever that function reports.
- Latitude and longitude are parsed as `float64`. They are kept as opaque `real` values, since they are only passed on.
- `time.Now()` per pass is the `now` of each `Pass`. Local-time calendar fields are the `Calendar` parameter. The int64 range of `time.Time`, `time.Duration` and `Unix()` is not modelled: instants are unbounded integers.
- `url.Parse`, `u.String()`, `json.Marshal`, `http.NewRequest` and `http.DefaultClient.Do` are modelled only as success or error plus the request record. Wire encodings, header-key canonicalisation and the `Authorization` header that `SetBasicAuth` writes are not modelled; the credentials are a separate field of the request.
- `resp.Body.Close()` releases a connection. It has no effect on the result, so it is not modelled.
- The real waiting (`time.After(time.Until(t))`), `signal.Notify` and the unbuffered signal channel are concurrency. A signal arriving outside the `select` may be lost. Each pass's outcome is an input instead.
- The loop does not terminate, so `Run` models only a finite prefix of its passes.
- Dispatcher.Loop.Run: assumes every round-trip returns. `http.DefaultClient` has no timeout, so `Do` at `cmd/influxdl/main.go:72` may block forever; that pass would then never end and no later signal would be received. Every `Transport` in the model answers, so this hang is not modelled.
- Command-line flags, environment variables and their defaults (`cmd/influxdl/main.go:81-111`), `app.Run` and the `log.Fatal` at start-up are configuration plumbing. `Config` holds the values they produce.
