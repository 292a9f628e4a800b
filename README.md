# Request-correlated logging middleware, modelled in Dafny

This project models the correlation engine of `jtwatson/logger`. That is a Go HTTP
middleware that writes one parent log entry per request and ties it, through a
shared trace id, to the child entries logged while the request was handled. The
repository holds two versions of the same design:

- the exporter version, in `gcp.go`;
- the older build-tag version, in `handler.go`, `gcplogger.go` and `logger.go`.

Their logic is the same, so one model covers both. The console exporter in
`console.go` is modelled as well.

Modules (one file each):

- `Severities` (`severities.dfy`): the Cloud Logging severity scale, ordered by the library's integer codes. Also holds `Raise`, the compare-and-raise step, and `Highest`, the maximum over a sequence.
- `Entries` (`entries.dfy`): payloads, the call-site span and log entries. `Normalize` replaces an `error` payload with its message text.
- `Aggregator` (`aggregator.dfy`): the per-request logger (`gcpLogger` / `GCPLogger`) as a class. `maxSeverity` and `logCount` are its fields, and a ghost sequence holds the child entries it has forwarded. Its invariant `Valid()` says the two counters are exactly the maximum severity and the number of the forwarded entries, and that every forwarded entry carries the logger's fixed trace id.
- `Carrier` (`carrier.dfy`): the request context as a chain of key/value layers, plus `FromContext`, `FromRequest` and `NewContext`.
- `Trace` (`trace.dfy`): the trace-id precedence (header, then context span, then a new span) and the `projects/{p}/traces/{id}` resource name.
- `ContentLength` (`request_size.dfy`): `requestSize` over a model of Go's `strconv.Atoi`.
- `Observer` (`observer.dfy`): the response observer `statusWriter` as a class.
- `Middleware` (`middleware.dfy`): the request procedure `Serve`, the specification function `Outcome` that it meets, and the suppression and escalation properties.
- `Exporter` (`exporter.dfy`): the `GoogleCloudExporter` configuration object.
- `Console` (`console.dfy`): ANSI colour wrapping, the level table, the line layout and the console exporter.

The inner HTTP handler is modelled by what it does to the two objects the
middleware gives it: a script of log calls, `WriteHeader` calls and `Write`
calls. `Serve` replays the script in order against a fresh `RequestLogger` and a
fresh `StatusWriter`. The loop invariants tie the two objects to functions of the
script prefix already run. The parent entry is returned, and the child entries
come back as a ghost sequence.

Where the code and its tests disagree, the model follows the code:

- `NewGoogleCloudExporter` leaves `logAll` false (gcp.go:25-31), although gcp_test.go:44 expects true.
- `consolef` puts the request method before the path. With an empty method this gives two spaces after the colon, while console_test.go:221-230 expects one. `Console.EmptyMethodDoubleSpace` states this.

The exporter's middleware holds a pointer to the exporter, so it reads `logAll` and
`projectID` on each request (gcp.go:54-68). `GoogleCloudExporter.ServeHTTP` reads
the fields at call time for this reason. The build-tag handler copies `logAll` when
it is built (handler.go:34-53), so there the configuration is a value. The console exporter's
middleware also keeps a pointer to its exporter and reads `noColor` only when it is
applied to the inner handler (console.go:35-44), so `Console.Wrap` reads it then.

## Model

| member | source | states |
|---|---|---|
| Severities.Code | gcp.go:185 | the integer codes are the multiples of 100 from 0 to 800, and only `Default` has code 0 |
| Severities.BelowIsStrictTotal | gcp.go:73 | `Below`, Go's `<` on severities, is irreflexive and asymmetric, relates any two distinct levels one way, and nothing is below `Default` |
| Severities.Raise | gcp.go:185-187 | the new maximum is at least the old maximum and the call's severity, and is one of the two |
| Severities.Highest | gcplogger.go:34-40 | the aggregated severity bounds every call's severity and is either `Default` or one of them |
| Severities.HighestAppend | gcplogger.go:36-38 | raising the running maximum with one more call gives the maximum of the longer call sequence |
| Severities.HighestIsLeast | gcp.go:185-187 | the aggregated severity is the least upper bound: no higher than any bound of all calls |
| Entries.Normalize | gcp.go:191-193 | an `error` payload becomes its message text; every other payload passes through unchanged; no `error` is forwarded |
| Entries.ChildEntry | gcp.go:195-207 | a child entry carries the call's severity, the normalised payload (never an `error`), the logger's trace id and the call-site span, with no timestamp and no HTTP block |
| Aggregator.SummarizesAppend | gcp.go:184-189 | one more forwarded entry with the logger's trace id keeps the counters summarising: the count grows by one and the maximum is raised by the entry's severity |
| Aggregator.RequestLogger.constructor | gcp.go:136-141 | a new logger keeps the given trace id, with maximum `Default`, count 0 and nothing forwarded |
| Aggregator.RequestLogger.Log | gcp.go:183-208 | the maximum becomes the larger of the old one and the severity, the count goes up by exactly one, and one child entry is forwarded with the call's severity, the normalised payload, the logger's trace id and the call-site span; the invariant is kept |
| Aggregator.RequestLogger.Snapshot | gcp.go:63-66 | the pair read after the handler is the highest severity of all forwarded entries and their number |
| Aggregator.RequestLogger.Debug | gcplogger.go:61-64 | one call at severity Debug |
| Aggregator.RequestLogger.Debugf | gcplogger.go:66-69 | one call at severity Debug with the formatted text as payload |
| Aggregator.RequestLogger.Info | gcplogger.go:71-74 | one call at severity Info |
| Aggregator.RequestLogger.Infof | gcplogger.go:76-79 | one call at severity Info with the formatted text as payload |
| Aggregator.RequestLogger.Warn | gcplogger.go:81-84 | one call at severity Warning |
| Aggregator.RequestLogger.Warnf | gcplogger.go:86-89 | one call at severity Warning with the formatted text as payload |
| Aggregator.RequestLogger.Error | gcplogger.go:91-94 | one call at severity Error |
| Aggregator.RequestLogger.Errorf | gcplogger.go:96-99 | one call at severity Error with the formatted text as payload |
| Carrier.HeaderGet | handler.go:100 | a present header gives its value; an absent one gives the empty string |
| Carrier.Lookup | logger.go:23 | a found value is the one of the innermost layer with the key, no layer above it having that key; nothing is found exactly when no layer has the key |
| Carrier.FromContext | logger.go:19-29 | a nil context gives `StdErrLogger`; the result is either `StdErrLogger` or the logger `Lookup` finds under the key; a logger found under the key is the one returned, a value of another type gives `StdErrLogger`, and so does a context with nothing under the key |
| Carrier.FromRequest | logger.go:33-39 | a nil request gives `StdErrLogger`; otherwise the logger of the request's context |
| Carrier.NewContext | logger.go:42-44 | the derived context yields the installed logger, and every other key resolves as in the parent |
| Carrier.WrongTypeFallsBack | logger.go:23-26 | a value of the wrong type under the key yields `StdErrLogger` |
| Carrier.ForeignLayersTransparent | logger.go:23-28 | a layer under another package's key does not change which logger is found |
| Carrier.InnermostWins | logger.go:42-44 | after two installs the later logger is found |
| Trace.SelectTraceID | gcp.go:103-114 | header id first, else the valid context span's id, else the new span's id |
| Trace.TraceIDFromRequest | gcp.go:102-117 | the resource name reads back, for the same project, as the selected id |
| Trace.ResourceName | gcp.go:116 | the resource name is the `projects/{p}/traces/` prefix followed by the id |
| Trace.ResourceNameRoundTrip | gcp.go:116 | `projects/{p}/traces/{id}` parses back to `id` |
| Trace.ResourceNameInjective | handler.go:124 | within a project, different ids give different resource names |
| Trace.HeaderWinsExample | gcp_test.go:356-367 | a header id and a context span both present: the header id is used, as `projects/my-project/traces/105445aa7843bc8bf206b12000100000` |
| ContentLength.Atoi | handler.go:128 | an accepted value fits in 64 bits |
| ContentLength.RequestSize | handler.go:127-134 | the value `Atoi` accepts, or 0 for anything it rejects; never an error; always within 64 bits |
| ContentLength.RequestSizeRoundTrip | handler.go:127-134 | every 64-bit integer written in decimal is read back as itself |
| ContentLength.NonNumericGivesZero | handler.go:128-131 | any character that is neither a digit nor a leading sign makes the size 0 |
| ContentLength.EmptyAndBareSign | handler.go:128-131 | empty text (an absent header) and a sign alone give 0 |
| ContentLength.OutOfRangeGivesZero | handler.go:128-131 | a value past 64 bits gives 0; minus 2^63 is accepted |
| ContentLength.Examples | handler_test.go:322-356 | "20" gives 20 and "xxx" gives 0 |
| Observer.ReportedStatus | handler.go:142-148 | the reported status is never 0: 200 for an unset status, the stored status otherwise |
| Observer.ReportedStatusIdempotent | handler.go:156-158 | recording the reported status does not change what is reported |
| Observer.StatusWriter.constructor | gcp.go:59 | a new observer has status 0, length 0 and has forwarded nothing |
| Observer.StatusWriter.Status | handler.go:142-148 | the status read is never 0: 200 when none was stored, the stored one otherwise |
| Observer.StatusWriter.WriteHeader | handler.go:150-153 | the status becomes `s`, the call is forwarded, and the length is unchanged |
| Observer.StatusWriter.Write | handler.go:155-167 | an unset status is recorded as 200, so `Status()` does not change; the length grows by the wrapped writer's count; that count is returned; an error comes back wrapped exactly when the wrapped writer failed |
| Observer.WriteWithoutHeader | handler_test.go:455-463 | writing 10 bytes with no header gives status 200 and length 10 |
| Observer.HeaderWithoutWrite | handler_test.go:369-374 | a 403 header with no write gives status 403 |
| Observer.FailedWriteCounts | handler_test.go:478-489 | a failing 20-byte write still counts 20 bytes, keeps status 201 and returns an error |
| Middleware.NewRequestLogger | handler.go:23-25 | the handler for the project logs every request |
| Middleware.NewLogger | handler.go:30-32 | the handler for the project logs only requests that logged something |
| Middleware.Escalate | gcp.go:72-75 | the parent severity never lowers the maximum, is the maximum or Error, is at least Error for a status above 399, and is the maximum otherwise |
| Middleware.ParentRecord | gcp.go:79-96 | the parent entry has the start time, the given severity, the message "Parent Log Entry", the trace id and span, and an HTTP block with the method, the URL, the request size parsed from the `Content-Length` header (within 64 bits), the clock's latency, the status, the byte count and the forwarded-for address |
| Middleware.Outcome | gcp.go:63-96 | no parent entry exactly when `logAll` is off and there is no child entry; a parent entry has the request's trace id and a non-zero status |
| Middleware.Replay | gcp.go:61 | after the inner handler's effects the logger holds one child entry per log call, and the observer's status and byte count are those of the script |
| Middleware.Serve | gcp.go:54-97 | one request meets `Outcome`; the child entries are those of the handler's log calls; the handler's context is the incoming one plus one cloud logger, with the request's trace id, whose invariant holds and whose forwarded entries are exactly the children, so its counters are the ones the parent is built from; the handler's request differs only in its context |
| Middleware.ChildEntriesSummary | gcplogger.go:48-57 | one child entry per log call, with that call's severity, the request's trace id and no HTTP block |
| Middleware.SuppressedIffQuiet | handler.go:78-80 | no parent entry exactly when `logAll` is off and the handler made no log call |
| Middleware.LogAllEmitsParent | gcp.go:68-96 | with `logAll` on there is exactly one parent entry, even with no child entries |
| Middleware.EscalationRule | handler.go:82-85 | with status above 399 and no call at Error the parent is exactly Error; once a call reached Error the parent is the calls' maximum |
| Middleware.ParentSeverity | gcp.go:63-81 | the parent's severity is the escalated maximum of the handler's log calls |
| Middleware.ParentCorrelatesChildren | gcp.go:79-96 | the parent has the children's trace id, which reads back as the selected id, the message "Parent Log Entry", the observer's non-zero status and its byte count |
| Middleware.NoHeaderReadsOK | handler.go:142-158 | a handler that never sets a header ends with status 200 |
| Middleware.LastHeaderWins | handler.go:150-158 | the last non-zero header set is the reported status, whatever is written after it |
| Middleware.QuietRequestSeparatesHandlers | handler.go:19-32 | on a request with no log call, `NewRequestLogger` emits a parent entry and `NewLogger` emits none |
| Exporter.GoogleCloudExporter.constructor | gcp.go:24-31 | stores the client, the project and the options, and leaves `logAll` off |
| Exporter.GoogleCloudExporter.LogAll | gcp.go:33-39 | sets `logAll`, returns the same exporter and changes nothing else |
| Exporter.GoogleCloudExporter.Middleware | gcp.go:44-52 | parent and child loggers are the client's `request_parent_log` and `request_child_log` with the exporter's options |
| Exporter.GoogleCloudExporter.ServeHTTP | gcp.go:54-97 | a request is served with the exporter's project and `logAll` as they are at that moment; the parent entry, if any, goes to the parent sink and every child entry, in order, to the child sink |
| Console.Label | console.go:66-103 | every level prints a 5-character label |
| Console.ColorOf | console.go:11-16 | every level prints in one of the four colours gray, blue, yellow and red |
| Console.ColorPrint | console.go:113-119 | without colour the label is unchanged; with colour it is the label between a 5-character colour sequence and the reset |
| Console.ColorPrintRoundTrip | console.go:118 | for a two-digit code the coloured label reads back as that code and the label |
| Console.LevelTable | console.go:9-16 | labels are 5 characters wide, levels have distinct labels and colours, and the colours are two-digit codes |
| Console.ConsoleLine | console.go:105-107 | the line is as long as label, ": ", path, space and message; without colour it starts with the label, and it ends with the message |
| Console.ConsoleLineF | console.go:109-111 | the line is as long as label, ": ", method, space, path, space and text; without colour it starts with the label, and it ends with the text |
| Console.ConsoleLineLayout | console.go:105-107 | a line is the coloured label (reading back as the level's colour and label), then ": ", the path, a space and the message |
| Console.ConsoleLineFLayout | console.go:109-111 | a formatted line is the coloured label (reading back as the level's colour and label), then ": ", the method, a space, the path, a space and the formatted text |
| Console.WarnLineExample | console_test.go:223 | the Warn line for `/health` with colour is ESC[33m "WARN " ESC[0m ": /health disk low" |
| Console.EmptyMethodDoubleSpace | console.go:109-111 | with an empty method the formatted line has two spaces after the colon and differs from the plain line |
| Console.HandlerCalls | console.go:50-53 | `next` is called once, with the same request except for its context, which is the incoming context plus a console logger for the request |
| Console.ConsoleExporter.constructor | console.go:23-26 | a new console exporter has colour on |
| Console.ConsoleExporter.NoColor | console.go:28-33 | sets `noColor` and returns the same exporter |
| Console.ConsoleExporter.Middleware | console.go:35-44 | the middleware refers to the exporter itself, so `noColor` is not read yet |
| Console.Wrap | console.go:37-42 | applying the middleware builds a handler with the exporter's `noColor` as it is at that moment |
| Console.NoColorAfterMiddleware | console.go:28-44 | `NoColor(true)` called after `Middleware()` but before the middleware is applied gives a colourless handler |

## Left out

- Transport: the Cloud Logging client's `Log` calls are modelled as entries returned by `Serve` (parent) or kept in a ghost sequence (children). Sink failures, batching and the client's own timestamping are not modelled.
- Tracing libraries: parsing `X-Cloud-Trace-Context`, `SpanFromContext`, span validity and starting a span are not modelled. The header id, the context span and the new span are `Option`/`string` inputs (`TraceSources`), and the call-site span id and sampled flag are a `SpanContext` input.
- Concurrency: the mutex in `gcpLogger` / `GCPLogger` is modelled by making each `Log` one atomic step. Interleavings of concurrent callers are not modelled.
- Time: `time.Now` and `time.Since` become the `Clock` input (start time and latency).
- Formatting: `fmt.Sprintf` of the `*f` wrappers and `%s` of arbitrary values are not modelled. Formatted methods receive the finished text, and non-string, non-error payloads are opaque values.
- Aggregator.RequestLogger.Log: `logCount` is an unbounded integer, so Go's `int` overflow after 2^63 calls is not modelled.
- Observer.StatusWriter.Write: `length` is an unbounded integer, so `int64` overflow is not modelled. The wrapped writer's result (`n`, error) is an input, and the error text produced by the `errors.Wrap` library is represented as a pair (context, cause).
- Console.ColorPrint: colours are natural numbers. Negative `color` values, which the code never uses, are not modelled.
- Console.ConsoleLineF: `consolef` puts the method and the path into the `log.Printf` format string, so a `%` in either (a decoded path such as `/a%b`, or a method token containing `%`) is read as a formatting verb and Go prints `%!b(MISSING)`-style text or consumes an argument. The model appends the method and path literally, which matches Go only when neither contains `%`.
- Console output: the `console` and `consolef` methods are modelled by the line bodies `ConsoleLine` and `ConsoleLineF`. `log.Printf`'s timestamp prefix and trailing newline are not modelled.
- The inner handler is a fixed script of effects. It cannot react to the values `Write` returns to it, and its own reads of the logger through the context are not replayed: its log calls go straight to the installed logger, whose identity `Serve` exposes through the handler's request.
- The parent entry's HTTP block keeps the request's method and URL, not the whole `*http.Request`.
- Header names are compared as given; Go's canonicalisation of header keys is not modelled. A header holds one value: Go's `Header.Get` returns the first of several values (for example repeated `X-Forwarded-For` lines), and the model has no repeated headers.
- A nil `Logger` stored with `NewContext` is not modelled: in the model an installed logger is always a real logger.
- std.go (the stderr fallback logger) is only print calls. It appears only as the distinguished value `StdErrLogger`.
- context.go (package-level wrappers that forward to `FromContext`) and handler_consolelog.go (a build-tag variant that installs a console logger) are not part of this model.
- The Severity scale includes the library's levels above Error (Critical, Alert, Emergency) and Notice. The code never logs at those levels, but they take part in the ordering.
