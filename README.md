# zapgcl in Dafny

A model of gcloudzap/zapgcl, the zap core that sends log entries to Google
Cloud Logging, together with the go-logger helpers vendored beside it. The
Dafny model covers:

- **Field maps** (`Fields`). `clone` stores zap's typed fields on top of a
  parent map. Each field type becomes a Go value: integers are converted to
  their type's width, booleans are decoded from 1/0, stringers and errors
  become their text, and Skip fields store nothing. The method `Clone` is
  proved against the fold `Accumulate`. The lemmas say what is stored under
  every key: the last writer wins, parent keys survive, and two derivations
  equal one.
- **Levels** (`Levels`). zap levels, Cloud Logging severities,
  `DefaultSeverityMapping`, and the severity lookup `Write` does.
- **Cloud Logging** (`CloudLogging`). The `Entry` record and the
  `GoogleCloudLogger` interface, modelled as a `Sink` class that buffers
  logged entries and reports a flush outcome.
- **The core** (`ZapGcl`, `ZapGclProperties`). `Core` with `Enabled`,
  `With`, `Check`, `Write` and `Sync`, and the MinLevel loop of `Tee`.
  `Write` is proved to log exactly one entry, `Record(...)`. The lemmas about
  `Record` say what the entry holds:
  - `labels.X` keys become labels;
  - `httpRequest` becomes the HTTP request;
  - a non-empty string under the insertId key becomes the insertId;
  - none of those keys remain in the payload.

  The loop over the payload visits keys in an unspecified order. The model
  chooses each key nondeterministically and proves that the outcome does not
  depend on the order.
- **Trace header** (`Middleware`). The X-Cloud-Trace-Context parser
  `deconstructXCloudTraceContext` is modelled by a scanner that does what
  the regular expression's leftmost-first, greedy match does.
- **Trace fields** (`TraceFields`). `addCloudLoggingFields` and
  `TraceContext`, with what their fields store.
- **gRPC adapter** (`Interceptor`). The key/value pairing loop and the level
  switch of `InterceptorLogger`.

Go's dynamic values (`interface{}`) are the datatype `Values.Any`. Library
code the core calls but does not define is passed in as the `Runtime`
parameter: `fmt.Sprint`, `time.Duration.String`, `time.Time.String` and
`runtime.FuncForPC(pc).Name()`. A failed Go type assertion panics. The model
turns each such assertion into a precondition (`Fields.Reducible`,
`ZapGcl.WriteTyped`, `Interceptor.KeyValueList`).

## Model

| member | source | states |
|---|---|---|
| Values.Convert | zapgcl.go:355-381 | Go's integer conversion `T(x)`. The result lies in T's range, is congruent to x modulo 2^bits, and equals x whenever x fits |
| Values.ConvertThroughInt64 | zapgcl.go:355-381 | An integer of any kind up to 64 bits, stored as an int64 and converted back to its own kind, is unchanged, unsigned 64-bit values included |
| Fields.Reduce | zapgcl.go:333-393 | The value one field stores. Nothing exactly for Skip. A bool for 1. The string for String and ByteString. The interface for marshaler, binary, reflect and unnamed types. The converted integer for integer types. The time in its location for Time. `fmt.Sprint` of the value for complex types. The duration's `String()` for Duration. The `String()` text for a Stringer, `time.Time.String` for a time among them, and the `Error()` text for an error |
| Fields.Accumulate | zapgcl.go:325-397 | Clone keeps every parent key (its exact key set is `AccumulateKeys`) |
| Fields.LastWriter | zapgcl.go:332-394 | The index of the last non-Skip field with a given key; no later field writes that key; None when no field writes it |
| Fields.AccumulateAt | zapgcl.go:325-397 | After clone, a key is present iff the parent has it or some non-Skip field writes it. Its value is the last writer's value, else the parent's |
| Fields.AccumulateKeys | zapgcl.go:325-397 | The clone's keys are the parent's keys plus the key of every non-Skip field |
| Fields.AccumulateTwice | zapgcl.go:325-397 | Cloning with F1 and then with F2 equals cloning once with F1 + F2 |
| Fields.AccumulateSnoc | zapgcl.go:332-394 | Storing one more field stores it on top of what the earlier fields stored |
| Fields.Clone | zapgcl.go:325-397 | The loops copy the parent and then store each field in order. The result is the fold `Accumulate` |
| Fields.ConstructorsRoundTrip | zapgcl.go:341-364 | Each field a constructor builds is stored as its own value: a string as itself, an int as an equal int64, a bool as itself. A Skip field stores nothing |
| Fields.TimeStringerStored | zapgcl.go:385-386 | A Stringer field holding a `time.Time` passes clone's type assertion and stores the time's `String()` text |
| Levels.SeverityFor | zapgcl.go:230-233 | The mapped severity, or Default when the level is unmapped |
| Levels.DefaultMapping | zapgcl.go:314-322 | The default table level by level; Default outside Debug..Fatal |
| Levels.DefaultMappingMonotone | zapgcl.go:314-322 | The default table never maps a more severe level to a lower severity, and never maps a standard level to Default |
| CloudLogging.Sink.Log | zapgcl.go:409 | Logging appends exactly the entry; the flush state is unchanged |
| CloudLogging.Sink.Flush | zapgcl.go:408 | Flushing marks the logger flushed, keeps the entries and returns the transport's outcome |
| ZapGcl.Core.Enabled | zapgcl.go:200-202 | A level is enabled iff it is at least MinLevel |
| ZapGcl.Core.With | zapgcl.go:205-212 | The child keeps the logger, mapping and MinLevel. Its fields are the parent's fields cloned with the new fields (`Accumulate`). Every parent field that no new field overrides stays unchanged |
| ZapGcl.Core.Check | zapgcl.go:215-220 | Adds this core to the checked entry exactly when the level reaches MinLevel, creating it with the entry when it is nil and otherwise keeping its entry; below MinLevel returns it unchanged |
| ZapGcl.Payload | zapgcl.go:235-240 | The payload holds the message under its key, the stack trace when there is one, and every parent field key |
| ZapGcl.Decode | zapgcl.go:260-281 | The HTTP request copies the method, URL, user agent, referer, sizes, status, latency, server IP as local IP, remote IP and both cache flags from the payload |
| ZapGcl.Record | zapgcl.go:230-299 | The entry has the entry's time and logger name, the mapped severity, and no insertId, httpRequest or label key left in its payload |
| ZapGcl.Core.Write | zapgcl.go:229-302 | Returns no error and logs exactly one entry, `Record(...)`, leaving the flush state alone |
| ZapGcl.ExtractSpecialKeys | zapgcl.go:251-284 | Whatever order the keys are visited in, the payload loses exactly its label and httpRequest keys. Labels and HTTP request are the ones computed from the whole payload |
| ZapGcl.VisitLabelKey | zapgcl.go:252-258 | Visiting a label key removes it from the payload and adds its label. The HTTP request is unchanged |
| ZapGcl.VisitHTTPRequestKey | zapgcl.go:259-282 | Visiting `httpRequest` removes it from the payload and sets the decoded HTTP request. The labels are unchanged |
| ZapGcl.VisitOtherKey | zapgcl.go:251-284 | Visiting any other key changes neither the payload, nor the labels, nor the HTTP request |
| ZapGcl.InsertIDSurvives | zapgcl.go:251-290 | The loop leaves the insertId key and its value in the payload for the insertId step |
| ZapGcl.LabelsStep | zapgcl.go:252-258 | Visiting one label key adds its suffix, with its string value, to the labels built so far |
| ZapGcl.Core.Sync | zapgcl.go:305-310 | Flushes and changes nothing else. No error iff the flush succeeded; otherwise the error `newError("flushing Google Cloud logger", err)`, with the corrected text of `NewError` |
| ZapGcl.NewErrorAsWritten | zapgcl.go:402-404 | The text starts with the package name and the context, then `[`, and ends with `]` |
| ZapGcl.NewError | zapgcl.go:402-404 | The error text is the package name, the context and then the cause's text, so the cause's text can be read back |
| ZapGcl.NewErrorBrackets | zapgcl.go:402-404 | As written, the text after the context is the cause in brackets, never the cause itself |
| ZapGcl.Tee | zapgcl.go:183-197 | MinLevel is the first level from Debug to Fatal that the other core enables, or 0 when it enables none. Every standard level the other core enables is enabled. For a monotone core that enables Fatal, both cores agree on every standard level |
| ZapGclProperties.PayloadContents | zapgcl.go:235-240 | The payload holds the message; the stack trace when there is one; and otherwise exactly the cloned fields |
| ZapGclProperties.RecordPayload | zapgcl.go:251-290 | The entry's payload keeps exactly the payload keys that are not label, httpRequest or insertId keys, with their values |
| ZapGclProperties.RecordPayloadClean | zapgcl.go:251-290 | After a write, no label, httpRequest or insertId key remains, and the message does |
| ZapGclProperties.RecordLabels | zapgcl.go:251-258 | Labels are nil iff there is no `labels.` key. Each `labels.X` value appears as label X, and every label comes from such a key |
| ZapGclProperties.RecordInsertID | zapgcl.go:286-290 | The insertId is set iff the payload holds a non-empty string under the insertId key, and it is that string |
| ZapGclProperties.RecordHTTPRequest | zapgcl.go:259-282 | The HTTP request is set iff the payload has an httpRequest key, and is decoded from its value |
| ZapGclProperties.RecordHeader | zapgcl.go:230-298 | Timestamp; mapped severity, or Default when unmapped; logger name as log name; a source location iff the caller is defined |
| ZapGclProperties.WithTwice | zapgcl.go:205-212 | `With(F1).With(F2)` is the same core as `With(F1 + F2)` |
| ZapGclProperties.WithScenario | zapgcl_test.go:14-36 | `Core{}` has no fields, its child has foo, and the grandchild has foo and baz |
| ZapGclProperties.EnabledScenario | zapgcl_test.go:154-164 | The zero core gates at Info. MinLevel Info rejects Debug; MinLevel Warn accepts Error |
| ZapGclProperties.RecordPlain | zapgcl.go:242-290 | A payload with no label, httpRequest or insertId key is sent unchanged, with no labels, no insertId and no HTTP request |
| ZapGclProperties.WriteScenario | zapgcl_test.go:59-92 | The first write of the test logs the expected entry: Warning severity, log name "test", payload of message, foo and baz, no labels, no insertId |
| ZapGclProperties.SecondWriteScenario | zapgcl_test.go:94-110 | The second write on the same core logs message, foo and asdf, and not the first call's baz |
| Middleware.DeconstructXCloudTraceContext | vendor/github.com/govargo/go-logger/middleware.go:50-60 | The trace id is the matched trace group, a prefix of the header. The span id is the captured span group, except that a span of "0" becomes empty. Sampled is true iff the captured flag is "1" |
| Middleware.TraceForHeader | vendor/github.com/govargo/go-logger/middleware.go:24-36 | A trace is attached iff the header is non-empty, and it is the parsed header |
| Middleware.TraceIDIsLongestHexPrefix | vendor/github.com/govargo/go-logger/middleware.go:42-53 | The trace id is the longest `[a-f\d]` prefix of the header |
| Middleware.SpanCapture | vendor/github.com/govargo/go-logger/middleware.go:42-53 | A span id is captured iff `/` and a hex character follow the trace id, and it is then the longest hex run |
| Middleware.SampledFlag | vendor/github.com/govargo/go-logger/middleware.go:42-53 | Sampled is true iff `;o=1` directly follows the trace and span parts |
| Middleware.MatchIgnoresRest | vendor/github.com/govargo/go-logger/middleware.go:42-51 | Characters after the match do not change the trace id, span id or flag |
| Middleware.ZeroSpanSampled | vendor/github.com/govargo/go-logger/middleware.go:50-59 | A trace id followed by `/0;o=1` gives that trace id, an empty span id and sampled true |
| Middleware.ExampleHeader | vendor/github.com/govargo/go-logger/middleware.go:42-59 | The documented example header yields its trace id, an empty span id and sampled true |
| TraceFields.KeysDistinct | vendor/github.com/govargo/go-logger/trace.go:11-15 | The trace, span and sampled keys are pairwise distinct |
| TraceFields.AddCloudLoggingFields | vendor/github.com/govargo/go-logger/trace.go:19-23 | Three non-Skip fields under the trace, span and sampled keys, in that order |
| TraceFields.TraceFieldsStored | vendor/github.com/govargo/go-logger/trace.go:19-23 | Logging the three fields stores the trace resource name, the span id and the flag; every other key is unchanged |
| TraceFields.TraceNameRoundTrip | vendor/github.com/govargo/go-logger/trace.go:20 | The trace id is what follows `projects/<project>/traces/` in the resource name |
| TraceFields.TraceContext | vendor/github.com/govargo/go-logger/trace.go:32-39 | All three fields are Skip fields iff the context carries no trace. With a trace, they are `addCloudLoggingFields` of its trace id, span id and flag |
| TraceFields.NoTraceStoresNothing | vendor/github.com/govargo/go-logger/trace.go:38 | Without a trace, the logger's fields are unchanged |
| TraceFields.ZeroSpanHeaderFields | vendor/github.com/govargo/go-logger/trace.go:32-36 | A header `<trace>/0;o=1` logs the trace resource name, an empty span id and sampled true |
| Interceptor.ZapAny | vendor/github.com/govargo/go-logger/logger.go:85 | zap.Any's field has the key, is never a Skip field, and passes clone's type assertions |
| Interceptor.Classify | vendor/github.com/govargo/go-logger/logger.go:77-86 | A pair's field has the pair's key, is never a Skip field, and passes clone's type assertions |
| Interceptor.ClassifyStores | vendor/github.com/govargo/go-logger/logger.go:77-86 | What clone stores for a pair's field is `Stored` of the value: an error's `Error()` text, another Stringer's `String()` text (a `*time.Location`'s name among them), an `int` or `uint` as the same number at 64 bits, any other value as itself |
| Interceptor.ErrorPairStoresText | vendor/github.com/govargo/go-logger/logger.go:85 | An error value passed under a key is stored as its text |
| Interceptor.PairFields | vendor/github.com/govargo/go-logger/logger.go:71-87 | One field per key/value pair, the j-th built from the j-th pair |
| Interceptor.Dispatch | vendor/github.com/govargo/go-logger/logger.go:89-100 | Debug, Info, Warn and Error each go to the wrapper of the same name, with the message and fields. Every other level goes to Fatal with "unknown level N" and no fields |
| Interceptor.DispatchMonotone | vendor/github.com/govargo/go-logger/logger.go:89-97 | The known levels keep their order when mapped to zap levels |
| Interceptor.InterceptorLog | vendor/github.com/govargo/go-logger/logger.go:69-101 | One call: the level switch `Dispatch` applied to the message and the pair fields, so each known level reaches its own wrapper. Fatal iff the level is unknown. For a known level, the message and one field per pair, in order |
| Interceptor.LastPairWins | vendor/github.com/govargo/go-logger/logger.go:71-87 | Under each key, clone stores `Stored` of the value of the last pair with that key |

## Left out

- Floating-point fields (Float64Type, Float32Type) are not modelled: floats are outside this model. `clone` converts `f.Integer` numerically, although zap stores a float's bit pattern there.
- Client construction is not modelled, for lack of a Cloud Logging client in the model: newClient, NewDevelopment, NewProduction, New, the zap configuration options, and `zapcore.NewTee`. `Tee` is modelled only through the Cloud Logging core it builds. The other core is a level predicate, and `client.Logger(logID)` is the given sink.
- ZapGcl.Decode keeps the HTTP request's URL, sizes and latency as the payload's text. URL, integer and duration parsing, whose errors the source ignores, are not modelled.
- `fmt.Sprint`, `time.Duration.String`, `time.Time.String`, `runtime.FuncForPC(pc).Name()`, and the text a Go value's `String()`/`Error()` method returns come from outside the model. They are given functions (`Runtime`) or data carried by the value (`AObject`).
- Fields.Reduce: a Time field stores the nanosecond count and the location instead of a `time.Time`, because time zones are outside the model.
- Concurrency is not modelled: the model is sequential. A `Core` may be used from several goroutines, but it is never mutated after first use.
- `Write`'s payload map is shared between the entry and the loop that deletes from it. The model builds the entry after the loop from the final map, which is the value the sink receives.
- A Go panic is a precondition (`Reducible`, `WriteTyped`, `KeyValueList`), not modelled behaviour. The panicking cases are a failed type assertion in clone or Write, an odd-length key/value list, and a non-string key.
- Interceptor.ZapAny: only the cases of zap.Any for values `Any` can hold are modelled (bool, integers, string, time, error, fmt.Stringer, and zap.Reflect for the rest). Its marshaler cases are taken as zap.Reflect, which clone stores as the same value. Floats, complex numbers, durations, slices and pointers other than `*time.Location` and `*zapdriver.HTTPPayload` are not values of `Any`.
- Interceptor.ClassifyStores: states what gcloudzap's clone stores for the adapter's fields. go-logger's own package logger (logger.go:17-26) is built from its production configuration, not from a gcloudzap Core, so for that logger this is a statement about a gcloudzap Core given the same fields.
- Interceptor.LastPairWins: the same restriction as ClassifyStores; it describes a gcloudzap Core receiving the adapter's fields.
- Values.Convert: a 64-bit platform is assumed. Go's `int`, `uint` and `uintptr` are 64 bits wide. On a 32-bit platform `uintptr(f.Integer)`, `int` and `uint` truncate at 32 bits, which the model does not capture.
- The package-level logger set up in `init` is not modelled, because it reads the environment: GetGRPCLogger and the Debug/Info/Warn/Error/Fatal/Sync wrappers. The `Call` datatype records which wrapper is called, with what. Fatal's process exit is not modelled.
- The HTTP middleware's handler plumbing (context values, `ServeHTTP`) is not modelled; `TraceForHeader` stands for it. The project name from `GOOGLE_CLOUD_PROJECT` is a parameter.
- Core.Sync uses the corrected newError text; the as-written text is `NewErrorAsWritten` (see Findings).

## Findings

| source | as written | input that shows it | evidently intended | confidence | as-written member | corrected member |
|---|---|---|---|---|---|---|
| zapgcl.go:402-404 | `fmt.Errorf(packageName+": "+format, args)` passes the argument list as one slice, so `%v` prints the cause in brackets | Sync when Flush fails with "deadline exceeded" yields "gcloudzap: flushing Google Cloud logger: [deadline exceeded]" | `args...`, giving "gcloudzap: flushing Google Cloud logger: deadline exceeded" | high; not executed | ZapGcl.NewErrorBrackets | ZapGcl.NewError |
