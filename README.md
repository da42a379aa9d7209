# go-xlog handlers, modelled in Dafny

This project models the handler layer of the `go.innotegrity.dev/xlog` logging package. That layer is a set of
`log/slog` sinks:

- a console sink;
- a rotating-file sink;
- a batching forwarder to a SentinelOne HTTP event collector;
- a discard sink;
- a fan-out composer.

It also models the registry that builds these sinks from configuration by handler type name. The shared
pieces come with it: the package error codes, the record-to-map conversion used by error handlers, and the
panic-to-error conversion that the fan-out uses around its children.

Each Go file has a Dafny module of its own:

| module | Go source |
|---|---|
| `XErrors` | `errors.go` and the error-handler hook of `handler.go` |
| `Records` | `record.go` |
| `Levels` | the level gate shared by three sinks |
| `Strings` | the lower-case-and-trim normalisation |
| `Slog` | the wrapped standard handlers, described by kind, destination and applied extensions |
| `Console` | `handlers/console.go` |
| `File` | `handlers/file.go` |
| `Forwarder` | `handlers/sentinelone.go` |
| `Discard` | `handlers/discard.go` |
| `TryCatch` | `handlers/util.go` |
| `Sinks` | the closed set of handlers a fan-out can hold |
| `Fanout` | `handlers/fanout.go` |
| `Registry` | `handlers/builder.go` and `handlers/init.go` |

How the Go code is carried over:

- **Value handlers become datatypes.** Their methods become functions. A clone is a new datatype value that
  shares the same level-variable objects.
- **Shared mutable objects become classes.** The level variable, the forwarder's shared buffer state and
  the registry are classes whose methods carry `modifies` clauses. The file sink's two writers are classes
  with constant fields only, so that clones share them by reference.
- **Loops stay loops.** Each is a method proved against a specification function or a quantified
  postcondition: the record-to-map loop, the fan-out loops over children, and the event-building loop.
- **Outside effects become parameters.** The process uid and gid, the executable name, the host name, file
  creation, path resolution, terminal detection, level parsing, the JSON formatter, and the outcome of an
  HTTP post are all inputs.
- **The forwarder's default level.** Its level defaults to the console sink's package default
  (`DefaultConsoleHandlerLogLevel`, `handlers/sentinelone.go:508`), not to its own
  `DefaultSentinelOneHECHandlerLogLevel` (line 106). The model keeps this; both defaults ship as `Info`.
- **The maximum-level bug stays in the sinks.** Console, file and forwarder all use the level gate as it is
  written. With a maximum level set, it compares the record's level with the minimum twice. The intended gate
  is modelled beside it; see Findings.

## Model

| member | source | states |
|---|---|---|
| XErrors.CodesAreOneToSixteen | errors.go:3-64 | the sixteen codes are exactly the integers 1..16, each used once, and `FromValue` inverts `Value` |
| XErrors.Join | handlers/fanout.go:96-101 | joining gives nil iff there are no errors, and otherwise one error holding all of them in order |
| XErrors.Route | handlers/console.go:307-313 | a nil error stays nil; a non-nil one goes through the error handler when set and is returned unchanged otherwise |
| Records.ResolveValue | record.go:85-95 | a group value becomes the map of its resolved attributes, recursively; any other value becomes its underlying value |
| Records.ResolveAttrs | record.go:85-95 | the map built by storing each attribute's resolved value under its key, first to last, so a later attribute overwrites an earlier one |
| Records.ResolveAttrsKeys | record.go:70-74 | a key is in the resolved map iff some attribute has it |
| Records.ResolveAttrsLastWins | record.go:70-74 | a key maps to the resolved value of the last attribute with that key: later attributes overwrite earlier ones |
| Records.ResolveAttrsEmpty | record.go:75-77 | the resolved map is empty exactly when the record has no attributes |
| Records.RecordToMap | record.go:49-79 | nil gives nil; otherwise the map holds time, level and message, holds the caller iff the record has a source, holds the attributes iff there are any, and has no other keys |
| TryCatch.Try | handlers/util.go:6-19 | a normal return passes through; a panic with an error yields that error; any other panic yields an "unexpected error"; nil only for a nil return |
| TryCatch.PanicIsNeverNil | handlers/util.go:8-15 | a panicking callback never reports nil |
| Strings.LowerChar | handlers/builder.go:23 | an ASCII or Latin-1 upper-case letter moves 32 code points to its lower-case form, no such letter is left, every other character is kept, and spaces stay spaces |
| Strings.ToLowerPointwise | handlers/builder.go:23 | lower-casing acts character by character |
| Strings.TrimLeftIsSuffix | handlers/builder.go:23 | trimming on the left keeps a suffix of the input |
| Strings.TrimRightIsPrefix | handlers/builder.go:23 | trimming on the right keeps a prefix of the input |
| Strings.TrimSpaceIsTrimmed | handlers/builder.go:23 | the trimmed string neither starts nor ends with white space |
| Strings.Normalize | handlers/builder.go:56 | the normal form of a type name, lower-case then trimmed, as builder.go:23 and 56 compute it; it is never longer than its input |
| Strings.NormalizeIsLowerAndTrimmed | handlers/builder.go:23 | a normalised name is lower-case and trimmed |
| Strings.NormalizeIdempotent | handlers/builder.go:56 | normalising twice is normalising once |
| Strings.NormalizeOfNormal | handlers/console.go:175 | a lower-case trimmed string normalises to itself |
| Levels.LevelVar.constructor | handlers/console.go:188-193 | a new level variable holds the level it is created with |
| Levels.LevelVar.Set | handlers/console.go:296-299 | a controller holding the variable that `GetLevelVar` hands out sets its level, which every sharer then reads |
| Levels.EnabledAsWrittenCases | handlers/console.go:288-294 | the written gate admits every level from the minimum up without a maximum, and only the minimum itself with one |
| Levels.MaxLevelNeverRead | handlers/console.go:293 | the written gate's answer does not depend on the maximum level variable |
| Levels.AsWrittenVersusIntended | handlers/console.go:113-119 | without a maximum the written gate is the documented one; with one, it is stricter and rejects every level strictly between minimum and maximum |
| Levels.GateDivergesAtWarn | handlers/console.go:293 | with minimum Info and maximum Error, a Warn record is meant to pass but is rejected |
| Levels.EnabledIntendedReadsMax | handlers/console.go:113-119 | the documented gate reads the maximum: a level above the minimum passes under a maximum at or above it and fails under a lower one, while the written gate answers the same for both |
| Console.UnmarshalJSON | handlers/console.go:165-207 | success iff the normalised format is known or empty and each non-empty level text parses; a bad format changes nothing; the stored format is the normalised one; levels become fresh level variables; the error handler is kept |
| Console.NewConsoleHandler | handlers/console.go:226-275 | success iff the format is empty or known, and an unknown one is an options validation error; nil level becomes a fresh variable at the console default; empty format becomes "pretty"; writer is stderr or stdout; the format selects the wrapped kind |
| Console.Enabled | handlers/console.go:288-294 | the as-written gate on the sink's own level variables |
| Console.Handle | handlers/console.go:307-313 | the wrapped handler's error goes through the error handler when one is set |
| Console.Close | handlers/console.go:283-285 | closing succeeds |
| Console.Type | handlers/console.go:321-323 | the type name is "console" |
| Console.WithAttrs | handlers/console.go:327-331 | a clone with the same options whose wrapped handler carries the attributes |
| Console.WithGroup | handlers/console.go:334-342 | the empty name returns the receiver; another name gives a clone with the group opened |
| Console.BuildFromConfig | handlers/console.go:363-393 | decoding into zero options and then building succeeds iff the decoder accepts the configuration; every failure is a marshal error, so an accepted format always builds; the stored format is the normalised one or "pretty" and selects the wrapped kind |
| Console.KnownFormatIsNormal | handlers/console.go:24-36 | the three format names pass normalisation unchanged |
| Console.AcceptedFormatStable | handlers/console.go:175-181 | decoding a stored format again accepts it iff the original was accepted |
| Slog.NewInner | handlers/console.go:248-272 | a freshly built wrapped handler has no extensions |
| Slog.WithAttrs | handlers/console.go:327-331 | extending keeps kind, destination and caller flag and appends the attributes |
| Slog.WithGroup | handlers/console.go:334-342 | opening a group keeps kind, destination and caller flag and appends the group |
| File.DecodedPath | handlers/file.go:306-345 | the path settings the decoder yields: a present field is copied, an absent flag takes its package default, an absent mode 0, an absent path "", an absent owner or group -1 |
| File.DecodePathOptions | handlers/file.go:306-345 | a present path field is copied; an absent one takes the package flag default, mode 0, path "" or id -1; the result is `DecodedPath` of the input |
| File.DecodedPathOfPresent | handlers/file.go:306-345 | decoding settings that are all present gives them back unchanged |
| File.UnmarshalJSON | handlers/file.go:277-356 | success iff each non-empty level text parses; a failure leaves path settings and buffer size untouched; on success the path settings are `DecodedPath` of the JSON's and the plain fields come from the JSON |
| File.PathDefaults | handlers/file.go:391-402 | mode 0 takes the package mode; owner or group -1 takes the process uid or gid; other fields unchanged |
| File.PathDefaultsSettle | handlers/file.go:391-402 | after defaulting no mode is 0 and no id is -1, so defaulting again changes nothing |
| File.ApplyPathDefaults | handlers/file.go:391-402 | the constructor's field-by-field defaulting equals `PathDefaults` |
| File.NewFileHandler | handlers/file.go:377-438 | a log-file creation error is returned as is; an absolute-path error is an options validation error; otherwise the rotating writer gets the absolute name and rotation settings, a buffered writer exists iff the buffer size is positive, and the JSON handler writes to the buffer or the file |
| File.RotatingFile.constructor | handlers/file.go:415-423 | the rotating writer holds the name and rotation settings it is given |
| File.BufferedWriter.constructor | handlers/file.go:426-429 | the buffered writer wraps the given file with the given size |
| File.Close | handlers/file.go:446-458 | flush runs before close; a flush failure is returned at once without closing; otherwise the close result is returned |
| File.Enabled | handlers/file.go:461-467 | the as-written gate on the sink's own level variables |
| File.Handle | handlers/file.go:480-486 | the wrapped handler's error goes through the error handler when one is set |
| File.Type | handlers/file.go:494-496 | the type name is "file" |
| File.WithAttrs | handlers/file.go:500-504 | a clone sharing both writers and the options, with the attributes added |
| File.WithGroup | handlers/file.go:507-515 | the empty name returns the receiver; another name gives a clone sharing both writers, with the group opened |
| Forwarder.DefaultLevelTranslator | handlers/sentinelone.go:143-158 | the seven-band translation from a level to a collector severity name; the result is always one of the seven names |
| Forwarder.SeverityBands | handlers/sentinelone.go:143-158 | each severity name covers exactly its band of levels |
| Forwarder.TranslatorMonotone | handlers/sentinelone.go:143-158 | a more severe level never gets a less severe name |
| Forwarder.UnmarshalJSON | handlers/sentinelone.go:401-452 | success iff each non-empty level text parses; an absent send timeout is -1; on success every plain field comes from the JSON; error handler and translator are kept |
| Forwarder.HandlerState.constructor | handlers/sentinelone.go:474-477 | a new shared state is empty and consistent |
| Forwarder.HandlerState.Take | handlers/sentinelone.go:724-732 | taking a batch hands out exactly the buffer, empties it, and keeps batches plus buffer equal to all records appended |
| Forwarder.HandlerState.Append | handlers/sentinelone.go:735-738 | a record is appended whole and logged, keeping the conservation invariant |
| Forwarder.Validate | handlers/sentinelone.go:493-501 | valid iff API token, ingest host name and scope are non-empty; the first missing one is named, as an options validation error |
| Forwarder.NewSentinelOneHECHandler | handlers/sentinelone.go:483-566 | a validation error is returned as is; otherwise URL and bearer token are built, the state is fresh and empty, each empty setting takes its default (from the executable name and host name where the source does), and the send timeout sets the client timeout only when positive |
| Forwarder.Severity | handlers/sentinelone.go:667-674 | the configured translator when set, the default translator otherwise |
| Forwarder.Event | handlers/sentinelone.go:651-705 | the event keeps time, level, message and call site; its first attribute is the "event" group, which starts with the record's attributes; then host, source and source type |
| Forwarder.EventGroupShape | handlers/sentinelone.go:651-705 | the event group holds the record's attributes, message, severity, the caller exactly when asked for and known, then the data source |
| Forwarder.BuildEvent | handlers/sentinelone.go:651-705 | building the event attribute by attribute yields `Event` |
| Forwarder.HandleError | handlers/sentinelone.go:799-804 | the error goes through the error handler when one is set and is returned otherwise |
| Forwarder.SendError | handlers/sentinelone.go:816-860 | each failed post carries the code of its failure: compression, request, transport or response |
| Forwarder.Send | handlers/sentinelone.go:816-860 | a delivered post is nil; an undelivered one is, without an error handler, an error carrying the failure's code, and with one, that handler's result for the coded error |
| Forwarder.StatusRule | handlers/sentinelone.go:849-857 | an answer is an error exactly when its status is 400 or more, and then it is a response error |
| Forwarder.CutsBatch | handlers/sentinelone.go:725-726 | a batch is cut only when the buffer already holds data; with batching off every non-empty buffer is cut; a record that still fits is never a cut |
| Forwarder.Handle | handlers/sentinelone.go:612-748 | a formatting failure goes through the error hook and leaves the buffer as it was; otherwise the event plus newline is appended whole, the old buffer is cut first when non-empty and batching is off or the record would overflow, and a cut batch is posted before returning only when async is disabled; buffer stays within size unless it holds one record |
| Forwarder.Close | handlers/sentinelone.go:574-590 | closing posts a non-empty buffer once, synchronously, and empties it; an empty buffer posts nothing; Close always succeeds |
| Forwarder.Enabled | handlers/sentinelone.go:593-599 | the as-written gate on the forwarder's own level variables |
| Forwarder.ChildHandlers | handlers/sentinelone.go:569-571 | the forwarder has no child handlers |
| Forwarder.Type | handlers/sentinelone.go:756-758 | the type name is "sentinelone:hec" |
| Forwarder.WithAttrs | handlers/sentinelone.go:762-769 | a clone whose attributes are extended, sharing the buffer state and options |
| Forwarder.WithGroup | handlers/sentinelone.go:772-783 | the empty name returns the receiver; another name gives a clone with the group appended, sharing the buffer state |
| Forwarder.ThreeRecordsThenCloseTwice | handlers/sentinelone.go:724-746 | with a 100-byte buffer and sync sending, three 40-byte records buffer 40, 80, 40 bytes, cut one 80-byte batch, and two closes post the last 40 bytes once |
| Discard.NewDiscardHandler | handlers/discard.go:38-43 | the constructor never fails |
| Discard.Enabled | handlers/discard.go:56-58 | no level is ever enabled |
| Discard.Handle | handlers/discard.go:61-63 | handling succeeds |
| Discard.Close | handlers/discard.go:51-53 | closing succeeds |
| Discard.ChildHandlers | handlers/discard.go:46-48 | the only child is the wrapped standard discarding handler |
| Discard.Type | handlers/discard.go:71-73 | the type name is "discard" |
| Discard.WithAttrs | handlers/discard.go:77-79 | extending returns the wrapped standard handler, not a discard sink |
| Discard.WithGroup | handlers/discard.go:82-84 | opening a group returns the wrapped standard handler, even for the empty name |
| Sinks.AnyEnabledIff | handlers/fanout.go:69-76 | a list of children is enabled exactly when one of its children is |
| Sinks.WithAttrsAll | handlers/fanout.go:140-149 | each child gets its own WithAttrs, position by position |
| Sinks.WithGroupAll | handlers/fanout.go:156-169 | each child gets its own WithGroup, position by position |
| Sinks.TypeName | handler.go:42-55 | the `ExtendedHandler` test that fanout.go:108-109 applies to each child: every handler but the standard discarding one implements it and has a type name |
| Sinks.WithAttrsKeepsGate | handlers/fanout.go:140-149 | adding attributes to any handler tree changes neither its enabled levels nor the level variables it reads |
| Sinks.WithAttrsAllKeepsGate | handlers/fanout.go:140-149 | the same for a list of children |
| Sinks.WithGroupKeepsGate | handlers/fanout.go:156-169 | opening a group in any handler tree changes neither its enabled levels nor the level variables it reads |
| Sinks.WithGroupAllKeepsGate | handlers/fanout.go:156-169 | the same for a list of children |
| Sinks.DiscardBesideFile | handlers/fanout.go:69-76 | a fan-out of a discard sink and a file sink accepts exactly what the file sink accepts |
| Fanout.NewFanoutHandler | handlers/fanout.go:44-48 | the constructor never fails and keeps the children |
| Fanout.ChildHandlers | handlers/fanout.go:51-53 | the children in registration order |
| Fanout.Type | handlers/fanout.go:132-134 | the type name is "fanout" |
| Fanout.Collect | handlers/fanout.go:96-98 | the non-nil results in their order, as the `errs` appends gather them (also fanout.go:60-62) |
| Fanout.CollectEmptyIff | handlers/fanout.go:96-101 | no error is collected exactly when every result is nil |
| Fanout.CollectKeeps | handlers/fanout.go:96-101 | every non-nil result is collected |
| Fanout.Enabled | handlers/fanout.go:69-76 | enabled iff some child is enabled; false with no children |
| Fanout.Handle | handlers/fanout.go:89-102 | the children invoked are those EnabledBelow lists and the results are those Recovered lists, each outcome through panic recovery; the result joins their errors in order |
| Fanout.EnabledBelowExact | handlers/fanout.go:91-92 | the invoked positions are exactly the children enabled for the level, each once, in increasing child order |
| Fanout.RecoveredPointwise | handlers/fanout.go:93-95 | one recovered result per invoked child, in the same position: the k-th is the recovered outcome of the k-th invoked child |
| Fanout.HandleResult | handlers/fanout.go:89-102 | handling is nil iff every invoked child returned nil, and each child's error is in the joined error |
| Fanout.PanickingChildIsReported | handlers/fanout.go:93-98 | an enabled child that panics makes the broadcast's joined result an error, whatever the panic value |
| Fanout.Close | handlers/fanout.go:56-66 | the children closed are those ClosersBelow lists and the results are those CloseResults lists; the result joins the failures in order |
| Fanout.ClosersBelowExact | handlers/fanout.go:57-58 | the closed positions are exactly the children that are closers, each once, in increasing child order, however earlier closes failed |
| Fanout.CloseResultsPointwise | handlers/fanout.go:59-61 | one close result per closed child, in the same position |
| Fanout.WithAttrs | handlers/fanout.go:140-149 | a new fan-out whose i-th child is the i-th child with the attributes |
| Fanout.WithGroup | handlers/fanout.go:156-169 | the empty name returns the receiver; otherwise a new fan-out whose i-th child has the group opened |
| Fanout.Build | handlers/fanout.go:207-225 | success iff every child built, with the children in order; the failures recorded are those FailedBelow lists; a failure is a build error wrapping the join of FailuresBelow |
| Fanout.FailedBelowExact | handlers/fanout.go:210-214 | the recorded positions are exactly the failed children, each once, in increasing child order |
| Fanout.FailuresBelowPointwise | handlers/fanout.go:210-214 | one joined failure per failed child, in the same position: the k-th names the k-th failed builder |
| Fanout.NoFailureBelow | handlers/fanout.go:216-224 | no failure is recorded exactly when every child built, and then each slot holds what its child built |
| Registry.BuilderType | handlers/init.go:11-17 | exactly the built-in factories have a known type name |
| Registry.InitialBuilders | handlers/init.go:11-17 | the registry at start-up: each built-in type name mapped to its own factory |
| Registry.InitialKeys | handlers/init.go:11-17 | the initial registry holds exactly the five built-in names |
| Registry.InitialKeysAreTypes | handlers/init.go:11-17 | each initial key is the type name of its factory's builders |
| Registry.InitialKeysAreKeys | handlers/init.go:11-17 | each initial key is non-empty and normalised |
| Registry.KeysFindTheirEntries | handlers/builder.go:36-38 | when every key is normalised, as the registry keeps them, each stored key finds its own entry |
| Registry.Lookup | handlers/builder.go:36-43 | a name finds a factory iff its normal form is registered, and then that one |
| Registry.LookupIgnoresCaseAndSpace | handlers/builder.go:23 | a name and its normal form find the same factory |
| Registry.SpacedUpperCaseFileResolves | handlers/builder.go:23 | " FILE " finds the file factory in the initial registry |
| Registry.AccentedCaseIgnored | handlers/builder.go:23 | "ÉCRAN" normalises to "écran", so both spellings find the same factory in any registry |
| Registry.RegisterError | handlers/builder.go:55-69 | checked in order: an empty normalised name, then a nil factory (invalid parameter), then an existing name without overwrite (type exists, with the corrected message `ExistsMessage(t)` that names the type, see Findings); otherwise no error |
| Registry.ExistsMessageOmitsName | handlers/builder.go:64 | as written, the type-exists message is the same for any two names, while the intended messages differ |
| Registry.ExistsMessageNamesType | handlers/builder.go:64 | the intended type-exists message starts with the name, so different names give different messages |
| Registry.BuiltinsCannotBeReplacedSilently | handlers/builder.go:63-65 | re-registering a built-in name without overwrite fails |
| Registry.Registry.constructor | handlers/init.go:9-18 | initialisation installs exactly the built-in factories, all under normalised keys |
| Registry.Registry.RegisterBuilder | handlers/builder.go:55-69 | on failure nothing changes; on success only that name's entry is set, and every key stays normalised |
| Registry.Registry.NewBuilderFromConfig | handlers/builder.go:22-44 | an encoding failure is a marshal error; a registered name calls its factory and returns its result; an unknown name is an unsupported handler type |
| Registry.RegisterThenLookup | handlers/builder.go:55-69 | after registering, every spelling with the same normal form finds the new factory and every other name finds what it did before |

## Left out

- Network, gzip and the HTTP client. These are a `SendOutcome` input.
- Concurrency:
  - The forwarder's mutex and background sender goroutine are left out. A handed-off batch is recorded with
    its dispatch, but delivery ordering is not modelled.
  - The sinks' `Enabled` reads level variables that other goroutines may change. Reads are modelled, races
    are not.
- The output format of the standard JSON, text and tint handlers. Also `ReplaceAttr`, the rendering of values
  and levels, and the `Fields` option.
- JSON parsing itself. The decoders start from already-parsed fields. `slog.Level.UnmarshalText` is a
  `parseLevel` input.
- `MarshalJSON` and `Options()` of every handler and builder, and `handlerBuilder.UnmarshalJSON` in
  `handlers/builder.go`.
- The per-sink `New…HandlerBuilderFromConfig` functions and builder `Build` methods with their callbacks.
  Only the fan-out builder's `Build` and the console builder without a callback (`Console.BuildFromConfig`)
  are modelled. Factories are the opaque `Factory` values.
- Operating-system calls: file creation with ownership and modes (`createLogFile`), the absolute path,
  `os.Executable`, `os.Hostname`, uid and gid, terminal detection. All are inputs.
- Log rotation, buffering and flushing inside the writers. `handlers/writer.go` is not part of this model.
- `handler.go`'s reflection-based option helpers, `DefaultErrorHandler`, `context.go`, and `builder.go` at the
  package root are not part of this model.
- Fanout.Build: each child failure is kept as its builder type only; the child's error text folded into the
  message is not modelled.
- Forwarder.Handle: the write into the in-memory buffer cannot fail, so that error path is not modelled.
- Message texts: error messages are kept only as far as they name the failure. Formatting verbs and value
  renderings are approximate.
- Strings.LowerChar: lower-cases ASCII and Latin-1 letters only (U+0041-U+005A and U+00C0-U+00DE without
  U+00D7), where Go's `strings.ToLower` maps every Unicode upper-case letter. A handler type name or console
  format with, say, Greek or Cyrillic capitals keeps them here, so the model finds such a custom type only
  under the exact same capitals, and rejects such a spelling of a known format.
- Registry.RegisterError: on the type-exists path it returns the corrected message `ExistsMessage(t)`, which
  names the type. The text `handlers/builder.go:64` actually produces is the constant `ExistsMessageAsWritten`
  (see Findings). Only the message text differs; the code `HandlerTypeExists` is as written.
- Registry.Registry.RegisterBuilder: returns the same corrected type-exists message as `RegisterError`.
- Package-level defaults: Go declares these as package variables, and a program may reassign them. Here they
  are constants fixed at their shipped values:
  - the console default `DefaultConsoleHandlerFormat` (Dafny `Console.DefaultConsoleHandlerFormat`);
  - the file defaults `DefaultFileHandlerAutoChmodLogFile`, `DefaultFileHandlerAutoChownLogFile`,
    `DefaultFileHandlerAutoCreateLogFileParent`, `DefaultFileHandlerDirMode` and `DefaultFileHandlerFileMode`
    (Dafny `File.DefaultAutoChmod`, `File.DefaultAutoChown`, `File.DefaultAutoCreateParent`,
    `File.DefaultDirMode` and `File.DefaultFileMode`);
  - the SentinelOne defaults `DefaultSentinelOneHECHandlerCallerKey`, `DefaultSentinelOneHECHandlerDSCategory`,
    `DefaultSentinelOneHECHandlerDSName`, `DefaultSentinelOneHECHandlerDSCVendor`,
    `DefaultSentinelOneHECHandlerHostname`, `DefaultSentinelOneHECHandlerSource` and
    `DefaultSentinelOneHECHandlerSendTimeout` (Dafny `Forwarder.DefaultCallerKey`, `Forwarder.DefaultDSCategory`,
    `Forwarder.DefaultDSName`, `Forwarder.DefaultDSVendor`, `Forwarder.DefaultHostname`,
    `Forwarder.DefaultSource` and `Forwarder.DefaultSendTimeout`).

  So `Console.NewConsoleHandler`, `File.PathDefaults`, `File.UnmarshalJSON` and
  `Forwarder.NewSentinelOneHECHandler` state their defaulting only for those values. Only the level defaults
  (`Levels.LevelDefaults`) are a parameter.
- Records.RecordToMap: the eight map keys (`TimeKey`, `LevelKey`, `MessageKey`, `SourceKey`, `AttrsKey`,
  `FileKey`, `LineKey`, `FunctionKey`, record.go:5-33) are Go package variables. Here they are constants at
  their shipped values, which are pairwise distinct, and the contract ("time, level and message, … no other
  keys") is stated for those names only. A program that makes two keys equal, for example
  `AttrsKey = "msg"`, has one entry overwrite the other in Go; the model cannot express that.
- Records.RecordToMap: the level is kept as a symbolic level name; its text form is not modelled. So is the time value.

## Findings

| source | as written | input that shows it | evidently intended | confidence | as-written member | corrected member |
|---|---|---|---|---|---|---|
| handlers/console.go:293 (also handlers/file.go:466, handlers/sentinelone.go:598) | with a maximum level set, `Enabled` tests `level >= min && level <= min`, so only the minimum level itself is logged and the maximum is never read | minimum Info, maximum Error, a Warn record: documented to pass, rejected | `min <= level && level <= max`, so every level in the closed band passes | high (not executed) | Levels.EnabledAsWritten, with Levels.GateDivergesAtWarn | Levels.EnabledIntended, with Levels.AsWrittenVersusIntended and Levels.EnabledIntendedReadsMax |
| handlers/builder.go:64 | `xerrors.Newf(xlog.HandlerTypeExists, "%s: handler type is already registered")` passes no argument for `%s`, so the message starts with Go's missing-operand marker and never names the type | registering "file" again without overwrite; so does "console" | the normalised type name in place of `%s` | high (not executed) | Registry.ExistsMessageAsWritten, with Registry.ExistsMessageOmitsName | Registry.ExistsMessage, with Registry.ExistsMessageNamesType |

The registry uses the intended type-exists message (see the Registry.RegisterError line under "## Left out"). The sinks keep the gate as written. `Console.Enabled`, `File.Enabled` and `Forwarder.Enabled` state that
behaviour. `Levels.AsWrittenVersusIntended` relates the two gates for every input.
