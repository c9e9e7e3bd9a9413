# veuvelog logger pipeline in Dafny

This project models the logging core of veuvelog, a small Go logging library. A named
`Logger` holds an ordered stack of handlers. Each log call takes the next process-wide
sequence number and builds a `Record`. The logger then hands a copy of the record to every
handler whose threshold accepts the record's level, in stack order. A formattable handler
first overwrites the record's cached message with its formatter's text. The console handler
prints a bracketed, optionally coloured level label followed by the message.

Modules, leaf first:

- `Wrappers`: `Option`, standing for a Go value that may be nil.
- `Levels`: `Level` is a `uint8` newtype. `Level.String` maps the ranks to names.
- `Args`: the operands of a variadic call (`Str` for a string operand, `Other` for any other
  operand, shown by its `%v` text). It holds the spacing rules of `fmt.Sprintln` (used when
  there is no template) and `fmt.Sprint` (used for the `Panic` payload). For reference it
  also holds a space splitter, which is proved to invert the space-join.
- `Records`: `RecordValue` is what a handler receives. The `Record` class is the logger's
  own record. Its `Message` method computes the text and caches it.
- `Logging`: the `Handler` view of a handler, the `Call` trace of calls into handlers, the
  `Dispatch` specification of the loop, the `SequenceNo` counter and the `Logger` class.
- `Console`: the console handler, written as pure functions.
- `Scenarios`: client methods that use only the logger's contracts.

Calls into handlers (`Handle`, `Close`) are returned as a `seq<Call>`. `Log` is proved to
return exactly `Dispatch(handlers, record, formatter)`. The lemmas about `Dispatch` state
which handlers are reached, in what order, and with which message.

Behaviours of the code a reader may not expect, which the model keeps:

- Pushing A and then B puts B at the front, so B is handled before A.
- The console line has no space between the label and the message.
- The message cache is not always set after `Message`. When a template renders to the empty
  string, Go's byte buffer stays nil, so the cache stays empty (`Records.CachedAfter`). The
  returned text is the same on every call either way.
- Colour is switched off only when the platform is `windows`. No other switch exists.
- Logging after `Close` still dispatches, because `log` never looks at `closed`.

## Model

| member | source | states |
|---|---|---|
| `Levels.Level.String` | logger.go:30-43 | The name is "UNKNOWN" exactly when the rank is above DEBUG. Otherwise it is the rank's entry in the names table. |
| `Levels.NamesOfLevels` | logger.go:30-53 | CRITICAL through DEBUG are named "CRITICAL", "ERROR", "WARNING", "NOTICE", "INFO" and "DEBUG". Every higher rank is "UNKNOWN". |
| `Levels.NameIdentifiesLevel` | logger.go:31-42 | On the six defined ranks, two ranks have the same name if and only if they are the same rank. |
| `Args.Sprintln` | logger.go:74 | `Sprintln` output always ends in a newline. |
| `Args.SprintlnStripped` | logger.go:73-75 | Removing the last character of `Sprintln` leaves the operand texts joined by single spaces. With no operands the output is just the newline. |
| `Args.SprintlnExample` | logger.go:73-75 | Operands "a", "b" render as "a b". |
| `Args.SplitJoinSpaces` | logger.go:73-75 | Splitting the joined text at spaces gives back the operand texts, when none of them contains a space. The join loses nothing. |
| `Args.JoinSpacesLength` | logger.go:73-75 | The joined text is as long as the texts together, plus one space between each pair of neighbours. |
| `Args.Sprint` | logger.go:158 | The `Panic` payload is at least as long as the operand texts together. With at least one operand, it adds at most one space fewer than there are operands. |
| `Args.SprintOfStrings` | logger.go:156-159 | When every operand is a string, the `Sprint` payload of `Panic` is their plain concatenation, with no spaces. |
| `Args.SprintOfNonStrings` | logger.go:156-159 | When no operand is a string, `Sprint` spaces them like `Sprintln`, without the newline. |
| `Records.Rendered` | logger.go:69-76 | Without a template the rendering is the operand texts joined by single spaces. With a template it is the printf of the template over the operands. |
| `Records.MessageText` | logger.go:67-80 | The text `Message` returns: the cached text when set; otherwise the operands joined by single spaces without a template, or the printf of the template with one. |
| `Records.CachedAfter` | logger.go:68-78 | After `Message`, a set cache holds the returned text. The cache stays empty exactly when it was empty, there is a template, and the text is "". |
| `Records.NewRecordValue` | logger.go:126-134 | A fresh record starts with no cached message, and its level name is `lvl.String()`. |
| `Records.Record.constructor` | logger.go:126-134 | The new record holds exactly the given contents. |
| `Records.Record.Message` | logger.go:67-80 | Returns the cached text when there is one. Otherwise it returns the rendering. The cache becomes `CachedAfter` of the old state, and nothing else changes. |
| `Records.MessageIdempotent` | logger.go:67-80 | A second `Message` returns the same text as the first and leaves the record as the first call left it. |
| `Records.CachedTextWins` | logger.go:68-79 | After caching, the text no longer depends on the operands or the template. |
| `Records.RenderExamples` | logger.go:73-75 | With no template, "a", "b" render as "a b", and no operands render as "". |
| `Logging.Accepting` | logger.go:135-136 | A handler is in the filtered stack exactly when it is on the stack and its threshold is at or below the record's urgency (`GetLevel() >= lvl`). |
| `Logging.Targets` | logger.go:141 | Gives the handler each call went to, one per call, in order. |
| `Logging.NextId` | logger.go:127 | The unsigned 64-bit increment: one more, except that the maximum wraps to 0. |
| `Logging.Dispatch` | logger.go:135-143 | The dispatch loop as a function: at most one call per handler, and every call a `Handle`. Its full meaning is stated by the dispatch lemmas below and tied to `Logger.Log`. |
| `Logging.DispatchTargets` | logger.go:135-143 | `Handle` is called on exactly the accepting handlers, in stack order. An empty stack gets no calls. |
| `Logging.DispatchReaches` | logger.go:135-143 | A handler receives the record if and only if it is on the stack and accepts the level. |
| `Logging.DispatchKeepsFields` | logger.go:126-143 | Every call is a `Handle`. It carries the built record, with the same ID, time, module, level and level name; only the message cache may differ. |
| `Logging.DispatchMessages` | logger.go:137-141 | A formattable handler receives its formatter's text rendered from the record as the previous handler left it. A plain handler receives that record unchanged. |
| `Logging.FormattedTextReachesLaterHandlers` | logger.go:137-141 | A plain handler after a formattable one receives the formatter's text, because the shared cache is not reset. The source's own `@todo` at logger.go:137 marks this sharing as unfinished; the model keeps the code as written. |
| `Logging.WarningThreshold` | logger.go:136 | A handler set to WARNING gets no DEBUG, INFO or NOTICE record. It gets every WARNING, ERROR and CRITICAL record. |
| `Logging.LastPushedHandledFirst` | logger.go:95-97 | With two accepting handlers, the one at the front (pushed last) is handled first. |
| `Logging.CounterAfterValue` | logger.go:127 | Without wrap-around, n log calls move the counter forward by exactly n. |
| `Logging.IdsStrictlyIncrease` | logger.go:127 | IDs from later log calls are strictly larger, hence unique, until the counter wraps. |
| `Logging.SequenceNo.constructor` | logger.go:24-26 | The counter starts at zero, so the first ID is 1. |
| `Logging.Logger.constructor` | logger.go:91-93 | A new logger has the given name, no handlers, the zero level, and is open. |
| `Logging.Logger.PushHandler` | logger.go:95-97 | The stack becomes `[h] + old`. |
| `Logging.Logger.PopHandler` | logger.go:99-106 | On a non-empty stack it returns the last element and leaves `old[..len-1]`. An empty stack is excluded (the source panics). |
| `Logging.Logger.SetHandlers` | logger.go:108-110 | The stack becomes the given sequence. |
| `Logging.Logger.GetHandlers` | logger.go:112-114 | Returns the current stack. |
| `Logging.Logger.Close` | logger.go:116-124 | Afterwards the logger is closed. From open, it closes every handler once, in stack order. From closed, it makes no call. |
| `Logging.Logger.Log` | logger.go:125-144 | Advances the counter by `NextId`. It builds the record with the new ID, the logger's name and `lvl.String()`, and its calls are exactly `Dispatch` of that record over the stack. |
| `Logging.Logger.Fatal` | logger.go:146-149 | Logs at CRITICAL with no template, then yields exit status 1. |
| `Logging.Logger.Fatalf` | logger.go:151-154 | Logs at CRITICAL with the template, then yields exit status 1. |
| `Logging.Logger.Panic` | logger.go:156-159 | Logs at CRITICAL with no template. The panic payload is `Sprint` of the operands. |
| `Logging.Logger.Panicf` | logger.go:161-164 | Logs at CRITICAL with the template. The panic payload is the printf of the template. |
| `Logging.Logger.Critical` | logger.go:166-168 | Logs at CRITICAL with no template. |
| `Logging.Logger.Criticalf` | logger.go:170-172 | Logs at CRITICAL with the template. |
| `Logging.Logger.Error` | logger.go:174-176 | Logs at ERROR with no template. |
| `Logging.Logger.Errorf` | logger.go:178-180 | Logs at ERROR with the template. |
| `Logging.Logger.Warning` | logger.go:182-184 | Logs at WARNING with no template. |
| `Logging.Logger.Warningf` | logger.go:186-188 | Logs at WARNING with the template. |
| `Logging.Logger.Notice` | logger.go:190-192 | Logs at NOTICE with no template. |
| `Logging.Logger.Noticef` | logger.go:194-196 | Logs at NOTICE with the template. |
| `Logging.Logger.Info` | logger.go:198-200 | Logs at INFO with no template. |
| `Logging.Logger.Infof` | logger.go:202-204 | Logs at INFO with the template. |
| `Logging.Logger.Debug` | logger.go:206-208 | Logs at DEBUG with no template. |
| `Logging.Logger.Debugf` | logger.go:210-212 | Logs at DEBUG with the template. |
| `Console.NewConsoleHandler` | handler/console_handler.go:34-43 | The threshold is the given level. Colour is disabled if and only if the platform is "windows". |
| `Console.GetLevelOfNew` | handler/console_handler.go:34-47 | `GetLevel` returns exactly the threshold given at construction. |
| `Console.GetLevel` | handler/console_handler.go:45-47 | Returns the handler's threshold. |
| `Console.LevelColor` | handler/console_handler.go:58-73 | The label always starts with "[" and ends with "]". |
| `Console.PlainLabel` | handler/console_handler.go:58-72 | With colour off, the label of every rank is "[" + name + "]". |
| `Console.ColoredLabel` | handler/console_handler.go:60-67 | With colour on, a defined level's label is "[" + colour + name + reset + "]". The colour is red for CRITICAL and ERROR, yellow for WARNING, and blue for NOTICE, INFO and DEBUG. |
| `Console.UnknownLabel` | handler/console_handler.go:65-71 | A rank above DEBUG matches no colour branch and is "[UNKNOWN]", with colour on or off. |
| `Console.PaletteDistinct` | handler/console_handler.go:22-27 | Red, yellow and blue are three different codes. |
| `Console.HandleTextShape` | handler/console_handler.go:49-52 | The text given to `Printf` is the label, then exactly the record's message, then "\n", with no space between them. |
| `Console.HandleText` | handler/console_handler.go:49-52 | The text handed to `Printf` starts with "[" (the label) and ends with "\n". |
| `Console.LabelHasNoPercent` | handler/console_handler.go:58-73 | No level label contains `%`: the level names and the palette codes hold no printf verb. |
| `Console.HandleOutputVerbatim` | handler/console_handler.go:49-52 | The printed line is the text handed to `Printf`, which is the label, the message and "\n", whenever the message holds no `%`. This relies on Go's rule that a format with no verbs is copied unchanged. A `%` in the message would be read by printf. |
| `Console.Close` | handler/console_handler.go:54-56 | Closing always returns a nil error. |
| `Console.AsHandler` | handler/console_handler.go:29-47 | To the logger, a console handler shows its own threshold and has no formatter. |
| `Console.ConsoleAtInfo` | handler/console_handler.go:45-72 | Take a stack holding only a console handler at INFO, with colour off. A DEBUG record gets no call. An ERROR record gets one `Handle`, whose text is "[ERROR]", the message and a newline. |
| `Scenarios.PushPushInfo` | logger.go:95-97 | Push A, push B, then `Info("hi")`: B is handled before A, and both receive the text "hi". |
| `Scenarios.CloseTwice` | logger.go:116-124 | Over two `Close` calls, every handler is closed exactly once, in order. The second call closes nothing. |
| `Scenarios.PushThenPop` | logger.go:95-106 | Pop after push returns the pushed handler only on an empty stack. Otherwise it returns the old last element. |
| `Scenarios.TwoLoggers` | logger.go:125-134 | Two loggers share one counter. Every record of the later call has a larger ID than every record of the earlier call. |
| `Scenarios.ConsoleEndToEnd` | handler/console_handler.go:34-52 | On logger "svc" with a console handler at INFO on windows, `Debugf` produces no call. `Errorf("boom %s", "now")` produces one, shown as "[ERROR]", the rendered message and "\n". |

## Left out

- Atomic increment: `sequenceNo` is an ordinary counter object passed to every log call. Concurrent callers are not modelled.
- Time: `time.Now()` becomes the `now` parameter.
- Process exit and panics: `Fatal`/`Fatalf` return the exit status 1 instead of ending the process. `Panic`/`Panicf` return the panic payload instead of unwinding.
- Templates: `fmt.Sprintf` substitution is not modelled. Every operation that uses it takes it as the `sprintf` parameter. Non-string operands are given by the text `%v` prints for them.
- `getLevelColor` computes `fmt.Sprintf` of texts that hold no `%` and take no operands. Such a call returns its text unchanged, so the model leaves it out.
- Handler implementations: the `Handler`, `FormattableHandler` and `Formatter` interfaces are not part of this model. A handler is its identity, a fixed threshold and an optional formatter identity. `Formatter.format` is the `formatter` parameter. A handler's own side effects and any re-entry into the logger are not modelled.
- Console.HandleOutput: writing to standard output becomes the produced string. That string is the handed-over text used as a printf template with no operands. `runtime.GOOS` is a constructor parameter.
- Slices as values: `SetHandlers` stores and `GetHandlers` returns a Go slice that may share storage with the caller. The model copies sequences, so that aliasing is not modelled.
- Close errors: handler `Close` results are ignored by the logger, as in the source. The trace records only that each handler was closed.
- A formatter returning a nil byte slice is not distinguished from one returning "". The cache is always set after a formatter runs.
- Bytes: messages are character sequences. Removing Go's trailing newline byte is modelled as removing the last character.
- `Logger.level` is kept as a field but is never read, as in the source.
