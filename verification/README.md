# cpplogger in Dafny

This project models cpplogger, a small C++ logging library with two independent front ends.

- **The deferred-formatting logger** (`lib/include/log.h`). A `LOG_*` macro captures the level, the format string, the call site and the arguments (by value; a C string is kept as its address) into a `log_entry`. `push_entry` puts the entry on a FIFO queue. A background worker (`log_fn`) pops entries one at a time, renders each with `to_string`, and writes the line to standard output. Rendering happens only at this point, through `format_log_string`, which wraps `snprintf`. `terminate` clears the `running` flag and joins the worker once the worker has drained the queue.
- **The category façade** (`src/cpplog.h`, `src/cpplog.cpp`). There are four categories: VERBOSE/0, DEBUG/1, WARN/2 and ERROR/3. A selector such as `logger::warn(file, line)` stamps a source location on its category and returns a temporary `category_wrapper`. Each `<<` appends the value's text to the category's buffer, but only when the global threshold enables the category. The wrapper's destructor releases the line, which calls the global backend once with the level, the label, the location and the buffered text. The default backend prints `[label][file(line)]: content`.

The model has six modules:

- `Wrappers` defines `Option` and `Result`.
- `Strings` holds the decimal text a stream writes for integers, and cutting a string at a separator.
- `LogLevels` holds `log_level_t` and the name its stream operator writes.
- `LogEntries` holds `format_log_string`, `log_entry` and `to_string`, plus a parser that reads a rendered line back into its fields.
- `AsyncLogger` describes the queue and the worker in two forms:
  - a pure state machine (`State`, `Step`, `Join`, `TerminateSpec`, and event traces `Exec`);
  - a class `Logger` whose methods update the queue, the flag, the output and the worker in place, each proved equal to the state machine.
- `CppLog` holds the classes `Category`, `CategoryWrapper` and `Logger`. They carry the threshold, the backend and a record of backend calls, and are updated in place.

Threads are removed. Each public operation and each pass of the worker's loop is one atomic step, and a trace of events stands for an interleaving of such steps. This covers interleavings of pushes and worker passes, but not a `terminate` overlapping another `terminate` (see "## Left out"). Both the C library's `snprintf` and a user-installed backend are outside the model:

- `snprintf` is a function parameter (`Printf`). It yields the full formatted text, or nothing when the C library reports an error.
- A user-installed backend is recorded by identity, together with the arguments of each call.

## Model

| member | source | states |
|---|---|---|
| LogLevels.Ordinal | lib/include/log.h:35-44 | every level's enumerator value lies in 0..6 |
| LogLevels.FromOrdinal | lib/include/log.h:35-44 | an ordinal names a level exactly when it lies in 0..6, and then that level's ordinal is the number |
| LogLevels.Name | lib/include/log.h:47-60 | each level writes a non-empty name without spaces (NONE, CRITICAL, ERROR, WARNING, INFO, DEBUG, VERBOSE), from which the level is read back, so no two levels share a name |
| LogLevels.NameOfOrdinal | lib/include/log.h:47-60 | a value of the enumeration type outside 0..6 writes nothing (the switch has no default); inside that range it writes the matching level's name |
| LogEntries.WrapInt32 | lib/include/log.h:76 | `int` arithmetic: the result is in the 32-bit range, equals the exact value when that fits, and wraps INT_MAX + 1 to INT_MIN |
| LogEntries.SizePass | lib/include/log.h:76 | the size pass of `snprintf` returns -1 exactly on a formatter error or a text longer than INT_MAX characters, and otherwise the text's length |
| LogEntries.FormatLogString | lib/include/log.h:73-82 | fails exactly when `size_s` = count + 1 is not positive (count -1, or count INT_MAX, which wraps); otherwise the result is the formatter's text, exactly `size_s - 1` characters long |
| LogEntries.Render | lib/include/log.h:114-127 | `to_string` fails exactly when formatting its message fails |
| LogEntries.RenderParses | lib/include/log.h:114-127 | a successful rendering is the level name, a space, the file, a colon, the decimal line, a space and the formatted message, in that order: parsing it gives back each of those fields |
| LogEntries.ParseLayout | lib/include/log.h:117-125 | the parser inverts the layout `<LEVEL> <file>:<line> <message>` for any file name without a colon |
| Strings.NatToDecimalCanonical | lib/include/log.h:119 | the decimal text of a line number is at least one digit with no leading zero, and a single digit exactly below ten |
| Strings.DecimalRoundTrip | lib/include/log.h:119 | the decimal text of a number reads back as that number |
| Strings.IntToDecimalSignAndMagnitude | src/cpplog.h:57 | what `<<` writes for a signed integer is a minus sign exactly when the number is negative, then the canonical decimal text of its magnitude, which reads back as the magnitude |
| Strings.DecimalCanonicalRoundTrip | src/cpplog.cpp:14 | every canonical digit string is the decimal text of the number it denotes, so the decimal form is a bijection |
| AsyncLogger.Step | lib/include/log.h:144-165 | a worker pass on an empty queue exits exactly when not running and otherwise changes nothing; on a non-empty queue it removes exactly the front entry and appends exactly its line to the output |
| AsyncLogger.StepAsWritten | lib/include/log.h:160-164 | as written, a formatting error takes the entry off the queue, writes nothing and kills the worker; in every other case the pass behaves as the corrected `Step` |
| AsyncLogger.JoinDrains | lib/include/log.h:147-152 | once `running` is false, the worker exits only after writing every queued entry's line, in queue order |
| AsyncLogger.TerminateAsWritten | lib/include/log.h:202-210 | a spurious failure of `compare_exchange_weak` leaves the state unchanged; otherwise the call is the intended `terminate` |
| AsyncLogger.TerminateFlushes | lib/include/log.h:202-215 | after `terminate` on a running logger, the logger is stopped, the queue is empty, every queued entry has been written in order, and the worker has exited; on a stopped logger the call changes nothing |
| AsyncLogger.TerminateIdempotent | lib/include/log.h:202-215 | a second `terminate` is a no-op |
| AsyncLogger.WorkerConserves | lib/include/log.h:144-165 | a worker pass or a `terminate` moves lines from the queue to the output without losing or reordering any |
| AsyncLogger.ApplyConserves | lib/include/log.h:192-215 | the same holds for any single event, pushes included |
| AsyncLogger.ExecConserves | lib/include/log.h:142-215 | over any trace of pushes, worker passes and terminates, the output followed by the lines still queued equals the lines of every entry ever pushed, in push order |
| AsyncLogger.ExecKeepsRunning | lib/include/log.h:142-200 | without `terminate`, the logger keeps running and its worker keeps looping |
| AsyncLogger.TerminateAfterTrace | lib/include/log.h:142-215 | after any pushes and worker passes, `terminate` leaves an empty queue and has written exactly the lines of all entries pushed before it, in push order |
| AsyncLogger.FormatErrorStopsWorker | lib/include/log.h:114-127 | with a failing entry queued before a good one, the worker as written dies and never writes the good entry, while the corrected worker writes a line for both |
| AsyncLogger.WeakExchangeMaySkipDrain | lib/include/log.h:202-210 | a spurious exchange failure returns from `terminate` with the logger running and its queue unwritten, whereas the intended `terminate` empties it |
| AsyncLogger.ExitIntended | lib/include/log.h:212-215 | if the destructor's `terminate` ran at exit, a running logger would first write every queued entry's line, in order |
| AsyncLogger.ExitLosesQueued | lib/include/log.h:185 | the logger made with `new` is never deleted, so at exit the lines of entries still queued are missing from what was written, compared with a run of the destructor |
| AsyncLogger.Logger.constructor | lib/include/log.h:169-173 | a new logger is running, its worker is looping, and nothing is queued or written |
| AsyncLogger.Logger.PushEntry | lib/include/log.h:192-200 | the entry is appended at the back of the queue; earlier entries and their order are unchanged |
| AsyncLogger.Logger.Log | lib/include/log.h:220-241 | a log call queues one entry carrying exactly its level, format, file, line and arguments |
| AsyncLogger.Logger.Iterate | lib/include/log.h:144-165 | one pass of the loop changes the logger exactly as `Step` does |
| AsyncLogger.Logger.Terminate | lib/include/log.h:202-215 | `terminate` keeps the logger's invariant and changes it exactly as `TerminateSpec`, whose properties `TerminateFlushes` and `TerminateIdempotent` state |
| CppLog.LevelsOrdered | src/cpplog.h:12-15 | VERBOSE < DEBUG < WARN < ERROR; at threshold WARN the verbose and debug categories are disabled and the others enabled; the initial threshold VERBOSE enables every category |
| CppLog.TextsAppend | src/cpplog.h:92-97 | streaming two runs of values writes the first run's text followed by the second's |
| CppLog.DefaultBackendLineFields | src/cpplog.cpp:12-15 | the default backend's line is `[label][file(line)]: content`, which gives back label, file, line and content, and the level argument plays no part in it |
| CppLog.Category.constructor | src/cpplog.h:46-50 | a category keeps the label and level it is given, with an empty buffer |
| CppLog.Category.Append | src/cpplog.h:52-60 | `<<` appends the value's text exactly when threshold <= level; otherwise the buffer is unchanged; it returns the same category |
| CppLog.Category.SetSourceLocation | src/cpplog.h:62-67 | only the file and line are overwritten, and the same category is returned |
| CppLog.Category.ReleaseLine | src/cpplog.h:30-41 | when threshold > level, no backend call is made and the buffer is kept; otherwise exactly one backend call is made with (level, label, file, line, buffered text), and the buffer is left empty |
| CppLog.CategoryWrapper.constructor | src/cpplog.h:81-85 | the wrapper refers to the category it was given |
| CppLog.CategoryWrapper.Append | src/cpplog.h:92-97 | `<<` on the wrapper has exactly the effect of `<<` on its category |
| CppLog.CategoryWrapper.AppendAll | src/cpplog.h:92-97 | a chain of `<<` appends the values' text in order when the category is enabled, and nothing otherwise |
| CppLog.CategoryWrapper.Destroy | src/cpplog.h:87-90 | destroying the wrapper performs exactly one release of its category's line |
| CppLog.Logger.CategoryOf | src/cpplog.h:102-120 | each selector picks the category of the matching level |
| CppLog.Logger.constructor | src/cpplog.cpp:5-15 | the categories are VERBOSE/0, DEBUG/1, WARN/2 and ERROR/3, distinct and with empty buffers; the threshold is VERBOSE_LEVEL; the backend is the default one; nothing has been dispatched |
| CppLog.Logger.Verbose | src/cpplog.h:102-105 | `verbose(file, line)` stamps the location on the verbose category and returns a new wrapper around it |
| CppLog.Logger.Debug | src/cpplog.h:107-110 | the same for the debug category |
| CppLog.Logger.Warn | src/cpplog.h:112-115 | the same for the warn category |
| CppLog.Logger.Error | src/cpplog.h:117-120 | the same for the error category |
| CppLog.Logger.Select | src/cpplog.h:102-120 | the selector named by `which` stamps the location on that category and returns a wrapper around it |
| CppLog.Logger.SetLevel | src/cpplog.h:122-125 | replaces the threshold and nothing else |
| CppLog.Logger.SetBackend | src/cpplog.h:127-130 | replaces the backend and nothing else |
| CppLog.Logger.Statement | src/cpplog.h:77-120 | a whole statement `logger::<which>(file, line) << v1 << ... << vn;` on an enabled category makes exactly one backend call, carrying the statement's location and the values' text in order, and empties the buffer; on a disabled category it makes no call and keeps the buffer (threshold WARN silences verbose and debug, as at examples/example_main.cpp:8,21-24) |
| CppLog.Logger.StatementAtDefaultSite | src/cpplog.h:102-120 | a statement that relies on the default arguments stamps the header file and the selector's declaration line on its category, wherever the statement is; enabled, it makes exactly one backend call reporting that location and empties the buffer; disabled, it makes no call and keeps the buffer |
| CppLog.WarnThresholdAtDefaultSite | examples/example_main.cpp:8-24 | after `set_level(WARN_LEVEL)`, default-site verbose and debug statements make no backend call, and the warn and error statements make one each, reporting `cpplog.h` lines 112 and 117 |

## Left out

- Threads, the queue mutex, the condition variable and its 100 ms timed wait, the atomic flag and memory orders, and the global mutex around the backend call. These serve concurrency. One atomic step per operation or worker pass, with arbitrary event traces, stands in for them.
- AsyncLogger.TerminateFlushes: `terminate` is modelled as one atomic step, although it is a compare-exchange followed by a blocking `join`. A concurrent second call returns as soon as its exchange fails, possibly before the first call's join has drained the queue. "The queue is empty when `terminate` returns" is therefore proved only for the call that won the exchange.
- The double-checked-locking singleton `get_instance`. The model works with one explicit `Logger` object. Because `get_instance` creates it with `new` and nothing deletes it, the destructor `~logger` never runs: only an explicit `terminate` (`LOG_TERMINATE`, the method `Terminate`) writes what is still queued, and `ExitAsWritten`/`ExitLosesQueued` state what a program loses at exit without it.
- What `snprintf` writes for a format and arguments. It is the foreign C library. `Printf` is a parameter, and only the size and error contract of `format_log_string` is modelled.
- Standard output. It is a sequence of lines in `AsyncLogger` (each line is followed by `std::endl`). In `CppLog` it is a record of backend calls, with the default backend's line given by `DefaultBackendLine`. What a user-installed backend does with its arguments is not modelled.
- `thread_local` placement of the categories. The model has the four categories of one thread.
- Values streamed into a category are strings and integers (`Value`). Other types' stream operators are not modelled.
- Argument values are strings and integers (`Arg`). Their C types, their default promotions and C strings' terminating NUL are not modelled.
- AsyncLogger.Logger.Log: a C-string argument (`char[]` or `const char*`) is stored in the entry's tuple as a pointer, so the worker reads its characters only when it renders the entry; `StrArg` holds the characters as they are at the call. The model assumes a caller's string is unchanged and alive until rendered; a buffer changed or freed after the `LOG_*` call changes the message or is undefined behaviour, which the model does not capture.
- Filtering in the deferred-formatting logger: `lib/include/log.h` has no threshold, so every `LOG_*` call is queued and written; only the category façade filters.
- `log_entry` stores its level as `const log_level_t&` bound to the caller's argument, which may be a temporary that no longer exists when the worker renders the entry. The model stores the level by value, as evidently intended.
- `format_log_string` allocates its buffer with `new[]` and never frees it. Memory is not modelled.
- LogEntries.WrapInt32: the model gives `snprintf(...) + 1` the two's-complement wrap of a 32-bit `int`; in C++ that signed overflow (a count of INT_MAX) is undefined, and a compiler may treat `size_s <= 0` as `count < 0`.
- LogEntries.FormatLogString: its failure for a count of INT_MAX rests on that assumed wrap; in C++ the outcome for that count is undefined.
- The conversion of `size_s` to `size_t` and the allocation itself. They can only fail by exhausting memory.
- LogEntries.RenderParses requires the file name to contain no colon. A path such as a Windows drive path would make the line ambiguous to read back; the rendering itself is modelled for every file name.
- CppLog.DefaultBackendLineFields requires the label to contain no `]` and the file no `(`, for the same reason.
- src/log.h and src/logger.cpp are not part of this model: they are an unfinished earlier draft whose operations are declared but not defined.
- lib/compat/std_cpp11_compat.h and lib/compat/std_cpp17_compat.h are not part of this model: they re-implement `std::make_unique` and `std::apply` and add no behaviour.
- The example programs appear only as the call patterns the lemmas and `Statement` describe.

## Findings

| source | as written | input that shows it | evidently intended | confidence | as-written member | corrected member |
|---|---|---|---|---|---|---|
| lib/include/log.h:76-77 | the `runtime_error` thrown by `format_log_string` is not caught in `log_fn`, so it leaves the worker thread and the process is terminated; the entry is already off the queue and later entries are never written | an entry whose format the C library cannot render, e.g. a `%ls` argument holding a wide character that is not representable in the current locale, where `snprintf` returns -1, queued before another entry | the worker survives a bad entry and writes a diagnostic line for it, then continues with the rest of the queue | not executed | AsyncLogger.StepAsWritten (shown by AsyncLogger.FormatErrorStopsWorker) | AsyncLogger.Step, used by AsyncLogger.Logger.Iterate with the diagnostic line `LogEntries.Line` |
| lib/include/log.h:205 | `compare_exchange_weak` may fail spuriously even though `running` is true; `terminate` then returns without stopping or joining the worker, and the queue need not be written | `terminate` on a running logger with entries queued, on a platform where the weak exchange fails spuriously (an LL/SC architecture) | a strong exchange, or a retry loop: the first `terminate` always stops the logger and drains the queue | not executed | AsyncLogger.TerminateAsWritten (shown by AsyncLogger.WeakExchangeMaySkipDrain) | AsyncLogger.TerminateSpec, used by AsyncLogger.Logger.Terminate and proved in AsyncLogger.TerminateFlushes |
| lib/include/log.h:185 | the logger is created with `new` and never deleted, so `~logger`, which calls `terminate`, never runs; a program that returns from `main` without `LOG_TERMINATE` loses every entry still queued | examples/test_logger.cpp without its `LOG_TERMINATE()` at line 26: the entries pushed at lines 20-24 that the worker has not yet taken are never written | the logger is terminated at teardown, so every entry is written before the process ends | not executed | AsyncLogger.ExitAsWritten (shown by AsyncLogger.ExitLosesQueued) | AsyncLogger.ExitIntended, whose drain is proved by AsyncLogger.TerminateFlushes |
| src/cpplog.h:102-117 | the default arguments `__FILE__` and `__LINE__` are expanded where the selectors are declared, so a statement that omits them reports cpplog.h and the declaration line | `logger::warn() << "some i = " << i;` at examples/example_main.cpp:23, with the threshold WARN set at line 8, reports `cpplog.h(112)`; the `error()` statement at line 24 reports `cpplog.h(117)` | the location of the statement itself | not executed | CppLog.Logger.StatementAtDefaultSite | CppLog.Logger.Statement, which receives the call site |
