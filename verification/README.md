# PhpProcessThread: run and shutdown of one PHP request

This project models the task lifecycle of `TechDivision\PhpModule\PhpProcessThread`.
A thread object is built from a script filename, a snapshot of the request
globals and a list of uploaded files. Its `run` step installs the globals,
registers each upload, resets the headers-sent flag and includes the script.
An exception thrown by the script is caught and becomes the thread's
`lastError`, with level `E_ERROR`. The `shutdown` step that follows then does three things:

- It keeps an error that is already set, and otherwise adopts the runtime's `error_get_last()` (first write wins).
- It chooses the output buffer: the captured output if it is non-empty; a synthesized `PHP Fatal error: <message> in <file> on line <line>` if the output is empty and the error level is `E_ERROR`; otherwise PHP `null`.
- It stores the headers the header facility reports.

The model is functional. `ProcessThread.Task` is an immutable record. `Run`,
`Finalize` and `Shutdown` are pure functions. Each step returns the new task
together with a trace of `Event`s. The trace lists, in order, the foreign
calls the step makes (`ob_start`, upload registration, `chdir`,
`appserver_set_headers_sent`, the `require`, `error_get_last`,
`ob_get_clean`, `appserver_get_headers`) and the result fields it writes.
Values these calls return are parameters: the script's outcome, the
runtime's last error, the captured buffer and the headers. PHP `null` is
`Option.None`. The `false` that `ob_get_clean()` returns when no buffer is
active is also `None`, and its `strlen` is 0.

Modules:
- `Wrappers` (wrappers.dfy): `Option`.
- `Decimal` (decimal.dfy): PHP's integer-to-string conversion, used for the line number in the fatal-error text. It comes with a parser and a round-trip proof.
- `Selection` (selection.dfy): reads one kind of event out of a trace.
- `ProcessThread` (process_thread.dfy): the data model, the constructor, `Run`, `Finalize`, `Shutdown`, the whole `Process` and the getters.
- `Lifecycle` (lifecycle.dfy): properties of a whole request: call order, write-once results, error capture and output selection.

Details of the code's behaviour that the model keeps:
- The synthesized text starts with `PHP Fatal error: `.
- Output buffering (`ob_start`) starts before the globals are installed and before the headers-sent flag is reset.
- When the output is empty and there is no `E_ERROR`, `$errorMessage` is never assigned, so the stored buffer is `null`, never the empty string.
- Only level `E_ERROR` (1) is turned into text. Other fatal levels such as `E_PARSE` or `E_COMPILE_ERROR` leave the buffer `null`.
- The level test is PHP's loose `$this->lastError['type'] == E_ERROR`. On a `null` last error this compares `null == 1`, which is false (`ProcessThread.LooseEqualsInt`, `ProcessThread.LevelTestMeansFatal`).

## Model

| member | source | states |
|---|---|---|
| ProcessThread.Construct | src/TechDivision/PhpModule/PhpProcessThread.php:70-75 | the new thread holds the script filename, the globals and the upload list (empty by default); last error, output buffer and headers are still null |
| ProcessThread.Registrations | src/TechDivision/PhpModule/PhpProcessThread.php:103-106 | the upload loop makes one registration call per listed file, the i-th call naming the i-th file |
| ProcessThread.ExceptionRecord | src/TechDivision/PhpModule/PhpProcessThread.php:116-124 | the record built in the catch block has level E_ERROR and the exception's message, file and line |
| ProcessThread.Caught | src/TechDivision/PhpModule/PhpProcessThread.php:113-125 | the catch block records an error exactly when the included script threw |
| ProcessThread.Run | src/TechDivision/PhpModule/PhpProcessThread.php:82-127 | run always completes; a thrown exception becomes lastError {message, E_ERROR, file, line} taken from the exception; a normal return leaves lastError as it was; output buffer, headers, script, globals and uploads are untouched |
| ProcessThread.Finalize | src/TechDivision/PhpModule/PhpProcessThread.php:134-155 | a set lastError is kept and an unset one is replaced by the runtime's last error; non-empty captured output is the buffer whatever the error; empty output with an E_ERROR gives the "PHP Fatal error: ... in ... on line ..." text; empty output otherwise gives null; headers are exactly those reported |
| ProcessThread.Shutdown | src/TechDivision/PhpModule/PhpProcessThread.php:134-155 | the completed task carries the resolved last error, buffer and headers as above, and the runtime's last error is queried if and only if no error was set |
| ProcessThread.LevelTestMeansFatal | src/TechDivision/PhpModule/PhpProcessThread.php:142 | the loose test `$this->lastError['type'] == E_ERROR` holds if and only if an error is set and its level is E_ERROR; on a null error it compares null with 1, which is false (null loosely equals only 0) |
| ProcessThread.FatalMessage | src/TechDivision/PhpModule/PhpProcessThread.php:143-144 | the synthesized text starts with "PHP Fatal error: " and the message, and ends with the decimal line number, which parses back to exactly that line |
| ProcessThread.Process | src/TechDivision/PhpModule/PhpProcessThread.php:82-155 | a whole request always completes with the constructor's script, globals and uploads; lastError is the exception's record on a throw and the runtime's last error on a return; headers are exactly those reported; non-empty output is kept; the runtime is queried if and only if the script returned |
| ProcessThread.GetOutputBuffer | src/TechDivision/PhpModule/PhpProcessThread.php:162-165 | returns the stored output buffer unchanged |
| ProcessThread.GetHeaders | src/TechDivision/PhpModule/PhpProcessThread.php:172-175 | returns the stored headers unchanged |
| ProcessThread.GetLastError | src/TechDivision/PhpModule/PhpProcessThread.php:183-186 | returns the stored last error unchanged |
| Decimal.NatToString | src/TechDivision/PhpModule/PhpProcessThread.php:143-144 | a line number prints as a non-empty string of decimal digits with no leading zero except for 0 |
| Decimal.IntToString | src/TechDivision/PhpModule/PhpProcessThread.php:143-144 | an integer prints as a non-empty string that starts with '-' exactly when the integer is negative |
| Decimal.NatToStringRoundTrip | src/TechDivision/PhpModule/PhpProcessThread.php:143-144 | the digits printed for a natural number denote that number |
| Decimal.IntToStringRoundTrip | src/TechDivision/PhpModule/PhpProcessThread.php:143-144 | the printed form of any integer parses back to the same integer |
| Decimal.IntToStringInjective | src/TechDivision/PhpModule/PhpProcessThread.php:143-144 | distinct line numbers print differently |
| Lifecycle.RegistrationsRegisterEachOnce | src/TechDivision/PhpModule/PhpProcessThread.php:103-106 | the files named by the registration calls are exactly the upload list, each once, in list order |
| Lifecycle.PreludeRegistersUploads | src/TechDivision/PhpModule/PhpProcessThread.php:88-111 | everything run does before the include registers exactly the thread's uploads, in order |
| Lifecycle.CallOrder | src/TechDivision/PhpModule/PhpProcessThread.php:88-115 | over a whole request, the uploads registered are exactly the constructor's list in order; the script is included exactly once; all registrations and the headers-sent reset come before the include; no result field is written before it |
| Lifecycle.ShutdownWritesOnce | src/TechDivision/PhpModule/PhpProcessThread.php:116-154 | after the include, the catch block and shutdown together write lastError, headers and outputBuffer once each, with the resolved values |
| Lifecycle.ResultsWrittenOnce | src/TechDivision/PhpModule/PhpProcessThread.php:113-154 | on every path a request writes lastError, headers and outputBuffer exactly once each, and the written values are the ones the task ends with |
| Lifecycle.ExceptionCapturedAndKept | src/TechDivision/PhpModule/PhpProcessThread.php:113-139 | when the script throws, the request still completes, its lastError is the exception's record with E_ERROR whatever the runtime recorded, and error_get_last is never called |
| Lifecycle.RuntimeErrorAdoptedAfterReturn | src/TechDivision/PhpModule/PhpProcessThread.php:136-139 | when the script returns, lastError is the runtime's last error (possibly null), and error_get_last is called |
| Lifecycle.ResolutionIsStable | src/TechDivision/PhpModule/PhpProcessThread.php:136-139 | once an error has been resolved, resolving again against any other runtime error changes nothing (first write wins) |
| Lifecycle.ScriptOutputWins | src/TechDivision/PhpModule/PhpProcessThread.php:141-154 | non-empty captured output is the stored buffer, for any script outcome and any runtime error |
| Lifecycle.UncaughtExceptionReported | src/TechDivision/PhpModule/PhpProcessThread.php:116-146 | a script that throws and prints nothing gets "PHP Fatal error: <message> in <file> on line <line>" from the exception as its buffer |
| Lifecycle.SilentReturnOutput | src/TechDivision/PhpModule/PhpProcessThread.php:137-147 | a script that returns and prints nothing gets a non-null buffer if and only if the runtime recorded an E_ERROR, and then it is that error's fatal text |
| Lifecycle.OutputNeverEmptyString | src/TechDivision/PhpModule/PhpProcessThread.php:141-154 | the stored buffer is never the empty string: it is non-empty output, non-empty fatal text, or null |
| Lifecycle.GettersReportResolvedResults | src/TechDivision/PhpModule/PhpProcessThread.php:157-186 | the getters return null output and headers before shutdown; afterwards they return exactly the buffer, headers and last error that shutdown resolved |
| Lifecycle.ExampleExceptionKept | src/TechDivision/PhpModule/PhpProcessThread.php:113-146 | an exception "boom" at x.script:42 beats a recorded runtime fatal and, with no output, yields "PHP Fatal error: boom in x.script on line 42" |
| Lifecycle.ExampleRuntimeFatal | src/TechDivision/PhpModule/PhpProcessThread.php:137-154 | a runtime fatal "oops" at y.script:7 with no output yields "PHP Fatal error: oops in y.script on line 7"; with output "hello" the buffer stays "hello" |

## Left out

- The `\Thread` base class and `register_shutdown_function` (line 85) are not modelled. They are concurrency and runtime-hook machinery. `Shutdown` is the step that follows `Run`, and each requires the phase its predecessor leaves.
- Cross-thread isolation, and how the result fields become visible to another thread, are not modelled. A sequential model cannot express them.
- The superglobal assignments (lines 93-101) appear only as one `InstallGlobals` event carrying the snapshot. `PhpGlobals` is not part of this model, so its fields are given as string maps and a string body.
- Output buffering, `chdir(dirname(...))` and `require` are events only. `dirname` is not computed: the event names the script. The captured buffer and the script outcome are parameters.
- A script that stops with a fatal error instead of an exception is modelled as `Returned`. Nothing in `run` follows the include except the catch, and the fatal error reaches shutdown through `error_get_last()`.
- `Throwable`s that are not `\Exception`s do not exist in PHP 5, which the code targets, so they are not modelled.
- `appserver_register_file_upload`, `appserver_set_headers_sent`, `appserver_get_headers` and `error_get_last` are foreign calls. They appear as events, and their results as parameters. A failed registration is not modelled.
- The header array is opaque to this code. It is modelled as a sequence of name/value `Header`s.
- The notice PHP raises when shutdown reads the unassigned `$errorMessage` is not modelled. Only the resulting `null` is.
- Line numbers are unbounded integers, not 64-bit PHP integers. Real line numbers never come near that limit.
