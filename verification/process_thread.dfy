/** One PHP request executed by a process thread: the constructor stores the
    script, its globals and its uploaded files; `Run` installs them and
    includes the script, turning an uncaught exception into `lastError`;
    `Shutdown` resolves the last error, decides the output buffer and stores
    the headers. Foreign calls (output buffering, the appserver extension,
    `error_get_last`) are recorded as events of a trace, and their results
    are parameters. */
module ProcessThread {
  import opened Wrappers
  import Decimal

  /** PHP's `E_ERROR` error level. */
  const E_ERROR: int := 1

  /** The array PHP keeps as last error: `message`, `type`, `file`, `line`. */
  datatype ErrorRecord = ErrorRecord(message: string, errType: int, file: string, line: int)

  /** What `getMessage()`, `getFile()` and `getLine()` report of an exception. */
  datatype ThrownException = ThrownException(message: string, file: string, line: int)

  /** How the inclusion of the script ends. */
  datatype ScriptOutcome = Returned | Threw(exception: ThrownException)

  /** One header directive as the header facility reports it. */
  datatype Header = Header(name: string, value: string)

  /** An uploaded file is known to the thread by its file name. */
  type UploadedFile = string

  type Vars = map<string, string>

  /** The request snapshot installed as superglobals before the script runs. */
  datatype Globals = Globals(
    server: Vars, request: Vars, post: Vars, get: Vars, cookie: Vars, files: Vars,
    httpRawPostData: string)

  /** Where the task stands in its run-then-shutdown life. */
  datatype Phase = Constructed | Ran | Completed

  /** The thread object. `None` in a result field is PHP `null`. */
  datatype Task = Task(
    scriptFilename: string,
    globals: Globals,
    uploadedFiles: seq<UploadedFile>,
    phase: Phase,
    lastError: Option<ErrorRecord>,
    outputBuffer: Option<string>,
    headers: Option<seq<Header>>)

  /** External calls the task makes and result fields it writes, in order. */
  datatype Event =
    | StartBuffering                   // ob_start()
    | InstallGlobals(globals: Globals) // assignment of the superglobals
    | RegisterUpload(file: UploadedFile)
    | ChangeToScriptDir(script: string)
    | SetHeadersSent(sent: bool)
    | IncludeScript(script: string)
    | QueryLastError                   // error_get_last()
    | CleanBuffer                      // ob_get_clean()
    | FetchHeaders                     // appserver_get_headers(true)
    | WriteLastError(lastError: Option<ErrorRecord>)
    | WriteHeaders(headers: seq<Header>)
    | WriteOutputBuffer(outputBuffer: Option<string>)

  /** A task together with the events of the step that produced it. */
  datatype Step = Step(task: Task, trace: seq<Event>)

  /** The values shutdown resolves: the last error, the output buffer and the headers. */
  datatype Final = Final(lastError: Option<ErrorRecord>, outputBuffer: Option<string>, headers: seq<Header>)

  // ---------------------------------------------------------------------------
  // PHP semantics used by shutdown

  /** `$v['type']` where `$v` holds null or an error array; indexing null yields null. */
  function TypeEntry(v: Option<ErrorRecord>): Option<int> {
    match v
    case None => None
    case Some(e) => Some(e.errType)
  }

  /** PHP's loose `==` between a nullable value and an integer: null compares
      as `false`, so it equals exactly the integer 0. */
  predicate LooseEqualsInt(a: Option<int>, b: int) {
    match a
    case None => b == 0
    case Some(x) => x == b
  }

  /** `strlen` of what `ob_get_clean()` returned; `false` (no active buffer) has length 0. */
  function BufferLength(captured: Option<string>): nat {
    match captured
    case None => 0
    case Some(s) => |s|
  }

  predicate IsFatal(v: Option<ErrorRecord>) {
    v.Some? && v.value.errType == E_ERROR
  }

  /** The level test of shutdown, `$this->lastError['type'] == E_ERROR`,
      holds exactly for a set error of level `E_ERROR`: a null error
      compares as `null == 1`, which is false. */
  lemma LevelTestMeansFatal(v: Option<ErrorRecord>)
    ensures LooseEqualsInt(TypeEntry(v), E_ERROR) <==> IsFatal(v)
    ensures LooseEqualsInt(TypeEntry(None), 0)
  {
  }

  /** The text shutdown writes for a fatal error when the script printed
      nothing: it starts with the fixed prefix and the message, and ends with
      the line number, which reads back exactly. */
  function FatalMessage(e: ErrorRecord): (m: string)
    ensures |m| > |"PHP Fatal error: "| + |e.message| + |Decimal.IntToString(e.line)|
    ensures m[..|"PHP Fatal error: "| + |e.message|] == "PHP Fatal error: " + e.message
    ensures Decimal.ParseInt(m[|m| - |Decimal.IntToString(e.line)|..]) == Some(e.line)
  {
    var head := "PHP Fatal error: " + e.message;
    var d := Decimal.IntToString(e.line);
    var m := head + " in " + e.file + " on line " + d;
    assert m[|m| - |d|..] == d;
    assert m[..|head|] == head;
    Decimal.IntToStringRoundTrip(e.line);
    m
  }

  // ---------------------------------------------------------------------------
  // Lifecycle

  /** The constructor: stores its arguments; no result is set yet. */
  function Construct(scriptFilename: string, globals: Globals, uploadedFiles: seq<UploadedFile> := []): (t: Task)
    ensures t.phase == Constructed
    ensures t.scriptFilename == scriptFilename && t.globals == globals && t.uploadedFiles == uploadedFiles
    ensures t.lastError.None? && t.outputBuffer.None? && t.headers.None?
  {
    Task(scriptFilename, globals, uploadedFiles, Constructed, None, None, None)
  }

  /** One registration call per uploaded file, in list order. */
  function Registrations(files: seq<UploadedFile>): (tr: seq<Event>)
    ensures |tr| == |files|
    ensures forall i | 0 <= i < |files| :: tr[i] == RegisterUpload(files[i])
  {
    if files == [] then [] else [RegisterUpload(files[0])] + Registrations(files[1..])
  }

  /** The calls `run` makes before it includes the script. */
  function Prelude(t: Task): seq<Event> {
    [StartBuffering, InstallGlobals(t.globals)]
    + Registrations(t.uploadedFiles)
    + [ChangeToScriptDir(t.scriptFilename), SetHeadersSent(false)]
  }

  /** The record the catch block builds from an exception. */
  function ExceptionRecord(e: ThrownException): (r: ErrorRecord)
    ensures r.errType == E_ERROR
    ensures r.message == e.message && r.file == e.file && r.line == e.line
  {
    ErrorRecord(e.message, E_ERROR, e.file, e.line)
  }

  /** The error the catch block records: the exception's, if the script threw. */
  function Caught(outcome: ScriptOutcome): (r: Option<ErrorRecord>)
    ensures r.Some? <==> outcome.Threw?
  {
    match outcome
    case Returned => None
    case Threw(e) => Some(ExceptionRecord(e))
  }

  /** The write the catch block makes, if the script threw. */
  function CatchWrites(outcome: ScriptOutcome): seq<Event> {
    if outcome.Threw? then [WriteLastError(Caught(outcome))] else []
  }

  /** The thread's `run`. It never fails: an exception thrown by the script
      becomes the last error, and nothing else of the task changes. */
  function Run(t: Task, outcome: ScriptOutcome): (r: Step)
    requires t.phase == Constructed
    ensures r.task.phase == Ran
    ensures r.task.scriptFilename == t.scriptFilename && r.task.globals == t.globals
    ensures r.task.uploadedFiles == t.uploadedFiles
    ensures r.task.outputBuffer == t.outputBuffer && r.task.headers == t.headers
    ensures outcome.Threw? ==> r.task.lastError == Some(ErrorRecord(outcome.exception.message, E_ERROR, outcome.exception.file, outcome.exception.line))
    ensures outcome.Returned? ==> r.task.lastError == t.lastError
  {
    var task := if outcome.Threw? then t.(phase := Ran, lastError := Caught(outcome)) else t.(phase := Ran);
    Step(task, Prelude(t) + [IncludeScript(t.scriptFilename)] + CatchWrites(outcome))
  }

  /** Shutdown's decision procedure. `lastError` is what `run` left, and
      `runtimeLast`, `captured` and `hdrs` are what `error_get_last()`,
      `ob_get_clean()` and `appserver_get_headers(true)` return. */
  function Finalize(lastError: Option<ErrorRecord>, runtimeLast: Option<ErrorRecord>,
                    captured: Option<string>, hdrs: seq<Header>): (r: Final)
    // first write wins: a set error is kept, an unset one is filled from the runtime
    ensures lastError.Some? ==> r.lastError == lastError
    ensures lastError.None? ==> r.lastError == runtimeLast
    // output the script produced is kept whatever the error
    ensures BufferLength(captured) > 0 ==> r.outputBuffer == captured
    // no output and a fatal error: the error is reported as text
    ensures BufferLength(captured) == 0 && IsFatal(r.lastError) ==>
              r.outputBuffer == Some(FatalMessage(r.lastError.value))
    // no output and no fatal error: null, never the empty string
    ensures BufferLength(captured) == 0 && !IsFatal(r.lastError) ==> r.outputBuffer.None?
    ensures r.headers == hdrs
  {
    var resolved := if lastError.None? then runtimeLast else lastError;
    var errorMessage: Option<string> :=
      if LooseEqualsInt(TypeEntry(resolved), E_ERROR) then Some(FatalMessage(resolved.value)) else None;
    var outputBuffer := if BufferLength(captured) == 0 then errorMessage else captured;
    Final(resolved, outputBuffer, hdrs)
  }

  /** The events of shutdown: the runtime is asked for its last error only
      when none is set; then the buffer is cleaned, the headers fetched and
      both results written, headers first. */
  function ShutdownTrace(lastError: Option<ErrorRecord>, f: Final): seq<Event> {
    (if lastError.None? then [QueryLastError, WriteLastError(f.lastError)] else [])
    + [CleanBuffer, FetchHeaders, WriteHeaders(f.headers), WriteOutputBuffer(f.outputBuffer)]
  }

  /** The thread's `shutdown`, run once after `run`. */
  function Shutdown(t: Task, runtimeLast: Option<ErrorRecord>, captured: Option<string>,
                    hdrs: seq<Header>): (r: Step)
    requires t.phase == Ran
    ensures r.task.phase == Completed
    ensures r.task.scriptFilename == t.scriptFilename && r.task.globals == t.globals
    ensures r.task.uploadedFiles == t.uploadedFiles
    ensures t.lastError.Some? ==> r.task.lastError == t.lastError
    ensures t.lastError.None? ==> r.task.lastError == runtimeLast
    ensures r.task.headers == Some(hdrs)
    ensures BufferLength(captured) > 0 ==> r.task.outputBuffer == captured
    ensures BufferLength(captured) == 0 && IsFatal(r.task.lastError) ==>
              r.task.outputBuffer == Some(FatalMessage(r.task.lastError.value))
    ensures BufferLength(captured) == 0 && !IsFatal(r.task.lastError) ==> r.task.outputBuffer.None?
    ensures QueryLastError in r.trace <==> t.lastError.None?
  {
    var f := Finalize(t.lastError, runtimeLast, captured, hdrs);
    var task := t.(phase := Completed, lastError := f.lastError, headers := Some(f.headers),
                   outputBuffer := f.outputBuffer);
    Step(task, ShutdownTrace(t.lastError, f))
  }

  /** A whole request: construct, run, then shutdown, with both traces joined. */
  function Process(scriptFilename: string, globals: Globals, uploadedFiles: seq<UploadedFile>,
                   outcome: ScriptOutcome, runtimeLast: Option<ErrorRecord>,
                   captured: Option<string>, hdrs: seq<Header>): (r: Step)
    ensures r.task.phase == Completed
    ensures r.task.scriptFilename == scriptFilename && r.task.globals == globals
    ensures r.task.uploadedFiles == uploadedFiles
    ensures outcome.Threw? ==> r.task.lastError == Caught(outcome)
    ensures outcome.Returned? ==> r.task.lastError == runtimeLast
    ensures r.task.headers == Some(hdrs)
    ensures BufferLength(captured) > 0 ==> r.task.outputBuffer == captured
    ensures (QueryLastError in r.trace) <==> outcome.Returned?
  {
    var ran := Run(Construct(scriptFilename, globals, uploadedFiles), outcome);
    var done := Shutdown(ran.task, runtimeLast, captured, hdrs);
    Step(done.task, ran.trace + done.trace)
  }

  // ---------------------------------------------------------------------------
  // Getters

  /** `getOutputBuffer`: the stored buffer, unchanged. */
  function GetOutputBuffer(t: Task): (r: Option<string>)
    ensures r == t.outputBuffer
  {
    t.outputBuffer
  }

  /** `getHeaders`: the stored headers, unchanged. */
  function GetHeaders(t: Task): (r: Option<seq<Header>>)
    ensures r == t.headers
  {
    t.headers
  }

  /** `getLastError`: the stored last error, unchanged. */
  function GetLastError(t: Task): (r: Option<ErrorRecord>)
    ensures r == t.lastError
  {
    t.lastError
  }
}
