/** Properties of a whole request: `Construct`, then `Run`, then `Shutdown`,
    stated over the resulting task and over the trace of calls and writes. */
module Lifecycle {
  import opened Wrappers
  import opened Selection
  import opened ProcessThread
  import Decimal

  // ---------------------------------------------------------------------------
  // Selectors reading one kind of event out of a trace

  function UploadOf(e: Event): Option<UploadedFile> {
    if e.RegisterUpload? then Some(e.file) else None
  }

  function IncludeOf(e: Event): Option<string> {
    if e.IncludeScript? then Some(e.script) else None
  }

  function LastErrorWriteOf(e: Event): Option<Option<ErrorRecord>> {
    if e.WriteLastError? then Some(e.lastError) else None
  }

  function HeadersWriteOf(e: Event): Option<seq<Header>> {
    if e.WriteHeaders? then Some(e.headers) else None
  }

  function OutputWriteOf(e: Event): Option<Option<string>> {
    if e.WriteOutputBuffer? then Some(e.outputBuffer) else None
  }

  /** The task a request ends with. */
  function FinalTask(path: string, g: Globals, files: seq<UploadedFile>, outcome: ScriptOutcome,
                   runtimeLast: Option<ErrorRecord>, captured: Option<string>, hdrs: seq<Header>): Task
  {
    Process(path, g, files, outcome, runtimeLast, captured, hdrs).task
  }

  // ---------------------------------------------------------------------------
  // Upload registration

  /** The registration calls name exactly the given files, once each, in order. */
  lemma {:induction false} RegistrationsRegisterEachOnce(files: seq<UploadedFile>)
    ensures Select(Registrations(files), UploadOf) == files
  {
    if files != [] {
      assert Registrations(files) == [RegisterUpload(files[0])] + Registrations(files[1..]);
      SelectConcat([RegisterUpload(files[0])], Registrations(files[1..]), UploadOf);
      RegistrationsRegisterEachOnce(files[1..]);
      assert [files[0]] + files[1..] == files;
    }
  }

  /** Selecting from what `run` does before the include selects from its
      three parts in turn. */
  lemma PreludeSplit<T>(t: Task, pick: Event -> Option<T>)
    ensures Select(Prelude(t), pick)
            == Select([StartBuffering, InstallGlobals(t.globals)], pick)
               + Select(Registrations(t.uploadedFiles), pick)
               + Select([ChangeToScriptDir(t.scriptFilename), SetHeadersSent(false)], pick)
  {
    var a := [StartBuffering, InstallGlobals(t.globals)];
    var b := Registrations(t.uploadedFiles);
    var c := [ChangeToScriptDir(t.scriptFilename), SetHeadersSent(false)];
    assert Prelude(t) == a + b + c;
    SelectConcat(a + b, c, pick);
    SelectConcat(a, b, pick);
  }

  /** Before the include, `run` registers exactly the task's uploads. */
  lemma PreludeRegistersUploads(t: Task)
    ensures Select(Prelude(t), UploadOf) == t.uploadedFiles
  {
    PreludeSplit(t, UploadOf);
    RegistrationsRegisterEachOnce(t.uploadedFiles);
    SelectNothing([StartBuffering, InstallGlobals(t.globals)], UploadOf);
    SelectNothing([ChangeToScriptDir(t.scriptFilename), SetHeadersSent(false)], UploadOf);
  }

  lemma PreludeIncludesNothing(t: Task)
    ensures Select(Prelude(t), IncludeOf) == []
  {
    PreludeSplit(t, IncludeOf);
    SelectNothing([StartBuffering, InstallGlobals(t.globals)], IncludeOf);
    SelectNothing(Registrations(t.uploadedFiles), IncludeOf);
    SelectNothing([ChangeToScriptDir(t.scriptFilename), SetHeadersSent(false)], IncludeOf);
  }

  lemma PreludeWritesNoLastError(t: Task)
    ensures Select(Prelude(t), LastErrorWriteOf) == []
  {
    PreludeSplit(t, LastErrorWriteOf);
    SelectNothing([StartBuffering, InstallGlobals(t.globals)], LastErrorWriteOf);
    SelectNothing(Registrations(t.uploadedFiles), LastErrorWriteOf);
    SelectNothing([ChangeToScriptDir(t.scriptFilename), SetHeadersSent(false)], LastErrorWriteOf);
  }

  lemma PreludeWritesNoHeaders(t: Task)
    ensures Select(Prelude(t), HeadersWriteOf) == []
  {
    PreludeSplit(t, HeadersWriteOf);
    SelectNothing([StartBuffering, InstallGlobals(t.globals)], HeadersWriteOf);
    SelectNothing(Registrations(t.uploadedFiles), HeadersWriteOf);
    SelectNothing([ChangeToScriptDir(t.scriptFilename), SetHeadersSent(false)], HeadersWriteOf);
  }

  lemma PreludeWritesNoOutput(t: Task)
    ensures Select(Prelude(t), OutputWriteOf) == []
  {
    PreludeSplit(t, OutputWriteOf);
    SelectNothing([StartBuffering, InstallGlobals(t.globals)], OutputWriteOf);
    SelectNothing(Registrations(t.uploadedFiles), OutputWriteOf);
    SelectNothing([ChangeToScriptDir(t.scriptFilename), SetHeadersSent(false)], OutputWriteOf);
  }

  /** After the include, neither the catch block nor shutdown registers an
      upload or includes anything. */
  lemma AfterIncludeCallsNothing(outcome: ScriptOutcome, lastError: Option<ErrorRecord>, f: Final)
    ensures Select(CatchWrites(outcome) + ShutdownTrace(lastError, f), UploadOf) == []
    ensures Select(CatchWrites(outcome) + ShutdownTrace(lastError, f), IncludeOf) == []
  {
    var post := CatchWrites(outcome) + ShutdownTrace(lastError, f);
    assert forall i | 0 <= i < |post| :: !post[i].RegisterUpload? && !post[i].IncludeScript?;
    SelectNothing(post, UploadOf);
    SelectNothing(post, IncludeOf);
  }

  /** Every upload is registered once, in list order, and all registrations
      and the headers-sent reset precede the single inclusion of the script,
      before which no result field is written. */
  lemma CallOrder(path: string, g: Globals, files: seq<UploadedFile>, outcome: ScriptOutcome,
                  runtimeLast: Option<ErrorRecord>, captured: Option<string>, hdrs: seq<Header>)
    ensures var tr := Process(path, g, files, outcome, runtimeLast, captured, hdrs).trace;
      && Select(tr, UploadOf) == files
      && Select(tr, IncludeOf) == [path]
      && exists k | 0 <= k < |tr| ::
           && tr[k] == IncludeScript(path)
           && Select(tr[..k], UploadOf) == files
           && SetHeadersSent(false) in tr[..k]
           && Select(tr[..k], LastErrorWriteOf) == []
           && Select(tr[..k], HeadersWriteOf) == []
           && Select(tr[..k], OutputWriteOf) == []
  {
    var t := Construct(path, g, files);
    var ran := Run(t, outcome);
    var f := Finalize(ran.task.lastError, runtimeLast, captured, hdrs);
    var pre := Prelude(t);
    var post := CatchWrites(outcome) + ShutdownTrace(ran.task.lastError, f);
    assert pre + [IncludeScript(path)] + post == Process(path, g, files, outcome, runtimeLast, captured, hdrs).trace;
    PreludeRegistersUploads(t);
    PreludeIncludesNothing(t);
    PreludeWritesNoLastError(t);
    PreludeWritesNoHeaders(t);
    PreludeWritesNoOutput(t);
    AfterIncludeCallsNothing(outcome, ran.task.lastError, f);
    IncludeSplitsTrace(pre, path, post, files);
  }

  /** The order facts of a trace that is `pre`, then the include, then `post`. */
  lemma IncludeSplitsTrace(pre: seq<Event>, path: string, post: seq<Event>, files: seq<UploadedFile>)
    requires Select(pre, UploadOf) == files && Select(post, UploadOf) == []
    requires Select(pre, IncludeOf) == [] && Select(post, IncludeOf) == []
    requires SetHeadersSent(false) in pre
    requires Select(pre, LastErrorWriteOf) == [] && Select(pre, HeadersWriteOf) == [] && Select(pre, OutputWriteOf) == []
    ensures var tr := pre + [IncludeScript(path)] + post;
      && Select(tr, UploadOf) == files
      && Select(tr, IncludeOf) == [path]
      && exists k | 0 <= k < |tr| ::
           && tr[k] == IncludeScript(path)
           && Select(tr[..k], UploadOf) == files
           && SetHeadersSent(false) in tr[..k]
           && Select(tr[..k], LastErrorWriteOf) == []
           && Select(tr[..k], HeadersWriteOf) == []
           && Select(tr[..k], OutputWriteOf) == []
  {
    var tr := pre + [IncludeScript(path)] + post;
    SelectConcat(pre + [IncludeScript(path)], post, UploadOf);
    SelectConcat(pre, [IncludeScript(path)], UploadOf);
    SelectConcat(pre + [IncludeScript(path)], post, IncludeOf);
    SelectConcat(pre, [IncludeScript(path)], IncludeOf);
    var k := |pre|;
    assert tr[..k] == pre;
    assert tr[k] == IncludeScript(path);
  }

  // ---------------------------------------------------------------------------
  // Results written once each

  /** The last calls of shutdown write the headers, then the output buffer,
      and not the last error. */
  lemma StoreWritesOnce(f: Final)
    ensures var s := [CleanBuffer, FetchHeaders, WriteHeaders(f.headers), WriteOutputBuffer(f.outputBuffer)];
      && Select(s, LastErrorWriteOf) == []
      && Select(s, HeadersWriteOf) == [f.headers]
      && Select(s, OutputWriteOf) == [f.outputBuffer]
  {
    var s1 := [CleanBuffer, FetchHeaders];
    var h := [WriteHeaders(f.headers)];
    var o := [WriteOutputBuffer(f.outputBuffer)];
    assert [CleanBuffer, FetchHeaders, WriteHeaders(f.headers), WriteOutputBuffer(f.outputBuffer)] == s1 + h + o;
    SelectNothing(s1 + h + o, LastErrorWriteOf);
    SelectConcat(s1 + h, o, HeadersWriteOf);
    SelectConcat(s1, h, HeadersWriteOf);
    SelectNothing(s1, HeadersWriteOf);
    SelectConcat(s1 + h, o, OutputWriteOf);
    SelectNothing(s1 + h, OutputWriteOf);
  }

  /** The last error is written once: by the catch block when the script
      threw, otherwise by shutdown after it queries the runtime. */
  lemma LastErrorWrittenOnce(outcome: ScriptOutcome, f: Final, lastError: Option<ErrorRecord>)
    requires lastError == Caught(outcome)
    requires lastError.Some? ==> f.lastError == lastError
    ensures var cq := CatchWrites(outcome) + (if lastError.None? then [QueryLastError, WriteLastError(f.lastError)] else []);
      && Select(cq, LastErrorWriteOf) == [f.lastError]
      && Select(cq, HeadersWriteOf) == []
      && Select(cq, OutputWriteOf) == []
  {
    var cq := CatchWrites(outcome) + (if lastError.None? then [QueryLastError, WriteLastError(f.lastError)] else []);
    if outcome.Threw? {
      assert cq == [WriteLastError(f.lastError)];
    } else {
      assert cq == [QueryLastError] + [WriteLastError(f.lastError)];
      SelectConcat([QueryLastError], [WriteLastError(f.lastError)], LastErrorWriteOf);
    }
    SelectNothing(cq, HeadersWriteOf);
    SelectNothing(cq, OutputWriteOf);
  }

  /** Each result field is written exactly once by the catch block and
      shutdown together, with the value that shutdown resolves. */
  lemma ShutdownWritesOnce(outcome: ScriptOutcome, f: Final, lastError: Option<ErrorRecord>)
    requires lastError == Caught(outcome)
    requires lastError.Some? ==> f.lastError == lastError
    ensures var post := CatchWrites(outcome) + ShutdownTrace(lastError, f);
      && Select(post, LastErrorWriteOf) == [f.lastError]
      && Select(post, HeadersWriteOf) == [f.headers]
      && Select(post, OutputWriteOf) == [f.outputBuffer]
  {
    var cq := CatchWrites(outcome) + (if lastError.None? then [QueryLastError, WriteLastError(f.lastError)] else []);
    var s := [CleanBuffer, FetchHeaders, WriteHeaders(f.headers), WriteOutputBuffer(f.outputBuffer)];
    assert CatchWrites(outcome) + ShutdownTrace(lastError, f) == cq + s;
    LastErrorWrittenOnce(outcome, f, lastError);
    StoreWritesOnce(f);
    SelectConcat(cq, s, LastErrorWriteOf);
    SelectConcat(cq, s, HeadersWriteOf);
    SelectConcat(cq, s, OutputWriteOf);
  }

  /** Every request writes `lastError`, `headers` and `outputBuffer` exactly
      once each, and the value written is the value the task ends with. */
  lemma ResultsWrittenOnce(path: string, g: Globals, files: seq<UploadedFile>, outcome: ScriptOutcome,
                           runtimeLast: Option<ErrorRecord>, captured: Option<string>, hdrs: seq<Header>)
    ensures var r := Process(path, g, files, outcome, runtimeLast, captured, hdrs);
      && r.task.headers == Some(hdrs)
      && Select(r.trace, HeadersWriteOf) == [hdrs]
      && Select(r.trace, OutputWriteOf) == [r.task.outputBuffer]
      && Select(r.trace, LastErrorWriteOf) == [r.task.lastError]
  {
    var t := Construct(path, g, files);
    var ran := Run(t, outcome);
    var f := Finalize(ran.task.lastError, runtimeLast, captured, hdrs);
    var pre := Prelude(t) + [IncludeScript(path)];
    var post := CatchWrites(outcome) + ShutdownTrace(ran.task.lastError, f);
    assert pre + post == Process(path, g, files, outcome, runtimeLast, captured, hdrs).trace;
    PreludeWritesNoLastError(t);
    PreludeWritesNoHeaders(t);
    PreludeWritesNoOutput(t);
    SelectConcat(Prelude(t), [IncludeScript(path)], LastErrorWriteOf);
    SelectConcat(Prelude(t), [IncludeScript(path)], HeadersWriteOf);
    SelectConcat(Prelude(t), [IncludeScript(path)], OutputWriteOf);
    ShutdownWritesOnce(outcome, f, ran.task.lastError);
    SelectConcat(pre, post, LastErrorWriteOf);
    SelectConcat(pre, post, HeadersWriteOf);
    SelectConcat(pre, post, OutputWriteOf);
  }

  // ---------------------------------------------------------------------------
  // Error capture and resolution

  /** An exception thrown by the script does not escape `run`: the request
      still completes, its last error is the exception's record with level
      `E_ERROR`, and the runtime's own last error is never consulted. */
  lemma ExceptionCapturedAndKept(path: string, g: Globals, files: seq<UploadedFile>, e: ThrownException,
                                 runtimeLast: Option<ErrorRecord>, captured: Option<string>, hdrs: seq<Header>)
    ensures var r := Process(path, g, files, Threw(e), runtimeLast, captured, hdrs);
      && r.task.phase == Completed
      && r.task.lastError == Some(ErrorRecord(e.message, E_ERROR, e.file, e.line))
      && QueryLastError !in r.trace
  {
  }

  /** When the script returns, the last error is whatever the runtime
      recorded, queried exactly in this case. */
  lemma RuntimeErrorAdoptedAfterReturn(path: string, g: Globals, files: seq<UploadedFile>,
                                       runtimeLast: Option<ErrorRecord>, captured: Option<string>, hdrs: seq<Header>)
    ensures var r := Process(path, g, files, Returned, runtimeLast, captured, hdrs);
      && r.task.phase == Completed
      && r.task.lastError == runtimeLast
      && QueryLastError in r.trace
  {
  }

  /** Resolution is first-write-wins: once shutdown has settled on an error,
      resolving again against any other runtime error changes nothing. */
  lemma ResolutionIsStable(lastError: Option<ErrorRecord>, runtimeLast: Option<ErrorRecord>,
                           otherLast: Option<ErrorRecord>, captured: Option<string>, hdrs: seq<Header>)
    requires Finalize(lastError, runtimeLast, captured, hdrs).lastError.Some?
    ensures var f := Finalize(lastError, runtimeLast, captured, hdrs);
      Finalize(f.lastError, otherLast, captured, hdrs) == f
  {
  }

  // ---------------------------------------------------------------------------
  // Output buffer

  /** Output the script printed is the request's output, whatever failed. */
  lemma ScriptOutputWins(path: string, g: Globals, files: seq<UploadedFile>, outcome: ScriptOutcome,
                         runtimeLast: Option<ErrorRecord>, captured: Option<string>, hdrs: seq<Header>)
    requires BufferLength(captured) > 0
    ensures FinalTask(path, g, files, outcome, runtimeLast, captured, hdrs).outputBuffer == captured
  {
  }

  /** A silent script that threw reports the exception as a fatal error text. */
  lemma UncaughtExceptionReported(path: string, g: Globals, files: seq<UploadedFile>, e: ThrownException,
                                  runtimeLast: Option<ErrorRecord>, captured: Option<string>, hdrs: seq<Header>)
    requires BufferLength(captured) == 0
    ensures FinalTask(path, g, files, Threw(e), runtimeLast, captured, hdrs).outputBuffer
            == Some("PHP Fatal error: " + e.message + " in " + e.file + " on line " + Decimal.IntToString(e.line))
  {
  }

  /** A silent script that returned reports the runtime's error as text
      exactly when that error has level `E_ERROR`, and otherwise leaves the
      output buffer `null` rather than the empty string. */
  lemma SilentReturnOutput(path: string, g: Globals, files: seq<UploadedFile>,
                           runtimeLast: Option<ErrorRecord>, captured: Option<string>, hdrs: seq<Header>)
    requires BufferLength(captured) == 0
    ensures var out := FinalTask(path, g, files, Returned, runtimeLast, captured, hdrs).outputBuffer;
      && (out.Some? <==> runtimeLast.Some? && runtimeLast.value.errType == E_ERROR)
      && (out.Some? ==> out == Some(FatalMessage(runtimeLast.value)))
  {
  }

  /** Shutdown never stores the empty string: the buffer is either text the
      script printed, a non-empty error text, or `null`. */
  lemma OutputNeverEmptyString(path: string, g: Globals, files: seq<UploadedFile>, outcome: ScriptOutcome,
                               runtimeLast: Option<ErrorRecord>, captured: Option<string>, hdrs: seq<Header>)
    ensures FinalTask(path, g, files, outcome, runtimeLast, captured, hdrs).outputBuffer != Some("")
  {
  }

  // ---------------------------------------------------------------------------
  // Getters

  /** The getters report `null` results until shutdown, and afterwards
      exactly what shutdown resolved. */
  lemma GettersReportResolvedResults(path: string, g: Globals, files: seq<UploadedFile>, outcome: ScriptOutcome,
                                     runtimeLast: Option<ErrorRecord>, captured: Option<string>, hdrs: seq<Header>)
    ensures var t := Construct(path, g, files);
      GetOutputBuffer(t).None? && GetHeaders(t).None? && GetLastError(t).None?
    ensures var ran := Run(Construct(path, g, files), outcome);
      GetOutputBuffer(ran.task).None? && GetHeaders(ran.task).None?
    ensures var ran := Run(Construct(path, g, files), outcome);
      var f := Finalize(ran.task.lastError, runtimeLast, captured, hdrs);
      var done := FinalTask(path, g, files, outcome, runtimeLast, captured, hdrs);
      && GetOutputBuffer(done) == f.outputBuffer
      && GetHeaders(done) == Some(f.headers)
      && GetLastError(done) == f.lastError
  {
  }

  // ---------------------------------------------------------------------------
  // Worked examples

  /** A script that throws "boom" at x.script line 42 and prints nothing keeps
      that error over a recorded runtime fatal and reports it as text. */
  lemma ExampleExceptionKept(g: Globals)
    ensures var t := FinalTask("x.script", g, [], Threw(ThrownException("boom", "x.script", 42)),
                             Some(ErrorRecord("oops", E_ERROR, "y.script", 7)), Some(""), []);
      && t.lastError == Some(ErrorRecord("boom", E_ERROR, "x.script", 42))
      && t.outputBuffer == Some("PHP Fatal error: boom in x.script on line 42")
  {
    assert Decimal.DigitChar(4) == '4' && Decimal.DigitChar(2) == '2';
    assert Decimal.IntToString(42) == "42";
    assert "PHP Fatal error: " + "boom" + " in " + "x.script" + " on line " + Decimal.IntToString(42)
           == "PHP Fatal error: boom in x.script on line 42";
    UncaughtExceptionReported("x.script", g, [], ThrownException("boom", "x.script", 42),
                              Some(ErrorRecord("oops", E_ERROR, "y.script", 7)), Some(""), []);
  }

  /** A silent script whose runtime recorded a fatal "oops" at y.script line 7
      gets that error as output; one that printed "hello" keeps "hello". */
  lemma ExampleRuntimeFatal(g: Globals)
    ensures FinalTask("y.script", g, [], Returned, Some(ErrorRecord("oops", E_ERROR, "y.script", 7)), Some(""), []).outputBuffer
            == Some("PHP Fatal error: oops in y.script on line 7")
    ensures FinalTask("y.script", g, [], Returned, Some(ErrorRecord("oops", E_ERROR, "y.script", 7)), Some("hello"), []).outputBuffer
            == Some("hello")
  {
    assert Decimal.DigitChar(7) == '7';
    assert Decimal.IntToString(7) == "7";
    assert FatalMessage(ErrorRecord("oops", E_ERROR, "y.script", 7)) == "PHP Fatal error: oops in y.script on line 7";
    SilentReturnOutput("y.script", g, [], Some(ErrorRecord("oops", E_ERROR, "y.script", 7)), Some(""), []);
  }
}
