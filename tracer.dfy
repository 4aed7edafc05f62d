/**
 * The tracer object: for every event it optionally appends a record to the
 * workspace's trace file and then emits one span. The environment's inputs for an
 * event (a fresh id, the clock, and the two look-ups of the git revision) arrive
 * as a Stamp; a raised exception is returned as the Error it carries.
 */
module Tracing {
  import opened Wrappers
  import opened Dicts
  import opened Models
  import opened Paths
  import opened Records
  import opened Spans
  import opened Events

  /** What the environment supplies while one event is traced. */
  datatype Stamp = Stamp(id: string, timestamp: string, recordRevision: Option<string>, spanRevision: Option<string>)

  class AgentTracer {
    const root: PurePath
    const fileExport: bool
    const file: TraceFile
    /** The spans emitted so far, oldest first. */
    var spans: seq<Span>

    predicate Valid() {
      file.root == root
    }

    constructor (root: PurePath, fileExport: bool, writable: bool, dirExists: bool, lines: seq<Record>)
      ensures Valid() && fresh(file)
      ensures this.root == root && this.fileExport == fileExport && spans == []
      ensures file.writable == writable && file.dirExists == dirExists && file.lines == lines
    {
      this.root := root;
      this.fileExport := fileExport;
      file := new TraceFile(root, writable, dirExists, lines);
      spans := [];
    }

    /** Whether tracing an event raises: only writing the trace file can fail. */
    function WriteFailure(): Option<Error> {
      if fileExport && !file.writable then Some(TraceFileUnwritable) else None
    }

    /** Neither the trace file nor the spans changed. */
    twostate predicate Unchanged()
      reads this, file
    {
      && spans == old(spans)
      && file.lines == old(file.lines)
      && file.dirExists == old(file.dirExists)
    }

    /**
     * Event e was traced: with file export on, its record is appended when the file
     * is writable (its directory created first); the span is emitted unless the
     * write raised first.
     */
    twostate predicate Recorded(e: TraceEvent, stamp: Stamp)
      reads this, file
      requires DistinctKeys(e.metadata)
    {
      && file.lines == (if fileExport && file.writable
                        then old(file.lines) + [BuildRecord(e, root, stamp.id, stamp.timestamp, stamp.recordRevision)]
                        else old(file.lines))
      && file.dirExists == (if fileExport then old(file.dirExists) || file.writable else old(file.dirExists))
      && spans == (if WriteFailure().None? then old(spans) + [SpanOf(e, root, stamp.spanRevision)] else old(spans))
    }

    /** What a trace_* call raises when its event construction gave r. */
    function Raised(r: Result<TraceEvent, Error>): Option<Error> {
      if r.Failure? then Some(r.error) else WriteFailure()
    }

    /**
     * A trace_* call whose event construction gave r: a validation error leaves
     * everything as it was; otherwise the event is traced.
     */
    twostate predicate Handled(r: Result<TraceEvent, Error>, stamp: Stamp)
      reads this, file
    {
      if r.Failure? then Unchanged()
      else DistinctKeys(r.value.metadata) && Recorded(r.value, stamp)
    }

    /** trace_event: record the event, then emit its span. */
    method Trace(e: TraceEvent, stamp: Stamp) returns (raised: Option<Error>)
      requires Valid() && e.Valid()
      modifies this, file
      ensures raised == WriteFailure()
      ensures Recorded(e, stamp)
    {
      if fileExport {
        var written := file.WriteEventRecord(e, stamp.id, stamp.timestamp, stamp.recordRevision);
        if !written {
          return Some(TraceFileUnwritable);
        }
      }
      var span := BuildSpan(e, root, stamp.spanRevision);
      spans := spans + [span];
      raised := None;
    }

    /** Trace the outcome of building an event: raise its validation error, or trace it. */
    method TraceBuilt(r: Result<TraceEvent, Error>, stamp: Stamp) returns (raised: Option<Error>)
      requires Valid() && (r.Success? ==> r.value.Valid())
      modifies this, file
      ensures raised == Raised(r) && Handled(r, stamp)
    {
      if r.Failure? {
        return Some(r.error);
      }
      raised := Trace(r.value, stamp);
    }

    method TraceFileEdit(filePath: string, ranges: seq<FileRange>, model: Option<string> := None, toolName: Option<string> := None,
                         sessionId: Option<string> := None, transcriptUrl: Option<string> := None, stamp: Stamp) returns (raised: Option<Error>)
      requires Valid() && RangesValid(ranges)
      modifies this, file
      ensures raised == Raised(FileEditEvent(filePath, ranges, model, toolName, sessionId, transcriptUrl))
      ensures Handled(FileEditEvent(filePath, ranges, model, toolName, sessionId, transcriptUrl), stamp)
    {
      raised := TraceBuilt(FileEditEvent(filePath, ranges, model, toolName, sessionId, transcriptUrl), stamp);
    }

    method TraceFileCreate(filePath: string, model: Option<string> := None, toolName: Option<string> := None,
                           sessionId: Option<string> := None, lineCount: int := 0, stamp: Stamp) returns (raised: Option<Error>)
      requires Valid()
      modifies this, file
      ensures raised == Raised(FileCreateEvent(filePath, model, toolName, sessionId, lineCount))
      ensures Handled(FileCreateEvent(filePath, model, toolName, sessionId, lineCount), stamp)
    {
      raised := TraceBuilt(FileCreateEvent(filePath, model, toolName, sessionId, lineCount), stamp);
    }

    method TraceFileDelete(filePath: string, model: Option<string> := None, toolName: Option<string> := None,
                           sessionId: Option<string> := None, stamp: Stamp) returns (raised: Option<Error>)
      requires Valid()
      modifies this, file
      ensures raised == Raised(FileDeleteEvent(filePath, model, toolName, sessionId))
      ensures Handled(FileDeleteEvent(filePath, model, toolName, sessionId), stamp)
    {
      raised := TraceBuilt(FileDeleteEvent(filePath, model, toolName, sessionId), stamp);
    }

    method TraceSessionStart(sessionId: string, model: Option<string> := None, metadata: Option<Dict<Scalar>> := None, stamp: Stamp)
      returns (raised: Option<Error>)
      requires Valid() && (metadata.Some? ==> DistinctKeys(metadata.value))
      modifies this, file
      ensures raised == Raised(SessionEvent(SessionStart, sessionId, model, metadata))
      ensures Handled(SessionEvent(SessionStart, sessionId, model, metadata), stamp)
    {
      raised := TraceBuilt(SessionEvent(SessionStart, sessionId, model, metadata), stamp);
    }

    method TraceSessionEnd(sessionId: string, model: Option<string> := None, metadata: Option<Dict<Scalar>> := None, stamp: Stamp)
      returns (raised: Option<Error>)
      requires Valid() && (metadata.Some? ==> DistinctKeys(metadata.value))
      modifies this, file
      ensures raised == Raised(SessionEvent(SessionEnd, sessionId, model, metadata))
      ensures Handled(SessionEvent(SessionEnd, sessionId, model, metadata), stamp)
    {
      raised := TraceBuilt(SessionEvent(SessionEnd, sessionId, model, metadata), stamp);
    }

    method TraceCodeReview(filePath: string, ranges: seq<FileRange>, model: Option<string> := None, sessionId: Option<string> := None,
                           reviewType: Option<string> := None, findings: Option<seq<string>> := None, stamp: Stamp) returns (raised: Option<Error>)
      requires Valid() && RangesValid(ranges)
      modifies this, file
      ensures raised == Raised(CodeReviewEvent(filePath, ranges, model, sessionId, reviewType, findings))
      ensures Handled(CodeReviewEvent(filePath, ranges, model, sessionId, reviewType, findings), stamp)
    {
      raised := TraceBuilt(CodeReviewEvent(filePath, ranges, model, sessionId, reviewType, findings), stamp);
    }

    method TraceCodeSuggestion(filePath: string, ranges: seq<FileRange>, model: Option<string> := None, sessionId: Option<string> := None,
                               suggestionType: Option<string> := None, stamp: Stamp) returns (raised: Option<Error>)
      requires Valid() && RangesValid(ranges)
      modifies this, file
      ensures raised == Raised(ClassifiedEvent(CodeSuggest, filePath, ranges, model, sessionId, suggestionType))
      ensures Handled(ClassifiedEvent(CodeSuggest, filePath, ranges, model, sessionId, suggestionType), stamp)
    {
      raised := TraceBuilt(ClassifiedEvent(CodeSuggest, filePath, ranges, model, sessionId, suggestionType), stamp);
    }

    method TraceRefactor(filePath: string, ranges: seq<FileRange>, model: Option<string> := None, sessionId: Option<string> := None,
                         refactorType: Option<string> := None, stamp: Stamp) returns (raised: Option<Error>)
      requires Valid() && RangesValid(ranges)
      modifies this, file
      ensures raised == Raised(ClassifiedEvent(Refactor, filePath, ranges, model, sessionId, refactorType))
      ensures Handled(ClassifiedEvent(Refactor, filePath, ranges, model, sessionId, refactorType), stamp)
    {
      raised := TraceBuilt(ClassifiedEvent(Refactor, filePath, ranges, model, sessionId, refactorType), stamp);
    }

    method TraceDebug(filePath: string, ranges: seq<FileRange>, model: Option<string> := None, sessionId: Option<string> := None,
                      issueType: Option<string> := None, resolved: bool := false, stamp: Stamp) returns (raised: Option<Error>)
      requires Valid() && RangesValid(ranges)
      modifies this, file
      ensures raised == Raised(DebugEvent(filePath, ranges, model, sessionId, issueType, resolved))
      ensures Handled(DebugEvent(filePath, ranges, model, sessionId, issueType, resolved), stamp)
    {
      raised := TraceBuilt(DebugEvent(filePath, ranges, model, sessionId, issueType, resolved), stamp);
    }

    method TraceTestGenerate(filePath: string, ranges: seq<FileRange>, model: Option<string> := None, sessionId: Option<string> := None,
                             testFramework: Option<string> := None, testCount: Option<int> := None, stamp: Stamp) returns (raised: Option<Error>)
      requires Valid() && RangesValid(ranges)
      modifies this, file
      ensures raised == Raised(TestGenerateEvent(filePath, ranges, model, sessionId, testFramework, testCount))
      ensures Handled(TestGenerateEvent(filePath, ranges, model, sessionId, testFramework, testCount), stamp)
    {
      raised := TraceBuilt(TestGenerateEvent(filePath, ranges, model, sessionId, testFramework, testCount), stamp);
    }

    method TraceTestRun(model: Option<string> := None, sessionId: Option<string> := None, testFile: Option<string> := None,
                        passed: int := 0, failed: int := 0, skipped: int := 0, stamp: Stamp) returns (raised: Option<Error>)
      requires Valid()
      modifies this, file
      ensures raised == Raised(TestRunEvent(model, sessionId, testFile, passed, failed, skipped))
      ensures Handled(TestRunEvent(model, sessionId, testFile, passed, failed, skipped), stamp)
    {
      raised := TraceBuilt(TestRunEvent(model, sessionId, testFile, passed, failed, skipped), stamp);
    }

    method TraceCommandRun(command: string, model: Option<string> := None, sessionId: Option<string> := None,
                           exitCode: Option<int> := None, workingDir: Option<string> := None, stamp: Stamp) returns (raised: Option<Error>)
      requires Valid()
      modifies this, file
      ensures raised == Raised(CommandRunEvent(command, model, sessionId, exitCode, workingDir))
      ensures Handled(CommandRunEvent(command, model, sessionId, exitCode, workingDir), stamp)
    {
      raised := TraceBuilt(CommandRunEvent(command, model, sessionId, exitCode, workingDir), stamp);
    }

    method TraceCustom(eventName: string, filePath: Option<string> := None, ranges: Option<seq<FileRange>> := None, model: Option<string> := None,
                       sessionId: Option<string> := None, metadata: Option<Dict<Scalar>> := None, stamp: Stamp) returns (raised: Option<Error>)
      requires Valid() && (ranges.Some? ==> RangesValid(ranges.value))
      requires metadata.Some? ==> DistinctKeys(metadata.value)
      modifies this, file
      ensures raised == Raised(CustomEvent(eventName, filePath, ranges, model, sessionId, metadata))
      ensures Handled(CustomEvent(eventName, filePath, ranges, model, sessionId, metadata), stamp)
    {
      raised := TraceBuilt(CustomEvent(eventName, filePath, ranges, model, sessionId, metadata), stamp);
    }

    /** handle_hook: an ignored hook changes nothing; any other is traced as a file edit. */
    method HandleHook(h: HookInput, stamp: Stamp) returns (raised: Option<Error>)
      requires Valid()
      modifies this, file
      ensures HookEvent(h).None? ==> raised.None? && Unchanged()
      ensures HookEvent(h).Some? ==> raised == Raised(HookEvent(h).value) && Handled(HookEvent(h).value, stamp)
    {
      var r := HookEvent(h);
      if r.None? {
        return None;
      }
      raised := TraceBuilt(r.value, stamp);
    }
  }
}
