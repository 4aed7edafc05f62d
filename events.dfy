/**
 * The event constructors of the tracer: each trace_* call builds one validated
 * TraceEvent (contributor "ai" with the normalised model id), or fails validation
 * when the normalised model id is too long. The hook handler turns an editor
 * hook's input into a file-edit event, or into nothing.
 */
module Events {
  import opened Wrappers
  import opened Text
  import opened Dicts
  import opened Models
  import opened ModelIds

  /** Whether the normalised model id passes the contributor's length limit. */
  predicate ModelIdFits(model: Option<string>) {
    var id := NormalizeModelId(model);
    id.None? || |id.value| <= MaxModelIdLength
  }

  predicate RangesValid(ranges: seq<FileRange>) {
    forall i :: 0 <= i < |ranges| ==> ranges[i].Valid()
  }

  /**
   * What every constructor promises: it succeeds exactly when the normalised model
   * id fits, fails with that id's length otherwise, and on success yields a valid
   * event of the given kind whose contributor is the AI with the normalised id.
   */
  ghost predicate Outcome(r: Result<TraceEvent, Error>, kind: EventType, model: Option<string>) {
    && (r.Success? <==> ModelIdFits(model))
    && (r.Failure? ==> NormalizeModelId(model).Some? && r.error == ModelIdTooLong(|NormalizeModelId(model).value|))
    && (r.Success? ==> && r.value.Valid()
                       && r.value.eventType == kind.Value()
                       && r.value.contributor == Contributor(Ai, NormalizeModelId(model)))
  }

  /** TraceEvent(event_type=kind, ..., contributor=Contributor(type=ai, model_id=normalised)). */
  function AiEvent(kind: EventType, filePath: Option<string>, ranges: seq<FileRange>, model: Option<string>,
                   toolName: Option<string>, sessionId: Option<string>, metadata: Dict<Scalar>): (r: Result<TraceEvent, Error>)
    requires RangesValid(ranges) && DistinctKeys(metadata)
    ensures Outcome(r, kind, model)
    ensures r.Success? ==> && r.value.filePath == filePath && r.value.ranges == ranges
                           && r.value.toolName == toolName && r.value.sessionId == sessionId
                           && r.value.metadata == metadata
  {
    var contributor :- NewContributor(Ai, NormalizeModelId(model));
    Success(TraceEvent(kind.Value(), filePath, ranges, contributor, toolName, sessionId, metadata))
  }

  /** A recognised model id at the limit's edge overflows it once its provider is prepended. */
  lemma NormalisedIdCanOverflow(model: string)
    requires |model| == MaxModelIdLength && "claude-" <= model && '/' !in model
    ensures !ModelIdFits(Some(model))
  {
    NormalizeRecognised(model, 0);
  }

  /** trace_file_edit: the transcript URL is recorded as metadata only when non-empty. */
  function FileEditEvent(filePath: string, ranges: seq<FileRange>, model: Option<string> := None, toolName: Option<string> := None,
                         sessionId: Option<string> := None, transcriptUrl: Option<string> := None): (r: Result<TraceEvent, Error>)
    requires RangesValid(ranges)
    ensures Outcome(r, FileEdit, model)
    ensures r.Success? ==> && r.value.filePath == Some(filePath) && r.value.ranges == ranges
                           && r.value.toolName == toolName && r.value.sessionId == sessionId
    ensures r.Success? ==> forall k :: (Get(r.value.metadata, k) ==
      (if k == "transcript_url" then OptionalStr(transcriptUrl) else None))
  {
    AiEvent(FileEdit, Some(filePath), ranges, model, toolName, sessionId, Optional("transcript_url", OptionalStr(transcriptUrl)))
  }

  /** The ranges of a created file: lines 1 to the line count (at least 1), none for a zero count. */
  function CreatedRanges(lineCount: int): (ranges: seq<FileRange>)
    ensures RangesValid(ranges)
    ensures |ranges| == if lineCount == 0 then 0 else 1
    ensures lineCount > 0 ==> ranges == [FileRange(1, lineCount, None)]
    ensures lineCount < 0 ==> ranges == [FileRange(1, 1, None)]
  {
    if lineCount != 0 then [FileRange(1, if lineCount > 1 then lineCount else 1, None)] else []
  }

  /** trace_file_create: no metadata; one range covering the file when the line count is non-zero. */
  function FileCreateEvent(filePath: string, model: Option<string> := None, toolName: Option<string> := None,
                           sessionId: Option<string> := None, lineCount: int := 0): (r: Result<TraceEvent, Error>)
    ensures Outcome(r, FileCreate, model)
    ensures r.Success? ==> && r.value.filePath == Some(filePath) && r.value.ranges == CreatedRanges(lineCount)
                           && r.value.toolName == toolName && r.value.sessionId == sessionId
                           && r.value.metadata == []
  {
    AiEvent(FileCreate, Some(filePath), CreatedRanges(lineCount), model, toolName, sessionId, [])
  }

  /** trace_file_delete: no ranges, no metadata. */
  function FileDeleteEvent(filePath: string, model: Option<string> := None, toolName: Option<string> := None,
                           sessionId: Option<string> := None): (r: Result<TraceEvent, Error>)
    ensures Outcome(r, FileDelete, model)
    ensures r.Success? ==> && r.value.filePath == Some(filePath) && r.value.ranges == []
                           && r.value.toolName == toolName && r.value.sessionId == sessionId
                           && r.value.metadata == []
  {
    AiEvent(FileDelete, Some(filePath), [], model, toolName, sessionId, [])
  }

  /** dict(metadata) if metadata else {}: a copy of the mapping, or the empty dict. */
  function CopyOrEmpty(metadata: Option<Dict<Scalar>>): (d: Dict<Scalar>)
    requires metadata.Some? ==> DistinctKeys(metadata.value)
    ensures DistinctKeys(d)
    ensures forall k :: Get(d, k) == if metadata.Some? then Get(metadata.value, k) else None
  {
    if metadata.Some? && metadata.value != [] then metadata.value else []
  }

  /** trace_session_start and trace_session_end: a session id and the given metadata, no file. */
  function SessionEvent(kind: EventType, sessionId: string, model: Option<string> := None,
                        metadata: Option<Dict<Scalar>> := None): (r: Result<TraceEvent, Error>)
    requires kind == SessionStart || kind == SessionEnd
    requires metadata.Some? ==> DistinctKeys(metadata.value)
    ensures Outcome(r, kind, model)
    ensures r.Success? ==> && r.value.filePath.None? && r.value.ranges == []
                           && r.value.toolName.None? && r.value.sessionId == Some(sessionId)
    ensures r.Success? ==> forall k :: (Get(r.value.metadata, k) ==
      if metadata.Some? then Get(metadata.value, k) else None)
  {
    AiEvent(kind, None, [], model, None, Some(sessionId), CopyOrEmpty(metadata))
  }

  /** len(findings) when there are findings, absent otherwise. */
  function FindingCount(findings: Option<seq<string>>): (n: Option<Scalar>)
    ensures n.Some? <==> findings.Some? && findings.value != []
    ensures n.Some? ==> n.value == Int(|findings.value|) && |findings.value| >= 1
  {
    if findings.Some? && findings.value != [] then Some(Int(|findings.value|)) else None
  }

  /** trace_code_review: the review type when non-empty, the number of findings when there are any. */
  function CodeReviewEvent(filePath: string, ranges: seq<FileRange>, model: Option<string> := None, sessionId: Option<string> := None,
                           reviewType: Option<string> := None, findings: Option<seq<string>> := None): (r: Result<TraceEvent, Error>)
    requires RangesValid(ranges)
    ensures Outcome(r, CodeReview, model)
    ensures r.Success? ==> && r.value.filePath == Some(filePath) && r.value.ranges == ranges
                           && r.value.toolName.None? && r.value.sessionId == sessionId
    ensures r.Success? ==> forall k :: (Get(r.value.metadata, k) ==
      if k == "review_type" then OptionalStr(reviewType)
      else if k == "finding_count" then FindingCount(findings)
      else None)
  {
    var metadata := PutIf([], "review_type", OptionalStr(reviewType));
    var metadata := PutIf(metadata, "finding_count", FindingCount(findings));
    AiEvent(CodeReview, Some(filePath), ranges, model, None, sessionId, metadata)
  }

  /**
   * trace_code_suggestion and trace_refactor: one optional "kind of change" entry,
   * suggestion_type or refactor_type, recorded when non-empty.
   */
  function ClassifiedEvent(kind: EventType, filePath: string, ranges: seq<FileRange>, model: Option<string> := None,
                           sessionId: Option<string> := None, classification: Option<string> := None): (r: Result<TraceEvent, Error>)
    requires kind == CodeSuggest || kind == Refactor
    requires RangesValid(ranges)
    ensures Outcome(r, kind, model)
    ensures r.Success? ==> && r.value.filePath == Some(filePath) && r.value.ranges == ranges
                           && r.value.toolName.None? && r.value.sessionId == sessionId
    ensures r.Success? ==> forall k :: (Get(r.value.metadata, k) ==
      if k == ClassificationKey(kind) then OptionalStr(classification) else None)
  {
    AiEvent(kind, Some(filePath), ranges, model, None, sessionId,
      PutIf([], ClassificationKey(kind), OptionalStr(classification)))
  }

  function ClassificationKey(kind: EventType): string
    requires kind == CodeSuggest || kind == Refactor
  {
    if kind == CodeSuggest then "suggestion_type" else "refactor_type"
  }

  /** trace_debug: whether the issue was resolved, always first; the issue type when non-empty. */
  function DebugEvent(filePath: string, ranges: seq<FileRange>, model: Option<string> := None, sessionId: Option<string> := None,
                      issueType: Option<string> := None, resolved: bool := false): (r: Result<TraceEvent, Error>)
    requires RangesValid(ranges)
    ensures Outcome(r, Debug, model)
    ensures r.Success? ==> && r.value.filePath == Some(filePath) && r.value.ranges == ranges
                           && r.value.toolName.None? && r.value.sessionId == sessionId
    ensures r.Success? ==> ["resolved"] <= Keys(r.value.metadata)
    ensures r.Success? ==> forall k :: (Get(r.value.metadata, k) ==
      if k == "resolved" then Some(Bool(resolved))
      else if k == "issue_type" then OptionalStr(issueType)
      else None)
  {
    var metadata := PutIf([("resolved", Bool(resolved))], "issue_type", OptionalStr(issueType));
    AiEvent(Debug, Some(filePath), ranges, model, None, sessionId, metadata)
  }

  /** trace_test_generate: the framework when non-empty, the count whenever one is given (zero included). */
  function TestGenerateEvent(filePath: string, ranges: seq<FileRange>, model: Option<string> := None, sessionId: Option<string> := None,
                             testFramework: Option<string> := None, testCount: Option<int> := None): (r: Result<TraceEvent, Error>)
    requires RangesValid(ranges)
    ensures Outcome(r, TestGenerate, model)
    ensures r.Success? ==> && r.value.filePath == Some(filePath) && r.value.ranges == ranges
                           && r.value.toolName.None? && r.value.sessionId == sessionId
    ensures r.Success? ==> forall k :: (Get(r.value.metadata, k) ==
      if k == "test_framework" then OptionalStr(testFramework)
      else if k == "test_count" then (if testCount.Some? then Some(Int(testCount.value)) else None)
      else None)
  {
    var metadata := PutIf([], "test_framework", OptionalStr(testFramework));
    var metadata := PutIf(metadata, "test_count", if testCount.Some? then Some(Int(testCount.value)) else None);
    AiEvent(TestGenerate, Some(filePath), ranges, model, None, sessionId, metadata)
  }

  /** trace_test_run: the test file as path, no ranges, and the three counts with their sum. */
  function TestRunEvent(model: Option<string> := None, sessionId: Option<string> := None, testFile: Option<string> := None,
                        passed: int := 0, failed: int := 0, skipped: int := 0): (r: Result<TraceEvent, Error>)
    ensures Outcome(r, TestRun, model)
    ensures r.Success? ==> && r.value.filePath == testFile && r.value.ranges == []
                           && r.value.toolName.None? && r.value.sessionId == sessionId
    ensures r.Success? ==> Keys(r.value.metadata) == ["passed", "failed", "skipped", "total"]
    ensures r.Success? ==> && Get(r.value.metadata, "passed") == Some(Int(passed))
                           && Get(r.value.metadata, "failed") == Some(Int(failed))
                           && Get(r.value.metadata, "skipped") == Some(Int(skipped))
    ensures r.Success? ==> Get(r.value.metadata, "total") == Some(Int(passed + failed + skipped))
  {
    var metadata := [("passed", Int(passed)), ("failed", Int(failed)), ("skipped", Int(skipped)),
                     ("total", Int(passed + failed + skipped))];
    assert "passed"[0] == 'p' && "failed"[0] == 'f' && "skipped"[0] == 's' && "total"[0] == 't';
    var p, f, s, t := metadata[0], metadata[1], metadata[2], metadata[3];
    assert metadata == [p] + ([f] + ([s] + [t]));
    forall k ensures Get(metadata, k) ==
      if k == p.0 then Some(p.1) else if k == f.0 then Some(f.1) else if k == s.0 then Some(s.1)
      else if k == t.0 then Some(t.1) else None
    {
      GetCons(p, [f] + ([s] + [t]), k);
      GetCons(f, [s] + [t], k);
      GetCons(s, [t], k);
      GetCons(t, [], k);
    }
    AiEvent(TestRun, testFile, [], model, None, sessionId, metadata)
  }

  /** trace_command_run: the command always first; the exit code whenever given; the directory when non-empty. */
  function CommandRunEvent(command: string, model: Option<string> := None, sessionId: Option<string> := None,
                           exitCode: Option<int> := None, workingDir: Option<string> := None): (r: Result<TraceEvent, Error>)
    ensures Outcome(r, CommandRun, model)
    ensures r.Success? ==> && r.value.filePath.None? && r.value.ranges == []
                           && r.value.toolName.None? && r.value.sessionId == sessionId
    ensures r.Success? ==> ["command"] <= Keys(r.value.metadata)
    ensures r.Success? ==> forall k :: (Get(r.value.metadata, k) ==
      if k == "command" then Some(Str(command))
      else if k == "exit_code" then (if exitCode.Some? then Some(Int(exitCode.value)) else None)
      else if k == "working_dir" then OptionalStr(workingDir)
      else None)
  {
    var metadata := PutIf([("command", Str(command))], "exit_code", if exitCode.Some? then Some(Int(exitCode.value)) else None);
    var metadata := PutIf(metadata, "working_dir", OptionalStr(workingDir));
    AiEvent(CommandRun, None, [], model, None, sessionId, metadata)
  }

  /**
   * trace_custom: the event name under "custom_event_name", first, then the caller's
   * metadata merged over it (a caller's entry of that name wins).
   */
  function CustomEvent(eventName: string, filePath: Option<string> := None, ranges: Option<seq<FileRange>> := None,
                       model: Option<string> := None, sessionId: Option<string> := None,
                       metadata: Option<Dict<Scalar>> := None): (r: Result<TraceEvent, Error>)
    requires ranges.Some? ==> RangesValid(ranges.value)
    requires metadata.Some? ==> DistinctKeys(metadata.value)
    ensures Outcome(r, Custom, model)
    ensures r.Success? ==> && r.value.filePath == filePath
                           && r.value.ranges == (if ranges.Some? then ranges.value else [])
                           && r.value.toolName.None? && r.value.sessionId == sessionId
    ensures r.Success? ==> ["custom_event_name"] <= Keys(r.value.metadata)
    ensures r.Success? ==> forall k :: (Get(r.value.metadata, k) ==
      if metadata.Some? && k in Keys(metadata.value) then Get(metadata.value, k)
      else if k == "custom_event_name" then Some(Str(eventName))
      else None)
  {
    var base := [("custom_event_name", Str(eventName))];
    var merged := if metadata.Some? && metadata.value != [] then Merge(base, metadata.value) else base;
    AiEvent(Custom, filePath, if ranges.Some? then ranges.value else [], model, None, sessionId, merged)
  }

  /** Hook events that are traced: the ones reported after a tool or an editor changed a file. */
  const TracedHookEvents: set<string> := {"PostToolUse", "afterFileEdit", "afterTabFileEdit"}

  /** Tools whose use is traced as a file edit. */
  const EditingTools: set<string> := {"Write", "Edit"}

  /** str(value) for a tool_input value. */
  function HookText(v: HookValue): string {
    match v
    case HStr(s) => s
    case HInt(i) => IntRepr(i)
    case HNull => "None"
  }

  /** Python truthiness of a tool_input value. */
  predicate HookTruthy(v: HookValue) {
    match v
    case HStr(s) => s != ""
    case HInt(i) => i != 0
    case HNull => false
  }

  /** Whether the hook carries a non-empty tool_input. */
  predicate HasToolInput(h: HookInput) {
    h.toolInput.Some? && h.toolInput.value != []
  }

  /** hook_input.tool_name or "" */
  function HookToolName(h: HookInput): (t: string)
    ensures t == "" <==> !Truthy(h.toolName)
    ensures t != "" ==> h.toolName == Some(t)
  {
    if Truthy(h.toolName) then h.toolName.value else ""
  }

  /**
   * The edited file: the hook's own file_path when non-empty; otherwise, when there is
   * a tool_input, str() of its "file_path" entry ("" when it has none).
   */
  function HookFilePath(h: HookInput): (p: Option<string>)
    ensures Truthy(h.filePath) ==> p == h.filePath
    ensures !Truthy(h.filePath) && !HasToolInput(h) ==> p == h.filePath
    ensures !Truthy(h.filePath) && HasToolInput(h) ==>
      p == Some(match Get(h.toolInput.value, "file_path") case None => "" case Some(v) => HookText(v))
  {
    if !Truthy(h.filePath) && HasToolInput(h) then
      match Get(h.toolInput.value, "file_path")
      case None => Some("")
      case Some(v) => Some(HookText(v))
    else h.filePath
  }

  /**
   * The ranges computed from the tool's new_string: one range from line 1 to its
   * line count when new_string is present and truthy, none otherwise.
   */
  function HookRanges(h: HookInput): (ranges: seq<FileRange>)
    ensures RangesValid(ranges) && |ranges| <= 1
    ensures ranges != [] <==>
      HasToolInput(h) && Get(h.toolInput.value, "new_string").Some? && HookTruthy(Get(h.toolInput.value, "new_string").value)
    ensures ranges != [] ==>
      ranges[0] == FileRange(1, Count(HookText(Get(h.toolInput.value, "new_string").value), '\n') + 1, None)
  {
    if HasToolInput(h) then
      match Get(h.toolInput.value, "new_string")
      case Some(v) =>
        if HookTruthy(v) then [FileRange(1, Count(HookText(v), '\n') + 1, None)] else []
      case None => []
    else []
  }

  /** ranges or [FileRange(start_line=1, end_line=1)] */
  function EditedRanges(h: HookInput): (ranges: seq<FileRange>)
    ensures RangesValid(ranges) && |ranges| == 1 && ranges[0].startLine == 1
    ensures HookRanges(h) == [] ==> ranges == [FileRange(1, 1, None)]
    ensures HookRanges(h) != [] ==> ranges == HookRanges(h)
  {
    var computed := HookRanges(h);
    if computed != [] then computed else [FileRange(1, 1, None)]
  }

  /** f"file://{transcript_path}" when there is a transcript path. */
  function TranscriptUrl(h: HookInput): (url: Option<string>)
    ensures url.Some? <==> Truthy(h.transcriptPath)
    ensures url.Some? ==> "file://" <= url.value && url.value[|"file://"|..] == h.transcriptPath.value
  {
    if Truthy(h.transcriptPath) then Some("file://" + h.transcriptPath.value) else None
  }

  /**
   * handle_hook: the file-edit event a hook input produces, or None when the hook
   * is ignored (an untraced event, a tool other than Write or Edit, or no file).
   */
  function HookEvent(h: HookInput): (r: Option<Result<TraceEvent, Error>>)
    ensures r.Some? <==>
      h.hookEventName in TracedHookEvents && HookToolName(h) in EditingTools && Truthy(HookFilePath(h))
    ensures r.Some? ==> Outcome(r.value, FileEdit, h.model)
    ensures r.Some? && r.value.Success? ==>
      && r.value.value.filePath == HookFilePath(h)
      && r.value.value.ranges == EditedRanges(h)
      && r.value.value.toolName == Some(HookToolName(h))
      && r.value.value.sessionId == h.sessionId
      && forall k :: (Get(r.value.value.metadata, k) ==
           (if k == "transcript_url" then OptionalStr(TranscriptUrl(h)) else None))
  {
    if h.hookEventName !in TracedHookEvents then None
    else
      var toolName := HookToolName(h);
      if toolName !in EditingTools then None
      else
        var filePath := HookFilePath(h);
        if !Truthy(filePath) then None
        else Some(FileEditEvent(filePath.value, EditedRanges(h), h.model, Some(toolName), h.sessionId, TranscriptUrl(h)))
  }

  /** A tool_input whose file_path is null names the file "None", and the edit is traced. */
  lemma HookNullFilePathTraced(name: string, tool: string)
    requires name in TracedHookEvents && tool in EditingTools
    ensures var h := HookInput(name, None, None, None, None, Some(tool), None, Some([("file_path", HNull)]), None);
      HookFilePath(h) == Some("None") && HookEvent(h).Some?
  {
    var h := HookInput(name, None, None, None, None, Some(tool), None, Some([("file_path", HNull)]), None);
    assert Get(h.toolInput.value, "file_path") == Some(HNull);
  }

  /** An edit whose new_string has three lines is recorded as lines 1 to 3. */
  lemma HookNewStringExample()
    ensures var h := HookInput("PostToolUse", None, None, None, Some("src/app.py"), Some("Edit"), None,
                               Some([("new_string", HStr("a\nb\nc"))]), None);
      EditedRanges(h) == [FileRange(1, 3, None)]
  {
    var h := HookInput("PostToolUse", None, None, None, Some("src/app.py"), Some("Edit"), None,
                       Some([("new_string", HStr("a\nb\nc"))]), None);
    assert Get(h.toolInput.value, "new_string") == Some(HStr("a\nb\nc"));
    assert Count("a\nb\nc", '\n') == 2 by {
      assert "a\nb\nc"[1..] == "\nb\nc" && "\nb\nc"[1..] == "b\nc";
      assert "b\nc"[1..] == "\nc" && "\nc"[1..] == "c" && "c"[1..] == "";
    }
  }
}
