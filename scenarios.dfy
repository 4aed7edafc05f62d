/**
 * One event followed end to end: a file edit under the workspace root made by a
 * bare Claude model id, from the event the constructor builds to the line the
 * trace file receives and the span that is emitted.
 */
module Scenarios {
  import opened Wrappers
  import opened Dicts
  import opened Models
  import opened ModelIds
  import opened Paths
  import opened Records
  import opened Spans
  import opened Events

  const ProjectRoot: PurePath := PurePath(Root, ["home", "user", "project"])
  const EditedFile: string := "/home/user/project/src/main.py"
  const ClaudeModel: string := "claude-sonnet-4-20250514"

  function ScenarioEdit(): Result<TraceEvent, Error> {
    FileEditEvent(EditedFile, [FileRange(1, 10, None)], Some(ClaudeModel), Some("Write"), Some("session-123"), None)
  }

  /** The edit is accepted, with the model id qualified by its provider and no metadata. */
  lemma ScenarioEditEvent()
    ensures ScenarioEdit().Success?
    ensures var e := ScenarioEdit().value;
      && e.eventType == "file_edit"
      && e.filePath == Some(EditedFile)
      && e.ranges == [FileRange(1, 10, None)]
      && e.contributor == Contributor(Ai, Some("anthropic/claude-sonnet-4-20250514"))
      && e.toolName == Some("Write") && e.sessionId == Some("session-123")
      && e.metadata == []
  {
    NormalizeAnthropicExample();
    assert |"anthropic/claude-sonnet-4-20250514"| <= MaxModelIdLength;
    assert ModelIdFits(Some(ClaudeModel));
    var e := ScenarioEdit().value;
    assert |Keys(e.metadata)| == 0;
  }

  /** The edit's fields, as ScenarioEditEvent establishes them. */
  predicate IsScenarioEdit(e: TraceEvent) {
    && e.eventType == "file_edit"
    && e.filePath == Some(EditedFile)
    && e.ranges == [FileRange(1, 10, None)]
    && e.contributor == Contributor(Ai, Some("anthropic/claude-sonnet-4-20250514"))
    && e.toolName == Some("Write") && e.sessionId == Some("session-123")
    && e.metadata == []
  }

  /** The trace file's line names the file relative to the root and keeps the range's bounds. */
  lemma EditRecordFile(e: TraceEvent, id: string, timestamp: string, revision: Option<string>)
    requires IsScenarioEdit(e)
    ensures BuildRecord(e, ProjectRoot, id, timestamp, revision).file
      == Some(FileInfo("src/main.py", [RangeRecord(1, 10)]))
  {
    RelativePathExampleInside();
    var record := BuildRecord(e, ProjectRoot, id, timestamp, revision);
    assert Truthy(e.filePath);
    assert record.file.value.path == "src/main.py";
    assert record.file.value.ranges == [RangeRecord(1, 10)];
  }

  /** The trace file receives the root-relative path, the range's bounds and the qualified model id. */
  lemma ScenarioEditRecord(id: string, timestamp: string, revision: Option<string>)
    ensures ScenarioEdit().Success?
    ensures var record := BuildRecord(ScenarioEdit().value, ProjectRoot, id, timestamp, revision);
      && record.version == "1.1" && record.eventType == "file_edit"
      && record.file == Some(FileInfo("src/main.py", [RangeRecord(1, 10)]))
      && record.contributor == ContributorInfo("ai", Some("anthropic/claude-sonnet-4-20250514"))
      && record.sessionId == Some("session-123") && record.toolName == Some("Write")
      && record.metadata == []
  {
    ScenarioEditEvent();
    EditRecordFile(ScenarioEdit().value, id, timestamp, revision);
  }

  /** The span is named after the event kind. */
  lemma EditSpanName(e: TraceEvent, revision: Option<string>)
    requires IsScenarioEdit(e)
    ensures SpanOf(e, ProjectRoot, revision).name == "agent." + FileEdit.Value()
  {
    assert e.eventType == FileEdit.Value();
  }

  /** The span carries one sub-event, for the edit's one range. */
  lemma EditSpanEvents(e: TraceEvent, revision: Option<string>)
    requires IsScenarioEdit(e)
    ensures SpanOf(e, ProjectRoot, revision).events == [RangeEvent(0, FileRange(1, 10, None))]
  {
    var events := SpanOf(e, ProjectRoot, revision).events;
    assert |events| == 1 && events[0] == RangeEvent(0, e.ranges[0]);
  }

  /** The span emitted for the edit: named agent.file_edit, one sub-event for the range. */
  lemma ScenarioEditSpan(revision: Option<string>)
    ensures ScenarioEdit().Success?
    ensures var span := SpanOf(ScenarioEdit().value, ProjectRoot, revision);
      && span.name == "agent." + FileEdit.Value()
      && span.events == [RangeEvent(0, FileRange(1, 10, None))]
  {
    ScenarioEditEvent();
    EditSpanName(ScenarioEdit().value, revision);
    EditSpanEvents(ScenarioEdit().value, revision);
  }

  /** trace_file_create given only a path and a model: no ranges, no tool, no session, no metadata. */
  lemma FileCreateDefaults()
    ensures var r := FileCreateEvent("test.py", model := Some(ClaudeModel));
      && r.Success?
      && r.value.filePath == Some("test.py") && r.value.ranges == []
      && r.value.toolName.None? && r.value.sessionId.None? && r.value.metadata == []
  {
    NormalizeAnthropicExample();
    assert |"anthropic/claude-sonnet-4-20250514"| <= MaxModelIdLength;
    assert ModelIdFits(Some(ClaudeModel));
  }

  /** trace_session_end given only a session id: an event without model id and with no metadata. */
  lemma SessionEndDefaults()
    ensures var r := SessionEvent(SessionEnd, "sess-1");
      && r.Success?
      && r.value.eventType == "session_end" && r.value.sessionId == Some("sess-1")
      && r.value.contributor == Contributor(Ai, None) && r.value.metadata == []
  {
    var r := SessionEvent(SessionEnd, "sess-1");
    assert r.Success?;
    assert |Keys(r.value.metadata)| == 0;
  }

  /** trace_test_run with every argument left at its default: all counts and the total are 0. */
  lemma TestRunDefaults()
    ensures var r := TestRunEvent();
      && r.Success?
      && r.value.filePath.None? && r.value.contributor == Contributor(Ai, None)
      && Get(r.value.metadata, "passed") == Some(Int(0))
      && Get(r.value.metadata, "total") == Some(Int(0))
  {
  }
}
