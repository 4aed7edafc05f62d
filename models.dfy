/**
 * The event vocabulary: contributor kinds, event kinds, line ranges, contributors,
 * trace events and hook payloads, with the field constraints the source's
 * validated records enforce on construction.
 */
module Models {
  import opened Wrappers
  import opened Dicts

  /** Why a call raised instead of recording. */
  datatype Error =
    | LineBelowOne(field: string)    // a FileRange bound under 1
    | ModelIdTooLong(length: nat)    // a Contributor model id over 250 characters
    | TraceFileUnwritable            // the trace directory or file cannot be written

  datatype ContributorType = Human | Ai | Mixed | Unknown {
    function Value(): string {
      match this
      case Human => "human"
      case Ai => "ai"
      case Mixed => "mixed"
      case Unknown => "unknown"
    }

    /** ContributorType(s): the member whose value is s. */
    static function FromValue(s: string): (r: Option<ContributorType>)
      ensures r.Some? ==> r.value.Value() == s
      ensures r.None? ==> forall t: ContributorType :: t.Value() != s
    {
      if s == "human" then Some(Human)
      else if s == "ai" then Some(Ai)
      else if s == "mixed" then Some(Mixed)
      else if s == "unknown" then Some(Unknown)
      else None
    }
  }

  /** The four kinds have four different values, so a value names its kind. */
  lemma ContributorTypeRoundTrip(t: ContributorType)
    ensures ContributorType.FromValue(t.Value()) == Some(t)
  {
    match t
    case Human =>
    case Ai => assert "ai" != "human";
    case Mixed => assert "mixed" != "human" && "mixed" != "ai";
    case Unknown => assert "unknown" != "human" && "unknown" != "ai" && "unknown" != "mixed";
  }

  datatype EventType =
    | FileCreate | FileEdit | FileDelete
    | SessionStart | SessionEnd
    | CodeReview | CodeSuggest | Refactor | Debug
    | TestGenerate | TestRun
    | CommandRun
    | Custom
  {
    function Value(): string {
      match this
      case FileCreate => "file_create"
      case FileEdit => "file_edit"
      case FileDelete => "file_delete"
      case SessionStart => "session_start"
      case SessionEnd => "session_end"
      case CodeReview => "code_review"
      case CodeSuggest => "code_suggest"
      case Refactor => "refactor"
      case Debug => "debug"
      case TestGenerate => "test_generate"
      case TestRun => "test_run"
      case CommandRun => "command_run"
      case Custom => "custom"
    }
  }

  const AllEventTypes: seq<EventType> := [
    FileCreate, FileEdit, FileDelete, SessionStart, SessionEnd, CodeReview,
    CodeSuggest, Refactor, Debug, TestGenerate, TestRun, CommandRun, Custom]

  /** EventType(s): the member whose value is s, searched in declaration order. */
  function EventTypeFromValue(s: string): (r: Option<EventType>)
    ensures r.Some? ==> r.value.Value() == s
    ensures r.None? ==> forall t: EventType :: t.Value() != s
  {
    FindEventType(AllEventTypes, s)
  }

  function FindEventType(ts: seq<EventType>, s: string): (r: Option<EventType>)
    ensures r.Some? ==> r.value in ts && r.value.Value() == s
    ensures r.None? ==> forall t :: t in ts ==> t.Value() != s
  {
    if ts == [] then None
    else if ts[0].Value() == s then Some(ts[0])
    else FindEventType(ts[1..], s)
  }

  /** Exactly thirteen kinds, with pairwise different values. */
  lemma {:induction false} EventTypeValuesDistinct()
    ensures |AllEventTypes| == 13
    ensures forall t: EventType :: t in AllEventTypes
    ensures forall i, j :: 0 <= i < j < |AllEventTypes| ==>
      AllEventTypes[i].Value() != AllEventTypes[j].Value()
  {
    forall t: EventType ensures t in AllEventTypes {
      match t
      case FileCreate => assert AllEventTypes[0] == t;
      case FileEdit => assert AllEventTypes[1] == t;
      case FileDelete => assert AllEventTypes[2] == t;
      case SessionStart => assert AllEventTypes[3] == t;
      case SessionEnd => assert AllEventTypes[4] == t;
      case CodeReview => assert AllEventTypes[5] == t;
      case CodeSuggest => assert AllEventTypes[6] == t;
      case Refactor => assert AllEventTypes[7] == t;
      case Debug => assert AllEventTypes[8] == t;
      case TestGenerate => assert AllEventTypes[9] == t;
      case TestRun => assert AllEventTypes[10] == t;
      case CommandRun => assert AllEventTypes[11] == t;
      case Custom => assert AllEventTypes[12] == t;
    }
  }

  lemma EventTypeRoundTrip(t: EventType)
    ensures EventTypeFromValue(t.Value()) == Some(t)
  {
    EventTypeValuesDistinct();
    var r := EventTypeFromValue(t.Value());
    var i :| 0 <= i < 13 && AllEventTypes[i] == t;
    var j :| 0 <= j < 13 && AllEventTypes[j] == r.value;
  }

  /** A range of 1-indexed lines; nothing requires startLine <= endLine. */
  datatype FileRange = FileRange(startLine: int, endLine: int, contentHash: Option<string>) {
    predicate Valid() {
      startLine >= 1 && endLine >= 1
    }
  }

  /** FileRange(start_line=..., end_line=..., content_hash=...), validated. */
  function NewFileRange(startLine: int, endLine: int, contentHash: Option<string> := None): (r: Result<FileRange, Error>)
    ensures r.Success? <==> startLine >= 1 && endLine >= 1
    ensures r.Success? ==> r.value.Valid() && r.value == FileRange(startLine, endLine, contentHash)
    ensures startLine < 1 ==> r == Failure(LineBelowOne("start_line"))
  {
    if startLine < 1 then Failure(LineBelowOne("start_line"))
    else if endLine < 1 then Failure(LineBelowOne("end_line"))
    else Success(FileRange(startLine, endLine, contentHash))
  }

  /** A reversed range is accepted: only the lower bound of each line is checked. */
  lemma ReversedRangeAccepted()
    ensures NewFileRange(10, 2) == Success(FileRange(10, 2, None))
    ensures NewFileRange(0, 5).Failure? && NewFileRange(5, 0).Failure?
  {
  }

  const MaxModelIdLength: nat := 250

  datatype Contributor = Contributor(kind: ContributorType, modelId: Option<string>) {
    predicate Valid() {
      modelId.None? || |modelId.value| <= MaxModelIdLength
    }
  }

  /** Contributor(type=..., model_id=...), validated; the defaults are ai and no model. */
  function NewContributor(kind: ContributorType := Ai, modelId: Option<string> := None): (r: Result<Contributor, Error>)
    ensures r.Success? <==> modelId.None? || |modelId.value| <= MaxModelIdLength
    ensures r.Success? ==> r.value.Valid() && r.value.kind == kind && r.value.modelId == modelId
    ensures r.Failure? ==> r.error == ModelIdTooLong(|modelId.value|)
  {
    if modelId.Some? && |modelId.value| > MaxModelIdLength then Failure(ModelIdTooLong(|modelId.value|))
    else Success(Contributor(kind, modelId))
  }

  /** A metadata or span-attribute value: str, int, float or bool. Floats are an opaque rendering. */
  datatype Scalar = Str(s: string) | Int(i: int) | Float(repr: string) | Bool(b: bool)

  /** The value a str-or-None field contributes when only a non-empty string counts. */
  function OptionalStr(value: Option<string>): (r: Option<Scalar>)
    ensures r.Some? <==> Truthy(value)
    ensures r.Some? ==> r.value == Str(value.value)
  {
    if Truthy(value) then Some(Str(value.value)) else None
  }

  datatype TraceEvent = TraceEvent(
    eventType: string,
    filePath: Option<string>,
    ranges: seq<FileRange>,
    contributor: Contributor,
    toolName: Option<string>,
    sessionId: Option<string>,
    metadata: Dict<Scalar>)
  {
    /** What a constructed event satisfies: valid ranges and contributor, a real dict. */
    predicate Valid() {
      && (forall i :: 0 <= i < |ranges| ==> ranges[i].Valid())
      && contributor.Valid()
      && DistinctKeys(metadata)
    }
  }

  /** TraceEvent(event_type=...) with every other field at its default. */
  function NewTraceEvent(eventType: string): (e: TraceEvent)
    ensures e.Valid()
    ensures e.eventType == eventType && e.filePath.None? && e.ranges == []
    ensures e.contributor == Contributor(Ai, None)
    ensures e.toolName.None? && e.sessionId.None? && e.metadata == []
  {
    TraceEvent(eventType, None, [], Contributor(Ai, None), None, None, [])
  }

  /** A value inside a hook's tool_input: str, int or null. */
  datatype HookValue = HStr(s: string) | HInt(i: int) | HNull

  datatype HookInput = HookInput(
    hookEventName: string,
    model: Option<string>,
    transcriptPath: Option<string>,
    sessionId: Option<string>,
    filePath: Option<string>,
    toolName: Option<string>,
    toolUseId: Option<string>,
    toolInput: Option<Dict<HookValue>>,
    cwd: Option<string>)
  {
    predicate Valid() {
      toolInput.Some? ==> DistinctKeys(toolInput.value)
    }
  }

  /** HookInput(hook_event_name=...): the one required field; every other is absent. */
  function NewHookInput(hookEventName: string): (h: HookInput)
    ensures h.Valid() && h.hookEventName == hookEventName
    ensures h.model.None? && h.transcriptPath.None? && h.sessionId.None? && h.filePath.None?
    ensures h.toolName.None? && h.toolUseId.None? && h.toolInput.None? && h.cwd.None?
  {
    HookInput(hookEventName, None, None, None, None, None, None, None, None)
  }
}
