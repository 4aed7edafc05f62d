# agent-trace in Dafny

agent-trace records which lines of which files an AI coding agent touched. Each
`trace_*` call of `AgentTracer` builds one `TraceEvent`. The event names a kind,
a file path, line ranges, a contributor (type and model id), a tool, a session and
free-form metadata. The tracer then hands the event to two sinks:

- a JSON line appended to `<workspace root>/.agent-trace/traces.jsonl` (when file
  export is on);
- an OpenTelemetry span named `agent.<event type>`. The source sets one attribute
  per non-empty field, adds one sub-event per range, and sets one
  `agent_trace.metadata.<key>` attribute per metadata entry.

`handle_hook` adapts an editor hook payload to a `trace_file_edit` call. Before
that, it filters on the hook name, on the tool, and on whether a file path can
be found.

This project models that deterministic core:

- `models.dfy` (module `Models`): the event vocabulary, i.e. contributor and event
  kinds, line ranges, contributors, trace events and hook payloads. The field
  constraints are checked on construction, and a rejected value is a `Result`
  failure.
- `model_ids.dfy` (`ModelIds`): model-id normalisation through the ordered prefix
  table.
- `paths.dfy` (`Paths`): POSIX pure paths as an anchor plus components, with
  `relative_to` and the relative-path helper.
- `env_flags.dfy` (`EnvFlags`): the boolean environment switch, over an
  environment given as a map.
- `records.dfy` (`Records`): the persisted record, built from an event. The trace
  file is a class whose `lines` field is only ever appended to.
- `spans.dfy` (`Spans`): the span as a value: name, attributes as an
  insertion-ordered dictionary, and range sub-events. A specification function
  `SpanOf` is paired with a method `BuildSpan` that sets attributes and adds
  events in loops, as the source does.
- `events.dfy` (`Events`): each `trace_*` constructor as a function from its
  arguments to the event it builds (or the validation error it raises), and the
  hook filter as a function from a hook payload to the event it traces, if any.
- `tracer.dfy` (`Tracing`): the `AgentTracer` class. It holds the workspace root,
  the file-export switch, the trace file and the spans emitted so far, and has
  one method per `trace_*` operation plus `HandleHook`.
- `scenarios.dfy` (`Scenarios`): one file edit followed from constructor to
  record and span, and three constructors called with their default arguments.

Supporting modules:

- `wrappers.dfy`: `Option` and `Result`, plus Python truthiness of optional
  strings.
- `dicts.dfy`: Python dictionaries as sequences of pairs that keep insertion
  order. `d[k] = v` keeps an existing key's place. `d |= m` lets `m` win and
  appends `m`'s new keys in `m`'s order.
- `text.dfy`: ASCII lower-casing, decimal rendering of integers, and character
  counting.

The environment's inputs are parameters. These are the workspace root, whether
the file system lets the trace file be written, the fresh record id, the clock
reading, and the two look-ups of the git revision (one for the record, one for
the span). They arrive as a `Stamp` per traced event.

A call that raises is modelled as a method returning the `Error` it raises.
Everything it would have written before raising stays written.

## Model

| member | source | states |
|---|---|---|
| Models.ContributorType.FromValue | src/agent_trace/models.py:9-15 | the kind whose value is the given string, or none when no kind has that value |
| Models.ContributorTypeRoundTrip | src/agent_trace/models.py:9-15 | the four contributor values are distinct, so a kind's value maps back to that kind |
| Models.EventTypeFromValue | src/agent_trace/models.py:18-44 | the event kind whose value is the given string, or none when no kind has that value |
| Models.EventTypeValuesDistinct | src/agent_trace/models.py:18-44 | there are exactly thirteen event kinds, every kind is listed, and their string values are pairwise different |
| Models.EventTypeRoundTrip | src/agent_trace/models.py:18-44 | an event kind's value maps back to that kind |
| Models.NewFileRange | src/agent_trace/models.py:47-55 | a range is accepted iff both bounds are at least 1; the start bound is checked first; the hash defaults to none |
| Models.ReversedRangeAccepted | src/agent_trace/models.py:50-51 | a range whose start lies after its end is accepted, while a bound of 0 is rejected |
| Models.NewContributor | src/agent_trace/models.py:58-66 | defaults are kind ai and no model id; construction fails with the id's length iff the model id exceeds 250 characters |
| Models.NewTraceEvent | src/agent_trace/models.py:69-81 | an event given only its kind has no path, no ranges, an ai contributor without model, no tool or session, empty metadata, and is valid |
| Models.NewHookInput | src/agent_trace/models.py:84-95 | the hook event name is the only required field; every other field defaults to absent |
| Models.OptionalStr | src/agent_trace/tracer.py:236-251 | an optional string contributes a value exactly when it is non-empty, and that value is the string |
| ModelIds.FirstMatch | src/agent_trace/tracer.py:112-115 | the index found has a prefix that starts the name, and no earlier entry does; none means no entry does |
| ModelIds.NormalizeModelId | src/agent_trace/tracer.py:98-115 | the result is none iff the input is none or empty; otherwise it is the input itself, or a longer id ending in the input and containing a slash; utils.py:84-108 is an identical copy |
| ModelIds.NormalizeCases | src/agent_trace/tracer.py:100-115 | a name with a slash is kept; an unmatched name is kept; a matched name becomes provider/name for its first matching entry |
| ModelIds.PrefixesExclusive | src/agent_trace/tracer.py:105-111 | no name starts with two prefixes of the table, so the table's order never decides the provider |
| ModelIds.MatchIsFirstMatch | src/agent_trace/tracer.py:112-114 | whichever entry a name starts with is the entry the search returns |
| ModelIds.ProviderPrependedOnce | src/agent_trace/tracer.py:112-114 | a matched name gains exactly one slash, with the provider before it and the unchanged name after it |
| ModelIds.NormalizeIdempotent | src/agent_trace/tracer.py:98-115 | normalising an already normalised id changes nothing |
| ModelIds.NormalizeRecognised | src/agent_trace/tracer.py:105-114 | a slash-free name starting with entry i's prefix becomes entry i's provider, a slash, then the name |
| ModelIds.NormalizeAnthropicExample | src/agent_trace/tracer.py:106 | claude-sonnet-4-20250514 becomes anthropic/claude-sonnet-4-20250514 |
| ModelIds.NormalizeGptExample | src/agent_trace/tracer.py:107 | gpt-4o becomes openai/gpt-4o |
| ModelIds.NormalizeReasoningModelExample | src/agent_trace/tracer.py:108 | o1-preview becomes openai/o1-preview |
| ModelIds.NormalizeGoogleExample | src/agent_trace/tracer.py:110 | gemini-pro becomes google/gemini-pro |
| ModelIds.NormalizePassThroughExamples | src/agent_trace/tracer.py:100-103 | an unknown name and an already qualified name are kept; an empty or missing id becomes none |
| EnvFlags.GetEnvBool | src/agent_trace/tracer.py:51-56 | an unset variable gives the default; a set one gives true iff its value spells true, 1 or yes in any mix of letter case, whatever the default; utils.py:17-30 is an identical copy |
| EnvFlags.LowerIsSameIgnoringCase | src/agent_trace/tracer.py:56 | comparing the lower-cased value with a lower-case word is the same as comparing letter by letter up to case |
| EnvFlags.EnvFlagUnsetExample | src/agent_trace/utils.py:27-28 | an unset variable yields the default, whichever it is |
| EnvFlags.EnvFlagTrueExamples | src/agent_trace/utils.py:29-30 | TRUE, True, YES and 1 switch a flag on even when the default is off |
| EnvFlags.EnvFlagFalseExamples | src/agent_trace/utils.py:29-30 | False, 0 and any other word switch a flag off even when the default is on |
| Paths.Parse | src/agent_trace/tracer.py:121 | parsing a path string gives a well-formed path: an anchor plus components that are neither empty, nor ".", nor contain a slash |
| Paths.ParseRender | src/agent_trace/tracer.py:121 | rendering a well-formed path and parsing it back gives the same path |
| Paths.RenderInjective | src/agent_trace/tracer.py:121 | two well-formed paths render to the same string iff they are equal |
| Paths.RelativeTo | src/agent_trace/tracer.py:121 | relative_to succeeds iff the root is an ancestor of the path or the path itself, and then gives the components that follow the root's |
| Paths.ToRelativePath | src/agent_trace/tracer.py:118-123 | the helper never fails, and returns an empty string only for the empty input; a path outside the root is returned unchanged; utils.py:111-124 is an identical copy |
| Paths.RelativeOfDescendant | src/agent_trace/tracer.py:121 | for a path under the root, the result renders the components after the root's |
| Paths.RelativeRemovesRootPrefix | src/agent_trace/tracer.py:118-123 | under a root with an anchor and at least one component, root + "/" + rest becomes exactly rest, for every non-empty rest of proper components (at the bare root "/" the string "//rest" keeps its double-slash anchor and is returned unchanged) |
| Paths.RelativeAtBareRootKeepsDoubleSlash | src/agent_trace/tracer.py:118-123 | at the root "/", "/" + "/" + "src" is "//src", whose double-slash anchor is not under "/", so the path is returned unchanged |
| Paths.RelativeOfRootItself | src/agent_trace/tracer.py:121 | the root itself becomes "." |
| Paths.RelativePathExampleInside | src/agent_trace/tracer.py:118-123 | /home/user/project/src/main.py relative to /home/user/project is src/main.py |
| Paths.RelativePathExampleOutside | src/agent_trace/tracer.py:122-123 | /other/path/file.py relative to /home/user/project is returned unchanged |
| Records.RangeRecords | src/agent_trace/tracer.py:146 | one start/end pair per event range, in order, with the content hash dropped |
| Records.BuildRecord | src/agent_trace/tracer.py:141-165 | version 1.1; vcs type git with the given revision; id and timestamp as given; event type, session, tool and metadata copied; contributor value and model id copied; a file block iff the path is non-empty, holding the root-relative path and the range bounds in order; utils.py:141-166 is an identical copy |
| Records.RecordRoundTrip | src/agent_trace/tracer.py:141-165 | reading a record back gives the event with its path made root-relative and hashes dropped, and with no ranges when the path was empty |
| Records.TraceFile.constructor | src/agent_trace/tracer.py:136 | a trace file of a workspace root, with its directory state and existing lines as given |
| Records.TraceFile.FilePath | src/agent_trace/tracer.py:136 | the trace file lies under the workspace root, and relative to it is exactly .agent-trace/traces.jsonl; it is a well-formed path whenever the root is. This documents the location only: the file is modelled as a sequence of records, and no write contract names the path |
| Records.TraceFile.MakeDirs | src/agent_trace/tracer.py:138 | creating the directory succeeds when it already exists or can be created, and it then exists |
| Records.TraceFile.AppendLine | src/agent_trace/tracer.py:167-168 | a successful append adds exactly the record at the end, and the earlier lines stay as they were |
| Records.TraceFile.WriteEventRecord | src/agent_trace/tracer.py:126-168 | on a writable file system the directory exists afterwards and exactly the event's record is appended; otherwise the call fails and the lines are unchanged; utils.py:127-169 is an identical copy |
| Spans.MetadataKey | src/agent_trace/tracer.py:264-265 | the metadata attribute name is the prefix agent_trace.metadata. followed by the key |
| Spans.RangeEventAttributes | src/agent_trace/tracer.py:253-261 | a range's sub-event holds its start and end lines, and the content hash exactly when the hash is non-empty, under distinct names |
| Spans.PutIfTruthy | src/agent_trace/tracer.py:236-251 | an optional attribute is set only when its value is non-empty, and no other attribute changes |
| Spans.FieldKeyNotMetadata | src/agent_trace/tracer.py:29-39 | no field attribute name lies under the metadata prefix |
| Spans.FieldKeysDistinct | src/agent_trace/tracer.py:29-39 | the six field attribute names are pairwise different |
| Spans.RelativeFilePath | src/agent_trace/tracer.py:239-241 | the file-path attribute is present iff the event's path is non-empty, and then holds the root-relative path |
| Spans.FieldAttributesHold | src/agent_trace/tracer.py:234-251 | after the field attributes are set, each name holds what the reference lookup gives for the event |
| Spans.ContextAttributesHold | src/agent_trace/tracer.py:243-251 | the tool, session and revision attributes are overwritten only when non-empty; other names are untouched |
| Spans.ContributionAttributesHold | src/agent_trace/tracer.py:234-241 | the source's calls always set the contributor type, and set model id and file path only when non-empty |
| Spans.WithMetadata | src/agent_trace/tracer.py:264-265 | each metadata key k sets agent_trace.metadata.k to its value, and no other attribute changes |
| Spans.SpanOf | src/agent_trace/tracer.py:231-265 | the span is named agent.<event type> and has one sub-event range.i per range, in order, with distinct attribute names |
| Spans.FieldKeysOutsideMetadata | src/agent_trace/tracer.py:29-39 | none of the six field attribute names starts with the metadata prefix |
| Spans.SpanAttributes | src/agent_trace/tracer.py:234-265 | every non-metadata attribute agrees with the reference lookup, and agent_trace.metadata.k holds exactly the event's metadata value for k |
| Spans.SpanFieldAttributes | src/agent_trace/tracer.py:234-251 | among the attributes the source's calls set, the contributor type is always present; model id, root-relative file path, tool, session and revision are set exactly when non-empty |
| Spans.SetFieldAttributes | src/agent_trace/tracer.py:234-251 | the attributes that the six set_attribute calls leave equal the specification's field attributes |
| Spans.AddRangeEvents | src/agent_trace/tracer.py:253-261 | the loop over the ranges adds exactly the sub-events range.0, range.1, … in order |
| Spans.WithMetadataStep | src/agent_trace/tracer.py:264-265 | setting one metadata entry and then the rest is the same as setting them all |
| Spans.SetMetadataAttributes | src/agent_trace/tracer.py:264-265 | the loop over the metadata leaves the attributes the specification prescribes |
| Spans.BuildSpan | src/agent_trace/tracer.py:230-267 | the span the method builds is the specified span |
| Events.AiEvent | src/agent_trace/tracer.py:289-304 | an event built by an agent: kind and contributor ai with the normalised model id; validation fails iff the normalised id exceeds 250 characters |
| Events.NormalisedIdCanOverflow | src/agent_trace/tracer.py:289-299 | a 250-character Claude name is within the limit, but its normalised form is not, so the constructor raises |
| Events.FileEditEvent | src/agent_trace/tracer.py:269-305 | a file_edit event with the given path, ranges, tool and session; metadata holds transcript_url exactly when the URL is non-empty |
| Events.CreatedRanges | src/agent_trace/tracer.py:328 | no range for a line count of 0; otherwise one range from line 1 to the count, or to 1 when the count is negative |
| Events.FileCreateEvent | src/agent_trace/tracer.py:307-338 | a file_create event whose ranges are the created ranges for the line count, with empty metadata |
| Events.FileDeleteEvent | src/agent_trace/tracer.py:340-368 | a file_delete event with the path and no ranges |
| Dicts.MergeKeyOrder | src/agent_trace/tracer.py:710 | d \|= m keeps d's keys in place and appends the keys of m that d lacks, in m's order |
| Events.CopyOrEmpty | src/agent_trace/tracer.py:393 | the caller's metadata is copied, and missing metadata becomes an empty dictionary |
| Events.SessionEvent | src/agent_trace/tracer.py:370-422 | a session_start or session_end event without path or ranges, carrying the session id and a copy of the caller's metadata |
| Events.FindingCount | src/agent_trace/tracer.py:450-451 | a finding count is recorded iff the findings list is present and non-empty, and it is the list's length |
| Events.CodeReviewEvent | src/agent_trace/tracer.py:424-461 | a code_review event whose metadata holds review_type when non-empty and finding_count when there are findings |
| Events.ClassifiedEvent | src/agent_trace/tracer.py:463-531 | a code_suggest or refactor event whose metadata holds suggestion_type or refactor_type, respectively, when non-empty |
| Events.DebugEvent | src/agent_trace/tracer.py:533-568 | a debug event whose metadata starts with resolved and holds issue_type when non-empty |
| Events.TestGenerateEvent | src/agent_trace/tracer.py:570-607 | a test_generate event whose metadata holds test_framework when non-empty and test_count whenever given, 0 included |
| Events.TestRunEvent | src/agent_trace/tracer.py:609-647 | a test_run event whose metadata keys are exactly passed, failed, skipped, total, with total the sum of the other three |
| Events.CommandRunEvent | src/agent_trace/tracer.py:649-683 | a command_run event without path or ranges, with metadata starting with command, and holding exit_code whenever given and working_dir when non-empty |
| Events.CustomEvent | src/agent_trace/tracer.py:685-720 | a custom event whose metadata starts with custom_event_name and then takes the caller's entries, which win on a clash; absent ranges become none |
| Events.HookToolName | src/agent_trace/tracer.py:734 | the tool is the hook's tool name, or "" when that is missing or empty |
| Events.HookFilePath | src/agent_trace/tracer.py:738-740 | the hook's own file path when non-empty; otherwise str() of tool_input's file_path when a non-empty tool_input is present, with "" when that key is absent |
| Events.HookRanges | src/agent_trace/tracer.py:746-750 | one range from 1 to the count of newlines plus one when new_string is present and truthy, otherwise none |
| Events.EditedRanges | src/agent_trace/tracer.py:758 | the derived range, or the single range [1, 1] when there is none |
| Events.TranscriptUrl | src/agent_trace/tracer.py:752-754 | file:// followed by the transcript path, present exactly when that path is non-empty |
| Events.HookEvent | src/agent_trace/tracer.py:722-763 | a hook is traced iff its name is PostToolUse, afterFileEdit or afterTabFileEdit, its tool is Write or Edit, and a non-empty file path resolves; the event is then exactly one file_edit |
| Events.HookNullFilePathTraced | src/agent_trace/tracer.py:740 | a null file_path inside tool_input becomes the path "None" and the hook is traced |
| Events.HookNewStringExample | src/agent_trace/tracer.py:746-750 | a new_string with two newlines gives the range [1, 3] |
| Tracing.AgentTracer.constructor | src/agent_trace/tracer.py:192-193 | the tracer keeps the workspace root and the file-export switch, owns a fresh trace file at that root, and has emitted no spans |
| Tracing.AgentTracer.Trace | src/agent_trace/tracer.py:220-267 | with file export on, the event's record is appended first, and the call raises with no span when that write fails; the event's span is appended unless the write raised; with export off only the span is appended; earlier lines and spans never change |
| Tracing.AgentTracer.TraceBuilt | src/agent_trace/tracer.py:289-305 | a validation error is raised before anything is written; a valid event is traced |
| Tracing.AgentTracer.TraceFileEdit | src/agent_trace/tracer.py:269-305 | traces exactly the file_edit event the constructor builds, or raises its error |
| Tracing.AgentTracer.TraceFileCreate | src/agent_trace/tracer.py:307-338 | traces exactly the file_create event the constructor builds, or raises its error |
| Tracing.AgentTracer.TraceFileDelete | src/agent_trace/tracer.py:340-368 | traces exactly the file_delete event the constructor builds, or raises its error |
| Tracing.AgentTracer.TraceSessionStart | src/agent_trace/tracer.py:370-395 | traces exactly the session_start event the constructor builds, or raises its error |
| Tracing.AgentTracer.TraceSessionEnd | src/agent_trace/tracer.py:397-422 | traces exactly the session_end event the constructor builds, or raises its error |
| Tracing.AgentTracer.TraceCodeReview | src/agent_trace/tracer.py:424-461 | traces exactly the code_review event the constructor builds, or raises its error |
| Tracing.AgentTracer.TraceCodeSuggestion | src/agent_trace/tracer.py:463-496 | traces exactly the code_suggest event the constructor builds, or raises its error |
| Tracing.AgentTracer.TraceRefactor | src/agent_trace/tracer.py:498-531 | traces exactly the refactor event the constructor builds, or raises its error |
| Tracing.AgentTracer.TraceDebug | src/agent_trace/tracer.py:533-568 | traces exactly the debug event the constructor builds, or raises its error |
| Tracing.AgentTracer.TraceTestGenerate | src/agent_trace/tracer.py:570-607 | traces exactly the test_generate event the constructor builds, or raises its error |
| Tracing.AgentTracer.TraceTestRun | src/agent_trace/tracer.py:609-647 | traces exactly the test_run event the constructor builds, or raises its error |
| Tracing.AgentTracer.TraceCommandRun | src/agent_trace/tracer.py:649-683 | traces exactly the command_run event the constructor builds, or raises its error |
| Tracing.AgentTracer.TraceCustom | src/agent_trace/tracer.py:685-720 | traces exactly the custom event the constructor builds, or raises its error |
| Tracing.AgentTracer.HandleHook | src/agent_trace/tracer.py:722-763 | a hook the filter drops changes neither the trace file nor the spans; any other is traced as its file_edit event |
| Scenarios.ScenarioEditEvent | src/agent_trace/tracer.py:269-305 | an edit of /home/user/project/src/main.py by claude-sonnet-4-20250514 is accepted, with the id qualified as anthropic/… and no metadata |
| Scenarios.EditRecordFile | src/agent_trace/tracer.py:141-149 | an event with that edit's fields gets a record naming src/main.py and the range [1, 10] |
| Scenarios.ScenarioEditRecord | src/agent_trace/tracer.py:151-165 | that edit's record has version 1.1, kind file_edit, contributor ai with the qualified id, the session and the tool |
| Scenarios.EditSpanName | src/agent_trace/tracer.py:231-233 | an event with that edit's fields gets a span named agent.file_edit |
| Scenarios.EditSpanEvents | src/agent_trace/tracer.py:253-261 | an event with that edit's fields gets exactly one sub-event, for the range [1, 10] with no hash |
| Scenarios.ScenarioEditSpan | src/agent_trace/tracer.py:231-261 | that edit's span is named agent.file_edit and has one range sub-event |
| Scenarios.FileCreateDefaults | src/agent_trace/tracer.py:307-338 | trace_file_create given only a path and a model: line_count defaults to 0, so there are no ranges; no tool, no session, no metadata |
| Scenarios.SessionEndDefaults | src/agent_trace/tracer.py:397-422 | trace_session_end given only a session id: a session_end event of kind ai without a model id and with empty metadata |
| Scenarios.TestRunDefaults | src/agent_trace/tracer.py:609-647 | trace_test_run with every argument at its default: no test file, kind ai without a model id, passed 0 and total 0 |

## Left out

- OpenTelemetry provider and exporter setup is not modelled: the resource, the
  tracer provider, the batch span processors, the console, OTLP and Azure
  exporters, and span status. These are foreign libraries with asynchronous
  batching. The model keeps the span's name plus the attributes and sub-events
  that the source's `set_attribute` and `add_event` calls record. The event-type
  attribute constant is never set by the source, so it does not appear either.
- The SDK's span limits are not modelled. A `TracerProvider` built with default
  limits keeps at most 128 attributes and 128 events on a finished span, and
  drops the rest. So an event with more than 128 ranges, or with enough metadata
  to push the attributes past 128, ends up with fewer attributes or sub-events
  than the model states (the contributor-type attribute, for example, can be
  lost). The `Spans` contracts describe the calls the source makes, not what the
  SDK keeps of them.
- The git subprocess look-ups, workspace-root discovery, `uuid4()` and the clock
  are environment inputs. They arrive as the workspace root and a `Stamp`.
- The JSON text encoding of a record is left out. The record is a datatype and
  the file is a sequence of records.
- `get_tracer` is left out. It is process-global caching keyed on its arguments,
  with the defaults read from the environment.
- The command-line entry point is left out. It does stdin reading, logging and
  process exit.
- Float metadata values are an opaque rendering (`Float(repr)`). No numeric
  property of them is stated.
- Letter case: lower-casing covers ASCII letters only. No non-ASCII character
  lower-cases into the letters of true or yes, so the flag parser's answers are
  the same as with full Unicode case mapping.
- Paths are POSIX pure paths only. Windows drive letters and the file system
  (symlinks, `..` resolution) play no part, as in `PurePosixPath.relative_to`.
- Tracing.AgentTracer.Trace: any I/O failure while writing the trace file is
  collapsed into one error, `TraceFileUnwritable`, decided by one `writable`
  switch for both the directory and the file. A directory that can be created
  but a file that cannot be appended to is not distinguished.
- Tracing.AgentTracer.Trace: when the write raises, no span is emitted,
  because the exception leaves `trace_event` before the span is started. The
  two sinks are therefore not independent. The model follows the code.
- Models.NewFileRange: only the first failing bound is reported, as one
  `LineBelowOne` error. Pydantic would list both fields.
