/**
 * The persisted record of an event, one per line of <root>/.agent-trace/traces.jsonl,
 * and that file as an append-only list of records.
 */
module Records {
  import opened Wrappers
  import opened Dicts
  import opened Models
  import opened Paths

  const SchemaVersion: string := "1.1"
  const VcsKind: string := "git"
  /** The trace file's place below the workspace root. */
  const TraceFileParts: seq<string> := [".agent-trace", "traces.jsonl"]

  datatype RangeRecord = RangeRecord(startLine: int, endLine: int)
  datatype FileInfo = FileInfo(path: string, ranges: seq<RangeRecord>)
  datatype VcsInfo = VcsInfo(kind: string, revision: Option<string>)
  datatype ContributorInfo = ContributorInfo(kind: string, modelId: Option<string>)

  datatype Record = Record(
    version: string,
    id: string,
    eventType: string,
    timestamp: string,
    sessionId: Option<string>,
    vcs: VcsInfo,
    contributor: ContributorInfo,
    file: Option<FileInfo>,
    toolName: Option<string>,
    metadata: Dict<Scalar>)

  /** The bounds of each range, in order; content hashes are not persisted. */
  function RangeRecords(ranges: seq<FileRange>): (r: seq<RangeRecord>)
    ensures |r| == |ranges|
    ensures forall i :: 0 <= i < |r| ==> r[i].startLine == ranges[i].startLine && r[i].endLine == ranges[i].endLine
  {
    seq(|ranges|, i requires 0 <= i < |ranges| => RangeRecord(ranges[i].startLine, ranges[i].endLine))
  }

  /**
   * The record of event e for workspace root `root`; id, timestamp and revision are the
   * fresh identifier, the current UTC time and the VCS revision looked up for this write.
   */
  function BuildRecord(e: TraceEvent, root: PurePath, id: string, timestamp: string, revision: Option<string>): (r: Record)
    ensures r.version == SchemaVersion && r.vcs == VcsInfo(VcsKind, revision)
    ensures r.id == id && r.timestamp == timestamp
    ensures r.eventType == e.eventType && r.sessionId == e.sessionId && r.toolName == e.toolName
    ensures r.contributor == ContributorInfo(e.contributor.kind.Value(), e.contributor.modelId)
    ensures r.file.None? <==> !Truthy(e.filePath)
    ensures r.file.Some? ==> r.file.value.path == ToRelativePath(e.filePath.value, root)
    ensures r.file.Some? ==> |r.file.value.ranges| == |e.ranges|
    ensures r.file.Some? ==> forall i :: 0 <= i < |e.ranges| ==>
      r.file.value.ranges[i] == RangeRecord(e.ranges[i].startLine, e.ranges[i].endLine)
    ensures r.metadata == e.metadata
  {
    var file :=
      if Truthy(e.filePath) then Some(FileInfo(ToRelativePath(e.filePath.value, root), RangeRecords(e.ranges)))
      else None;
    Record(SchemaVersion, id, e.eventType, timestamp, e.sessionId, VcsInfo(VcsKind, revision),
      ContributorInfo(e.contributor.kind.Value(), e.contributor.modelId), file, e.toolName, e.metadata)
  }

  /** What a record keeps of its event: path made root-relative, hashes dropped, ranges only beside a path. */
  function Retained(e: TraceEvent, root: PurePath): TraceEvent {
    if Truthy(e.filePath) then
      e.(filePath := Some(ToRelativePath(e.filePath.value, root)),
         ranges := seq(|e.ranges|, i requires 0 <= i < |e.ranges| => e.ranges[i].(contentHash := None)))
    else
      e.(filePath := None, ranges := [])
  }

  /** Reading a line back: the event a record describes, or None for an unknown contributor type. */
  function DecodeRecord(r: Record): Option<TraceEvent> {
    var kind :- ContributorType.FromValue(r.contributor.kind);
    var filePath := if r.file.Some? then Some(r.file.value.path) else None;
    var ranges :=
      if r.file.Some? then
        seq(|r.file.value.ranges|, i requires 0 <= i < |r.file.value.ranges| =>
          FileRange(r.file.value.ranges[i].startLine, r.file.value.ranges[i].endLine, None))
      else [];
    Some(TraceEvent(r.eventType, filePath, ranges, Contributor(kind, r.contributor.modelId),
      r.toolName, r.sessionId, r.metadata))
  }

  /** Everything a record keeps of its event is recovered by reading the record back. */
  lemma RecordRoundTrip(e: TraceEvent, root: PurePath, id: string, timestamp: string, revision: Option<string>)
    ensures DecodeRecord(BuildRecord(e, root, id, timestamp, revision)) == Some(Retained(e, root))
  {
    ContributorTypeRoundTrip(e.contributor.kind);
    var r := BuildRecord(e, root, id, timestamp, revision);
    if Truthy(e.filePath) {
      var back := DecodeRecord(r).value;
      assert back.ranges == Retained(e, root).ranges;
    }
  }

  /**
   * The trace file of one workspace: whether its directory exists and the records
   * it holds, one per line. `writable` says whether the file system lets the
   * directory be created and the file be appended to.
   */
  class TraceFile {
    const root: PurePath
    const writable: bool
    var dirExists: bool
    var lines: seq<Record>

    constructor (root: PurePath, writable: bool, dirExists: bool, lines: seq<Record>)
      ensures this.root == root && this.writable == writable
      ensures this.dirExists == dirExists && this.lines == lines
    {
      this.root := root;
      this.writable := writable;
      this.dirExists := dirExists;
      this.lines := lines;
    }

    /** workspace_root / ".agent-trace/traces.jsonl": the log lies under the root, at .agent-trace/traces.jsonl. */
    function FilePath(): (p: PurePath)
      ensures RelativeTo(p, root) == Some(PurePath(Relative, TraceFileParts))
      ensures WellFormed(root) ==> WellFormed(p)
    {
      PurePath(root.anchor, root.parts + TraceFileParts)
    }

    /** mkdir(parents=True, exist_ok=True) on the trace directory: an existing one is no failure. */
    method MakeDirs() returns (ok: bool)
      modifies this`dirExists
      ensures ok == (old(dirExists) || writable)
      ensures dirExists == ok
    {
      if !dirExists && writable {
        dirExists := true;
      }
      ok := dirExists;
    }

    /** Open for append, write one line, close. */
    method AppendLine(r: Record) returns (ok: bool)
      modifies this`lines
      ensures ok == (dirExists && writable)
      ensures lines == if ok then old(lines) + [r] else old(lines)
    {
      ok := dirExists && writable;
      if ok {
        lines := lines + [r];
      }
    }

    /** Persist one event: create the directory, build the record, append it. False means the write raised. */
    method WriteEventRecord(e: TraceEvent, id: string, timestamp: string, revision: Option<string>) returns (ok: bool)
      modifies this
      ensures ok == writable
      ensures dirExists == (old(dirExists) || writable)
      ensures lines == if ok then old(lines) + [BuildRecord(e, root, id, timestamp, revision)] else old(lines)
    {
      ok := MakeDirs();
      if !ok {
        return;
      }
      var record := BuildRecord(e, root, id, timestamp, revision);
      ok := AppendLine(record);
    }
  }
}
