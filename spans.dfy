/**
 * The tracing-backend side of recording: each event becomes one span named after
 * its kind, with attributes for its fields and metadata and one sub-event per range.
 */
module Spans {
  import opened Wrappers
  import opened Dicts
  import opened Text
  import opened Models
  import opened Paths

  const AttrContributorType: string := "agent_trace.contributor.type"
  const AttrModelId: string := "agent_trace.contributor.model_id"
  const AttrFilePath: string := "agent_trace.file.path"
  const AttrRangeStart: string := "agent_trace.range.start_line"
  const AttrRangeEnd: string := "agent_trace.range.end_line"
  const AttrContentHash: string := "agent_trace.range.content_hash"
  const AttrToolName: string := "agent_trace.tool.name"
  const AttrSessionId: string := "agent_trace.session.id"
  const AttrRevision: string := "agent_trace.vcs.revision"
  const MetadataPrefix: string := "agent_trace.metadata."

  /** A sub-event of a span: its name and attributes. */
  datatype SpanEvent = SpanEvent(name: string, attributes: Dict<Scalar>)

  /** A finished span: name, attributes (set_attribute overwrites by key) and sub-events in order. */
  datatype Span = Span(name: string, attributes: Dict<Scalar>, events: seq<SpanEvent>)

  predicate IsMetadataKey(key: string) {
    MetadataPrefix <= key
  }

  function MetadataKey(key: string): (k: string)
    ensures IsMetadataKey(k) && k[|MetadataPrefix|..] == key
  {
    MetadataPrefix + key
  }

  /** The sub-event for the i-th range. */
  function RangeEvent(i: nat, r: FileRange): SpanEvent {
    var bounds := [(AttrRangeStart, Int(r.startLine)), (AttrRangeEnd, Int(r.endLine))];
    SpanEvent("range." + Decimal(i),
      if Truthy(r.contentHash) then bounds + [(AttrContentHash, Str(r.contentHash.value))] else bounds)
  }

  /** A range's sub-event carries its bounds, and its hash exactly when the hash is non-empty. */
  lemma RangeEventAttributes(i: nat, r: FileRange)
    ensures var ev := RangeEvent(i, r);
      && DistinctKeys(ev.attributes)
      && Get(ev.attributes, AttrRangeStart) == Some(Int(r.startLine))
      && Get(ev.attributes, AttrRangeEnd) == Some(Int(r.endLine))
      && (Get(ev.attributes, AttrContentHash).Some? <==> Truthy(r.contentHash))
      && (Truthy(r.contentHash) ==> Get(ev.attributes, AttrContentHash) == Some(Str(r.contentHash.value)))
  {
    assert AttrRangeStart[18] == 's' && AttrRangeEnd[18] == 'e' && AttrContentHash[18] == 'c';
    var start, end := (AttrRangeStart, Int(r.startLine)), (AttrRangeEnd, Int(r.endLine));
    var hash: Dict<Scalar> := if Truthy(r.contentHash) then [(AttrContentHash, Str(r.contentHash.value))] else [];
    var a := RangeEvent(i, r).attributes;
    assert a == [start] + ([end] + hash);
    assert Get(hash, AttrContentHash) == OptionalStr(r.contentHash);
    assert Get(hash, AttrRangeStart) == None && Get(hash, AttrRangeEnd) == None;
    KeysCons(end, hash);
    DistinctCons(end, hash);
    DistinctCons(start, [end] + hash);
    GetCons(start, [end] + hash, AttrRangeStart);
    GetCons(start, [end] + hash, AttrRangeEnd);
    GetCons(start, [end] + hash, AttrContentHash);
    GetCons(end, hash, AttrRangeEnd);
    GetCons(end, hash, AttrContentHash);
  }

  function RangeEvents(ranges: seq<FileRange>): seq<SpanEvent> {
    seq(|ranges|, i requires 0 <= i < |ranges| => RangeEvent(i, ranges[i]))
  }

  /** set_attribute for one optional field: only a non-empty value is set. */
  function PutIfTruthy(attributes: Dict<Scalar>, key: string, value: Option<string>): (r: Dict<Scalar>)
    requires DistinctKeys(attributes)
    ensures DistinctKeys(r)
    ensures forall k :: Get(r, k) == if k == key && Truthy(value) then OptionalStr(value) else Get(attributes, k)
  {
    if Truthy(value) then Put(attributes, key, Str(value.value)) else attributes
  }

  /** No field attribute name lies under the metadata prefix. */
  lemma FieldKeyNotMetadata(key: string)
    requires IsMetadataKey(key)
    ensures key != AttrContributorType && key != AttrModelId && key != AttrFilePath
    ensures key != AttrToolName && key != AttrSessionId && key != AttrRevision
  {
    assert key[12] == MetadataPrefix[12] == 'm';
    assert AttrContributorType[12] == 'c' && AttrModelId[12] == 'c' && AttrFilePath[12] == 'f';
    assert AttrToolName[12] == 't' && AttrSessionId[12] == 's' && AttrRevision[12] == 'v';
  }

  /** The field attribute names are pairwise distinct. */
  lemma FieldKeysDistinct()
    ensures AttrContributorType != AttrModelId && AttrContributorType != AttrFilePath
    ensures AttrContributorType != AttrToolName && AttrContributorType != AttrSessionId
    ensures AttrContributorType != AttrRevision && AttrModelId != AttrFilePath
    ensures AttrModelId != AttrToolName && AttrModelId != AttrSessionId && AttrModelId != AttrRevision
    ensures AttrFilePath != AttrToolName && AttrFilePath != AttrSessionId && AttrFilePath != AttrRevision
    ensures AttrToolName != AttrSessionId && AttrToolName != AttrRevision && AttrSessionId != AttrRevision
  {
    assert AttrContributorType[12] == 'c' && AttrModelId[24] == 'm' && AttrContributorType[24] == 't';
    assert AttrFilePath[12] == 'f' && AttrToolName[12] == 't' && AttrSessionId[12] == 's' && AttrRevision[12] == 'v';
  }

  /** The path attribute's value: the event's path made relative to the root, when non-empty. */
  function RelativeFilePath(e: TraceEvent, root: PurePath): (p: Option<string>)
    ensures Truthy(p) <==> Truthy(e.filePath)
    ensures Truthy(e.filePath) ==> p == Some(ToRelativePath(e.filePath.value, root))
  {
    if Truthy(e.filePath) then Some(ToRelativePath(e.filePath.value, root)) else None
  }

  /** The attributes describing the contribution: contributor type, model id and file path. */
  function ContributionAttributes(e: TraceEvent, root: PurePath): (a: Dict<Scalar>)
    ensures DistinctKeys(a)
  {
    var a := [(AttrContributorType, Str(e.contributor.kind.Value()))];
    var a := PutIfTruthy(a, AttrModelId, e.contributor.modelId);
    PutIfTruthy(a, AttrFilePath, RelativeFilePath(e, root))
  }

  /** The attributes describing the context of the event: tool, session and revision. */
  function ContextAttributes(a: Dict<Scalar>, toolName: Option<string>, sessionId: Option<string>, revision: Option<string>): (r: Dict<Scalar>)
    requires DistinctKeys(a)
    ensures DistinctKeys(r)
  {
    var a := PutIfTruthy(a, AttrToolName, toolName);
    var a := PutIfTruthy(a, AttrSessionId, sessionId);
    PutIfTruthy(a, AttrRevision, revision)
  }

  /** The attributes set from the event's own fields, before its metadata. */
  function FieldAttributes(e: TraceEvent, root: PurePath, revision: Option<string>): (a: Dict<Scalar>)
    ensures DistinctKeys(a)
  {
    ContextAttributes(ContributionAttributes(e, root), e.toolName, e.sessionId, revision)
  }

  /** Reference lookup for the contribution attributes: contributor type, model id, file path. */
  function ContributionValue(e: TraceEvent, root: PurePath, key: string): Option<Scalar> {
    if key == AttrContributorType then Some(Str(e.contributor.kind.Value()))
    else if key == AttrModelId then OptionalStr(e.contributor.modelId)
    else if key == AttrFilePath then OptionalStr(RelativeFilePath(e, root))
    else None
  }

  /** Reference lookup: the value each field attribute name should carry for event e. */
  function FieldValue(e: TraceEvent, root: PurePath, revision: Option<string>, key: string): Option<Scalar> {
    if key == AttrToolName then OptionalStr(e.toolName)
    else if key == AttrSessionId then OptionalStr(e.sessionId)
    else if key == AttrRevision then OptionalStr(revision)
    else ContributionValue(e, root, key)
  }

  /** The attributes set from the fields agree with the reference lookup on every name. */
  lemma FieldAttributesHold(e: TraceEvent, root: PurePath, revision: Option<string>)
    ensures forall key :: Get(FieldAttributes(e, root, revision), key) == FieldValue(e, root, revision, key)
  {
    var a := ContributionAttributes(e, root);
    ContributionAttributesHold(e, root);
    ContextAttributesHold(a, e.toolName, e.sessionId, revision);
    forall key ensures Get(FieldAttributes(e, root, revision), key) == FieldValue(e, root, revision, key) {
      assert Get(a, key) == ContributionValue(e, root, key);
    }
  }

  /** Setting the tool, session and revision attributes on top of any attributes a. */
  lemma ContextAttributesHold(a: Dict<Scalar>, toolName: Option<string>, sessionId: Option<string>, revision: Option<string>)
    requires DistinctKeys(a)
    ensures forall key :: (Get(ContextAttributes(a, toolName, sessionId, revision), key)
      == if key == AttrToolName then (if Truthy(toolName) then OptionalStr(toolName) else Get(a, key))
         else if key == AttrSessionId then (if Truthy(sessionId) then OptionalStr(sessionId) else Get(a, key))
         else if key == AttrRevision then (if Truthy(revision) then OptionalStr(revision) else Get(a, key))
         else Get(a, key))
  {
    FieldKeysDistinct();
  }

  lemma ContributionAttributesHold(e: TraceEvent, root: PurePath)
    ensures forall key :: Get(ContributionAttributes(e, root), key) == ContributionValue(e, root, key)
  {
    FieldKeysDistinct();
    var a0 := [(AttrContributorType, Str(e.contributor.kind.Value()))];
    var a1 := PutIfTruthy(a0, AttrModelId, e.contributor.modelId);
    var a2 := PutIfTruthy(a1, AttrFilePath, RelativeFilePath(e, root));
    assert a2 == ContributionAttributes(e, root);
    forall key ensures Get(a2, key) == ContributionValue(e, root, key) {
      assert Get(a0, key) == if key == AttrContributorType then Some(Str(e.contributor.kind.Value())) else None;
    }
  }

  /** One set_attribute per metadata entry, in order, under the metadata prefix. */
  function WithMetadata(attributes: Dict<Scalar>, metadata: Dict<Scalar>): (r: Dict<Scalar>)
    requires DistinctKeys(attributes) && DistinctKeys(metadata)
    ensures DistinctKeys(r)
    ensures forall key :: !IsMetadataKey(key) ==> Get(r, key) == Get(attributes, key)
    ensures forall k :: (Get(r, MetadataKey(k)) ==
      if k in Keys(metadata) then Get(metadata, k) else Get(attributes, MetadataKey(k)))
    decreases |metadata|
  {
    if metadata == [] then attributes
    else
      DistinctTail(metadata);
      var r := WithMetadata(Put(attributes, MetadataKey(metadata[0].0), metadata[0].1), metadata[1..]);
      WithMetadataHead(attributes, metadata, r);
      r
  }

  /** Putting the first metadata entry and then the rest gives what WithMetadata promises. */
  lemma WithMetadataHead(attributes: Dict<Scalar>, metadata: Dict<Scalar>, r: Dict<Scalar>)
    requires metadata != [] && DistinctKeys(attributes) && DistinctKeys(metadata)
    requires metadata[0].0 !in Keys(metadata[1..])
    requires var a' := Put(attributes, MetadataKey(metadata[0].0), metadata[0].1);
      && (forall key :: !IsMetadataKey(key) ==> Get(r, key) == Get(a', key))
      && (forall k :: Get(r, MetadataKey(k)) ==
            if k in Keys(metadata[1..]) then Get(metadata[1..], k) else Get(a', MetadataKey(k)))
    ensures forall key :: !IsMetadataKey(key) ==> Get(r, key) == Get(attributes, key)
    ensures forall k :: (Get(r, MetadataKey(k)) ==
      if k in Keys(metadata) then Get(metadata, k) else Get(attributes, MetadataKey(k)))
  {
    var k0 := metadata[0].0;
    assert metadata == [metadata[0]] + metadata[1..];
    KeysCons(metadata[0], metadata[1..]);
    forall k ensures Get(r, MetadataKey(k)) ==
      if k in Keys(metadata) then Get(metadata, k) else Get(attributes, MetadataKey(k))
    {
      GetCons(metadata[0], metadata[1..], k);
      if k != k0 {
        assert MetadataKey(k)[|MetadataPrefix|..] != MetadataKey(k0)[|MetadataPrefix|..];
      }
    }
  }

  function SpanOf(e: TraceEvent, root: PurePath, revision: Option<string>): (s: Span)
    requires DistinctKeys(e.metadata)
    ensures s.name == "agent." + e.eventType
    ensures |s.events| == |e.ranges|
    ensures forall i :: 0 <= i < |e.ranges| ==> s.events[i] == RangeEvent(i, e.ranges[i])
    ensures DistinctKeys(s.attributes)
  {
    Span("agent." + e.eventType, WithMetadata(FieldAttributes(e, root, revision), e.metadata), RangeEvents(e.ranges))
  }

  /** No field attribute name lies under the metadata prefix. */
  lemma FieldKeysOutsideMetadata()
    ensures !IsMetadataKey(AttrContributorType) && !IsMetadataKey(AttrModelId) && !IsMetadataKey(AttrFilePath)
    ensures !IsMetadataKey(AttrToolName) && !IsMetadataKey(AttrSessionId) && !IsMetadataKey(AttrRevision)
  {
    if IsMetadataKey(AttrContributorType) { FieldKeyNotMetadata(AttrContributorType); }
    if IsMetadataKey(AttrModelId) { FieldKeyNotMetadata(AttrModelId); }
    if IsMetadataKey(AttrFilePath) { FieldKeyNotMetadata(AttrFilePath); }
    if IsMetadataKey(AttrToolName) { FieldKeyNotMetadata(AttrToolName); }
    if IsMetadataKey(AttrSessionId) { FieldKeyNotMetadata(AttrSessionId); }
    if IsMetadataKey(AttrRevision) { FieldKeyNotMetadata(AttrRevision); }
  }

  /**
   * The span's attributes are the field attributes of the reference lookup, and
   * every metadata entry under its prefixed key, with nothing else under that prefix.
   */
  lemma SpanAttributes(e: TraceEvent, root: PurePath, revision: Option<string>)
    requires DistinctKeys(e.metadata)
    ensures forall key :: !IsMetadataKey(key) ==>
      Get(SpanOf(e, root, revision).attributes, key) == FieldValue(e, root, revision, key)
    ensures forall k :: Get(SpanOf(e, root, revision).attributes, MetadataKey(k)) == Get(e.metadata, k)
  {
    FieldAttributesHold(e, root, revision);
    var f := FieldAttributes(e, root, revision);
    forall k ensures Get(f, MetadataKey(k)) == None {
      FieldKeyNotMetadata(MetadataKey(k));
      assert Get(f, MetadataKey(k)) == FieldValue(e, root, revision, MetadataKey(k));
    }
  }

  /**
   * The contributor type is always set; model id, file path (made root-relative),
   * tool, session and revision are set exactly when they are non-empty.
   */
  lemma SpanFieldAttributes(e: TraceEvent, root: PurePath, revision: Option<string>)
    requires DistinctKeys(e.metadata)
    ensures var a := SpanOf(e, root, revision).attributes;
      && Get(a, AttrContributorType) == Some(Str(e.contributor.kind.Value()))
      && (Get(a, AttrModelId).Some? <==> Truthy(e.contributor.modelId))
      && (Truthy(e.contributor.modelId) ==> Get(a, AttrModelId) == Some(Str(e.contributor.modelId.value)))
      && (Get(a, AttrFilePath).Some? <==> Truthy(e.filePath))
      && (Truthy(e.filePath) ==> Get(a, AttrFilePath) == Some(Str(ToRelativePath(e.filePath.value, root))))
      && (Get(a, AttrToolName).Some? <==> Truthy(e.toolName))
      && (Get(a, AttrSessionId).Some? <==> Truthy(e.sessionId))
      && (Get(a, AttrRevision).Some? <==> Truthy(revision))
      && (Truthy(revision) ==> Get(a, AttrRevision) == Some(Str(revision.value)))
  {
    SpanAttributes(e, root, revision);
    FieldKeysOutsideMetadata();
    FieldKeysDistinct();
  }

  /** The span's field attributes, set one optional field at a time. */
  method SetFieldAttributes(e: TraceEvent, root: PurePath, revision: Option<string>) returns (attributes: Dict<Scalar>)
    ensures attributes == FieldAttributes(e, root, revision)
  {
    attributes := [(AttrContributorType, Str(e.contributor.kind.Value()))];
    if Truthy(e.contributor.modelId) {
      attributes := Put(attributes, AttrModelId, Str(e.contributor.modelId.value));
    }
    if Truthy(e.filePath) {
      var relativePath := ToRelativePath(e.filePath.value, root);
      attributes := Put(attributes, AttrFilePath, Str(relativePath));
    }
    ghost var contribution := attributes;
    assert contribution == ContributionAttributes(e, root);
    if Truthy(e.toolName) {
      attributes := Put(attributes, AttrToolName, Str(e.toolName.value));
    }
    if Truthy(e.sessionId) {
      attributes := Put(attributes, AttrSessionId, Str(e.sessionId.value));
    }
    if Truthy(revision) {
      attributes := Put(attributes, AttrRevision, Str(revision.value));
    }
    assert attributes == ContextAttributes(contribution, e.toolName, e.sessionId, revision);
  }

  /** One sub-event per range, numbered from zero. */
  method AddRangeEvents(ranges: seq<FileRange>) returns (events: seq<SpanEvent>)
    ensures events == RangeEvents(ranges)
  {
    events := [];
    for i := 0 to |ranges|
      invariant |events| == i
      invariant forall j :: 0 <= j < i ==> events[j] == RangeEvent(j, ranges[j])
    {
      var r := ranges[i];
      var eventAttributes := [(AttrRangeStart, Int(r.startLine)), (AttrRangeEnd, Int(r.endLine))];
      if Truthy(r.contentHash) {
        eventAttributes := eventAttributes + [(AttrContentHash, Str(r.contentHash.value))];
      }
      events := events + [SpanEvent("range." + Decimal(i), eventAttributes)];
    }
  }

  lemma WithMetadataStep(attributes: Dict<Scalar>, metadata: Dict<Scalar>, j: nat)
    requires DistinctKeys(attributes) && DistinctKeys(metadata) && j < |metadata|
    ensures DistinctKeys(metadata[j..]) && DistinctKeys(metadata[j + 1..])
    ensures WithMetadata(attributes, metadata[j..]) ==
      WithMetadata(Put(attributes, MetadataKey(metadata[j].0), metadata[j].1), metadata[j + 1..])
  {
    assert metadata[j..][1..] == metadata[j + 1..];
    assert metadata[j..][0] == metadata[j];
  }

  /** One set_attribute per metadata entry, in the metadata's order. */
  method SetMetadataAttributes(attributes: Dict<Scalar>, metadata: Dict<Scalar>) returns (r: Dict<Scalar>)
    requires DistinctKeys(attributes) && DistinctKeys(metadata)
    ensures r == WithMetadata(attributes, metadata)
  {
    r := attributes;
    var j := 0;
    while j < |metadata|
      invariant j <= |metadata|
      invariant DistinctKeys(r)
      invariant WithMetadata(r, metadata[j..]) == WithMetadata(attributes, metadata)
    {
      var (key, value) := metadata[j];
      WithMetadataStep(r, metadata, j);
      r := Put(r, MetadataKey(key), value);
      j := j + 1;
    }
  }

  /** Build the span as the source does: the field attributes, the range sub-events, the metadata. */
  method BuildSpan(e: TraceEvent, root: PurePath, revision: Option<string>) returns (s: Span)
    requires DistinctKeys(e.metadata)
    ensures s == SpanOf(e, root, revision)
  {
    var attributes := SetFieldAttributes(e, root, revision);
    var events := AddRangeEvents(e.ranges);
    attributes := SetMetadataAttributes(attributes, e.metadata);
    s := Span("agent." + e.eventType, attributes, events);
  }
}
