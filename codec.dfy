/** Decoding the configuration handle's record into an SLO document
    (`resourceToSLO`, `getSLOCompliance`, `getSLOIndicator`,
    `GetSLOIndicatorQueries`).

    The record maps each key to what the handle answers for it; a key without
    an entry stands for a nil answer. Every Go type assertion on a nil answer
    or on a value of another type panics; here it is a `DecodeError`. The keys
    are the ones the decoder reads, not the schema's: `compliance_type`,
    `query_type`, and `queries` at the top level of the record. */
module Codec {

  import opened Wrappers
  import opened SloTypes

  datatype DecodeError =
    | FieldAssertion(field: Key)              // a `.(T)` assertion on `d.Get(field)` that fails
    | TypeAssertion(key: string)              // a `.(T)` assertion on a map entry or element that fails
    | IndexOutOfRange(index: int, length: int) // a slice index past the end

  /** Which element the inner loop of the query decoder copies into slot `j` of
      group `i`: element `i`, as written, or element `j`. */
  datatype Indexing = AsWritten | Corrected

  // ---------------------------------------------------------------------------
  // Type assertions on the answers of the handle and on map entries

  function StringAt<K>(m: map<K, Value>, key: K, failure: DecodeError): Result<string, DecodeError> {
    if key in m && m[key].Str? then Success(m[key].s) else Failure(failure)
  }

  function IntAt<K>(m: map<K, Value>, key: K, failure: DecodeError): Result<int, DecodeError> {
    if key in m && m[key].Int? then Success(m[key].i) else Failure(failure)
  }

  function BoolAt<K>(m: map<K, Value>, key: K, failure: DecodeError): Result<bool, DecodeError> {
    if key in m && m[key].Bool? then Success(m[key].b) else Failure(failure)
  }

  function DictAt<K>(m: map<K, Value>, key: K, failure: DecodeError): Result<map<string, Value>, DecodeError> {
    if key in m && m[key].Dict? then Success(m[key].entries) else Failure(failure)
  }

  function ListAt<K>(m: map<K, Value>, key: K, failure: DecodeError): Result<seq<Value>, DecodeError> {
    if key in m && m[key].List? then Success(m[key].items) else Failure(failure)
  }

  function GetString(fields: Record, k: Key): Result<string, DecodeError> { StringAt(fields, k, FieldAssertion(k)) }
  function GetInt(fields: Record, k: Key): Result<int, DecodeError> { IntAt(fields, k, FieldAssertion(k)) }
  function GetBool(fields: Record, k: Key): Result<bool, DecodeError> { BoolAt(fields, k, FieldAssertion(k)) }
  function GetDict(fields: Record, k: Key): Result<map<string, Value>, DecodeError> { DictAt(fields, k, FieldAssertion(k)) }
  function GetList(fields: Record, k: Key): Result<seq<Value>, DecodeError> { ListAt(fields, k, FieldAssertion(k)) }

  function EntryString(m: map<string, Value>, key: string): Result<string, DecodeError> { StringAt(m, key, TypeAssertion(key)) }
  function EntryInt(m: map<string, Value>, key: string): Result<int, DecodeError> { IntAt(m, key, TypeAssertion(key)) }
  function EntryList(m: map<string, Value>, key: string): Result<seq<Value>, DecodeError> { ListAt(m, key, TypeAssertion(key)) }

  // ---------------------------------------------------------------------------
  // Query groups

  const GroupElement: string := "queries[]"
  const QueryElement: string := "query_group[]"

  /** What the inner loop produces for a raw `query_group` list of group `i`. */
  function Slots(qGroupRaw: seq<Value>, i: nat, indexing: Indexing): Result<seq<SLOQuery>, DecodeError> {
    match indexing
    case AsWritten =>
      if |qGroupRaw| == 0 then Success([])
      else if i >= |qGroupRaw| then Failure(IndexOutOfRange(i, |qGroupRaw|))
      else if !qGroupRaw[i].Query? then Failure(TypeAssertion(QueryElement))
      else Success(seq(|qGroupRaw|, _ => qGroupRaw[i].q))
    case Corrected =>
      if forall k | 0 <= k < |qGroupRaw| :: qGroupRaw[k].Query? then
        Success(seq(|qGroupRaw|, k requires 0 <= k < |qGroupRaw| => qGroupRaw[k].q))
      else Failure(TypeAssertion(QueryElement))
  }

  /** One iteration of the outer loop: decode group `i` of the raw list. */
  function GroupAt(raw: seq<Value>, i: nat, indexing: Indexing): Result<QueryGroup, DecodeError>
    requires i < |raw|
  {
    if !raw[i].Dict? then Failure(TypeAssertion(GroupElement))
    else
      var qDict := raw[i].entries;
      var groupType :- EntryString(qDict, "query_group_type");
      var qGroupRaw :- EntryList(qDict, "query_group");
      var slots :- Slots(qGroupRaw, i, indexing);
      Success(QueryGroup(groupType, slots))
  }

  /** The first `n` iterations of the outer loop. */
  function Groups(raw: seq<Value>, n: nat, indexing: Indexing): Result<seq<QueryGroup>, DecodeError>
    requires n <= |raw|
  {
    if n == 0 then Success([])
    else
      var done :- Groups(raw, n - 1, indexing);
      var g :- GroupAt(raw, n - 1, indexing);
      Success(done + [g])
  }

  function DecodeQueries(raw: seq<Value>, indexing: Indexing): Result<seq<QueryGroup>, DecodeError> {
    Groups(raw, |raw|, indexing)
  }

  /** `GetSLOIndicatorQueries` read from the record's top-level `queries` entry. */
  function QueriesFromRecord(fields: Record, indexing: Indexing): Result<seq<QueryGroup>, DecodeError> {
    var raw :- GetList(fields, QueriesKey);
    DecodeQueries(raw, indexing)
  }

  /** The nested loop as written: fills a fresh array of groups and, for each
      group, a fresh array of queries (`CopyQueries`). */
  method GetSLOIndicatorQueries(fields: Record) returns (r: Result<seq<QueryGroup>, DecodeError>)
    ensures r == QueriesFromRecord(fields, AsWritten)
  {
    if QueriesKey !in fields || !fields[QueriesKey].List? {
      return Failure(FieldAssertion(QueriesKey));
    }
    var queriesRaw := fields[QueriesKey].items;
    var queries := new QueryGroup[|queriesRaw|];
    for i := 0 to queries.Length
      invariant Groups(queriesRaw, i, AsWritten) == Success(queries[..i])
    {
      ghost var done := queries[..i];
      if !queriesRaw[i].Dict? {
        GroupsFailurePersists(queriesRaw, i + 1, |queriesRaw|, AsWritten);
        return Failure(TypeAssertion(GroupElement));
      }
      var qDict := queriesRaw[i].entries;
      if "query_group_type" !in qDict || !qDict["query_group_type"].Str? {
        GroupsFailurePersists(queriesRaw, i + 1, |queriesRaw|, AsWritten);
        return Failure(TypeAssertion("query_group_type"));
      }
      queries[i] := queries[i].(queryGroupType := qDict["query_group_type"].s);
      if "query_group" !in qDict || !qDict["query_group"].List? {
        GroupsFailurePersists(queriesRaw, i + 1, |queriesRaw|, AsWritten);
        return Failure(TypeAssertion("query_group"));
      }
      var qGroups := CopyQueries(qDict["query_group"].items, i);
      if qGroups.Failure? {
        GroupsFailurePersists(queriesRaw, i + 1, |queriesRaw|, AsWritten);
        return Failure(qGroups.error);
      }
      queries[i] := queries[i].(queryGroup := qGroups.value);
      assert queries[..i] == done;
      assert queries[..i + 1] == queries[..i] + [queries[i]];
    }
    assert queries[..] == queries[..queries.Length];
    return Success(queries[..]);
  }

  /** The inner loop of group `i` as written: every slot `j` of a fresh array
      receives raw element `i`. */
  method CopyQueries(qGroupRaw: seq<Value>, i: nat) returns (r: Result<seq<SLOQuery>, DecodeError>)
    ensures r == Slots(qGroupRaw, i, AsWritten)
  {
    var qGroups := new SLOQuery[|qGroupRaw|];
    for j := 0 to qGroups.Length
      invariant j > 0 ==> i < |qGroupRaw| && qGroupRaw[i].Query?
      invariant forall k | 0 <= k < j :: i < |qGroupRaw| && qGroupRaw[i].Query? && qGroups[k] == qGroupRaw[i].q
    {
      if i >= |qGroupRaw| {
        return Failure(IndexOutOfRange(i, |qGroupRaw|));
      }
      if !qGroupRaw[i].Query? {
        return Failure(TypeAssertion(QueryElement));
      }
      qGroups[j] := qGroupRaw[i].q;
    }
    if |qGroupRaw| > 0 {
      assert qGroups[..] == seq(|qGroupRaw|, _ => qGroupRaw[i].q);
    }
    return Success(qGroups[..]);
  }

  /** Once an iteration of the outer loop fails, the whole decode fails with
      that error. */
  lemma {:induction false} GroupsFailurePersists(raw: seq<Value>, n: nat, m: nat, indexing: Indexing)
    requires n <= m <= |raw|
    requires Groups(raw, n, indexing).Failure?
    ensures Groups(raw, m, indexing) == Groups(raw, n, indexing)
  {
    if m > n {
      GroupsFailurePersists(raw, n, m - 1, indexing);
    }
  }

  // ---------------------------------------------------------------------------
  // What the query decoder produces

  /** A raw group whose own assertions (a map, a string type, a list of
      queries) pass. */
  predicate GroupHeader(v: Value) {
    && v.Dict?
    && "query_group_type" in v.entries && v.entries["query_group_type"].Str?
    && "query_group" in v.entries && v.entries["query_group"].List?
  }

  function RawGroupType(v: Value): string
    requires GroupHeader(v)
  {
    v.entries["query_group_type"].s
  }

  function RawQueries(v: Value): seq<Value>
    requires GroupHeader(v)
  {
    v.entries["query_group"].items
  }

  /** The inner loop of group `i` reads only elements that exist and are queries. */
  predicate SlotsReadable(qGroupRaw: seq<Value>, i: nat, indexing: Indexing) {
    match indexing
    case AsWritten => |qGroupRaw| == 0 || (i < |qGroupRaw| && qGroupRaw[i].Query?)
    case Corrected => forall k | 0 <= k < |qGroupRaw| :: qGroupRaw[k].Query?
  }

  predicate GroupDecodable(raw: seq<Value>, i: nat, indexing: Indexing)
    requires i < |raw|
  {
    GroupHeader(raw[i]) && SlotsReadable(RawQueries(raw[i]), i, indexing)
  }

  /** The raw element that slot `j` of group `i` is copied from. */
  function SlotSource(i: nat, j: nat, indexing: Indexing): nat {
    match indexing
    case AsWritten => i
    case Corrected => j
  }

  /** Decoded group `g` keeps the type and the length of raw group `i`, and
      slot `j` holds the query of raw element `SlotSource(i, j)`. */
  predicate DecodedFrom(g: QueryGroup, raw: seq<Value>, i: nat, indexing: Indexing)
    requires i < |raw|
  {
    && GroupDecodable(raw, i, indexing)
    && g.queryGroupType == RawGroupType(raw[i])
    && |g.queryGroup| == |RawQueries(raw[i])|
    && forall j | 0 <= j < |g.queryGroup| ::
         SlotSource(i, j, indexing) < |RawQueries(raw[i])|
         && RawQueries(raw[i])[SlotSource(i, j, indexing)].Query?
         && g.queryGroup[j] == RawQueries(raw[i])[SlotSource(i, j, indexing)].q
  }

  lemma GroupAtSpec(raw: seq<Value>, i: nat, indexing: Indexing)
    requires i < |raw|
    ensures GroupAt(raw, i, indexing).Success? <==> GroupDecodable(raw, i, indexing)
    ensures GroupAt(raw, i, indexing).Success? ==> DecodedFrom(GroupAt(raw, i, indexing).value, raw, i, indexing)
  {
  }

  lemma {:induction false} GroupsSpec(raw: seq<Value>, n: nat, indexing: Indexing)
    requires n <= |raw|
    ensures Groups(raw, n, indexing).Success? <==> forall i | 0 <= i < n :: GroupDecodable(raw, i, indexing)
    ensures Groups(raw, n, indexing).Success? ==>
              && |Groups(raw, n, indexing).value| == n
              && forall i | 0 <= i < n :: DecodedFrom(Groups(raw, n, indexing).value[i], raw, i, indexing)
  {
    if n > 0 {
      GroupsSpec(raw, n - 1, indexing);
      GroupAtSpec(raw, n - 1, indexing);
    }
  }

  /** The decoder succeeds exactly when every raw group passes its assertions;
      it then yields one group per raw group, with the same type and the same
      number of queries, slot `j` of group `i` holding raw element
      `SlotSource(i, j)`: element `i` as written, element `j` corrected. */
  lemma DecodeQueriesSpec(raw: seq<Value>, indexing: Indexing)
    ensures DecodeQueries(raw, indexing).Success? <==> forall i | 0 <= i < |raw| :: GroupDecodable(raw, i, indexing)
    ensures DecodeQueries(raw, indexing).Success? ==>
              && |DecodeQueries(raw, indexing).value| == |raw|
              && forall i | 0 <= i < |raw| :: DecodedFrom(DecodeQueries(raw, indexing).value[i], raw, i, indexing)
  {
    GroupsSpec(raw, |raw|, indexing);
  }

  /** As written, the first group `i` whose non-empty list holds at most `i`
      queries stops the decode with an index out of range. */
  lemma AsWrittenFailsOnShortGroup(raw: seq<Value>, i: nat)
    requires i < |raw|
    requires forall k | 0 <= k < i :: GroupDecodable(raw, k, AsWritten)
    requires GroupHeader(raw[i]) && 0 < |RawQueries(raw[i])| <= i
    ensures DecodeQueries(raw, AsWritten) == Failure(IndexOutOfRange(i, |RawQueries(raw[i])|))
  {
    GroupsSpec(raw, i, AsWritten);
    GroupsFailurePersists(raw, i + 1, |raw|, AsWritten);
  }

  /** Where both decoders succeed, they agree on the shape, and every slot of
      group `i` as written holds what the corrected decoder puts in slot `i`. */
  lemma AsWrittenCopiesSlotI(raw: seq<Value>)
    requires DecodeQueries(raw, AsWritten).Success? && DecodeQueries(raw, Corrected).Success?
    ensures
      var written, corrected := DecodeQueries(raw, AsWritten).value, DecodeQueries(raw, Corrected).value;
      && |written| == |corrected| == |raw|
      && forall i | 0 <= i < |written| ::
           && written[i].queryGroupType == corrected[i].queryGroupType
           && |written[i].queryGroup| == |corrected[i].queryGroup|
           && (|written[i].queryGroup| > 0 ==> i < |corrected[i].queryGroup|)
           && forall j | 0 <= j < |written[i].queryGroup| :: written[i].queryGroup[j] == corrected[i].queryGroup[i]
  {
    DecodeQueriesSpec(raw, AsWritten);
    DecodeQueriesSpec(raw, Corrected);
  }

  // ---------------------------------------------------------------------------
  // Encoding query groups in the shape the decoder reads

  function EncodeGroup(g: QueryGroup): Value {
    Dict(map[
      "query_group_type" := Str(g.queryGroupType),
      "query_group" := List(seq(|g.queryGroup|, j requires 0 <= j < |g.queryGroup| => Query(g.queryGroup[j])))])
  }

  function EncodeQueries(groups: seq<QueryGroup>): seq<Value> {
    seq(|groups|, i requires 0 <= i < |groups| => EncodeGroup(groups[i]))
  }

  /** Every query of the list equals query `i` (or the list is empty). */
  predicate UniformFrom(queries: seq<SLOQuery>, i: nat) {
    |queries| == 0 || (i < |queries| && forall j | 0 <= j < |queries| :: queries[j] == queries[i])
  }

  lemma EncodedGroupsDecodeAs(groups: seq<QueryGroup>, indexing: Indexing, decoded: seq<QueryGroup>)
    requires DecodeQueries(EncodeQueries(groups), indexing) == Success(decoded)
    ensures |decoded| == |groups|
    ensures forall i | 0 <= i < |groups| ::
              && decoded[i].queryGroupType == groups[i].queryGroupType
              && |decoded[i].queryGroup| == |groups[i].queryGroup|
              && forall j | 0 <= j < |groups[i].queryGroup| ::
                   SlotSource(i, j, indexing) < |groups[i].queryGroup|
                   && decoded[i].queryGroup[j] == groups[i].queryGroup[SlotSource(i, j, indexing)]
  {
    var raw := EncodeQueries(groups);
    DecodeQueriesSpec(raw, indexing);
    forall i | 0 <= i < |groups|
      ensures GroupHeader(raw[i]) && RawGroupType(raw[i]) == groups[i].queryGroupType
      ensures |RawQueries(raw[i])| == |groups[i].queryGroup|
      ensures forall k | 0 <= k < |groups[i].queryGroup| :: RawQueries(raw[i])[k] == Query(groups[i].queryGroup[k])
    {
    }
  }

  /** The corrected decoder inverts the encoding. */
  lemma CorrectedRoundTrip(groups: seq<QueryGroup>)
    ensures DecodeQueries(EncodeQueries(groups), Corrected) == Success(groups)
  {
    var raw := EncodeQueries(groups);
    DecodeQueriesSpec(raw, Corrected);
    forall i | 0 <= i < |raw|
      ensures GroupDecodable(raw, i, Corrected)
    {
      assert GroupHeader(raw[i]);
    }
    var decoded := DecodeQueries(raw, Corrected).value;
    EncodedGroupsDecodeAs(groups, Corrected, decoded);
    forall i | 0 <= i < |groups|
      ensures decoded[i] == groups[i]
    {
      assert decoded[i].queryGroup == groups[i].queryGroup;
    }
    assert decoded == groups;
  }

  /** As written, the encoding of some groups decodes back to them exactly when
      each group `i` is empty or holds `i + 1` or more copies of its query `i`. */
  lemma AsWrittenRoundTrip(groups: seq<QueryGroup>)
    ensures (DecodeQueries(EncodeQueries(groups), AsWritten) == Success(groups))
              <==> (forall i | 0 <= i < |groups| :: UniformFrom(groups[i].queryGroup, i))
  {
    var raw := EncodeQueries(groups);
    DecodeQueriesSpec(raw, AsWritten);
    if forall i | 0 <= i < |groups| :: UniformFrom(groups[i].queryGroup, i) {
      forall i | 0 <= i < |raw|
        ensures GroupDecodable(raw, i, AsWritten)
      {
        assert GroupHeader(raw[i]);
      }
      var decoded := DecodeQueries(raw, AsWritten).value;
      EncodedGroupsDecodeAs(groups, AsWritten, decoded);
      forall i | 0 <= i < |groups|
        ensures decoded[i] == groups[i]
      {
        assert decoded[i].queryGroup == groups[i].queryGroup;
      }
      assert decoded == groups;
    }
    if DecodeQueries(raw, AsWritten) == Success(groups) {
      EncodedGroupsDecodeAs(groups, AsWritten, groups);
      forall i | 0 <= i < |groups|
        ensures UniformFrom(groups[i].queryGroup, i)
      {
        if |groups[i].queryGroup| > 0 {
          assert SlotSource(i, 0, AsWritten) < |groups[i].queryGroup|;
        }
      }
    }
  }

  /** A single group of two different queries comes back, as written, with the
      first query twice; corrected, unchanged. */
  lemma AsWrittenRepeatsQuery()
    ensures
      var a, b := SLOQuery("A", "cpu", false, ""), SLOQuery("B", "errors", true, "");
      var raw := EncodeQueries([QueryGroup("Total", [a, b])]);
      && DecodeQueries(raw, AsWritten) == Success([QueryGroup("Total", [a, a])])
      && DecodeQueries(raw, Corrected) == Success([QueryGroup("Total", [a, b])])
  {
    var a, b := SLOQuery("A", "cpu", false, ""), SLOQuery("B", "errors", true, "");
    var groups := [QueryGroup("Total", [a, b])];
    var raw := EncodeQueries(groups);
    CorrectedRoundTrip(groups);
    assert GroupHeader(raw[0]) && RawQueries(raw[0]) == [Query(a), Query(b)];
    DecodeQueriesSpec(raw, AsWritten);
    var decoded := DecodeQueries(raw, AsWritten).value;
    EncodedGroupsDecodeAs(groups, AsWritten, decoded);
    assert decoded[0].queryGroup == [a, a];
    assert decoded == [QueryGroup("Total", [a, a])];
  }

  /** Two groups of one query each: as written, the second group reads index 1
      of a one-element list; corrected, both groups come back. */
  lemma AsWrittenRejectsSecondGroup()
    ensures
      var a, b := SLOQuery("A", "good", false, ""), SLOQuery("B", "total", false, "");
      var groups := [QueryGroup("Successful", [a]), QueryGroup("Total", [b])];
      && DecodeQueries(EncodeQueries(groups), AsWritten) == Failure(IndexOutOfRange(1, 1))
      && DecodeQueries(EncodeQueries(groups), Corrected) == Success(groups)
  {
    var a, b := SLOQuery("A", "good", false, ""), SLOQuery("B", "total", false, "");
    var groups := [QueryGroup("Successful", [a]), QueryGroup("Total", [b])];
    var raw := EncodeQueries(groups);
    CorrectedRoundTrip(groups);
    assert GroupHeader(raw[0]) && GroupHeader(raw[1]);
    assert GroupDecodable(raw, 0, AsWritten);
    AsWrittenFailsOnShortGroup(raw, 1);
  }

  // ---------------------------------------------------------------------------
  // The compliance, the indicator and the whole document

  function GetSLOCompliance(fields: Record): Result<Compliance, DecodeError> {
    var dict :- GetDict(fields, ComplianceKey);
    var complianceType :- EntryString(dict, "compliance_type");
    var target :- EntryInt(dict, "target");
    var timezone :- EntryString(dict, "timezone");
    var size :- EntryString(dict, "size");
    Success(Compliance(complianceType, target, timezone, size))
  }

  function GetSLOIndicator(fields: Record): Result<Indicator, DecodeError> {
    var dict :- GetDict(fields, IndicatorKey);
    var evaluationType :- EntryString(dict, "evaluation_type");
    var queryType :- EntryString(dict, "query_type");
    var queries :- QueriesFromRecord(fields, AsWritten);
    Success(Indicator(evaluationType, queryType, queries))
  }

  /** `resourceToSLO`: the compliance, then the indicator, then the flat fields
      in the order of the struct literal; the id is the handle's. */
  function ResourceToSLO(id: string, fields: Record): Result<SLO, DecodeError> {
    var compliance :- GetSLOCompliance(fields);
    var indicator :- GetSLOIndicator(fields);
    var name :- GetString(fields, Name);
    var description :- GetString(fields, Description);
    var version :- GetInt(fields, Version);
    var createdAt :- GetString(fields, CreatedAt);
    var createdBy :- GetString(fields, CreatedBy);
    var modifiedAt :- GetString(fields, ModifiedAt);
    var modifiedBy :- GetString(fields, ModifiedBy);
    var parentId :- GetString(fields, ParentId);
    var contentType :- GetString(fields, ContentTypeKey);
    var kind :- GetString(fields, TypeKey);
    var isSystem :- GetBool(fields, IsSystem);
    var isMutable :- GetBool(fields, IsMutable);
    var isLocked :- GetBool(fields, IsLocked);
    var signalType :- GetString(fields, SignalType);
    var service :- GetString(fields, Service);
    var application :- GetString(fields, Application);
    Success(SLO(id, name, description, version, createdAt, createdBy, modifiedAt, modifiedBy,
                parentId, contentType, kind, isSystem, isMutable, isLocked, signalType,
                compliance, indicator, service, application))
  }

  /** Every assertion of `resourceToSLO` passes. */
  predicate PartsDecode(fields: Record) {
    && GetSLOCompliance(fields).Success? && GetSLOIndicator(fields).Success?
    && GetString(fields, Name).Success? && GetString(fields, Description).Success?
    && GetInt(fields, Version).Success?
    && GetString(fields, CreatedAt).Success? && GetString(fields, CreatedBy).Success?
    && GetString(fields, ModifiedAt).Success? && GetString(fields, ModifiedBy).Success?
    && GetString(fields, ParentId).Success? && GetString(fields, ContentTypeKey).Success?
    && GetString(fields, TypeKey).Success?
    && GetBool(fields, IsSystem).Success? && GetBool(fields, IsMutable).Success?
    && GetBool(fields, IsLocked).Success?
    && GetString(fields, SignalType).Success?
    && GetString(fields, Service).Success? && GetString(fields, Application).Success?
  }

  /** The document the parts make up. */
  function Assembled(id: string, fields: Record): SLO
    requires PartsDecode(fields)
  {
    SLO(id, GetString(fields, Name).value, GetString(fields, Description).value,
        GetInt(fields, Version).value,
        GetString(fields, CreatedAt).value, GetString(fields, CreatedBy).value,
        GetString(fields, ModifiedAt).value, GetString(fields, ModifiedBy).value,
        GetString(fields, ParentId).value, GetString(fields, ContentTypeKey).value,
        GetString(fields, TypeKey).value,
        GetBool(fields, IsSystem).value, GetBool(fields, IsMutable).value, GetBool(fields, IsLocked).value,
        GetString(fields, SignalType).value,
        GetSLOCompliance(fields).value, GetSLOIndicator(fields).value,
        GetString(fields, Service).value, GetString(fields, Application).value)
  }

  /** `resourceToSLO` succeeds exactly when all its assertions pass, and then
      yields the document of the parts. */
  lemma ResourceToSLOParts(id: string, fields: Record)
    ensures ResourceToSLO(id, fields).Success? <==> PartsDecode(fields)
    ensures PartsDecode(fields) ==> ResourceToSLO(id, fields) == Success(Assembled(id, fields))
  {
  }

  /** The scalar write-back of a read: every server field the handle is given,
      and the constant content type. */
  function WriteBack(fields: Record, slo: SLO): Record {
    fields
      [Name := Str(slo.name)]
      [Description := Str(slo.description)]
      [Version := Int(slo.version)]
      [CreatedAt := Str(slo.createdAt)]
      [CreatedBy := Str(slo.createdBy)]
      [ModifiedAt := Str(slo.modifiedAt)]
      [ModifiedBy := Str(slo.modifiedBy)]
      [ParentId := Str(slo.parentId)]
      [ContentTypeKey := Str(ContentType)]
      [IsMutable := Bool(slo.isMutable)]
      [IsLocked := Bool(slo.isLocked)]
      [IsSystem := Bool(slo.isSystem)]
      [Service := Str(slo.service)]
      [Application := Str(slo.application)]
  }

  /** The keys the write-back touches. */
  const WrittenBack: set<Key> := {
    Name, Description, Version, CreatedAt, CreatedBy, ModifiedAt, ModifiedBy,
    ParentId, ContentTypeKey, IsMutable, IsLocked, IsSystem, Service, Application}

  /** What the decoder's assertions read back after a write-back: the
      server's values under the written keys (the descriptive fields) ... */
  lemma WriteBackWrites(fields: Record, slo: SLO)
    ensures
      var after := WriteBack(fields, slo);
      && GetString(after, Name) == Success(slo.name)
      && GetString(after, Description) == Success(slo.description)
      && GetInt(after, Version) == Success(slo.version)
      && GetString(after, CreatedAt) == Success(slo.createdAt)
      && GetString(after, CreatedBy) == Success(slo.createdBy)
  {
  }

  /** ... the ownership fields and the constant content type ... */
  lemma WriteBackWritesOwner(fields: Record, slo: SLO)
    ensures
      var after := WriteBack(fields, slo);
      && GetString(after, ModifiedAt) == Success(slo.modifiedAt)
      && GetString(after, ModifiedBy) == Success(slo.modifiedBy)
      && GetString(after, ParentId) == Success(slo.parentId)
      && GetString(after, ContentTypeKey) == Success(ContentType)
  {
  }

  /** ... and the flags and the labels ... */
  lemma WriteBackWritesFlags(fields: Record, slo: SLO)
    ensures
      var after := WriteBack(fields, slo);
      && GetBool(after, IsMutable) == Success(slo.isMutable)
      && GetBool(after, IsLocked) == Success(slo.isLocked)
      && GetBool(after, IsSystem) == Success(slo.isSystem)
      && GetString(after, Service) == Success(slo.service)
      && GetString(after, Application) == Success(slo.application)
  {
  }

  /** ... and the earlier answers under the keys it does not write. */
  lemma WriteBackKeeps(fields: Record, slo: SLO)
    ensures
      var after := WriteBack(fields, slo);
      && GetString(after, TypeKey) == GetString(fields, TypeKey)
      && GetString(after, SignalType) == GetString(fields, SignalType)
  {
  }

  lemma WriteBackKeepsNested(fields: Record, slo: SLO)
    ensures
      var after := WriteBack(fields, slo);
      && GetSLOCompliance(after) == GetSLOCompliance(fields)
      && GetSLOIndicator(after) == GetSLOIndicator(fields)
  {
    var after := WriteBack(fields, slo);
    assert GetDict(after, ComplianceKey) == GetDict(fields, ComplianceKey);
    assert GetDict(after, IndicatorKey) == GetDict(fields, IndicatorKey);
    assert GetList(after, QueriesKey) == GetList(fields, QueriesKey);
  }

  /** After a write-back, decoding yields the earlier document with every
      server-managed and written field replaced by the server's, and the
      compliance, the indicator, the signal type, the payload tag and the id
      unchanged. Decoding never starts to fail because of a write-back. */
  lemma DecodeAfterWriteBack(id: string, fields: Record, slo: SLO)
    requires ResourceToSLO(id, fields).Success?
    ensures
      var before := ResourceToSLO(id, fields).value;
      ResourceToSLO(id, WriteBack(fields, slo)) == Success(before.(
        name := slo.name, description := slo.description, version := slo.version,
        createdAt := slo.createdAt, createdBy := slo.createdBy,
        modifiedAt := slo.modifiedAt, modifiedBy := slo.modifiedBy,
        parentId := slo.parentId, contentType := ContentType,
        isMutable := slo.isMutable, isLocked := slo.isLocked, isSystem := slo.isSystem,
        service := slo.service, application := slo.application))
  {
    ResourceToSLOParts(id, fields);
    ResourceToSLOParts(id, WriteBack(fields, slo));
    WriteBackWrites(fields, slo);
    WriteBackWritesOwner(fields, slo);
    WriteBackWritesFlags(fields, slo);
    WriteBackKeeps(fields, slo);
    WriteBackKeepsNested(fields, slo);
  }

  /** `resourceToSLO` takes the id from the handle and nothing else from it:
      decoding the same record under another id succeeds alike and differs
      only in the id. */
  lemma ResourceToSLOTakesId(id: string, other: string, fields: Record)
    ensures ResourceToSLO(id, fields).Success? <==> ResourceToSLO(other, fields).Success?
    ensures ResourceToSLO(id, fields).Success? ==>
      && ResourceToSLO(id, fields).value.id == id
      && ResourceToSLO(other, fields).value == ResourceToSLO(id, fields).value.(id := other)
  {
    ResourceToSLOParts(id, fields);
    ResourceToSLOParts(other, fields);
  }

  /** A record the schema can produce: the handle answers nil for the keys
      the schema does not declare, so none of them has an entry. */
  predicate SchemaShaped(fields: Record) {
    ContentTypeKey !in fields && TypeKey !in fields && QueriesKey !in fields
  }

  /** No record the schema can produce decodes: the indicator always fails
      on the missing top-level `queries` (or earlier), and `resourceToSLO`
      stops at the compliance or at the indicator. */
  lemma SchemaShapedNeverDecodes(id: string, fields: Record)
    requires SchemaShaped(fields)
    ensures GetSLOIndicator(fields).Failure?
    ensures ResourceToSLO(id, fields).Failure?
    ensures ResourceToSLO(id, fields).error ==
      if GetSLOCompliance(fields).Failure? then GetSLOCompliance(fields).error else GetSLOIndicator(fields).error
    ensures ResourceToSLO(id, fields).error !in {FieldAssertion(ContentTypeKey), FieldAssertion(TypeKey)}
  {
    assert QueriesFromRecord(fields, AsWritten) == Failure(FieldAssertion(QueriesKey));
  }

  /** The write-back records `content_type`, which the SDK would refuse, so a
      record the schema can produce stops being one after a Read that finds
      its document; `type` and the top-level `queries` stay absent, and the
      record still does not decode. */
  lemma SchemaShapedAfterWriteBack(id: string, fields: Record, slo: SLO)
    requires SchemaShaped(fields)
    ensures !SchemaShaped(WriteBack(fields, slo))
    ensures TypeKey !in WriteBack(fields, slo) && QueriesKey !in WriteBack(fields, slo)
    ensures ResourceToSLO(id, WriteBack(fields, slo)).Failure?
  {
    WriteBackKeepsNested(fields, slo);
    SchemaShapedNeverDecodes(id, fields);
  }

  /** Writing the same document back twice leaves the record the first
      write-back made. */
  lemma WriteBackIdempotent(fields: Record, slo: SLO)
    ensures WriteBack(WriteBack(fields, slo), slo) == WriteBack(fields, slo)
  {
    WriteBackFrame(fields, slo);
    WriteBackFrame(WriteBack(fields, slo), slo);
    WriteBackTwiceDescriptive(fields, slo);
    WriteBackTwiceOwner(fields, slo);
    WriteBackTwiceFlags(fields, slo);
    WriteBackTwiceLabels(fields, slo);
    SameWriteBack(WriteBack(WriteBack(fields, slo), slo), WriteBack(fields, slo));
  }

  /** Two records that agree on the written keys, in four groups, and on the
      rest are equal. */
  lemma SameWriteBack(twice: Record, once: Record)
    requires WrittenBack <= once.Keys
    requires twice.Keys == once.Keys
    requires forall k | k in once && k !in WrittenBack :: twice[k] == once[k]
    requires forall k | k in {Name, Description, Version, CreatedAt} :: twice[k] == once[k]
    requires forall k | k in {CreatedBy, ModifiedAt, ModifiedBy, ParentId} :: twice[k] == once[k]
    requires forall k | k in {ContentTypeKey, IsMutable, IsLocked} :: twice[k] == once[k]
    requires forall k | k in {IsSystem, Service, Application} :: twice[k] == once[k]
    ensures twice == once
  {
    forall k | k in twice
      ensures k in once && twice[k] == once[k]
    {
      if k in WrittenBack {
        assert k in {Name, Description, Version, CreatedAt}
          || k in {CreatedBy, ModifiedAt, ModifiedBy, ParentId}
          || k in {ContentTypeKey, IsMutable, IsLocked}
          || k in {IsSystem, Service, Application};
      }
    }
  }

  lemma WriteBackTwiceDescriptive(fields: Record, slo: SLO)
    ensures forall k | k in {Name, Description, Version, CreatedAt} ::
      WriteBack(WriteBack(fields, slo), slo)[k] == WriteBack(fields, slo)[k]
  {
  }

  lemma WriteBackTwiceOwner(fields: Record, slo: SLO)
    ensures forall k | k in {CreatedBy, ModifiedAt, ModifiedBy, ParentId} ::
      WriteBack(WriteBack(fields, slo), slo)[k] == WriteBack(fields, slo)[k]
  {
  }

  lemma WriteBackTwiceFlags(fields: Record, slo: SLO)
    ensures forall k | k in {ContentTypeKey, IsMutable, IsLocked} ::
      WriteBack(WriteBack(fields, slo), slo)[k] == WriteBack(fields, slo)[k]
  {
  }

  lemma WriteBackTwiceLabels(fields: Record, slo: SLO)
    ensures forall k | k in {IsSystem, Service, Application} ::
      WriteBack(WriteBack(fields, slo), slo)[k] == WriteBack(fields, slo)[k]
  {
  }

  /** The write-back leaves every other key alone. */
  lemma WriteBackFrame(fields: Record, slo: SLO)
    ensures WriteBack(fields, slo).Keys == fields.Keys + WrittenBack
    ensures forall k | k in fields && k !in WrittenBack :: WriteBack(fields, slo)[k] == fields[k]
  {
  }

  // ---------------------------------------------------------------------------
  // The record the decoder reads, built from a document

  function EncodeCompliance(c: Compliance): Value {
    Dict(map[
      "compliance_type" := Str(c.complianceType),
      "target" := Int(c.target),
      "timezone" := Str(c.timezone),
      "size" := Str(c.size)])
  }

  /** Every key of the record. */
  const AllKeys: set<Key> := {
    Name, Description, Version, CreatedAt, CreatedBy, ModifiedAt, ModifiedBy,
    ParentId, IsSystem, SignalType, ComplianceKey, IndicatorKey, IsMutable,
    IsLocked, Service, Application, PostRequestMap, ContentTypeKey, TypeKey,
    QueriesKey}

  /** The value the record holds under `k` for the document `slo`; the query
      groups sit at the top level under `queries`, where the decoder reads
      them, and `post_request_map` is empty. */
  function EncodeField(slo: SLO, k: Key): Value {
    match k
    case Name => Str(slo.name)
    case Description => Str(slo.description)
    case Version => Int(slo.version)
    case CreatedAt => Str(slo.createdAt)
    case CreatedBy => Str(slo.createdBy)
    case ModifiedAt => Str(slo.modifiedAt)
    case ModifiedBy => Str(slo.modifiedBy)
    case ParentId => Str(slo.parentId)
    case IsSystem => Bool(slo.isSystem)
    case SignalType => Str(slo.signalType)
    case ComplianceKey => EncodeCompliance(slo.compliance)
    case IndicatorKey => Dict(map[
      "evaluation_type" := Str(slo.indicator.evaluationType),
      "query_type" := Str(slo.indicator.queryType)])
    case IsMutable => Bool(slo.isMutable)
    case IsLocked => Bool(slo.isLocked)
    case Service => Str(slo.service)
    case Application => Str(slo.application)
    case PostRequestMap => Dict(map[])
    case ContentTypeKey => Str(slo.contentType)
    case TypeKey => Str(slo.kind)
    case QueriesKey => List(EncodeQueries(slo.indicator.queries))
  }

  /** A record holding every key `resourceToSLO` reads, with the document's
      values. */
  function EncodeRecord(slo: SLO): Record {
    map k | k in AllKeys :: EncodeField(slo, k)
  }

  /** The decoder reads back the document's descriptive fields ... */
  lemma EncodeRecordReads(slo: SLO)
    ensures
      var fields := EncodeRecord(slo);
      && GetString(fields, Name) == Success(slo.name)
      && GetString(fields, Description) == Success(slo.description)
      && GetInt(fields, Version) == Success(slo.version)
      && GetString(fields, CreatedAt) == Success(slo.createdAt)
      && GetString(fields, CreatedBy) == Success(slo.createdBy)
  {
  }

  /** ... its ownership fields and type tags ... */
  lemma EncodeRecordReadsOwner(slo: SLO)
    ensures
      var fields := EncodeRecord(slo);
      && GetString(fields, ModifiedAt) == Success(slo.modifiedAt)
      && GetString(fields, ModifiedBy) == Success(slo.modifiedBy)
      && GetString(fields, ParentId) == Success(slo.parentId)
      && GetString(fields, ContentTypeKey) == Success(slo.contentType)
      && GetString(fields, TypeKey) == Success(slo.kind)
  {
  }

  /** ... its flags and labels ... */
  lemma EncodeRecordReadsFlags(slo: SLO)
    ensures
      var fields := EncodeRecord(slo);
      && GetBool(fields, IsSystem) == Success(slo.isSystem)
      && GetBool(fields, IsMutable) == Success(slo.isMutable)
      && GetBool(fields, IsLocked) == Success(slo.isLocked)
      && GetString(fields, SignalType) == Success(slo.signalType)
      && GetString(fields, Service) == Success(slo.service)
      && GetString(fields, Application) == Success(slo.application)
  {
  }

  /** ... its compliance ... */
  lemma EncodeRecordCompliance(slo: SLO)
    ensures GetSLOCompliance(EncodeRecord(slo)) == Success(slo.compliance)
  {
    assert GetDict(EncodeRecord(slo), ComplianceKey) == Success(EncodeCompliance(slo.compliance).entries);
  }

  /** ... and the header of its indicator, with the query groups handed to the
      query decoder as encoded. */
  lemma EncodeRecordIndicator(slo: SLO)
    ensures
      var fields := EncodeRecord(slo);
      && GetDict(fields, IndicatorKey).Success?
      && EntryString(GetDict(fields, IndicatorKey).value, "evaluation_type") == Success(slo.indicator.evaluationType)
      && EntryString(GetDict(fields, IndicatorKey).value, "query_type") == Success(slo.indicator.queryType)
      && QueriesFromRecord(fields, AsWritten) == DecodeQueries(EncodeQueries(slo.indicator.queries), AsWritten)
  {
  }

  /** The decoder inverts the encoding exactly for documents whose query
      groups survive the as-written inner loop. */
  lemma ResourceToSLORoundTrip(slo: SLO)
    ensures (ResourceToSLO(slo.id, EncodeRecord(slo)) == Success(slo))
              <==> (forall i | 0 <= i < |slo.indicator.queries| :: UniformFrom(slo.indicator.queries[i].queryGroup, i))
  {
    var fields := EncodeRecord(slo);
    AsWrittenRoundTrip(slo.indicator.queries);
    EncodeRecordReads(slo);
    EncodeRecordReadsOwner(slo);
    EncodeRecordReadsFlags(slo);
    EncodeRecordCompliance(slo);
    EncodeRecordIndicator(slo);
    ResourceToSLOParts(slo.id, fields);
    if QueriesFromRecord(fields, AsWritten) == Success(slo.indicator.queries) {
      assert GetSLOIndicator(fields) == Success(slo.indicator);
    } else if ResourceToSLO(slo.id, fields).Success? {
      assert GetSLOIndicator(fields).value.queries == QueriesFromRecord(fields, AsWritten).value;
    }
  }

  /** The decoder reads `compliance_type`, the key the schema calls `type`: a
      compliance map keyed as the schema declares it does not decode. */
  lemma ComplianceReadsComplianceType(fields: Record, c: Compliance)
    requires fields == map[ComplianceKey := Dict(map[
      "type" := Str(c.complianceType), "target" := Int(c.target),
      "timezone" := Str(c.timezone), "size" := Str(c.size)])]
    ensures GetSLOCompliance(fields) == Failure(TypeAssertion("compliance_type"))
  {
  }
}
