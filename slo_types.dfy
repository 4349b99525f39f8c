/** The records the SLO resource moves between the configuration handle and the
    remote service, and the untyped values the handle answers with. */
module SloTypes {

  /** One query of a query group (`row_id`, `query`, `use_row_count`, `field`). */
  datatype SLOQuery = SLOQuery(rowId: string, query: string, useRowCount: bool, field: string)

  /** A query group: its role (`query_group_type`) and its ordered queries. */
  datatype QueryGroup = QueryGroup(queryGroupType: string, queryGroup: seq<SLOQuery>)

  /** The compliance window as the decoder fills it. */
  datatype Compliance = Compliance(complianceType: string, target: int, timezone: string, size: string)

  /** The indicator as the decoder fills it: evaluation type, query type and query groups. */
  datatype Indicator = Indicator(evaluationType: string, queryType: string, queries: seq<QueryGroup>)

  /** The SLO document. `kind` is the payload tag sent as `type` on the wire. */
  datatype SLO = SLO(
    id: string,
    name: string,
    description: string,
    version: int,
    createdAt: string,
    createdBy: string,
    modifiedAt: string,
    modifiedBy: string,
    parentId: string,
    contentType: string,
    kind: string,
    isSystem: bool,
    isMutable: bool,
    isLocked: bool,
    signalType: string,
    compliance: Compliance,
    indicator: Indicator,
    service: string,
    application: string)

  /** A folder of the SLO library; only its id is used. */
  datatype Folder = Folder(id: string)

  /** The top-level keys of the handle's record: the fields the schema declares
      and the three the decoder also asks for (`content_type`, `type`,
      `queries`), which the schema does not declare. */
  datatype Key =
    | Name            // "name"
    | Description     // "description"
    | Version         // "version"
    | CreatedAt       // "created_at"
    | CreatedBy       // "created_by"
    | ModifiedAt      // "modified_at"
    | ModifiedBy      // "modified_by"
    | ParentId        // "parent_id"
    | IsSystem        // "is_system"
    | SignalType      // "signal_type"
    | ComplianceKey   // "compliance"
    | IndicatorKey    // "indicator"
    | IsMutable       // "is_mutable"
    | IsLocked        // "is_locked"
    | Service         // "service"
    | Application     // "application"
    | PostRequestMap  // "post_request_map"
    | ContentTypeKey  // "content_type", not declared by the schema
    | TypeKey         // "type", not declared by the schema
    | QueriesKey      // "queries", not declared at the top level of the schema

  /** The handle's record: what it answers for each key; a key without an
      entry answers nil. */
  type Record = map<Key, Value>

  /** A value the configuration handle answers with. `Query` is an element that
      already has the query record type, the only kind of list element the
      query decoder's type assertion accepts. */
  datatype Value =
    | Str(s: string)
    | Int(i: int)
    | Bool(b: bool)
    | Dict(entries: map<string, Value>)
    | List(items: seq<Value>)
    | Query(q: SLOQuery)

  /** The payload tags of the two write calls. */
  const CreateKind: string := "SlosLibrarySlo"
  const UpdateKind: string := "SlosLibrarySloUpdate"

  /** The content type written back on every read. */
  const ContentType: string := "slo"
}
