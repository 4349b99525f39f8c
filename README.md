# SLO resource of the Sumo Logic Terraform provider, in Dafny

This project models the `sumologic_slo` resource of the Sumo Logic Terraform
provider (`sumologic/resource_sumologic_slo.go`) and proves properties of it.
It covers five parts:

- **`Validators`**: the value constraints the schema puts on an SLO. These are
  the aggregation and aggregation-window patterns, the compliance target range,
  the list of compliance sizes, how many query groups an indicator holds, and
  the three string enumerations. Each pattern is written out as a
  character-level predicate, and a lemma says exactly which strings it accepts.
- **`Codec`**: `resourceToSLO`, `getSLOCompliance`, `getSLOIndicator` and
  `GetSLOIndicatorQueries`, which turn the configuration handle's record into
  an SLO document. The record maps each key to the handle's answer for it. A
  key with no entry stands for a nil answer. A Go type assertion that fails
  (a panic) becomes a `DecodeError`. The query decoder is a nested loop
  (`Codec.GetSLOIndicatorQueries`, `Codec.CopyQueries`) proved equal to a
  prefix-recursive specification. Its inner loop is modelled as written,
  copying element `i` where element `j` was meant. The corrected decoder sits
  beside it, and lemmas relate the two.
- **`Remote`**: the client, as an abstract store of documents keyed by id.
  The store also holds the root folder's id and a log of every call made to
  it. Each call is a function of the store (`FolderReply`, `CreateReply`,
  `ReadReply`, `UpdateReply`, `DeleteReply`). The `Client` class's methods
  are proved equal to these functions. Whether a call fails is a parameter.
- **`Lifecycle`**: the Create, Read, Update and Delete callbacks. Each is a
  method on the handle (`ResourceData`, holding the id and the record) and the
  `Client`, written statement by statement as in the source. Each method is
  proved equal to a step function on their states. Lemmas about the step
  functions cover:
  - the calls each callback makes, and with what payload;
  - where errors come from and which ones are passed through;
  - how Read handles a document that has disappeared;
  - that Read is idempotent;
  - that Create or Update followed by the re-read gives a coherent handle,
    for a record that decodes at all (see below: no record the schema can
    produce does);
  - that deleting twice fails;
  - an invariant that every callback preserves: every create and update call
    carries its type tag, and every stored document sits under its own id.

These behaviours of the code shape the lemmas below:

- Delete passes `NotFound` through as an error, so deleting twice fails
  (`Lifecycle.DeleteTwiceFails`).
- The decoder reads `compliance_type`, `query_type`, a top-level `queries`,
  `content_type` and `type`. The schema declares `type`, `queryType`,
  `indicator.queries`, and neither `content_type` nor a top-level `type`. The
  keys are modelled as the decoder reads them
  (`Codec.ComplianceReadsComplianceType`).
- The handle answers nil for a key the schema does not declare, so on every
  record the schema can produce `resourceToSLO` fails on the compliance
  (lines 340-345) or else in the indicator (lines 351-360: at `query_type`,
  line 353, for the indicator the schema declares, and at the latest on the
  missing top-level `queries`, line 360); the struct literal, with its reads
  of `content_type` and `type` (lines 326-327), is never reached. In the
  program, then, Create without an id, Update and Delete always panic before
  any call reaches the store (`Codec.SchemaShapedNeverDecodes`,
  `Lifecycle.SchemaShapedPanics`, `Lifecycle.PanicMakesNoCall`). The lemmas
  about a Create, Update or Delete that goes through
  (`Lifecycle.CreateThenReadCoherent`, `Lifecycle.UpdateOutcomes`,
  `Lifecycle.UpdateThenReadCoherent`, `Lifecycle.DeleteOutcomes`,
  `Lifecycle.DeleteTwiceFails`, `Lifecycle.CreateThenDelete`,
  `Codec.ResourceToSLORoundTrip`) describe the code for records that carry
  those keys, which the declared schema cannot produce.
- The handle gives back a list of nested blocks as maps, not as provider
  structs, so the `.(SLIQuery)` assertion at line 372 fails on every element
  of a non-empty group, whichever index it reads. The record's `Query`
  variant stands for an element that passes that assertion; the correction
  under "## Findings" fixes only the index.

## Model

| member | source | states |
|---|---|---|
| Validators.AggregationLanguage | sumologic/resource_sumologic_slo.go:11 | the aggregation pattern accepts exactly `Avg`, `Min`, `Max`, `Sum`, and `p` followed by a digit 5-9, a digit, and an optional dot with one to three digits |
| Validators.AggregationExamples | sumologic/resource_sumologic_slo.go:11 | `p95`, `p99.9`, `p50.125`, `Avg` and `Sum` pass; `p42`, `p100`, `p99.`, `p99.1234`, `avg` and `P95` fail |
| Validators.WindowLanguage | sumologic/resource_sumologic_slo.go:12 | the window pattern accepts exactly one or two digits followed by `m` or `h` |
| Validators.WindowExamples | sumologic/resource_sumologic_slo.go:12 | `0m` and `99h` pass, so the 1m..1h range in the source's comment is not enforced; `100m`, `5d`, `m` and `5M` fail |
| Validators.DaysListed | sumologic/resource_sumologic_slo.go:145-147 | entry `k` of the size list is `k + 1` days written in decimal |
| Validators.ComplianceSizeLanguage | sumologic/resource_sumologic_slo.go:142-148 | a compliance size is valid exactly when it is `n` days for some `n` from 1 to 14 |
| Validators.ComplianceExamples | sumologic/resource_sumologic_slo.go:133-148 | the target bounds 0 and 100 are included and -1 and 101 are not; `1d` and `14d` pass; `0d`, `15d`, `7D`, `07d` and the empty string fail |
| Validators.QueryGroupTypeName | sumologic/resource_sumologic_slo.go:173-177 | every query group role is spelled as a value the validator accepts |
| Validators.OpName | sumologic/resource_sumologic_slo.go:198-203 | every comparison is spelled as a value the validator accepts |
| Validators.QueryTypeName | sumologic/resource_sumologic_slo.go:187-192 | every query type is spelled as a value the validator accepts |
| Validators.ParseQueryGroupType | sumologic/resource_sumologic_slo.go:173-177 | a string reads back as a role exactly when the validator accepts it, and the role is spelled as that string |
| Validators.ParseOp | sumologic/resource_sumologic_slo.go:198-203 | a string reads back as a comparison exactly when the validator accepts it, and the comparison is spelled as that string |
| Validators.ParseQueryType | sumologic/resource_sumologic_slo.go:187-192 | a string reads back as a query type exactly when the validator accepts it, and the type is spelled as that string |
| Validators.EnumerationsExact | sumologic/resource_sumologic_slo.go:173-203 | spelling a variant and reading it back gives the same variant in all three enumerations, so distinct variants have distinct spellings |
| Validators.EnumerationExamples | sumologic/resource_sumologic_slo.go:165-203 | membership is exact and case-sensitive (`threshold`, `lessthan` and `metrics` fail), and `queries` holds one or two groups |
| Codec.GetSLOIndicatorQueries | sumologic/resource_sumologic_slo.go:358-379 | the nested loop returns what the as-written query decoder returns for the record's `queries`, including its failures |
| Codec.CopyQueries | sumologic/resource_sumologic_slo.go:368-374 | the inner loop returns the slots the as-written decoder gives a group: every slot holds element `i`, the index is checked against the list's length, and the element must be a query |
| Codec.GroupsFailurePersists | sumologic/resource_sumologic_slo.go:362-376 | once an iteration of the outer loop fails, the whole decode fails with that error |
| Codec.GroupAtSpec | sumologic/resource_sumologic_slo.go:363-375 | one raw group decodes exactly when its assertions pass, and then keeps the group's type and length and fills the slots from the source element |
| Codec.GroupsSpec | sumologic/resource_sumologic_slo.go:362-376 | the first `n` iterations succeed exactly when the first `n` raw groups decode, and then yield one group for each |
| Codec.DecodeQueriesSpec | sumologic/resource_sumologic_slo.go:358-379 | the decoder succeeds exactly when every raw group passes its assertions; it then gives one group per raw group, with the same type and number of queries, and slot `j` of group `i` holds element `i` as written or element `j` corrected |
| Codec.AsWrittenFailsOnShortGroup | sumologic/resource_sumologic_slo.go:371-374 | as written, the first group `i` whose non-empty list has at most `i` elements makes the decode fail with an index out of range |
| Codec.AsWrittenCopiesSlotI | sumologic/resource_sumologic_slo.go:371-374 | where both decoders succeed, they agree on shape, and every slot of group `i` as written holds what the corrected decoder puts in slot `i` |
| Codec.EncodedGroupsDecodeAs | sumologic/resource_sumologic_slo.go:358-379 | decoding encoded groups keeps each group's type and length and copies slot `j` from the query in position `i` as written, or in position `j` corrected |
| Codec.CorrectedRoundTrip | sumologic/resource_sumologic_slo.go:371-374 | the corrected decoder gives back every list of query groups it is handed in encoded form |
| Codec.AsWrittenRoundTrip | sumologic/resource_sumologic_slo.go:358-379 | as written, encoded groups come back unchanged exactly when each group `i` is empty or consists of copies of its own query `i` |
| Codec.AsWrittenRepeatsQuery | sumologic/resource_sumologic_slo.go:372-373 | one group of two different queries comes back, as written, holding the first query twice |
| Codec.AsWrittenRejectsSecondGroup | sumologic/resource_sumologic_slo.go:372 | two groups of one query each make the as-written decoder read index 1 of a one-element list; the corrected decoder gives both back |
| Codec.SchemaShapedNeverDecodes | sumologic/resource_sumologic_slo.go:313-347 | a record without `content_type`, `type` and a top-level `queries` never decodes: the indicator fails, and `resourceToSLO` fails at the compliance or the indicator, never at `content_type` or `type` |
| Codec.SchemaShapedAfterWriteBack | sumologic/resource_sumologic_slo.go:288-301 | the write-back adds `content_type` to a record without the undeclared keys, but leaves `type` and `queries` absent, so the record still does not decode |
| Codec.ResourceToSLOTakesId | sumologic/resource_sumologic_slo.go:317 | the document's id is the handle's id and nothing else depends on it |
| Codec.WriteBackWrites | sumologic/resource_sumologic_slo.go:288-292 | after a read's write-back, the handle answers the server's name, description, version and creation fields |
| Codec.WriteBackWritesOwner | sumologic/resource_sumologic_slo.go:293-296 | after the write-back, the handle answers the server's modification fields and parent, and the constant content type `slo` |
| Codec.WriteBackWritesFlags | sumologic/resource_sumologic_slo.go:297-301 | after the write-back, the handle answers the server's flags, service and application |
| Codec.WriteBackKeeps | sumologic/resource_sumologic_slo.go:288-301 | the write-back leaves the answers for `type` and `signal_type` as they were |
| Codec.WriteBackKeepsNested | sumologic/resource_sumologic_slo.go:288-301 | the write-back leaves the decoded compliance and indicator as they were |
| Codec.WriteBackFrame | sumologic/resource_sumologic_slo.go:288-301 | the write-back adds exactly the fourteen written keys and leaves every other key's answer alone |
| Codec.WriteBackIdempotent | sumologic/resource_sumologic_slo.go:288-301 | writing the same document back twice leaves the record that the first write-back made |
| Codec.DecodeAfterWriteBack | sumologic/resource_sumologic_slo.go:288-337 | after a write-back, a record that decoded before still decodes, to the earlier document with the server's values in the written fields and content type `slo` |
| Codec.EncodeRecordReads | sumologic/resource_sumologic_slo.go:318-322 | a record built from a document answers its name, description, version and creation fields |
| Codec.EncodeRecordReadsOwner | sumologic/resource_sumologic_slo.go:323-327 | such a record answers the document's modification fields, parent, content type and type tag |
| Codec.EncodeRecordReadsFlags | sumologic/resource_sumologic_slo.go:328-335 | such a record answers the document's flags, signal type, service and application |
| Codec.EncodeRecordCompliance | sumologic/resource_sumologic_slo.go:339-347 | `getSLOCompliance` reads back the document's compliance |
| Codec.EncodeRecordIndicator | sumologic/resource_sumologic_slo.go:349-356 | `getSLOIndicator` reads back the evaluation and query types, and hands the encoded groups to the query decoder |
| Codec.ResourceToSLORoundTrip | sumologic/resource_sumologic_slo.go:313-379 | a document's encoded record decodes back to the same document exactly when every query group `i` survives the as-written inner loop |
| Codec.ComplianceReadsComplianceType | sumologic/resource_sumologic_slo.go:342 | a compliance map keyed as the schema declares it (`type`) fails to decode, at `compliance_type` |
| Remote.Client.GetSLOLibraryFolder | sumologic/resource_sumologic_slo.go:254 | the folder lookup records its call, and answers the root folder for `root`, or the injected fault |
| Remote.Client.CreateSLO | sumologic/resource_sumologic_slo.go:264 | the create call records its payload and parameters, and stores the payload under the assigned id unless a fault is injected |
| Remote.Client.SLORead | sumologic/resource_sumologic_slo.go:277 | the read call records the id, and answers the stored document, no document, or the fault |
| Remote.Client.UpdateSLO | sumologic/resource_sumologic_slo.go:385 | the update call records the payload, and replaces the document with the payload's id or answers `NotFound` |
| Remote.Client.DeleteSLO | sumologic/resource_sumologic_slo.go:395 | the delete call records the id, and removes the document or answers `NotFound` |
| Lifecycle.ResourceData.SetId | sumologic/resource_sumologic_slo.go:269 | `d.SetId` changes the handle's id and nothing else |
| Lifecycle.ResourceData.Set | sumologic/resource_sumologic_slo.go:288-301 | `d.Set` changes one key's answer and nothing else |
| Lifecycle.Read | sumologic/resource_sumologic_slo.go:274-311 | the Read callback leaves the handle, the store and the error that `ReadStep` gives |
| Lifecycle.Create | sumologic/resource_sumologic_slo.go:248-272 | the Create callback leaves the handle, the store and the error that `CreateStep` gives |
| Lifecycle.Update | sumologic/resource_sumologic_slo.go:381-390 | the Update callback leaves the handle, the store and the error that `UpdateStep` gives |
| Lifecycle.Delete | sumologic/resource_sumologic_slo.go:392-401 | the Delete callback leaves the handle, the store and the error that `DeleteStep` gives |
| Lifecycle.ReadOutcomes | sumologic/resource_sumologic_slo.go:274-311 | Read makes one call and changes nothing in the store. A failure leaves the handle alone and is returned. A missing document clears the id with no error. A found document is written back, and a refused nested write returns an error naming the resource |
| Lifecycle.ReadIdempotent | sumologic/resource_sumologic_slo.go:274-311 | a second Read against an unchanged store leaves the handle, the error and the documents as the first left them |
| Lifecycle.CreateCalls | sumologic/resource_sumologic_slo.go:251-271 | with no parent, Create looks up `root`, and a failed lookup stops it. The create call carries the payload tagged `SlosLibrarySlo` under the chosen parent, with that parent as `parentId`. A failure leaves the handle alone; success binds the assigned id and re-reads |
| Lifecycle.CreateWithIdOnlyReads | sumologic/resource_sumologic_slo.go:250-272 | a handle that already has an id is only read back: one read call and no create call |
| Lifecycle.PanicMakesNoCall | sumologic/resource_sumologic_slo.go:381-398 | a record that fails to decode stops Create (when there is no id yet), Update and Delete before any call reaches the store |
| Lifecycle.SchemaShapedPanics | sumologic/resource_sumologic_slo.go:248-398 | on a record without the undeclared keys, Create without an id, Update and Delete all end in the decoder's panic with the store untouched |
| Lifecycle.CreateBindsOnlyAssignedId | sumologic/resource_sumologic_slo.go:264-270 | a Create that starts without an id ends either still without one, or holding the assigned id of a document now in the store |
| Lifecycle.CreateDecodedBinds | sumologic/resource_sumologic_slo.go:251-271 | once the record has decoded, Create leaves the handle's id alone, clears it, or binds the assigned id of a stored document |
| Lifecycle.CreateDecodedStores | sumologic/resource_sumologic_slo.go:251-272 | when every call goes through, the store gains only the tagged payload under the assigned id, and the handle holds that id and the written-back record |
| Lifecycle.CreateThenReadCoherent | sumologic/resource_sumologic_slo.go:248-311 | after a Create that goes through, the handle decodes to the stored document, except for the payload tag and the content type `slo` |
| Lifecycle.UpdateOutcomes | sumologic/resource_sumologic_slo.go:381-390 | Update sends the decoded record tagged `SlosLibrarySloUpdate` under the handle's id. An error is returned unchanged and leaves the handle alone; success is followed by a Read |
| Lifecycle.UpdateThenReadCoherent | sumologic/resource_sumologic_slo.go:381-390 | after an Update that goes through, the store holds the payload, and the handle decodes to what it decoded to before, except for the content type `slo` |
| Lifecycle.DeleteOutcomes | sumologic/resource_sumologic_slo.go:392-401 | Delete sends the handle's id, leaves the handle alone, removes the document, and passes every error through, `NotFound` included |
| Lifecycle.DeleteTwiceFails | sumologic/resource_sumologic_slo.go:392-401 | deleting the same resource a second time reports `NotFound` |
| Lifecycle.CreateThenDelete | sumologic/resource_sumologic_slo.go:248-401 | Delete on the handle a successful Create leaves removes the created document and nothing else |
| Lifecycle.ReadKeepsConsistent | sumologic/resource_sumologic_slo.go:274-311 | Read keeps the calls tagged and every document under its own id |
| Lifecycle.CreateKeepsConsistent | sumologic/resource_sumologic_slo.go:248-272 | Create keeps the calls tagged and every document under its own id |
| Lifecycle.CreateDecodedKeepsConsistent | sumologic/resource_sumologic_slo.go:251-271 | so does Create once the record has decoded |
| Lifecycle.CreateWithParentKeepsConsistent | sumologic/resource_sumologic_slo.go:261-271 | so does the create call with its re-read |
| Lifecycle.UpdateKeepsConsistent | sumologic/resource_sumologic_slo.go:381-390 | Update keeps the calls tagged and every document under its own id |
| Lifecycle.DeleteKeepsConsistent | sumologic/resource_sumologic_slo.go:392-401 | Delete keeps the calls tagged and every document under its own id |

## Left out

- The Terraform plugin SDK is not modelled: schema machinery, the importer, diffing, and the state file. The handle is reduced to an id and a record of answers.
- `d.Set` is a plain write. The SDK refuses keys the schema does not declare, such as `content_type`; that refusal is not modelled. So the write-back records `content_type` (line 296), and a record without the undeclared keys gains it after a Read that finds its document; `type` and the top-level `queries` stay absent, and the record still does not decode (`Codec.SchemaShapedAfterWriteBack`).
- Writing `compliance` and `indicator` back goes through the SDK's reflection, which is not part of this model. Each of those writes is accepted or refused as the environment says. When accepted, the record's entry is left as it was.
- The HTTP client behind `GetSLOLibraryFolder`, `CreateSLO`, `SLORead`, `UpdateSLO` and `DeleteSLO` is not part of this model. Each call is an abstract store operation that fails with an injected fault. Updating or deleting an absent id answers `NotFound`, and reading one answers no document and no error.
- `log.Printf` in Read is output only, and is left out.
- Remote.CreateReply: the id the store assigns is a parameter of the environment and is not constrained to be non-empty or unused. With `""` the handle stays without an id; with an id already in use the earlier document is replaced. The lemmas hold for any assigned id.
- Floating-point `threshold` is not modelled. Neither are `op`, `aggregation` or the indicator's `size`, which the decoder never reads; their validators are modelled.
- `post_request_map` is declared but never read or written by the callbacks; it is only a key of the record.
- The schema's `ExactlyOneOf` lists on `signal_type`, `compliance.type` and `indicator.evaluation_type` name values, not keys, so they validate nothing; they are not modelled as validators.
- The schema types `queryType`, `op`, `aggregation` and `size` as integers while validating them as strings; the validators are modelled on strings.
- The message of the window validator repeats the aggregation pattern; messages are not modelled.
- The schema blocks that are commented out (`content_type` and `type`) are not modelled; the decoder still reads both keys.
- Codec.GetSLOIndicatorQueries: the inner loop is a separate method, `Codec.CopyQueries`; the two together are the source's nested loop.
- The lifecycle decodes with the as-written query decoder, as the source does. The corrected decoder is proved beside it (see Findings), and is not wired into the callbacks.

## Findings

| source | as written | input that shows it | evidently intended | confidence | as-written member | corrected member |
|---|---|---|---|---|---|---|
| sumologic/resource_sumologic_slo.go:372 | the inner loop reads `qGroupRaw[i]`, the outer index, for every slot `j` | one group with queries `[a, b]` decodes to `[a, a]`; two groups of one query each read index 1 of a one-element list (for elements that pass the `.(SLIQuery)` assertion, which the handle's maps do not) | `qGroupRaw[j]`: slot `j` holds query `j` | high (not executed) | Codec.AsWrittenRepeatsQuery | Codec.CorrectedRoundTrip |
