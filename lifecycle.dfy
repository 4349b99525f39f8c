/** The four lifecycle callbacks of the SLO resource (Create, Read, Update,
    Delete) over the resource handle and the client.

    Each callback is a method on the `ResourceData` handle and the `Client`,
    written step by step as the source is, and proved equal to a step function
    on their states (`CreateStep`, `ReadStep`, `UpdateStep`, `DeleteStep`);
    the lemmas at the end state the rules of the adapter about those
    functions. */
module Lifecycle {

  import opened Wrappers
  import opened SloTypes
  import opened Codec
  import opened Remote

  /** What the parts the adapter cannot see answer during one callback: a
      fault for each client call (`None`: the call reaches the store), the id
      the server assigns to a created SLO, and the nested fields whose write
      the host refuses. */
  datatype Environment = Environment(
    folderFault: Option<ClientError>,
    createFault: Option<ClientError>,
    createdId: string,
    readFault: Option<ClientError>,
    updateFault: Option<ClientError>,
    deleteFault: Option<ClientError>,
    rejectedWrites: set<Key>)

  /** What a callback returns instead of nil; `Panicked` stands for a failed
      type assertion in the decoder, which crashes rather than returns. */
  datatype Error =
    | ClientFailed(cause: ClientError)
    | SetFieldsFailed(resourceId: string, field: Key)
    | Panicked(failure: DecodeError)

  /** The state of the resource handle: its id and its record. */
  datatype Handle = Handle(id: string, fields: Record)

  /** The handle, the store and the returned error after a callback. */
  datatype Outcome = Outcome(handle: Handle, server: Server, err: Option<Error>)

  /** The key of the query parameter that carries the parent folder. */
  const ParentParam: string := "parentId"

  // ---------------------------------------------------------------------------
  // The callbacks as functions of the handle and the store

  function ReadStep(h: Handle, s: Server, env: Environment): Outcome {
    var reply := ReadReply(s, h.id, env.readFault);
    match reply.result
    case Failure(e) => Outcome(h, reply.server, Some(ClientFailed(e)))
    case Success(None) => Outcome(h.(id := ""), reply.server, None)
    case Success(Some(slo)) =>
      var written := h.(fields := WriteBack(h.fields, slo));
      if ComplianceKey in env.rejectedWrites then
        Outcome(written, reply.server, Some(SetFieldsFailed(h.id, ComplianceKey)))
      else if IndicatorKey in env.rejectedWrites then
        Outcome(written, reply.server, Some(SetFieldsFailed(h.id, IndicatorKey)))
      else Outcome(written, reply.server, None)
  }

  /** The create call once the parent is known, then the re-read. */
  function CreateWithParent(h: Handle, s: Server, slo: SLO, env: Environment): Outcome {
    var created := CreateReply(s, slo, map[ParentParam := slo.parentId], env.createFault, env.createdId);
    match created.result
    case Failure(e) => Outcome(h, created.server, Some(ClientFailed(e)))
    case Success(id) => ReadStep(h.(id := id), created.server, env)
  }

  function CreateStep(h: Handle, s: Server, env: Environment): Outcome {
    if h.id != "" then ReadStep(h, s, env)
    else
      match ResourceToSLO(h.id, h.fields)
      case Failure(e) => Outcome(h, s, Some(Panicked(e)))
      case Success(decoded) => CreateDecoded(h, s, decoded, env)
  }

  /** Create for a handle without an id once its record has decoded. */
  function CreateDecoded(h: Handle, s: Server, decoded: SLO, env: Environment): Outcome {
    var slo := decoded.(kind := CreateKind);
    if slo.parentId == "" then
      var folder := FolderReply(s, RootAlias, env.folderFault);
      match folder.result
      case Failure(e) => Outcome(h, folder.server, Some(ClientFailed(e)))
      case Success(root) => CreateWithParent(h, folder.server, slo.(parentId := root.id), env)
    else CreateWithParent(h, s, slo, env)
  }

  function UpdateStep(h: Handle, s: Server, env: Environment): Outcome {
    match ResourceToSLO(h.id, h.fields)
    case Failure(e) => Outcome(h, s, Some(Panicked(e)))
    case Success(decoded) =>
      var updated := UpdateReply(s, decoded.(kind := UpdateKind), env.updateFault);
      match updated.result
      case Failure(e) => Outcome(h, updated.server, Some(ClientFailed(e)))
      case Success(_) => ReadStep(h, updated.server, env)
  }

  function DeleteStep(h: Handle, s: Server, env: Environment): Outcome {
    match ResourceToSLO(h.id, h.fields)
    case Failure(e) => Outcome(h, s, Some(Panicked(e)))
    case Success(slo) =>
      var deleted := DeleteReply(s, slo.id, env.deleteFault);
      match deleted.result
      case Failure(e) => Outcome(h, deleted.server, Some(ClientFailed(e)))
      case Success(_) => Outcome(h, deleted.server, None)
  }

  // ---------------------------------------------------------------------------
  // The resource handle and the callbacks

  class ResourceData {
    var id: string
    var fields: Record

    function State(): Handle
      reads this
    {
      Handle(id, fields)
    }

    constructor (id: string, fields: Record)
      ensures State() == Handle(id, fields)
    {
      this.id := id;
      this.fields := fields;
    }

    method SetId(v: string)
      modifies this
      ensures State() == old(State()).(id := v)
    {
      id := v;
    }

    /** Writes one key of the record. */
    method Set(k: Key, v: Value)
      modifies this
      ensures State() == old(State()).(fields := old(fields)[k := v])
    {
      fields := fields[k := v];
    }
  }

  method Read(d: ResourceData, c: Client, env: Environment) returns (err: Option<Error>)
    modifies d, c
    ensures Outcome(d.State(), c.State(), err) == ReadStep(old(d.State()), old(c.State()), env)
  {
    var read := c.SLORead(d.id, env.readFault);
    if read.Failure? {
      return Some(ClientFailed(read.error));
    }
    if read.value.None? {
      d.SetId("");
      return None;
    }
    var slo := read.value.value;
    d.Set(Name, Str(slo.name));
    d.Set(Description, Str(slo.description));
    d.Set(Version, Int(slo.version));
    d.Set(CreatedAt, Str(slo.createdAt));
    d.Set(CreatedBy, Str(slo.createdBy));
    d.Set(ModifiedAt, Str(slo.modifiedAt));
    d.Set(ModifiedBy, Str(slo.modifiedBy));
    d.Set(ParentId, Str(slo.parentId));
    d.Set(ContentTypeKey, Str(ContentType));
    d.Set(IsMutable, Bool(slo.isMutable));
    d.Set(IsLocked, Bool(slo.isLocked));
    d.Set(IsSystem, Bool(slo.isSystem));
    d.Set(Service, Str(slo.service));
    d.Set(Application, Str(slo.application));
    if ComplianceKey in env.rejectedWrites {
      return Some(SetFieldsFailed(d.id, ComplianceKey));
    }
    if IndicatorKey in env.rejectedWrites {
      return Some(SetFieldsFailed(d.id, IndicatorKey));
    }
    return None;
  }

  method Create(d: ResourceData, c: Client, env: Environment) returns (err: Option<Error>)
    modifies d, c
    ensures Outcome(d.State(), c.State(), err) == CreateStep(old(d.State()), old(c.State()), env)
  {
    if d.id == "" {
      var decoded := ResourceToSLO(d.id, d.fields);
      if decoded.Failure? {
        return Some(Panicked(decoded.error));
      }
      var slo := decoded.value.(kind := CreateKind);
      if slo.parentId == "" {
        var rootFolder := c.GetSLOLibraryFolder(RootAlias, env.folderFault);
        if rootFolder.Failure? {
          return Some(ClientFailed(rootFolder.error));
        }
        slo := slo.(parentId := rootFolder.value.id);
      }
      var paramMap := map[ParentParam := slo.parentId];
      var sloDefinitionId := c.CreateSLO(slo, paramMap, env.createFault, env.createdId);
      if sloDefinitionId.Failure? {
        return Some(ClientFailed(sloDefinitionId.error));
      }
      d.SetId(sloDefinitionId.value);
    }
    err := Read(d, c, env);
  }

  method Update(d: ResourceData, c: Client, env: Environment) returns (err: Option<Error>)
    modifies d, c
    ensures Outcome(d.State(), c.State(), err) == UpdateStep(old(d.State()), old(c.State()), env)
  {
    var decoded := ResourceToSLO(d.id, d.fields);
    if decoded.Failure? {
      return Some(Panicked(decoded.error));
    }
    var slo := decoded.value.(kind := UpdateKind);
    var updated := c.UpdateSLO(slo, env.updateFault);
    if updated.Failure? {
      return Some(ClientFailed(updated.error));
    }
    err := Read(d, c, env);
  }

  method Delete(d: ResourceData, c: Client, env: Environment) returns (err: Option<Error>)
    modifies d, c
    ensures Outcome(d.State(), c.State(), err) == DeleteStep(old(d.State()), old(c.State()), env)
  {
    var decoded := ResourceToSLO(d.id, d.fields);
    if decoded.Failure? {
      return Some(Panicked(decoded.error));
    }
    var slo := decoded.value;
    var deleted := c.DeleteSLO(slo.id, env.deleteFault);
    if deleted.Failure? {
      return Some(ClientFailed(deleted.error));
    }
    return None;
  }

  // ---------------------------------------------------------------------------
  // Read

  /** Read asks the store for the handle's id once and changes nothing in it.
      A failed call leaves the handle alone and returns the error; an id the
      store does not hold clears the handle's id without an error; a found
      document is written back over the record, and the write of either
      nested field can still fail, naming the resource. */
  lemma ReadOutcomes(h: Handle, s: Server, env: Environment)
    ensures
      var o := ReadStep(h, s, env);
      && o.server == s.(calls := s.calls + [ReadCall(h.id)])
      && (env.readFault.Some? ==>
            o.handle == h && o.err == Some(ClientFailed(env.readFault.value)))
      && (env.readFault.None? && h.id !in s.slos ==>
            o.handle == h.(id := "") && o.err == None)
      && (env.readFault.None? && h.id in s.slos ==>
            && o.handle == Handle(h.id, WriteBack(h.fields, s.slos[h.id]))
            && (o.err == None <==> ComplianceKey !in env.rejectedWrites && IndicatorKey !in env.rejectedWrites)
            && (o.err != None ==> o.err.value.SetFieldsFailed? && o.err.value.resourceId == h.id))
  {
  }

  /** A second Read against an unchanged store changes nothing more: the
      handle, the error and the store are the ones the first Read left, as
      long as the store holds nothing under the empty id a cleared handle
      would ask for. */
  lemma ReadIdempotent(h: Handle, s: Server, env: Environment)
    requires "" !in s.slos
    ensures
      var first := ReadStep(h, s, env);
      var second := ReadStep(first.handle, first.server, env);
      && second.handle == first.handle
      && second.err == first.err
      && second.server.slos == first.server.slos
  {
    var first := ReadStep(h, s, env);
    if env.readFault.None? && h.id in s.slos {
      WriteBackIdempotent(h.fields, s.slos[h.id]);
    }
  }

  // ---------------------------------------------------------------------------
  // Create

  /** The calls Create makes for a handle without an id whose record decodes:
      the root folder lookup when no parent is given, and then the create
      call with the payload tagged `SlosLibrarySlo`, placed under the given
      parent or the root folder, with the parent as the `parentId` query
      parameter. A failed lookup or create call returns its error and leaves
      the handle alone; an accepted create call binds the assigned id and
      reads the document back. */
  lemma CreateCalls(h: Handle, s: Server, decoded: SLO, env: Environment)
    ensures
      var lookups := if decoded.parentId == "" then [FolderCall(RootAlias)] else [];
      var parent := if decoded.parentId == "" then s.rootFolderId else decoded.parentId;
      var payload := decoded.(kind := CreateKind, parentId := parent);
      var o := CreateDecoded(h, s, decoded, env);
      && (decoded.parentId == "" && env.folderFault.Some? ==>
            o == Outcome(h, s.(calls := s.calls + lookups), Some(ClientFailed(env.folderFault.value))))
      && (decoded.parentId != "" || env.folderFault.None? ==>
            var sent := s.calls + lookups + [CreateCall(payload, map[ParentParam := parent])];
            && |o.server.calls| >= |sent|
            && o.server.calls[..|sent|] == sent
            && (env.createFault.Some? ==>
                  o == Outcome(h, s.(calls := sent), Some(ClientFailed(env.createFault.value))))
            && (env.createFault.None? ==>
                  o == ReadStep(h.(id := env.createdId),
                                s.(slos := s.slos[env.createdId := payload.(id := env.createdId)], calls := sent),
                                env)))
  {
    var o := CreateDecoded(h, s, decoded, env);
    if (decoded.parentId != "" || env.folderFault.None?) && env.createFault.None? {
      var parent := if decoded.parentId == "" then s.rootFolderId else decoded.parentId;
      var payload := decoded.(kind := CreateKind, parentId := parent);
      var lookups := if decoded.parentId == "" then [FolderCall(RootAlias)] else [];
      var sent := s.calls + lookups + [CreateCall(payload, map[ParentParam := parent])];
      var created := s.(slos := s.slos[env.createdId := payload.(id := env.createdId)], calls := sent);
      ReadOutcomes(h.(id := env.createdId), created, env);
      assert o.server.calls == sent + [ReadCall(env.createdId)];
    }
  }

  /** A handle that already has an id is not created again: Create only
      reads it back, and the store receives no create call. */
  lemma CreateWithIdOnlyReads(h: Handle, s: Server, env: Environment)
    requires h.id != ""
    ensures CreateStep(h, s, env) == ReadStep(h, s, env)
    ensures CreateStep(h, s, env).server.calls == s.calls + [ReadCall(h.id)]
  {
  }

  /** A record the decoder cannot read stops Create, Update and Delete before
      any call reaches the store. */
  lemma PanicMakesNoCall(h: Handle, s: Server, env: Environment)
    requires ResourceToSLO(h.id, h.fields).Failure?
    ensures h.id == "" ==> CreateStep(h, s, env) == Outcome(h, s, Some(Panicked(ResourceToSLO(h.id, h.fields).error)))
    ensures UpdateStep(h, s, env) == Outcome(h, s, Some(Panicked(ResourceToSLO(h.id, h.fields).error)))
    ensures DeleteStep(h, s, env) == Outcome(h, s, Some(Panicked(ResourceToSLO(h.id, h.fields).error)))
  {
  }

  /** With a record the schema can produce, Create without an id, Update
      and Delete all panic in the decoder and leave the store untouched. */
  lemma SchemaShapedPanics(h: Handle, s: Server, env: Environment)
    requires SchemaShaped(h.fields)
    ensures
      var e := ResourceToSLO(h.id, h.fields).error;
      && (h.id == "" ==> CreateStep(h, s, env) == Outcome(h, s, Some(Panicked(e))))
      && UpdateStep(h, s, env) == Outcome(h, s, Some(Panicked(e)))
      && DeleteStep(h, s, env) == Outcome(h, s, Some(Panicked(e)))
  {
    SchemaShapedNeverDecodes(h.id, h.fields);
    PanicMakesNoCall(h, s, env);
  }

  /** The handle's id is bound only by a create call the store accepted: a
      Create that starts without an id ends either still without one or
      holding the id the store assigned, and the store then holds a document
      under that id. */
  lemma CreateBindsOnlyAssignedId(h: Handle, s: Server, env: Environment)
    requires h.id == ""
    ensures
      var o := CreateStep(h, s, env);
      o.handle.id == "" || (env.createFault.None? && o.handle.id == env.createdId && env.createdId in o.server.slos)
  {
    if ResourceToSLO(h.id, h.fields).Success? {
      CreateDecodedBinds(h, s, ResourceToSLO(h.id, h.fields).value, env);
    }
  }

  lemma CreateDecodedBinds(h: Handle, s: Server, decoded: SLO, env: Environment)
    ensures
      var o := CreateDecoded(h, s, decoded, env);
      o.handle.id == h.id || o.handle.id == "" || (env.createFault.None? && o.handle.id == env.createdId && env.createdId in o.server.slos)
  {
    CreateCalls(h, s, decoded, env);
    if (decoded.parentId != "" || env.folderFault.None?) && env.createFault.None? {
      var parent := if decoded.parentId == "" then s.rootFolderId else decoded.parentId;
      var payload := decoded.(kind := CreateKind, parentId := parent);
      var lookups := if decoded.parentId == "" then [FolderCall(RootAlias)] else [];
      var sent := s.calls + lookups + [CreateCall(payload, map[ParentParam := parent])];
      ReadOutcomes(h.(id := env.createdId), s.(slos := s.slos[env.createdId := payload.(id := env.createdId)], calls := sent), env);
    }
  }

  /** After a Create that goes through, the handle holds the assigned id, the
      store holds the payload under it and nothing else changed in the store,
      and the handle's record decodes to the stored document but for the
      payload tag, which is never written back, and the content type, which
      is written back as the constant `slo`. */
  lemma CreateThenReadCoherent(h: Handle, s: Server, env: Environment)
    requires h.id == "" && ResourceToSLO(h.id, h.fields).Success?
    requires ResourceToSLO(h.id, h.fields).value.parentId != "" || env.folderFault.None?
    requires env.createFault.None? && env.readFault.None?
    ensures
      var decoded := ResourceToSLO(h.id, h.fields).value;
      var o := CreateStep(h, s, env);
      && o.handle.id == env.createdId
      && env.createdId in o.server.slos
      && o.server.slos == s.slos[env.createdId := o.server.slos[env.createdId]]
      && o.server.slos[env.createdId].kind == CreateKind
      && ResourceToSLO(o.handle.id, o.handle.fields)
           == Success(o.server.slos[env.createdId].(contentType := ContentType, kind := decoded.kind))
  {
    var decoded := ResourceToSLO(h.id, h.fields).value;
    var parent := if decoded.parentId == "" then s.rootFolderId else decoded.parentId;
    var stored := decoded.(kind := CreateKind, parentId := parent, id := env.createdId);
    CreateDecodedStores(h, s, decoded, env);
    ResourceToSLOTakesId(h.id, env.createdId, h.fields);
    DecodeAfterWriteBack(env.createdId, h.fields, stored);
  }

  /** The handle and the store after a Create whose calls all go through. */
  lemma CreateDecodedStores(h: Handle, s: Server, decoded: SLO, env: Environment)
    requires decoded.parentId != "" || env.folderFault.None?
    requires env.createFault.None? && env.readFault.None?
    ensures
      var parent := if decoded.parentId == "" then s.rootFolderId else decoded.parentId;
      var stored := decoded.(kind := CreateKind, parentId := parent, id := env.createdId);
      var o := CreateDecoded(h, s, decoded, env);
      && o.handle == Handle(env.createdId, WriteBack(h.fields, stored))
      && o.server.slos == s.slos[env.createdId := stored]
  {
    var parent := if decoded.parentId == "" then s.rootFolderId else decoded.parentId;
    var payload := decoded.(kind := CreateKind, parentId := parent);
    var lookups := if decoded.parentId == "" then [FolderCall(RootAlias)] else [];
    var sent := s.calls + lookups + [CreateCall(payload, map[ParentParam := parent])];
    CreateCalls(h, s, decoded, env);
    ReadOutcomes(h.(id := env.createdId), s.(slos := s.slos[env.createdId := payload.(id := env.createdId)], calls := sent), env);
  }

  // ---------------------------------------------------------------------------
  // Update

  /** Update sends the decoded record tagged `SlosLibrarySloUpdate` under the
      handle's own id; an error from the store comes back unchanged and
      leaves the handle alone, and an accepted update is followed by a Read. */
  lemma UpdateOutcomes(h: Handle, s: Server, env: Environment)
    requires ResourceToSLO(h.id, h.fields).Success?
    ensures
      var payload := ResourceToSLO(h.id, h.fields).value.(kind := UpdateKind);
      var sent := s.(calls := s.calls + [UpdateCall(payload)]);
      var o := UpdateStep(h, s, env);
      && payload.id == h.id
      && (env.updateFault.Some? ==> o == Outcome(h, sent, Some(ClientFailed(env.updateFault.value))))
      && (env.updateFault.None? && h.id !in s.slos ==> o == Outcome(h, sent, Some(ClientFailed(NotFound))))
      && (env.updateFault.None? && h.id in s.slos ==>
            o == ReadStep(h, sent.(slos := s.slos[h.id := payload]), env))
  {
    ResourceToSLOTakesId(h.id, h.id, h.fields);
  }

  /** After an Update that goes through, the store holds the payload under the
      handle's id, and the handle still decodes to what it decoded to before
      but for the constant content type. */
  lemma UpdateThenReadCoherent(h: Handle, s: Server, env: Environment)
    requires ResourceToSLO(h.id, h.fields).Success?
    requires h.id in s.slos && env.updateFault.None? && env.readFault.None?
    ensures
      var decoded := ResourceToSLO(h.id, h.fields).value;
      var o := UpdateStep(h, s, env);
      && o.handle.id == h.id
      && o.server.slos == s.slos[h.id := decoded.(kind := UpdateKind)]
      && ResourceToSLO(o.handle.id, o.handle.fields) == Success(decoded.(contentType := ContentType))
  {
    var decoded := ResourceToSLO(h.id, h.fields).value;
    UpdateOutcomes(h, s, env);
    ResourceToSLOTakesId(h.id, h.id, h.fields);
    DecodeAfterWriteBack(h.id, h.fields, decoded.(kind := UpdateKind));
  }

  // ---------------------------------------------------------------------------
  // Delete

  /** Delete sends the handle's id, never touches the handle, and passes every
      error through, `NotFound` included. */
  lemma DeleteOutcomes(h: Handle, s: Server, env: Environment)
    requires ResourceToSLO(h.id, h.fields).Success?
    ensures
      var o := DeleteStep(h, s, env);
      && o.handle == h
      && o.server.calls == s.calls + [DeleteCall(h.id)]
      && (env.deleteFault.Some? ==>
            o.server.slos == s.slos && o.err == Some(ClientFailed(env.deleteFault.value)))
      && (env.deleteFault.None? ==>
            && o.server.slos == s.slos - {h.id}
            && o.err == (if h.id in s.slos then None else Some(ClientFailed(NotFound))))
  {
    ResourceToSLOTakesId(h.id, h.id, h.fields);
  }

  /** Delete is not idempotent: deleting the same resource a second time
      reports `NotFound`. */
  lemma DeleteTwiceFails(h: Handle, s: Server, env: Environment)
    requires ResourceToSLO(h.id, h.fields).Success? && env.deleteFault.None?
    ensures
      var first := DeleteStep(h, s, env);
      DeleteStep(first.handle, first.server, env).err == Some(ClientFailed(NotFound))
  {
    DeleteOutcomes(h, s, env);
    var first := DeleteStep(h, s, env);
    DeleteOutcomes(first.handle, first.server, env);
  }

  /** Create followed by Delete on the handle it leaves removes the created
      document and nothing else. */
  lemma CreateThenDelete(h: Handle, s: Server, env: Environment)
    requires h.id == "" && ResourceToSLO(h.id, h.fields).Success?
    requires ResourceToSLO(h.id, h.fields).value.parentId != "" || env.folderFault.None?
    requires env.createFault.None? && env.readFault.None? && env.deleteFault.None?
    ensures
      var created := CreateStep(h, s, env);
      var deleted := DeleteStep(created.handle, created.server, env);
      && deleted.err == None
      && deleted.server.slos == s.slos - {env.createdId}
  {
    CreateThenReadCoherent(h, s, env);
    var created := CreateStep(h, s, env);
    DeleteOutcomes(created.handle, created.server, env);
  }

  // ---------------------------------------------------------------------------
  // What every callback keeps

  /** Every create call carries the tag `SlosLibrarySlo` and every update call
      the tag `SlosLibrarySloUpdate`. */
  predicate TaggedCall(c: Call) {
    && (c.CreateCall? ==> c.payload.kind == CreateKind)
    && (c.UpdateCall? ==> c.payload.kind == UpdateKind)
  }

  /** The store keeps each document under its own id, and the calls are
      tagged. */
  predicate Consistent(s: Server) {
    && (forall id | id in s.slos :: s.slos[id].id == id)
    && (forall k | 0 <= k < |s.calls| :: TaggedCall(s.calls[k]))
  }

  lemma ReadKeepsConsistent(h: Handle, s: Server, env: Environment)
    requires Consistent(s)
    ensures Consistent(ReadStep(h, s, env).server)
  {
    var calls := ReadStep(h, s, env).server.calls;
    assert calls == s.calls + [ReadCall(h.id)];
    assert forall k | 0 <= k < |s.calls| :: calls[k] == s.calls[k];
  }

  lemma CreateKeepsConsistent(h: Handle, s: Server, env: Environment)
    requires Consistent(s)
    ensures Consistent(CreateStep(h, s, env).server)
  {
    if h.id != "" {
      ReadKeepsConsistent(h, s, env);
    } else if ResourceToSLO(h.id, h.fields).Success? {
      CreateDecodedKeepsConsistent(h, s, ResourceToSLO(h.id, h.fields).value, env);
    }
  }

  lemma CreateDecodedKeepsConsistent(h: Handle, s: Server, decoded: SLO, env: Environment)
    requires Consistent(s)
    ensures Consistent(CreateDecoded(h, s, decoded, env).server)
  {
    var slo := decoded.(kind := CreateKind);
    if slo.parentId == "" {
      var folder := FolderReply(s, RootAlias, env.folderFault);
      assert forall k | 0 <= k < |s.calls| :: folder.server.calls[k] == s.calls[k];
      if folder.result.Success? {
        CreateWithParentKeepsConsistent(h, folder.server, slo.(parentId := folder.result.value.id), env);
      }
    } else {
      CreateWithParentKeepsConsistent(h, s, slo, env);
    }
  }

  lemma CreateWithParentKeepsConsistent(h: Handle, s: Server, slo: SLO, env: Environment)
    requires Consistent(s) && slo.kind == CreateKind
    ensures Consistent(CreateWithParent(h, s, slo, env).server)
  {
    var created := CreateReply(s, slo, map[ParentParam := slo.parentId], env.createFault, env.createdId);
    assert forall k | 0 <= k < |s.calls| :: created.server.calls[k] == s.calls[k];
    if created.result.Success? {
      ReadKeepsConsistent(h.(id := created.result.value), created.server, env);
    }
  }

  lemma UpdateKeepsConsistent(h: Handle, s: Server, env: Environment)
    requires Consistent(s)
    ensures Consistent(UpdateStep(h, s, env).server)
  {
    if ResourceToSLO(h.id, h.fields).Success? {
      UpdateOutcomes(h, s, env);
      var payload := ResourceToSLO(h.id, h.fields).value.(kind := UpdateKind);
      var sent := s.calls + [UpdateCall(payload)];
      assert forall k | 0 <= k < |s.calls| :: sent[k] == s.calls[k];
      if env.updateFault.None? && h.id in s.slos {
        ReadKeepsConsistent(h, s.(slos := s.slos[h.id := payload], calls := sent), env);
      }
    }
  }

  lemma DeleteKeepsConsistent(h: Handle, s: Server, env: Environment)
    requires Consistent(s)
    ensures Consistent(DeleteStep(h, s, env).server)
  {
    if ResourceToSLO(h.id, h.fields).Success? {
      DeleteOutcomes(h, s, env);
      var sent := s.calls + [DeleteCall(h.id)];
      assert forall k | 0 <= k < |s.calls| :: sent[k] == s.calls[k];
    }
  }
}
