/** The remote SLO service as the adapter sees it through its client: an
    abstract store of SLO documents keyed by id, the id of the caller's root
    folder, and the log of the calls made to it. The transport is not
    modelled: each call is given its fault, if any, by the caller. */
module Remote {

  import opened Wrappers
  import opened SloTypes

  datatype ClientError = NotFound | Conflict | Rejected | Transport

  /** One client call, with the arguments it was given. */
  datatype Call =
    | FolderCall(alias: string)
    | CreateCall(payload: SLO, params: map<string, string>)
    | ReadCall(id: string)
    | UpdateCall(payload: SLO)
    | DeleteCall(id: string)

  /** The store's state. */
  datatype Server = Server(slos: map<string, SLO>, rootFolderId: string, calls: seq<Call>)

  /** What a call answers, and the store after it. */
  datatype Reply<T> = Reply(server: Server, result: Result<T, ClientError>)

  const RootAlias: string := "root"

  // ---------------------------------------------------------------------------
  // The calls as functions of the store

  /** `GetSLOLibraryFolder`: the alias `root` names the root folder. */
  function FolderReply(s: Server, alias: string, fault: Option<ClientError>): Reply<Folder> {
    var s' := s.(calls := s.calls + [FolderCall(alias)]);
    if fault.Some? then Reply(s', Failure(fault.value))
    else if alias == RootAlias then Reply(s', Success(Folder(s.rootFolderId)))
    else Reply(s', Failure(NotFound))
  }

  /** `CreateSLO`: stores the payload under the id the server assigns. */
  function CreateReply(s: Server, slo: SLO, params: map<string, string>, fault: Option<ClientError>, newId: string): Reply<string> {
    var logged := s.calls + [CreateCall(slo, params)];
    if fault.Some? then Reply(s.(calls := logged), Failure(fault.value))
    else Reply(s.(slos := s.slos[newId := slo.(id := newId)], calls := logged), Success(newId))
  }

  /** `SLORead`: an id the store does not hold answers no document and no error. */
  function ReadReply(s: Server, id: string, fault: Option<ClientError>): Reply<Option<SLO>> {
    var s' := s.(calls := s.calls + [ReadCall(id)]);
    if fault.Some? then Reply(s', Failure(fault.value))
    else if id in s.slos then Reply(s', Success(Some(s.slos[id])))
    else Reply(s', Success(None))
  }

  /** `UpdateSLO`: replaces the document with the payload's id. */
  function UpdateReply(s: Server, slo: SLO, fault: Option<ClientError>): Reply<()> {
    var logged := s.calls + [UpdateCall(slo)];
    if fault.Some? then Reply(s.(calls := logged), Failure(fault.value))
    else if slo.id in s.slos then Reply(s.(slos := s.slos[slo.id := slo], calls := logged), Success(()))
    else Reply(s.(calls := logged), Failure(NotFound))
  }

  /** `DeleteSLO`: removes the document with the given id. */
  function DeleteReply(s: Server, id: string, fault: Option<ClientError>): Reply<()> {
    var logged := s.calls + [DeleteCall(id)];
    if fault.Some? then Reply(s.(calls := logged), Failure(fault.value))
    else if id in s.slos then Reply(s.(slos := s.slos - {id}, calls := logged), Success(()))
    else Reply(s.(calls := logged), Failure(NotFound))
  }

  // ---------------------------------------------------------------------------
  // The client object

  class Client {
    var slos: map<string, SLO>
    var rootFolderId: string
    var calls: seq<Call>

    function State(): Server
      reads this
    {
      Server(slos, rootFolderId, calls)
    }

    constructor (slos: map<string, SLO>, rootFolderId: string)
      ensures State() == Server(slos, rootFolderId, [])
    {
      this.slos := slos;
      this.rootFolderId := rootFolderId;
      this.calls := [];
    }

    method GetSLOLibraryFolder(alias: string, fault: Option<ClientError>) returns (r: Result<Folder, ClientError>)
      modifies this
      ensures Reply(State(), r) == FolderReply(old(State()), alias, fault)
    {
      calls := calls + [FolderCall(alias)];
      if fault.Some? {
        return Failure(fault.value);
      }
      if alias == RootAlias {
        return Success(Folder(rootFolderId));
      }
      return Failure(NotFound);
    }

    method CreateSLO(slo: SLO, params: map<string, string>, fault: Option<ClientError>, newId: string)
      returns (r: Result<string, ClientError>)
      modifies this
      ensures Reply(State(), r) == CreateReply(old(State()), slo, params, fault, newId)
    {
      calls := calls + [CreateCall(slo, params)];
      if fault.Some? {
        return Failure(fault.value);
      }
      slos := slos[newId := slo.(id := newId)];
      return Success(newId);
    }

    method SLORead(id: string, fault: Option<ClientError>) returns (r: Result<Option<SLO>, ClientError>)
      modifies this
      ensures Reply(State(), r) == ReadReply(old(State()), id, fault)
    {
      calls := calls + [ReadCall(id)];
      if fault.Some? {
        return Failure(fault.value);
      }
      if id in slos {
        return Success(Some(slos[id]));
      }
      return Success(None);
    }

    method UpdateSLO(slo: SLO, fault: Option<ClientError>) returns (r: Result<(), ClientError>)
      modifies this
      ensures Reply(State(), r) == UpdateReply(old(State()), slo, fault)
    {
      calls := calls + [UpdateCall(slo)];
      if fault.Some? {
        return Failure(fault.value);
      }
      if slo.id !in slos {
        return Failure(NotFound);
      }
      slos := slos[slo.id := slo];
      return Success(());
    }

    method DeleteSLO(id: string, fault: Option<ClientError>) returns (r: Result<(), ClientError>)
      modifies this
      ensures Reply(State(), r) == DeleteReply(old(State()), id, fault)
    {
      calls := calls + [DeleteCall(id)];
      if fault.Some? {
        return Failure(fault.value);
      }
      if id !in slos {
        return Failure(NotFound);
      }
      slos := slos - {id};
      return Success(());
    }
  }
}
