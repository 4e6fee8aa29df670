/**
  The temporary-builds cleaner adapter: high-level operations on the orchestrator's REST API used to
  find expired temporary builds and group builds and to delete them.

  A delete completes asynchronously: the adapter registers a handler with a callback manager, sends
  the delete with a callback URL, and blocks in the manager's `await` until the orchestrator posts
  the result to that URL. The REST clients and the two callback managers are not modelled: their
  answers are inputs, and every call the adapter makes on them is appended to a trace of events.
*/
module TemporaryBuilds {
  import opened Wrappers
  import opened OrchClient

  /** A temporary build: its id and its attributes. */
  datatype Build = Build(id: string, attributes: map<string, string>)

  /** A temporary group build. */
  datatype GroupBuild = GroupBuild(id: string)

  /** The status the orchestrator reports for a delete; only whether it means success matters here. */
  datatype ResultStatus = ResultStatus(isSuccess: bool)

  /** The result the orchestrator posts to the callback URL; either field may be null. */
  datatype DeleteOperationResult = DeleteOperationResult(status: Option<ResultStatus>, message: Option<string>)

  /** What a callback manager's `await` does: return the posted result (possibly null) or be interrupted. */
  datatype AwaitOutcome = Returned(result: Option<DeleteOperationResult>) | Interrupted

  /** The two callback managers the adapter holds. */
  datatype CallbackManager = BuildDeleteCallbackManager | BuildGroupDeleteCallbackManager

  /** The two authenticated REST clients a delete is sent through. */
  datatype Client = BuildClient | GroupBuildClient

  /** One call the adapter makes on a callback manager or a REST client. */
  datatype Event =
    | InitializeHandlerCall(manager: CallbackManager, id: string)
    | DeleteCall(client: Client, id: string, callbackUrl: string)
    | AwaitCall(manager: CallbackManager, id: string)
    | CancelCall(manager: CallbackManager, id: string)

  /** The `OrchInteractionException` a failed delete throws, by what caused it. */
  datatype OrchInteractionException =
    | ReportedFailure(result: Option<DeleteOperationResult>)
    | DeleteFailed(cause: RemoteResourceException)
    | WaitInterrupted

  /** Which manager a delete registers and awaits on, which client sends it, which manager is cancelled. */
  datatype Protocol = Protocol(handlerManager: CallbackManager, client: Client, cancelManager: CallbackManager)

  /** The calls one delete makes and how it ends: `Pass` when it returns normally. */
  datatype DeleteRun = DeleteRun(calls: seq<Event>, outcome: Outcome<OrchInteractionException>)

  const DeleteBuildsCallbackPath := "/callbacks/delete/builds/"
  const DeleteGroupBuildsCallbackPath := "/callbacks/delete/group-builds/"

  /** The protocol of `deleteTemporaryBuild`. */
  const BuildProtocol := Protocol(BuildDeleteCallbackManager, BuildClient, BuildDeleteCallbackManager)

  /** The protocol of `deleteTemporaryGroupBuild` as written: its error paths cancel on the build manager. */
  const GroupBuildProtocol := Protocol(BuildGroupDeleteCallbackManager, GroupBuildClient, BuildDeleteCallbackManager)

  /** The protocol `deleteTemporaryGroupBuild` evidently intends: cancel where the handler was registered. */
  const IntendedGroupBuildProtocol := Protocol(BuildGroupDeleteCallbackManager, GroupBuildClient, BuildGroupDeleteCallbackManager)

  /** A delete succeeded: the awaited result is non-null and carries a non-null success status. */
  predicate Succeeded(result: Option<DeleteOperationResult>)
  {
    result.Some? && result.value.status.Some? && result.value.status.value.isSuccess
  }

  /** A delete ended on an exception path: the send threw, or the wait was interrupted. */
  predicate ExceptionPath(sent: Outcome<RemoteResourceException>, awaited: AwaitOutcome)
  {
    sent.Fail? || awaited.Interrupted?
  }

  /**
    One delete under protocol `p`: register the handler, send the delete with `callbackUrl`; if the
    send throws, cancel; otherwise await, cancel if interrupted, and interpret the awaited result.
  */
  function DeleteRunOf(p: Protocol, id: string, callbackUrl: string,
                       sent: Outcome<RemoteResourceException>, awaited: AwaitOutcome): (r: DeleteRun)
    ensures |r.calls| >= 2 && r.calls[0] == InitializeHandlerCall(p.handlerManager, id)
    ensures r.calls[1] == DeleteCall(p.client, id, callbackUrl)
    ensures r.outcome.Pass? ==> forall e :: e in r.calls ==> !e.CancelCall?
  {
    var sending := [InitializeHandlerCall(p.handlerManager, id), DeleteCall(p.client, id, callbackUrl)];
    match sent
    case Fail(e) =>
      DeleteRun(sending + [CancelCall(p.cancelManager, id)], Fail(DeleteFailed(e)))
    case Pass =>
      match awaited
      case Interrupted =>
        DeleteRun(sending + [AwaitCall(p.handlerManager, id), CancelCall(p.cancelManager, id)], Fail(WaitInterrupted))
      case Returned(result) =>
        DeleteRun(sending + [AwaitCall(p.handlerManager, id)],
                  if Succeeded(result) then Pass else Fail(ReportedFailure(result)))
  }

  /**
    The order of calls: the handler is registered first, the delete is sent second, the wait (when
    the send did not throw) comes third, and a cancel, when there is one, comes last.
  */
  lemma DeleteCallOrder(p: Protocol, id: string, callbackUrl: string,
                        sent: Outcome<RemoteResourceException>, awaited: AwaitOutcome)
    ensures var r := DeleteRunOf(p, id, callbackUrl, sent, awaited);
      && 3 <= |r.calls| <= 4
      && r.calls[0] == InitializeHandlerCall(p.handlerManager, id)
      && r.calls[1] == DeleteCall(p.client, id, callbackUrl)
      && (sent.Pass? <==> r.calls[2] == AwaitCall(p.handlerManager, id))
      && (forall i :: 0 <= i < |r.calls| && r.calls[i].CancelCall? ==> i == |r.calls| - 1)
  {
  }

  /** A delete returns normally exactly when the send did not throw and the awaited result succeeded. */
  lemma DeleteSucceedsIff(p: Protocol, id: string, callbackUrl: string,
                          sent: Outcome<RemoteResourceException>, awaited: AwaitOutcome)
    ensures DeleteRunOf(p, id, callbackUrl, sent, awaited).outcome.Pass?
      <==> sent.Pass? && awaited.Returned? && Succeeded(awaited.result)
  {
  }

  /** Which exception a failed delete throws. */
  lemma DeleteFailureKind(p: Protocol, id: string, callbackUrl: string,
                          sent: Outcome<RemoteResourceException>, awaited: AwaitOutcome)
    ensures var r := DeleteRunOf(p, id, callbackUrl, sent, awaited);
      && (sent.Fail? ==> r.outcome == Fail(DeleteFailed(sent.error)))
      && (sent.Pass? && awaited.Interrupted? ==> r.outcome == Fail(WaitInterrupted))
      && (sent.Pass? && awaited.Returned? && !Succeeded(awaited.result) ==>
            r.outcome == Fail(ReportedFailure(awaited.result)))
  {
  }

  /**
    `cancel` is called exactly on the exception paths, once, on the protocol's cancel manager; the
    success path and the reported-failure path never cancel.
  */
  lemma CancelExactlyOnExceptionPaths(p: Protocol, id: string, callbackUrl: string,
                                      sent: Outcome<RemoteResourceException>, awaited: AwaitOutcome)
    ensures var r := DeleteRunOf(p, id, callbackUrl, sent, awaited);
      && ((exists i :: 0 <= i < |r.calls| && r.calls[i].CancelCall?) <==> ExceptionPath(sent, awaited))
      && (forall e :: e in r.calls && e.CancelCall? ==> e == CancelCall(p.cancelManager, id))
  {
    var r := DeleteRunOf(p, id, callbackUrl, sent, awaited);
    if ExceptionPath(sent, awaited) {
      assert r.calls[|r.calls| - 1].CancelCall?;
    }
  }

  /** A protocol that cancels where it registered releases its handler on every exception path. */
  lemma ErrorPathReleasesHandler(p: Protocol, id: string, callbackUrl: string,
                                 sent: Outcome<RemoteResourceException>, awaited: AwaitOutcome)
    requires p.cancelManager == p.handlerManager && ExceptionPath(sent, awaited)
    ensures var r := DeleteRunOf(p, id, callbackUrl, sent, awaited);
      InitializeHandlerCall(p.handlerManager, id) in r.calls && CancelCall(p.handlerManager, id) in r.calls
  {
  }

  /**
    As written, a group-build delete that throws or is interrupted cancels `id` on the build
    manager, and the handler registered on the group manager is never cancelled.
  */
  lemma GroupBuildErrorLeavesGroupHandler(id: string, callbackUrl: string,
                                          sent: Outcome<RemoteResourceException>,
                                          awaited: AwaitOutcome)
    requires ExceptionPath(sent, awaited)
    ensures var r := DeleteRunOf(GroupBuildProtocol, id, callbackUrl, sent, awaited);
      && InitializeHandlerCall(BuildGroupDeleteCallbackManager, id) in r.calls
      && CancelCall(BuildDeleteCallbackManager, id) in r.calls
      && CancelCall(BuildGroupDeleteCallbackManager, id) !in r.calls
  {
  }

  /** The intended group-build protocol releases the group handler on every exception path. */
  lemma IntendedGroupBuildErrorReleasesHandler(id: string, callbackUrl: string,
                                               sent: Outcome<RemoteResourceException>,
                                               awaited: AwaitOutcome)
    requires ExceptionPath(sent, awaited)
    ensures var r := DeleteRunOf(IntendedGroupBuildProtocol, id, callbackUrl, sent, awaited);
      && InitializeHandlerCall(BuildGroupDeleteCallbackManager, id) in r.calls
      && CancelCall(BuildGroupDeleteCallbackManager, id) in r.calls
      && CancelCall(BuildDeleteCallbackManager, id) !in r.calls
  {
  }

  /** The id is the tail of its callback URL, so distinct ids get distinct URLs. */
  lemma CallbackUrlNamesId(applicationUri: string, path: string, id: string, id': string)
    ensures (applicationUri + path + id)[|applicationUri + path|..] == id
    ensures applicationUri + path + id == applicationUri + path + id' ==> id == id'
  {
  }

  /** A build's callback URL never equals a group build's, whatever the two ids. */
  lemma BuildAndGroupCallbackUrlsDiffer(applicationUri: string, buildId: string, groupBuildId: string)
    ensures applicationUri + DeleteBuildsCallbackPath + buildId
         != applicationUri + DeleteGroupBuildsCallbackPath + groupBuildId
  {
    var k := |applicationUri| + 18;
    assert (applicationUri + DeleteBuildsCallbackPath + buildId)[k] == 'b';
    assert (applicationUri + DeleteGroupBuildsCallbackPath + groupBuildId)[k] == 'g';
  }

  /**
    The adapter. The two callback-URL bases are set at start-up from the application URI; `calls`
    records every call made on the callback managers and the authenticated REST clients.
  */
  class TemporaryBuildsCleanerAdapter {
    const buildArchivedKey: string
    var baseDeleteBuildCallbackUrl: string
    var baseDeleteBuildGroupCallbackUrl: string
    var calls: seq<Event>

    /** Start-up: both callback-URL bases are the application URI followed by their path. */
    constructor (applicationUri: string, buildArchivedKey: string)
      ensures this.buildArchivedKey == buildArchivedKey
      ensures baseDeleteBuildCallbackUrl == applicationUri + DeleteBuildsCallbackPath
      ensures baseDeleteBuildGroupCallbackUrl == applicationUri + DeleteGroupBuildsCallbackPath
      ensures calls == []
    {
      this.buildArchivedKey := buildArchivedKey;
      baseDeleteBuildCallbackUrl := applicationUri + DeleteBuildsCallbackPath;
      baseDeleteBuildGroupCallbackUrl := applicationUri + DeleteGroupBuildsCallbackPath;
      calls := [];
    }

    /**
      The expired temporary builds that are archived; unarchived ones are skipped with a warning.
      A failed query yields the (still empty) set collected so far.
    */
    method FindTemporaryBuildsOlderThan(query: Result<seq<Build>, RemoteResourceException>)
      returns (buildsRest: set<Build>)
      ensures query.Failure? ==> buildsRest == {}
      ensures query.Success? ==>
        forall b :: b in buildsRest <==> b in query.value && buildArchivedKey in b.attributes
    {
      buildsRest := {};
      match query
      case Failure(_) =>
        return;
      case Success(remoteCollection) =>
        for i := 0 to |remoteCollection|
          invariant forall b :: b in buildsRest <==> b in remoteCollection[..i] && buildArchivedKey in b.attributes
        {
          var build := remoteCollection[i];
          if buildArchivedKey !in build.attributes {
            continue;
          }
          buildsRest := buildsRest + {build};
        }
        assert remoteCollection[..|remoteCollection|] == remoteCollection;
    }

    /** Every expired temporary group build the query returns; a failed query yields none. */
    method FindTemporaryGroupBuildsOlderThan(query: Result<seq<GroupBuild>, RemoteResourceException>)
      returns (groupBuilds: set<GroupBuild>)
      ensures query.Failure? ==> groupBuilds == {}
      ensures query.Success? ==> forall g :: g in groupBuilds <==> g in query.value
    {
      groupBuilds := {};
      if query.Success? {
        var remoteCollection := query.value;
        for i := 0 to |remoteCollection|
          invariant forall g :: g in groupBuilds <==> g in remoteCollection[..i]
        {
          groupBuilds := groupBuilds + {remoteCollection[i]};
        }
        assert remoteCollection[..|remoteCollection|] == remoteCollection;
      }
    }

    /** Deletes a temporary build and waits for the orchestrator's callback. */
    method DeleteTemporaryBuild(id: string, sent: Outcome<RemoteResourceException>, awaited: AwaitOutcome)
      returns (outcome: Outcome<OrchInteractionException>)
      modifies this`calls
      ensures var r := DeleteRunOf(BuildProtocol, id, baseDeleteBuildCallbackUrl + id, sent, awaited);
        calls == old(calls) + r.calls && outcome == r.outcome
    {
      InitializeHandler(BuildDeleteCallbackManager, id);
      var deleted := Delete(BuildClient, id, baseDeleteBuildCallbackUrl + id, sent);
      if deleted.Fail? {
        Cancel(BuildDeleteCallbackManager, id);
        return Fail(DeleteFailed(deleted.error));
      }
      var waited := Await(BuildDeleteCallbackManager, id, awaited);
      if waited.Interrupted? {
        Cancel(BuildDeleteCallbackManager, id);
        return Fail(WaitInterrupted);
      }
      var result := waited.result;
      if result.Some? && result.value.status.Some? && result.value.status.value.isSuccess {
        return Pass;
      }
      return Fail(ReportedFailure(result));
    }

    /**
      Deletes a temporary group build and waits for the orchestrator's callback. The handler is
      registered and awaited on the group manager, but the exception paths cancel on the build manager.
    */
    method DeleteTemporaryGroupBuild(id: string, sent: Outcome<RemoteResourceException>, awaited: AwaitOutcome)
      returns (outcome: Outcome<OrchInteractionException>)
      modifies this`calls
      ensures var r := DeleteRunOf(GroupBuildProtocol, id, baseDeleteBuildGroupCallbackUrl + id, sent, awaited);
        calls == old(calls) + r.calls && outcome == r.outcome
    {
      InitializeHandler(BuildGroupDeleteCallbackManager, id);
      var deleted := Delete(GroupBuildClient, id, baseDeleteBuildGroupCallbackUrl + id, sent);
      if deleted.Fail? {
        Cancel(BuildDeleteCallbackManager, id);
        return Fail(DeleteFailed(deleted.error));
      }
      var waited := Await(BuildGroupDeleteCallbackManager, id, awaited);
      if waited.Interrupted? {
        Cancel(BuildDeleteCallbackManager, id);
        return Fail(WaitInterrupted);
      }
      var result := waited.result;
      if result.Some? && result.value.status.Some? && result.value.status.value.isSuccess {
        return Pass;
      }
      return Fail(ReportedFailure(result));
    }

    /** `initializeHandler(id)` on a callback manager. */
    method InitializeHandler(manager: CallbackManager, id: string)
      modifies this`calls
      ensures calls == old(calls) + [InitializeHandlerCall(manager, id)]
    {
      calls := calls + [InitializeHandlerCall(manager, id)];
    }

    /** `delete(id, callbackUrl)` on an authenticated client; `sent` is what the orchestrator answers. */
    method Delete(client: Client, id: string, callbackUrl: string, sent: Outcome<RemoteResourceException>)
      returns (answer: Outcome<RemoteResourceException>)
      modifies this`calls
      ensures calls == old(calls) + [DeleteCall(client, id, callbackUrl)] && answer == sent
    {
      calls := calls + [DeleteCall(client, id, callbackUrl)];
      answer := sent;
    }

    /** `await(id)` on a callback manager; `awaited` is what the wait ends with. */
    method Await(manager: CallbackManager, id: string, awaited: AwaitOutcome) returns (outcome: AwaitOutcome)
      modifies this`calls
      ensures calls == old(calls) + [AwaitCall(manager, id)] && outcome == awaited
    {
      calls := calls + [AwaitCall(manager, id)];
      outcome := awaited;
    }

    /** `cancel(id)` on a callback manager. */
    method Cancel(manager: CallbackManager, id: string)
      modifies this`calls
      ensures calls == old(calls) + [CancelCall(manager, id)]
    {
      calls := calls + [CancelCall(manager, id)];
    }
  }
}
