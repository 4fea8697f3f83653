/**
 The session-lifecycle orchestrator `UMultiplayerSessionsSubsystem`.

 The online session provider is abstract: whether its session interface is
 valid, the name it reports, whether it holds the named game session, and,
 for every request, whether it accepts the request synchronously (the
 `accepts` parameter). Its completions arrive as calls of the
 `On...Complete` methods by the environment, one at a time.
 */
module SessionsSubsystem {
  import opened SessionTypes

  /**
   What `DestroySession` logs: with no session interface only a failed
   destroy broadcast, otherwise the provider destroy, failed at once if the
   provider refuses it.
   */
  function DestroyPlan(valid: bool, accepts: bool): seq<Event>
  {
    if !valid then [DestroyComplete(false)]
    else Issue(ProviderDestroy(GameSessionName), accepts)
  }

  /**
   What `CreateSession` logs: nothing with no session interface; with a
   game session present, a failed create broadcast and then what the
   destroy of that session logs; otherwise one provider create.
   */
  function CreatePlan(valid: bool, hasSession: bool, subsystemName: string,
                      numPublicConnections: int32, matchType: string, accepts: bool): seq<Event>
  {
    if !valid then []
    else if hasSession then [CreateComplete(false)] + DestroyPlan(true, accepts)
    else Issue(ProviderCreate(GameSessionName, MakeSessionSettings(subsystemName, numPublicConnections, matchType)), accepts)
  }

  /**
   What `OnDestroySessionComplete` logs: the provider's destroy outcome,
   then, after a successful destroy with a create pending, what the create
   re-issued with the stashed arguments logs.
   */
  function DestroyCompletePlan(success: bool, pending: bool, hasSession: bool, subsystemName: string,
                               lastNumPublicConnections: int32, lastMatchType: string, accepts: bool): seq<Event>
  {
    [DestroyComplete(success)] +
    if success && pending
    then CreatePlan(true, hasSession, subsystemName, lastNumPublicConnections, lastMatchType, accepts)
    else []
  }

  /**
   With no session interface a create request logs nothing, while a destroy
   request makes no provider call and broadcasts a failed destroy.
   */
  lemma NoInterface(subsystemName: string, numPublicConnections: int32, matchType: string, hasSession: bool, accepts: bool)
    ensures CreatePlan(false, hasSession, subsystemName, numPublicConnections, matchType, accepts) == []
    ensures Requests(DestroyPlan(false, accepts)) == []
    ensures Broadcasts(DestroyPlan(false, accepts)) == [DestroyComplete(false)]
  {
  }

  /**
   A create request while a game session exists never reaches the
   provider's create: it broadcasts a failed create first and its only
   provider request is the destroy of the existing session.
   */
  lemma CreateWhileInSession(subsystemName: string, numPublicConnections: int32, matchType: string, accepts: bool)
    ensures var r := CreatePlan(true, true, subsystemName, numPublicConnections, matchType, accepts);
      && |r| >= 2 && r[0] == CreateComplete(false)
      && (forall e | e in r :: !e.ProviderCreate?)
      && Requests(r) == [ProviderDestroy(GameSessionName)]
      && Broadcasts(r) == [CreateComplete(false)] + (if accepts then [] else [DestroyComplete(false)])
  {
  }

  /**
   A create request with no game session issues exactly one provider
   create, with the settings built from the request, and broadcasts only if
   the provider refuses it.
   */
  lemma CreateWithoutSession(subsystemName: string, numPublicConnections: int32, matchType: string, accepts: bool)
    ensures var r := CreatePlan(true, false, subsystemName, numPublicConnections, matchType, accepts);
      && Requests(r) == [ProviderCreate(GameSessionName, MakeSessionSettings(subsystemName, numPublicConnections, matchType))]
      && Broadcasts(r) == (if accepts then [] else [CreateComplete(false)])
  {
  }

  /**
   A successful destroy with a create pending broadcasts its outcome first
   and then issues exactly one provider create with the stashed arguments.
   */
  lemma DestroyThenRecreate(subsystemName: string, lastNumPublicConnections: int32, lastMatchType: string, accepts: bool)
    ensures var r := DestroyCompletePlan(true, true, false, subsystemName, lastNumPublicConnections, lastMatchType, accepts);
      && r[0] == DestroyComplete(true)
      && Requests(r) == [ProviderCreate(GameSessionName, MakeSessionSettings(subsystemName, lastNumPublicConnections, lastMatchType))]
      && Broadcasts(r) == [DestroyComplete(true)] + (if accepts then [] else [CreateComplete(false)])
  {
  }

  /** A failed destroy, or one with no create pending, only broadcasts its outcome: no retry. */
  lemma NoRecreate(success: bool, pending: bool, hasSession: bool, subsystemName: string,
                   lastNumPublicConnections: int32, lastMatchType: string, accepts: bool)
    requires !(success && pending)
    ensures DestroyCompletePlan(success, pending, hasSession, subsystemName, lastNumPublicConnections, lastMatchType, accepts)
      == [DestroyComplete(success)]
  {
  }

  /** Every request and every completion issues at most one provider request, re-entry included. */
  lemma AtMostOneRequest(success: bool, pending: bool, valid: bool, hasSession: bool, subsystemName: string,
                         numPublicConnections: int32, matchType: string, accepts: bool)
    ensures |Requests(CreatePlan(valid, hasSession, subsystemName, numPublicConnections, matchType, accepts))| <= 1
    ensures |Requests(DestroyCompletePlan(success, pending, hasSession, subsystemName, numPublicConnections, matchType, accepts))| <= 1
  {
  }

  /**
   Over a whole log: a create request made while a game session exists adds
   the destroy of that session and no provider create to the requests logged
   so far, and a failed create broadcast to the broadcasts.
   */
  lemma {:induction false} CreateWhileInSessionExtendsLog(before: seq<Event>, subsystemName: string,
                                                          numPublicConnections: int32, matchType: string, accepts: bool)
    ensures var after := before + CreatePlan(true, true, subsystemName, numPublicConnections, matchType, accepts);
      && Requests(after) == Requests(before) + [ProviderDestroy(GameSessionName)]
      && Broadcasts(after) == Broadcasts(before) + [CreateComplete(false)] + (if accepts then [] else [DestroyComplete(false)])
  {
    var plan := CreatePlan(true, true, subsystemName, numPublicConnections, matchType, accepts);
    CreateWhileInSession(subsystemName, numPublicConnections, matchType, accepts);
    RequestsAppend(before, plan);
    BroadcastsAppend(before, plan);
  }

  /**
   Over a whole log: a successful destroy with a create pending adds exactly
   one provider create, with the stashed arguments, to the requests logged so
   far, and its outcome before anything else to the broadcasts.
   */
  lemma {:induction false} DestroyThenRecreateExtendsLog(before: seq<Event>, subsystemName: string,
                                                         lastNumPublicConnections: int32, lastMatchType: string, accepts: bool)
    ensures var after := before + DestroyCompletePlan(true, true, false, subsystemName, lastNumPublicConnections, lastMatchType, accepts);
      && Requests(after) == Requests(before) + [ProviderCreate(GameSessionName, MakeSessionSettings(subsystemName, lastNumPublicConnections, lastMatchType))]
      && Broadcasts(after) == Broadcasts(before) + [DestroyComplete(true)] + (if accepts then [] else [CreateComplete(false)])
  {
    var plan := DestroyCompletePlan(true, true, false, subsystemName, lastNumPublicConnections, lastMatchType, accepts);
    DestroyThenRecreate(subsystemName, lastNumPublicConnections, lastMatchType, accepts);
    RequestsAppend(before, plan);
    BroadcastsAppend(before, plan);
  }

  /** The address a join broadcasts: the resolved connect string, or an empty one if it could not be resolved. */
  function ResolvedAddress(resolved: Option<string>): (address: string)
    ensures address != "" ==> resolved == Some(address)
    ensures address == "" <==> resolved.None? || resolved == Some("")
  {
    match resolved
    case Some(a) => a
    case None => ""
  }

  class Subsystem {
    /** `SessionInterface.IsValid()`, fixed when the subsystem is constructed. */
    const interfaceValid: bool
    /** `IOnlineSubsystem::Get()->GetSubsystemName()`. */
    const subsystemName: string
    /** Whether the provider holds a session named `NAME_GameSession` (`GetCurrentGameSession() != nullptr`). */
    var hasGameSession: bool

    var createOnDestroy: bool
    var lastNumPublicConnections: int32
    var lastMatchType: string
    var lastSessionSettings: Option<SessionSettings>
    var lastSessionSearch: Option<SessionSearch>

    var createListener: Registration
    var findListener: Registration
    var joinListener: Registration
    var destroyListener: Registration
    var startListener: Registration

    /** Provider requests issued and broadcasts fired, in order. */
    var trace: seq<Event>

    ghost predicate Valid()
      reads this
    {
      && createListener.Valid()
      && findListener.Valid()
      && joinListener.Valid()
      && destroyListener.Valid()
      && startListener.Valid()
    }

    /** Fields the header leaves uninitialised are zero, as for every engine object. */
    constructor (interfaceValid: bool, subsystemName: string, hasGameSession: bool)
      ensures Valid()
      ensures this.interfaceValid == interfaceValid && this.subsystemName == subsystemName
      ensures this.hasGameSession == hasGameSession
      ensures !createOnDestroy && lastNumPublicConnections == 0 && lastMatchType == ""
      ensures lastSessionSettings.None? && lastSessionSearch.None?
      ensures createListener.Idle() && findListener.Idle() && joinListener.Idle()
      ensures destroyListener.Idle() && startListener.Idle()
      ensures trace == []
    {
      this.interfaceValid := interfaceValid;
      this.subsystemName := subsystemName;
      this.hasGameSession := hasGameSession;
      createOnDestroy := false;
      lastNumPublicConnections := 0;
      lastMatchType := "";
      lastSessionSettings := None;
      lastSessionSearch := None;
      createListener := NoRegistration;
      findListener := NoRegistration;
      joinListener := NoRegistration;
      destroyListener := NoRegistration;
      startListener := NoRegistration;
      trace := [];
    }

    /** The provider's registry gains or loses the named game session. */
    method SetGameSession(present: bool)
      modifies this`hasGameSession
      ensures hasGameSession == present
    {
      hasGameSession := present;
    }

    /** The provider writes the results of the pending search into the search object. */
    method DeliverSearchResults(results: seq<SearchResult>)
      requires lastSessionSearch.Some?
      requires forall r | r in results :: WellKeyed(r.settings)
      modifies this`lastSessionSearch
      ensures lastSessionSearch == Some(old(lastSessionSearch).value.(searchResults := results))
    {
      lastSessionSearch := Some(lastSessionSearch.value.(searchResults := results));
    }

    method CreateSession(numPublicConnections: int32, matchType: string, accepts: bool)
      requires Valid()
      modifies this`createOnDestroy, this`lastNumPublicConnections, this`lastMatchType
      modifies this`lastSessionSettings, this`createListener, this`destroyListener, this`trace
      ensures Valid()
      ensures trace == old(trace) + CreatePlan(interfaceValid, hasGameSession, subsystemName, numPublicConnections, matchType, accepts)
      ensures var stash := interfaceValid && hasGameSession;
        && createOnDestroy == (stash || old(createOnDestroy))
        && lastNumPublicConnections == (if stash then numPublicConnections else old(lastNumPublicConnections))
        && lastMatchType == (if stash then matchType else old(lastMatchType))
        && destroyListener == (if stash then AfterRequest(old(destroyListener), accepts) else old(destroyListener))
      ensures var create := interfaceValid && !hasGameSession;
        && lastSessionSettings == (if create then Some(MakeSessionSettings(subsystemName, numPublicConnections, matchType)) else old(lastSessionSettings))
        && createListener == (if create then AfterRequest(old(createListener), accepts) else old(createListener))
    {
      if !interfaceValid {
        return;
      }
      if hasGameSession {
        createOnDestroy := true;
        lastNumPublicConnections := numPublicConnections;
        lastMatchType := matchType;
        trace := trace + [CreateComplete(false)];
        DestroySession(accepts);
        return;
      }
      var settings := MakeSessionSettings(subsystemName, numPublicConnections, matchType);
      lastSessionSettings := Some(settings);
      createListener := createListener.Add();
      trace := trace + [ProviderCreate(GameSessionName, settings)];
      if !accepts {
        createListener := createListener.Clear();
        trace := trace + [CreateComplete(false)];
      }
    }

    method FindSessions(maxSearchResults: int32, accepts: bool)
      requires Valid() && interfaceValid
      modifies this`lastSessionSearch, this`findListener, this`trace
      ensures Valid()
      ensures lastSessionSearch == Some(MakeSessionSearch(subsystemName, maxSearchResults))
      ensures findListener == AfterRequest(old(findListener), accepts)
      ensures trace == old(trace) + Issue(ProviderFind(MakeSessionSearch(subsystemName, maxSearchResults)), accepts)
    {
      var search := MakeSessionSearch(subsystemName, maxSearchResults);
      lastSessionSearch := Some(search);
      findListener := findListener.Add();
      trace := trace + [ProviderFind(search)];
      if !accepts {
        findListener := findListener.Clear();
        trace := trace + [FindComplete([], false)];
      }
    }

    /** With no session interface this only broadcasts the failure; the null dereference of the source is not modelled. */
    method JoinSession(result: SearchResult, accepts: bool)
      requires Valid()
      modifies this`joinListener, this`trace
      ensures Valid()
      ensures joinListener == if interfaceValid then AfterRequest(old(joinListener), accepts) else old(joinListener)
      ensures trace == old(trace) +
        if interfaceValid then Issue(ProviderJoin(GameSessionName, result), accepts)
        else [JoinComplete("", UnknownError)]
    {
      if !interfaceValid {
        trace := trace + [JoinComplete("", UnknownError)];
        return;
      }
      joinListener := joinListener.Add();
      trace := trace + [ProviderJoin(GameSessionName, result)];
      if !accepts {
        joinListener := joinListener.Clear();
        trace := trace + [JoinComplete("", UnknownError)];
      }
    }

    method DestroySession(accepts: bool)
      requires Valid()
      modifies this`destroyListener, this`trace
      ensures Valid()
      ensures destroyListener == if interfaceValid then AfterRequest(old(destroyListener), accepts) else old(destroyListener)
      ensures trace == old(trace) + DestroyPlan(interfaceValid, accepts)
    {
      if !interfaceValid {
        trace := trace + [DestroyComplete(false)];
        return;
      }
      destroyListener := destroyListener.Add();
      trace := trace + [ProviderDestroy(GameSessionName)];
      if !accepts {
        destroyListener := destroyListener.Clear();
        trace := trace + [DestroyComplete(false)];
      }
    }

    /** `role` is the local player controller's `GetLocalRole()`. */
    method StartSession(role: NetRole, accepts: bool)
      requires Valid() && interfaceValid
      modifies this`startListener, this`trace
      ensures Valid()
      ensures var start := hasGameSession && role == Authority;
        && startListener == (if start then AfterRequest(old(startListener), accepts) else old(startListener))
        && trace == old(trace) + (if start then Issue(ProviderStart(GameSessionName), accepts) else [])
    {
      if hasGameSession {
        if role != Authority {
          return;
        }
        startListener := startListener.Add();
        trace := trace + [ProviderStart(GameSessionName)];
        if !accepts {
          startListener := startListener.Clear();
          trace := trace + [StartComplete(false)];
        }
      }
    }

    method OnCreateSessionComplete(success: bool)
      requires Valid()
      modifies this`createListener, this`trace
      ensures Valid()
      ensures createListener == if interfaceValid then old(createListener).Clear() else old(createListener)
      ensures trace == old(trace) + [CreateComplete(success)]
    {
      if interfaceValid {
        createListener := createListener.Clear();
      }
      trace := trace + [CreateComplete(success)];
    }

    /** Forwards every result the provider wrote into the last search, unfiltered. */
    method OnFindSessionsComplete(success: bool)
      requires Valid() && interfaceValid && lastSessionSearch.Some?
      modifies this`findListener, this`trace
      ensures Valid()
      ensures findListener == old(findListener).Clear()
      ensures trace == old(trace) + [FindComplete(lastSessionSearch.value.searchResults, success)]
    {
      findListener := findListener.Clear();
      trace := trace + [FindComplete(lastSessionSearch.value.searchResults, success)];
    }

    /** `resolved` is what `GetResolvedConnectString` writes into the address, if anything. */
    method OnJoinSessionComplete(code: JoinResult, resolved: Option<string>)
      requires Valid() && interfaceValid
      modifies this`joinListener, this`trace
      ensures Valid()
      ensures joinListener == old(joinListener).Clear()
      ensures trace == old(trace) + [JoinComplete(ResolvedAddress(resolved), code)]
    {
      joinListener := joinListener.Clear();
      trace := trace + [JoinComplete(ResolvedAddress(resolved), code)];
    }

    /** `accepts` is the provider's answer to the one request the re-entered `CreateSession` issues, if any. */
    method OnDestroySessionComplete(success: bool, accepts: bool)
      requires Valid() && interfaceValid
      modifies this`createOnDestroy, this`lastNumPublicConnections, this`lastMatchType
      modifies this`lastSessionSettings, this`createListener, this`destroyListener, this`trace
      ensures Valid()
      ensures trace == old(trace) + DestroyCompletePlan(success, old(createOnDestroy), hasGameSession, subsystemName,
                                                        lastNumPublicConnections, lastMatchType, accepts)
      ensures lastNumPublicConnections == old(lastNumPublicConnections) && lastMatchType == old(lastMatchType)
      ensures var retry := success && old(createOnDestroy);
        && createOnDestroy == (if retry then hasGameSession else old(createOnDestroy))
        && lastSessionSettings == (if retry && !hasGameSession
                                   then Some(MakeSessionSettings(subsystemName, lastNumPublicConnections, lastMatchType))
                                   else old(lastSessionSettings))
        && createListener == (if retry && !hasGameSession then AfterRequest(old(createListener), accepts) else old(createListener))
        && destroyListener == (if retry && hasGameSession then AfterRequest(old(destroyListener).Clear(), accepts)
                               else old(destroyListener).Clear())
    {
      destroyListener := destroyListener.Clear();
      trace := trace + [DestroyComplete(success)];
      if success && createOnDestroy {
        createOnDestroy := false;
        CreateSession(lastNumPublicConnections, lastMatchType, accepts);
      }
    }

    method OnStartSessionComplete(success: bool)
      requires Valid() && interfaceValid
      modifies this`startListener, this`trace
      ensures Valid()
      ensures startListener == old(startListener).Clear()
      ensures trace == old(trace) + [StartComplete(success)]
    {
      startListener := startListener.Clear();
      trace := trace + [StartComplete(success)];
    }
  }
}
