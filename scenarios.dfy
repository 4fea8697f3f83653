/**
 End-to-end runs of the subsystem, and of the menu reacting to its
 broadcasts, against a provider that behaves as each run describes. Each
 method builds fresh objects, plays the provider's part, and states the
 complete log that results.
 */
module SessionScenarios {
  import opened SessionTypes
  import opened SessionsSubsystem
  import opened SessionMenu

  /**
   Hosting with no session present: one provider create and, once the
   provider completes, one create broadcast carrying its outcome; nothing
   else is requested and the create listener is gone again.
   */
  method HostWithoutSession(subsystemName: string, numPublicConnections: int32, matchType: string, created: bool)
    returns (trace: seq<Event>, listenerIdle: bool)
    ensures trace == [ProviderCreate(GameSessionName, MakeSessionSettings(subsystemName, numPublicConnections, matchType)),
                      CreateComplete(created)]
    ensures listenerIdle
  {
    var sub := new Subsystem(true, subsystemName, false);
    sub.CreateSession(numPublicConnections, matchType, true);
    sub.SetGameSession(created);
    sub.OnCreateSessionComplete(created);
    trace, listenerIdle := sub.trace, sub.createListener.Idle();
  }

  /**
   Hosting while a session exists: a failed create broadcast at once, then
   a destroy; the successful destroy re-issues the create with the same
   arguments, whose completion is broadcast; the pending flag is cleared.
   */
  method HostWhileInSession(subsystemName: string, numPublicConnections: int32, matchType: string, created: bool)
    returns (trace: seq<Event>, pending: bool)
    ensures trace == [CreateComplete(false), ProviderDestroy(GameSessionName), DestroyComplete(true),
                      ProviderCreate(GameSessionName, MakeSessionSettings(subsystemName, numPublicConnections, matchType)),
                      CreateComplete(created)]
    ensures !pending
  {
    var sub := new Subsystem(true, subsystemName, true);
    sub.CreateSession(numPublicConnections, matchType, true);
    assert sub.trace == [CreateComplete(false), ProviderDestroy(GameSessionName)];
    assert sub.createOnDestroy && sub.lastNumPublicConnections == numPublicConnections && sub.lastMatchType == matchType;
    sub.SetGameSession(false);
    sub.OnDestroySessionComplete(true, true);
    assert !sub.createOnDestroy;
    ghost var create := ProviderCreate(GameSessionName, MakeSessionSettings(subsystemName, numPublicConnections, matchType));
    assert sub.trace == [CreateComplete(false), ProviderDestroy(GameSessionName), DestroyComplete(true), create];
    sub.SetGameSession(created);
    sub.OnCreateSessionComplete(created);
    trace, pending := sub.trace, sub.createOnDestroy;
  }

  /** A failed destroy leaves the create pending and issues nothing more. */
  method HostWhileInSessionDestroyFails(subsystemName: string, numPublicConnections: int32, matchType: string)
    returns (trace: seq<Event>, pending: bool)
    ensures trace == [CreateComplete(false), ProviderDestroy(GameSessionName), DestroyComplete(false)]
    ensures pending
  {
    var sub := new Subsystem(true, subsystemName, true);
    sub.CreateSession(numPublicConnections, matchType, true);
    sub.OnDestroySessionComplete(false, true);
    trace, pending := sub.trace, sub.createOnDestroy;
  }

  /**
   Joining from the menu when the search succeeds with no results: the
   empty result set is broadcast as a success, no join is attempted and the
   join button is enabled again.
   */
  method JoinFindsNothing(subsystemName: string)
    returns (trace: seq<Event>, calls: seq<MenuCall>, joinEnabled: bool)
    ensures trace == [ProviderFind(MakeSessionSearch(subsystemName, JoinSearchSize)), FindComplete([], true)]
    ensures calls == [CallFindSessions(JoinSearchSize)]
    ensures joinEnabled
  {
    var sub := new Subsystem(true, subsystemName, false);
    var menu := new Menu();
    menu.MenuSetup();
    menu.ButtonJoinClicked();
    sub.FindSessions(JoinSearchSize, true);
    sub.DeliverSearchResults([]);
    sub.OnFindSessionsComplete(true);
    menu.OnFindSessions(sub.lastSessionSearch.value.searchResults, true);
    trace, calls, joinEnabled := sub.trace, menu.calls, menu.joinEnabled;
  }

  /**
   A host creates the game session with `matchType`; the result a search
   finds for it carries exactly the settings the host built.
   */
  method HostedResult(subsystemName: string, matchType: string, session: nat) returns (hosted: SearchResult)
    ensures hosted == SearchResult(session, MakeSessionSettings(subsystemName, DefaultNumPublicConnections, matchType).settings)
  {
    var host := new Subsystem(true, subsystemName, false);
    host.CreateSession(DefaultNumPublicConnections, matchType, true);
    hosted := SearchResult(session, host.lastSessionSettings.value.settings);
  }

  /**
   A menu set up to search for `matchType` clicks Join and is handed the
   search's `results`: it asks for the search, then joins the session
   `JoinTarget` selects, if any, keeping its join button disabled exactly when
   it does.
   */
  method MenuJoin(matchType: string, results: seq<SearchResult>)
    returns (calls: seq<MenuCall>, joinEnabled: bool)
    ensures var target := JoinTarget(results, true, matchType);
      && calls == [CallFindSessions(JoinSearchSize)] + (if target.Some? then [CallJoinSession(target.value)] else [])
      && joinEnabled == target.None?
  {
    var menu := new Menu();
    menu.MenuSetup(DefaultNumPublicConnections, matchType);
    menu.ButtonJoinClicked();
    assert menu.matchType == matchType && menu.calls == [CallFindSessions(JoinSearchSize)] && !menu.joinEnabled;
    menu.OnFindSessions(results, true);
    calls, joinEnabled := menu.calls, menu.joinEnabled;
  }

  /**
   The selection `JoinHostedSession` relies on: after a result of another
   match type, the host's result is the one joined, and both are well keyed.
   */
  lemma OtherThenHostedIsJoined(subsystemName: string, matchType: string, otherType: string)
    requires !EqualsIgnoreCase(otherType, matchType)
    ensures var other := SearchResult(0, MakeSessionSettings(subsystemName, DefaultNumPublicConnections, otherType).settings);
      var hosted := SearchResult(1, MakeSessionSettings(subsystemName, DefaultNumPublicConnections, matchType).settings);
      && WellKeyed(other.settings) && WellKeyed(hosted.settings)
      && JoinTarget([other, hosted], true, matchType) == Some(hosted)
  {
    var other := SearchResult(0, MakeSessionSettings(subsystemName, DefaultNumPublicConnections, otherType).settings);
    var hosted := SearchResult(1, MakeSessionSettings(subsystemName, DefaultNumPublicConnections, matchType).settings);
    MadeSettingsAreWellKeyed(subsystemName, DefaultNumPublicConnections, otherType);
    MadeSettingsAreWellKeyed(subsystemName, DefaultNumPublicConnections, matchType);
    HostedSessionIsJoined(subsystemName, DefaultNumPublicConnections, matchType, 1, [other]);
    assert [other] + [hosted] == [other, hosted];
  }

  /**
   A menu searching for the match type a host advertised joins the host's
   session, skipping an earlier result of another match type, and keeps
   its join button disabled.
   */
  method JoinHostedSession(subsystemName: string, matchType: string, otherType: string)
    returns (calls: seq<MenuCall>, joinEnabled: bool)
    requires !EqualsIgnoreCase(otherType, matchType)
    ensures calls == [CallFindSessions(JoinSearchSize),
                      CallJoinSession(SearchResult(1, MakeSessionSettings(subsystemName, DefaultNumPublicConnections, matchType).settings))]
    ensures !joinEnabled
  {
    OtherThenHostedIsJoined(subsystemName, matchType, otherType);
    var other := SearchResult(0, MakeSessionSettings(subsystemName, DefaultNumPublicConnections, otherType).settings);
    var hosted := HostedResult(subsystemName, matchType, 1);
    assert JoinTarget([other, hosted], true, matchType) == Some(hosted);
    calls, joinEnabled := MenuJoin(matchType, [other, hosted]);
  }

  /**
   A menu joins a session hosted with its match type spelt in another case
   (for the default, "freeforall" or "FREEFORALL"): match types compare
   ignoring case.
   */
  method JoinCaseVariant(subsystemName: string, hostedType: string, matchType: string)
    returns (calls: seq<MenuCall>, joinEnabled: bool)
    requires EqualsIgnoreCase(hostedType, matchType)
    ensures calls == [CallFindSessions(JoinSearchSize),
                      CallJoinSession(SearchResult(0, MakeSessionSettings(subsystemName, DefaultNumPublicConnections, hostedType).settings))]
    ensures !joinEnabled
  {
    var hosted := HostedResult(subsystemName, hostedType, 0);
    MadeSettingsAreWellKeyed(subsystemName, DefaultNumPublicConnections, hostedType);
    CaseVariantIsJoined(subsystemName, DefaultNumPublicConnections, hostedType, matchType, 0);
    calls, joinEnabled := MenuJoin(matchType, [hosted]);
  }

  /**
   Host clicked while a session exists: the subsystem broadcasts a failed
   create at once, so the menu enables Host again while the destroy is still
   pending. A second click issues a second destroy whose listener overwrites
   the first one's handle, so two destroy listeners are registered and the
   handle refers only to the second (`OverlappingRequestsLeak` follows the
   completion).
   */
  method HostClickedAgainWhileDestroying(subsystemName: string)
    returns (trace: seq<Event>, calls: seq<MenuCall>, hostEnabledWhileDestroying: bool, destroyListener: Registration)
    ensures hostEnabledWhileDestroying
    ensures calls == [CallCreateSession(DefaultNumPublicConnections, DefaultMatchType),
                      CallCreateSession(DefaultNumPublicConnections, DefaultMatchType)]
    ensures trace == [CreateComplete(false), ProviderDestroy(GameSessionName),
                      CreateComplete(false), ProviderDestroy(GameSessionName)]
    ensures destroyListener == Registration(2, true)
  {
    var sub := new Subsystem(true, subsystemName, true);
    var menu := new Menu();
    menu.MenuSetup();
    var create := CallCreateSession(DefaultNumPublicConnections, DefaultMatchType);

    menu.ButtonHostClicked();
    assert menu.calls == [create];
    sub.CreateSession(menu.numPublicConnections, menu.matchType, true);
    assert sub.trace == [CreateComplete(false), ProviderDestroy(GameSessionName)];
    assert sub.destroyListener == Registration(1, true) && sub.interfaceValid && sub.hasGameSession;
    menu.OnCreateSession(false);
    hostEnabledWhileDestroying := menu.hostEnabled;
    assert hostEnabledWhileDestroying && menu.calls == [create];

    menu.ButtonHostClicked();
    assert menu.calls == [create, create];
    sub.CreateSession(menu.numPublicConnections, menu.matchType, true);
    assert sub.trace == [CreateComplete(false), ProviderDestroy(GameSessionName),
                         CreateComplete(false), ProviderDestroy(GameSessionName)];
    assert sub.destroyListener == Registration(2, true);
    menu.OnCreateSession(false);
    trace, calls, destroyListener := sub.trace, menu.calls, sub.destroyListener;
  }

  /**
   Joining a session whose connect string the provider cannot resolve: the
   provider's code is broadcast unchanged with an empty address, and the
   menu enables its join button again.
   */
  method JoinUnresolvedAddress(result: SearchResult)
    returns (trace: seq<Event>, joinEnabled: bool)
    ensures trace == [ProviderJoin(GameSessionName, result), JoinComplete("", CouldNotRetrieveAddress)]
    ensures joinEnabled
  {
    var sub := new Subsystem(true, NullSubsystemName, false);
    var menu := new Menu();
    menu.MenuSetup();
    menu.ButtonJoinClicked();
    sub.JoinSession(result, true);
    sub.OnJoinSessionComplete(CouldNotRetrieveAddress, None);
    var broadcast := sub.trace[|sub.trace| - 1];
    assert broadcast == JoinComplete("", CouldNotRetrieveAddress);
    menu.OnJoinSession(broadcast.address, broadcast.code);
    trace, joinEnabled := sub.trace, menu.joinEnabled;
  }

  /** Starting with no session makes no provider call and broadcasts nothing, whatever the role. */
  method StartWithoutSession(subsystemName: string, role: NetRole, accepts: bool)
    returns (trace: seq<Event>, listenerIdle: bool)
    ensures trace == []
    ensures listenerIdle
  {
    var sub := new Subsystem(true, subsystemName, false);
    sub.StartSession(role, accepts);
    trace, listenerIdle := sub.trace, sub.startListener.Idle();
  }

  /** A client that is not the authority cannot start the session it is in. */
  method StartWithoutAuthority(subsystemName: string, role: NetRole, accepts: bool)
    returns (trace: seq<Event>)
    requires role != Authority
    ensures trace == []
  {
    var sub := new Subsystem(true, subsystemName, true);
    sub.StartSession(role, accepts);
    trace := sub.trace;
  }
}
