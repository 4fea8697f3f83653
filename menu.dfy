/**
 The main-menu widget `UMenu`: three buttons that are disabled when clicked
 and re-enabled only on failure paths, and the rule that picks the session
 to join among the search results. Its calls into the subsystem and its
 travel requests are logged rather than performed.
 */
module SessionMenu {
  import opened SessionTypes

  /** A call the menu makes into the subsystem, or a travel it requests from the engine. */
  datatype MenuCall =
    | CallCreateSession(numPublicConnections: int32, matchType: string)
    | CallFindSessions(maxSearchResults: int32)
    | CallJoinSession(result: SearchResult)
    | CallStartSession
    | ServerTravel(url: string)
    | ClientTravel(address: string)

  const DefaultNumPublicConnections: int32 := 4
  const DefaultMatchType: string := "FreeForAll"
  const DefaultPathToLobby: string := "/Game/Maps/Lobby"
  /** The search size the join button asks for. */
  const JoinSearchSize: int32 := 1000000000
  /** The level the host travels to once the session has started. */
  const GameLevel: string := "/Game/Maps/Level"

  /** The listen URL `MenuSetup` derives from the lobby path. */
  function ListenUrl(pathToLobby: string): (url: string)
    ensures |url| == |pathToLobby| + 7
    ensures url[..|pathToLobby|] == pathToLobby && url[|pathToLobby|..] == "?listen"
  {
    pathToLobby + "?listen"
  }

  /**
   Whether a search result advertises the given match type: the two
   `FString`s compare equal, which ignores case.
   */
  predicate Matches(result: SearchResult, matchType: string)
  {
    EqualsIgnoreCase(AdvertisedMatchType(result.settings), matchType)
  }

  /** The index of the first result that advertises `matchType`, if any. */
  function FirstMatch(results: seq<SearchResult>, matchType: string): (r: Option<nat>)
    ensures r.Some? ==>
      && r.value < |results|
      && Matches(results[r.value], matchType)
      && forall j :: 0 <= j < r.value ==> !Matches(results[j], matchType)
    ensures r.None? <==> forall j :: 0 <= j < |results| ==> !Matches(results[j], matchType)
    decreases |results|
  {
    if |results| == 0 then None
    else if Matches(results[0], matchType) then Some(0)
    else
      match FirstMatch(results[1..], matchType)
      case None =>
        assert forall j :: 1 <= j < |results| ==> results[j] == results[1..][j - 1];
        None
      case Some(k) =>
        assert forall j :: 1 <= j <= k ==> results[j] == results[1..][j - 1];
        Some(k + 1)
  }

  /**
   The session `OnFindSessions` joins: none after a failed search,
   otherwise the first result whose advertised match type is the menu's,
   ignoring case.
   */
  function JoinTarget(results: seq<SearchResult>, success: bool, matchType: string): (t: Option<SearchResult>)
    ensures t.Some? <==> success && exists i :: 0 <= i < |results| && Matches(results[i], matchType)
    ensures t.Some? ==> Matches(t.value, matchType)
    ensures t.Some? ==> exists i :: (0 <= i < |results| && results[i] == t.value &&
      forall j :: 0 <= j < i ==> !Matches(results[j], matchType))
  {
    if !success then None
    else match FirstMatch(results, matchType)
      case None => None
      case Some(i) => Some(results[i])
  }

  /**
   A session hosted with match type `matchType` and found after results
   that advertise other match types is the one a menu with the same match
   type joins.
   */
  lemma HostedSessionIsJoined(subsystemName: string, numPublicConnections: int32, matchType: string,
                              session: nat, earlier: seq<SearchResult>)
    requires forall j :: 0 <= j < |earlier| ==> WellKeyed(earlier[j].settings) && !Matches(earlier[j], matchType)
    ensures var hosted := SearchResult(session, MakeSessionSettings(subsystemName, numPublicConnections, matchType).settings);
      JoinTarget(earlier + [hosted], true, matchType) == Some(hosted)
  {
    var hosted := SearchResult(session, MakeSessionSettings(subsystemName, numPublicConnections, matchType).settings);
    var results := earlier + [hosted];
    assert results[|earlier|] == hosted;
    assert forall j :: 0 <= j < |earlier| ==> results[j] == earlier[j];
    assert Matches(results[|earlier|], matchType);
  }

  /** A menu never joins a session hosted with a match type that differs from its own other than in case. */
  lemma OtherMatchTypeIsNotJoined(subsystemName: string, numPublicConnections: int32, hostedType: string,
                                  matchType: string, session: nat)
    requires !EqualsIgnoreCase(hostedType, matchType)
    ensures JoinTarget([SearchResult(session, MakeSessionSettings(subsystemName, numPublicConnections, hostedType).settings)],
                       true, matchType) == None
  {
  }

  /** A menu joins a session hosted with its match type spelt in another case. */
  lemma CaseVariantIsJoined(subsystemName: string, numPublicConnections: int32, hostedType: string,
                            matchType: string, session: nat)
    requires EqualsIgnoreCase(hostedType, matchType)
    ensures var hosted := SearchResult(session, MakeSessionSettings(subsystemName, numPublicConnections, hostedType).settings);
      JoinTarget([hosted], true, matchType) == Some(hosted)
  {
    var hosted := SearchResult(session, MakeSessionSettings(subsystemName, numPublicConnections, hostedType).settings);
    assert Matches([hosted][0], matchType);
  }

  /** The default match type under other spellings of its case, and a name that is not one. */
  lemma DefaultMatchTypeIgnoresCase()
    ensures EqualsIgnoreCase("freeforall", DefaultMatchType) && EqualsIgnoreCase("FREEFORALL", DefaultMatchType)
    ensures !EqualsIgnoreCase("FreeForAl", DefaultMatchType)
  {
  }

  /** A result that advertises no match type at all is joined exactly by a menu whose match type is empty. */
  lemma UnlabelledResultMatchesOnlyEmpty(result: SearchResult, matchType: string)
    requires WellKeyed(result.settings) && MatchTypeEntry !in result.settings
    ensures JoinTarget([result], true, matchType).Some? <==> matchType == ""
  {
  }

  /** Results after the first match never change the choice. */
  lemma {:induction false} JoinTargetIgnoresLaterResults(results: seq<SearchResult>, later: seq<SearchResult>, matchType: string)
    requires JoinTarget(results, true, matchType).Some?
    ensures JoinTarget(results + later, true, matchType) == JoinTarget(results, true, matchType)
  {
    var all := results + later;
    assert forall j :: 0 <= j < |results| ==> all[j] == results[j];
  }

  class Menu {
    /** Whether `MenuSetup` has fetched the subsystem. */
    var subsystemBound: bool
    var numPublicConnections: int32
    var matchType: string
    var lobbyMap: string
    var hostEnabled: bool
    var joinEnabled: bool
    var startEnabled: bool
    /** Calls into the subsystem and travel requests, in order. */
    var calls: seq<MenuCall>

    /** The field initialisers of the widget; buttons start enabled. */
    constructor ()
      ensures !subsystemBound
      ensures numPublicConnections == DefaultNumPublicConnections && matchType == DefaultMatchType && lobbyMap == ""
      ensures hostEnabled && joinEnabled && startEnabled
      ensures calls == []
    {
      subsystemBound := false;
      numPublicConnections := DefaultNumPublicConnections;
      matchType := DefaultMatchType;
      lobbyMap := "";
      hostEnabled, joinEnabled, startEnabled := true, true, true;
      calls := [];
    }

    method MenuSetup(numberOfPublicConnections: int32 := DefaultNumPublicConnections,
                     typeOfMatch: string := DefaultMatchType,
                     pathToLobby: string := DefaultPathToLobby)
      modifies this`subsystemBound, this`numPublicConnections, this`matchType, this`lobbyMap
      ensures subsystemBound
      ensures numPublicConnections == numberOfPublicConnections && matchType == typeOfMatch
      ensures lobbyMap == ListenUrl(pathToLobby)
    {
      numPublicConnections := numberOfPublicConnections;
      matchType := typeOfMatch;
      lobbyMap := ListenUrl(pathToLobby);
      subsystemBound := true;
    }

    method ButtonHostClicked()
      modifies this`hostEnabled, this`calls
      ensures hostEnabled == (old(hostEnabled) && !subsystemBound)
      ensures calls == old(calls) + if subsystemBound then [CallCreateSession(numPublicConnections, matchType)] else []
    {
      if !subsystemBound {
        return;
      }
      hostEnabled := false;
      calls := calls + [CallCreateSession(numPublicConnections, matchType)];
    }

    method ButtonJoinClicked()
      modifies this`joinEnabled, this`calls
      ensures joinEnabled == (old(joinEnabled) && !subsystemBound)
      ensures calls == old(calls) + if subsystemBound then [CallFindSessions(JoinSearchSize)] else []
    {
      if !subsystemBound {
        return;
      }
      joinEnabled := false;
      calls := calls + [CallFindSessions(JoinSearchSize)];
    }

    method ButtonStartClicked()
      modifies this`startEnabled, this`calls
      ensures startEnabled == (old(startEnabled) && !subsystemBound)
      ensures calls == old(calls) + if subsystemBound then [CallStartSession] else []
    {
      if !subsystemBound {
        return;
      }
      startEnabled := false;
      calls := calls + [CallStartSession];
    }

    method OnCreateSession(success: bool)
      modifies this`hostEnabled, this`calls
      ensures hostEnabled == (old(hostEnabled) || !success)
      ensures calls == old(calls) + if success then [ServerTravel(lobbyMap)] else []
    {
      if success {
        calls := calls + [ServerTravel(lobbyMap)];
      } else {
        hostEnabled := true;
      }
    }

    /** Joins the first result advertising the menu's match type, ignoring case; re-enables the join button otherwise. */
    method OnFindSessions(results: seq<SearchResult>, success: bool)
      requires subsystemBound
      modifies this`joinEnabled, this`calls
      ensures var target := JoinTarget(results, success, matchType);
        && joinEnabled == (target.Some? ==> old(joinEnabled))
        && calls == old(calls) + if target.Some? then [CallJoinSession(target.value)] else []
    {
      if success {
        if |results| == 0 {
          joinEnabled := true;
          return;
        }
        var i := 0;
        while i < |results|
          invariant 0 <= i <= |results|
          invariant forall j :: 0 <= j < i ==> !Matches(results[j], matchType)
          invariant joinEnabled == old(joinEnabled) && calls == old(calls)
        {
          if Matches(results[i], matchType) {
            calls := calls + [CallJoinSession(results[i])];
            return;
          }
          i := i + 1;
        }
      }
      joinEnabled := true;
    }

    /** `Success` requires a non-empty address; any other code re-enables the join button. */
    method OnJoinSession(address: string, code: JoinResult)
      requires code == Success ==> address != ""
      modifies this`joinEnabled, this`calls
      ensures joinEnabled == (old(joinEnabled) || code != Success)
      ensures calls == old(calls) + if code == Success then [ClientTravel(address)] else []
    {
      if code == Success {
        calls := calls + [ClientTravel(address)];
      } else {
        joinEnabled := true;
      }
    }

    method OnStartSession(success: bool)
      modifies this`startEnabled, this`calls
      ensures startEnabled == (old(startEnabled) || !success)
      ensures calls == old(calls) + if success then [ServerTravel(GameLevel)] else []
    {
      if success {
        calls := calls + [ServerTravel(GameLevel)];
      } else {
        startEnabled := true;
      }
    }
  }
}
