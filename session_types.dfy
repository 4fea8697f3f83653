/**
 Values shared by the session subsystem and the menu: the settings and
 search objects handed to the online session provider, the search results
 it returns, the log of provider requests and broadcasts, and the
 per-operation completion-listener registrations.
 */
module SessionTypes {

  datatype Option<+T> = None | Some(value: T)

  /** The engine's `int32`. */
  newtype int32 = x: int | -0x8000_0000 <= x < 0x8000_0000

  /** `NAME_GameSession`, the one session name the subsystem uses. */
  const GameSessionName: string := "GameSession"
  /** `MatchTypeKey`, the settings key under which the match type is advertised. */
  const MatchTypeKey: string := "MatchType"
  /** The name the offline (LAN) online subsystem reports. */
  const NullSubsystemName: string := "NULL"

  /** `EOnJoinSessionCompleteResult::Type`, passed through unchanged. */
  datatype JoinResult =
    | Success
    | SessionIsFull
    | SessionDoesNotExist
    | CouldNotRetrieveAddress
    | AlreadyInSession
    | UnknownError

  /** `ENetRole` of the local player controller. */
  datatype NetRole = RoleNone | SimulatedProxy | AutonomousProxy | Authority

  /** `EOnlineDataAdvertisementType`. */
  datatype Advertisement = DontAdvertise | ViaPingOnly | ViaOnlineService | ViaOnlineServiceAndPing

  /** One key/value entry of a session's settings. */
  datatype SettingValue = SettingValue(data: string, advertisement: Advertisement)

  /**
   Whether a settings map is keyed as the engine keys it: settings are keyed
   by `FName`, which compares ignoring case, so every key is stored folded to
   lower case (`SettingKey`) and two names that differ only in case are one
   key.
   */
  predicate WellKeyed(m: map<string, SettingValue>)
  {
    forall k | k in m :: Lower(k) == k
  }

  /** `FOnlineSessionSettings`, restricted to what the subsystem sets. */
  datatype SessionSettings = SessionSettings(
    isLanMatch: bool,
    numPublicConnections: int32,
    allowJoinInProgress: bool,
    allowJoinViaPresence: bool,
    shouldAdvertise: bool,
    usesPresence: bool,
    useLobbiesIfAvailable: bool,
    settings: map<string, SettingValue>)

  /** A search result: an opaque session identity and the settings it advertises. */
  datatype SearchResult = SearchResult(session: nat, settings: map<string, SettingValue>)

  /**
   `FOnlineSessionSearch`: the query (`searchPresence` is the
   `SEARCH_PRESENCE == true` query setting) and the results the provider
   writes into it.
   */
  datatype SessionSearch = SessionSearch(
    maxSearchResults: int32,
    isLanQuery: bool,
    searchPresence: bool,
    searchResults: seq<SearchResult>)

  /** ASCII lower-casing of one character, the folding the engine's case-insensitive comparisons apply. */
  function ToLowerAscii(c: char): char
  {
    if 'A' <= c <= 'Z' then (c as int + 32) as char else c
  }

  /** `s` with every ASCII letter lower-cased. */
  function Lower(s: string): (r: string)
    ensures |r| == |s|
    decreases |s|
  {
    if s == [] then [] else [ToLowerAscii(s[0])] + Lower(s[1..])
  }

  /** `Lower` lower-cases each character in place. */
  lemma {:induction false} LowerCharacters(s: string)
    ensures forall i :: 0 <= i < |s| ==> Lower(s)[i] == ToLowerAscii(s[i])
    decreases |s|
  {
    if s != [] {
      LowerCharacters(s[1..]);
      assert forall i :: 1 <= i < |s| ==> Lower(s)[i] == Lower(s[1..])[i - 1];
    }
  }

  /**
   `==` on `FString` and on `FName`: the same length, and the same
   characters once ASCII letters are lower-cased.
   */
  predicate EqualsIgnoreCase(a: string, b: string)
  {
    |a| == |b| && forall i :: 0 <= i < |a| ==> ToLowerAscii(a[i]) == ToLowerAscii(b[i])
  }

  /** Two strings are equal ignoring case exactly when their lower-cased forms are equal. */
  lemma EqualsIgnoreCaseByLower(a: string, b: string)
    ensures EqualsIgnoreCase(a, b) <==> Lower(a) == Lower(b)
  {
    LowerCharacters(a);
    LowerCharacters(b);
    if EqualsIgnoreCase(a, b) {
      assert forall i :: 0 <= i < |a| ==> Lower(a)[i] == Lower(b)[i];
    }
    if Lower(a) == Lower(b) {
      assert forall i :: 0 <= i < |a| ==> Lower(a)[i] == Lower(b)[i];
    }
  }

  /** Ignoring case is an equivalence: reflexive, symmetric and transitive. */
  lemma EqualsIgnoreCaseIsEquivalence(a: string, b: string, c: string)
    ensures EqualsIgnoreCase(a, a)
    ensures EqualsIgnoreCase(a, b) ==> EqualsIgnoreCase(b, a)
    ensures EqualsIgnoreCase(a, b) && EqualsIgnoreCase(b, c) ==> EqualsIgnoreCase(a, c)
  {
  }

  /**
   `ShouldBeLanMatch`: LAN semantics exactly for the offline subsystem, whose
   name is compared as an `FName`, ignoring case.
   */
  function ShouldBeLanMatch(subsystemName: string): (lan: bool)
    ensures lan <==> Lower(subsystemName) == "null"
  {
    EqualsIgnoreCaseByLower(subsystemName, NullSubsystemName);
    assert Lower(NullSubsystemName) == "null";
    EqualsIgnoreCase(subsystemName, NullSubsystemName)
  }

  /** The offline subsystem's name is recognised whatever its case; other names, and "NULL" cut short, are not. */
  lemma LanMatchIgnoresCase()
    ensures ShouldBeLanMatch("NULL") && ShouldBeLanMatch("Null") && ShouldBeLanMatch("null")
    ensures !ShouldBeLanMatch("Steam") && !ShouldBeLanMatch("NUL") && !ShouldBeLanMatch("")
  {
  }

  /** The key a settings entry named `name` is stored under. */
  function SettingKey(name: string): string
  {
    Lower(name)
  }

  /** A stored key is already folded, so an entry stored under it keeps the settings well keyed. */
  lemma SettingKeyIsFolded(name: string, value: SettingValue)
    ensures Lower(SettingKey(name)) == SettingKey(name)
    ensures WellKeyed(map[SettingKey(name) := value])
  {
    LowerCharacters(name);
    LowerCharacters(Lower(name));
    assert forall i :: 0 <= i < |name| ==> Lower(Lower(name))[i] == Lower(name)[i];
  }

  /** The key the match type is stored under. */
  const MatchTypeEntry: string := "matchtype"

  /** `MatchTypeEntry` is the key `MatchTypeKey` denotes. */
  lemma MatchTypeEntryIsKey()
    ensures SettingKey(MatchTypeKey) == MatchTypeEntry
  {
  }

  /**
   The match type a settings map advertises, read the way the menu reads it:
   an `FString` left empty when the key is absent.
   */
  function AdvertisedMatchType(settings: map<string, SettingValue>): string
  {
    if MatchTypeEntry in settings then settings[MatchTypeEntry].data else ""
  }

  /** A match type stored under any case variant of the key is read back. */
  lemma AdvertisedMatchTypeIgnoresKeyCase(name: string, settings: map<string, SettingValue>)
    requires WellKeyed(settings)
    requires EqualsIgnoreCase(name, MatchTypeKey) && SettingKey(name) in settings
    ensures AdvertisedMatchType(settings) == settings[SettingKey(name)].data
  {
    EqualsIgnoreCaseByLower(name, MatchTypeKey);
    MatchTypeEntryIsKey();
  }

  /** The settings `CreateSession` builds afresh for every provider create. */
  function MakeSessionSettings(subsystemName: string, numPublicConnections: int32, matchType: string): (s: SessionSettings)
    ensures s.isLanMatch == ShouldBeLanMatch(subsystemName)
    ensures s.numPublicConnections == numPublicConnections
    ensures s.allowJoinInProgress && s.allowJoinViaPresence && s.shouldAdvertise
    ensures s.usesPresence && s.useLobbiesIfAvailable
    ensures s.settings.Keys == {MatchTypeEntry}
    ensures AdvertisedMatchType(s.settings) == matchType
    ensures s.settings[MatchTypeEntry].advertisement == ViaOnlineServiceAndPing
  {
    SessionSettings(
      isLanMatch := ShouldBeLanMatch(subsystemName),
      numPublicConnections := numPublicConnections,
      allowJoinInProgress := true,
      allowJoinViaPresence := true,
      shouldAdvertise := true,
      usesPresence := true,
      useLobbiesIfAvailable := true,
      settings := map[MatchTypeEntry := SettingValue(matchType, ViaOnlineServiceAndPing)])
  }

  /** The settings a host builds are keyed as the engine keys them. */
  lemma MadeSettingsAreWellKeyed(subsystemName: string, numPublicConnections: int32, matchType: string)
    ensures WellKeyed(MakeSessionSettings(subsystemName, numPublicConnections, matchType).settings)
  {
    MatchTypeEntryIsKey();
    SettingKeyIsFolded(MatchTypeKey, SettingValue(matchType, ViaOnlineServiceAndPing));
  }

  /** The search `FindSessions` builds afresh for every provider find; it holds no results yet. */
  function MakeSessionSearch(subsystemName: string, maxSearchResults: int32): (q: SessionSearch)
    ensures q.maxSearchResults == maxSearchResults
    ensures q.isLanQuery == ShouldBeLanMatch(subsystemName)
    ensures q.searchPresence && q.searchResults == []
  {
    SessionSearch(maxSearchResults, ShouldBeLanMatch(subsystemName), true, [])
  }

  /** The five operation kinds, each with its own listener and broadcast channel. */
  datatype OpKind = CreateOp | FindOp | JoinOp | DestroyOp | StartOp

  /**
   One entry of the subsystem's log: either a request issued to the provider
   or a broadcast on one of the five `MultiplayerOn...Complete` channels.
   */
  datatype Event =
    | ProviderCreate(sessionName: string, settings: SessionSettings)
    | ProviderFind(search: SessionSearch)
    | ProviderJoin(joinName: string, result: SearchResult)
    | ProviderDestroy(destroyName: string)
    | ProviderStart(startName: string)
    | CreateComplete(success: bool)
    | FindComplete(results: seq<SearchResult>, found: bool)
    | JoinComplete(address: string, code: JoinResult)
    | DestroyComplete(destroyed: bool)
    | StartComplete(started: bool)
  {
    predicate IsRequest() {
      ProviderCreate? || ProviderFind? || ProviderJoin? || ProviderDestroy? || ProviderStart?
    }

    function Kind(): OpKind {
      match this
      case ProviderCreate(_, _) => CreateOp
      case CreateComplete(_) => CreateOp
      case ProviderFind(_) => FindOp
      case FindComplete(_, _) => FindOp
      case ProviderJoin(_, _) => JoinOp
      case JoinComplete(_, _) => JoinOp
      case ProviderDestroy(_) => DestroyOp
      case DestroyComplete(_) => DestroyOp
      case ProviderStart(_) => StartOp
      case StartComplete(_) => StartOp
    }
  }

  /** The provider requests of a log, in order. */
  function Requests(t: seq<Event>): (r: seq<Event>)
    ensures |r| <= |t|
    decreases |t|
  {
    if t == [] then []
    else (if t[0].IsRequest() then [t[0]] else []) + Requests(t[1..])
  }

  /** The broadcasts of a log, in order. */
  function Broadcasts(t: seq<Event>): (r: seq<Event>)
    ensures |r| <= |t|
    decreases |t|
  {
    if t == [] then []
    else (if t[0].IsRequest() then [] else [t[0]]) + Broadcasts(t[1..])
  }

  /** The requests of a concatenated log are those of its parts, in order. */
  lemma {:induction false} RequestsAppend(a: seq<Event>, b: seq<Event>)
    ensures Requests(a + b) == Requests(a) + Requests(b)
    decreases |a|
  {
    if a == [] {
      assert a + b == b;
    } else {
      var ab := a + b;
      assert ab[0] == a[0] && ab[1..] == a[1..] + b;
      RequestsAppend(a[1..], b);
      var head := if a[0].IsRequest() then [a[0]] else [];
      assert Requests(a) == head + Requests(a[1..]);
      assert Requests(ab) == head + (Requests(a[1..]) + Requests(b));
    }
  }

  /** The broadcasts of a concatenated log are those of its parts, in order. */
  lemma {:induction false} BroadcastsAppend(a: seq<Event>, b: seq<Event>)
    ensures Broadcasts(a + b) == Broadcasts(a) + Broadcasts(b)
    decreases |a|
  {
    if a == [] {
      assert a + b == b;
    } else {
      var ab := a + b;
      assert ab[0] == a[0] && ab[1..] == a[1..] + b;
      BroadcastsAppend(a[1..], b);
      var head := if a[0].IsRequest() then [] else [a[0]];
      assert Broadcasts(a) == head + Broadcasts(a[1..]);
      assert Broadcasts(ab) == head + (Broadcasts(a[1..]) + Broadcasts(b));
    }
  }

  /**
   The normalised failure each channel broadcasts when the provider refuses
   a request synchronously: `(false)`, `(empty, false)`, `("", UnknownError)`,
   `(false)`, `(false)`.
   */
  function Rejection(k: OpKind): (e: Event)
    ensures !e.IsRequest() && e.Kind() == k
  {
    match k
    case CreateOp => CreateComplete(false)
    case FindOp => FindComplete([], false)
    case JoinOp => JoinComplete("", UnknownError)
    case DestroyOp => DestroyComplete(false)
    case StartOp => StartComplete(false)
  }

  /**
   What issuing one provider request logs: the request, then, if the
   provider refused it synchronously, the normalised failure of its channel.
   */
  function Issue(request: Event, accepts: bool): (r: seq<Event>)
    requires request.IsRequest()
    ensures |r| >= 1 && r[0] == request
    ensures Requests(r) == [request]
    ensures Broadcasts(r) == if accepts then [] else [Rejection(request.Kind())]
  {
    if accepts then [request] else [request, Rejection(request.Kind())]
  }

  /**
   The completion listener of one operation kind: `live` counts the
   subsystem's listeners in the provider's delegate list, `handleSet` says
   whether the stored `FDelegateHandle` refers to one of them.
   */
  datatype Registration = Registration(live: nat, handleSet: bool) {
    /** A stored handle always refers to a listener that is still registered. */
    predicate Valid() { handleSet ==> live > 0 }

    /** No listener registered and no handle held. */
    predicate Idle() { live == 0 && !handleSet }

    /** Exactly one listener registered, and the handle refers to it. */
    predicate Awaiting() { live == 1 && handleSet }

    /** A listener is registered but no handle is left to remove it. */
    predicate Leaked() { live > 0 && !handleSet }

    /** `AddOn...Complete_Handle`: registers a listener and stores its handle. */
    function Add(): (r: Registration)
      ensures r.Valid() && r.handleSet && r.live == live + 1
    {
      Registration(live + 1, true)
    }

    /** `ClearOn...Complete_Handle`: removes the listener the handle refers to, if any, and resets the handle. */
    function Clear(): (r: Registration)
      requires Valid()
      ensures r.Valid() && !r.handleSet
      ensures r.live == if handleSet then live - 1 else live
    {
      if handleSet then Registration(live - 1, false) else this
    }
  }

  const NoRegistration: Registration := Registration(0, false)

  /**
   The registration after a request: a listener is added, and removed again
   if the provider refused the request synchronously.
   */
  function AfterRequest(reg: Registration, accepts: bool): (r: Registration)
    requires reg.Valid()
    ensures r.Valid()
    ensures r.handleSet == accepts
    ensures r.live == reg.live + (if accepts then 1 else 0)
  {
    if accepts then reg.Add() else reg.Add().Clear()
  }

  /**
   The per-kind state machine: from `Idle`, an accepted request awaits its
   completion and the completion returns to `Idle`; a refused request
   returns to `Idle` at once.
   */
  lemma RequestLifecycle(reg: Registration)
    requires reg.Idle()
    ensures AfterRequest(reg, false).Idle()
    ensures AfterRequest(reg, true).Awaiting()
    ensures AfterRequest(reg, true).Clear().Idle()
  {
  }

  /**
   Nothing guards against a second request of a kind while one is awaiting:
   the first listener's handle is overwritten, the completion clears only the
   second listener, and the first stays registered with no handle that could
   ever remove it.
   */
  lemma OverlappingRequestsLeak(reg: Registration, secondAccepts: bool)
    requires reg.Awaiting()
    ensures AfterRequest(reg, secondAccepts).live == (if secondAccepts then 2 else 1)
    ensures var r := AfterRequest(reg, secondAccepts).Clear();
      r.Leaked() && r.live == 1 && r.Clear() == r
  {
  }
}
