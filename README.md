# MultiplayerSessions: session lifecycle and menu reactions

This project models the `MultiplayerSessions` plugin of an Unreal Engine 5
multiplayer game in Dafny, and proves properties of the model.

The core is `UMultiplayerSessionsSubsystem`. It issues create, find, join,
destroy and start requests to the engine's online session interface (the
*provider*). For each request it registers a completion listener. It turns
the provider's answers into broadcasts on five `MultiplayerOn...Complete`
channels. Its one piece of policy is destroy-then-recreate: a create
request while a game session exists broadcasts a failed create, stashes the
arguments and destroys the session. The successful destroy then re-issues
the create with the stashed arguments.

On top of it sits the `UMenu` widget. It has three buttons (Host, Join,
Start). Each button is disabled when clicked and enabled again only on a
failure path. After a search, the menu joins the first result whose
`MatchType` setting equals its own match type, ignoring case.

## Files

- `session_types.dfy` (module `SessionTypes`) holds the values:
  - session settings, the search object and search results;
  - the join result codes and the network roles;
  - case-insensitive string comparison (`EqualsIgnoreCase`, `Lower`), which
    `FString` and `FName` equality use, and the settings key `MatchTypeEntry`;
  - the `Event` log of provider requests and broadcasts, `Issue` and `Rejection`;
  - `Registration`, one per operation kind: how many of the subsystem's
    listeners are in the provider's delegate list, and whether the stored
    `FDelegateHandle` refers to one of them.
- `subsystem.dfy` (module `SessionsSubsystem`) holds the class `Subsystem`.
  It has the source's fields and one method per request and per completion
  handler. Each method's `ensures` gives every field it changes. It also
  states the log the call appends, as a plan function (`CreatePlan`,
  `DestroyPlan`, `DestroyCompletePlan`) or as `Issue`. The lemmas about the
  plans state the lifecycle properties.
- `menu.dfy` (module `SessionMenu`) holds the class `Menu` and the
  selection rule. The rule is `FirstMatch`, a recursive specification of the
  loop in `OnFindSessions`, and `JoinTarget`. Lemmas relate the settings a
  host advertises to what a joining menu picks.
- `scenarios.dfy` (module `SessionScenarios`) holds whole runs. Each one
  builds fresh subsystems and menus, plays the provider's part, and states
  the complete resulting log.

### The provider and the environment

- The provider is abstract. Its state is:
  - `interfaceValid` (`SessionInterface.IsValid()`);
  - `subsystemName` (what `GetSubsystemName()` returns);
  - `hasGameSession`, the answer of `GetNamedSession(NAME_GameSession)`.
    The environment changes it through `SetGameSession`.
- The results a search finds are written into the last search object by
  `DeliverSearchResults`; their settings are well keyed (see below).
- Every request method takes `accepts`: the provider's synchronous answer
  to the one request that call issues. `OnDestroySessionComplete` takes it
  as the answer to the one request the re-entered `CreateSession` issues,
  if any.
- The local player's role is a parameter of `StartSession`. The resolved
  connect string is a parameter of `OnJoinSessionComplete`. `None` there
  means `GetResolvedConnectString` wrote nothing, so the address stays
  empty.
- Completions are calls of the `On...Complete` methods by the environment.
  Each call runs to completion before the next one.
- `check(SessionInterface)` becomes `requires interfaceValid` on
  `FindSessions`, `StartSession` and the find, join and destroy completion
  handlers. `OnStartSessionComplete` has no `check`: it dereferences the
  interface unchecked at line 213, which becomes the same requires.
  `check(MultiplayerSessionsSubsystem)` in
  `OnFindSessions` becomes `requires subsystemBound`.
- The three button handlers both `check` the subsystem pointer and return
  early when it is null. The model keeps the early return, so a click
  before `MenuSetup` changes nothing. `MenuSetup` always binds the
  subsystem: its `check` that the subsystem was found is taken to hold.

### Modelling decisions

- Nothing stops a second request of a kind while one is pending.
  `MultiplayerSessionsSubsystem.cpp` lines 54, 75, 93, 110 and 131 overwrite
  the stored handle unconditionally. `OverlappingRequestsLeak` shows that a
  listener then stays registered and no handle is left that could remove it.
  The menu disables the button it clicked, but that does not prevent overlap
  for Host. With a session present, `CreateSession` broadcasts a failed create
  at once, `OnCreateSession(false)` enables Host again, and the destroy is
  still pending. `HostClickedAgainWhileDestroying` shows a second click
  registering a second destroy listener.
- The search query sets only the presence query setting (`searchPresence`).
- Strings compare as the engine compares them. `FString ==` and `FName ==`
  ignore the case of ASCII letters, so match types and the subsystem name
  are compared with `EqualsIgnoreCase`. Session settings are keyed by
  `FName`, so a settings map is keyed by the lower-cased name
  (`SettingKey`), and names that differ only in case are one key.
- `WellKeyed` states that convention for a settings map: every key is
  already lower-cased. Settings a host builds are well keyed
  (`MadeSettingsAreWellKeyed`). The provider is required to deliver only
  well-keyed results (`DeliverSearchResults`), and the lemmas about what a
  menu reads and joins assume well-keyed settings. The menu's own handler
  does not need the fact and does not require it.
- `bCreateSessionOnDestroy`, `LastNumPublicConnections` and `LastMatchType`
  have no initialiser in the header. Engine objects are zero-initialised, so
  the constructor sets them to `false`, `0` and `""`.

## Model

| member | source | states |
|---|---|---|
| `SessionTypes.ShouldBeLanMatch` | Plugins/MultiplayerSessions/Source/MultiplayerSessions/Private/MultiplayerSessionsSubsystem.cpp:217-220 | LAN semantics exactly when the reported subsystem name, lower-cased, is "null": the `FName` comparison with "NULL" ignores case |
| `SessionTypes.LanMatchIgnoresCase` | Plugins/MultiplayerSessions/Source/MultiplayerSessions/Private/MultiplayerSessionsSubsystem.cpp:219 | "NULL", "Null" and "null" all select LAN; "Steam", "NUL" and "" do not |
| `SessionTypes.LowerCharacters` | Plugins/MultiplayerSessions/Source/MultiplayerSessions/Private/Menu.cpp:101 | lower-casing maps each character to its ASCII lower case, position by position |
| `SessionTypes.EqualsIgnoreCaseByLower` | Plugins/MultiplayerSessions/Source/MultiplayerSessions/Private/Menu.cpp:101 | two strings are equal ignoring case (same length, same characters up to ASCII case) exactly when their lower-cased forms are equal |
| `SessionTypes.EqualsIgnoreCaseIsEquivalence` | Plugins/MultiplayerSessions/Source/MultiplayerSessions/Private/Menu.cpp:101 | comparison ignoring case is reflexive, symmetric and transitive |
| `SessionTypes.MatchTypeEntryIsKey` | Plugins/MultiplayerSessions/Source/MultiplayerSessions/Public/MultiplayerSessionsSubsystem.h:103 | the key `MatchTypeKey` denotes in a settings map is the lower-cased "matchtype" |
| `SessionTypes.SettingKeyIsFolded` | Plugins/MultiplayerSessions/Source/MultiplayerSessions/Private/MultiplayerSessionsSubsystem.cpp:44 | a stored key is already folded, so a settings map with one entry stored under it is well keyed |
| `SessionTypes.AdvertisedMatchTypeIgnoresKeyCase` | Plugins/MultiplayerSessions/Source/MultiplayerSessions/Private/Menu.cpp:99-100 | in any well-keyed settings map, the menu's read of the `MatchType` setting finds an entry stored under any case variant of the key and returns its value |
| `SessionTypes.MakeSessionSettings` | Plugins/MultiplayerSessions/Source/MultiplayerSessions/Private/MultiplayerSessionsSubsystem.cpp:36-44 | the settings of every provider create: connections as given, LAN as `ShouldBeLanMatch` decides, join-in-progress, join-via-presence, advertise, uses-presence and lobbies all true, and one key, `MatchTypeKey`'s, advertised via online service and ping, whose value reads back as the match type |
| `SessionTypes.MadeSettingsAreWellKeyed` | Plugins/MultiplayerSessions/Source/MultiplayerSessions/Private/MultiplayerSessionsSubsystem.cpp:44 | the settings every provider create carries are well keyed |
| `SessionTypes.MakeSessionSearch` | Plugins/MultiplayerSessions/Source/MultiplayerSessions/Private/MultiplayerSessionsSubsystem.cpp:70-73 | the search of every provider find: the requested size, LAN as `ShouldBeLanMatch` decides, presence query on, no results yet |
| `SessionTypes.Rejection` | Plugins/MultiplayerSessions/Source/MultiplayerSessions/Private/MultiplayerSessionsSubsystem.cpp:75-81 | the normalised failure of each channel is a broadcast of that channel's kind: create (false), find (empty, false), join ("", UnknownError), destroy (false), start (false) |
| `SessionTypes.Issue` | Plugins/MultiplayerSessions/Source/MultiplayerSessions/Private/MultiplayerSessionsSubsystem.cpp:54-63 | issuing a request logs that one provider request first, and exactly one broadcast, the normalised failure of its channel, iff the provider refuses it synchronously |
| `SessionTypes.AfterRequest` | Plugins/MultiplayerSessions/Source/MultiplayerSessions/Private/MultiplayerSessionsSubsystem.cpp:110-115 | after a request the handle is held iff the provider accepted it, and the listener count grew by one iff it accepted: a refused request's listener is cleared again |
| `SessionTypes.RequestLifecycle` | Plugins/MultiplayerSessions/Source/MultiplayerSessions/Private/MultiplayerSessionsSubsystem.cpp:154-160 | from idle, a refused request is idle again, an accepted one awaits with one listener, and its completion returns it to idle |
| `SessionTypes.OverlappingRequestsLeak` | Plugins/MultiplayerSessions/Source/MultiplayerSessions/Private/MultiplayerSessionsSubsystem.cpp:131-136 | a second request while one is awaiting overwrites the handle; after one completion a listener remains registered with no handle, and further clears leave it there |
| `SessionsSubsystem.NoInterface` | Plugins/MultiplayerSessions/Source/MultiplayerSessions/Private/MultiplayerSessionsSubsystem.cpp:104-108 | with an invalid session interface a create logs nothing at all, and a destroy makes no provider call and broadcasts destroy (false) |
| `SessionsSubsystem.CreateWhileInSession` | Plugins/MultiplayerSessions/Source/MultiplayerSessions/Private/MultiplayerSessionsSubsystem.cpp:24-34 | with a game session present, create broadcasts create (false) first, never issues a provider create, and its only provider request is the destroy of the game session |
| `SessionsSubsystem.CreateWithoutSession` | Plugins/MultiplayerSessions/Source/MultiplayerSessions/Private/MultiplayerSessionsSubsystem.cpp:36-63 | with no game session, create issues exactly one provider create for the game session with the settings built from its arguments, and broadcasts create (false) iff the provider refuses it |
| `SessionsSubsystem.DestroyThenRecreate` | Plugins/MultiplayerSessions/Source/MultiplayerSessions/Private/MultiplayerSessionsSubsystem.cpp:197-203 | a successful destroy with a create pending broadcasts destroy (true) first and then issues exactly one provider create with the stashed connection count and match type |
| `SessionsSubsystem.NoRecreate` | Plugins/MultiplayerSessions/Source/MultiplayerSessions/Private/MultiplayerSessionsSubsystem.cpp:199-203 | a failed destroy, or one with no create pending, only broadcasts its outcome and triggers no retry |
| `SessionsSubsystem.AtMostOneRequest` | Plugins/MultiplayerSessions/Source/MultiplayerSessions/Private/MultiplayerSessionsSubsystem.cpp:188-204 | a create request, and a destroy completion including the create it re-enters, each issue at most one provider request |
| `SessionsSubsystem.CreateWhileInSessionExtendsLog` | Plugins/MultiplayerSessions/Source/MultiplayerSessions/Private/MultiplayerSessionsSubsystem.cpp:24-34 | over a whole log: a create while a session exists adds only the destroy to the requests logged so far, never a create, and create (false) to the broadcasts |
| `SessionsSubsystem.DestroyThenRecreateExtendsLog` | Plugins/MultiplayerSessions/Source/MultiplayerSessions/Private/MultiplayerSessionsSubsystem.cpp:197-203 | over a whole log: a successful destroy with a create pending adds exactly one provider create with the stashed arguments to the requests, and destroy (true) to the broadcasts before any create failure |
| `SessionsSubsystem.ResolvedAddress` | Plugins/MultiplayerSessions/Source/MultiplayerSessions/Private/MultiplayerSessionsSubsystem.cpp:183-185 | a non-empty broadcast address is exactly the resolved connect string; the address is empty iff nothing was resolved or the resolved string was empty |
| `SessionsSubsystem.Subsystem.constructor` | Plugins/MultiplayerSessions/Source/MultiplayerSessions/Public/MultiplayerSessionsSubsystem.h:119-151 | no create pending, zero stash, no settings or search yet, every listener idle, empty log |
| `SessionsSubsystem.Subsystem.CreateSession` | Plugins/MultiplayerSessions/Source/MultiplayerSessions/Private/MultiplayerSessionsSubsystem.cpp:20-64 | appends the create plan to the log; with a session present it sets the pending flag, stashes both arguments and registers a destroy listener; without one it stores fresh settings and registers a create listener, which a refusal clears again; with no interface nothing changes |
| `SessionsSubsystem.Subsystem.FindSessions` | Plugins/MultiplayerSessions/Source/MultiplayerSessions/Private/MultiplayerSessionsSubsystem.cpp:66-82 | stores a fresh search, issues one provider find with it, and on refusal clears the listener and broadcasts (empty, false) |
| `SessionsSubsystem.Subsystem.JoinSession` | Plugins/MultiplayerSessions/Source/MultiplayerSessions/Private/MultiplayerSessionsSubsystem.cpp:84-100 | with no interface only broadcasts ("", UnknownError); otherwise issues one provider join of the given result, and on refusal clears the listener and broadcasts ("", UnknownError) |
| `SessionsSubsystem.Subsystem.DestroySession` | Plugins/MultiplayerSessions/Source/MultiplayerSessions/Private/MultiplayerSessionsSubsystem.cpp:102-116 | with no interface only broadcasts destroy (false); otherwise issues one provider destroy of the game session, and on refusal clears the listener and broadcasts destroy (false) |
| `SessionsSubsystem.Subsystem.StartSession` | Plugins/MultiplayerSessions/Source/MultiplayerSessions/Private/MultiplayerSessionsSubsystem.cpp:118-152 | no provider call, no broadcast and no listener unless a game session exists and the local role is Authority; then one provider start by the session's name, failed with start (false) on refusal |
| `SessionsSubsystem.Subsystem.OnCreateSessionComplete` | Plugins/MultiplayerSessions/Source/MultiplayerSessions/Private/MultiplayerSessionsSubsystem.cpp:154-160 | clears the create listener when the interface is valid and broadcasts the provider's outcome unchanged |
| `SessionsSubsystem.Subsystem.OnFindSessionsComplete` | Plugins/MultiplayerSessions/Source/MultiplayerSessions/Private/MultiplayerSessionsSubsystem.cpp:162-176 | clears the find listener and broadcasts every result in the last search, unfiltered (an empty set included), with the provider's success value |
| `SessionsSubsystem.Subsystem.OnJoinSessionComplete` | Plugins/MultiplayerSessions/Source/MultiplayerSessions/Private/MultiplayerSessionsSubsystem.cpp:178-186 | clears the join listener and broadcasts the provider's result code unchanged with `ResolvedAddress` of what the provider resolved |
| `SessionsSubsystem.Subsystem.OnDestroySessionComplete` | Plugins/MultiplayerSessions/Source/MultiplayerSessions/Private/MultiplayerSessionsSubsystem.cpp:188-204 | clears the destroy listener and broadcasts the outcome first; only a successful destroy with the flag set clears the flag and re-enters CreateSession with the stash; a failed destroy leaves the flag set; the stash never changes |
| `SessionsSubsystem.Subsystem.OnStartSessionComplete` | Plugins/MultiplayerSessions/Source/MultiplayerSessions/Private/MultiplayerSessionsSubsystem.cpp:206-215 | clears the start listener and broadcasts the provider's outcome unchanged |
| `SessionMenu.ListenUrl` | Plugins/MultiplayerSessions/Source/MultiplayerSessions/Private/Menu.cpp:17 | the lobby URL is the lobby path followed by "?listen" |
| `SessionMenu.Matches` | Plugins/MultiplayerSessions/Source/MultiplayerSessions/Private/Menu.cpp:99-101 | a result matches when the match type it advertises equals the menu's ignoring case (its definition; `EqualsIgnoreCaseByLower` characterises it) |
| `SessionMenu.FirstMatch` | Plugins/MultiplayerSessions/Source/MultiplayerSessions/Private/Menu.cpp:97-108 | the index of a result whose "MatchType" setting equals the menu's match type, ignoring case, with no such result before it, or none exactly when no result matches |
| `SessionMenu.JoinTarget` | Plugins/MultiplayerSessions/Source/MultiplayerSessions/Private/Menu.cpp:88-113 | a session is chosen iff the search succeeded and some result matches; the chosen one matches and no earlier result does |
| `SessionMenu.HostedSessionIsJoined` | Plugins/MultiplayerSessions/Source/MultiplayerSessions/Private/Menu.cpp:99-106 | a session hosted with a match type, found after well-keyed results of other types, is the one a menu with that match type joins |
| `SessionMenu.OtherMatchTypeIsNotJoined` | Plugins/MultiplayerSessions/Source/MultiplayerSessions/Private/Menu.cpp:99-101 | a menu never joins a session hosted with a match type that differs from its own other than in case |
| `SessionMenu.CaseVariantIsJoined` | Plugins/MultiplayerSessions/Source/MultiplayerSessions/Private/Menu.cpp:99-106 | a menu joins a session hosted with its match type spelt in another case |
| `SessionMenu.DefaultMatchTypeIgnoresCase` | Plugins/MultiplayerSessions/Source/MultiplayerSessions/Private/Menu.cpp:101 | "freeforall" and "FREEFORALL" equal the default "FreeForAll" ignoring case; "FreeForAl" does not |
| `SessionMenu.UnlabelledResultMatchesOnlyEmpty` | Plugins/MultiplayerSessions/Source/MultiplayerSessions/Private/Menu.cpp:99-101 | a well-keyed result with no "MatchType" setting reads as "" and is joined exactly by a menu whose match type is empty |
| `SessionMenu.JoinTargetIgnoresLaterResults` | Plugins/MultiplayerSessions/Source/MultiplayerSessions/Private/Menu.cpp:105-106 | the early return: results after the first match never change the choice |
| `SessionMenu.Menu.constructor` | Plugins/MultiplayerSessions/Source/MultiplayerSessions/Public/Menu.h:78-80 | defaults of 4 connections, "FreeForAll" and an empty lobby map; buttons enabled; no subsystem yet |
| `SessionMenu.Menu.MenuSetup` | Plugins/MultiplayerSessions/Source/MultiplayerSessions/Private/Menu.cpp:8-40 | stores the connection count and match type, sets the lobby map to the listen URL of the path, and binds the subsystem |
| `SessionMenu.Menu.ButtonHostClicked` | Plugins/MultiplayerSessions/Source/MultiplayerSessions/Private/Menu.cpp:148-154 | with a subsystem, disables Host and calls CreateSession with the menu's connection count and match type; without one, nothing changes |
| `SessionMenu.Menu.ButtonJoinClicked` | Plugins/MultiplayerSessions/Source/MultiplayerSessions/Private/Menu.cpp:156-162 | with a subsystem, disables Join and calls FindSessions(1000000000) |
| `SessionMenu.Menu.ButtonStartClicked` | Plugins/MultiplayerSessions/Source/MultiplayerSessions/Private/Menu.cpp:164-170 | with a subsystem, disables Start and calls StartSession |
| `SessionMenu.Menu.OnCreateSession` | Plugins/MultiplayerSessions/Source/MultiplayerSessions/Private/Menu.cpp:65-77 | success requests server travel to the lobby map and leaves Host as it was; failure re-enables Host |
| `SessionMenu.Menu.OnFindSessions` | Plugins/MultiplayerSessions/Source/MultiplayerSessions/Private/Menu.cpp:79-114 | calls JoinSession exactly once, with the join target, and leaves Join as it was when there is one; otherwise (failed search, no results, no match) re-enables Join and calls nothing |
| `SessionMenu.Menu.OnJoinSession` | Plugins/MultiplayerSessions/Source/MultiplayerSessions/Private/Menu.cpp:116-129 | Success requests client travel to the address and leaves Join as it was; any other code re-enables Join |
| `SessionMenu.Menu.OnStartSession` | Plugins/MultiplayerSessions/Source/MultiplayerSessions/Private/Menu.cpp:135-146 | success requests server travel to the game level; failure re-enables Start |
| `SessionScenarios.HostWithoutSession` | Plugins/MultiplayerSessions/Source/MultiplayerSessions/Private/MultiplayerSessionsSubsystem.cpp:36-63 | with no session, hosting logs exactly one provider create and one create broadcast with the provider's outcome, and leaves the create listener idle |
| `SessionScenarios.HostWhileInSession` | Plugins/MultiplayerSessions/Source/MultiplayerSessions/Private/MultiplayerSessionsSubsystem.cpp:24-34 | with a session, hosting logs create (false), destroy, destroy (true), then a create with the same arguments and its outcome; the pending flag ends cleared |
| `SessionScenarios.HostWhileInSessionDestroyFails` | Plugins/MultiplayerSessions/Source/MultiplayerSessions/Private/MultiplayerSessionsSubsystem.cpp:199-203 | a failed destroy ends the run after destroy (false) with the create still pending |
| `SessionScenarios.JoinFindsNothing` | Plugins/MultiplayerSessions/Source/MultiplayerSessions/Private/Menu.cpp:88-95 | an empty successful search is broadcast as ([], true); the menu makes no join call and Join is enabled again |
| `SessionScenarios.HostedResult` | Plugins/MultiplayerSessions/Source/MultiplayerSessions/Private/MultiplayerSessionsSubsystem.cpp:36-44 | a host's create stores exactly the settings `MakeSessionSettings` builds, which is what a search finds for it |
| `SessionScenarios.MenuJoin` | Plugins/MultiplayerSessions/Source/MultiplayerSessions/Private/Menu.cpp:79-114 | a menu whose Join was clicked asks for one search and, handed its results, joins exactly the join target, if any; Join stays disabled exactly when it joins |
| `SessionScenarios.OtherThenHostedIsJoined` | Plugins/MultiplayerSessions/Source/MultiplayerSessions/Private/Menu.cpp:99-106 | after a host's result of another match type, the result of a host with the menu's match type is the join target, and both are well keyed |
| `SessionScenarios.JoinHostedSession` | Plugins/MultiplayerSessions/Source/MultiplayerSessions/Private/Menu.cpp:97-107 | a menu skips a result of another match type (not merely another case) and joins the session a host created with its match type; Join stays disabled |
| `SessionScenarios.JoinCaseVariant` | Plugins/MultiplayerSessions/Source/MultiplayerSessions/Private/Menu.cpp:97-107 | a menu joins a session whose host spelt the match type in another case; Join stays disabled |
| `SessionScenarios.HostClickedAgainWhileDestroying` | Plugins/MultiplayerSessions/Source/MultiplayerSessions/Private/Menu.cpp:148-154 | with a session present, Host is enabled again while the destroy is pending, and a second click logs a second destroy and leaves two destroy listeners, the handle on the second |
| `SessionScenarios.JoinUnresolvedAddress` | Plugins/MultiplayerSessions/Source/MultiplayerSessions/Private/MultiplayerSessionsSubsystem.cpp:178-186 | an unresolved connect string is broadcast as ("", CouldNotRetrieveAddress) and the menu re-enables Join |
| `SessionScenarios.StartWithoutSession` | Plugins/MultiplayerSessions/Source/MultiplayerSessions/Private/MultiplayerSessionsSubsystem.cpp:148-151 | starting with no session logs nothing, whatever the role and the provider's answer |
| `SessionScenarios.StartWithoutAuthority` | Plugins/MultiplayerSessions/Source/MultiplayerSessions/Private/MultiplayerSessionsSubsystem.cpp:123-129 | a participant that is not the authority cannot start its session: nothing is logged |

## Left out

- The online subsystem itself is not modelled: `IOnlineSubsystem`, the session interface, Steam presence and lobbies. The provider is only its validity, its name, whether it holds the game session, a synchronous yes/no per request, and completions the environment delivers.
- The delegate machinery is not modelled. That covers dynamic versus non-dynamic multicast, Blueprint binding, and `AddDynamic`/`AddUObject` subscriptions in `MenuSetup`. Each broadcast channel is one kind of log entry, and the menu's reactions are methods a scenario calls with the broadcast values.
- On-screen debug messages (`GEngine->AddOnScreenDebugMessage`) are logging only and are not modelled.
- Viewport, visibility, focus, input-mode and mouse-cursor calls in `MenuSetup` and `MenuTearDown` are not modelled; nor are `Initialize`, which binds the button handlers, and `NativeDestruct`. `ServerTravel` and `ClientTravel` are only recorded as requested.
- `UMenu::OnDestroySession` has an empty body and is not modelled.
- The local player and its net id (`GetFirstLocalPlayerFromController`, `GetPreferredUniqueNetId`, `check(LocalPlayer)`) are world queries and are not modelled. The local role is a parameter instead.
- Asynchrony and threads are not modelled. Each handler is an atomic method call, and a provider that never completes is simply a run with no further call.
- `Subsystem.JoinSession`: with an invalid session interface the source calls `ClearOnJoinSessionCompleteDelegate_Handle` through that invalid pointer before broadcasting. That is a null dereference, so the model only broadcasts `("", UnknownError)`.
- `Subsystem.JoinSession`: the `checkNoEntry()` after a refused join is an assertion, not behaviour, and is not modelled. The refusal broadcast is.
- Case folding covers ASCII letters only; letters outside ASCII compare exactly.
- `SessionTypes.SettingKey`: names are folded once, when an entry is stored; the original spelling of a key is not kept.
- A 32-bit wrap-around of `int32` values is not an issue: the connection count and search size are only stored and passed on, never computed with.
