# A verified model of the IterativOne browser sync and agent platform

This project models two parts of the IterativOne web front end in Dafny.

**Browser-tab synchronisation.**
- The tab reducer of `useBrowserController` and the controller flows built on it: load, create, close, switch, navigate with its delayed title, mute, server events, and reconnect.
- The simulated `DemoDataSource`.
- The two remote providers, `LiveDataSource` and `AgentIntegratedDataSource`. They send the same HTTP requests and follow the same error rule. The second also reports every successful command to the agent backend.
- The tab normaliser they share.
- The `BrowserEventsGateway` WebSocket client: connection state, the retry schedule with exponential back-off, event-name normalisation, and the subscriber set.

**Agent platform.**
- The zustand `agentStore`.
- The `AgentPlatformProvider`: the Ctrl/Meta+K toggle, `executeCommand` and `queryAgent`.
- The omnibox's suggestions and command picking.
- The Boardroom's tag list, filter and tag toggle.
- `BaseAgent` and the reply rules of the five agents: CoFounder, MBA, CFA, CRA and PBA.

State that the source mutates in place is a `class` whose methods state their whole new state:
- the demo source's tab list;
- a remote provider's status, probe handle and backend log;
- the gateway;
- the controller's reducer state and pending title timers;
- the store;
- the provider's two flags;
- an agent's `isActive` flag.

There are two styles of contract:
- The gateway's methods are specified by pure step functions on a `GatewayState` snapshot. Lemmas about those functions state what the source promises.
- The controller's methods are specified as the reducer folded over the actions that the flow dispatches (`ReduceAll`). Lemmas about the reducer state the invariants: distinct ids, at most one active tab, and exactly one when there are tabs.

The environment is passed in as parameters:
- the network's answer (`Outcome`);
- clock readings: `Date.now()` and `new Date()` values (`now`, `later`), and for `queryAgent` a `QueryClock` with four separate readings, the id and the timestamp of the question and of the answer;
- `Math.random()` as `choice < 4`;
- the URL parser's hostname as `hostnameOf`, where `None` means it threw;
- `encodeURIComponent` as `encode`;
- whether a socket can be constructed;
- which subscribers throw (`failing`);
- timer handles;
- the `activeAgent` the agent provider read from the store at its last render (`rendered`), which `queryAgent` falls back on even after the store has changed.

Server JSON is a `Js.JsValue` with JavaScript truthiness, `||` and optional property access.

## Model

| member | source | states |
|---|---|---|
| BrowserReducer.InitialState | src/hooks/useBrowserController.ts:89-94 | the hook starts with no tabs, an empty address bar and loading off; it is connected exactly in demo mode, and disconnected otherwise |
| BrowserReducer.Reduce | src/hooks/useBrowserController.ts:23-78 | `browserReducer`, action by action; what each action does is stated by the `*Effect` lemmas below and the invariant it keeps by `ReducePreservesConsistent` |
| BrowserReducer.ReduceAll | src/hooks/useBrowserController.ts:89 | the state after successive `dispatch` calls, one reducer step per action in order; `ReduceAllPreservesConsistent` states the invariant it keeps |
| BrowserReducer.ActiveTab | src/hooks/useBrowserController.ts:317 | the derived `activeTab`, the first active tab; `FirstActiveSpec` states which one it is |
| BrowserReducer.AddTabEffect | src/hooks/useBrowserController.ts:28-33 | ADD_TAB keeps every old tab in order with its flag cleared, appends the payload last and shows its url; an active payload is then the single active tab and the derived `activeTab` |
| BrowserReducer.RemoveTabEffect | src/hooks/useBrowserController.ts:35-49 | REMOVE_TAB drops the tabs with the id and keeps the rest in order; if the removed tab was active and tabs remain, the first survivor becomes active and its url is shown; otherwise only the list changes; an unknown id changes nothing |
| BrowserReducer.RemoveLastTabLeavesStaleAddress | src/hooks/useBrowserController.ts:39-48 | removing the only tab empties the list but leaves the address bar showing the removed tab's url |
| BrowserReducer.SwitchTabEffect | src/hooks/useBrowserController.ts:68-73 | SWITCH_TAB activates exactly the tabs with the id and keeps the rest of each tab; the address bar takes the match's url unless there is no match or the url is empty; an unknown id leaves no tab active and the bar unchanged; with distinct ids a known id gives one active tab |
| BrowserReducer.UpdateTabEffect | src/hooks/useBrowserController.ts:51-57 | UPDATE_TAB keeps length and order and merges the patch only into the tabs with the id; an unknown id changes nothing |
| BrowserTypes.Merge | src/hooks/useBrowserController.ts:55 | `{ ...tab, ...updates }`: every field the patch carries overrides the tab's; `UpdateTabEffect` and `MergeIntoKeepsFlags` state its effect |
| BrowserReducer.SettersChangeOneField | src/hooks/useBrowserController.ts:25-26 | SET_TABS, SET_ADDRESS_BAR, SET_LOADING and SET_CONNECTION_STATUS each change exactly their own field |
| BrowserReducer.AddTabConsistent | src/hooks/useBrowserController.ts:28-33 | adding an active tab with a fresh id keeps ids distinct and the single-active rule |
| BrowserReducer.RemoveTabConsistent | src/hooks/useBrowserController.ts:35-49 | removing any id keeps ids distinct and the single-active rule, including the re-activation of the first survivor |
| BrowserReducer.ReducePreservesConsistent | src/hooks/useBrowserController.ts:23-78 | every admissible action keeps distinct ids and the single-active rule |
| BrowserReducer.ReduceAllPreservesConsistent | src/hooks/useBrowserController.ts:23-78 | the invariant holds after any sequence of admissible dispatches |
| BrowserReducer.AddressFollowsAfterTabActions | src/hooks/useBrowserController.ts:28-73 | adding an active tab, switching to a tab with a url, or removing the active tab each leaves the address bar showing the active tab's url |
| BrowserReducer.UpdateUrlCanBreakAddressFollows | src/hooks/useBrowserController.ts:51-57 | an update to the active tab's url leaves the address bar behind (a concrete state) |
| BrowserReducer.NavigationEventTitle | src/hooks/useBrowserController.ts:147-158 | a navigation event sets the tab's url, and its title exactly when the title is non-empty |
| BrowserReducer.EventAction | src/hooks/useBrowserController.ts:129-174 | the action `handleBrowserEvent` dispatches for each server event; `NavigationEventTitle` and `EventsPreserveConsistent` state its effect |
| BrowserReducer.EventsPreserveConsistent | src/hooks/useBrowserController.ts:129-174 | close, navigation, audio and status events keep the invariant whatever they carry; an audio event sets only the mute flag; a status event changes only the status |
| BrowserControl.LoadActionsSpec | src/hooks/useBrowserController.ts:176-197 | a successful load shows the fetched list, the active tab's url (or the old bar when none is active) and the source's status; a failed load keeps list and bar and reports disconnected; loading is off afterwards either way |
| BrowserControl.LoadActions | src/hooks/useBrowserController.ts:176-197 | the actions `loadInitialTabs` dispatches for a fetch result and the current connection; `LoadActionsSpec` states what they leave behind |
| BrowserControl.CommandActions | src/hooks/useBrowserController.ts:199-239 | a command's follow-up dispatch, made only in demo mode after success; `CommandActionsSpec` states it |
| BrowserControl.NavigateActions | src/hooks/useBrowserController.ts:241-288 | the dispatches of `navigate` once an active tab is known; `NavigateActionsSpec` states what they leave |
| BrowserControl.LoadingPatch | src/hooks/useBrowserController.ts:254-260 | the provisional `{ url, title: 'Loading...' }` update; `NavigateActionsSpec` states its effect |
| BrowserControl.TitleAction | src/hooks/useBrowserController.ts:262-281 | the title update the timer dispatches, the hostname or else the raw url; `NavigateMirrorsDemo` relates it to the demo source |
| BrowserControl.CommandActionsSpec | src/hooks/useBrowserController.ts:199-239 | a command changes the state only in demo mode after success, and then by exactly its one action; in live mode the state waits for the server |
| BrowserControl.NavigateActionsSpec | src/hooks/useBrowserController.ts:241-288 | a navigation leaves loading off and the new url in the address bar even when the call fails; only a successful demo navigation touches the tabs, giving the active tab the url and the title `Loading...` |
| BrowserControl.CloseMirrorsDemo | src/services/DemoDataSource.ts:58-70 | with distinct ids, the controller's REMOVE_TAB and the simulated source's splice give the same list |
| BrowserControl.MuteMirrorsDemo | src/services/DemoDataSource.ts:95-101 | with distinct ids, muting by patch and muting the first match in place give the same list |
| BrowserControl.NavigateMirrorsDemo | src/hooks/useBrowserController.ts:253-281 | under the invariant, a demo navigation followed by its title timer leaves the controller's tabs equal to the simulated source's |
| BrowserControl.FlowsKeepConsistent | src/hooks/useBrowserController.ts:176-305 | every controller flow keeps distinct ids and the single-active rule, given a consistent fetched list, a fresh active created tab and a known switch target |
| BrowserControl.BrowserController.constructor | src/hooks/useBrowserController.ts:89-104 | the initial state; a data source exists in demo mode, and in live mode exactly when an api url is given |
| BrowserControl.BrowserController.Dispatch | src/hooks/useBrowserController.ts:89 | one dispatch applies the reducer |
| BrowserControl.BrowserController.LoadInitialTabs | src/hooks/useBrowserController.ts:176-197 | without a source nothing happens; otherwise the state is the load's actions applied in order |
| BrowserControl.BrowserController.CreateTab | src/hooks/useBrowserController.ts:199-211 | the source is asked for the url given; only a created tab in demo mode is added |
| BrowserControl.BrowserController.CloseTab | src/hooks/useBrowserController.ts:213-225 | REMOVE_TAB follows a successful close, in demo mode only |
| BrowserControl.BrowserController.SwitchTab | src/hooks/useBrowserController.ts:227-239 | SWITCH_TAB follows a successful switch, in demo mode only |
| BrowserControl.BrowserController.Navigate | src/hooks/useBrowserController.ts:241-288 | nothing without a source or an active tab; otherwise the command names the active tab, the state follows the navigation's actions, and a successful demo navigation schedules one title timer |
| BrowserControl.BrowserController.FireTitleTimer | src/hooks/useBrowserController.ts:262-281 | the timer writes the parsed hostname, or the raw url when parsing throws, as the title of the tab it captured, and is removed from the pending list |
| BrowserControl.BrowserController.ToggleMute | src/hooks/useBrowserController.ts:290-305 | the mute patch follows a successful call, in demo mode only |
| BrowserControl.BrowserController.HandleBrowserEvent | src/hooks/useBrowserController.ts:129-174 | each server event applies its one action |
| BrowserControl.BrowserController.Reconnect | src/hooks/useBrowserController.ts:307-313 | demo mode changes nothing; live mode disconnects and connects the gateway again, then loads the tabs afresh |
| TabList.Deactivated | src/hooks/useBrowserController.ts:31 | same length; every tab keeps everything but its flag, which is cleared |
| TabList.ActivatedOnly | src/hooks/useBrowserController.ts:71 | same length; a tab is active exactly when it has the id; nothing else changes |
| TabList.WithoutId | src/hooks/useBrowserController.ts:36 | `tabs.filter(tab => tab.id !== id)`; `WithoutIdUnique`, `WithoutIdAtMostOne`, `WithoutIdActive` and `WithoutIdSplice` state its properties |
| TabList.IndexOfId | src/services/DemoDataSource.ts:60 | `findIndex` by id, `None` for -1; `FindIdSpec` and `ClosedSpec` state the index it finds |
| TabList.FindId | src/hooks/useBrowserController.ts:37 | `tabs.find(tab => tab.id === id)`; `FindIdSpec` states it is the first tab with the id |
| TabList.IndexOfActive | src/services/DemoDataSource.ts:82 | the position of `tabs.find(tab => tab.isActive)`; `NavigatedSpec` states the tab it selects |
| TabList.FirstActive | src/hooks/useBrowserController.ts:317 | `tabs.find(tab => tab.isActive)`; `FirstActiveSpec` states it |
| TabList.MergeInto | src/hooks/useBrowserController.ts:54-56 | `tabs.map(tab => tab.id === id ? { ...tab, ...updates } : tab)`; `MergeIntoSpec` states it |
| TabList.FindIdSpec | src/hooks/useBrowserController.ts:37 | the lookup by id succeeds exactly when some tab has the id, and yields the first such tab |
| TabList.FirstActiveSpec | src/hooks/useBrowserController.ts:317 | the derived active tab exists exactly when some tab is active, and under the single-active rule it is that tab |
| TabList.AppendActive | src/services/DemoDataSource.ts:52-53 | clearing every flag and appending an active tab leaves exactly that one active |
| TabList.ActivatedOnlyCases | src/services/DemoDataSource.ts:74-77 | activating a present id with distinct ids gives one active tab; an absent id leaves none; ids are unaffected |
| TabList.WithoutIdUnique | src/hooks/useBrowserController.ts:36 | filtering an id out keeps the other ids distinct |
| TabList.WithoutIdAtMostOne | src/hooks/useBrowserController.ts:36 | filtering an id out never makes a second tab active |
| TabList.WithoutIdActive | src/hooks/useBrowserController.ts:36-39 | removing the active tab leaves none active; removing any other keeps the single-active rule |
| TabList.MergeIntoSpec | src/hooks/useBrowserController.ts:54-56 | the patch merge keeps length and order, rewrites exactly the tabs with the id, and is the identity for an unknown id |
| TabList.MergeIntoKeepsFlags | src/hooks/useBrowserController.ts:147-168 | a patch that carries neither id nor flag keeps ids distinct and the single-active rule, in both directions |
| TabList.WithoutIdSplice | src/services/DemoDataSource.ts:60-65 | with distinct ids, filtering an id out is splicing out its one position |
| DemoData.DemoDataSource.constructor | src/services/DemoDataSource.ts:11-35 | the source starts with the three seed tabs |
| DemoData.DemoDataSource.FetchTabs | src/services/DemoDataSource.ts:37-40 | the list is returned as it is and left unchanged |
| DemoData.DemoDataSource.CreateTab | src/services/DemoDataSource.ts:42-56 | the new tab is returned and appended after every old tab is deactivated, so it is the single active tab |
| DemoData.DemoDataSource.CloseTab | src/services/DemoDataSource.ts:58-70 | the list becomes `Closed`, and distinct ids and the single-active rule are kept |
| DemoData.DemoDataSource.SwitchTab | src/services/DemoDataSource.ts:72-78 | a tab is active afterwards exactly when it has the id |
| DemoData.DemoDataSource.Navigate | src/services/DemoDataSource.ts:80-93 | the first active tab gets the url and its title; the command's tab id is not consulted |
| DemoData.DemoDataSource.ToggleMute | src/services/DemoDataSource.ts:95-101 | the first tab with the id gets the mute flag |
| DemoData.DemoDataSource.GetConnectionStatus | src/services/DemoDataSource.ts:103-105 | the simulated source always reports connected |
| DemoData.SeedTabsFacts | src/services/DemoDataSource.ts:11-35 | three seed tabs with ids 1, 2 and 3; only the first is active and only the second has audio |
| DemoData.NewTabFacts | src/services/DemoDataSource.ts:44-50 | the created tab is active, titled `New Tab`, has an id whose decimal value is the clock reading, and carries the requested url or `iterativone.com/newtab` when that is absent or empty |
| DemoData.NewTab | src/services/DemoDataSource.ts:44-50 | the tab `createTab` builds; `NewTabFacts` states its fields |
| DemoData.UrlToParse | src/services/DemoDataSource.ts:87 | the text the URL parser gets, `https://` prefixed unless the url starts with `http`; `TitleForSpec` states it |
| DemoData.TitleFor | src/services/DemoDataSource.ts:86-91 | the hostname of the parsed url, or the url when parsing throws; `TitleForSpec` states it |
| DemoData.ClosedSpec | src/services/DemoDataSource.ts:58-70 | an unknown id changes nothing; otherwise exactly the first tab with the id is removed, and only index 0 may change its flag, and only when the removed tab was active |
| DemoData.Closed | src/services/DemoDataSource.ts:58-70 | the demo `closeTab` list edit; `ClosedSpec` and `ClosedKeepsInvariant` state its result |
| DemoData.SpliceFacts | src/services/DemoDataSource.ts:65 | splicing a position out shifts the later tabs down by one and keeps ids distinct and at most one tab active |
| DemoData.ClosedKeepsInvariant | src/services/DemoDataSource.ts:58-70 | closing keeps distinct ids and the single-active rule |
| DemoData.NavigatedSpec | src/services/DemoDataSource.ts:80-93 | only the first active tab's url and title are rewritten; with no active tab nothing changes |
| DemoData.Navigated | src/services/DemoDataSource.ts:80-93 | the list after `navigate`; `NavigatedSpec` states which tab is rewritten |
| DemoData.TitleForSpec | src/services/DemoDataSource.ts:86-91 | the parser gets the url with `https://` prefixed unless it starts with `http`; the title is the hostname, or the raw url when parsing throws |
| DemoData.MutedTabsSpec | src/services/DemoDataSource.ts:95-101 | only the first tab with the id gets the flag; an unknown id changes nothing |
| DemoData.MutedTabs | src/services/DemoDataSource.ts:95-101 | the list after `toggleMute`; `MutedTabsSpec` states which tab gets the flag |
| TabNormalizer.NormalizeTabs | src/services/LiveDataSource.ts:170-172 | a normalised list comes only from an array, with one tab per element |
| TabNormalizer.NormalizeTab | src/services/LiveDataSource.ts:158-168 | `normalizeTab` on one server record: `null`/`undefined` rejected, every field the first truthy of its spellings; `NormalizeTabFields` and `NormalizeTabToJson` state it |
| TabNormalizer.AsText | src/services/LiveDataSource.ts:160-163 | the text a truthy field becomes, a string itself and any other value its `String()`; `NormalizeTabFields` states its use |
| TabNormalizer.FirstText | src/services/LiveDataSource.ts:160-163 | a string field's `a \|\| b \|\| default` chain; `NormalizeTabFields` states the fallbacks |
| TabNormalizer.TabsToJson | src/services/LiveDataSource.ts:170-172 | a list is written as an array of the tabs' records, position by position |
| TabNormalizer.TabToJson | src/services/AgentIntegratedDataSource.ts:193-203 | the record a server sends for a tab, with each field's primary spelling; `NormalizeTabToJson` states the round trip |
| TabNormalizer.NormalizeTabFields | src/services/LiveDataSource.ts:158-168 | a non-nullish record always normalises; the id is the first truthy of `id`, `tabId`, else the text of `index` (or 0); title, url and icon fall back to `Untitled`, `about:blank` and the default icon; each flag is true exactly when one of its spellings is truthy |
| TabNormalizer.NormalizeEmptyRecord | src/services/LiveDataSource.ts:158-168 | an empty record gives the all-default tab with id `0` |
| TabNormalizer.MutedInfoFallsThrough | src/services/LiveDataSource.ts:166 | a falsy or missing `isMuted` defers to `mutedInfo?.muted` |
| TabNormalizer.NormalizeTabToJson | src/services/AgentIntegratedDataSource.ts:193-203 | a tab with non-empty strings and both optional flags is read back unchanged from its record |
| TabNormalizer.NormalizeTabsSpec | src/services/AgentIntegratedDataSource.ts:205-207 | normalising succeeds exactly on an array none of whose elements is `null` or `undefined`; the i-th result is the i-th record normalised |
| TabNormalizer.NormalizeTabsToJson | src/services/AgentIntegratedDataSource.ts:205-207 | normalising the records of a list of such tabs gives the list back |
| Remote.TrimTrailingSlash | src/services/LiveDataSource.ts:16 | exactly one trailing slash is removed when present, and nothing else |
| Remote.HealthUrl | src/services/LiveDataSource.ts:23 | `${apiUrl}/health`; `LiveDataSource.HealthProbe` states the request |
| Remote.TabsUrl | src/services/LiveDataSource.ts:38 | `${apiUrl}/tabs`; `LiveDataSource.FetchTabs` and `CreateTab` state the requests |
| Remote.TabUrl | src/services/LiveDataSource.ts:80 | `${apiUrl}/tabs/${tabId}`; `LiveDataSource.CloseTab` states the request |
| Remote.ActivateUrl | src/services/LiveDataSource.ts:96 | `${apiUrl}/tabs/${tabId}/activate`; `LiveDataSource.SwitchTab` states the request |
| Remote.NavigateUrl | src/services/LiveDataSource.ts:112 | `${apiUrl}/navigate`; `LiveDataSource.Navigate` states the request |
| Remote.AudioUrl | src/services/LiveDataSource.ts:132 | `${apiUrl}/tabs/${tabId}/audio`; `LiveDataSource.ToggleMute` states the request |
| Remote.CreateBody | src/services/LiveDataSource.ts:63 | `{ url: command.url \|\| 'about:blank' }`; `CreateRecordKeepsRequestedUrl` states it |
| Remote.NavigateBody | src/services/LiveDataSource.ts:115-118 | `{ url, tabId }` with an undefined `tabId` dropped by `JSON.stringify`; `LiveDataSource.Navigate` states the request |
| Remote.AudioBody | src/services/LiveDataSource.ts:135 | `{ muted }`; `LiveDataSource.ToggleMute` states the request |
| Remote.HealthStatus | src/services/LiveDataSource.ts:20-33 | the probe reports connected exactly on an ok answer, and never connecting |
| Remote.CommandResultSpec | src/services/LiveDataSource.ts:85-87 | a command succeeds exactly on an ok answer; a non-ok answer reports its status code |
| Remote.CommandResult | src/services/LiveDataSource.ts:78-92 | a command's outcome, failing unless the answer is ok; `CommandResultSpec` states it |
| Remote.OkBody | src/services/LiveDataSource.ts:43-47 | the parsed body of an ok answer, or why there is none; `FetchResultSpec` and `CreateResultSpec` state its cases |
| Remote.TabsOf | src/services/LiveDataSource.ts:50 | `normalizeTabs(data.tabs \|\| data)`; `FetchResultSpec` states the fallback |
| Remote.TabOf | src/services/LiveDataSource.ts:71 | `normalizeTab(data.tab \|\| data)`; `TabOfWrapped` and `TabOfBare` state the round trips |
| Remote.FetchResultSpec | src/services/LiveDataSource.ts:35-56 | a fetch succeeds only on an ok answer with a parsable body; a non-ok answer reports its status; a server list is read back from `tabs` or from the bare body |
| Remote.FetchResult | src/services/LiveDataSource.ts:35-56 | the result of `fetchTabs` for one network outcome; `FetchResultSpec` states when it succeeds and which error it reports |
| Remote.CreateResultSpec | src/services/LiveDataSource.ts:58-76 | a create succeeds only on an ok answer with a parsable body; a non-ok answer reports its status; a tab is read back from `tab` or from the bare body |
| Remote.CreateResult | src/services/LiveDataSource.ts:58-76 | the result of `createTab` for one network outcome; `CreateResultSpec` states it |
| Remote.TabOfWrapped | src/services/LiveDataSource.ts:71 | a tab wrapped in `tab` is read back unchanged |
| Remote.TabOfBare | src/services/LiveDataSource.ts:71 | a bare tab record is read back unchanged |
| LiveData.LiveDataSource.constructor | src/services/LiveDataSource.ts:15-18 | the api url loses one trailing slash; the status starts disconnected and the probe timer is set |
| LiveData.LiveDataSource.HealthProbe | src/services/LiveDataSource.ts:20-33 | the probe sends GET `/health` and sets the status from the answer, never throwing |
| LiveData.LiveDataSource.FetchTabs | src/services/LiveDataSource.ts:35-56 | GET `/tabs`; the status ends connected on success and disconnected on any failure |
| LiveData.LiveDataSource.CreateTab | src/services/LiveDataSource.ts:58-76 | POST `/tabs` with the url, or `about:blank` when it is absent or empty; the result is the normalised tab or the failure |
| LiveData.LiveDataSource.CloseTab | src/services/LiveDataSource.ts:78-92 | DELETE `/tabs/<id>`, which fails unless the answer is ok |
| LiveData.LiveDataSource.SwitchTab | src/services/LiveDataSource.ts:94-108 | POST `/tabs/<id>/activate`, which fails unless the answer is ok |
| LiveData.LiveDataSource.Navigate | src/services/LiveDataSource.ts:110-128 | POST `/navigate` with the url, and the tab id when given; it fails unless the answer is ok |
| LiveData.LiveDataSource.ToggleMute | src/services/LiveDataSource.ts:130-145 | POST `/tabs/<id>/audio` with the flag; it fails unless the answer is ok |
| LiveData.LiveDataSource.GetConnectionStatus | src/services/LiveDataSource.ts:147-149 | the current status field, as it is; `HealthProbe` and `FetchTabs` state what they leave in it |
| LiveData.LiveDataSource.Cleanup | src/services/LiveDataSource.ts:151-156 | the probe handle is handed back and cleared, so a second call finds none |
| LiveData.CheckOk | src/services/LiveDataSource.ts:85-87 | the command error rule |
| AgentIntegratedData.RecordedIf | src/services/AgentIntegratedDataSource.ts:98-105 | a command is recorded once when it succeeded and not at all when it threw |
| AgentIntegratedData.AgentIntegratedDataSource.constructor | src/services/AgentIntegratedDataSource.ts:16-19 | the api url loses one trailing slash; the status starts disconnected, the probe is set, and nothing is recorded yet |
| AgentIntegratedData.AgentIntegratedDataSource.HealthProbe | src/services/AgentIntegratedDataSource.ts:21-36 | the status is set from the answer and reported to the backend as it is |
| AgentIntegratedData.AgentIntegratedDataSource.FetchTabs | src/services/AgentIntegratedDataSource.ts:38-62 | the live fetch, plus a backend record of the tabs only when the fetch succeeds |
| AgentIntegratedData.AgentIntegratedDataSource.CreateTab | src/services/AgentIntegratedDataSource.ts:64-89 | the live create; a success records the url exactly as requested |
| AgentIntegratedData.AgentIntegratedDataSource.CloseTab | src/services/AgentIntegratedDataSource.ts:91-110 | the live close; it is recorded only when it succeeded |
| AgentIntegratedData.AgentIntegratedDataSource.SwitchTab | src/services/AgentIntegratedDataSource.ts:112-131 | the live switch; it is recorded only when it succeeded |
| AgentIntegratedData.AgentIntegratedDataSource.Navigate | src/services/AgentIntegratedDataSource.ts:133-157 | the live navigate; it is recorded with url and tab id only when it succeeded |
| AgentIntegratedData.AgentIntegratedDataSource.ToggleMute | src/services/AgentIntegratedDataSource.ts:159-180 | the live mute; it is recorded with the tab id and flag only when it succeeded |
| AgentIntegratedData.AgentIntegratedDataSource.GetConnectionStatus | src/services/AgentIntegratedDataSource.ts:182-184 | the current status field, as it is; `HealthProbe` and `FetchTabs` state what they leave in it |
| AgentIntegratedData.AgentIntegratedDataSource.Cleanup | src/services/AgentIntegratedDataSource.ts:186-191 | the probe handle is handed back and cleared |
| AgentIntegratedData.CreateRecordKeepsRequestedUrl | src/services/AgentIntegratedDataSource.ts:69-82 | for an absent or empty url the request sends `about:blank`, but the record does not |
| EventsGateway.ReconnectDelayFacts | src/services/BrowserEventsGateway.ts:104-107 | the delay lies between one and thirty seconds, never decreases with the attempt count, doubles from one second, and is the cap from the fifth attempt on |
| EventsGateway.ReconnectDelay | src/services/BrowserEventsGateway.ts:104-107 | the back-off delay `min(1000 * 2^attempts, 30000)` for an attempt count; `ReconnectDelayFacts` and `ReconnectDelaySchedule` state its bounds and values |
| EventsGateway.Pow2 | src/services/BrowserEventsGateway.ts:105 | `Math.pow(2, n)` on naturals; `ReconnectDelayFacts` states the delays built on it |
| EventsGateway.ReconnectDelaySchedule | src/services/BrowserEventsGateway.ts:98-116 | the ten delays are 1, 2, 4, 8 and 16 seconds, then 30 seconds five times |
| EventsGateway.KindOfSpellings | src/services/BrowserEventsGateway.ts:120-178 | each kind has a camelCase and a colon spelling, both naming it, and no other string names a kind |
| EventsGateway.KindOf | src/services/BrowserEventsGateway.ts:121-178 | which `case` of the event switch a type string selects; `KindOfSpellings` states the twelve spellings |
| EventsGateway.SpellingsAgree | src/services/BrowserEventsGateway.ts:120-178 | the two spellings of a kind give identical events for the same message, and both notify |
| EventsGateway.Normalize | src/services/BrowserEventsGateway.ts:118-180 | `handleServerEvent`: the event a server message becomes, if any; `SpellingsAgree`, `PayloadFallbacks` and `MutedFalseFallsThrough` state it |
| EventsGateway.EventType | src/services/BrowserEventsGateway.ts:119 | `data.type \|\| data.event`; `EventTypeRules` states it |
| EventsGateway.Pick | src/services/BrowserEventsGateway.ts:124-177 | `data.payload?.k \|\| data.k`; `PayloadFallbacks` states it |
| EventsGateway.Build | src/services/BrowserEventsGateway.ts:121-178 | the event each `case` builds from the message; `PayloadFallbacks` states its fields |
| EventsGateway.EventTypeRules | src/services/BrowserEventsGateway.ts:118-121 | a falsy `type` defers to `event`; an unknown type notifies nothing; the server cannot send a status event |
| EventsGateway.PayloadFallbacks | src/services/BrowserEventsGateway.ts:124-177 | every payload field is the first truthy of `payload.X` and `X`; a tab list with no truthy source is empty |
| EventsGateway.MutedFalseFallsThrough | src/services/BrowserEventsGateway.ts:158-167 | `payload.muted = false` with `muted: true` outside reports the tab as muted |
| EventsGateway.Deliveries | src/services/BrowserEventsGateway.ts:182-190 | every subscriber is called once, in order, whether or not an earlier one threw |
| EventsGateway.NotifyStep | src/services/BrowserEventsGateway.ts:182-190 | `notifyCallbacks`: the deliveries are appended; `Deliveries` states who is called |
| EventsGateway.ScheduleReconnectSpec | src/services/BrowserEventsGateway.ts:98-116 | at the limit nothing happens; below it one timer is set, with the delay computed from the count before it is incremented; the bound is kept |
| EventsGateway.ScheduleReconnectStep | src/services/BrowserEventsGateway.ts:98-116 | `scheduleReconnect` on the snapshot; `ScheduleReconnectSpec` states it |
| EventsGateway.StepsKeepBounded | src/services/BrowserEventsGateway.ts:19-116 | every gateway step keeps the retry counter within ten |
| EventsGateway.FailedRetriesStop | src/services/BrowserEventsGateway.ts:68-71 | `k` firings that cannot build a socket leave min(a + k, 10) attempts and schedule one timer per attempt |
| EventsGateway.FailedRetriesStopAtLimit | src/services/BrowserEventsGateway.ts:99-102 | at the limit, further failures schedule nothing |
| EventsGateway.ConnectSpec | src/services/BrowserEventsGateway.ts:19-27 | an open or connecting socket is left alone; otherwise the intentional flag is cleared and the socket is opened, or a retry is scheduled when construction throws |
| EventsGateway.ConnectStep | src/services/BrowserEventsGateway.ts:19-72 | the gateway snapshot after `connect`; `ConnectSpec` states what it changes |
| EventsGateway.SocketLive | src/services/BrowserEventsGateway.ts:20 | an open or connecting socket, the case in which `connect` returns at once; `ConnectSpec` states its use |
| EventsGateway.OpenSpec | src/services/BrowserEventsGateway.ts:29-36 | opening resets the counter and tells every subscriber connected |
| EventsGateway.OpenStep | src/services/BrowserEventsGateway.ts:29-36 | `onopen` on the snapshot; `OpenSpec` states it |
| EventsGateway.MessageStep | src/services/BrowserEventsGateway.ts:38-45 | `onmessage`: a parse failure or an unknown event changes nothing, else the event is delivered; `EventTypeRules` and `StepsKeepBounded` state it |
| EventsGateway.ErrorAndCloseSpec | src/services/BrowserEventsGateway.ts:47-67 | errors and closes report disconnected to every subscriber; a close drops the socket and retries exactly when the closure was not asked for |
| EventsGateway.ErrorStep | src/services/BrowserEventsGateway.ts:47-53 | `onerror` on the snapshot; `ErrorAndCloseSpec` states it |
| EventsGateway.CloseStep | src/services/BrowserEventsGateway.ts:55-67 | `onclose` on the snapshot; `ErrorAndCloseSpec` and `LateCloseAfterReconnect` state it |
| EventsGateway.DisconnectSpec | src/services/BrowserEventsGateway.ts:74-88 | disconnect cancels the pending timer, drops the socket and resets the counter; a later close retries nothing; a second call changes nothing |
| EventsGateway.DisconnectStep | src/services/BrowserEventsGateway.ts:74-88 | `disconnect` on the snapshot; `DisconnectSpec` states it |
| EventsGateway.FireTimerStep | src/services/BrowserEventsGateway.ts:113-115 | a reconnect timer firing: it is removed and `connect` runs; `FailedRetriesStop` states repeated firings |
| EventsGateway.FailedRetries | src/services/BrowserEventsGateway.ts:68-71 | reconnect timers firing in a row while the socket cannot be constructed; `FailedRetriesStop` states where it ends |
| EventsGateway.LateCloseAfterReconnect | src/services/BrowserEventsGateway.ts:55-67 | after disconnect then connect, a late close of the old socket drops the new one and schedules a retry |
| EventsGateway.SubscribersSpec | src/services/BrowserEventsGateway.ts:90-96 | subscribers form a set: subscribing twice stores one entry, unsubscribing removes only that callback, and a notification reaches each subscriber |
| EventsGateway.SubscribeStep | src/services/BrowserEventsGateway.ts:90-91 | `callbacks.add`; `SubscribersSpec` states the set semantics |
| EventsGateway.UnsubscribeStep | src/services/BrowserEventsGateway.ts:93-95 | `callbacks.delete`; `SubscribersSpec` states the set semantics |
| EventsGateway.BrowserEventsGateway.constructor | src/services/BrowserEventsGateway.ts:5-17 | no socket, no subscriber, no timer, no attempt |
| EventsGateway.BrowserEventsGateway.Connect | src/services/BrowserEventsGateway.ts:19-72 | the connect step |
| EventsGateway.BrowserEventsGateway.OnOpen | src/services/BrowserEventsGateway.ts:29-36 | the open step |
| EventsGateway.BrowserEventsGateway.OnMessage | src/services/BrowserEventsGateway.ts:38-45 | a message that parses is normalised and notified; one that does not parse is dropped |
| EventsGateway.BrowserEventsGateway.OnError | src/services/BrowserEventsGateway.ts:47-53 | the error step |
| EventsGateway.BrowserEventsGateway.OnClose | src/services/BrowserEventsGateway.ts:55-67 | the close step |
| EventsGateway.BrowserEventsGateway.Disconnect | src/services/BrowserEventsGateway.ts:74-88 | the disconnect step |
| EventsGateway.BrowserEventsGateway.Subscribe | src/services/BrowserEventsGateway.ts:90-92 | the callback joins the set |
| EventsGateway.BrowserEventsGateway.Unsubscribe | src/services/BrowserEventsGateway.ts:93-95 | the callback leaves the set |
| EventsGateway.BrowserEventsGateway.FireTimer | src/services/BrowserEventsGateway.ts:113-115 | the pending timer runs `connect` |
| EventsGateway.BrowserEventsGateway.ScheduleReconnect | src/services/BrowserEventsGateway.ts:98-116 | the schedule step |
| EventsGateway.BrowserEventsGateway.Notify | src/services/BrowserEventsGateway.ts:182-190 | every subscriber is called in turn; one that throws does not stop the others |
| Js.Or | src/services/LiveDataSource.ts:50 | `a \|\| b` is `a` when `a` is truthy and `b` otherwise, so it is truthy exactly when either operand is |
| Js.Truthy | src/services/LiveDataSource.ts:50 | JavaScript truthiness: `false`, `0`, `""`, `null` and `undefined` are falsy, everything else truthy; `Js.Or` states its use |
| Js.IsNullish | src/services/LiveDataSource.ts:158-160 | `null` or `undefined`, the values whose property access throws; `NormalizeTabsSpec` states the effect |
| Js.Get | src/services/BrowserEventsGateway.ts:119 | `o?.k`, `undefined` when `o` is no object or lacks the field; `PayloadFallbacks` states its use |
| Js.ToJsString | src/services/LiveDataSource.ts:160 | `String(v)`; `NormalizeTabFields` states the id fallback that uses it |
| Js.OrAssociative | src/services/LiveDataSource.ts:160-166 | a chain of `\|\|` groups either way and yields its first truthy operand, else the last one |
| AgentTypes.MentionsIgnoresCase | src/agents/functional/CRAAgent.ts:34 | the keyword test gives the same answer on a lower-cased message |
| AgentTypes.Mentions | src/agents/functional/MBAAgent.ts:40 | `message.toLowerCase().includes(word)`; `MentionsIgnoresCase` states it ignores case |
| AgentTypes.IsLongWord | src/agents/CoFounderAgent.ts:52 | `w.length > 4` in UTF-16 units; `ExtractIntentSpec` and `ExtractKeyTopicSpec` state its use |
| AgentTypes.MergeSpec | src/store/agentStore.ts:116-129 | an empty patch changes nothing; a field the patch carries wins; a field it lacks is kept; a deadline patched to undefined is cleared |
| AgentTypes.MergeGoal | src/store/agentStore.ts:118 | `{ ...g, ...updates }` for a goal; `MergeSpec` states it |
| AgentTypes.MergeProject | src/store/agentStore.ts:128 | `{ ...p, ...updates }` for a project; `MergeSpec` states it |
| AgentTypes.RoleName | src/types/agent.ts:1-6 | the string value of each role; `ProfilesSpec` states that the profile ids start with it |
| BaseAgent.ProfilesSpec | src/store/agentStore.ts:9-15 | the profiles carry their roles and have pairwise distinct ids and names; each id starts with the role's string |
| BaseAgent.ProfileOf | src/store/agentStore.ts:9-15 | the one agent instance of each role; `ProfilesSpec` states their distinct identities |
| BaseAgent.GenerateResponse | src/agents/BaseAgent.ts:14-18 | the role-dispatched `generateResponse`; each agent's `Reply` lemmas and `Agent.ProcessMessage` state it |
| BaseAgent.Agent.constructor | src/agents/BaseAgent.ts:12 | an agent starts inactive with its role's profile |
| BaseAgent.Agent.Activate | src/agents/BaseAgent.ts:27-29 | the flag is set |
| BaseAgent.Agent.Deactivate | src/agents/BaseAgent.ts:31-33 | the flag is cleared |
| BaseAgent.Agent.ProcessMessage | src/agents/BaseAgent.ts:14-16 | the answer is exactly the role's reply rule, with the flag untouched |
| BaseAgent.Agent.AnalyzeContext | src/agents/BaseAgent.ts:20-25 | no insights and no suggestions |
| CoFounderAgent.IntentOfSpec | src/agents/CoFounderAgent.ts:53 | splitting the joined intent gives back the first three keywords; the fallback is used exactly when there are none |
| CoFounderAgent.JoinedKeywords | src/agents/CoFounderAgent.ts:53 | joined long words split back into themselves, and never spell the fallback |
| CoFounderAgent.FallbackSplit | src/agents/CoFounderAgent.ts:53 | the fallback's first word is `your`, which is too short to be a keyword |
| CoFounderAgent.ExtractIntentSpec | src/agents/CoFounderAgent.ts:50-54 | splitting the intent gives back the first (up to) three words longer than four of the lower-cased message; `your question` is used exactly when there is no such word |
| CoFounderAgent.ExtractIntent | src/agents/CoFounderAgent.ts:50-54 | the intent phrase drawn from a message; `ExtractIntentSpec` states which words it keeps |
| CoFounderAgent.Keywords | src/agents/CoFounderAgent.ts:51-52 | the long words of the lower-cased message, in order; `ExtractIntentSpec` states it |
| CoFounderAgent.IntentOf | src/agents/CoFounderAgent.ts:53 | `keywords.slice(0, 3).join(' ') \|\| 'your question'`; `IntentOfSpec` states it |
| CoFounderAgent.TemplatesSpec | src/agents/CoFounderAgent.ts:40-45 | four templates; the first two contain the intent; the last two do not depend on it |
| CoFounderAgent.Templates | src/agents/CoFounderAgent.ts:40-45 | the four reply templates around an intent; `TemplatesSpec` states them |
| CoFounderAgent.ReplySpec | src/agents/CoFounderAgent.ts:39-48 | the reply is one of the templates; the first two quote the intent; the last two are the same for every message |
| CoFounderAgent.Reply | src/agents/CoFounderAgent.ts:39-48 | the co-founder reply for a random pick; `ReplySpec` states which template it is |
| CoFounderAgent.UpperLowerRoundTrip | src/agents/CoFounderAgent.ts:57 | a word of lower-case letters survives upper-casing and lower-casing |
| CoFounderAgent.DelegateToAgentSpec | src/agents/CoFounderAgent.ts:56-58 | the announcement is the prefix, then the role upper-cased (which lower-cases back to the role), then `: ` and the task unchanged |
| CoFounderAgent.DelegateToAgent | src/agents/CoFounderAgent.ts:56-58 | `delegateToAgent`'s announcement; `DelegateToAgentSpec` states its parts |
| CoFounderAgent.CapabilitiesDistinct | src/agents/CoFounderAgent.ts:12-37 | four capabilities with distinct ids |
| MbaAgent.ExtractKeyTopicSpec | src/agents/functional/MBAAgent.ts:51-54 | the topic is the first word longer than four, as written; `this area` is used exactly when there is none |
| MbaAgent.ExtractKeyTopic | src/agents/functional/MBAAgent.ts:51-54 | `extractKeyTopic`; `ExtractKeyTopicSpec` states which word it picks |
| MbaAgent.AsksAboutFinance | src/agents/functional/MBAAgent.ts:40 | the first routing test, `financial` or `revenue`; `MbaAgent.Reply` states the route |
| MbaAgent.AsksAboutMarket | src/agents/functional/MBAAgent.ts:44 | the second routing test, `market` or `competition`; `MbaAgent.Reply` states the route |
| MbaAgent.FinancialReply | src/agents/functional/MBAAgent.ts:41 | the financial template around the key topic; `MbaAgent.Reply` states when it is used |
| MbaAgent.MarketReply | src/agents/functional/MBAAgent.ts:45 | the market template around the key topic; `MbaAgent.Reply` states when it is used |
| MbaAgent.Reply | src/agents/functional/MBAAgent.ts:39-49 | the financial keywords are tried first, then the market ones, else the default; the topical replies quote the key topic |
| MbaAgent.RoutingIgnoresCase | src/agents/functional/MBAAgent.ts:40-44 | the routing tests give the same answers on a lower-cased message |
| MbaAgent.CapabilitiesDistinct | src/agents/functional/MBAAgent.ts:12-37 | four capabilities with distinct ids |
| CfaAgent.Reply | src/agents/functional/CFAAgent.ts:39-49 | each of the three replies is given exactly when its rule is the first that matches; invest and portfolio win over risk |
| CfaAgent.AsksAboutInvesting | src/agents/functional/CFAAgent.ts:40 | the first routing test, `invest` or `portfolio`; `CfaAgent.Reply` states the route |
| CfaAgent.AsksAboutRisk | src/agents/functional/CFAAgent.ts:44 | the second routing test, `risk`; `CfaAgent.Reply` states the route |
| CfaAgent.ReplyIgnoresCase | src/agents/functional/CFAAgent.ts:40-44 | the case of the message never changes the reply |
| CfaAgent.CapabilitiesDistinct | src/agents/functional/CFAAgent.ts:12-37 | four capabilities with distinct ids |
| CraAgent.Reply | src/agents/functional/CRAAgent.ts:33-43 | each of the three replies is given exactly when its rule is the first that matches; credit and risk win over compliance |
| CraAgent.AsksAboutCredit | src/agents/functional/CRAAgent.ts:34 | the first routing test, `credit` or `risk`; `CraAgent.Reply` states the route |
| CraAgent.AsksAboutCompliance | src/agents/functional/CRAAgent.ts:38 | the second routing test, `compliance`; `CraAgent.Reply` states the route |
| CraAgent.ReplyIgnoresCase | src/agents/functional/CRAAgent.ts:34-38 | the case of the message never changes the reply |
| CraAgent.CapabilitiesDistinct | src/agents/functional/CRAAgent.ts:12-31 | the capabilities have distinct ids |
| PbaAgent.Reply | src/agents/functional/PBAAgent.ts:33-43 | each of the three replies is given exactly when its rule is the first that matches; requirement and feature win over process |
| PbaAgent.AsksAboutRequirements | src/agents/functional/PBAAgent.ts:34 | the first routing test, `requirement` or `feature`; `PbaAgent.Reply` states the route |
| PbaAgent.AsksAboutProcess | src/agents/functional/PBAAgent.ts:38 | the second routing test, `process`; `PbaAgent.Reply` states the route |
| PbaAgent.ReplyIgnoresCase | src/agents/functional/PBAAgent.ts:34-38 | the case of the message never changes the reply |
| PbaAgent.CapabilitiesDistinct | src/agents/functional/PBAAgent.ts:12-31 | the capabilities have distinct ids |
| AgentStore.ClampScore | src/store/agentStore.ts:138 | the score lands in [0, 100], an in-range value is kept, and out-of-range values go to the nearer bound |
| AgentStore.UpdatedGoals | src/store/agentStore.ts:116-119 | `goals.map(g => g.id === id ? { ...g, ...updates } : g)`; `UpdatedGoalsSpec` states it |
| AgentStore.UpdatedProjects | src/store/agentStore.ts:126-129 | `projects.map(p => p.id === id ? { ...p, ...updates } : p)`; `UpdatedProjectsSpec` states it |
| AgentStore.UpdatedGoalsSpec | src/store/agentStore.ts:116-119 | length and order kept; every goal with the id (not only the first) gets the patch; others are kept; an unknown id changes nothing; a patch without an id keeps every id |
| AgentStore.UpdatedProjectsSpec | src/store/agentStore.ts:126-129 | the same for projects |
| AgentStore.ScoreAfter | src/store/agentStore.ts:136-139 | the score after a run of `incrementVestedInterest` calls; `ScoreStaysInRange` and `QueriesSaturate` state it |
| AgentStore.ScoreStaysInRange | src/store/agentStore.ts:136-139 | any run of increments keeps an in-range score in range |
| AgentStore.QueriesSaturate | src/store/agentStore.ts:136-139 | `k` one-point increments lead to min(100, score + k) |
| AgentStore.RosterSpec | src/store/agentStore.ts:9-15 | the five agents in order, the co-founder first, no role twice; the starting score 78 is in range |
| AgentStore.SeedProjects | src/store/agentStore.ts:67-88 | the two seed projects, updated at the store's creation time; `Store.constructor` states their use |
| AgentStore.Store.constructor | src/store/agentStore.ts:36-102 | the roster, the co-founder active, the seed goals, projects and research items, an empty history and the score 78 |
| AgentStore.Store.SetActiveAgent | src/store/agentStore.ts:104 | the active agent is replaced |
| AgentStore.Store.AddMessage | src/store/agentStore.ts:106-109 | the message is appended to the history |
| AgentStore.Store.AddGoal | src/store/agentStore.ts:111-114 | the goal is appended |
| AgentStore.Store.UpdateGoal | src/store/agentStore.ts:116-119 | the goals become the patched list |
| AgentStore.Store.AddProject | src/store/agentStore.ts:121-124 | the project is appended |
| AgentStore.Store.UpdateProject | src/store/agentStore.ts:126-129 | the projects become the patched list |
| AgentStore.Store.AddResearchItem | src/store/agentStore.ts:131-134 | the item is appended |
| AgentStore.Store.IncrementVestedInterest | src/store/agentStore.ts:136-139 | the score becomes the clamped sum and stays in range |
| AgentPlatform.ParseCommandSpec | src/context/AgentPlatformProvider.tsx:35-54 | `?` asks the agent named by the first word, with a non-empty query: the name and the rest, joined by a space, give back the trimmed remainder, and a bare name asks `Hello`; `/browser` and `/browser-demo` go to the demo and any other route sets the hash; everything else is a search with the encoded command |
| AgentPlatform.ParseCommand | src/context/AgentPlatformProvider.tsx:35-54 | the action `executeCommand` takes for a command string; `ParseCommandSpec` states each case |
| AgentPlatform.Remainder | src/context/AgentPlatformProvider.tsx:37 | `command.slice(1).trim()`; `AskedQuery` states the split that follows |
| AgentPlatform.AskedQuery | src/context/AgentPlatformProvider.tsx:37-38 | the split of a trimmed remainder into a space-free name and a query |
| AgentPlatform.FindAgentSpec | src/context/AgentPlatformProvider.tsx:59-62 | the lookup finds the first agent whose name or role matches regardless of case, and nothing exactly when none does |
| AgentPlatform.FindAgent | src/context/AgentPlatformProvider.tsx:59-62 | the agent `queryAgent` looks up by name or role; `FindAgentSpec` states which one it finds |
| AgentPlatform.Answers | src/context/AgentPlatformProvider.tsx:59-62 | the `find` test: name or role equal to the asked name regardless of case; `FindAgentSpec` states it |
| AgentPlatform.QueryResult | src/context/AgentPlatformProvider.tsx:56-104 | what one `queryAgent` call records and answers, given the render-time active agent and the call's four clock readings; `QueryResultSpec` states the routing and recording, `QueryStamps` the ids and timestamps |
| AgentPlatform.LookupExamples | src/context/AgentPlatformProvider.tsx:59-62 | `MBA` finds the MBA agent by role and `riley` finds the CRA agent by name |
| AgentPlatform.LookupMba | src/context/AgentPlatformProvider.tsx:59-62 | asking for `MBA` finds the MBA agent by its role |
| AgentPlatform.LookupRiley | src/context/AgentPlatformProvider.tsx:59-62 | asking for `riley` finds the CRA agent by its name |
| AgentPlatform.QueryResultSpec | src/context/AgentPlatformProvider.tsx:56-104 | without a match or an active agent at the last render nothing is recorded and the no-agent text is returned; a match is selected and answers, otherwise the render-time active agent answers and nothing is selected: the question is recorded first, then the answer tagged with its role, and only an answer earns the point; a throwing agent yields the apology |
| AgentPlatform.QueryStamps | src/context/AgentPlatformProvider.tsx:73-94 | the question's id is its `Date.now()` in decimal and its timestamp the separate `new Date()`; the answer's id is one past its own reading, so the two ids differ when the readings agree |
| AgentPlatform.Question | src/context/AgentPlatformProvider.tsx:73-78 | the user's message a query records; `QueryStamps` states its id and timestamp |
| AgentPlatform.Answer | src/context/AgentPlatformProvider.tsx:89-95 | the agent's message an answer records; `QueryStamps` states its id and timestamp |
| AgentPlatform.Provider.constructor | src/context/AgentPlatformProvider.tsx:20-21 | sidebar and omnibox start closed |
| AgentPlatform.Provider.OnKeyDown | src/context/AgentPlatformProvider.tsx:24-33 | Ctrl+K or Meta+K, and nothing else, flips the omnibox |
| AgentPlatform.Provider.OpenAgentSidebar | src/context/AgentPlatformProvider.tsx:109 | the sidebar opens |
| AgentPlatform.Provider.CloseAgentSidebar | src/context/AgentPlatformProvider.tsx:110 | the sidebar closes |
| AgentPlatform.Provider.ToggleAgentSidebar | src/context/AgentPlatformProvider.tsx:111 | the sidebar flips |
| AgentPlatform.Provider.OpenOmnibox | src/context/AgentPlatformProvider.tsx:112 | the omnibox opens |
| AgentPlatform.Provider.CloseOmnibox | src/context/AgentPlatformProvider.tsx:113 | the omnibox closes |
| AgentPlatform.Provider.QueryAgent | src/context/AgentPlatformProvider.tsx:56-104 | a match becomes the store's active agent, otherwise the store's choice stays; history and score change as the query's result says, with the render-time active agent as the fallback; goals, projects and research are untouched; the score stays in range |
| AgentPlatform.Provider.ExecuteCommand | src/context/AgentPlatformProvider.tsx:35-54 | the command is parsed as above; a question is put to the agent and then the sidebar opens; other commands touch neither store nor flags |
| Omnibox.SuggestionsSpec | src/modules/agentic/Omnibox.tsx:32-51 | after `?` the agent entries containing the lower-cased rest, after `/` the route entries containing the lower-cased input (ignoring case), in list order; otherwise none |
| Omnibox.Suggestions | src/modules/agentic/Omnibox.tsx:32-51 | the suggestion list for an input; `SuggestionsSpec` states which entries it offers |
| Omnibox.BareQuestionMarkOffersAll | src/modules/agentic/Omnibox.tsx:33-41 | a bare `?` offers all five agents |
| Omnibox.EntryCommand | src/modules/agentic/Omnibox.tsx:93-94 | an entry's command is the text before its ` - ` description |
| Omnibox.AgentEntryCommand | src/modules/agentic/Omnibox.tsx:36-40 | each agent entry stands for its `?role` command |
| Omnibox.RouteEntryCommand | src/modules/agentic/Omnibox.tsx:44-46 | each route entry stands for its `/route` command |
| Omnibox.CommandShapes | src/modules/agentic/Omnibox.tsx:36-46 | every command is its prefix and one space-free word |
| Omnibox.CommandOf | src/modules/agentic/Omnibox.tsx:93-94 | the command a clicked suggestion stands for; `EntryCommand` states it is the text before the description |
| Omnibox.AgentSuggestionAsksHello | src/modules/agentic/Omnibox.tsx:92-95 | clicking an agent suggestion asks that agent `Hello` |
| Omnibox.RouteSuggestionNavigates | src/modules/agentic/Omnibox.tsx:92-95 | clicking `/browser` opens the browser demo; the other routes set the hash |
| Omnibox.EnterCommand | src/modules/agentic/Omnibox.tsx:71-76 | Enter runs the input exactly when it is non-empty; other keys run nothing |
| Omnibox.ClosesOn | src/modules/agentic/Omnibox.tsx:15-30 | whether the palette's own keydown handler calls `onClose`; `ClosesOnSpec` states the keys |
| Omnibox.ClosesOnSpec | src/modules/agentic/Omnibox.tsx:15-30 | only an open palette closes; Escape and Ctrl+K close it, no other key does, and Meta+K is not among them |
| Omnibox.AfterKeyDown | src/context/AgentPlatformProvider.tsx:24-33 | the palette's state after one keydown, the provider's toggle applied before the palette's `closeOmnibox`; `KeyDownFlipsOrCloses` states it |
| Omnibox.KeyDownFlipsOrCloses | src/context/AgentPlatformProvider.tsx:24-33 | with both listeners, Ctrl+K and Meta+K flip the palette, Escape closes it, and every other key leaves it alone |
| Boardroom.FlatTagsMembers | src/modules/agentic/Boardroom.tsx:10 | the flattened tags are exactly the tags of some item |
| Boardroom.AllTagsSpec | src/modules/agentic/Boardroom.tsx:10 | every tag of any item appears exactly once, in the order of its first use |
| Boardroom.AllTags | src/modules/agentic/Boardroom.tsx:10 | the de-duplicated tag list; `AllTagsSpec` states its members and order |
| Boardroom.FilteredItemsSpec | src/modules/agentic/Boardroom.tsx:12-17 | an item is shown exactly when it matches the search and the tag selection; order is kept; an empty query and no selection show everything |
| Boardroom.FilteredItems | src/modules/agentic/Boardroom.tsx:12-17 | the items shown for a search and a tag selection; `FilteredItemsSpec` states which |
| Boardroom.ToggleTagSpec | src/modules/agentic/Boardroom.tsx:45-51 | a toggle flips that tag's membership and keeps the others; no duplicates are created; toggling a new tag twice restores the selection |
| Boardroom.ToggleTag | src/modules/agentic/Boardroom.tsx:45-51 | a tag click on the selection; `ToggleTagSpec` states how membership changes |
| Lists.DedupeFirstOccurrenceOrder | src/modules/agentic/Boardroom.tsx:10 | `Array.from(new Set(xs))` lists each element at its first occurrence's turn |

## Left out

- Concurrency and timing. Promises, `await`, `setTimeout`/`setInterval` and the simulated delays are not modelled as time. Each async operation is one atomic step, and its outcome is a parameter. An interleaving the source allows can be replayed as a sequence of steps (`EventsGateway.LateCloseAfterReconnect` is one), but the model says nothing about which orders occur.
- The network, WebSocket and `JSON.parse` are parameters: `Outcome` for a request, `parsed` for a message, and `constructionFails` for `new WebSocket`. The `Content-Type` headers and the 5-second probe timeout are not modelled.
- BrowserControl.BrowserController: the React life cycle is not modelled:
  - effect ordering, unmounting, stale closures (`navigate` reads `state` as captured);
  - live-mode teardown with a socket url never calling the data source's `cleanup` (src/hooks/useBrowserController.ts:112-116).
  The controller is handed a typed `BrowserEvent`. The TypeScript cast of the gateway's raw payload to that type is not modelled.
- BrowserControl.BrowserController.LoadInitialTabs: the transient `connecting` status of the remote source is not observed. The status the source reports afterwards is a parameter.
- Aliasing. The demo source's `fetchTabs` hands out a shallow copy whose tab objects are shared. The reducer writes into `newTabs[0]` (src/hooks/useBrowserController.ts:40), which is shared with the previous state. The demo source also rewrites its tab objects in place (src/services/DemoDataSource.ts:85-99), objects that the controller may be holding as well. The model treats tabs as values, so it does not capture a write reaching the controller's list through such sharing.
- TabNormalizer.NormalizeTab: a truthy non-string field is stored as its `String()` text, not as the raw value. Flags are stored as booleans by truthiness, where JavaScript keeps the truthy value itself. Only truthiness is ever read downstream.
- Numbers are integers. Floating point, `NaN` and the text of non-integer numbers are not modelled.
- Strings. Case mapping is ASCII-only, and the length of a word is counted in UTF-16 code units over the characters used. `encodeURIComponent` and the URL parser's hostname are parameters.
- The default tab icon is the literal character sequence found in the TypeScript files (`ðŸŒ`), as written there.
- Console logging is not modelled, including `CoFounderAgent.updateVestedInterest`, which only logs (src/agents/CoFounderAgent.ts:60-62).
- AgentBackendService is not part of this model. Its calls are recorded in `records`, and its own failures are swallowed, so they never surface.
- AgentContext is never passed to the reply rules, since none of them reads it. `queryAgent` does build it (src/context/AgentPlatformProvider.tsx:82-87).
- AgentStore.Store holds agent profiles rather than agent objects, so an agent's `isActive` flag is not reachable through the store. No code path sets that flag through the store.
- AgentPlatform.Provider.QueryAgent: none of the five reply rules can throw. The `catch` branch is therefore reachable only through the `fails` parameter.
- MbaAgent.Reply: stated with implications rather than if-and-only-if. The two topical templates cannot be proved distinct from the default for every topic.
- JSX rendering, styling and the rest of the components (PartnerHub, AgentSidebar, BrowserMockup, pages) are not modelled. Neither are the Supabase functions and `BrowserAgentBridge`.
