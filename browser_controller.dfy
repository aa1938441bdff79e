/**
 * The browser controller: it owns the reducer state, forwards each command
 * to the data source, and in demo mode mirrors a successful command into the
 * state with one dispatch (in live mode the state changes only through the
 * server's events). Each awaited data-source call is a parameter giving what
 * the call produced; each method dispatches the actions the program
 * dispatches, in order, and its contract names that action list.
 */
module BrowserControl {
  import opened Wrappers
  import opened BrowserTypes
  import opened TabList
  import opened BrowserReducer
  import Remote
  import DemoData
  import EventsGateway

  /** A title update scheduled by a demo navigation, to run a second later. */
  datatype TitleTimer = TitleTimer(tabId: string, url: string)

  const LoadingTitle := "Loading..."
  const TitleDelay := 1000

  lemma {:induction false} ReduceAllSnoc(s: BrowserState, actions: seq<Action>, a: Action)
    ensures ReduceAll(s, actions + [a]) == Reduce(ReduceAll(s, actions), a)
    decreases |actions|
  {
    if actions == [] {
      assert [] + [a] == [a];
      assert [a][1..] == [];
    } else {
      assert (actions + [a])[0] == actions[0];
      assert (actions + [a])[1..] == actions[1..] + [a];
      ReduceAllSnoc(Reduce(s, actions[0]), actions[1..], a);
    }
  }

  lemma {:induction false} ReduceAllAppend(s: BrowserState, xs: seq<Action>, ys: seq<Action>)
    ensures ReduceAll(s, xs + ys) == ReduceAll(ReduceAll(s, xs), ys)
    decreases |xs|
  {
    if xs == [] {
      assert xs + ys == ys;
    } else {
      assert (xs + ys)[0] == xs[0];
      assert (xs + ys)[1..] == xs[1..] + ys;
      ReduceAllAppend(Reduce(s, xs[0]), xs[1..], ys);
    }
  }

  /** `loadInitialTabs`: loading on, the fetched list and its active url and the source's status, loading off. */
  function LoadActions(fetched: Result<seq<Tab>, Remote.Failure>, status: ConnectionStatus): seq<Action>
  {
    [SetLoading(true)]
    + (match fetched
       case Ok(tabs) =>
         [SetTabs(tabs)]
         + (match FirstActive(tabs) case Some(t) => [SetAddressBar(t.url)] case None => [])
         + [SetConnectionStatus(status)]
       case Err(_) => [SetConnectionStatus(Disconnected)])
    + [SetLoading(false)]
  }

  /** After a command the state follows only in demo mode and only when the call succeeded. */
  function CommandActions(mode: Mode, succeeded: bool, a: Action): seq<Action>
  {
    if mode == Demo && succeeded then [a] else []
  }

  /** The provisional update a successful demo navigation makes to the active tab. */
  function LoadingPatch(url: string): TabPatch
  {
    EmptyPatch.(url := Some(url), title := Some(LoadingTitle))
  }

  /** `navigate` once an active tab is known: loading on, the address bar set before the call, loading off. */
  function NavigateActions(mode: Mode, url: string, active: Tab, succeeded: bool): seq<Action>
  {
    [SetLoading(true), SetAddressBar(url)]
    + CommandActions(mode, succeeded, UpdateTab(active.id, LoadingPatch(url)))
    + [SetLoading(false)]
  }

  /** The title the timer writes: the parsed hostname, or the url when parsing throws. */
  function TitleAction(timer: TitleTimer, hostnameOf: string -> Option<string>): Action
  {
    UpdateTab(timer.tabId, EmptyPatch.(title := Some(DemoData.TitleFor(timer.url, hostnameOf))))
  }

  /**
   * A successful load shows the fetched list, the active tab's url (the old
   * address bar when none is active) and the source's status; a failed one
   * keeps the list and address bar and reports `disconnected`. Loading is off
   * afterwards either way.
   */
  lemma LoadActionsSpec(s: BrowserState, fetched: Result<seq<Tab>, Remote.Failure>, status: ConnectionStatus)
    ensures var r := ReduceAll(s, LoadActions(fetched, status));
      && !r.isLoading
      && (fetched.Ok? ==> r.tabs == fetched.value && r.connectionStatus == status)
      && (fetched.Ok? && FirstActive(fetched.value).Some? ==> r.addressBar == FirstActive(fetched.value).value.url)
      && (fetched.Ok? && FirstActive(fetched.value).None? ==> r.addressBar == s.addressBar)
      && (fetched.Err? ==> r.tabs == s.tabs && r.addressBar == s.addressBar && r.connectionStatus == Disconnected)
    ensures fetched.Ok? && Consistent(BrowserState(fetched.value, "", false, status)) ==>
      var r := ReduceAll(s, LoadActions(fetched, status));
      Consistent(r) && AddressFollowsActive(r)
  {
    match fetched {
      case Ok(tabs) =>
        var s2 := Reduce(Reduce(s, SetLoading(true)), SetTabs(tabs));
        var s3 := match FirstActive(tabs) case Some(t) => Reduce(s2, SetAddressBar(t.url)) case None => s2;
        LoadedSteps(s, tabs, status, s2, s3);
        FirstActiveSpec(tabs);
      case Err(_) =>
        LoadFailedSteps(s, fetched, status);
    }
  }

  /** The reductions `loadInitialTabs` makes after a successful fetch, one dispatch at a time. */
  lemma LoadedSteps(s0: BrowserState, tabs: seq<Tab>, status: ConnectionStatus, s2: BrowserState, s3: BrowserState)
    requires s2 == Reduce(Reduce(s0, SetLoading(true)), SetTabs(tabs))
    requires s3 == match FirstActive(tabs) case Some(t) => Reduce(s2, SetAddressBar(t.url)) case None => s2
    ensures ReduceAll(s0, LoadActions(Ok(tabs), status)) == Reduce(Reduce(s3, SetConnectionStatus(status)), SetLoading(false))
  {
    var s1 := Reduce(s0, SetLoading(true));
    var addr := match FirstActive(tabs) case Some(t) => [SetAddressBar(t.url)] case None => [];
    var mid := [SetTabs(tabs)] + addr + [SetConnectionStatus(status)];
    assert LoadActions(Ok(tabs), status) == [SetLoading(true)] + mid + [SetLoading(false)];
    ReduceAllAppend(s0, [SetLoading(true)] + mid, [SetLoading(false)]);
    ReduceAllAppend(s0, [SetLoading(true)], mid);
    ReduceAllAppend(s1, [SetTabs(tabs)] + addr, [SetConnectionStatus(status)]);
    ReduceAllAppend(s1, [SetTabs(tabs)], addr);
    assert ReduceAll(s0, [SetLoading(true)]) == s1;
    assert ReduceAll(s1, [SetTabs(tabs)]) == s2;
    assert ReduceAll(s2, addr) == s3;
  }

  /** The reductions `loadInitialTabs` makes after a failed fetch. */
  lemma LoadFailedSteps(s0: BrowserState, fetched: Result<seq<Tab>, Remote.Failure>, status: ConnectionStatus)
    requires fetched.Err?
    ensures ReduceAll(s0, LoadActions(fetched, status)) ==
      Reduce(Reduce(Reduce(s0, SetLoading(true)), SetConnectionStatus(Disconnected)), SetLoading(false))
  {
    var a1, a2, a3 := SetLoading(true), SetConnectionStatus(Disconnected), SetLoading(false);
    assert LoadActions(fetched, status) == [a1, a2] + [a3];
    assert [a1, a2] == [a1] + [a2] && [a1] == [] + [a1];
    ReduceAllSnoc(s0, [], a1);
    ReduceAllSnoc(s0, [a1], a2);
    ReduceAllSnoc(s0, [a1, a2], a3);
  }

  /**
   * A command changes the state only in demo mode after success, and then by
   * exactly its one action; in live mode the state waits for the server.
   */
  lemma CommandActionsSpec(s: BrowserState, mode: Mode, succeeded: bool, a: Action)
    ensures mode == Demo && succeeded ==> ReduceAll(s, CommandActions(mode, succeeded, a)) == Reduce(s, a)
    ensures mode == Live || !succeeded ==> ReduceAll(s, CommandActions(mode, succeeded, a)) == s
  {
    if mode == Demo && succeeded {
      assert CommandActions(mode, succeeded, a)[1..] == [];
    }
  }

  /**
   * A navigation leaves loading off and the address bar on the new url even
   * when the call fails; only a successful demo navigation touches the tabs,
   * giving the active tab the url and the provisional title.
   */
  lemma NavigateActionsSpec(s: BrowserState, mode: Mode, url: string, active: Tab, succeeded: bool)
    ensures var r := ReduceAll(s, NavigateActions(mode, url, active, succeeded));
      && !r.isLoading && r.addressBar == url && r.connectionStatus == s.connectionStatus
      && (mode == Demo && succeeded ==> r.tabs == MergeInto(s.tabs, active.id, LoadingPatch(url)))
      && (mode == Live || !succeeded ==> r.tabs == s.tabs)
  {
    var cmd := CommandActions(mode, succeeded, UpdateTab(active.id, LoadingPatch(url)));
    var s2 := Reduce(Reduce(s, SetLoading(true)), SetAddressBar(url));
    assert NavigateActions(mode, url, active, succeeded) == [SetLoading(true), SetAddressBar(url)] + cmd + [SetLoading(false)];
    ReduceAllAppend(s, [SetLoading(true), SetAddressBar(url)] + cmd, [SetLoading(false)]);
    ReduceAllAppend(s, [SetLoading(true), SetAddressBar(url)], cmd);
    assert [SetLoading(true), SetAddressBar(url)] == [SetLoading(true)] + [SetAddressBar(url)];
    assert [SetLoading(true)] == [] + [SetLoading(true)];
    ReduceAllSnoc(s, [], SetLoading(true));
    ReduceAllSnoc(s, [SetLoading(true)], SetAddressBar(url));
    CommandActionsSpec(s2, mode, succeeded, UpdateTab(active.id, LoadingPatch(url)));
    var s3 := ReduceAll(s2, cmd);
    assert ReduceAll(s3, [SetLoading(false)]) == Reduce(s3, SetLoading(false));
  }

  /**
   * Under distinct ids the controller's tab list and the simulated source's
   * agree after closing: filtering the id out and splicing its first position
   * out coincide, and both re-activate the first survivor under the same
   * condition.
   */
  lemma CloseMirrorsDemo(s: BrowserState, id: string)
    requires UniqueIds(s.tabs)
    ensures Reduce(s, RemoveTab(id)).tabs == DemoData.Closed(s.tabs, id)
  {
    FindIdSpec(s.tabs, id);
    if HasId(s.tabs, id) {
      var i := IndexOfId(s.tabs, id).value;
      WithoutIdSplice(s.tabs, id, i);
    } else {
      Lists.FilterKeepsAll(s.tabs, (t: Tab) => t.id != id);
    }
  }

  /** Under distinct ids, muting by patch and muting the first match in place agree. */
  lemma MuteMirrorsDemo(s: BrowserState, command: AudioCommand)
    requires UniqueIds(s.tabs)
    ensures Reduce(s, UpdateTab(command.tabId, EmptyPatch.(isMuted := Some(command.muted)))).tabs
      == DemoData.MutedTabs(s.tabs, command)
  {
    var p := EmptyPatch.(isMuted := Some(command.muted));
    MergeIntoSpec(s.tabs, command.tabId, p);
    DemoData.MutedTabsSpec(s.tabs, command);
    FindIdSpec(s.tabs, command.tabId);
    var r := MergeInto(s.tabs, command.tabId, p);
    var d := DemoData.MutedTabs(s.tabs, command);
    if HasId(s.tabs, command.tabId) {
      var k := IndexOfId(s.tabs, command.tabId).value;
      forall j | 0 <= j < |s.tabs|
        ensures r[j] == d[j]
      {
        if j == k {
          assert r[j] == Merge(s.tabs[j], p);
        } else {
          assert s.tabs[j].id != command.tabId;
        }
      }
    }
  }

  /**
   * Under the invariant, a successful demo navigation followed by its title
   * timer leaves the controller's tabs equal to the simulated source's, which
   * rewrote the same tab at once.
   */
  lemma NavigateMirrorsDemo(s: BrowserState, url: string, hostnameOf: string -> Option<string>)
    requires Consistent(s) && ActiveTab(s).Some?
    ensures var active := ActiveTab(s).value;
      ReduceAll(s, NavigateActions(Demo, url, active, true) + [TitleAction(TitleTimer(active.id, url), hostnameOf)]).tabs
        == DemoData.Navigated(s.tabs, url, hostnameOf)
  {
    var active := ActiveTab(s).value;
    var acts := NavigateActions(Demo, url, active, true);
    var timer := TitleAction(TitleTimer(active.id, url), hostnameOf);
    ReduceAllSnoc(s, acts, timer);
    NavigateActionsSpec(s, Demo, url, active, true);
    var mid := ReduceAll(s, acts);
    var title := DemoData.TitleFor(url, hostnameOf);
    var p2 := EmptyPatch.(title := Some(title));
    MergeIntoSpec(s.tabs, active.id, LoadingPatch(url));
    MergeIntoSpec(mid.tabs, active.id, p2);
    FirstActiveSpec(s.tabs);
    var k := IndexOfActive(s.tabs).value;
    assert s.tabs[k] == active;
    var r := Reduce(mid, timer).tabs;
    var d := DemoData.Navigated(s.tabs, url, hostnameOf);
    assert |r| == |d|;
    forall j | 0 <= j < |s.tabs|
      ensures r[j] == d[j]
    {
      if j != k {
        assert s.tabs[j].id != active.id;
      }
    }
  }

  /**
   * Every controller flow keeps distinct ids and the single-active rule, given
   * a consistent fetched list, a fresh active created tab and a known switch
   * target.
   */
  lemma FlowsKeepConsistent(s: BrowserState, mode: Mode, succeeded: bool, created: Tab, id: string,
                            command: AudioCommand, url: string, timer: TitleTimer, hostnameOf: string -> Option<string>)
    requires Consistent(s)
    ensures created.isActive && !HasId(s.tabs, created.id) ==>
      Consistent(ReduceAll(s, CommandActions(mode, succeeded, AddTab(created))))
    ensures Consistent(ReduceAll(s, CommandActions(mode, succeeded, RemoveTab(id))))
    ensures HasId(s.tabs, id) ==> Consistent(ReduceAll(s, CommandActions(mode, succeeded, SwitchTab(id))))
    ensures Consistent(ReduceAll(s, CommandActions(mode, succeeded, UpdateTab(command.tabId, EmptyPatch.(isMuted := Some(command.muted))))))
    ensures ActiveTab(s).Some? ==> Consistent(ReduceAll(s, NavigateActions(mode, url, ActiveTab(s).value, succeeded)))
    ensures Consistent(Reduce(s, TitleAction(timer, hostnameOf)))
  {
    CommandActionsSpec(s, mode, succeeded, AddTab(created));
    CommandActionsSpec(s, mode, succeeded, RemoveTab(id));
    CommandActionsSpec(s, mode, succeeded, SwitchTab(id));
    var mute := UpdateTab(command.tabId, EmptyPatch.(isMuted := Some(command.muted)));
    CommandActionsSpec(s, mode, succeeded, mute);
    if created.isActive && !HasId(s.tabs, created.id) {
      ReducePreservesConsistent(s, AddTab(created));
    }
    ReducePreservesConsistent(s, RemoveTab(id));
    if HasId(s.tabs, id) {
      ReducePreservesConsistent(s, SwitchTab(id));
    }
    ReducePreservesConsistent(s, mute);
    ReducePreservesConsistent(s, TitleAction(timer, hostnameOf));
    if ActiveTab(s).Some? {
      var active := ActiveTab(s).value;
      NavigateActionsSpec(s, mode, url, active, succeeded);
      MergeIntoKeepsFlags(s.tabs, active.id, LoadingPatch(url));
    }
  }

  class BrowserController {
    const mode: Mode
    /** Whether a data source was created (`dataSourceRef.current` is set). */
    const hasSource: bool
    var state: BrowserState
    /** Title updates scheduled by demo navigations and not yet run. */
    var titleTimers: seq<TitleTimer>

    /**
     * The initial state, and the data source the mount effect creates: the
     * simulated one in demo mode, the remote one in live mode when an api url
     * is given, none otherwise.
     */
    constructor (mode: Mode, apiUrl: Option<string>)
      ensures this.mode == mode
      ensures hasSource <==> mode == Demo || (apiUrl.Some? && apiUrl.value != "")
      ensures state == InitialState(mode) && titleTimers == []
    {
      this.mode := mode;
      hasSource := mode == Demo || (apiUrl.Some? && apiUrl.value != "");
      state := InitialState(mode);
      titleTimers := [];
    }

    method Dispatch(a: Action)
      modifies this`state
      ensures state == Reduce(old(state), a)
    {
      state := Reduce(state, a);
    }

    /** The fetch's outcome and the source's status afterwards are parameters. */
    method LoadInitialTabs(fetched: Result<seq<Tab>, Remote.Failure>, status: ConnectionStatus)
      modifies this`state
      ensures state == if hasSource then ReduceAll(old(state), LoadActions(fetched, status)) else old(state)
    {
      if !hasSource {
        return;
      }
      Dispatch(SetLoading(true));
      if fetched.Ok? {
        var tabs := fetched.value;
        Dispatch(SetTabs(tabs));
        ghost var afterTabs := state;
        var active := FirstActive(tabs);
        if active.Some? {
          Dispatch(SetAddressBar(active.value.url));
        }
        LoadedSteps(old(state), tabs, status, afterTabs, state);
        Dispatch(SetConnectionStatus(status));
      } else {
        LoadFailedSteps(old(state), fetched, status);
        Dispatch(SetConnectionStatus(Disconnected));
      }
      Dispatch(SetLoading(false));
    }

    /** `createTab(url)`; `created` is what the source's call produced. */
    method CreateTab(url: Option<string>, created: Result<Tab, Remote.Failure>) returns (command: Option<TabCommand>)
      modifies this`state
      ensures command == if hasSource then Some(TabCommand(None, url)) else None
      ensures state == if hasSource && created.Ok? then ReduceAll(old(state), CommandActions(mode, true, AddTab(created.value))) else old(state)
    {
      if !hasSource {
        return None;
      }
      command := Some(TabCommand(None, url));
      if created.Ok? {
        CommandActionsSpec(state, mode, true, AddTab(created.value));
        if mode == Demo {
          Dispatch(AddTab(created.value));
        }
      }
    }

    method CloseTab(tabId: string, result: Result<(), Remote.Failure>)
      modifies this`state
      ensures state == if hasSource then ReduceAll(old(state), CommandActions(mode, result.Ok?, RemoveTab(tabId))) else old(state)
    {
      if !hasSource {
        return;
      }
      CommandActionsSpec(state, mode, result.Ok?, RemoveTab(tabId));
      if result.Ok? && mode == Demo {
        Dispatch(RemoveTab(tabId));
      }
    }

    method SwitchTab(tabId: string, result: Result<(), Remote.Failure>)
      modifies this`state
      ensures state == if hasSource then ReduceAll(old(state), CommandActions(mode, result.Ok?, Action.SwitchTab(tabId))) else old(state)
    {
      if !hasSource {
        return;
      }
      CommandActionsSpec(state, mode, result.Ok?, Action.SwitchTab(tabId));
      if result.Ok? && mode == Demo {
        Dispatch(Action.SwitchTab(tabId));
      }
    }

    /**
     * `navigate(url)`: nothing without a source or an active tab; otherwise
     * the command names the active tab, and a successful demo navigation also
     * schedules the title timer.
     */
    method Navigate(url: string, result: Result<(), Remote.Failure>) returns (command: Option<NavigationCommand>)
      modifies this`state, this`titleTimers
      ensures !hasSource || ActiveTab(old(state)).None? ==>
        command.None? && state == old(state) && titleTimers == old(titleTimers)
      ensures hasSource && ActiveTab(old(state)).Some? ==>
        var active := ActiveTab(old(state)).value;
        && command == Some(NavigationCommand(url, Some(active.id)))
        && state == ReduceAll(old(state), NavigateActions(mode, url, active, result.Ok?))
        && titleTimers == old(titleTimers) + (if mode == Demo && result.Ok? then [TitleTimer(active.id, url)] else [])
    {
      if !hasSource {
        return None;
      }
      var activeTab := FirstActive(state.tabs);
      if activeTab.None? {
        return None;
      }
      var active := activeTab.value;
      command := Some(NavigationCommand(url, Some(active.id)));
      ghost var done: seq<Action> := [];
      Dispatch(SetLoading(true));
      ReduceAllSnoc(old(state), done, SetLoading(true));
      done := done + [SetLoading(true)];
      Dispatch(SetAddressBar(url));
      ReduceAllSnoc(old(state), done, SetAddressBar(url));
      done := done + [SetAddressBar(url)];
      if result.Ok? && mode == Demo {
        Dispatch(UpdateTab(active.id, LoadingPatch(url)));
        ReduceAllSnoc(old(state), done, UpdateTab(active.id, LoadingPatch(url)));
        done := done + [UpdateTab(active.id, LoadingPatch(url))];
        titleTimers := titleTimers + [TitleTimer(active.id, url)];
      }
      Dispatch(SetLoading(false));
      ReduceAllSnoc(old(state), done, SetLoading(false));
      done := done + [SetLoading(false)];
      assert done == NavigateActions(mode, url, active, result.Ok?);
    }

    /** The pending title timer at position `k` runs; the url parser is a parameter. */
    method FireTitleTimer(k: nat, hostnameOf: string -> Option<string>)
      requires k < |titleTimers|
      modifies this`state, this`titleTimers
      ensures state == Reduce(old(state), TitleAction(old(titleTimers)[k], hostnameOf))
      ensures titleTimers == old(titleTimers)[..k] + old(titleTimers)[k + 1..]
    {
      var timer := titleTimers[k];
      titleTimers := titleTimers[..k] + titleTimers[k + 1..];
      Dispatch(TitleAction(timer, hostnameOf));
    }

    method ToggleMute(tabId: string, muted: bool, result: Result<(), Remote.Failure>)
      modifies this`state
      ensures state == if hasSource
        then ReduceAll(old(state), CommandActions(mode, result.Ok?, UpdateTab(tabId, EmptyPatch.(isMuted := Some(muted)))))
        else old(state)
    {
      if !hasSource {
        return;
      }
      var a := UpdateTab(tabId, EmptyPatch.(isMuted := Some(muted)));
      CommandActionsSpec(state, mode, result.Ok?, a);
      if result.Ok? && mode == Demo {
        Dispatch(a);
      }
    }

    /** `handleBrowserEvent`, the gateway subscriber. */
    method HandleBrowserEvent(e: BrowserEvent)
      modifies this`state
      ensures state == Reduce(old(state), EventAction(e))
    {
      Dispatch(EventAction(e));
    }

    /**
     * `reconnect`, live mode only: the gateway, when there is one, is
     * disconnected and connected again, then the tabs are loaded afresh.
     */
    method Reconnect(gateway: EventsGateway.BrowserEventsGateway?, constructionFails: bool,
                     fetched: Result<seq<Tab>, Remote.Failure>, status: ConnectionStatus)
      modifies this`state, gateway
      ensures mode == Demo ==> state == old(state) && (gateway != null ==> gateway.State() == old(gateway.State()))
      ensures mode == Live ==>
        && state == (if hasSource then ReduceAll(old(state), LoadActions(fetched, status)) else old(state))
        && (gateway != null ==> gateway.State() == EventsGateway.ConnectStep(EventsGateway.DisconnectStep(old(gateway.State())), constructionFails))
    {
      if mode != Live {
        return;
      }
      if gateway != null {
        gateway.Disconnect();
        gateway.Connect(constructionFails);
      }
      LoadInitialTabs(fetched, status);
    }
  }
}
