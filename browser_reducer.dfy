/**
 * The tab-state reducer of the browser controller: eight actions over
 * `{tabs, addressBar, isLoading, connectionStatus}`, the initial state, the
 * mapping from typed events to actions, and the invariants "at most one
 * active tab, exactly one when there are tabs" and "the address bar shows the
 * active tab's url".
 */
module BrowserReducer {
  import opened Wrappers
  import opened BrowserTypes
  import opened TabList
  import Lists

  datatype Mode = Demo | Live

  datatype Action =
    | SetTabs(tabs: seq<Tab>)
    | AddTab(tab: Tab)
    | RemoveTab(id: string)
    | UpdateTab(id: string, updates: TabPatch)
    | SetAddressBar(url: string)
    | SetLoading(loading: bool)
    | SetConnectionStatus(status: ConnectionStatus)
    | SwitchTab(id: string)

  function Reduce(s: BrowserState, a: Action): BrowserState
  {
    match a
    case SetTabs(tabs) => s.(tabs := tabs)
    case AddTab(t) => s.(tabs := Deactivated(s.tabs) + [t], addressBar := t.url)
    case RemoveTab(id) =>
      var kept := WithoutId(s.tabs, id);
      var removed := FindId(s.tabs, id);
      if removed.Some? && removed.value.isActive && |kept| > 0 then
        s.(tabs := kept[0 := kept[0].(isActive := true)], addressBar := kept[0].url)
      else
        s.(tabs := kept)
    case UpdateTab(id, p) => s.(tabs := MergeInto(s.tabs, id, p))
    case SetAddressBar(url) => s.(addressBar := url)
    case SetLoading(b) => s.(isLoading := b)
    case SetConnectionStatus(st) => s.(connectionStatus := st)
    case SwitchTab(id) =>
      var found := FindId(s.tabs, id);
      s.(tabs := ActivatedOnly(s.tabs, id),
         addressBar := if found.Some? && found.value.url != "" then found.value.url else s.addressBar)
  }

  /** Applies the actions in order, as successive dispatches do. */
  function ReduceAll(s: BrowserState, actions: seq<Action>): BrowserState
    decreases |actions|
  {
    if actions == [] then s else ReduceAll(Reduce(s, actions[0]), actions[1..])
  }

  /** The state the hook starts in: no tabs, empty address bar, connected only in demo mode. */
  function InitialState(mode: Mode): (s: BrowserState)
    ensures s.tabs == [] && s.addressBar == "" && !s.isLoading
    ensures s.connectionStatus == Connected <==> mode == Demo
    ensures s.connectionStatus != Connected ==> s.connectionStatus == Disconnected
  {
    BrowserState([], "", false, if mode == Demo then Connected else Disconnected)
  }

  /** The derived `activeTab`. */
  function ActiveTab(s: BrowserState): Option<Tab>
  {
    FirstActive(s.tabs)
  }

  /** Distinct ids and the single-active rule. */
  predicate Consistent(s: BrowserState)
  {
    UniqueIds(s.tabs) && SingleActive(s.tabs)
  }

  /** The address bar shows the url of the active tab whenever there is one. */
  predicate AddressFollowsActive(s: BrowserState)
  {
    ActiveTab(s).Some? ==> s.addressBar == ActiveTab(s).value.url
  }

  /** The conditions under which an action keeps `Consistent`. */
  predicate Admissible(s: BrowserState, a: Action)
  {
    match a
    case SetTabs(tabs) => UniqueIds(tabs) && SingleActive(tabs)
    case AddTab(t) => t.isActive && !HasId(s.tabs, t.id)
    case UpdateTab(_, p) => p.id.None? && p.isActive.None?
    case SwitchTab(id) => HasId(s.tabs, id)
    case _ => true
  }

  predicate AllAdmissible(s: BrowserState, actions: seq<Action>)
    decreases |actions|
  {
    actions == [] || (Admissible(s, actions[0]) && AllAdmissible(Reduce(s, actions[0]), actions[1..]))
  }

  /** ADD_TAB: every old tab deactivated and kept in order, the payload last, the address bar its url. */
  lemma AddTabEffect(s: BrowserState, t: Tab)
    ensures var r := Reduce(s, AddTab(t));
      && |r.tabs| == |s.tabs| + 1
      && r.tabs[|s.tabs|] == t
      && (forall i :: 0 <= i < |s.tabs| ==> r.tabs[i] == s.tabs[i].(isActive := false))
      && r.addressBar == t.url
      && r.isLoading == s.isLoading && r.connectionStatus == s.connectionStatus
    ensures t.isActive ==> SingleActive(Reduce(s, AddTab(t)).tabs)
    ensures t.isActive ==> ActiveTab(Reduce(s, AddTab(t))) == Some(t)
  {
    if t.isActive {
      AppendActive(s.tabs, t);
    }
  }

  /**
   * REMOVE_TAB: the tabs with the id are dropped and the rest kept in order;
   * if the removed tab was active and tabs remain, the first survivor becomes
   * active and the address bar takes its url; otherwise only the list changes.
   */
  lemma RemoveTabEffect(s: BrowserState, id: string)
    ensures var r := Reduce(s, RemoveTab(id));
      && |r.tabs| == |WithoutId(s.tabs, id)|
      && (forall t :: t in r.tabs ==> t.id != id)
      && (forall i :: 1 <= i < |r.tabs| ==> r.tabs[i] == WithoutId(s.tabs, id)[i])
      && r.isLoading == s.isLoading && r.connectionStatus == s.connectionStatus
    ensures var r := Reduce(s, RemoveTab(id));
      var removed := FindId(s.tabs, id);
      if removed.Some? && removed.value.isActive && r.tabs != [] then
        r.tabs[0] == WithoutId(s.tabs, id)[0].(isActive := true) && r.addressBar == r.tabs[0].url
      else
        r.tabs == WithoutId(s.tabs, id) && r.addressBar == s.addressBar
    ensures !HasId(s.tabs, id) ==> Reduce(s, RemoveTab(id)) == s
  {
    var kept := WithoutId(s.tabs, id);
    var r := Reduce(s, RemoveTab(id));
    FindIdSpec(s.tabs, id);
    WithoutIdMembers(s.tabs, id);
    if !HasId(s.tabs, id) {
      Lists.FilterKeepsAll(s.tabs, (t: Tab) => t.id != id);
    }
    forall t | t in r.tabs
      ensures t.id != id
    {
      var i :| 0 <= i < |r.tabs| && r.tabs[i] == t;
      assert t.id == kept[i].id && kept[i] in kept;
    }
  }

  /** Removing the only tab leaves the address bar showing the removed tab's url. */
  lemma RemoveLastTabLeavesStaleAddress(s: BrowserState)
    requires |s.tabs| == 1
    ensures Reduce(s, RemoveTab(s.tabs[0].id)).tabs == []
    ensures Reduce(s, RemoveTab(s.tabs[0].id)).addressBar == s.addressBar
  {
    var id := s.tabs[0].id;
    assert s.tabs == [s.tabs[0]];
    assert WithoutId(s.tabs, id) == [] by {
      assert s.tabs[1..] == [];
      assert Lists.Filter(s.tabs[1..], (t: Tab) => t.id != id) == [];
    }
  }

  /**
   * SWITCH_TAB: exactly the tabs with the id become active, the rest of each
   * tab is kept; the address bar takes the matched tab's url unless there is
   * no match or the url is empty.
   */
  lemma SwitchTabEffect(s: BrowserState, id: string)
    ensures var r := Reduce(s, SwitchTab(id));
      && |r.tabs| == |s.tabs|
      && (forall i :: 0 <= i < |s.tabs| ==> (r.tabs[i].isActive <==> s.tabs[i].id == id))
      && (forall i :: 0 <= i < |s.tabs| ==> r.tabs[i].(isActive := s.tabs[i].isActive) == s.tabs[i])
      && r.isLoading == s.isLoading && r.connectionStatus == s.connectionStatus
    ensures FindId(s.tabs, id).Some? && FindId(s.tabs, id).value.url != "" ==>
      && Reduce(s, SwitchTab(id)).addressBar == FindId(s.tabs, id).value.url
      && exists i :: 0 <= i < |s.tabs| && s.tabs[i] == FindId(s.tabs, id).value && s.tabs[i].id == id
                     && forall j :: 0 <= j < i ==> s.tabs[j].id != id
    ensures !(FindId(s.tabs, id).Some? && FindId(s.tabs, id).value.url != "") ==>
      Reduce(s, SwitchTab(id)).addressBar == s.addressBar
    ensures !HasId(s.tabs, id) ==> !SomeActive(Reduce(s, SwitchTab(id)).tabs)
    ensures !HasId(s.tabs, id) ==> Reduce(s, SwitchTab(id)).addressBar == s.addressBar
    ensures UniqueIds(s.tabs) && HasId(s.tabs, id) ==> SingleActive(Reduce(s, SwitchTab(id)).tabs)
  {
    ActivatedOnlyCases(s.tabs, id);
    FindIdSpec(s.tabs, id);
    var found := FindId(s.tabs, id);
    if found.Some? {
      var i := IndexOfId(s.tabs, id).value;
      assert s.tabs[i] == found.value && s.tabs[i].id == id;
      assert forall j :: 0 <= j < i ==> s.tabs[j].id != id;
    }
  }

  /** UPDATE_TAB: length and order kept, the patch merged only into tabs with the id. */
  lemma UpdateTabEffect(s: BrowserState, id: string, p: TabPatch)
    ensures var r := Reduce(s, UpdateTab(id, p));
      && |r.tabs| == |s.tabs|
      && (forall i :: 0 <= i < |s.tabs| && s.tabs[i].id == id ==> r.tabs[i] == Merge(s.tabs[i], p))
      && (forall i :: 0 <= i < |s.tabs| && s.tabs[i].id != id ==> r.tabs[i] == s.tabs[i])
      && r.addressBar == s.addressBar && r.isLoading == s.isLoading
      && r.connectionStatus == s.connectionStatus
    ensures !HasId(s.tabs, id) ==> Reduce(s, UpdateTab(id, p)) == s
  {
    MergeIntoSpec(s.tabs, id, p);
  }

  /** The four setters each change exactly their own field. */
  lemma SettersChangeOneField(s: BrowserState, tabs: seq<Tab>, url: string, b: bool, st: ConnectionStatus)
    ensures Reduce(s, SetTabs(tabs)) == BrowserState(tabs, s.addressBar, s.isLoading, s.connectionStatus)
    ensures Reduce(s, SetAddressBar(url)) == BrowserState(s.tabs, url, s.isLoading, s.connectionStatus)
    ensures Reduce(s, SetLoading(b)) == BrowserState(s.tabs, s.addressBar, b, s.connectionStatus)
    ensures Reduce(s, SetConnectionStatus(st)) == BrowserState(s.tabs, s.addressBar, s.isLoading, st)
  {
  }

  lemma AddTabConsistent(s: BrowserState, t: Tab)
    requires Consistent(s) && Admissible(s, AddTab(t))
    ensures Consistent(Reduce(s, AddTab(t)))
  {
    var r := Reduce(s, AddTab(t));
    AppendActive(s.tabs, t);
    assert forall i :: 0 <= i < |s.tabs| ==> r.tabs[i].id == s.tabs[i].id;
    assert r.tabs[|s.tabs|] == t;
  }

  lemma RemoveTabConsistent(s: BrowserState, id: string)
    requires Consistent(s)
    ensures Consistent(Reduce(s, RemoveTab(id)))
  {
    var r := Reduce(s, RemoveTab(id));
    WithoutIdActive(s.tabs, id);
    var kept := WithoutId(s.tabs, id);
    var removed := FindId(s.tabs, id);
    if removed.Some? && removed.value.isActive && |kept| > 0 {
      assert r.tabs[0].isActive;
      assert forall i :: 1 <= i < |kept| ==> r.tabs[i] == kept[i] && !r.tabs[i].isActive;
      assert forall i :: 0 <= i < |kept| ==> r.tabs[i].id == kept[i].id;
    }
  }

  /** Every admissible action keeps distinct ids and the single-active rule. */
  lemma ReducePreservesConsistent(s: BrowserState, a: Action)
    requires Consistent(s) && Admissible(s, a)
    ensures Consistent(Reduce(s, a))
  {
    match a
    case SetTabs(_) =>
    case AddTab(t) => AddTabConsistent(s, t);
    case RemoveTab(id) => RemoveTabConsistent(s, id);
    case UpdateTab(id, p) => MergeIntoKeepsFlags(s.tabs, id, p);
    case SetAddressBar(_) =>
    case SetLoading(_) =>
    case SetConnectionStatus(_) =>
    case SwitchTab(id) => ActivatedOnlyCases(s.tabs, id);
  }

  /** The invariant holds after any sequence of admissible dispatches. */
  lemma {:induction false} ReduceAllPreservesConsistent(s: BrowserState, actions: seq<Action>)
    requires Consistent(s) && AllAdmissible(s, actions)
    ensures Consistent(ReduceAll(s, actions))
    decreases |actions|
  {
    if actions != [] {
      ReducePreservesConsistent(s, actions[0]);
      ReduceAllPreservesConsistent(Reduce(s, actions[0]), actions[1..]);
    }
  }

  /** Adding an active tab, switching to a tab with a url or removing the active tab all re-establish the address bar. */
  lemma AddressFollowsAfterTabActions(s: BrowserState, a: Action)
    requires Consistent(s) && Admissible(s, a)
    requires a.AddTab? || a.RemoveTab? || (a.SwitchTab? && FindId(s.tabs, a.id).value.url != "")
    requires a.RemoveTab? ==> AddressFollowsActive(s)
    ensures AddressFollowsActive(Reduce(s, a))
  {
    var r := Reduce(s, a);
    ReducePreservesConsistent(s, a);
    FirstActiveSpec(r.tabs);
    match a
    case AddTab(t) =>
      AppendActive(s.tabs, t);
    case RemoveTab(id) =>
      WithoutIdActive(s.tabs, id);
      FindIdSpec(s.tabs, id);
      WithoutIdMembers(s.tabs, id);
      var kept := WithoutId(s.tabs, id);
      var removed := FindId(s.tabs, id);
      if !(removed.Some? && removed.value.isActive) && ActiveTab(r).Some? {
        FirstActiveSpec(s.tabs);
        var t := ActiveTab(r).value;
        assert t in kept;
        var i :| 0 <= i < |s.tabs| && s.tabs[i] == t;
        assert ActiveTab(s) == Some(t);
      } else if removed.Some? && removed.value.isActive && |kept| > 0 {
        assert r.tabs[0].isActive;
      }
    case SwitchTab(id) =>
      ActivatedOnlyCases(s.tabs, id);
      FindIdSpec(s.tabs, id);
      var k := IndexOfId(s.tabs, id).value;
      assert r.tabs[k].isActive;
      assert r.tabs[k].url == s.tabs[k].url;
  }

  /** An update that touches the url of the active tab leaves the address bar behind. */
  lemma UpdateUrlCanBreakAddressFollows()
    ensures var t := Tab("1", "Home", "a.com", "*", true, None, None);
      var s := BrowserState([t], "a.com", false, Connected);
      var r := Reduce(s, UpdateTab("1", EmptyPatch.(url := Some("b.com"))));
      AddressFollowsActive(s) && !AddressFollowsActive(r)
  {
    var t := Tab("1", "Home", "a.com", "*", true, None, None);
    var s := BrowserState([t], "a.com", false, Connected);
    var r := Reduce(s, UpdateTab("1", EmptyPatch.(url := Some("b.com"))));
    MergeIntoSpec(s.tabs, "1", EmptyPatch.(url := Some("b.com")));
    FirstActiveSpec(s.tabs);
    FirstActiveSpec(r.tabs);
    assert r.tabs[0].isActive && r.tabs[0].url == "b.com";
  }

  /** `handleBrowserEvent`: each event kind becomes one action. */
  function EventAction(e: BrowserEvent): Action
  {
    match e
    case TabsUpdated(tabs) => SetTabs(tabs)
    case TabCreated(tab) => AddTab(tab)
    case TabClosed(id) => RemoveTab(id)
    case TabSwitched(id) => SwitchTab(id)
    case NavigationChanged(id, url, title) =>
      UpdateTab(id, EmptyPatch.(url := Some(url),
                                title := if title.Some? && title.value != "" then title else None))
    case AudioChanged(id, muted) => UpdateTab(id, EmptyPatch.(isMuted := Some(muted)))
    case StatusChanged(st) => SetConnectionStatus(st)
  }

  /** A navigation event carries its title into the tab exactly when the title is non-empty. */
  lemma NavigationEventTitle(s: BrowserState, id: string, url: string, title: Option<string>)
    requires UniqueIds(s.tabs)
    ensures var r := Reduce(s, EventAction(NavigationChanged(id, url, title)));
      forall i :: 0 <= i < |s.tabs| && s.tabs[i].id == id ==>
        && r.tabs[i].url == url
        && (r.tabs[i].title == (if title.Some? && title.value != "" then title.value else s.tabs[i].title))
        && r.tabs[i].isActive == s.tabs[i].isActive
  {
    var p := EmptyPatch.(url := Some(url), title := if title.Some? && title.value != "" then title else None);
    MergeIntoSpec(s.tabs, id, p);
  }

  /** Closing, navigation, audio and status events keep the invariant whatever their contents. */
  lemma EventsPreserveConsistent(s: BrowserState, e: BrowserEvent)
    requires Consistent(s)
    requires e.TabClosed? || e.NavigationChanged? || e.AudioChanged? || e.StatusChanged?
    ensures Consistent(Reduce(s, EventAction(e)))
    ensures e.AudioChanged? ==>
      forall i :: 0 <= i < |s.tabs| && s.tabs[i].id == e.tabId ==>
        Reduce(s, EventAction(e)).tabs[i].isMuted == Some(e.muted)
    ensures e.StatusChanged? ==> Reduce(s, EventAction(e)) == s.(connectionStatus := e.status)
  {
    ReducePreservesConsistent(s, EventAction(e));
    if e.AudioChanged? {
      MergeIntoSpec(s.tabs, e.tabId, EmptyPatch.(isMuted := Some(e.muted)));
    }
  }
}
