/** The data model of the browser view: tabs, the browser state, commands and typed events. */
module BrowserTypes {
  import opened Wrappers

  datatype ConnectionStatus = Connected | Connecting | Disconnected

  /** One open page. `hasAudio` and `isMuted` are optional fields. */
  datatype Tab = Tab(
    id: string,
    title: string,
    url: string,
    icon: string,
    isActive: bool,
    hasAudio: Option<bool>,
    isMuted: Option<bool>)

  /** `Partial<Tab>`: the fields an update carries. */
  datatype TabPatch = TabPatch(
    id: Option<string>,
    title: Option<string>,
    url: Option<string>,
    icon: Option<string>,
    isActive: Option<bool>,
    hasAudio: Option<bool>,
    isMuted: Option<bool>)

  const EmptyPatch := TabPatch(None, None, None, None, None, None, None)

  /** `{ ...t, ...p }`: every field the patch carries overrides the tab's. */
  function Merge(t: Tab, p: TabPatch): Tab
  {
    Tab(p.id.GetOr(t.id), p.title.GetOr(t.title), p.url.GetOr(t.url), p.icon.GetOr(t.icon),
        p.isActive.GetOr(t.isActive),
        if p.hasAudio.Some? then p.hasAudio else t.hasAudio,
        if p.isMuted.Some? then p.isMuted else t.isMuted)
  }

  datatype BrowserState = BrowserState(
    tabs: seq<Tab>,
    addressBar: string,
    isLoading: bool,
    connectionStatus: ConnectionStatus)

  /** The typed events the controller handles (`BrowserEvent` in the program). */
  datatype BrowserEvent =
    | TabsUpdated(tabs: seq<Tab>)
    | TabCreated(tab: Tab)
    | TabClosed(tabId: string)
    | TabSwitched(tabId: string)
    | NavigationChanged(tabId: string, url: string, title: Option<string>)
    | AudioChanged(tabId: string, muted: bool)
    | StatusChanged(status: ConnectionStatus)

  datatype NavigationCommand = NavigationCommand(url: string, tabId: Option<string>)

  datatype TabCommand = TabCommand(id: Option<string>, url: Option<string>)

  datatype AudioCommand = AudioCommand(tabId: string, muted: bool)
}
