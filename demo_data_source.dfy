/**
 * The in-memory simulated provider used by the demo page: a private tab list
 * that its operations rewrite in place. The simulated latency is not
 * modelled; `Date.now()` and the URL parser's `hostname` are parameters.
 */
module DemoData {
  import opened Wrappers
  import opened BrowserTypes
  import opened TabList
  import Strings

  const SeedTabs: seq<Tab> := [
    Tab("1", "IterativOne - Home", "iterativone.com", "\U{1F3E0}", true, None, None),
    Tab("2", "YouTube Music", "music.youtube.com", "\U{1F3B5}", false, Some(true), Some(false)),
    Tab("3", "Gmail", "mail.google.com", "\U{1F4E7}", false, None, None)
  ]

  const NewTabUrl := "iterativone.com/newtab"

  /** The tab `createTab` builds: its id is the decimal rendering of the clock reading. */
  function NewTab(command: TabCommand, now: nat): Tab
  {
    Tab(Strings.DecimalString(now), "New Tab",
        if command.url.Some? && command.url.value != "" then command.url.value else NewTabUrl,
        "\U{2728}", true, None, None)
  }

  /** The text handed to the URL parser: `https://` is prefixed unless the url starts with `http`. */
  function UrlToParse(url: string): string
  {
    if Strings.StartsWith(url, "http") then url else "https://" + url
  }

  /** The hostname of the parsed url, or the url itself when parsing throws (`None`). */
  function TitleFor(url: string, hostnameOf: string -> Option<string>): string
  {
    match hostnameOf(UrlToParse(url))
    case Some(h) => h
    case None => url
  }

  /** The list after `closeTab`: the first tab with the id spliced out, index 0 activated if it was active. */
  function Closed(tabs: seq<Tab>, id: string): seq<Tab>
  {
    match IndexOfId(tabs, id)
    case None => tabs
    case Some(i) =>
      var rest := tabs[..i] + tabs[i + 1..];
      if tabs[i].isActive && |rest| > 0 then rest[0 := rest[0].(isActive := true)] else rest
  }

  /** The list after `navigate`: the first active tab gets the url and its title. */
  function Navigated(tabs: seq<Tab>, url: string, hostnameOf: string -> Option<string>): seq<Tab>
  {
    match IndexOfActive(tabs)
    case None => tabs
    case Some(k) => tabs[k := tabs[k].(url := url, title := TitleFor(url, hostnameOf))]
  }

  /** The list after `toggleMute`: the first tab with the id gets the flag. */
  function MutedTabs(tabs: seq<Tab>, command: AudioCommand): seq<Tab>
  {
    match IndexOfId(tabs, command.tabId)
    case None => tabs
    case Some(k) => tabs[k := tabs[k].(isMuted := Some(command.muted))]
  }

  class DemoDataSource {
    var tabs: seq<Tab>

    constructor ()
      ensures tabs == SeedTabs
    {
      tabs := SeedTabs;
    }

    /** A copy of the list; the list itself is left as it is. */
    method FetchTabs() returns (r: seq<Tab>)
      ensures r == tabs
    {
      r := tabs;
    }

    method CreateTab(command: TabCommand, now: nat) returns (t: Tab)
      modifies this
      ensures t == NewTab(command, now)
      ensures tabs == Deactivated(old(tabs)) + [t]
      ensures SingleActive(tabs)
    {
      t := NewTab(command, now);
      tabs := Deactivated(tabs);
      tabs := tabs + [t];
      AppendActive(old(tabs), t);
    }

    method CloseTab(id: string)
      modifies this
      ensures tabs == Closed(old(tabs), id)
      ensures UniqueIds(old(tabs)) && SingleActive(old(tabs)) ==> UniqueIds(tabs) && SingleActive(tabs)
    {
      ClosedKeepsInvariant(tabs, id);
      var index := IndexOfId(tabs, id);
      if index.None? {
        return;
      }
      var i := index.value;
      var wasActive := tabs[i].isActive;
      tabs := tabs[..i] + tabs[i + 1..];
      if wasActive && |tabs| > 0 {
        tabs := tabs[0 := tabs[0].(isActive := true)];
      }
    }

    method SwitchTab(id: string)
      modifies this
      ensures tabs == ActivatedOnly(old(tabs), id)
    {
      tabs := ActivatedOnly(tabs, id);
    }

    /** `command.tabId` is not consulted: the first active tab is the one navigated. */
    method Navigate(command: NavigationCommand, hostnameOf: string -> Option<string>)
      modifies this
      ensures tabs == Navigated(old(tabs), command.url, hostnameOf)
    {
      var active := IndexOfActive(tabs);
      if active.Some? {
        var k := active.value;
        tabs := tabs[k := tabs[k].(url := command.url)];
        match hostnameOf(UrlToParse(command.url)) {
          case Some(h) => tabs := tabs[k := tabs[k].(title := h)];
          case None => tabs := tabs[k := tabs[k].(title := command.url)];
        }
      }
    }

    method ToggleMute(command: AudioCommand)
      modifies this
      ensures tabs == MutedTabs(old(tabs), command)
    {
      var index := IndexOfId(tabs, command.tabId);
      if index.Some? {
        var k := index.value;
        tabs := tabs[k := tabs[k].(isMuted := Some(command.muted))];
      }
    }

    method GetConnectionStatus() returns (status: ConnectionStatus)
      ensures status == Connected
    {
      status := Connected;
    }
  }

  /** Three seed tabs with distinct ids; only the first is active and only the second has audio. */
  lemma SeedTabsFacts()
    ensures |SeedTabs| == 3
    ensures SeedTabs[0].id == "1" && SeedTabs[1].id == "2" && SeedTabs[2].id == "3"
    ensures UniqueIds(SeedTabs) && SingleActive(SeedTabs)
    ensures forall i :: 0 <= i < |SeedTabs| ==> (SeedTabs[i].isActive <==> i == 0)
    ensures forall i :: 0 <= i < |SeedTabs| ==> (SeedTabs[i].hasAudio == Some(true) <==> i == 1)
    ensures FirstActive(SeedTabs) == Some(SeedTabs[0])
  {
    assert SeedTabs[0].isActive;
    FirstActiveSpec(SeedTabs);
  }

  /** The created tab is active, titled `New Tab`, and carries the requested url or the default one. */
  lemma NewTabFacts(command: TabCommand, now: nat)
    ensures var t := NewTab(command, now);
      && t.isActive && t.title == "New Tab"
      && (command.url.Some? && command.url.value != "" ==> t.url == command.url.value)
      && (command.url.None? || command.url.value == "" ==> t.url == NewTabUrl)
      && Strings.DecimalValue(t.id) == now
  {
    Strings.DecimalRoundTrip(now);
  }

  /**
   * `closeTab` with an unknown id changes nothing; otherwise exactly the first
   * tab with the id is removed, and only index 0 may change its flag, and only
   * when the removed tab was active.
   */
  lemma ClosedSpec(tabs: seq<Tab>, id: string)
    ensures !HasId(tabs, id) ==> Closed(tabs, id) == tabs
    ensures HasId(tabs, id) ==>
      var i := IndexOfId(tabs, id).value;
      var r := Closed(tabs, id);
      && tabs[i].id == id
      && (forall j :: 0 <= j < i ==> tabs[j].id != id)
      && |r| == |tabs| - 1
      && (forall j :: 0 <= j < |r| ==> r[j].(isActive := false) == (tabs[..i] + tabs[i + 1..])[j].(isActive := false))
      && (forall j :: 0 < j < |r| ==> r[j] == (tabs[..i] + tabs[i + 1..])[j])
      && (!tabs[i].isActive ==> r == tabs[..i] + tabs[i + 1..])
      && (tabs[i].isActive && |r| > 0 ==> r[0].isActive)
  {
    FindIdSpec(tabs, id);
  }

  /** Splicing index `i` out shifts the later tabs down by one and keeps ids distinct and at most one tab active. */
  lemma SpliceFacts(tabs: seq<Tab>, i: nat, rest: seq<Tab>)
    requires i < |tabs| && rest == tabs[..i] + tabs[i + 1..]
    ensures |rest| == |tabs| - 1
    ensures forall j :: 0 <= j < |rest| ==> rest[j] == tabs[if j < i then j else j + 1]
    ensures UniqueIds(tabs) ==> UniqueIds(rest)
    ensures AtMostOneActive(tabs) ==> AtMostOneActive(rest)
  {
    assert forall j :: 0 <= j < |rest| ==> rest[j] == tabs[if j < i then j else j + 1];
  }

  /** Closing keeps distinct ids and the single-active rule. */
  lemma ClosedKeepsInvariant(tabs: seq<Tab>, id: string)
    ensures UniqueIds(tabs) && SingleActive(tabs) ==> UniqueIds(Closed(tabs, id)) && SingleActive(Closed(tabs, id))
  {
    if UniqueIds(tabs) && SingleActive(tabs) && HasId(tabs, id) {
      FindIdSpec(tabs, id);
      var i := IndexOfId(tabs, id).value;
      var rest := tabs[..i] + tabs[i + 1..];
      SpliceKeepsInvariant(tabs, i, rest);
    }
  }

  /** The case analysis of `closeTab` once the position of the closed tab is known. */
  lemma SpliceKeepsInvariant(tabs: seq<Tab>, i: nat, rest: seq<Tab>)
    requires i < |tabs| && UniqueIds(tabs) && SingleActive(tabs)
    requires rest == tabs[..i] + tabs[i + 1..]
    ensures UniqueIds(rest)
    ensures tabs[i].isActive && |rest| > 0 ==>
      UniqueIds(rest[0 := rest[0].(isActive := true)]) && SingleActive(rest[0 := rest[0].(isActive := true)])
    ensures !(tabs[i].isActive && |rest| > 0) ==> SingleActive(rest)
  {
    SpliceFacts(tabs, i, rest);
    if tabs[i].isActive {
      SpliceDropsActive(tabs, i, rest);
      if |rest| > 0 {
        ActivateFirst(rest);
      }
    } else if |rest| > 0 {
      var a :| 0 <= a < |tabs| && tabs[a].isActive;
      assert a != i;
      assert rest[if a < i then a else a - 1].isActive;
    }
  }

  /** Splicing out the one active tab leaves none active. */
  lemma SpliceDropsActive(tabs: seq<Tab>, i: nat, rest: seq<Tab>)
    requires i < |tabs| && tabs[i].isActive && AtMostOneActive(tabs)
    requires rest == tabs[..i] + tabs[i + 1..]
    ensures forall j :: 0 <= j < |rest| ==> !rest[j].isActive
  {
    forall j | 0 <= j < |rest|
      ensures !rest[j].isActive
    {
      var k := if j < i then j else j + 1;
      assert rest[j] == tabs[k] && k != i;
    }
  }

  /** Activating the first tab of a list with none active gives exactly one active tab. */
  lemma ActivateFirst(rest: seq<Tab>)
    requires |rest| > 0 && UniqueIds(rest)
    requires forall j :: 0 <= j < |rest| ==> !rest[j].isActive
    ensures UniqueIds(rest[0 := rest[0].(isActive := true)])
    ensures SingleActive(rest[0 := rest[0].(isActive := true)])
  {
    var r := rest[0 := rest[0].(isActive := true)];
    assert forall j :: 0 <= j < |rest| ==> r[j].id == rest[j].id;
    assert forall j :: 0 < j < |r| ==> !r[j].isActive;
    assert r[0].isActive;
  }

  /** `navigate` rewrites only the first active tab, and only its url and title; with no active tab it does nothing. */
  lemma NavigatedSpec(tabs: seq<Tab>, url: string, hostnameOf: string -> Option<string>)
    ensures !SomeActive(tabs) ==> Navigated(tabs, url, hostnameOf) == tabs
    ensures SomeActive(tabs) ==>
      var k := IndexOfActive(tabs).value;
      var r := Navigated(tabs, url, hostnameOf);
      && tabs[k].isActive && (forall j :: 0 <= j < k ==> !tabs[j].isActive)
      && |r| == |tabs|
      && r[k] == tabs[k].(url := url, title := TitleFor(url, hostnameOf))
      && (forall j :: 0 <= j < |tabs| && j != k ==> r[j] == tabs[j])
  {
  }

  /** The title is the parser's hostname, or the raw url when the parser rejects the text. */
  lemma TitleForSpec(url: string, hostnameOf: string -> Option<string>)
    ensures hostnameOf(UrlToParse(url)).Some? ==> TitleFor(url, hostnameOf) == hostnameOf(UrlToParse(url)).value
    ensures hostnameOf(UrlToParse(url)).None? ==> TitleFor(url, hostnameOf) == url
    ensures Strings.StartsWith(url, "http") ==> UrlToParse(url) == url
    ensures !Strings.StartsWith(url, "http") ==> UrlToParse(url) == "https://" + url
  {
  }

  /** `toggleMute` sets the flag on the first tab with the id only; nothing else changes. */
  lemma MutedTabsSpec(tabs: seq<Tab>, command: AudioCommand)
    ensures !HasId(tabs, command.tabId) ==> MutedTabs(tabs, command) == tabs
    ensures HasId(tabs, command.tabId) ==>
      var k := IndexOfId(tabs, command.tabId).value;
      var r := MutedTabs(tabs, command);
      && |r| == |tabs|
      && (forall j :: 0 <= j < k ==> tabs[j].id != command.tabId)
      && r[k] == tabs[k].(isMuted := Some(command.muted))
      && (forall j :: 0 <= j < |tabs| && j != k ==> r[j] == tabs[j])
  {
    FindIdSpec(tabs, command.tabId);
  }
}
