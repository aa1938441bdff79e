/**
 * The command palette: suggestions for what has been typed, the command a
 * suggestion stands for, and when the palette runs a command or closes.
 */
module Omnibox {
  import opened Wrappers
  import Strings
  import Lists
  import AgentPlatform

  const AgentEntries := [
    "?mba - Financial analysis",
    "?cfa - Investment research",
    "?cra - Risk assessment",
    "?pba - Requirements analysis",
    "?cofounder - Strategic planning"]

  const RouteEntries := [
    "/partner-hub - Open Partner Hub",
    "/boardroom - Open Research Repository",
    "/browser - Open Browser Demo"]

  /**
   * The suggestions for an input. After `?` the lower-cased remainder is
   * looked for in the entry text as written; after `/` the whole input and
   * the entry are both lower-cased; anything else has no suggestions.
   */
  function Suggestions(input: string): seq<string>
  {
    if Strings.StartsWith(input, "?") then
      var query := Strings.AsciiLower(input[1..]);
      Lists.Filter(AgentEntries, (s: string) => Strings.Contains(s, query))
    else if Strings.StartsWith(input, "/") then
      Lists.Filter(RouteEntries, (s: string) => Strings.Contains(Strings.AsciiLower(s), Strings.AsciiLower(input)))
    else []
  }

  /**
   * The suggestions are the matching entries of the list the prefix selects,
   * in the list's order, and only those.
   */
  lemma SuggestionsSpec(input: string)
    ensures Strings.StartsWith(input, "?") ==>
      && Lists.IsSubsequence(Suggestions(input), AgentEntries)
      && forall s :: s in Suggestions(input) <==> s in AgentEntries && Strings.Contains(s, Strings.AsciiLower(input[1..]))
    ensures !Strings.StartsWith(input, "?") && Strings.StartsWith(input, "/") ==>
      && Lists.IsSubsequence(Suggestions(input), RouteEntries)
      && forall s :: s in Suggestions(input) <==> s in RouteEntries && Strings.Contains(Strings.AsciiLower(s), Strings.AsciiLower(input))
    ensures !Strings.StartsWith(input, "?") && !Strings.StartsWith(input, "/") ==> Suggestions(input) == []
  {
    if Strings.StartsWith(input, "?") {
      var p := (s: string) => Strings.Contains(s, Strings.AsciiLower(input[1..]));
      Lists.FilterIsSubsequence(AgentEntries, p);
      Lists.FilterMembers(AgentEntries, p);
    } else if Strings.StartsWith(input, "/") {
      var p := (s: string) => Strings.Contains(Strings.AsciiLower(s), Strings.AsciiLower(input));
      Lists.FilterIsSubsequence(RouteEntries, p);
      Lists.FilterMembers(RouteEntries, p);
    }
  }

  /** A bare `?` offers every agent. */
  lemma BareQuestionMarkOffersAll()
    ensures Suggestions("?") == AgentEntries
  {
    var p := (s: string) => Strings.Contains(s, Strings.AsciiLower(""));
    assert forall i :: 0 <= i < |AgentEntries| ==> p(AgentEntries[i]);
    Lists.FilterKeepsAll(AgentEntries, p);
  }

  /** `suggestion.split(' -')[0]`: the command a suggestion stands for. */
  function CommandOf(suggestion: string): string
  {
    Strings.BeforeFirst(suggestion, " -")
  }

  /** An entry's command is the text before its ` - ` description. */
  lemma EntryCommand(entry: string, command: string, description: string)
    requires entry == command + " -" + description && ' ' !in command
    ensures CommandOf(entry) == command
  {
    Strings.BeforeFirstOf(command, " -", description);
  }

  const AgentCommands := ["?mba", "?cfa", "?cra", "?pba", "?cofounder"]
  const RouteCommands := ["/partner-hub", "/boardroom", "/browser"]

  /** Each agent entry stands for its `?role` command. */
  lemma AgentEntryCommand(i: nat)
    requires i < |AgentEntries|
    ensures CommandOf(AgentEntries[i]) == AgentCommands[i]
  {
    if i == 0 {
      MbaEntryCommand();
    } else if i == 1 {
      CfaEntryCommand();
    } else if i == 2 {
      CraEntryCommand();
    } else if i == 3 {
      PbaEntryCommand();
    } else {
      CoFounderEntryCommand();
    }
  }

  /** Each route entry stands for its `/route` command. */
  lemma RouteEntryCommand(i: nat)
    requires i < |RouteEntries|
    ensures CommandOf(RouteEntries[i]) == RouteCommands[i]
  {
    if i == 0 {
      PartnerHubEntryCommand();
    } else if i == 1 {
      BoardroomEntryCommand();
    } else {
      BrowserEntryCommand();
    }
  }

  lemma MbaEntryCommand()
    ensures CommandOf(AgentEntries[0]) == "?mba"
  {
    EntryCommand(AgentEntries[0], "?mba", " Financial analysis");
  }

  lemma CfaEntryCommand()
    ensures CommandOf(AgentEntries[1]) == "?cfa"
  {
    EntryCommand(AgentEntries[1], "?cfa", " Investment research");
  }

  lemma CraEntryCommand()
    ensures CommandOf(AgentEntries[2]) == "?cra"
  {
    EntryCommand(AgentEntries[2], "?cra", " Risk assessment");
  }

  lemma PbaEntryCommand()
    ensures CommandOf(AgentEntries[3]) == "?pba"
  {
    EntryCommand(AgentEntries[3], "?pba", " Requirements analysis");
  }

  lemma CoFounderEntryCommand()
    ensures CommandOf(AgentEntries[4]) == "?cofounder"
  {
    EntryCommand(AgentEntries[4], "?cofounder", " Strategic planning");
  }

  lemma PartnerHubEntryCommand()
    ensures CommandOf(RouteEntries[0]) == "/partner-hub"
  {
    EntryCommand(RouteEntries[0], "/partner-hub", " Open Partner Hub");
  }

  lemma BoardroomEntryCommand()
    ensures CommandOf(RouteEntries[1]) == "/boardroom"
  {
    EntryCommand(RouteEntries[1], "/boardroom", " Open Research Repository");
  }

  lemma BrowserEntryCommand()
    ensures CommandOf(RouteEntries[2]) == "/browser"
  {
    EntryCommand(RouteEntries[2], "/browser", " Open Browser Demo");
  }

  const AgentNames := ["mba", "cfa", "cra", "pba", "cofounder"]
  const RouteNames := ["partner-hub", "boardroom", "browser"]

  /** A word with no white space in it, so `trim` and `split(' ')` leave it whole. */
  predicate PlainWord(w: string)
  {
    w != "" && forall k :: 0 <= k < |w| ==> !Strings.IsJsWhitespace(w[k])
  }

  lemma CommandShapes(i: nat)
    ensures i < |AgentCommands| ==> AgentCommands[i] == "?" + AgentNames[i] && PlainWord(AgentNames[i])
    ensures i < |RouteCommands| ==> RouteCommands[i] == "/" + RouteNames[i] && PlainWord(RouteNames[i])
  {
  }

  /** Picking an agent suggestion asks that agent "Hello". */
  lemma AgentSuggestionAsksHello(i: nat, encode: string -> string)
    requires i < |AgentEntries|
    ensures AgentPlatform.ParseCommand(CommandOf(AgentEntries[i]), encode) == AgentPlatform.AskAgent(AgentNames[i], AgentPlatform.DefaultQuery)
  {
    AgentEntryCommand(i);
    CommandShapes(i);
    BareQuestion(AgentNames[i], encode);
  }

  /** Picking a route suggestion opens the browser demo for `/browser` and sets the hash to any other route. */
  lemma RouteSuggestionNavigates(i: nat, encode: string -> string)
    requires i < |RouteEntries|
    ensures AgentPlatform.ParseCommand(CommandOf(RouteEntries[i]), encode) ==
      if i == 2 then AgentPlatform.GoToHref(AgentPlatform.DemoHref) else AgentPlatform.SetHash(RouteNames[i])
  {
    RouteEntryCommand(i);
    CommandShapes(i);
    PlainRoute(RouteNames[i], encode);
    assert (RouteNames[i] == "browser" || RouteNames[i] == "browser-demo") <==> i == 2;
  }

  /** `?name` with a plain word asks that agent the default question. */
  lemma BareQuestion(name: string, encode: string -> string)
    requires PlainWord(name)
    ensures AgentPlatform.ParseCommand("?" + name, encode) == AgentPlatform.AskAgent(name, AgentPlatform.DefaultQuery)
  {
    var command := "?" + name;
    assert command[1..] == name;
    assert command[0] == '?' && Strings.StartsWith(command, "?");
    Strings.TrimUntouched(name);
    assert ' ' !in name by {
      assert Strings.IsJsWhitespace(' ');
    }
    AgentPlatform.ParseCommandSpec(command, encode);
  }

  /** `/route` with a plain word goes to that route, or to the browser demo. */
  lemma PlainRoute(route: string, encode: string -> string)
    requires PlainWord(route)
    ensures AgentPlatform.ParseCommand("/" + route, encode) ==
      if route == "browser" || route == "browser-demo" then AgentPlatform.GoToHref(AgentPlatform.DemoHref) else AgentPlatform.SetHash(route)
  {
    var command := "/" + route;
    assert command[1..] == route;
    assert command[0] == '/' && Strings.StartsWith(command, "/") && !Strings.StartsWith(command, "?");
    Strings.TrimUntouched(route);
    AgentPlatform.ParseCommandSpec(command, encode);
  }

  /** `Enter` runs the input, and only a non-empty one; every other key runs nothing. */
  function EnterCommand(key: string, input: string): (command: Option<string>)
    ensures command.Some? <==> key == "Enter" && input != ""
    ensures command.Some? ==> command.value == input
  {
    if key == "Enter" && input != "" then Some(input) else None
  }

  /** While the palette is open, Escape or Ctrl+K closes it; while closed no handler is installed. */
  predicate ClosesOn(isOpen: bool, key: string, ctrlKey: bool)
  {
    isOpen && ((ctrlKey && key == "k") || key == "Escape")
  }

  /**
   * The palette's handler calls `onClose` only while it is open, and then
   * exactly for Escape and for Ctrl+K; Meta+K is not among its keys.
   */
  lemma ClosesOnSpec(isOpen: bool, key: string, ctrlKey: bool)
    ensures !isOpen ==> !ClosesOn(isOpen, key, ctrlKey)
    ensures isOpen && key == "Escape" ==> ClosesOn(isOpen, key, ctrlKey)
    ensures isOpen && ctrlKey && key == "k" ==> ClosesOn(isOpen, key, ctrlKey)
    ensures ClosesOn(isOpen, key, ctrlKey) ==> key == "Escape" || (ctrlKey && key == "k")
    ensures !ClosesOn(isOpen, "k", false)
  {
  }

  /**
   * Whether the palette is open after one keydown while both window
   * listeners may run. The provider's listener is installed at mount and
   * the palette's only once it opens, so the provider's toggle is queued
   * first and the palette's `closeOmnibox` second, and React applies them
   * in that order.
   */
  function AfterKeyDown(isOpen: bool, key: string, ctrlKey: bool, metaKey: bool): bool
  {
    var toggled := if (ctrlKey || metaKey) && key == "k" then !isOpen else isOpen;
    if ClosesOn(isOpen, key, ctrlKey) then false else toggled
  }

  /**
   * With both listeners, Ctrl+K and Meta+K each flip the palette (the two
   * closes of an open one agree), Escape closes it, and every other key
   * leaves it as it was.
   */
  lemma KeyDownFlipsOrCloses(isOpen: bool, key: string, ctrlKey: bool, metaKey: bool)
    ensures (ctrlKey || metaKey) && key == "k" ==> AfterKeyDown(isOpen, key, ctrlKey, metaKey) == !isOpen
    ensures key == "Escape" ==> !AfterKeyDown(isOpen, key, ctrlKey, metaKey)
    ensures !((ctrlKey || metaKey) && key == "k") && key != "Escape" ==> AfterKeyDown(isOpen, key, ctrlKey, metaKey) == isOpen
  {
  }
}
