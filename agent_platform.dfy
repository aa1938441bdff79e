/**
 * The agent platform provider: the command palette's command language
 * (`?agent query`, `/route`, anything else a web search), the agent lookup,
 * the question-and-answer sequence recorded in the store, and the sidebar
 * and omnibox flags. Clock readings, the random reply pick and
 * `encodeURIComponent` are parameters.
 */
module AgentPlatform {
  import opened Wrappers
  import opened AgentTypes
  import Strings
  import Lists
  import BaseAgent
  import AgentStore

  /** What a command does: ask an agent, load a page, or set the location hash. */
  datatype CommandAction =
    | AskAgent(agentName: string, query: string)
    | GoToHref(href: string)
    | SetHash(route: string)

  const DefaultQuery := "Hello"
  const DemoHref := "?demo=true"
  const SearchPrefix := "https://www.google.com/search?q="
  const NoAgentReply := "No active agent available"
  const ApologyReply := "Sorry, I encountered an error processing your request."

  /** `command.slice(1).trim()`. */
  function Remainder(command: string): string
    requires |command| >= 1
  {
    Strings.Trim(command[1..])
  }

  /** How `executeCommand` reads a command; `encode` is `encodeURIComponent`. */
  function ParseCommand(command: string, encode: string -> string): CommandAction
  {
    if Strings.StartsWith(command, "?") then
      var parts := Strings.Split(Remainder(command), ' ');
      var rest := Strings.Join(parts[1..], " ");
      AskAgent(parts[0], if rest != "" then rest else DefaultQuery)
    else if Strings.StartsWith(command, "/") then
      var route := Remainder(command);
      if route == "browser" || route == "browser-demo" then GoToHref(DemoHref) else SetHash(route)
    else GoToHref(SearchPrefix + encode(command))
  }

  /**
   * A `?` command names the agent by its first word and asks the rest: the
   * two, joined by a space, give back the trimmed remainder, and a bare name
   * asks "Hello". A `/` command goes to the browser demo for `browser` and
   * `browser-demo` and sets the hash to any other route. Everything else is
   * a web search for the encoded command.
   */
  lemma ParseCommandSpec(command: string, encode: string -> string)
    ensures Strings.StartsWith(command, "?") ==>
      var t := Remainder(command);
      var r := ParseCommand(command, encode);
      && r.AskAgent? && ' ' !in r.agentName && r.query != ""
      && (' ' in t ==> r.agentName + " " + r.query == t)
      && (' ' !in t ==> r.agentName == t && r.query == DefaultQuery)
    ensures !Strings.StartsWith(command, "?") && Strings.StartsWith(command, "/") ==>
      var route := Remainder(command);
      ParseCommand(command, encode) == if route == "browser" || route == "browser-demo" then GoToHref(DemoHref) else SetHash(route)
    ensures !Strings.StartsWith(command, "?") && !Strings.StartsWith(command, "/") ==>
      ParseCommand(command, encode) == GoToHref(SearchPrefix + encode(command))
  {
    if Strings.StartsWith(command, "?") {
      var t := Remainder(command);
      AskedQuery(t);
    }
  }

  /** The split of a trimmed remainder into an agent name and a query. */
  lemma AskedQuery(t: string)
    requires t == "" || !Strings.IsJsWhitespace(t[|t| - 1])
    ensures var parts := Strings.Split(t, ' ');
      var rest := Strings.Join(parts[1..], " ");
      && ' ' !in parts[0]
      && (' ' in t ==> rest != "" && parts[0] + " " + rest == t)
      && (' ' !in t ==> parts[0] == t && rest == "")
  {
    var parts := Strings.Split(t, ' ');
    Strings.JoinSplit(t, ' ');
    Strings.SplitFirst(t, ' ');
    if ' ' in t {
      var k := Strings.IndexOfChar(t, ' ');
      assert |parts| >= 2 by {
        assert parts[1..] == Strings.Split(t[k + 1..], ' ');
      }
      var rest := Strings.Join(parts[1..], " ");
      assert t == parts[0] + " " + rest;
      assert t[|parts[0]|] == ' ';
      assert Strings.IsJsWhitespace(t[|parts[0]|]) && !Strings.IsJsWhitespace(t[|t| - 1]);
    }
  }

  /** `a.name.toLowerCase() === agentName.toLowerCase() || a.role.toLowerCase() === agentName.toLowerCase()`. */
  predicate Answers(a: AgentProfile, agentName: string)
  {
    Strings.AsciiLower(a.name) == Strings.AsciiLower(agentName)
    || Strings.AsciiLower(RoleName(a.role)) == Strings.AsciiLower(agentName)
  }

  /** `agents.find(...)` by name or role. */
  function FindAgent(agents: seq<AgentProfile>, agentName: string): Option<AgentProfile>
  {
    Lists.Find(agents, (a: AgentProfile) => Answers(a, agentName))
  }

  /** The lookup finds the first agent answering to the name, and nothing exactly when none does. */
  lemma FindAgentSpec(agents: seq<AgentProfile>, agentName: string)
    ensures FindAgent(agents, agentName).None? <==> forall a :: a in agents ==> !Answers(a, agentName)
    ensures FindAgent(agents, agentName).Some? ==>
      exists i :: 0 <= i < |agents| && agents[i] == FindAgent(agents, agentName).value
        && Answers(agents[i], agentName) && forall j :: 0 <= j < i ==> !Answers(agents[j], agentName)
  {
    var p := (a: AgentProfile) => Answers(a, agentName);
    var idx := Lists.IndexWhere(agents, p);
    if idx.Some? {
      assert agents[idx.value] == FindAgent(agents, agentName).value;
    } else {
      forall a | a in agents ensures !Answers(a, agentName) {
        var i :| 0 <= i < |agents| && agents[i] == a;
        assert !p(agents[i]);
      }
    }
  }

  /** An agent answers to its role and to its name, whatever their case. */
  lemma LookupExamples()
    ensures FindAgent(AgentStore.Roster, "MBA") == Some(BaseAgent.ProfileOf(Mba))
    ensures FindAgent(AgentStore.Roster, "riley") == Some(BaseAgent.ProfileOf(Cra))
  {
    LookupMba();
    LookupRiley();
  }

  /** The first agent answering to a name is the one found. */
  lemma FindAgentAt(agents: seq<AgentProfile>, agentName: string, i: nat)
    requires i < |agents| && Answers(agents[i], agentName)
    requires forall j :: 0 <= j < i ==> !Answers(agents[j], agentName)
    ensures FindAgent(agents, agentName) == Some(agents[i])
  {
    var p := (a: AgentProfile) => Answers(a, agentName);
    assert p(agents[i]);
    assert forall j :: 0 <= j < i ==> !p(agents[j]);
  }

  lemma LookupMba()
    ensures FindAgent(AgentStore.Roster, "MBA") == Some(BaseAgent.ProfileOf(Mba))
  {
    var roster := AgentStore.Roster;
    assert roster[0].name == "Alex" && roster[0].role == CoFounder && roster[1].role == Mba;
    assert Strings.AsciiLower("MBA") == "mba";
    assert Strings.AsciiLower("mba") == "mba";
    assert Strings.AsciiLower("Alex") == "alex";
    assert Strings.AsciiLower("cofounder") == "cofounder";
    FindAgentAt(roster, "MBA", 1);
  }

  lemma LookupRiley()
    ensures FindAgent(AgentStore.Roster, "riley") == Some(BaseAgent.ProfileOf(Cra))
  {
    var roster := AgentStore.Roster;
    assert roster[0].name == "Alex" && roster[1].name == "Morgan" && roster[2].name == "Carter" && roster[3].name == "Riley";
    assert roster[0].role == CoFounder && roster[1].role == Mba && roster[2].role == Cfa && roster[3].role == Cra;
    assert Strings.AsciiLower("Alex") == "alex";
    assert Strings.AsciiLower("Morgan") == "morgan";
    assert Strings.AsciiLower("Carter") == "carter";
    assert Strings.AsciiLower("Riley") == "riley";
    assert Strings.AsciiLower("riley") == "riley";
    assert Strings.AsciiLower("cofounder") == "cofounder";
    assert Strings.AsciiLower("mba") == "mba";
    assert Strings.AsciiLower("cfa") == "cfa";
    FindAgentAt(roster, "riley", 3);
  }

  /** What one `queryAgent` call leaves behind. */
  datatype QueryEffect = QueryEffect(
    selected: Option<AgentProfile>,   // the agent passed to `setActiveAgent`, when one matched
    answering: Option<AgentProfile>,  // the agent the query goes to, when there is one
    appended: seq<Message>,           // messages added to the conversation, in order
    scored: bool,                     // whether the score was incremented by one
    reply: string)

  /**
   * The four clock readings of one `queryAgent` call: the `Date.now()` of
   * the question's id and the `new Date()` of its timestamp, then the same
   * two for the answer.
   */
  datatype QueryClock = QueryClock(askedId: nat, askedAt: nat, answeredId: nat, answeredAt: nat)

  /** The user's message a query records. */
  function Question(query: string, clock: QueryClock): Message
  {
    Message(Strings.DecimalString(clock.askedId), FromUser, query, clock.askedAt, None)
  }

  /** The agent's message an answer records. */
  function Answer(role: AgentRole, response: string, clock: QueryClock): Message
  {
    Message(Strings.DecimalString(clock.answeredId + 1), FromAgent, response, clock.answeredAt, Some(role))
  }

  /**
   * `queryAgent`: `rendered` is the `activeAgent` the provider read from
   * `useAgentStore()` when it last rendered, which the fallback uses even
   * when the store has changed since; `clock` holds the clock readings,
   * `choice` the random pick, `fails` whether `processMessage` threw.
   */
  function QueryResult(agents: seq<AgentProfile>, rendered: Option<AgentProfile>, agentName: string, query: string,
                       clock: QueryClock, choice: nat, fails: bool): QueryEffect
    requires choice < 4
  {
    var target := FindAgent(agents, agentName);
    if target.None? && rendered.None? then QueryEffect(None, None, [], false, NoAgentReply)
    else
      var agent := if target.Some? then target.value else rendered.value;
      var question := Question(query, clock);
      if fails then QueryEffect(target, Some(agent), [question], false, ApologyReply)
      else
        var response := BaseAgent.GenerateResponse(agent.role, query, choice);
        var answer := Answer(agent.role, response, clock);
        QueryEffect(target, Some(agent), [question, answer], true, response)
  }

  /**
   * Without a matching agent or a rendered active one nothing is recorded.
   * Otherwise the matching agent is made active and answers, or else the
   * rendered active agent answers and the store's choice is left alone: the
   * question is recorded first, then (unless the agent threw) its answer,
   * tagged with the agent's role, and only an answer earns the point.
   */
  lemma QueryResultSpec(agents: seq<AgentProfile>, rendered: Option<AgentProfile>, agentName: string, query: string,
                        clock: QueryClock, choice: nat, fails: bool)
    requires choice < 4
    ensures var q := QueryResult(agents, rendered, agentName, query, clock, choice, fails);
      var target := FindAgent(agents, agentName);
      && (target.None? && rendered.None? <==> q.reply == NoAgentReply && q.appended == [])
      && (target.None? && rendered.None? ==> q.answering.None? && !q.scored)
      && q.selected == target
      && (target.Some? ==> q.answering == target)
      && (target.None? ==> q.answering == rendered)
      && (q.appended != [] ==> q.answering.Some? && q.appended[0].role == FromUser && q.appended[0].content == query)
      && (q.scored <==> |q.appended| == 2)
      && (|q.appended| == 2 ==>
            var agent := q.answering.value;
            && q.appended[1].role == FromAgent && q.appended[1].content == q.reply
            && q.appended[1].agentRole == Some(agent.role)
            && q.reply == BaseAgent.GenerateResponse(agent.role, query, choice))
      && (q.appended != [] && fails ==> |q.appended| == 1 && q.reply == ApologyReply)
  {
  }

  /**
   * The question's id is its `Date.now()` reading in decimal and its
   * timestamp the separate `new Date()`; the answer's id is one past its own
   * `Date.now()` reading, so the two ids differ even when both readings agree.
   */
  lemma QueryStamps(agents: seq<AgentProfile>, rendered: Option<AgentProfile>, agentName: string, query: string,
                    clock: QueryClock, choice: nat, fails: bool)
    requires choice < 4
    ensures var q := QueryResult(agents, rendered, agentName, query, clock, choice, fails);
      && (q.appended != [] ==> q.appended[0].id == Strings.DecimalString(clock.askedId) && q.appended[0].timestamp == clock.askedAt)
      && (|q.appended| == 2 ==>
            && q.appended[1].id == Strings.DecimalString(clock.answeredId + 1) && q.appended[1].timestamp == clock.answeredAt
            && (clock.askedId == clock.answeredId ==> q.appended[0].id != q.appended[1].id))
  {
    var q := QueryResult(agents, rendered, agentName, query, clock, choice, fails);
    if |q.appended| == 2 && clock.askedId == clock.answeredId {
      Strings.DecimalRoundTrip(clock.askedId);
      Strings.DecimalRoundTrip(clock.answeredId + 1);
    }
  }

  class Provider {
    var isAgentSidebarOpen: bool
    var isOmniboxOpen: bool

    constructor ()
      ensures !isAgentSidebarOpen && !isOmniboxOpen
    {
      isAgentSidebarOpen := false;
      isOmniboxOpen := false;
    }

    /** The window key handler: Ctrl+K or Meta+K flips the omnibox, any other key does nothing. */
    method OnKeyDown(key: string, ctrlKey: bool, metaKey: bool) returns (handled: bool)
      modifies this`isOmniboxOpen
      ensures handled <==> (ctrlKey || metaKey) && key == "k"
      ensures isOmniboxOpen == (if handled then !old(isOmniboxOpen) else old(isOmniboxOpen))
    {
      handled := (ctrlKey || metaKey) && key == "k";
      if handled {
        isOmniboxOpen := !isOmniboxOpen;
      }
    }

    method OpenAgentSidebar()
      modifies this`isAgentSidebarOpen
      ensures isAgentSidebarOpen
    {
      isAgentSidebarOpen := true;
    }

    method CloseAgentSidebar()
      modifies this`isAgentSidebarOpen
      ensures !isAgentSidebarOpen
    {
      isAgentSidebarOpen := false;
    }

    method ToggleAgentSidebar()
      modifies this`isAgentSidebarOpen
      ensures isAgentSidebarOpen == !old(isAgentSidebarOpen)
    {
      isAgentSidebarOpen := !isAgentSidebarOpen;
    }

    method OpenOmnibox()
      modifies this`isOmniboxOpen
      ensures isOmniboxOpen
    {
      isOmniboxOpen := true;
    }

    method CloseOmnibox()
      modifies this`isOmniboxOpen
      ensures !isOmniboxOpen
    {
      isOmniboxOpen := false;
    }

    /** `queryAgent`, carried out on the store; goals, projects and research are not touched. */
    method QueryAgent(store: AgentStore.Store, rendered: Option<AgentProfile>, agentName: string, query: string,
                      clock: QueryClock, choice: nat, fails: bool) returns (reply: string)
      requires choice < 4
      modifies store`activeAgent, store`conversationHistory, store`vestedInterestScore
      ensures var q := QueryResult(old(store.agents), rendered, agentName, query, clock, choice, fails);
        && reply == q.reply
        && store.activeAgent == (if q.selected.Some? then q.selected else old(store.activeAgent))
        && store.conversationHistory == old(store.conversationHistory) + q.appended
        && store.vestedInterestScore == (if q.scored then AgentStore.ClampScore(old(store.vestedInterestScore) + 1) else old(store.vestedInterestScore))
      ensures old(store.Valid()) ==> store.Valid()
    {
      var target := FindAgent(store.agents, agentName);
      if target.None? {
        if rendered.None? {
          return NoAgentReply;
        }
      } else {
        store.SetActiveAgent(target.value);
      }
      var agent := if target.Some? then target.value else rendered.value;
      store.AddMessage(Question(query, clock));
      if fails {
        return ApologyReply;
      }
      var response := BaseAgent.GenerateResponse(agent.role, query, choice);
      store.AddMessage(Answer(agent.role, response, clock));
      store.IncrementVestedInterest(1);
      reply := response;
    }

    /**
     * `executeCommand`: a question goes to the agent and then opens the
     * sidebar; the other commands only hand back where to go.
     */
    method ExecuteCommand(store: AgentStore.Store, rendered: Option<AgentProfile>, command: string, encode: string -> string,
                          clock: QueryClock, choice: nat, fails: bool) returns (action: CommandAction)
      requires choice < 4
      modifies this`isAgentSidebarOpen, store`activeAgent, store`conversationHistory, store`vestedInterestScore
      ensures action == ParseCommand(command, encode)
      ensures action.AskAgent? ==>
        var q := QueryResult(old(store.agents), rendered, action.agentName, action.query, clock, choice, fails);
        && isAgentSidebarOpen
        && store.activeAgent == (if q.selected.Some? then q.selected else old(store.activeAgent))
        && store.conversationHistory == old(store.conversationHistory) + q.appended
        && store.vestedInterestScore == (if q.scored then AgentStore.ClampScore(old(store.vestedInterestScore) + 1) else old(store.vestedInterestScore))
      ensures !action.AskAgent? ==>
        && isAgentSidebarOpen == old(isAgentSidebarOpen)
        && store.activeAgent == old(store.activeAgent)
        && store.conversationHistory == old(store.conversationHistory)
        && store.vestedInterestScore == old(store.vestedInterestScore)
    {
      action := ParseCommand(command, encode);
      if action.AskAgent? {
        var _ := QueryAgent(store, rendered, action.agentName, action.query, clock, choice, fails);
        isAgentSidebarOpen := true;
      }
    }
  }
}
