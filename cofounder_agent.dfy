/**
 * The strategic partner agent (Co-Founder™): one of four reply templates,
 * picked at random, two of which quote the message's intent; and the text
 * announcing a delegation to a specialist.
 */
module CoFounderAgent {
  import opened Wrappers
  import opened AgentTypes
  import Strings
  import Lists

  const Profile := AgentProfile(
    "cofounder-001", CoFounder, "Alex", "Co-Founder™",
    "Your strategic business partner with persistent memory and long-term vision", "🤝",
    [ Capability("strategic-planning", "Strategic Planning", "Long-term business strategy and goal setting", "Strategy"),
      Capability("goal-management", "Goal Management", "Track and manage business objectives", "Management"),
      Capability("team-coordination", "Team Coordination", "Delegate tasks to specialized agents", "Coordination"),
      Capability("insight-synthesis", "Insight Synthesis", "Combine insights from multiple sources", "Analysis") ])

  const NoIntent := "your question"

  /** The long words of the lower-cased message, in order. */
  function Keywords(message: string): seq<string>
  {
    Lists.Filter(Strings.Split(Strings.AsciiLower(message), ' '), IsLongWord)
  }

  /** How many keywords the intent quotes: at most three. */
  function Quoted(keywords: seq<string>): nat
  {
    if |keywords| < 3 then |keywords| else 3
  }

  /** The intent made of the given keywords: the first three joined by spaces, or the fallback. */
  function IntentOf(keywords: seq<string>): string
  {
    var joined := Strings.Join(keywords[..Quoted(keywords)], " ");
    if joined != "" then joined else NoIntent
  }

  /** `extractIntent`. */
  function ExtractIntent(message: string): string
  {
    IntentOf(Keywords(message))
  }

  /** For long words, splitting the intent gives back the quoted ones, and the fallback means there were none. */
  lemma IntentOfSpec(keywords: seq<string>)
    requires forall i :: 0 <= i < |keywords| ==> IsLongWord(keywords[i]) && ' ' !in keywords[i]
    ensures keywords == [] ==> IntentOf(keywords) == NoIntent
    ensures keywords != [] ==> Strings.Split(IntentOf(keywords), ' ') == keywords[..Quoted(keywords)]
    ensures IntentOf(keywords) == NoIntent <==> keywords == []
  {
    if keywords != [] {
      var picked := keywords[..Quoted(keywords)];
      JoinedKeywords(picked);
      assert IntentOf(keywords) == Strings.Join(picked, " ");
    }
  }

  /** Joined long words split back into themselves, and never spell the fallback. */
  lemma JoinedKeywords(picked: seq<string>)
    requires |picked| >= 1
    requires forall i :: 0 <= i < |picked| ==> IsLongWord(picked[i]) && ' ' !in picked[i]
    ensures Strings.Join(picked, " ") != ""
    ensures Strings.Split(Strings.Join(picked, " "), ' ') == picked
    ensures Strings.Join(picked, " ") != NoIntent
  {
    assert picked[0] != "" by { assert IsLongWord(picked[0]); }
    Strings.JoinStartsWithFirst(picked, " ");
    Strings.SplitJoin(picked, ' ');
    FallbackSplit();
    assert !IsLongWord("your");
    assert Strings.Split(NoIntent, ' ')[0] != picked[0];
  }

  /** The fallback's first word is "your", which is not long. */
  lemma FallbackSplit()
    ensures Strings.Split(NoIntent, ' ')[0] == "your"
  {
    assert NoIntent == "your" + [' '] + "question";
    Strings.SplitAfterPart("your", ' ', "question");
  }

  /**
   * Splitting the intent at its spaces gives back exactly the first (up to)
   * three keywords of the message; the fallback is used exactly when the
   * message has no word longer than four.
   */
  lemma ExtractIntentSpec(message: string)
    ensures var keywords := Keywords(message);
      && (keywords == [] ==> ExtractIntent(message) == NoIntent)
      && (keywords != [] ==> Strings.Split(ExtractIntent(message), ' ') == keywords[..Quoted(keywords)])
    ensures ExtractIntent(message) == NoIntent <==> Keywords(message) == []
  {
    var words := Strings.Split(Strings.AsciiLower(message), ' ');
    var keywords := Keywords(message);
    Lists.FilterMembers(words, IsLongWord);
    assert forall i :: 0 <= i < |keywords| ==> keywords[i] in words;
    IntentOfSpec(keywords);
  }

  const UnderstandPrefix := "I understand you're interested in "
  const UnderstandSuffix := ". Let me help you think through this strategically."
  const PerspectivePrefix := "Based on our ongoing work together, here's my perspective on "
  const DirectionReply := "That's an interesting direction. Let's break this down and see how it aligns with your broader goals."
  const DelegateOfferReply := "I can help with that. Would you like me to delegate this to one of our specialized agents, or shall we think through it together first?"

  /** The four templates around an intent, the first two quoting it. */
  function Templates(intent: string): seq<string>
  {
    [ UnderstandPrefix + intent + UnderstandSuffix,
      PerspectivePrefix + intent + "...",
      DirectionReply,
      DelegateOfferReply ]
  }

  /** `generateResponse`; `choice` is `Math.floor(Math.random() * 4)`. */
  function Reply(message: string, choice: nat): string
    requires choice < 4
  {
    Templates(ExtractIntent(message))[choice]
  }

  /** The first two templates contain the intent; the last two are the same whatever it is. */
  lemma TemplatesSpec(intent: string, other: string)
    ensures |Templates(intent)| == 4
    ensures Strings.Contains(Templates(intent)[0], intent) && Strings.Contains(Templates(intent)[1], intent)
    ensures Templates(intent)[2..] == Templates(other)[2..]
  {
    Strings.ContainsInfix(UnderstandPrefix, intent, UnderstandSuffix);
    Strings.ContainsInfix(PerspectivePrefix, intent, "...");
  }

  /**
   * Every reply is one of the templates; the first two quote the intent and
   * the last two do not depend on the message at all.
   */
  lemma ReplySpec(message: string, other: string, choice: nat)
    requires choice < 4
    ensures Reply(message, choice) in Templates(ExtractIntent(message))
    ensures choice < 2 ==> Strings.Contains(Reply(message, choice), ExtractIntent(message))
    ensures choice >= 2 ==> Reply(message, choice) == Reply(other, choice)
  {
    var mine, theirs := Templates(ExtractIntent(message)), Templates(ExtractIntent(other));
    TemplatesSpec(ExtractIntent(message), ExtractIntent(other));
    if choice >= 2 {
      assert mine[choice] == mine[2..][choice - 2] == theirs[2..][choice - 2] == theirs[choice];
    }
  }

  const DelegationPrefix := "Delegating task to Agent-"

  /** `delegateToAgent`. */
  function DelegateToAgent(task: string, agentRole: string): string
  {
    DelegationPrefix + Strings.AsciiUpper(agentRole) + ": " + task
  }

  predicate AllLowerLetters(s: string)
  {
    forall i :: 0 <= i < |s| ==> 'a' <= s[i] <= 'z'
  }

  /** Upper-casing a word of lower-case letters and lower-casing it again gives it back. */
  lemma UpperLowerRoundTrip(s: string)
    requires AllLowerLetters(s)
    ensures Strings.AsciiLower(Strings.AsciiUpper(s)) == s
  {
  }

  /**
   * The announcement names the role upper-cased right after the prefix, and
   * that name lower-cases back to the role; the task ends it unchanged.
   */
  lemma DelegateToAgentSpec(task: string, role: AgentRole)
    ensures var r := DelegateToAgent(task, RoleName(role));
      var n := |RoleName(role)|;
      && |r| == |DelegationPrefix| + n + 2 + |task|
      && r[..|DelegationPrefix|] == DelegationPrefix
      && Strings.AsciiLower(r[|DelegationPrefix|..|DelegationPrefix| + n]) == RoleName(role)
      && r[|r| - |task|..] == task
  {
    var name := RoleName(role);
    assert AllLowerLetters(name) by {
      match role
      case CoFounder => assert name == "cofounder";
      case Mba => assert name == "mba";
      case Cfa => assert name == "cfa";
      case Cra => assert name == "cra";
      case Pba => assert name == "pba";
    }
    UpperLowerRoundTrip(name);
    var r := DelegateToAgent(task, name);
    var k := |DelegationPrefix|;
    assert r[k..k + |name|] == Strings.AsciiUpper(name);
  }

  lemma CapabilitiesDistinct()
    ensures |Profile.capabilities| == 4 && DistinctCapabilityIds(Profile.capabilities)
  {
  }
}
