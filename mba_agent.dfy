/**
 * The financial-modelling agent (Agent-MBA): a reply chosen by keywords,
 * quoting the first long word of the message.
 */
module MbaAgent {
  import opened Wrappers
  import opened AgentTypes
  import Strings
  import Lists

  const Profile := AgentProfile(
    "mba-001", Mba, "Morgan", "Agent-MBA",
    "Financial modeling, business planning, and market analysis specialist", "📊",
    [ Capability("financial-modeling", "Financial Modeling", "Build comprehensive financial models and projections", "Finance"),
      Capability("business-planning", "Business Planning", "Develop strategic business plans and roadmaps", "Strategy"),
      Capability("market-analysis", "Market Analysis", "Analyze market trends and competitive landscapes", "Research"),
      Capability("valuation", "Business Valuation", "Company and asset valuation analysis", "Finance") ])

  function FinancialReply(topic: string): string
  {
    "I can help with financial analysis. Let me build a model for " + topic + ". Would you like a 3-year or 5-year projection?"
  }

  function MarketReply(topic: string): string
  {
    "I'll conduct a market analysis for " + topic + ". I'll examine market size, growth trends, and competitive positioning."
  }

  const DefaultReply := "I specialize in financial modeling and business planning. How can I help you with your business strategy?"

  const NoTopic := "this area"

  predicate AsksAboutFinance(message: string)
  {
    Mentions(message, "financial") || Mentions(message, "revenue")
  }

  predicate AsksAboutMarket(message: string)
  {
    Mentions(message, "market") || Mentions(message, "competition")
  }

  /** `extractKeyTopic`: the first space-separated word longer than four, in its original case. */
  function ExtractKeyTopic(message: string): string
  {
    var words := Lists.Filter(Strings.Split(message, ' '), IsLongWord);
    if words == [] then NoTopic else words[0]
  }

  /**
   * The topic is the first long word of the message as written, and the
   * fallback is used exactly when the message has no long word (a word
   * never holds a space, so it cannot be the fallback text).
   */
  lemma ExtractKeyTopicSpec(message: string)
    ensures var words := Strings.Split(message, ' ');
      match Lists.IndexWhere(words, IsLongWord)
      case None => ExtractKeyTopic(message) == NoTopic
      case Some(i) => ExtractKeyTopic(message) == words[i] && IsLongWord(words[i])
    ensures ExtractKeyTopic(message) == NoTopic <==> forall w :: w in Strings.Split(message, ' ') ==> !IsLongWord(w)
  {
    var words := Strings.Split(message, ' ');
    Lists.FilterHead(words, IsLongWord);
    Lists.FilterMembers(words, IsLongWord);
    assert NoTopic[4] == ' ' by { assert NoTopic == "this" + [' '] + "area"; }
    var kept := Lists.Filter(words, IsLongWord);
    if kept != [] {
      var i := Lists.IndexWhere(words, IsLongWord).value;
      assert kept[0] == words[i] && ' ' !in words[i];
    }
  }

  /**
   * `generateResponse`: the financial keywords are tried first, then the
   * market keywords, and every other message gets the default; the two
   * topical replies quote the key topic.
   */
  function Reply(message: string): (r: string)
    ensures AsksAboutFinance(message) ==> r == FinancialReply(ExtractKeyTopic(message))
    ensures !AsksAboutFinance(message) && AsksAboutMarket(message) ==> r == MarketReply(ExtractKeyTopic(message))
    ensures !AsksAboutFinance(message) && !AsksAboutMarket(message) ==> r == DefaultReply
  {
    if AsksAboutFinance(message) then FinancialReply(ExtractKeyTopic(message))
    else if AsksAboutMarket(message) then MarketReply(ExtractKeyTopic(message))
    else DefaultReply
  }

  /** The routing reads the message lower-cased; only the quoted topic keeps its case. */
  lemma RoutingIgnoresCase(message: string)
    ensures AsksAboutFinance(Strings.AsciiLower(message)) == AsksAboutFinance(message)
    ensures AsksAboutMarket(Strings.AsciiLower(message)) == AsksAboutMarket(message)
  {
    MentionsIgnoresCase(message, "financial");
    MentionsIgnoresCase(message, "revenue");
    MentionsIgnoresCase(message, "market");
    MentionsIgnoresCase(message, "competition");
  }

  lemma CapabilitiesDistinct()
    ensures |Profile.capabilities| == 4 && DistinctCapabilityIds(Profile.capabilities)
  {
  }
}
