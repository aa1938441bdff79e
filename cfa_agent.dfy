/** The investment-analysis agent (Agent-CFA): a reply chosen by keywords. */
module CfaAgent {
  import opened AgentTypes
  import Strings

  const Profile := AgentProfile(
    "cfa-001", Cfa, "Carter", "Agent-CFA",
    "Investment analysis, portfolio management, and financial markets expert", "💹",
    [ Capability("investment-analysis", "Investment Analysis", "Deep dive into investment opportunities and risks", "Investments"),
      Capability("portfolio-management", "Portfolio Management", "Optimize and manage investment portfolios", "Investments"),
      Capability("risk-assessment", "Risk Assessment", "Evaluate and quantify investment risks", "Risk"),
      Capability("market-research", "Market Research", "Research securities, sectors, and market trends", "Research") ])

  const InvestmentReply := "I can analyze investment opportunities for you. What type of assets are you interested in - equities, fixed income, alternatives?"
  const RiskReply := "Let me assess the risk profile. I'll examine volatility, correlation, and downside scenarios."
  const DefaultReply := "I specialize in investment analysis and portfolio management. What would you like to explore?"

  predicate AsksAboutInvesting(message: string)
  {
    Mentions(message, "invest") || Mentions(message, "portfolio")
  }

  predicate AsksAboutRisk(message: string)
  {
    Mentions(message, "risk")
  }

  /**
   * `generateResponse`: each reply is given exactly when its rule is the
   * first that matches, so the investment keywords take priority over
   * "risk" and every other message gets the default.
   */
  function Reply(message: string): (r: string)
    ensures r == InvestmentReply <==> AsksAboutInvesting(message)
    ensures r == RiskReply <==> !AsksAboutInvesting(message) && AsksAboutRisk(message)
    ensures r == DefaultReply <==> !AsksAboutInvesting(message) && !AsksAboutRisk(message)
  {
    if AsksAboutInvesting(message) then InvestmentReply
    else if AsksAboutRisk(message) then RiskReply
    else DefaultReply
  }

  /** The rules read the message lower-cased, so its case never changes the reply. */
  lemma ReplyIgnoresCase(message: string)
    ensures Reply(Strings.AsciiLower(message)) == Reply(message)
  {
    MentionsIgnoresCase(message, "invest");
    MentionsIgnoresCase(message, "portfolio");
    MentionsIgnoresCase(message, "risk");
  }

  lemma CapabilitiesDistinct()
    ensures |Profile.capabilities| == 4 && DistinctCapabilityIds(Profile.capabilities)
  {
  }
}
