/** The credit-risk and compliance agent (Agent-CRA): a reply chosen by keywords. */
module CraAgent {
  import opened AgentTypes
  import Strings

  const Profile := AgentProfile(
    "cra-001", Cra, "Riley", "Agent-CRA",
    "Credit risk assessment and compliance specialist", "🛡️",
    [ Capability("credit-analysis", "Credit Analysis", "Assess creditworthiness and default risk", "Risk"),
      Capability("compliance-review", "Compliance Review", "Ensure regulatory compliance and risk management", "Compliance"),
      Capability("risk-modeling", "Risk Modeling", "Build credit risk models and stress tests", "Modeling") ])

  const CreditReply := "I'll conduct a credit risk assessment. This includes analyzing financial ratios, payment history, and default probabilities."
  const ComplianceReply := "I can review compliance requirements. Which regulations are you concerned about - Basel III, Dodd-Frank, or others?"
  const DefaultReply := "I specialize in credit risk and compliance. How can I assist with risk management?"

  predicate AsksAboutCredit(message: string)
  {
    Mentions(message, "credit") || Mentions(message, "risk")
  }

  predicate AsksAboutCompliance(message: string)
  {
    Mentions(message, "compliance")
  }

  /**
   * `generateResponse`: each reply is given exactly when its rule is the
   * first that matches, so "credit" and "risk" take priority over
   * "compliance" and every other message gets the default.
   */
  function Reply(message: string): (r: string)
    ensures r == CreditReply <==> AsksAboutCredit(message)
    ensures r == ComplianceReply <==> !AsksAboutCredit(message) && AsksAboutCompliance(message)
    ensures r == DefaultReply <==> !AsksAboutCredit(message) && !AsksAboutCompliance(message)
  {
    if AsksAboutCredit(message) then CreditReply
    else if AsksAboutCompliance(message) then ComplianceReply
    else DefaultReply
  }

  /** The rules read the message lower-cased, so its case never changes the reply. */
  lemma ReplyIgnoresCase(message: string)
    ensures Reply(Strings.AsciiLower(message)) == Reply(message)
  {
    MentionsIgnoresCase(message, "credit");
    MentionsIgnoresCase(message, "risk");
    MentionsIgnoresCase(message, "compliance");
  }

  lemma CapabilitiesDistinct()
    ensures |Profile.capabilities| == 3 && DistinctCapabilityIds(Profile.capabilities)
  {
  }
}
