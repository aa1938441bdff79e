/** The product and business analysis agent (Agent-PBA): a reply chosen by keywords. */
module PbaAgent {
  import opened AgentTypes
  import Strings

  const Profile := AgentProfile(
    "pba-001", Pba, "Parker", "Agent-PBA",
    "Product and business analysis, requirements engineering specialist", "📋",
    [ Capability("requirements-engineering", "Requirements Engineering", "Gather, analyze, and document product requirements", "Analysis"),
      Capability("process-optimization", "Process Optimization", "Improve business processes and workflows", "Operations"),
      Capability("stakeholder-analysis", "Stakeholder Analysis", "Map and manage stakeholder relationships", "Management") ])

  const RequirementsReply := "I'll help gather and document requirements. Let's start by identifying key stakeholders and their needs."
  const ProcessReply := "I can analyze your process. I'll map the current state, identify bottlenecks, and propose optimizations."
  const DefaultReply := "I specialize in requirements engineering and business analysis. What project are you working on?"

  predicate AsksAboutRequirements(message: string)
  {
    Mentions(message, "requirement") || Mentions(message, "feature")
  }

  predicate AsksAboutProcess(message: string)
  {
    Mentions(message, "process")
  }

  /**
   * `generateResponse`: each reply is given exactly when its rule is the
   * first that matches, so "requirement" and "feature" take priority
   * over "process" and every other message gets the default.
   */
  function Reply(message: string): (r: string)
    ensures r == RequirementsReply <==> AsksAboutRequirements(message)
    ensures r == ProcessReply <==> !AsksAboutRequirements(message) && AsksAboutProcess(message)
    ensures r == DefaultReply <==> !AsksAboutRequirements(message) && !AsksAboutProcess(message)
  {
    if AsksAboutRequirements(message) then RequirementsReply
    else if AsksAboutProcess(message) then ProcessReply
    else DefaultReply
  }

  /** The rules read the message lower-cased, so its case never changes the reply. */
  lemma ReplyIgnoresCase(message: string)
    ensures Reply(Strings.AsciiLower(message)) == Reply(message)
  {
    MentionsIgnoresCase(message, "requirement");
    MentionsIgnoresCase(message, "feature");
    MentionsIgnoresCase(message, "process");
  }

  lemma CapabilitiesDistinct()
    ensures |Profile.capabilities| == 3 && DistinctCapabilityIds(Profile.capabilities)
  {
  }
}
