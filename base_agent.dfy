/**
 * What every agent shares: its identity, an `isActive` flag that starts
 * cleared, and `processMessage`, which hands the message to the agent's own
 * reply rule. The conversation context an agent receives is read by none of
 * the reply rules, so it is not a parameter here.
 */
module BaseAgent {
  import opened AgentTypes
  import CoFounderAgent
  import MbaAgent
  import CfaAgent
  import CraAgent
  import PbaAgent

  /** The profile of the one agent of each role. */
  function ProfileOf(role: AgentRole): AgentProfile
  {
    match role
    case CoFounder => CoFounderAgent.Profile
    case Mba => MbaAgent.Profile
    case Cfa => CfaAgent.Profile
    case Cra => CraAgent.Profile
    case Pba => PbaAgent.Profile
  }

  /** The profiles are those of their roles, with distinct ids and names and the role's string as variant id. */
  lemma ProfilesSpec(a: AgentRole, b: AgentRole)
    ensures ProfileOf(a).role == a
    ensures a != b ==> ProfileOf(a).id != ProfileOf(b).id && ProfileOf(a).name != ProfileOf(b).name
    ensures RoleName(a) <= ProfileOf(a).id
  {
  }

  /** The role's `generateResponse`; `choice` stands for the co-founder's random pick. */
  function GenerateResponse(role: AgentRole, message: string, choice: nat): string
    requires role == CoFounder ==> choice < 4
  {
    match role
    case CoFounder => CoFounderAgent.Reply(message, choice)
    case Mba => MbaAgent.Reply(message)
    case Cfa => CfaAgent.Reply(message)
    case Cra => CraAgent.Reply(message)
    case Pba => PbaAgent.Reply(message)
  }

  class Agent {
    const profile: AgentProfile
    var isActive: bool

    constructor (role: AgentRole)
      ensures profile == ProfileOf(role)
      ensures !isActive
    {
      profile := ProfileOf(role);
      isActive := false;
    }

    method Activate()
      modifies this`isActive
      ensures isActive
    {
      isActive := true;
    }

    method Deactivate()
      modifies this`isActive
      ensures !isActive
    {
      isActive := false;
    }

    /** `processMessage`: exactly the reply rule's answer; the flag is not touched. */
    method ProcessMessage(message: string, choice: nat) returns (response: string)
      requires profile.role == CoFounder ==> choice < 4
      ensures response == GenerateResponse(profile.role, message, choice)
    {
      response := GenerateResponse(profile.role, message, choice);
    }

    /** `analyzeContext`: nothing yet. */
    method AnalyzeContext() returns (insights: seq<string>, suggestions: seq<string>)
      ensures insights == [] && suggestions == []
    {
      insights, suggestions := [], [];
    }
  }
}
