/**
 * The agent platform's data model: agent roles, chat messages, goals,
 * projects and research items, with `Partial<…>` updates as patches.
 * Dates are millisecond timestamps.
 */
module AgentTypes {
  import opened Wrappers
  import Strings

  datatype AgentRole = CoFounder | Mba | Cfa | Cra | Pba

  /** The role's string value. */
  function RoleName(r: AgentRole): string
  {
    match r
    case CoFounder => "cofounder"
    case Mba => "mba"
    case Cfa => "cfa"
    case Cra => "cra"
    case Pba => "pba"
  }

  /** An agent's fixed identity: everything but its `isActive` flag and its reply rule. */
  datatype AgentProfile = AgentProfile(
    id: string, role: AgentRole, name: string, title: string, description: string,
    avatar: string, capabilities: seq<Capability>)

  datatype MessageRole = FromUser | FromAgent | FromSystem

  datatype Message = Message(id: string, role: MessageRole, content: string, timestamp: nat, agentRole: Option<AgentRole>)

  datatype Capability = Capability(id: string, name: string, description: string, category: string)

  datatype GoalStatus = GoalPending | GoalInProgress | GoalCompleted
  datatype Priority = Low | Medium | High

  datatype Goal = Goal(
    id: string, title: string, description: string, status: GoalStatus, priority: Priority,
    deadline: Option<nat>, createdAt: nat, assignedAgent: Option<AgentRole>)

  /**
   * `Partial<Goal>`. A field that is itself optional can be carried with the
   * value `undefined`, which clears it: that is `Some(None)`.
   */
  datatype GoalPatch = GoalPatch(
    id: Option<string>, title: Option<string>, description: Option<string>, status: Option<GoalStatus>,
    priority: Option<Priority>, deadline: Option<Option<nat>>, createdAt: Option<nat>,
    assignedAgent: Option<Option<AgentRole>>)

  /** `{ ...g, ...p }`. */
  function MergeGoal(g: Goal, p: GoalPatch): Goal
  {
    Goal(p.id.GetOr(g.id), p.title.GetOr(g.title), p.description.GetOr(g.description),
         p.status.GetOr(g.status), p.priority.GetOr(g.priority), p.deadline.GetOr(g.deadline),
         p.createdAt.GetOr(g.createdAt), p.assignedAgent.GetOr(g.assignedAgent))
  }

  datatype ProjectStatus = ProjectPlanning | ProjectActive | ProjectReview | ProjectCompleted

  datatype Project = Project(
    id: string, name: string, description: string, status: ProjectStatus,
    createdAt: nat, updatedAt: nat, assignedAgents: seq<AgentRole>, progress: int)

  datatype ProjectPatch = ProjectPatch(
    id: Option<string>, name: Option<string>, description: Option<string>, status: Option<ProjectStatus>,
    createdAt: Option<nat>, updatedAt: Option<nat>, assignedAgents: Option<seq<AgentRole>>, progress: Option<int>)

  function MergeProject(p: Project, u: ProjectPatch): Project
  {
    Project(u.id.GetOr(p.id), u.name.GetOr(p.name), u.description.GetOr(p.description),
            u.status.GetOr(p.status), u.createdAt.GetOr(p.createdAt), u.updatedAt.GetOr(p.updatedAt),
            u.assignedAgents.GetOr(p.assignedAgents), u.progress.GetOr(p.progress))
  }

  datatype ResearchItem = ResearchItem(
    id: string, title: string, url: string, content: string, summary: Option<string>,
    tags: seq<string>, createdAt: nat, linkedProjects: seq<string>)

  /** `message.toLowerCase().includes(word)`, the agents' keyword test. */
  predicate Mentions(message: string, word: string)
  {
    Strings.Contains(Strings.AsciiLower(message), word)
  }

  /** `w.length > 4`, the agents' test for a word worth quoting. */
  predicate IsLongWord(w: string)
  {
    Strings.Utf16Length(w) > 4
  }

  /** The keyword test ignores the case of the message, for lower-case keywords. */
  lemma MentionsIgnoresCase(message: string, word: string)
    ensures Mentions(Strings.AsciiLower(message), word) == Mentions(message, word)
  {
    Strings.AsciiLowerIdempotent(message);
  }

  /** The capability ids of one agent are pairwise distinct. */
  predicate DistinctCapabilityIds(caps: seq<Capability>)
  {
    forall i, j :: 0 <= i < j < |caps| ==> caps[i].id != caps[j].id
  }

  /** A patch's fields win where present, the item's are kept where absent. */
  lemma MergeSpec(g: Goal, gp: GoalPatch, p: Project, pp: ProjectPatch)
    ensures gp == GoalPatch(None, None, None, None, None, None, None, None) ==> MergeGoal(g, gp) == g
    ensures gp.id.None? ==> MergeGoal(g, gp).id == g.id
    ensures gp.status.Some? ==> MergeGoal(g, gp).status == gp.status.value
    ensures gp.deadline == Some(None) ==> MergeGoal(g, gp).deadline.None?
    ensures pp == ProjectPatch(None, None, None, None, None, None, None, None) ==> MergeProject(p, pp) == p
    ensures pp.id.None? ==> MergeProject(p, pp).id == p.id
    ensures pp.progress.Some? ==> MergeProject(p, pp).progress == pp.progress.value
  {
  }
}
