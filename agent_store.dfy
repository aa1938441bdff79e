/**
 * The agent platform's shared store: the five agents, the active one, goals,
 * projects, research items, the conversation and the VestedInterest™ score.
 * Lists only grow at the end or are rewritten by id; the score is clamped
 * to 0..100. Agents are held by their profiles.
 */
module AgentStore {
  import opened Wrappers
  import opened AgentTypes
  import Lists
  import BaseAgent

  const Roster := [
    BaseAgent.ProfileOf(CoFounder), BaseAgent.ProfileOf(Mba), BaseAgent.ProfileOf(Cfa),
    BaseAgent.ProfileOf(Cra), BaseAgent.ProfileOf(Pba)]

  const InitialScore := 78

  // Seed dates at UTC midnight, in milliseconds since the epoch.
  const Nov1st2025 := 1761955200000
  const Nov2nd2025 := 1762041600000
  const Oct28th2025 := 1761609600000
  const Oct15th2025 := 1760486400000
  const Oct20th2025 := 1760918400000
  const Nov5th2025 := 1762300800000

  const SeedGoals := [
    Goal("1", "Launch MVP for SaaS product", "Build and deploy minimum viable product",
         GoalInProgress, High, None, Nov1st2025, Some(Pba)),
    Goal("2", "Secure seed funding", "Raise $500K seed round",
         GoalInProgress, High, None, Nov2nd2025, Some(Mba)),
    Goal("3", "Build landing page", "Create marketing website",
         GoalCompleted, Medium, None, Oct28th2025, None)]

  /** The seed projects; their `updatedAt` is the store's creation time. */
  function SeedProjects(now: nat): seq<Project>
  {
    [ Project("1", "SaaS Platform", "B2B productivity software", ProjectActive, Oct15th2025, now, [Mba, Pba], 65),
      Project("2", "Market Research", "TAM/SAM/SOM analysis", ProjectActive, Oct20th2025, now, [Mba, Cfa], 80) ]
  }

  const SeedResearch := [
    ResearchItem("1", "SaaS Pricing Models Analysis", "https://example.com/pricing",
                 "Comprehensive pricing analysis...", Some("Freemium, tiered, and usage-based models compared"),
                 ["pricing", "saas", "business-model"], Nov5th2025, ["1"])]

  /** `Math.min(100, Math.max(0, x))`. */
  function ClampScore(x: int): (r: int)
    ensures 0 <= r <= 100
    ensures 0 <= x <= 100 ==> r == x
    ensures x < 0 ==> r == 0
    ensures x > 100 ==> r == 100
  {
    if x > 100 then 100 else if x < 0 then 0 else x
  }

  /** `goals.map(g => g.id === id ? { ...g, ...updates } : g)`. */
  function UpdatedGoals(goals: seq<Goal>, id: string, updates: GoalPatch): seq<Goal>
  {
    Lists.MapWhere(goals, (g: Goal) => g.id == id, (g: Goal) => MergeGoal(g, updates))
  }

  function UpdatedProjects(projects: seq<Project>, id: string, updates: ProjectPatch): seq<Project>
  {
    Lists.MapWhere(projects, (p: Project) => p.id == id, (p: Project) => MergeProject(p, updates))
  }

  /**
   * An update by id keeps length and order, merges the patch into every
   * item with that id (all of them, not just the first), leaves the others
   * as they were, and changes nothing when no item has the id.
   */
  lemma UpdatedGoalsSpec(goals: seq<Goal>, id: string, updates: GoalPatch)
    ensures |UpdatedGoals(goals, id, updates)| == |goals|
    ensures forall i :: 0 <= i < |goals| && goals[i].id == id ==> UpdatedGoals(goals, id, updates)[i] == MergeGoal(goals[i], updates)
    ensures forall i :: 0 <= i < |goals| && goals[i].id != id ==> UpdatedGoals(goals, id, updates)[i] == goals[i]
    ensures (forall g :: g in goals ==> g.id != id) ==> UpdatedGoals(goals, id, updates) == goals
    ensures updates.id.None? ==> forall i :: 0 <= i < |goals| ==> UpdatedGoals(goals, id, updates)[i].id == goals[i].id
  {
    Lists.MapWhereAt(goals, (g: Goal) => g.id == id, (g: Goal) => MergeGoal(g, updates));
  }

  lemma UpdatedProjectsSpec(projects: seq<Project>, id: string, updates: ProjectPatch)
    ensures |UpdatedProjects(projects, id, updates)| == |projects|
    ensures forall i :: 0 <= i < |projects| && projects[i].id == id ==> UpdatedProjects(projects, id, updates)[i] == MergeProject(projects[i], updates)
    ensures forall i :: 0 <= i < |projects| && projects[i].id != id ==> UpdatedProjects(projects, id, updates)[i] == projects[i]
    ensures (forall p :: p in projects ==> p.id != id) ==> UpdatedProjects(projects, id, updates) == projects
    ensures updates.id.None? ==> forall i :: 0 <= i < |projects| ==> UpdatedProjects(projects, id, updates)[i].id == projects[i].id
  {
    Lists.MapWhereAt(projects, (p: Project) => p.id == id, (p: Project) => MergeProject(p, updates));
  }

  /** The score after a run of increments, each clamped. */
  function ScoreAfter(score: int, deltas: seq<int>): int
    decreases |deltas|
  {
    if deltas == [] then score else ScoreAfter(ClampScore(score + deltas[0]), deltas[1..])
  }

  /** However many increments arrive, a score that starts in range stays there. */
  lemma {:induction false} ScoreStaysInRange(score: int, deltas: seq<int>)
    requires 0 <= score <= 100
    ensures 0 <= ScoreAfter(score, deltas) <= 100
    decreases |deltas|
  {
    if deltas != [] {
      ScoreStaysInRange(ClampScore(score + deltas[0]), deltas[1..]);
    }
  }

  /** `k` answered queries (one point each) raise an in-range score to `min(100, score + k)`. */
  lemma {:induction false} QueriesSaturate(score: int, k: nat)
    requires 0 <= score <= 100
    ensures ScoreAfter(score, seq(k, _ => 1)) == if score + k > 100 then 100 else score + k
    decreases k
  {
    if k > 0 {
      var ones := seq(k, _ => 1);
      assert ones[1..] == seq(k - 1, _ => 1);
      QueriesSaturate(ClampScore(score + 1), k - 1);
    }
  }

  class Store {
    var agents: seq<AgentProfile>
    var activeAgent: Option<AgentProfile>
    var goals: seq<Goal>
    var projects: seq<Project>
    var researchItems: seq<ResearchItem>
    var conversationHistory: seq<Message>
    var vestedInterestScore: int

    /** The score stays in range; every store action keeps it so. */
    predicate Valid()
      reads this
    {
      0 <= vestedInterestScore <= 100
    }

    /** The store as created; `now` is the `new Date()` of the seed projects. */
    constructor (now: nat)
      ensures agents == Roster && activeAgent == Some(Roster[0])
      ensures goals == SeedGoals && projects == SeedProjects(now) && researchItems == SeedResearch
      ensures conversationHistory == [] && vestedInterestScore == InitialScore
      ensures Valid()
    {
      agents := Roster;
      activeAgent := Some(Roster[0]);
      goals := SeedGoals;
      projects := SeedProjects(now);
      researchItems := SeedResearch;
      conversationHistory := [];
      vestedInterestScore := InitialScore;
    }

    method SetActiveAgent(agent: AgentProfile)
      modifies this`activeAgent
      ensures activeAgent == Some(agent)
      ensures Valid() == old(Valid())
    {
      activeAgent := Some(agent);
    }

    method AddMessage(message: Message)
      modifies this`conversationHistory
      ensures conversationHistory == old(conversationHistory) + [message]
      ensures Valid() == old(Valid())
    {
      conversationHistory := conversationHistory + [message];
    }

    method AddGoal(goal: Goal)
      modifies this`goals
      ensures goals == old(goals) + [goal]
      ensures Valid() == old(Valid())
    {
      goals := goals + [goal];
    }

    method UpdateGoal(id: string, updates: GoalPatch)
      modifies this`goals
      ensures goals == UpdatedGoals(old(goals), id, updates)
      ensures Valid() == old(Valid())
    {
      goals := UpdatedGoals(goals, id, updates);
    }

    method AddProject(project: Project)
      modifies this`projects
      ensures projects == old(projects) + [project]
      ensures Valid() == old(Valid())
    {
      projects := projects + [project];
    }

    method UpdateProject(id: string, updates: ProjectPatch)
      modifies this`projects
      ensures projects == UpdatedProjects(old(projects), id, updates)
      ensures Valid() == old(Valid())
    {
      projects := UpdatedProjects(projects, id, updates);
    }

    method AddResearchItem(item: ResearchItem)
      modifies this`researchItems
      ensures researchItems == old(researchItems) + [item]
      ensures Valid() == old(Valid())
    {
      researchItems := researchItems + [item];
    }

    method IncrementVestedInterest(delta: int)
      modifies this`vestedInterestScore
      ensures vestedInterestScore == ClampScore(old(vestedInterestScore) + delta)
      ensures Valid()
    {
      vestedInterestScore := ClampScore(vestedInterestScore + delta);
    }
  }

  /** The roster holds the five agents in order, the co-founder first, none twice. */
  lemma RosterSpec()
    ensures |Roster| == 5 && Roster[0].role == CoFounder
    ensures forall i :: 0 <= i < 5 ==> Roster[i] == BaseAgent.ProfileOf(Roster[i].role)
    ensures forall i, j :: 0 <= i < j < 5 ==> Roster[i].role != Roster[j].role
    ensures 0 <= InitialScore <= 100
  {
    assert forall i :: 0 <= i < 5 ==> Roster[i].role == [CoFounder, Mba, Cfa, Cra, Pba][i] by {
      BaseAgent.ProfilesSpec(CoFounder, Mba);
      BaseAgent.ProfilesSpec(Mba, Cfa);
      BaseAgent.ProfilesSpec(Cfa, Cra);
      BaseAgent.ProfilesSpec(Cra, Pba);
      BaseAgent.ProfilesSpec(Pba, CoFounder);
    }
  }
}
