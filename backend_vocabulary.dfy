/**
 * The backend ubiquitous-language registry: the agent roles, the session statuses,
 * the legacy debate round types, and the two membership predicates.
 */
module BackendVocabulary {

  datatype AgentRole =
    | ResearchPlanner | SourceHunterA | SourceHunterB | SourceCritic
    | Synthesizer | Skeptic | Moderator | FinalSynthesizer

  function AgentRoleName(r: AgentRole): string {
    match r
    case ResearchPlanner => "Research Planner"
    case SourceHunterA => "Source Hunter A"
    case SourceHunterB => "Source Hunter B"
    case SourceCritic => "Source Critic"
    case Synthesizer => "Synthesizer"
    case Skeptic => "Skeptic"
    case Moderator => "Moderator"
    case FinalSynthesizer => "Final Synthesizer"
  }

  datatype SessionStatus =
    | Idle | Planning | Hunting | Critiquing | Debating | Moderating | Finalizing | Complete | Error

  function StatusName(s: SessionStatus): string {
    match s
    case Idle => "idle"
    case Planning => "planning"
    case Hunting => "hunting"
    case Critiquing => "critiquing"
    case Debating => "debating"
    case Moderating => "moderating"
    case Finalizing => "finalizing"
    case Complete => "complete"
    case Error => "error"
  }

  /** `Object.values(AGENT_ROLES)`, in declaration order. */
  const AgentRoleValues: seq<string> := [
    "Research Planner", "Source Hunter A", "Source Hunter B", "Source Critic",
    "Synthesizer", "Skeptic", "Moderator", "Final Synthesizer"
  ]

  /** `Object.values(SESSION_STATUS)`, in declaration order. */
  const SessionStatusValues: seq<string> := [
    "idle", "planning", "hunting", "critiquing", "debating", "moderating", "finalizing",
    "complete", "error"
  ]

  /** `Object.values(DEBATE_ROUND_TYPES)`: the round codes of the legacy four-round flow. */
  const LegacyRoundTypeValues: seq<string> := ["opening", "cross_exam", "rebuttal", "final"]

  /** `isValidAgentRole`: exact, case-sensitive membership in the role table. */
  predicate IsValidAgentRole(role: string) {
    role in AgentRoleValues
  }

  /** `isValidSessionStatus`: exact, case-sensitive membership in the status table. */
  predicate IsValidSessionStatus(status: string) {
    status in SessionStatusValues
  }

  predicate Distinct(values: seq<string>) {
    forall i, j :: 0 <= i < j < |values| ==> values[i] != values[j]
  }

  /** A role name is valid exactly when it names one of the eight roles. */
  lemma AgentRoleValidIff(role: string)
    ensures IsValidAgentRole(role) <==> exists r: AgentRole :: AgentRoleName(r) == role
  {
    if IsValidAgentRole(role) {
      var i :| 0 <= i < |AgentRoleValues| && AgentRoleValues[i] == role;
      var roles := [ResearchPlanner, SourceHunterA, SourceHunterB, SourceCritic,
                    Synthesizer, Skeptic, Moderator, FinalSynthesizer];
      assert AgentRoleName(roles[i]) == role;
    }
  }

  /** A status text is valid exactly when it names one of the nine statuses. */
  lemma SessionStatusValidIff(status: string)
    ensures IsValidSessionStatus(status) <==> exists s: SessionStatus :: StatusName(s) == status
  {
    if IsValidSessionStatus(status) {
      var i :| 0 <= i < |SessionStatusValues| && SessionStatusValues[i] == status;
      var all := [Idle, Planning, Hunting, Critiquing, Debating, Moderating, Finalizing,
                  Complete, Error];
      assert StatusName(all[i]) == status;
    }
  }

  /** Each constant table lists pairwise distinct values, so every name identifies one entry. */
  lemma TablesDistinct()
    ensures |AgentRoleValues| == 8 && Distinct(AgentRoleValues)
    ensures |SessionStatusValues| == 9 && Distinct(SessionStatusValues)
    ensures |LegacyRoundTypeValues| == 4 && Distinct(LegacyRoundTypeValues)
    ensures forall r1, r2 :: AgentRoleName(r1) == AgentRoleName(r2) ==> r1 == r2
    ensures forall s1, s2 :: StatusName(s1) == StatusName(s2) ==> s1 == s2
  {
  }
}
