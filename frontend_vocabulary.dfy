/**
 * The frontend ubiquitous-language registry: its own copies of the role and
 * status tables, the display names of the four legacy debate rounds, the
 * membership predicates and the two label tables.
 */
module FrontendVocabulary {
  import B = BackendVocabulary

  /** `Object.values(AGENT_ROLES)`, in declaration order. */
  const AgentRoleValues: seq<string> := [
    "Research Planner", "Source Hunter A", "Source Hunter B", "Source Critic",
    "Synthesizer", "Skeptic", "Moderator", "Final Synthesizer"
  ]

  /** `Object.values(SESSION_STATUS)`, in declaration order. */
  const SessionStatusValues: seq<string> := [
    "idle", "planning", "hunting", "critiquing", "debating", "moderating", "finalizing",
    "complete", "error"
  ]

  /** `Object.values(DEBATE_ROUNDS)`: the display names of the four legacy rounds. */
  const DebateRoundValues: seq<string> := [
    "Opening Statements", "Cross-Examination", "Rebuttal & Refinement", "Final Positions"
  ]

  /** `Object.values(DEBATE_ROUND_TYPES)`. */
  const DebateRoundTypeValues: seq<string> := ["opening", "cross_exam", "rebuttal", "final"]

  predicate IsValidAgentRole(role: string) {
    role in AgentRoleValues
  }

  predicate IsValidSessionStatus(status: string) {
    status in SessionStatusValues
  }

  predicate IsValidDebateRound(round: string) {
    round in DebateRoundValues
  }

  /** `AGENT_ROLE_LABELS`. */
  const AgentRoleLabels: map<string, string> := map[
    "Research Planner" := "Research Planner",
    "Source Hunter A" := "Source Hunter A",
    "Source Hunter B" := "Source Hunter B",
    "Source Critic" := "Source Critic",
    "Synthesizer" := "Synthesizer",
    "Skeptic" := "Skeptic",
    "Moderator" := "Moderator",
    "Final Synthesizer" := "Final Synthesizer"
  ]

  /** `SESSION_STATUS_LABELS`. */
  const SessionStatusLabels: map<string, string> := map[
    "idle" := "Idle",
    "planning" := "Planning",
    "hunting" := "Hunting Sources",
    "critiquing" := "Critiquing Sources",
    "debating" := "Debating",
    "moderating" := "Moderating",
    "finalizing" := "Finalizing",
    "complete" := "Complete",
    "error" := "Error"
  ]

  /** The two registries list the same roles and statuses, so each side accepts exactly what the other does. */
  lemma RegistriesAgree()
    ensures AgentRoleValues == B.AgentRoleValues && SessionStatusValues == B.SessionStatusValues
    ensures DebateRoundTypeValues == B.LegacyRoundTypeValues
    ensures forall role :: IsValidAgentRole(role) <==> B.IsValidAgentRole(role)
    ensures forall status :: IsValidSessionStatus(status) <==> B.IsValidSessionStatus(status)
  {
  }

  /** A role text is valid exactly when it names one of the eight roles; a status text, one of the nine statuses. */
  lemma ValidIffNamed(role: string, status: string)
    ensures IsValidAgentRole(role) <==> exists r: B.AgentRole :: B.AgentRoleName(r) == role
    ensures IsValidSessionStatus(status) <==> exists s: B.SessionStatus :: B.StatusName(s) == status
  {
    RegistriesAgree();
    B.AgentRoleValidIff(role);
    B.SessionStatusValidIff(status);
  }

  /** The round check accepts the four display names and none of the round type codes. */
  lemma DebateRoundNamesOnly()
    ensures |DebateRoundValues| == 4 && B.Distinct(DebateRoundValues)
    ensures forall code :: code in DebateRoundTypeValues ==> !IsValidDebateRound(code)
    ensures IsValidDebateRound("Opening Statements") && !IsValidDebateRound("opening statements")
  {
    assert "opening statements" != DebateRoundValues[0];
  }

  /** Every role is labelled by itself, and the label table has no other keys. */
  lemma AgentRoleLabelsIdentity()
    ensures forall r: B.AgentRole :: B.AgentRoleName(r) in AgentRoleLabels && AgentRoleLabels[B.AgentRoleName(r)] == B.AgentRoleName(r)
    ensures forall key :: key in AgentRoleLabels <==> IsValidAgentRole(key)
  {
  }

  /** Every status has a label and the table has no other keys; hunting and critiquing name their sources. */
  lemma SessionStatusLabelsTotal()
    ensures forall s: B.SessionStatus :: B.StatusName(s) in SessionStatusLabels
    ensures forall key :: key in SessionStatusLabels <==> IsValidSessionStatus(key)
    ensures SessionStatusLabels["hunting"] == "Hunting Sources" && SessionStatusLabels["critiquing"] == "Critiquing Sources"
  {
  }
}
