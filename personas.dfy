/** The persona record and the static pool the debate draws its participants from. */
module Personas {

  /** The kind of model a persona is meant for; a closed set of three. */
  datatype ModelArchetype = Logic | Creative | Raw

  datatype Persona = Persona(
    id: string,
    name: string,
    role: string,
    description: string,
    agenda: string,
    modelArchetype: ModelArchetype)

  const PersonaPool: seq<Persona> := [
    Persona(
      "visionary", "The Visionary", "Visionary",
      "Focuses on long-term implications (10-100 years out).",
      "You are 'The Visionary'. Focus on the long-term future (10-100 years). Imagine how this topic evolves over decades. Be creative, optimistic, but grounded in potential trajectories.",
      Creative),
    Persona(
      "pragmatist", "The Pragmatist", "Pragmatist",
      "Focuses on cost, feasibility, and immediate execution.",
      "You are 'The Pragmatist'. Focus on the here and now. Ask about costs, implementation hurdles, and feasibility. Be grounded, realistic, and skeptical of 'pie-in-the-sky' ideas.",
      Logic),
    Persona(
      "ethicist", "The Ethicist", "Ethicist",
      "Focuses on moral alignment, bias, and human impact.",
      "You are 'The Ethicist'. Focus on the human impact, morality, and fairness. Ask who benefits and who is harmed. Be empathetic and principled.",
      Logic),
    Persona(
      "historian", "The Historian", "Historian",
      "Draws parallels to past events and historical cycles.",
      "You are 'The Historian'. Contextualize this topic with past examples. What happened last time we tried this? Use history to predict the future.",
      Creative),
    Persona(
      "devil_advocate", "The Devil's Advocate", "Contrarian",
      "Deliberately takes the contrarian view.",
      "You are 'The Devil's Advocate'. Your purpose is to challenge the consensus. Even if you agree, find the flaws in the logic. Be provocative but intellectual.",
      Raw),
    Persona(
      "analyst", "The Analyst", "Analyst",
      "Demands metrics, studies, and empirical evidence.",
      "You are 'The Analyst'. Trust only data. Ask for evidence, studies, and numbers. Be rigorous and detached.",
      Logic)
  ]

  predicate DistinctIds(ps: seq<Persona>) {
    forall i, j :: 0 <= i < j < |ps| ==> ps[i].id != ps[j].id
  }

  predicate DistinctRoles(ps: seq<Persona>) {
    forall i, j :: 0 <= i < j < |ps| ==> ps[i].role != ps[j].role
  }

  /** The first character of each id and of each role. */
  lemma PoolInitials()
    ensures |PersonaPool| == 6
    ensures forall k :: 0 <= k < 6 ==> PersonaPool[k].id != [] && PersonaPool[k].role != []
    ensures PersonaPool[0].id[0] == 'v' && PersonaPool[1].id[0] == 'p' && PersonaPool[2].id[0] == 'e'
    ensures PersonaPool[3].id[0] == 'h' && PersonaPool[4].id[0] == 'd' && PersonaPool[5].id[0] == 'a'
    ensures PersonaPool[0].role[0] == 'V' && PersonaPool[1].role[0] == 'P' && PersonaPool[2].role[0] == 'E'
    ensures PersonaPool[3].role[0] == 'H' && PersonaPool[4].role[0] == 'C' && PersonaPool[5].role[0] == 'A'
  {
  }

  /** The pool has six personas whose ids, and whose roles, are pairwise distinct. */
  lemma PoolFacts()
    ensures |PersonaPool| == 6
    ensures DistinctIds(PersonaPool)
    ensures DistinctRoles(PersonaPool)
  {
    // The ids, and the roles, already differ in their first character.
    PoolInitials();
    forall i, j | 0 <= i < j < |PersonaPool| ensures PersonaPool[i].id != PersonaPool[j].id {
      assert PersonaPool[i].id[0] != PersonaPool[j].id[0];
    }
    forall i, j | 0 <= i < j < |PersonaPool| ensures PersonaPool[i].role != PersonaPool[j].role {
      assert PersonaPool[i].role[0] != PersonaPool[j].role[0];
    }
  }
}
