/**
 * The five rounds of the debate as functions of the model replies. Every model call
 * is an oracle of the `Gateway`; a round maps its participants, in order, to the
 * message each one contributes (if any) and to the events it emits, and a message
 * takes the next value of the message counter.
 */
module DebateRounds {
  import opened Wrappers
  import opened JsString
  import opened SessionTypes
  import opened Personas
  import opened OpenRouter
  import opened DebateSelection
  import opened DebateText

  /**
   * The calls that are not part of this model: `callProvider` with a provider id,
   * `callAgent` with an agent role, and `getAgentDisplayName`.
   */
  datatype Gateway = Gateway(
    callProvider: (string, seq<ChatMessage>) -> Reply,
    callAgent: (string, seq<ChatMessage>) -> Reply,
    displayName: string -> string)

  /** What one participant's call contributes: at most one message, and the events emitted for it. */
  datatype Outcome = Outcome(message: Option<DebateMessage>, events: seq<Event>)

  /** What a round produces, and the value of the message counter after it. */
  datatype RoundResult = RoundResult(messages: seq<DebateMessage>, events: seq<Event>, next: nat)

  /** A participant's call, given the id its message would take. */
  type Step = (AssignedParticipant, nat) -> Outcome

  // ---------------------------------------------------------------- a round over participants

  /**
   * The participants in order; a kept message takes the counter's next value and
   * advances it. A dropped call consumes no id.
   */
  function RunSteps(ps: seq<AssignedParticipant>, step: Step, counter: nat): RoundResult {
    if ps == [] then RoundResult([], [], counter)
    else
      var r := RunSteps(ps[..|ps| - 1], step, counter);
      var o := step(ps[|ps| - 1], r.next + 1);
      RoundResult(r.messages + (if o.message.Some? then [o.message.value] else []),
                  r.events + o.events,
                  r.next + (if o.message.Some? then 1 else 0))
  }

  /** Extending the participants by one runs one more step after the others. */
  lemma RunStepsPrefix(ps: seq<AssignedParticipant>, i: nat, step: Step, counter: nat)
    requires i < |ps|
    ensures var r := RunSteps(ps[..i], step, counter);
      var o := step(ps[i], r.next + 1);
      RunSteps(ps[..i + 1], step, counter) ==
        RoundResult(r.messages + (if o.message.Some? then [o.message.value] else []),
                    r.events + o.events,
                    r.next + (if o.message.Some? then 1 else 0))
  {
    assert ps[..i + 1][..i] == ps[..i];
  }

  /** Every message a step returns carries the id it was given. */
  ghost predicate UsesId(step: Step) {
    forall p, id :: step(p, id).message.Some? ==> step(p, id).message.value.id == id
  }

  /** Every message a step returns belongs to round `round` and is well formed. */
  ghost predicate InRoundStep(step: Step, round: DebateRoundType) {
    forall p, id :: step(p, id).message.Some? ==>
      step(p, id).message.value.round == round && WellFormed(step(p, id).message.value)
  }

  /** The messages have the ids following `counter`, one by one. */
  predicate IdsFrom(ms: seq<DebateMessage>, counter: nat) {
    forall k :: 0 <= k < |ms| ==> ms[k].id == counter + k + 1
  }

  /** The messages all belong to round `round` and are well formed. */
  predicate InRound(ms: seq<DebateMessage>, round: DebateRoundType) {
    forall k :: 0 <= k < |ms| ==> ms[k].round == round && WellFormed(ms[k])
  }

  /**
   * A round keeps at most one message per participant, numbers them from the
   * counter on and advances the counter by their number.
   */
  lemma {:induction false} RunStepsIds(ps: seq<AssignedParticipant>, step: Step, counter: nat, round: DebateRoundType)
    requires UsesId(step) && InRoundStep(step, round)
    ensures var r := RunSteps(ps, step, counter);
      |r.messages| <= |ps| && r.next == counter + |r.messages| &&
      IdsFrom(r.messages, counter) && InRound(r.messages, round)
  {
    if ps != [] {
      RunStepsIds(ps[..|ps| - 1], step, counter, round);
    }
  }

  /**
   * When no call is dropped, message `k` is the one participant `k` contributes,
   * with the `k`-th id after the counter.
   */
  lemma {:induction false} RunStepsTotal(ps: seq<AssignedParticipant>, step: Step, counter: nat)
    requires forall p, id :: step(p, id).message.Some?
    ensures var r := RunSteps(ps, step, counter);
      |r.messages| == |ps| && r.next == counter + |ps| &&
      forall k :: 0 <= k < |ps| ==> r.messages[k] == step(ps[k], counter + k + 1).message.value
  {
    if ps != [] {
      var init := ps[..|ps| - 1];
      RunStepsTotal(init, step, counter);
      var r := RunSteps(init, step, counter);
      forall k | 0 <= k < |init|
        ensures ps[k] == init[k]
      {
      }
    }
  }

  /** Every message a step returns is spoken by the participant it was called for. */
  ghost predicate KeepsRole(step: Step) {
    forall p, id :: step(p, id).message.Some? ==> step(p, id).message.value.role == p.persona.role
  }

  /** One of the participants has the message's role. */
  predicate ByParticipant(m: DebateMessage, ps: seq<AssignedParticipant>) {
    exists j :: 0 <= j < |ps| && ps[j].persona.role == m.role
  }

  predicate AllByParticipants(ms: seq<DebateMessage>, ps: seq<AssignedParticipant>) {
    forall k :: 0 <= k < |ms| ==> ByParticipant(ms[k], ps)
  }

  /** Every message of a round is spoken by one of its participants. */
  lemma {:induction false} RunStepsByParticipants(ps: seq<AssignedParticipant>, step: Step, counter: nat)
    requires KeepsRole(step)
    ensures AllByParticipants(RunSteps(ps, step, counter).messages, ps)
  {
    if ps != [] {
      var init := ps[..|ps| - 1];
      RunStepsByParticipants(init, step, counter);
      var r := RunSteps(init, step, counter);
      forall k | 0 <= k < |r.messages|
        ensures ByParticipant(r.messages[k], ps)
      {
        var j :| 0 <= j < |init| && init[j].persona.role == r.messages[k].role;
        assert ps[j] == init[j];
      }
      var o := step(ps[|ps| - 1], r.next + 1);
      if o.message.Some? {
        assert ps[|ps| - 1].persona.role == o.message.value.role;
      }
    }
  }

  /** Adding participants keeps every message spoken by one of them. */
  lemma ByMoreParticipants(ms: seq<DebateMessage>, ps: seq<AssignedParticipant>, more: seq<AssignedParticipant>)
    requires AllByParticipants(ms, ps)
    ensures AllByParticipants(ms, ps + more)
  {
    forall k | 0 <= k < |ms|
      ensures ByParticipant(ms[k], ps + more)
    {
      var j :| 0 <= j < |ps| && ps[j].persona.role == ms[k].role;
      assert (ps + more)[j] == ps[j];
    }
  }

  /** `origin` lists, for each kept message, the participant it came from. */
  predicate Origins(ps: seq<AssignedParticipant>, step: Step, counter: nat, r: RoundResult, origin: seq<nat>) {
    |origin| == |r.messages| &&
    (forall k :: 0 <= k < |origin| ==> origin[k] < |ps|) &&
    (forall k, l :: 0 <= k < l < |origin| ==> origin[k] < origin[l]) &&
    (forall k :: 0 <= k < |origin| ==> step(ps[origin[k]], counter + k + 1).message == Some(r.messages[k]))
  }

  /** Which participants' messages a round keeps, in participant order. */
  function Kept(ps: seq<AssignedParticipant>, step: Step, counter: nat): (origin: seq<nat>)
    ensures forall k :: 0 <= k < |origin| ==> origin[k] < |ps|
  {
    if ps == [] then []
    else
      var r := RunSteps(ps[..|ps| - 1], step, counter);
      Kept(ps[..|ps| - 1], step, counter) +
        (if step(ps[|ps| - 1], r.next + 1).message.Some? then [|ps| - 1] else [])
  }

  /**
   * The messages of a round are the contributions of a subsequence of the
   * participants, in participant order: `Kept` names them.
   */
  lemma {:induction false} RunStepsKept(ps: seq<AssignedParticipant>, step: Step, counter: nat)
    ensures Origins(ps, step, counter, RunSteps(ps, step, counter), Kept(ps, step, counter))
  {
    if ps != [] {
      var init := ps[..|ps| - 1];
      RunStepsKept(init, step, counter);
      var r := RunSteps(init, step, counter);
      var origin := Kept(init, step, counter);
      forall k | 0 <= k < |origin|
        ensures ps[origin[k]] == init[origin[k]]
      {
      }
      RunStepsNext(init, step, counter);
    }
  }

  /** The counter advances by the number of kept messages. */
  lemma {:induction false} RunStepsNext(ps: seq<AssignedParticipant>, step: Step, counter: nat)
    ensures RunSteps(ps, step, counter).next == counter + |RunSteps(ps, step, counter).messages|
  {
    if ps != [] {
      RunStepsNext(ps[..|ps| - 1], step, counter);
    }
  }

  /** A participant not kept contributed nothing: its call was dropped. */
  lemma {:induction false} RunStepsDropped(ps: seq<AssignedParticipant>, step: Step, counter: nat, i: nat)
    requires i < |ps| && i !in Kept(ps, step, counter)
    ensures step(ps[i], RunSteps(ps[..i], step, counter).next + 1).message.None?
  {
    var init := ps[..|ps| - 1];
    if i < |ps| - 1 {
      assert i !in Kept(init, step, counter);
      RunStepsDropped(init, step, counter, i);
      assert init[..i] == ps[..i];
    } else {
      assert init == ps[..i];
    }
  }

  // ---------------------------------------------------------------- round 1: the pitch

  // The fixed texts of the prompts are constants, so that a proof that never looks
  // inside a prompt never has to unfold them.
  const PitchIntro := "\n\nYou are participating in a debate about: \""
  const PitchInstruction := "\"\n\nMake a high-impact elevator pitch for your perspective. Hook the audience immediately.\n\nBe extremely concise (max 100 words)."
  const TopicLabel := "Debate Topic: "
  const ContextLabel := "\n\nContext:\n"
  const PitchOpening := "\n\nProvide your opening pitch."

  /** The system and user messages of a persona's pitch request. */
  function PitchPrompt(persona: Persona, topic: string, contextsText: string): seq<ChatMessage> {
    [ChatMessage(System, persona.agenda + PitchIntro + topic + PitchInstruction),
     ChatMessage(User, TopicLabel + topic + (if contextsText != "" then ContextLabel + contextsText else PitchOpening))]
  }

  /** The contexts block of the pitch prompt, empty without contexts. */
  function ContextsText(contexts: seq<Context>): string {
    if |contexts| > 0 then FormatContextsContext(contexts) else ""
  }

  /**
   * One participant's pitch. A failed call still yields a message, with the error
   * in its content and without position or key points, and an `error` event.
   */
  function PitchStep(gw: Gateway, prompt: seq<ChatMessage>, p: AssignedParticipant, id: nat): (o: Outcome)
    ensures o.message.Some?
    ensures var m := o.message.value;
      m.id == id && m.role == p.persona.role && m.personaId == Some(p.persona.id) && m.agent == p.agent &&
      m.round == Pitch && m.roundNumber == 1 && m.target == Some("all") &&
      m.revisions.None? && m.confidenceScore.None?
    ensures var m := o.message.value;
      match gw.callProvider(p.providerId, prompt)
      case Ok(text) =>
        m.content == text && m.position == Some(ExtractPosition(text)) && m.keyPoints == Some(KeyPoints(text)) &&
        o.events == [DebateMessageEvent(m), MessageEvent(AgentMessage(p.persona.role, "Pitch delivered", Some(p.agent)))]
      case Err(e) =>
        m.content == "[Error: Could not generate pitch. " + e + "]" && m.position.None? && m.keyPoints.None? &&
        o.events == [ErrorEvent(p.persona.role + " pitch failed: " + e)]
  {
    var persona := p.persona;
    match gw.callProvider(p.providerId, prompt)
    case Ok(content) =>
      var m := DebateMessage(id, persona.role, Some(persona.id), p.agent, Pitch, 1, Some("all"), content,
                             Some(ExtractPosition(content)), Some(KeyPoints(content)), None, None);
      Outcome(Some(m), [DebateMessageEvent(m), MessageEvent(AgentMessage(persona.role, "Pitch delivered", Some(p.agent)))])
    case Err(e) =>
      var m := DebateMessage(id, persona.role, Some(persona.id), p.agent, Pitch, 1, Some("all"),
                             "[Error: Could not generate pitch. " + e + "]", None, None, None, None);
      Outcome(Some(m), [ErrorEvent(persona.role + " pitch failed: " + e)])
  }

  function PitchSteps(gw: Gateway, topic: string, contextsText: string): Step {
    (p: AssignedParticipant, id: nat) => PitchStep(gw, PitchPrompt(p.persona, topic, contextsText), p, id)
  }

  /** `executePitchRound`. */
  function PitchRound(gw: Gateway, topic: string, ps: seq<AssignedParticipant>, contexts: seq<Context>, counter: nat): RoundResult {
    RunSteps(ps, PitchSteps(gw, topic, ContextsText(contexts)), counter)
  }

  /**
   * The pitch round yields exactly one message per participant, in participant
   * order, with consecutive ids, each in round 1 and addressed to all.
   */
  lemma PitchRoundProperties(gw: Gateway, topic: string, ps: seq<AssignedParticipant>, contexts: seq<Context>, counter: nat)
    ensures var r := PitchRound(gw, topic, ps, contexts, counter);
      |r.messages| == |ps| && r.next == counter + |ps| &&
      IdsFrom(r.messages, counter) && InRound(r.messages, Pitch) &&
      forall k :: 0 <= k < |ps| ==>
        r.messages[k] == PitchStep(gw, PitchPrompt(ps[k].persona, topic, ContextsText(contexts)), ps[k], counter + k + 1).message.value &&
        r.messages[k].role == ps[k].persona.role && r.messages[k].target == Some("all")
  {
    var step := PitchSteps(gw, topic, ContextsText(contexts));
    RunStepsTotal(ps, step, counter);
    PitchStepsFacts(gw, topic, ContextsText(contexts));
    RunStepsIds(ps, step, counter, Pitch);
  }

  lemma PitchStepsFacts(gw: Gateway, topic: string, contextsText: string)
    ensures UsesId(PitchSteps(gw, topic, contextsText)) && InRoundStep(PitchSteps(gw, topic, contextsText), Pitch)
  {
  }

  // ---------------------------------------------------------------- round 2: cross-fire

  /** `pitchMessages.find`: the first pitch of the persona. */
  function FindPitch(pitches: seq<DebateMessage>, personaId: string): (r: Option<DebateMessage>)
    ensures r.Some? ==> r.value in pitches && r.value.personaId == Some(personaId)
    ensures r.None? ==> forall k :: 0 <= k < |pitches| ==> pitches[k].personaId != Some(personaId)
    ensures r.Some? ==>
      exists k :: 0 <= k < |pitches| && pitches[k] == r.value && (forall l :: 0 <= l < k ==> pitches[l].personaId != Some(personaId))
  {
    if pitches == [] then None
    else if pitches[0].personaId == Some(personaId) then Some(pitches[0])
    else
      var r := FindPitch(pitches[1..], personaId);
      assert forall l :: 1 <= l < |pitches| ==> pitches[l] == pitches[1..][l - 1];
      r
  }

  /**
   * `getCrossFireTarget`, with the random draw given as the index `targetIndex`:
   * no target without participants, for an index out of range, or without a pitch
   * by the chosen participant.
   */
  function CrossFireTarget(ps: seq<AssignedParticipant>, pitches: seq<DebateMessage>, targetIndex: nat): (r: Option<(AssignedParticipant, DebateMessage)>)
    ensures r.Some? <==> targetIndex < |ps| && FindPitch(pitches, ps[targetIndex].persona.id).Some?
    ensures r.Some? ==> r.value.0 == ps[targetIndex] && r.value.1 == FindPitch(pitches, ps[targetIndex].persona.id).value
  {
    if |ps| == 0 then None
    else if targetIndex >= |ps| then None
    else
      match FindPitch(pitches, ps[targetIndex].persona.id)
      case None => None
      case Some(pitch) => Some((ps[targetIndex], pitch))
  }

  const ChallengeIntro := "\n\nYou are the WILDCARD entering the debate. Challenge the "
  const ChallengeInstruction := "'s perspective with a completely new angle.\n\nBe concise and provocative (max 75 words)."
  const PitchLabel := "'s Pitch: \""
  const ChallengeClose := "\"\n\nChallenge them!"

  /** The wildcard's request to challenge the target's pitch. */
  function ChallengePrompt(wildcard: Persona, target: Persona, topic: string, pitch: DebateMessage): seq<ChatMessage> {
    [ChatMessage(System, wildcard.agenda + ChallengeIntro + target.role + ChallengeInstruction),
     ChatMessage(User, TopicLabel + "\"" + topic + "\"\n\n" + target.role + PitchLabel + pitch.content + ChallengeClose)]
  }

  /** `generateWildcardChallenge`: the wildcard challenges the target; a failed call gives nothing. */
  function ChallengeStep(gw: Gateway, prompt: seq<ChatMessage>, wildcard: AssignedParticipant, target: AssignedParticipant,
                         id: nat): (o: Outcome)
    ensures o.message.Some? <==> gw.callProvider(wildcard.providerId, prompt).Ok?
    ensures o.message.None? ==> o.events == []
    ensures o.message.Some? ==> var m := o.message.value;
      m.id == id && m.role == wildcard.persona.role && m.personaId == Some(wildcard.persona.id) &&
      m.agent == wildcard.agent && m.round == CrossFire && m.roundNumber == 2 && m.target == Some(target.persona.role) &&
      m.content == gw.callProvider(wildcard.providerId, prompt).text &&
      m.position.None? && m.keyPoints.None? && m.confidenceScore.None? &&
      o.events == [DebateMessageEvent(m), MessageEvent(AgentMessage(wildcard.persona.role, "Wildcard challenge!", Some(wildcard.agent)))]
  {
    match gw.callProvider(wildcard.providerId, prompt)
    case Err(_) => Outcome(None, [])
    case Ok(content) =>
      var m := DebateMessage(id, wildcard.persona.role, Some(wildcard.persona.id), wildcard.agent, CrossFire, 2,
                             Some(target.persona.role), content, None, None, None, None);
      Outcome(Some(m), [DebateMessageEvent(m), MessageEvent(AgentMessage(wildcard.persona.role, "Wildcard challenge!", Some(wildcard.agent)))])
  }

  const ResponseIntro := "\n\nA Wildcard ("
  const ResponseInstruction := ") has challenged you. Respond immediately and defend your ground.\n\nFlash message (max 50 words)."
  const ChallengeLabel := "Challenge from "
  const ResponseClose := "\"\n\nRespond!"

  /** The target's request to answer the challenge. */
  function ResponsePrompt(target: Persona, wildcard: Persona, challenge: DebateMessage): seq<ChatMessage> {
    [ChatMessage(System, target.agenda + ResponseIntro + wildcard.role + ResponseInstruction),
     ChatMessage(User, ChallengeLabel + wildcard.role + ": \"" + challenge.content + ResponseClose)]
  }

  /** `generateCrossFireResponse`: the target answers the challenge; a failed call gives nothing. */
  function ResponseStep(gw: Gateway, prompt: seq<ChatMessage>, target: AssignedParticipant, wildcard: AssignedParticipant,
                        id: nat): (o: Outcome)
    ensures o.message.Some? <==> gw.callProvider(target.providerId, prompt).Ok?
    ensures o.message.None? ==> o.events == []
    ensures o.message.Some? ==> var m := o.message.value;
      m.id == id && m.role == target.persona.role && m.personaId == Some(target.persona.id) &&
      m.agent == target.agent && m.round == CrossFire && m.roundNumber == 2 && m.target == Some(wildcard.persona.role) &&
      m.content == gw.callProvider(target.providerId, prompt).text &&
      o.events == [DebateMessageEvent(m)]
  {
    match gw.callProvider(target.providerId, prompt)
    case Err(_) => Outcome(None, [])
    case Ok(content) =>
      var m := DebateMessage(id, target.persona.role, Some(target.persona.id), target.agent, CrossFire, 2,
                             Some(wildcard.persona.role), content, None, None, None, None);
      Outcome(Some(m), [DebateMessageEvent(m)])
  }

  /** `executeCrossFireRound`: the challenge, then the reply to it when the challenge succeeded. */
  function CrossFireRound(gw: Gateway, topic: string, ps: seq<AssignedParticipant>, wildcard: AssignedParticipant,
                          pitches: seq<DebateMessage>, targetIndex: nat, counter: nat): RoundResult {
    match CrossFireTarget(ps, pitches, targetIndex)
    case None => RoundResult([], [], counter)
    case Some((target, pitch)) =>
      var ch := ChallengeStep(gw, ChallengePrompt(wildcard.persona, target.persona, topic, pitch), wildcard, target, counter + 1);
      match ch.message
      case None => RoundResult([], ch.events, counter)
      case Some(challenge) =>
        var rs := ResponseStep(gw, ResponsePrompt(target.persona, wildcard.persona, challenge), target, wildcard, counter + 2);
        match rs.message
        case None => RoundResult([challenge], ch.events + rs.events, counter + 1)
        case Some(response) => RoundResult([challenge, response], ch.events + rs.events, counter + 2)
  }

  /**
   * Cross-fire yields at most two messages: none without a target; otherwise the
   * wildcard's challenge to the target, then the target's reply to the wildcard,
   * the reply only when the challenge succeeded.
   */
  lemma CrossFireProperties(gw: Gateway, topic: string, ps: seq<AssignedParticipant>, wildcard: AssignedParticipant,
                            pitches: seq<DebateMessage>, targetIndex: nat, counter: nat)
    ensures var r := CrossFireRound(gw, topic, ps, wildcard, pitches, targetIndex, counter);
      |r.messages| <= 2 && r.next == counter + |r.messages| &&
      IdsFrom(r.messages, counter) && InRound(r.messages, CrossFire) &&
      (CrossFireTarget(ps, pitches, targetIndex).None? ==> r.messages == [] && r.events == []) &&
      (|ps| == 0 ==> r.messages == []) &&
      (r.messages != [] ==>
        targetIndex < |ps| &&
        r.messages[0].role == wildcard.persona.role && r.messages[0].target == Some(ps[targetIndex].persona.role)) &&
      (|r.messages| == 2 ==>
        r.messages[1].role == ps[targetIndex].persona.role && r.messages[1].target == Some(wildcard.persona.role))
  {
  }

  // ---------------------------------------------------------------- round 3: the stress test

  const ModeratorInstruction := "You are the Debate Moderator. Generate a specific, challenging hypothetical failure scenario related to the topic. Force the debaters to apply their abstract ideas to a concrete problem."
  const ScenarioRequest := "\n\nGenerate a 'Stress Test' scenario (max 2 sentences)."

  /** The moderator's request for a failure scenario. */
  function ScenarioPrompt(topic: string): seq<ChatMessage> {
    [ChatMessage(System, ModeratorInstruction), ChatMessage(User, "Topic: " + topic + ScenarioRequest)]
  }

  const FallbackScenario := "Imagine this approach fails catastrophically in 5 years. Why?"

  /** The moderator's scenario, or the fixed one when the call fails. */
  function Scenario(gw: Gateway, topic: string): string {
    match gw.callAgent("Moderator", ScenarioPrompt(topic))
    case Ok(s) => s
    case Err(_) => FallbackScenario
  }

  /** The moderator's narration: only when the call succeeded. */
  function ScenarioEvents(gw: Gateway, topic: string): (evs: seq<Event>)
    ensures gw.callAgent("Moderator", ScenarioPrompt(topic)).Err? ==> evs == []
    ensures gw.callAgent("Moderator", ScenarioPrompt(topic)).Ok? ==>
      evs == [MessageEvent(AgentMessage("Moderator", "Stress Test Scenario: " + Scenario(gw, topic), Some(gw.displayName("Moderator"))))]
  {
    match gw.callAgent("Moderator", ScenarioPrompt(topic))
    case Ok(s) => [MessageEvent(AgentMessage("Moderator", "Stress Test Scenario: " + s, Some(gw.displayName("Moderator"))))]
    case Err(_) => []
  }

  const StressInstruction := "\n\nThe Moderator has posed a Stress Test scenario. Explain how your perspective handles this specific failure mode.\n\nBe realistic (max 100 words)."
  const StressClose := "\"\n\nYour message?"

  /** A participant's request to answer the scenario. */
  function StressPrompt(persona: Persona, scenario: string): seq<ChatMessage> {
    [ChatMessage(System, persona.agenda + StressInstruction), ChatMessage(User, "Scenario: \"" + scenario + StressClose)]
  }

  /** One participant's answer to the scenario; a failed call gives nothing. */
  function StressStep(gw: Gateway, prompt: seq<ChatMessage>, scenario: string, p: AssignedParticipant, id: nat): (o: Outcome)
    ensures o.message.Some? <==> gw.callProvider(p.providerId, prompt).Ok?
    ensures o.message.None? ==> o.events == []
    ensures o.message.Some? ==> var m := o.message.value;
      m.id == id && m.role == p.persona.role && m.personaId == Some(p.persona.id) && m.agent == p.agent &&
      m.round == StressTest && m.roundNumber == 3 && m.target == Some("Moderator") &&
      m.content == "[Re: " + scenario + "] " + gw.callProvider(p.providerId, prompt).text &&
      o.events == [DebateMessageEvent(m)]
  {
    match gw.callProvider(p.providerId, prompt)
    case Err(_) => Outcome(None, [])
    case Ok(content) =>
      var m := DebateMessage(id, p.persona.role, Some(p.persona.id), p.agent, StressTest, 3, Some("Moderator"),
                             "[Re: " + scenario + "] " + content, None, None, None, None);
      Outcome(Some(m), [DebateMessageEvent(m)])
  }

  function StressSteps(gw: Gateway, scenario: string): Step {
    (p: AssignedParticipant, id: nat) => StressStep(gw, StressPrompt(p.persona, scenario), scenario, p, id)
  }

  /** `executeStressTestRound`: the scenario, then the participants' answers. */
  function StressTestRound(gw: Gateway, topic: string, ps: seq<AssignedParticipant>, counter: nat): RoundResult {
    var r := RunSteps(ps, StressSteps(gw, Scenario(gw, topic)), counter);
    RoundResult(r.messages, ScenarioEvents(gw, topic) + r.events, r.next)
  }

  /**
   * The stress test keeps the successful answers, in participant order, with
   * consecutive ids; a participant left out had its call fail.
   */
  lemma StressTestProperties(gw: Gateway, topic: string, ps: seq<AssignedParticipant>, counter: nat)
    ensures var r := StressTestRound(gw, topic, ps, counter);
      |r.messages| <= |ps| && r.next == counter + |r.messages| &&
      IdsFrom(r.messages, counter) && AllByParticipants(r.messages, ps) && InRound(r.messages, StressTest) &&
      Origins(ps, StressSteps(gw, Scenario(gw, topic)), counter,
              RunSteps(ps, StressSteps(gw, Scenario(gw, topic)), counter),
              Kept(ps, StressSteps(gw, Scenario(gw, topic)), counter)) &&
      forall k :: 0 <= k < |r.messages| ==> r.messages[k].target == Some("Moderator")
  {
    var step := StressSteps(gw, Scenario(gw, topic));
    assert UsesId(step) && InRoundStep(step, StressTest);
    RunStepsIds(ps, step, counter, StressTest);
    RunStepsKept(ps, step, counter);
    assert KeepsRole(step);
    RunStepsByParticipants(ps, step, counter);
    var r := RunSteps(ps, step, counter);
    var origin := Kept(ps, step, counter);
    forall k | 0 <= k < |r.messages|
      ensures r.messages[k].target == Some("Moderator")
    {
      assert step(ps[origin[k]], counter + k + 1).message == Some(r.messages[k]);
    }
  }

  /** Without a moderator reply the scenario is the fixed sentence, in every prompt and message. */
  lemma StressFallback(gw: Gateway, topic: string, ps: seq<AssignedParticipant>, counter: nat)
    requires gw.callAgent("Moderator", ScenarioPrompt(topic)).Err?
    ensures Scenario(gw, topic) == FallbackScenario
    ensures StressTestRound(gw, topic, ps, counter).events == RunSteps(ps, StressSteps(gw, FallbackScenario), counter).events
  {
  }

  // ---------------------------------------------------------------- round 4: the steel man

  const SteelManInstruction := "\n\nNow, articulate the STRONGEST version of the opposing argument. Demonstrate intellectual honesty.\n\nStart with 'The strongest argument against my view is...'\n\n(Max 100 words)."
  const SteelManRequest := "\n\nSteel-man the opposition."

  /** A participant's request to steel-man the opposing view. */
  function SteelManPrompt(persona: Persona, topic: string): seq<ChatMessage> {
    [ChatMessage(System, persona.agenda + SteelManInstruction), ChatMessage(User, "Topic: " + topic + SteelManRequest)]
  }

  /** One participant's steel man of the opposing view; a failed call gives nothing. */
  function SteelManStep(gw: Gateway, prompt: seq<ChatMessage>, p: AssignedParticipant, id: nat): (o: Outcome)
    ensures o.message.Some? <==> gw.callProvider(p.providerId, prompt).Ok?
    ensures o.message.None? ==> o.events == []
    ensures o.message.Some? ==> var m := o.message.value;
      m.id == id && m.role == p.persona.role && m.personaId == Some(p.persona.id) && m.agent == p.agent &&
      m.round == SteelMan && m.roundNumber == 4 && m.target == Some("all") &&
      m.content == gw.callProvider(p.providerId, prompt).text &&
      o.events == [DebateMessageEvent(m)]
  {
    match gw.callProvider(p.providerId, prompt)
    case Err(_) => Outcome(None, [])
    case Ok(content) =>
      var m := DebateMessage(id, p.persona.role, Some(p.persona.id), p.agent, SteelMan, 4, Some("all"),
                             content, None, None, None, None);
      Outcome(Some(m), [DebateMessageEvent(m)])
  }

  function SteelManSteps(gw: Gateway, topic: string): Step {
    (p: AssignedParticipant, id: nat) => SteelManStep(gw, SteelManPrompt(p.persona, topic), p, id)
  }

  /** `executeSteelManRound`. */
  function SteelManRound(gw: Gateway, topic: string, ps: seq<AssignedParticipant>, counter: nat): RoundResult {
    RunSteps(ps, SteelManSteps(gw, topic), counter)
  }

  /** The steel man round keeps the successful answers, in participant order, with consecutive ids. */
  lemma SteelManProperties(gw: Gateway, topic: string, ps: seq<AssignedParticipant>, counter: nat)
    ensures var r := SteelManRound(gw, topic, ps, counter);
      |r.messages| <= |ps| && r.next == counter + |r.messages| &&
      IdsFrom(r.messages, counter) && AllByParticipants(r.messages, ps) && InRound(r.messages, SteelMan) &&
      Origins(ps, SteelManSteps(gw, topic), counter, r, Kept(ps, SteelManSteps(gw, topic), counter)) &&
      forall k :: 0 <= k < |r.messages| ==> r.messages[k].target == Some("all")
  {
    var step := SteelManSteps(gw, topic);
    assert UsesId(step) && InRoundStep(step, SteelMan);
    RunStepsIds(ps, step, counter, SteelMan);
    RunStepsKept(ps, step, counter);
    assert KeepsRole(step);
    RunStepsByParticipants(ps, step, counter);
    var r := RunSteps(ps, step, counter);
    var origin := Kept(ps, step, counter);
    forall k | 0 <= k < |r.messages|
      ensures r.messages[k].target == Some("all")
    {
      assert step(ps[origin[k]], counter + k + 1).message == Some(r.messages[k]);
    }
  }

  // ---------------------------------------------------------------- round 5: consensus

  const ConsensusInstruction := "\n\nFinal verdict. Give your closing statement and a Confidence Score (0-100%) in the proposed path forward.\n\nFormat:\nStatement: [Your text]\nScore: [0-100]"
  const RecapLabel := "\n\nRecent debate messages:\n"
  const ConsensusRequest := "\n\nProvide your final verdict and confidence score."

  /** A participant's request for a closing statement and score, given the recap. */
  function ConsensusPrompt(persona: Persona, topic: string, recap: string): seq<ChatMessage> {
    [ChatMessage(System, persona.agenda + ConsensusInstruction),
     ChatMessage(User, "Topic: " + topic + RecapLabel + recap + ConsensusRequest)]
  }

  /** One participant's verdict: the statement without the score, and the clamped score. */
  function ConsensusStep(gw: Gateway, prompt: seq<ChatMessage>, p: AssignedParticipant, id: nat): (o: Outcome)
    ensures o.message.Some? <==> gw.callProvider(p.providerId, prompt).Ok?
    ensures o.message.None? ==> o.events == []
    ensures o.message.Some? ==> var m := o.message.value;
      var raw := gw.callProvider(p.providerId, prompt).text;
      m.id == id && m.role == p.persona.role && m.personaId == Some(p.persona.id) && m.agent == p.agent &&
      m.round == Consensus && m.roundNumber == 5 && m.target == Some("all") &&
      m.content == ConsensusContent(raw) && m.confidenceScore == Some(ConfidenceScore(raw)) &&
      o.events == [DebateMessageEvent(m),
                   MessageEvent(AgentMessage(p.persona.role, "Final verdict given (Confidence: " + IntToString(ConfidenceScore(raw)) + "%)", Some(p.agent)))]
  {
    match gw.callProvider(p.providerId, prompt)
    case Err(_) => Outcome(None, [])
    case Ok(raw) =>
      var score := ConfidenceScore(raw);
      var m := DebateMessage(id, p.persona.role, Some(p.persona.id), p.agent, Consensus, 5, Some("all"),
                             ConsensusContent(raw), None, None, None, Some(score));
      Outcome(Some(m), [DebateMessageEvent(m),
                        MessageEvent(AgentMessage(p.persona.role, "Final verdict given (Confidence: " + IntToString(score) + "%)", Some(p.agent)))])
  }

  function ConsensusSteps(gw: Gateway, topic: string, recap: string): Step {
    (p: AssignedParticipant, id: nat) => ConsensusStep(gw, ConsensusPrompt(p.persona, topic, recap), p, id)
  }

  /** `executeConsensusRound`: every participant sees the recap of the earlier messages. */
  function ConsensusRound(gw: Gateway, topic: string, ps: seq<AssignedParticipant>, earlier: seq<DebateMessage>, counter: nat): RoundResult {
    RunSteps(ps, ConsensusSteps(gw, topic, Recap(earlier)), counter)
  }

  /**
   * The consensus round keeps the successful verdicts, in participant order, with
   * consecutive ids, each with a confidence score in [0, 100].
   */
  lemma ConsensusProperties(gw: Gateway, topic: string, ps: seq<AssignedParticipant>, earlier: seq<DebateMessage>, counter: nat)
    ensures var r := ConsensusRound(gw, topic, ps, earlier, counter);
      |r.messages| <= |ps| && r.next == counter + |r.messages| &&
      IdsFrom(r.messages, counter) && AllByParticipants(r.messages, ps) && InRound(r.messages, Consensus) &&
      Origins(ps, ConsensusSteps(gw, topic, Recap(earlier)), counter, r, Kept(ps, ConsensusSteps(gw, topic, Recap(earlier)), counter)) &&
      forall k :: 0 <= k < |r.messages| ==>
        r.messages[k].confidenceScore.Some? && 0 <= r.messages[k].confidenceScore.value <= 100
  {
    var step := ConsensusSteps(gw, topic, Recap(earlier));
    ConsensusStepsFacts(gw, topic, Recap(earlier));
    RunStepsIds(ps, step, counter, Consensus);
    RunStepsKept(ps, step, counter);
    RunStepsByParticipants(ps, step, counter);
    ConsensusScored(gw, topic, ps, earlier, counter);
  }

  lemma ConsensusStepsFacts(gw: Gateway, topic: string, recap: string)
    ensures UsesId(ConsensusSteps(gw, topic, recap)) && InRoundStep(ConsensusSteps(gw, topic, recap), Consensus)
    ensures KeepsRole(ConsensusSteps(gw, topic, recap))
  {
    var step := ConsensusSteps(gw, topic, recap);
    forall p, id | step(p, id).message.Some?
      ensures step(p, id).message.value.id == id && step(p, id).message.value.round == Consensus
      ensures WellFormed(step(p, id).message.value) && step(p, id).message.value.role == p.persona.role
    {
      ConsensusVerdict(gw, topic, recap, p, id);
    }
  }

  lemma ConsensusVerdict(gw: Gateway, topic: string, recap: string, p: AssignedParticipant, id: nat)
    ensures var o := ConsensusSteps(gw, topic, recap)(p, id);
      o.message.Some? ==>
        o.message.value.id == id && o.message.value.round == Consensus &&
        WellFormed(o.message.value) && o.message.value.role == p.persona.role
  {
    var prompt := ConsensusPrompt(p.persona, topic, recap);
    VerdictWellFormed(gw, prompt, p, id);
    assert ConsensusSteps(gw, topic, recap)(p, id) == ConsensusStep(gw, prompt, p, id);
  }

  lemma VerdictWellFormed(gw: Gateway, prompt: seq<ChatMessage>, p: AssignedParticipant, id: nat)
    ensures var o := ConsensusStep(gw, prompt, p, id);
      o.message.Some? ==>
        o.message.value.id == id && o.message.value.round == Consensus &&
        WellFormed(o.message.value) && o.message.value.role == p.persona.role
  {
  }

  lemma ConsensusScored(gw: Gateway, topic: string, ps: seq<AssignedParticipant>, earlier: seq<DebateMessage>, counter: nat)
    ensures var r := ConsensusRound(gw, topic, ps, earlier, counter);
      forall k :: 0 <= k < |r.messages| ==>
        r.messages[k].confidenceScore.Some? && 0 <= r.messages[k].confidenceScore.value <= 100
  {
    var step := ConsensusSteps(gw, topic, Recap(earlier));
    RunStepsKept(ps, step, counter);
    var r := RunSteps(ps, step, counter);
    var origin := Kept(ps, step, counter);
    forall k | 0 <= k < |r.messages|
      ensures r.messages[k].confidenceScore.Some?
    {
      assert step(ps[origin[k]], counter + k + 1).message == Some(r.messages[k]);
    }
  }
}
