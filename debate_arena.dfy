/**
 * The debate as the source runs it: a module-level message counter that every
 * kept message advances, an event callback that receives every event in order,
 * and `runDebate`, which selects the participants and runs the five rounds.
 * The counter and the callback's log are the fields of an `Arena`; each method is
 * proved against the round functions of `DebateRounds`, and the whole debate
 * against `Debate`, whose properties are proved as lemmas.
 */
module DebateArena {
  import opened Wrappers
  import opened JsString
  import opened SessionTypes
  import opened Personas
  import opened DebateSelection
  import opened DebateText
  import opened DebateRounds

  /** The messages of a debate, the events it emits and the counter after it. */
  datatype DebateRun = DebateRun(messages: seq<DebateMessage>, events: seq<Event>, next: nat)

  function CoreRoles(core: seq<AssignedParticipant>): (roles: seq<string>)
    ensures |roles| == |core| && forall k :: 0 <= k < |core| ==> roles[k] == core[k].persona.role
  {
    seq(|core|, k requires 0 <= k < |core| => core[k].persona.role)
  }

  /** The two events that announce the selection. */
  function SelectionEvents(a: Assignment): seq<Event> {
    [ParticipantsEvent(a.sessionParticipants),
     MessageEvent(AgentMessage("System", "Selected participants: " + Join(CoreRoles(a.core), ", "), None))]
  }

  /**
   * `runDebate` after the selection, as a function of the model replies: the pitch
   * by the core participants, the wildcard's cross-fire with the core participant
   * at `targetIndex`, then the stress test, the steel man and the consensus by all
   * four, the consensus seeing every earlier message.
   */
  function Debate(gw: Gateway, a: Assignment, topic: string, contexts: seq<Context>, targetIndex: nat, counter: nat): DebateRun {
    var p := PitchRound(gw, topic, a.core, contexts, counter);
    var c := CrossFireRound(gw, topic, a.core, a.wildcard, p.messages, targetIndex, p.next);
    var s := StressTestRound(gw, topic, a.all, c.next);
    var m := SteelManRound(gw, topic, a.all, s.next);
    var f := ConsensusRound(gw, topic, a.all, p.messages + c.messages + s.messages + m.messages, m.next);
    Compose(a, p, c, s, m, f)
  }

  /** The debate's transcript and events from those of its five rounds. */
  function Compose(a: Assignment, p: RoundResult, c: RoundResult, s: RoundResult, m: RoundResult, f: RoundResult): DebateRun {
    DebateRun(p.messages + c.messages + s.messages + m.messages + f.messages,
              SelectionEvents(a) + p.events + c.events + s.events + m.events + f.events, f.next)
  }

  // ---------------------------------------------------------------- the state

  /** The message counter and the events handed to the callback, oldest first. */
  class Arena {
    var counter: nat
    var events: seq<Event>

    constructor ()
      ensures counter == 0 && events == []
    {
      counter := 0;
      events := [];
    }

    /** `createDebateMessageId`: the counter's next value. */
    method CreateDebateMessageId() returns (id: nat)
      modifies this
      ensures counter == old(counter) + 1 && id == counter
      ensures events == old(events)
    {
      counter := counter + 1;
      id := counter;
    }

    /** `onEvent`. */
    method Emit(e: Event)
      modifies this
      ensures events == old(events) + [e]
      ensures counter == old(counter)
    {
      events := events + [e];
    }

    /** The events of one call, one after the other. */
    method EmitAll(es: seq<Event>)
      modifies this
      ensures events == old(events) + es
      ensures counter == old(counter)
    {
      for i := 0 to |es|
        invariant events == old(events) + es[..i]
        invariant counter == old(counter)
      {
        Emit(es[i]);
        assert es[..i + 1] == es[..i] + [es[i]];
      }
    }

    /**
     * One participant's call: a kept message takes the next id, then the call's
     * events are emitted.
     */
    method RunStep(step: Step, p: AssignedParticipant) returns (m: Option<DebateMessage>)
      modifies this
      ensures m == step(p, old(counter) + 1).message
      ensures counter == old(counter) + (if m.Some? then 1 else 0)
      ensures events == old(events) + step(p, old(counter) + 1).events
    {
      var o := step(p, counter + 1);
      m := o.message;
      if m.Some? {
        var id := CreateDebateMessageId();
      }
      EmitAll(o.events);
    }

    /** A round over the participants, in order. */
    method RunRound(ps: seq<AssignedParticipant>, step: Step) returns (msgs: seq<DebateMessage>)
      modifies this
      ensures var r := RunSteps(ps, step, old(counter));
        msgs == r.messages && counter == r.next && events == old(events) + r.events
    {
      ghost var c0, e0 := counter, events;
      ghost var acc := RunSteps([], step, c0);
      msgs := [];
      for i := 0 to |ps|
        invariant acc == RunSteps(ps[..i], step, c0)
        invariant msgs == acc.messages && counter == acc.next && events == e0 + acc.events
      {
        ghost var o := step(ps[i], acc.next + 1);
        var m := RunStep(step, ps[i]);
        if m.Some? {
          msgs := msgs + [m.value];
        }
        RunStepsPrefix(ps, i, step, c0);
        acc := RunSteps(ps[..i + 1], step, c0);
        assert events == e0 + acc.events;
      }
      assert ps[..|ps|] == ps;
    }

    /** `executePitchRound`. */
    method ExecutePitchRound(gw: Gateway, topic: string, ps: seq<AssignedParticipant>, contexts: seq<Context>)
      returns (msgs: seq<DebateMessage>)
      modifies this
      ensures var r := PitchRound(gw, topic, ps, contexts, old(counter));
        msgs == r.messages && counter == r.next && events == old(events) + r.events
    {
      msgs := RunRound(ps, PitchSteps(gw, topic, ContextsText(contexts)));
    }

    /** `executeCrossFireRound`. */
    method ExecuteCrossFireRound(gw: Gateway, topic: string, ps: seq<AssignedParticipant>, wildcard: AssignedParticipant,
                                 pitches: seq<DebateMessage>, targetIndex: nat)
      returns (msgs: seq<DebateMessage>)
      modifies this
      ensures var r := CrossFireRound(gw, topic, ps, wildcard, pitches, targetIndex, old(counter));
        msgs == r.messages && counter == r.next && events == old(events) + r.events
    {
      msgs := [];
      var t := CrossFireTarget(ps, pitches, targetIndex);
      if t.None? {
        return;
      }
      var target, pitch := t.value.0, t.value.1;
      var ch := ChallengeStep(gw, ChallengePrompt(wildcard.persona, target.persona, topic, pitch), wildcard, target, counter + 1);
      if ch.message.None? {
        EmitAll(ch.events);
        return;
      }
      var id := CreateDebateMessageId();
      EmitAll(ch.events);
      msgs := [ch.message.value];
      var rs := ResponseStep(gw, ResponsePrompt(target.persona, wildcard.persona, ch.message.value), target, wildcard, counter + 1);
      if rs.message.Some? {
        id := CreateDebateMessageId();
        msgs := msgs + [rs.message.value];
      }
      EmitAll(rs.events);
    }

    /** The first half of `executeStressTestRound`: the moderator's scenario, narrated when it came back. */
    method ModeratorScenario(gw: Gateway, topic: string) returns (scenario: string)
      modifies this
      ensures scenario == Scenario(gw, topic)
      ensures events == old(events) + ScenarioEvents(gw, topic) && counter == old(counter)
    {
      var reply := gw.callAgent("Moderator", ScenarioPrompt(topic));
      match reply {
        case Ok(s) =>
          scenario := s;
          Emit(MessageEvent(AgentMessage("Moderator", "Stress Test Scenario: " + s, Some(gw.displayName("Moderator")))));
        case Err(_) =>
          scenario := FallbackScenario;
      }
    }

    /** `executeStressTestRound`: the moderator's scenario, then the answers. */
    method ExecuteStressTestRound(gw: Gateway, topic: string, ps: seq<AssignedParticipant>) returns (msgs: seq<DebateMessage>)
      modifies this
      ensures var r := StressTestRound(gw, topic, ps, old(counter));
        msgs == r.messages && counter == r.next && events == old(events) + r.events
    {
      ghost var e0 := events;
      var scenario := ModeratorScenario(gw, topic);
      ghost var r := RunSteps(ps, StressSteps(gw, scenario), counter);
      msgs := RunRound(ps, StressSteps(gw, scenario));
      assert events == e0 + (ScenarioEvents(gw, topic) + r.events);
    }

    /** `executeSteelManRound`. */
    method ExecuteSteelManRound(gw: Gateway, topic: string, ps: seq<AssignedParticipant>) returns (msgs: seq<DebateMessage>)
      modifies this
      ensures var r := SteelManRound(gw, topic, ps, old(counter));
        msgs == r.messages && counter == r.next && events == old(events) + r.events
    {
      msgs := RunRound(ps, SteelManSteps(gw, topic));
    }

    /** `executeConsensusRound`. */
    method ExecuteConsensusRound(gw: Gateway, topic: string, ps: seq<AssignedParticipant>, earlier: seq<DebateMessage>)
      returns (msgs: seq<DebateMessage>)
      modifies this
      ensures var r := ConsensusRound(gw, topic, ps, earlier, old(counter));
        msgs == r.messages && counter == r.next && events == old(events) + r.events
    {
      msgs := RunRound(ps, ConsensusSteps(gw, topic, Recap(earlier)));
    }

    /**
     * `runDebate`. The source always selects from the persona pool, with which the
     * selection succeeds (`PoolSelection`); with a pool of fewer than four it throws
     * before emitting anything, which is the failure here.
     */
    method RunDebate(gw: Gateway, dir: Directory, pool: seq<Persona>, sessionId: string, topic: string,
                     contexts: seq<Context>, targetIndex: nat)
      returns (r: Result<(seq<DebateMessage>, seq<SessionParticipant>)>)
      modifies this
      ensures Select(pool, sessionId).Failure? ==>
        r == Failure(Select(pool, sessionId).error) && counter == old(counter) && events == old(events)
      ensures Select(pool, sessionId).Success? ==>
        var a := AssignmentOf(dir, sessionId, Select(pool, sessionId).value);
        var d := Debate(gw, a, topic, contexts, targetIndex, old(counter));
        r == Success((d.messages, a.sessionParticipants)) && counter == d.next && events == old(events) + d.events
    {
      var selected := AssignDebateParticipants(dir, pool, sessionId);
      if selected.Failure? {
        return Failure(selected.error);
      }
      var a := selected.value;
      var messages := RunAssigned(gw, a, topic, contexts, targetIndex);
      return Success((messages, a.sessionParticipants));
    }

    /** The part of `runDebate` after the selection. */
    method RunAssigned(gw: Gateway, a: Assignment, topic: string, contexts: seq<Context>, targetIndex: nat)
      returns (messages: seq<DebateMessage>)
      modifies this
      ensures var d := Debate(gw, a, topic, contexts, targetIndex, old(counter));
        messages == d.messages && counter == d.next && events == old(events) + d.events
    {
      ghost var e0 := events;
      ghost var p := PitchRound(gw, topic, a.core, contexts, counter);
      EmitAll(SelectionEvents(a));
      var pitches := ExecutePitchRound(gw, topic, a.core, contexts);
      ghost var c := CrossFireRound(gw, topic, a.core, a.wildcard, p.messages, targetIndex, p.next);
      var crossFire := ExecuteCrossFireRound(gw, topic, a.core, a.wildcard, pitches, targetIndex);
      ghost var s := StressTestRound(gw, topic, a.all, c.next);
      var stress := ExecuteStressTestRound(gw, topic, a.all);
      ghost var m := SteelManRound(gw, topic, a.all, s.next);
      var steelMan := ExecuteSteelManRound(gw, topic, a.all);
      var earlier := pitches + crossFire + stress + steelMan;
      ghost var f := ConsensusRound(gw, topic, a.all, earlier, m.next);
      var consensus := ExecuteConsensusRound(gw, topic, a.all, earlier);
      messages := earlier + consensus;
      ghost var a0 := SelectionEvents(a);
      AppendAssociative(e0, a0, p.events);
      AppendAssociative(e0, a0 + p.events, c.events);
      AppendAssociative(e0, a0 + p.events + c.events, s.events);
      AppendAssociative(e0, a0 + p.events + c.events + s.events, m.events);
      AppendAssociative(e0, a0 + p.events + c.events + s.events + m.events, f.events);
      assert Debate(gw, a, topic, contexts, targetIndex, old(counter)) == Compose(a, p, c, s, m, f);
    }
  }

  // ---------------------------------------------------------------- properties of a debate

  /**
   * What every round guarantees: the counter advances by the number of messages,
   * the ids follow the counter, every message is a well-formed message of the
   * round and is spoken by one of `ps`.
   */
  predicate RoundOk(r: RoundResult, counter: nat, round: DebateRoundType, ps: seq<AssignedParticipant>) {
    r.next == counter + |r.messages| && IdsFrom(r.messages, counter) && InRound(r.messages, round) &&
    AllByParticipants(r.messages, ps)
  }

  lemma PitchOk(gw: Gateway, topic: string, ps: seq<AssignedParticipant>, contexts: seq<Context>, counter: nat)
    ensures RoundOk(PitchRound(gw, topic, ps, contexts, counter), counter, Pitch, ps)
  {
    PitchRoundProperties(gw, topic, ps, contexts, counter);
    var r := PitchRound(gw, topic, ps, contexts, counter);
    forall k | 0 <= k < |r.messages|
      ensures ByParticipant(r.messages[k], ps)
    {
      assert ps[k].persona.role == r.messages[k].role;
    }
  }

  lemma CrossFireOk(gw: Gateway, topic: string, ps: seq<AssignedParticipant>, wildcard: AssignedParticipant,
                    pitches: seq<DebateMessage>, targetIndex: nat, counter: nat)
    ensures RoundOk(CrossFireRound(gw, topic, ps, wildcard, pitches, targetIndex, counter), counter, CrossFire, ps + [wildcard])
  {
    CrossFireProperties(gw, topic, ps, wildcard, pitches, targetIndex, counter);
    var r := CrossFireRound(gw, topic, ps, wildcard, pitches, targetIndex, counter);
    var all := ps + [wildcard];
    forall k | 0 <= k < |r.messages|
      ensures ByParticipant(r.messages[k], all)
    {
      assert all[targetIndex] == ps[targetIndex] && all[|ps|] == wildcard;
    }
  }

  lemma StressTestOk(gw: Gateway, topic: string, ps: seq<AssignedParticipant>, counter: nat)
    ensures RoundOk(StressTestRound(gw, topic, ps, counter), counter, StressTest, ps)
  {
    StressTestProperties(gw, topic, ps, counter);
  }

  lemma SteelManOk(gw: Gateway, topic: string, ps: seq<AssignedParticipant>, counter: nat)
    ensures RoundOk(SteelManRound(gw, topic, ps, counter), counter, SteelMan, ps)
  {
    SteelManProperties(gw, topic, ps, counter);
  }

  lemma ConsensusOk(gw: Gateway, topic: string, ps: seq<AssignedParticipant>, earlier: seq<DebateMessage>, counter: nat)
    ensures RoundOk(ConsensusRound(gw, topic, ps, earlier, counter), counter, Consensus, ps)
  {
    ConsensusProperties(gw, topic, ps, earlier, counter);
  }

  /** The round numbers never decrease along the messages, and every message is well formed. */
  predicate Ordered(ms: seq<DebateMessage>) {
    (forall k :: 0 <= k < |ms| ==> WellFormed(ms[k])) &&
    (forall i, j :: 0 <= i < j < |ms| ==> ms[i].roundNumber <= ms[j].roundNumber)
  }

  /** No message of the run belongs to a round after `round`. */
  predicate UpTo(ms: seq<DebateMessage>, round: DebateRoundType) {
    forall k :: 0 <= k < |ms| ==> ms[k].roundNumber <= RoundNumber(round)
  }

  /** What holds of a transcript built from rounds in flow order. */
  predicate TranscriptOk(ms: seq<DebateMessage>, counter: nat, next: nat, round: DebateRoundType, ps: seq<AssignedParticipant>) {
    next == counter + |ms| && IdsFrom(ms, counter) && Ordered(ms) && UpTo(ms, round) && AllByParticipants(ms, ps)
  }

  /** Appending a later round to a transcript keeps its ids consecutive, its order and its speakers. */
  lemma TranscriptAppend(x: seq<DebateMessage>, r: RoundResult, counter: nat, next: nat,
                         before: DebateRoundType, round: DebateRoundType, ps: seq<AssignedParticipant>)
    requires TranscriptOk(x, counter, next, before, ps) && RoundNumber(before) <= RoundNumber(round)
    requires RoundOk(r, next, round, ps)
    ensures TranscriptOk(x + r.messages, counter, r.next, round, ps)
  {
    var y := r.messages;
    forall k | |x| <= k < |x + y|
      ensures (x + y)[k] == y[k - |x|]
    {
    }
  }

  lemma TranscriptStart(r: RoundResult, counter: nat, ps: seq<AssignedParticipant>)
    requires RoundOk(r, counter, Pitch, ps)
    ensures TranscriptOk(r.messages, counter, r.next, Pitch, ps)
  {
  }

  /** Five rounds, each starting where the previous one left the counter, make a transcript in order. */
  lemma ComposeOk(a: Assignment, counter: nat, p: RoundResult, c: RoundResult, s: RoundResult, m: RoundResult, f: RoundResult)
    requires RoundOk(p, counter, Pitch, a.all) && RoundOk(c, p.next, CrossFire, a.all)
    requires RoundOk(s, c.next, StressTest, a.all) && RoundOk(m, s.next, SteelMan, a.all)
    requires RoundOk(f, m.next, Consensus, a.all)
    ensures var d := Compose(a, p, c, s, m, f);
      TranscriptOk(d.messages, counter, d.next, Consensus, a.all)
  {
    TranscriptStart(p, counter, a.all);
    TranscriptAppend(p.messages, c, counter, p.next, Pitch, CrossFire, a.all);
    TranscriptAppend(p.messages + c.messages, s, counter, c.next, CrossFire, StressTest, a.all);
    TranscriptAppend(p.messages + c.messages + s.messages, m, counter, s.next, StressTest, SteelMan, a.all);
    TranscriptAppend(p.messages + c.messages + s.messages + m.messages, f, counter, m.next, SteelMan, Consensus, a.all);
  }

  /**
   * A debate's messages have the ids following the counter without gaps, come in
   * round order, are all well formed and are all spoken by the four participants.
   */
  lemma DebateTranscript(gw: Gateway, a: Assignment, topic: string, contexts: seq<Context>, targetIndex: nat, counter: nat)
    requires a.all == a.core + [a.wildcard]
    ensures var d := Debate(gw, a, topic, contexts, targetIndex, counter);
      d.next == counter + |d.messages| && IdsFrom(d.messages, counter) && Ordered(d.messages) &&
      AllByParticipants(d.messages, a.all)
  {
    var p := PitchRound(gw, topic, a.core, contexts, counter);
    PitchOk(gw, topic, a.core, contexts, counter);
    ByMoreParticipants(p.messages, a.core, [a.wildcard]);
    var c := CrossFireRound(gw, topic, a.core, a.wildcard, p.messages, targetIndex, p.next);
    CrossFireOk(gw, topic, a.core, a.wildcard, p.messages, targetIndex, p.next);
    var s := StressTestRound(gw, topic, a.all, c.next);
    StressTestOk(gw, topic, a.all, c.next);
    var m := SteelManRound(gw, topic, a.all, s.next);
    SteelManOk(gw, topic, a.all, s.next);
    var f := ConsensusRound(gw, topic, a.all, p.messages + c.messages + s.messages + m.messages, m.next);
    ConsensusOk(gw, topic, a.all, p.messages + c.messages + s.messages + m.messages, m.next);
    ComposeOk(a, counter, p, c, s, m, f);
  }

  /** The messages are the pitches of `core`, one per participant, in order. */
  predicate Pitches(ms: seq<DebateMessage>, core: seq<AssignedParticipant>) {
    |ms| == |core| &&
    forall k :: 0 <= k < |ms| ==>
      ms[k].round == Pitch && ms[k].role == core[k].persona.role && ms[k].personaId == Some(core[k].persona.id)
  }

  lemma PitchShape(gw: Gateway, topic: string, ps: seq<AssignedParticipant>, contexts: seq<Context>, counter: nat)
    ensures Pitches(PitchRound(gw, topic, ps, contexts, counter).messages, ps)
  {
    PitchRoundProperties(gw, topic, ps, contexts, counter);
  }

  lemma LaterRoundSizes(gw: Gateway, topic: string, ps: seq<AssignedParticipant>, earlier: seq<DebateMessage>, counter: nat)
    ensures |StressTestRound(gw, topic, ps, counter).messages| <= |ps|
    ensures |SteelManRound(gw, topic, ps, counter).messages| <= |ps|
    ensures |ConsensusRound(gw, topic, ps, earlier, counter).messages| <= |ps|
  {
    StressTestProperties(gw, topic, ps, counter);
    SteelManProperties(gw, topic, ps, counter);
    ConsensusProperties(gw, topic, ps, earlier, counter);
  }

  /** The composed transcript opens with the pitches and is as long as its rounds together. */
  lemma ComposeSize(a: Assignment, p: RoundResult, c: RoundResult, s: RoundResult, m: RoundResult, f: RoundResult)
    requires Pitches(p.messages, a.core) && |a.core| == 3
    requires |c.messages| <= 2 && |s.messages| <= 4 && |m.messages| <= 4 && |f.messages| <= 4
    ensures var ms := Compose(a, p, c, s, m, f).messages;
      3 <= |ms| <= 17 && ms[..3] == p.messages
  {
  }

  /**
   * With three core participants and a wildcard the debate opens with the three
   * pitches, in the core's order, and has at most 3 + 2 + 3 * 4 = 17 messages.
   */
  lemma DebateSize(gw: Gateway, a: Assignment, topic: string, contexts: seq<Context>, targetIndex: nat, counter: nat)
    requires |a.core| == 3 && a.all == a.core + [a.wildcard]
    ensures var d := Debate(gw, a, topic, contexts, targetIndex, counter);
      3 <= |d.messages| <= 17 && Pitches(d.messages[..3], a.core)
  {
    var p := PitchRound(gw, topic, a.core, contexts, counter);
    PitchShape(gw, topic, a.core, contexts, counter);
    var c := CrossFireRound(gw, topic, a.core, a.wildcard, p.messages, targetIndex, p.next);
    CrossFireProperties(gw, topic, a.core, a.wildcard, p.messages, targetIndex, p.next);
    var s := StressTestRound(gw, topic, a.all, c.next);
    LaterRoundSizes(gw, topic, a.all, [], c.next);
    var m := SteelManRound(gw, topic, a.all, s.next);
    var earlier := p.messages + c.messages + s.messages + m.messages;
    LaterRoundSizes(gw, topic, a.all, earlier, s.next);
    LaterRoundSizes(gw, topic, a.all, earlier, m.next);
    var f := ConsensusRound(gw, topic, a.all, earlier, m.next);
    ComposeSize(a, p, c, s, m, f);
  }
}
