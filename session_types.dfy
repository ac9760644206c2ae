/**
 * The session record, the debate message and the other value types shared by the
 * two orchestrators and the session routes.
 */
module SessionTypes {
  import opened Wrappers
  import opened BackendVocabulary

  /** The five rounds of the debate flow. */
  datatype DebateRoundType = Pitch | CrossFire | StressTest | SteelMan | Consensus

  function RoundTypeName(r: DebateRoundType): string {
    match r
    case Pitch => "pitch"
    case CrossFire => "cross_fire"
    case StressTest => "stress_test"
    case SteelMan => "steel_man"
    case Consensus => "consensus"
  }

  /** The position of a round in the flow, 1 to 5. */
  function RoundNumber(r: DebateRoundType): (n: int)
    ensures 1 <= n <= 5
  {
    match r
    case Pitch => 1
    case CrossFire => 2
    case StressTest => 3
    case SteelMan => 4
    case Consensus => 5
  }

  datatype DebatePosition = For | Against | Neutral | Mixed

  function PositionName(p: DebatePosition): string {
    match p
    case For => "for"
    case Against => "against"
    case Neutral => "neutral"
    case Mixed => "mixed"
  }

  datatype InitialContext = InitialContext(context: Option<string>, agentRole: Option<string>, agent: Option<string>)

  /** A background document; the url may be absent. */
  datatype Context = Context(title: string, url: Option<string>, snippet: string)

  /** A narration line of the session; the timestamp is not modelled. */
  datatype AgentMessage = AgentMessage(role: string, content: string, agent: Option<string>)

  /**
   * A structured debate message. The id is the value of the message counter at
   * creation (the source prefixes it with a clock reading); the timestamp is not modelled.
   */
  datatype DebateMessage = DebateMessage(
    id: nat,
    role: string,
    personaId: Option<string>,
    agent: string,
    round: DebateRoundType,
    roundNumber: int,
    target: Option<string>,
    content: string,
    position: Option<DebatePosition>,
    keyPoints: Option<seq<string>>,
    revisions: Option<string>,
    confidenceScore: Option<int>)

  /** The documented ranges: roundNumber 1 to 5 and agreeing with the round, confidence 0 to 100. */
  predicate WellFormed(m: DebateMessage) {
    1 <= m.roundNumber <= 5 && m.roundNumber == RoundNumber(m.round) &&
    (m.confidenceScore.Some? ==> 0 <= m.confidenceScore.value <= 100)
  }

  datatype SessionParticipant = SessionParticipant(
    personaId: string,
    name: string,
    role: string,
    description: string,
    providerId: string,
    agent: string,
    isWildcard: bool)

  datatype ResearchPlan = ResearchPlan(plan: string, searchQueries: seq<string>)

  datatype Hunter = HunterA | HunterB

  datatype Source = Source(
    title: string,
    url: string,
    snippet: string,
    hunter: Option<Hunter>,
    qualityRating: Option<int>,
    critique: Option<string>)

  /**
   * The session record. `messages` is always present; the other collections are
   * absent until produced. `question`, `plan`, `sources` and `answer` are the fields
   * the research pipeline reads and writes. Timestamps are not modelled.
   */
  datatype Session = Session(
    id: string,
    topic: string,
    question: Option<string>,
    status: SessionStatus,
    context: Option<InitialContext>,
    contexts: Option<seq<Context>>,
    messages: seq<AgentMessage>,
    participants: Option<seq<SessionParticipant>>,
    debate: Option<seq<DebateMessage>>,
    conclusion: Option<string>,
    conclusionAgentRole: Option<string>,
    conclusionAgent: Option<string>,
    plan: Option<ResearchPlan>,
    sources: Option<seq<Source>>,
    answer: Option<string>)

  /** The events the orchestrators hand to their callback, with their payloads. */
  datatype Event =
    | StatusEvent(status: SessionStatus)
    | MessageEvent(message: AgentMessage)
    | PlanEvent(plan: ResearchPlan)
    | SourcesEvent(sources: seq<Source>)
    | AnswerEvent(answer: string)
    | ErrorEvent(error: string)
    | ParticipantsEvent(participants: seq<SessionParticipant>)
    | DebateMessageEvent(debateMessage: DebateMessage)
    | DebateEvent(debate: seq<DebateMessage>)
    | ConclusionEvent(conclusion: string)

  /** The `type` field of an event. */
  function EventType(e: Event): string {
    match e
    case StatusEvent(_) => "status"
    case MessageEvent(_) => "message"
    case PlanEvent(_) => "plan"
    case SourcesEvent(_) => "sources"
    case AnswerEvent(_) => "answer"
    case ErrorEvent(_) => "error"
    case ParticipantsEvent(_) => "participants"
    case DebateMessageEvent(_) => "debate_message"
    case DebateEvent(_) => "debate"
    case ConclusionEvent(_) => "conclusion"
  }
}
