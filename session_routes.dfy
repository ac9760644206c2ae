/**
 * The session routes: the in-memory session store, the per-session subscriber
 * lists of the event stream, the reducer that folds orchestrator events into the
 * stored session, the callback that republishes them, the stream's initial
 * snapshot and the record a new session starts from. HTTP framing, JSON and the
 * background promise are not modelled; every message a subscriber is sent is
 * appended to an outbox.
 */
module SessionRoutes {
  import opened Wrappers
  import opened JsString
  import opened BackendVocabulary
  import opened SessionTypes
  import opened BasicOrchestrator

  // ---------------------------------------------------------------------------
  // The reducer

  /** `applyEventToSession`: the stored session after one orchestrator event. */
  function ApplyEventToSession(s: Session, e: Event): (r: Session)
    ensures e.StatusEvent? ==> r.status == e.status && r.(status := s.status) == s
    ensures e.ConclusionEvent? ==> r.conclusion == Some(e.conclusion) && r.(conclusion := s.conclusion) == s
    ensures e.MessageEvent? ==>
      |r.messages| == |s.messages| + 1 && r.messages[..|s.messages|] == s.messages &&
      r.messages[|s.messages|] == e.message && r.(messages := s.messages) == s
    ensures e.DebateMessageEvent? ==>
      r.debate.Some? && |r.debate.value| == |s.debate.GetOr([])| + 1 &&
      r.debate.value[..|s.debate.GetOr([])|] == s.debate.GetOr([]) &&
      r.debate.value[|s.debate.GetOr([])|] == e.debateMessage && r.(debate := s.debate) == s
    ensures e.DebateEvent? ==> r.debate == Some(e.debate) && r.(debate := s.debate) == s
    ensures e.ParticipantsEvent? ==> r.participants == Some(e.participants) && r.(participants := s.participants) == s
    ensures e.PlanEvent? || e.SourcesEvent? || e.AnswerEvent? || e.ErrorEvent? ==> r == s
  {
    match e
    case StatusEvent(status) => s.(status := status)
    case ConclusionEvent(conclusion) => s.(conclusion := Some(conclusion))
    case MessageEvent(message) => s.(messages := s.messages + [message])
    case DebateMessageEvent(message) => s.(debate := Some(s.debate.GetOr([]) + [message]))
    case DebateEvent(debate) => s.(debate := Some(debate))
    case ParticipantsEvent(participants) => s.(participants := Some(participants))
    case _ => s
  }

  /** The stored session after the callback has applied each event in turn. */
  function Replay(s: Session, es: seq<Event>): Session
    decreases |es|
  {
    if es == [] then s else Replay(ApplyEventToSession(s, es[0]), es[1..])
  }

  /** The messages of the message events, in order. */
  function MessagesOf(es: seq<Event>): seq<AgentMessage> {
    if es == [] then [] else (if es[0].MessageEvent? then [es[0].message] else []) + MessagesOf(es[1..])
  }

  /**
   * Replaying events appends the messages of the message events to the session's
   * messages, and leaves the fields no event writes (the id, topic, question,
   * contexts, plan, sources and answer) as they were.
   */
  lemma {:induction false} ReplayMessagesAndKeeps(s: Session, es: seq<Event>)
    ensures var r := Replay(s, es);
      r.messages == s.messages + MessagesOf(es) &&
      r.id == s.id && r.topic == s.topic && r.question == s.question && r.contexts == s.contexts &&
      r.context == s.context && r.plan == s.plan && r.sources == s.sources && r.answer == s.answer
    decreases |es|
  {
    if es != [] {
      var t := ApplyEventToSession(s, es[0]);
      ReplayMessagesAndKeeps(t, es[1..]);
      assert t.messages == s.messages + (if es[0].MessageEvent? then [es[0].message] else []);
    }
  }

  /** Replaying events leaves the status of the last status event, or the old one when there is none. */
  lemma {:induction false} ReplayStatus(s: Session, es: seq<Event>)
    ensures Statuses(es) == [] ==> Replay(s, es).status == s.status
    ensures Statuses(es) != [] ==> Replay(s, es).status == Statuses(es)[|Statuses(es)| - 1]
    decreases |es|
  {
    if es != [] {
      ReplayStatus(ApplyEventToSession(s, es[0]), es[1..]);
    }
  }

  /** Replaying a transcript's messages one by one onto a session without one stores that transcript. */
  lemma {:induction false} ReplayDebateMessages(s: Session, ms: seq<DebateMessage>)
    requires ms != []
    ensures Replay(s, DebateMessageEvents(ms)) == s.(debate := Some(s.debate.GetOr([]) + ms))
    decreases |ms|
  {
    var t := ApplyEventToSession(s, DebateMessageEvent(ms[0]));
    assert DebateMessageEvents(ms)[1..] == DebateMessageEvents(ms[1..]);
    if |ms| > 1 {
      ReplayDebateMessages(t, ms[1..]);
      assert t.debate.GetOr([]) + ms[1..] == s.debate.GetOr([]) + ms;
    } else {
      assert DebateMessageEvents(ms[1..]) == [];
      assert s.debate.GetOr([]) + [ms[0]] == s.debate.GetOr([]) + ms;
    }
  }

  function DebateMessageEvents(ms: seq<DebateMessage>): (es: seq<Event>)
    ensures |es| == |ms| && forall k :: 0 <= k < |ms| ==> es[k] == DebateMessageEvent(ms[k])
  {
    seq(|ms|, k requires 0 <= k < |ms| => DebateMessageEvent(ms[k]))
  }

  // ---------------------------------------------------------------------------
  // Subscribers and deliveries

  /** An open event stream, by an identity of its own. */
  type Sender = nat

  /** What a stream is sent: an orchestrator event's payload, a context or the context list, or a failure text. */
  datatype Data =
    | EventData(event: Event)
    | ContextData(context: InitialContext)
    | ContextsData(contexts: seq<Context>)
    | FailureData(error: string)

  /** One `send(event, data)` call on one stream. */
  datatype Delivery = Delivery(to: Sender, name: string, data: Data)

  predicate NoDuplicates(xs: seq<Sender>) {
    forall k, l :: 0 <= k < l < |xs| ==> xs[k] != xs[l]
  }

  /** Every subscriber list in the map is non-empty and free of repeats, as a `Set` that is deleted when empty. */
  predicate ValidSubscribers(subs: map<string, seq<Sender>>) {
    forall id :: id in subs ==> subs[id] != [] && NoDuplicates(subs[id])
  }

  /** The current subscribers of a session: `subscribers.get(id)`, none when absent. */
  function SubscribersOf(subs: map<string, seq<Sender>>, id: string): seq<Sender> {
    if id in subs then subs[id] else []
  }

  /** `set.add(send)` on the session's set, created when absent. */
  function Added(subs: map<string, seq<Sender>>, id: string, x: Sender): (r: map<string, seq<Sender>>)
    ensures ValidSubscribers(subs) ==> ValidSubscribers(r)
    ensures x in SubscribersOf(r, id)
    ensures forall y :: y in SubscribersOf(r, id) <==> y == x || y in SubscribersOf(subs, id)
    ensures forall other :: other != id ==> SubscribersOf(r, other) == SubscribersOf(subs, other)
  {
    var cur := SubscribersOf(subs, id);
    subs[id := if x in cur then cur else cur + [x]]
  }

  /** The list without `x`. */
  function Without(xs: seq<Sender>, x: Sender): (r: seq<Sender>)
    ensures forall y :: y in r <==> y in xs && y != x
    ensures NoDuplicates(xs) ==> NoDuplicates(r)
    ensures x !in xs ==> r == xs
    decreases |xs|
  {
    if xs == [] then []
    else
      var rest := Without(xs[1..], x);
      assert forall y :: y in xs[1..] ==> y in xs;
      assert NoDuplicates(xs) ==> NoDuplicates(xs[1..]) && xs[0] !in xs[1..] by {
        if NoDuplicates(xs) {
          forall k, l | 0 <= k < l < |xs[1..]| ensures xs[1..][k] != xs[1..][l] {
            assert xs[1..][k] == xs[k + 1] && xs[1..][l] == xs[l + 1];
          }
          forall k | 0 <= k < |xs[1..]| ensures xs[1..][k] != xs[0] {
            assert xs[1..][k] == xs[k + 1];
          }
        }
      }
      if xs[0] == x then rest else [xs[0]] + rest
  }

  /** The unsubscribe closure: `current.delete(send)` and the key deleted once the set is empty. */
  function Removed(subs: map<string, seq<Sender>>, id: string, x: Sender): (r: map<string, seq<Sender>>)
    ensures ValidSubscribers(subs) ==> ValidSubscribers(r)
    ensures x !in SubscribersOf(r, id)
    ensures forall y :: y in SubscribersOf(r, id) <==> y != x && y in SubscribersOf(subs, id)
    ensures forall other :: other != id ==> SubscribersOf(r, other) == SubscribersOf(subs, other)
    ensures id in r ==> id in subs
  {
    if id !in subs then subs
    else
      var rest := Without(subs[id], x);
      if rest == [] then subs - {id} else subs[id := rest]
  }

  /** Unsubscribing a second time changes nothing. */
  lemma UnsubscribeIdempotent(subs: map<string, seq<Sender>>, id: string, x: Sender)
    ensures Removed(Removed(subs, id, x), id, x) == Removed(subs, id, x)
  {
    var r := Removed(subs, id, x);
    if id in r {
      assert x !in r[id];
    }
  }

  /** Subscribing a new stream and unsubscribing it restores the subscribers exactly. */
  lemma {:induction false} SubscribeThenUnsubscribe(subs: map<string, seq<Sender>>, id: string, x: Sender)
    requires ValidSubscribers(subs) && x !in SubscribersOf(subs, id)
    ensures Removed(Added(subs, id, x), id, x) == subs
  {
    var cur := SubscribersOf(subs, id);
    var a := subs[id := cur + [x]];
    AddedFresh(subs, id, x);
    WithoutLast(cur, x);
    RemovedKey(a, id, x, cur);
    if cur == [] {
      assert id !in subs;
      assert a - {id} == subs;
    } else {
      assert a[id := cur] == subs;
    }
  }

  lemma AddedFresh(subs: map<string, seq<Sender>>, id: string, x: Sender)
    requires x !in SubscribersOf(subs, id)
    ensures Added(subs, id, x) == subs[id := SubscribersOf(subs, id) + [x]]
  {
  }

  lemma RemovedKey(subs: map<string, seq<Sender>>, id: string, x: Sender, rest: seq<Sender>)
    requires id in subs && Without(subs[id], x) == rest
    ensures Removed(subs, id, x) == if rest == [] then subs - {id} else subs[id := rest]
  {
  }

  lemma {:induction false} WithoutLast(xs: seq<Sender>, x: Sender)
    requires x !in xs
    ensures Without(xs + [x], x) == xs
    decreases |xs|
  {
    if xs == [] {
      assert Without([x][1..], x) == [];
    } else {
      assert (xs + [x])[1..] == xs[1..] + [x];
      WithoutLast(xs[1..], x);
      assert [xs[0]] + xs[1..] == xs;
    }
  }

  /** `subs.forEach((send) => send(event, data))`: one delivery per subscriber, in order. */
  function Deliveries(to: seq<Sender>, name: string, data: Data): (r: seq<Delivery>)
    ensures |r| == |to|
    ensures forall k :: 0 <= k < |to| ==> r[k] == Delivery(to[k], name, data)
  {
    seq(|to|, k requires 0 <= k < |to| => Delivery(to[k], name, data))
  }

  /** Each subscriber of a list without repeats receives the message exactly once, and nobody else does. */
  lemma DeliveredOnce(to: seq<Sender>, name: string, data: Data)
    requires NoDuplicates(to)
    ensures var r := Deliveries(to, name, data);
      (forall y :: y in to <==> Delivery(y, name, data) in r) &&
      (forall k, l :: 0 <= k < l < |r| ==> r[k].to != r[l].to)
  {
    var r := Deliveries(to, name, data);
    forall y | Delivery(y, name, data) in r ensures y in to {
      var k :| 0 <= k < |r| && r[k] == Delivery(y, name, data);
      assert to[k] == y;
    }
    forall y | y in to ensures Delivery(y, name, data) in r {
      var k :| 0 <= k < |to| && to[k] == y;
      assert r[k] == Delivery(y, name, data);
    }
  }

  // ---------------------------------------------------------------------------
  // The event callback

  /** The stream event an orchestrator event is published under. */
  function SseName(e: Event): (name: string)
    ensures e.ErrorEvent? ==> name == "orchestrator_error"
    ensures !e.ErrorEvent? ==> name == EventType(e)
  {
    if e.ErrorEvent? then "orchestrator_error" else EventType(e)
  }

  predicate Terminal(status: SessionStatus) {
    status == Complete || status == Error
  }

  /** What the callback publishes for one event applied to the stored session. */
  function CallbackDeliveries(stored: Session, to: seq<Sender>, e: Event): (r: seq<Delivery>)
    ensures |r| >= |to| && r[..|to|] == Deliveries(to, SseName(e), EventData(e))
    ensures Terminal(ApplyEventToSession(stored, e).status) ==>
      r == Deliveries(to, SseName(e), EventData(e)) +
        Deliveries(to, "complete", EventData(StatusEvent(ApplyEventToSession(stored, e).status)))
    ensures !Terminal(ApplyEventToSession(stored, e).status) ==> r == Deliveries(to, SseName(e), EventData(e))
  {
    var updated := ApplyEventToSession(stored, e);
    Deliveries(to, SseName(e), EventData(e)) +
      (if Terminal(updated.status) then Deliveries(to, "complete", EventData(StatusEvent(updated.status))) else [])
  }

  /** No orchestrator event is published under the name "complete". */
  lemma NotComplete(e: Event)
    ensures SseName(e) != "complete"
  {
    var n := SseName(e);
    assert n[0] != 'c' || n[1] != 'o' || |n| != 8;
  }

  /** A "complete" message goes out exactly when the event leaves the stored session complete or in error, and someone listens. */
  lemma CompletePublished(stored: Session, to: seq<Sender>, e: Event)
    ensures (exists k :: 0 <= k < |CallbackDeliveries(stored, to, e)| && CallbackDeliveries(stored, to, e)[k].name == "complete") <==>
      to != [] && Terminal(ApplyEventToSession(stored, e).status)
  {
    var r := CallbackDeliveries(stored, to, e);
    NotComplete(e);
    if to != [] && Terminal(ApplyEventToSession(stored, e).status) {
      assert r[|to|].name == "complete";
    }
    forall k | 0 <= k < |r| && r[k].name == "complete"
      ensures to != [] && Terminal(ApplyEventToSession(stored, e).status)
    {
      if k < |to| {
        assert r[k] == r[..|to|][k];
      }
    }
  }

  /**
   * A research run that fails never leaves the stored session complete or in error:
   * the failure reaches the store only as an error event, which the reducer ignores,
   * so no callback of the run publishes "complete".
   */
  lemma FailedRunNeverTerminal(ph: Phases, s: Session)
    requires !Terminal(s.status) && FullOrchestration(ph, s).outcome.Failure?
    ensures var es := Orchestrate(ph, s).events;
      forall k :: 0 <= k <= |es| ==> !Terminal(Replay(s, es[..k]).status)
  {
    var es := Orchestrate(ph, s).events;
    OrchestrateProperties(ph, s);
    forall k | 0 <= k <= |es| ensures !Terminal(Replay(s, es[..k]).status) {
      PrefixNotTerminal(s, es, k);
    }
  }

  /** While the statuses stop short of the full flow, no prefix of the events leaves the session terminal. */
  lemma PrefixNotTerminal(s: Session, es: seq<Event>, k: nat)
    requires !Terminal(s.status) && k <= |es|
    requires |Statuses(es)| < 5 && Statuses(es) == StatusFlow[..|Statuses(es)|]
    ensures !Terminal(Replay(s, es[..k]).status)
  {
    var st := Statuses(es);
    assert es[..k] + es[k..] == es;
    StatusesAppend(es[..k], es[k..]);
    ReplayStatus(s, es[..k]);
    var p := Statuses(es[..k]);
    if p != [] {
      assert p[|p| - 1] == st[|p| - 1];
      assert st[|p| - 1] == StatusFlow[|p| - 1];
    }
  }

  /** A research run that completes leaves the stored session complete after its last event. */
  lemma CompletedRunTerminal(ph: Phases, s: Session)
    requires FullOrchestration(ph, s).outcome.Success?
    ensures Replay(s, Orchestrate(ph, s).events).status == Complete
  {
    var es := Orchestrate(ph, s).events;
    OrchestrateProperties(ph, s);
    ReplayStatus(s, es);
    assert Statuses(es)[4] == Complete;
  }

  // ---------------------------------------------------------------------------
  // Snapshot and the new session

  /** `if (session.conclusion)`: a conclusion is sent only when present and non-empty. */
  function SentConclusion(s: Session): Option<string> {
    if s.conclusion.Some? && s.conclusion.value != "" then s.conclusion else None
  }

  /** The place of each snapshot event in the replay order. */
  function Rank(name: string): nat {
    if name == "status" then 0
    else if name == "context" then 1
    else if name == "contexts" then 2
    else if name == "participants" then 3
    else if name == "debate_message" then 4
    else 5
  }

  /** Ranks never decrease, and only debate messages repeat. */
  predicate InOrder(ds: seq<(string, Data)>) {
    forall k, l :: 0 <= k < l < |ds| ==>
      Rank(ds[k].0) <= Rank(ds[l].0) && (ds[k].0 == ds[l].0 ==> ds[k].0 == "debate_message")
  }

  predicate Named(ds: seq<(string, Data)>, name: string) {
    forall k :: 0 <= k < |ds| ==> ds[k].0 == name
  }

  /** Names of different ranks differ, so a strictly higher part extends an ordered prefix. */
  lemma AppendInOrder(a: seq<(string, Data)>, b: seq<(string, Data)>, name: string)
    requires InOrder(a) && Named(b, name) && (|b| <= 1 || name == "debate_message")
    requires forall k :: 0 <= k < |a| ==> Rank(a[k].0) < Rank(name)
    ensures InOrder(a + b)
    ensures forall k :: 0 <= k < |a + b| ==> Rank((a + b)[k].0) <= Rank(name)
  {
    var c := a + b;
    forall k, l | 0 <= k < l < |c|
      ensures Rank(c[k].0) <= Rank(c[l].0) && (c[k].0 == c[l].0 ==> c[k].0 == "debate_message")
    {
      if l < |a| {
        assert c[k] == a[k] && c[l] == a[l];
      } else if k < |a| {
        assert c[k] == a[k] && c[l] == b[l - |a|];
      } else {
        assert c[k] == b[k - |a|] && c[l] == b[l - |a|];
      }
    }
  }

  /** The debate part of the snapshot: one message per transcript entry, in order. */
  function DebatePart(s: Session): (r: seq<(string, Data)>)
    ensures |r| == |s.debate.GetOr([])| && Named(r, "debate_message")
    ensures forall k :: 0 <= k < |r| ==> r[k].1 == EventData(DebateMessageEvent(s.debate.GetOr([])[k]))
  {
    seq(|s.debate.GetOr([])|, k requires 0 <= k < |s.debate.GetOr([])| =>
      ("debate_message", EventData(DebateMessageEvent(s.debate.GetOr([])[k]))))
  }

  /** The part of the snapshot before the transcript. */
  function SnapshotHead(s: Session): seq<(string, Data)> {
    [("status", EventData(StatusEvent(s.status)))] +
    (if s.context.Some? then [("context", ContextData(s.context.value))] else []) +
    (if s.contexts.Some? then [("contexts", ContextsData(s.contexts.value))] else []) +
    (if s.participants.Some? then [("participants", EventData(ParticipantsEvent(s.participants.value)))] else [])
  }

  function ConclusionPart(s: Session): seq<(string, Data)> {
    if SentConclusion(s).Some? then [("conclusion", EventData(ConclusionEvent(SentConclusion(s).value)))] else []
  }

  /** The initial snapshot of the stream, as (event, data) pairs in the order they are sent. */
  function Snapshot(s: Session): seq<(string, Data)> {
    SnapshotHead(s) + DebatePart(s) + ConclusionPart(s)
  }

  lemma RankValues()
    ensures Rank("status") == 0 && Rank("context") == 1 && Rank("contexts") == 2
    ensures Rank("participants") == 3 && Rank("debate_message") == 4 && Rank("conclusion") == 5
  {
  }

  /** The head of the snapshot: the status first, then each present part once, in rank order. */
  lemma HeadInOrder(s: Session)
    ensures var h := SnapshotHead(s);
      |h| == 1 + (if s.context.Some? then 1 else 0) + (if s.contexts.Some? then 1 else 0) +
        (if s.participants.Some? then 1 else 0) &&
      h[0] == ("status", EventData(StatusEvent(s.status))) &&
      InOrder(h) && forall k :: 0 <= k < |h| ==> Rank(h[k].0) <= 3
  {
    var p0: seq<(string, Data)> := [("status", EventData(StatusEvent(s.status)))];
    var p1: seq<(string, Data)> := if s.context.Some? then [("context", ContextData(s.context.value))] else [];
    var p2: seq<(string, Data)> := if s.contexts.Some? then [("contexts", ContextsData(s.contexts.value))] else [];
    var p3: seq<(string, Data)> :=
      if s.participants.Some? then [("participants", EventData(ParticipantsEvent(s.participants.value)))] else [];
    RankValues();
    AppendInOrder(p0, p1, "context");
    AppendInOrder(p0 + p1, p2, "contexts");
    AppendInOrder(p0 + p1 + p2, p3, "participants");
    assert SnapshotHead(s) == p0 + p1 + p2 + p3;
  }

  /**
   * The snapshot starts with the status, sends the context, the contexts and the
   * participants at most once each and in that order, then every debate message in
   * transcript order, then the conclusion at most once, last.
   */
  lemma SnapshotOrder(s: Session)
    ensures var r := Snapshot(s);
      r[0] == ("status", EventData(StatusEvent(s.status))) &&
      |r| == 1 + (if s.context.Some? then 1 else 0) + (if s.contexts.Some? then 1 else 0) +
        (if s.participants.Some? then 1 else 0) + |s.debate.GetOr([])| + (if SentConclusion(s).Some? then 1 else 0) &&
      InOrder(r) &&
      (forall k :: 0 <= k < |s.debate.GetOr([])| ==>
        r[|SnapshotHead(s)| + k] == ("debate_message", EventData(DebateMessageEvent(s.debate.GetOr([])[k]))))
  {
    HeadInOrder(s);
    SnapshotInOrder(s);
    SnapshotLayout(s);
  }

  lemma SnapshotInOrder(s: Session)
    ensures InOrder(Snapshot(s))
  {
    HeadInOrder(s);
    RankValues();
    var h, d, c := SnapshotHead(s), DebatePart(s), ConclusionPart(s);
    AppendInOrder(h, d, "debate_message");
    AppendInOrder(h + d, c, "conclusion");
    assert Snapshot(s) == (h + d) + c;
  }

  lemma SnapshotLayout(s: Session)
    ensures var r := Snapshot(s);
      r[0] == ("status", EventData(StatusEvent(s.status))) &&
      |r| == |SnapshotHead(s)| + |s.debate.GetOr([])| + (if SentConclusion(s).Some? then 1 else 0) &&
      forall k :: 0 <= k < |s.debate.GetOr([])| ==>
        r[|SnapshotHead(s)| + k] == ("debate_message", EventData(DebateMessageEvent(s.debate.GetOr([])[k])))
  {
    var h, d, c := SnapshotHead(s), DebatePart(s), ConclusionPart(s);
    var r := Snapshot(s);
    assert r == h + (d + c);
    assert h[0] == ("status", EventData(StatusEvent(s.status)));
    forall k | 0 <= k < |d| ensures r[|h| + k] == d[k] {
      assert (d + c)[k] == d[k];
    }
  }

  /** The events a snapshot carries, in order, leaving out the context entries. */
  function SnapshotEvents(ds: seq<(string, Data)>): seq<Event> {
    if ds == [] then []
    else (if ds[0].1.EventData? then [ds[0].1.event] else []) + SnapshotEvents(ds[1..])
  }

  lemma {:induction false} SnapshotEventsAppend(a: seq<(string, Data)>, b: seq<(string, Data)>)
    ensures SnapshotEvents(a + b) == SnapshotEvents(a) + SnapshotEvents(b)
    decreases |a|
  {
    if a == [] {
      assert a + b == b;
    } else {
      SnapshotEventsAppend(a[1..], b);
      assert (a + b)[1..] == a[1..] + b;
    }
  }

  lemma {:induction false} DebatePartEvents(ds: seq<(string, Data)>, ms: seq<DebateMessage>)
    requires |ds| == |ms| && forall k :: 0 <= k < |ds| ==> ds[k].1 == EventData(DebateMessageEvent(ms[k]))
    ensures SnapshotEvents(ds) == DebateMessageEvents(ms)
    decreases |ds|
  {
    if ds != [] {
      DebatePartEvents(ds[1..], ms[1..]);
      assert DebateMessageEvents(ms) == [DebateMessageEvent(ms[0])] + DebateMessageEvents(ms[1..]);
    }
  }

  lemma {:induction false} ReplayAppend(s: Session, a: seq<Event>, b: seq<Event>)
    ensures Replay(s, a + b) == Replay(Replay(s, a), b)
    decreases |a|
  {
    if a == [] {
      assert a + b == b;
    } else {
      ReplayAppend(ApplyEventToSession(s, a[0]), a[1..], b);
      assert (a + b)[1..] == a[1..] + b;
    }
  }

  /** The head of the snapshot carries the status event and, when present, the participants event. */
  lemma HeadEvents(s: Session)
    ensures SnapshotEvents(SnapshotHead(s)) ==
      [StatusEvent(s.status)] + (if s.participants.Some? then [ParticipantsEvent(s.participants.value)] else [])
  {
    var p0: seq<(string, Data)> := [("status", EventData(StatusEvent(s.status)))];
    var p1: seq<(string, Data)> := if s.context.Some? then [("context", ContextData(s.context.value))] else [];
    var p2: seq<(string, Data)> := if s.contexts.Some? then [("contexts", ContextsData(s.contexts.value))] else [];
    var p3: seq<(string, Data)> :=
      if s.participants.Some? then [("participants", EventData(ParticipantsEvent(s.participants.value)))] else [];
    assert SnapshotHead(s) == p0 + p1 + p2 + p3;
    SnapshotEventsAppend(p0 + p1 + p2, p3);
    SnapshotEventsAppend(p0 + p1, p2);
    SnapshotEventsAppend(p0, p1);
    assert SnapshotEvents(p1) == [] && SnapshotEvents(p2) == [];
    assert SnapshotEvents(p0) == [StatusEvent(s.status)];
  }

  /**
   * Replaying the snapshot's events onto a session without a transcript rebuilds
   * the status, the participants, the transcript and the conclusion the snapshot
   * reports, so a stream opened late catches up with the store.
   */
  lemma SnapshotRebuilds(s: Session, b: Session)
    requires b.debate.None?
    ensures var r := Replay(b, SnapshotEvents(Snapshot(s)));
      r.status == s.status &&
      (s.participants.Some? ==> r.participants == s.participants) &&
      r.debate.GetOr([]) == s.debate.GetOr([]) &&
      (SentConclusion(s).Some? ==> r.conclusion == SentConclusion(s))
  {
    var ms := s.debate.GetOr([]);
    var p := if s.participants.Some? then [ParticipantsEvent(s.participants.value)] else [];
    var c := if SentConclusion(s).Some? then [ConclusionEvent(SentConclusion(s).value)] else [];
    var head := [StatusEvent(s.status)] + p;
    HeadEvents(s);
    DebatePartEvents(DebatePart(s), ms);
    assert SnapshotEvents(ConclusionPart(s)) == c;
    SnapshotEventsAppend(SnapshotHead(s) + DebatePart(s), ConclusionPart(s));
    SnapshotEventsAppend(SnapshotHead(s), DebatePart(s));
    var es := head + DebateMessageEvents(ms) + c;
    assert SnapshotEvents(Snapshot(s)) == es;
    ReplayAppend(b, head + DebateMessageEvents(ms), c);
    ReplayAppend(b, head, DebateMessageEvents(ms));
    var h := Replay(b, head);
    assert h == ApplyEventToSession(ApplyEventToSession(b, StatusEvent(s.status)), if p == [] then StatusEvent(s.status) else p[0]) by {
      ReplayAppend(b, [StatusEvent(s.status)], p);
      assert [StatusEvent(s.status)][1..] == [];
      if p != [] { assert p[1..] == []; }
    }
    assert h.status == s.status && h.debate.None? && (s.participants.Some? ==> h.participants == s.participants);
    var d := Replay(h, DebateMessageEvents(ms));
    if ms != [] {
      ReplayDebateMessages(h, ms);
    } else {
      assert DebateMessageEvents(ms) == [];
    }
    assert d.status == s.status && d.debate.GetOr([]) == ms && (s.participants.Some? ==> d.participants == s.participants);
    if c != [] {
      assert c[1..] == [];
    }
  }

  /** The validation messages of a topic outside 10 to 1000 code units. */
  const TopicTooShort := "String must contain at least 10 character(s)"
  const TopicTooLong := "String must contain at most 1000 character(s)"

  /** `topicSchema`'s check of the topic: its length in UTF-16 code units lies between 10 and 1000. */
  function ValidateTopic(topic: string): (r: Option<string>)
    ensures r.None? <==> 10 <= Length(topic) <= 1000
    ensures Length(topic) < 10 ==> r == Some(TopicTooShort)
    ensures Length(topic) > 1000 ==> r == Some(TopicTooLong)
  {
    if Length(topic) < 10 then Some(TopicTooShort)
    else if Length(topic) > 1000 then Some(TopicTooLong)
    else None
  }

  /** The session record the route creates: idle, with no messages and no question. */
  function NewSession(id: string, topic: string, contexts: Option<seq<Context>>): (s: Session)
    ensures s.id == id && s.topic == topic && s.contexts == contexts
    ensures s.status == Idle && s.messages == [] && s.question.None?
    ensures s.debate.None? && s.participants.None? && s.conclusion.None? && s.plan.None? && s.answer.None?
  {
    Session(id, topic, None, Idle, None, contexts, [], None, None, None, None, None, None, None, None)
  }

  // ---------------------------------------------------------------------------
  // The store

  /** The module's `sessions` and `subscribers` maps, and everything sent to the streams. */
  class SessionHub {
    var sessions: map<string, Session>
    var subscribers: map<string, seq<Sender>>
    var outbox: seq<Delivery>

    ghost predicate Valid()
      reads this
    {
      ValidSubscribers(subscribers)
    }

    constructor ()
      ensures Valid() && sessions == map[] && subscribers == map[] && outbox == []
    {
      sessions := map[];
      subscribers := map[];
      outbox := [];
    }

    /** `publish`. */
    method Publish(id: string, name: string, data: Data)
      modifies this
      ensures outbox == old(outbox) + Deliveries(SubscribersOf(subscribers, id), name, data)
      ensures sessions == old(sessions) && subscribers == old(subscribers)
    {
      if id !in subscribers {
        assert Deliveries([], name, data) == [];
        return;
      }
      var subs := subscribers[id];
      ghost var start := outbox;
      for i := 0 to |subs|
        invariant outbox == start + Deliveries(subs[..i], name, data)
        invariant sessions == old(sessions) && subscribers == old(subscribers)
      {
        outbox := outbox + [Delivery(subs[i], name, data)];
        assert Deliveries(subs[..i + 1], name, data) == Deliveries(subs[..i], name, data) + [Delivery(subs[i], name, data)];
      }
      assert subs[..|subs|] == subs;
    }

    /** `subscribe`; its returned closure is `Unsubscribe` with the same arguments. */
    method Subscribe(id: string, x: Sender)
      requires Valid()
      modifies this
      ensures Valid()
      ensures subscribers == Added(old(subscribers), id, x)
      ensures sessions == old(sessions) && outbox == old(outbox)
    {
      var cur := if id in subscribers then subscribers[id] else [];
      if x !in cur {
        cur := cur + [x];
      }
      subscribers := subscribers[id := cur];
    }

    /** The unsubscribe closure. */
    method Unsubscribe(id: string, x: Sender)
      requires Valid()
      modifies this
      ensures Valid()
      ensures subscribers == Removed(old(subscribers), id, x)
      ensures sessions == old(sessions) && outbox == old(outbox)
    {
      if id !in subscribers {
        return;
      }
      var current := Without(subscribers[id], x);
      if current == [] {
        subscribers := subscribers - {id};
      } else {
        subscribers := subscribers[id := current];
      }
    }

    /** The callback `startOrchestrationInBackground` hands the orchestrator. */
    method OnEvent(id: string, e: Event)
      modifies this
      ensures id !in old(sessions) ==> sessions == old(sessions) && outbox == old(outbox)
      ensures id in old(sessions) ==>
        sessions == old(sessions)[id := ApplyEventToSession(old(sessions)[id], e)] &&
        outbox == old(outbox) + CallbackDeliveries(old(sessions)[id], SubscribersOf(subscribers, id), e)
      ensures subscribers == old(subscribers)
    {
      if id !in sessions {
        return;
      }
      var updated := ApplyEventToSession(sessions[id], e);
      sessions := sessions[id := updated];
      Publish(id, SseName(e), EventData(e));
      PublishIfTerminal(id, updated.status);
    }

    /** The "complete" message that follows an event leaving the session complete or failed. */
    method PublishIfTerminal(id: string, status: SessionStatus)
      modifies this
      ensures outbox == old(outbox) +
        if Terminal(status) then Deliveries(SubscribersOf(subscribers, id), "complete", EventData(StatusEvent(status))) else []
      ensures sessions == old(sessions) && subscribers == old(subscribers)
    {
      if status == Complete {
        Publish(id, "complete", EventData(StatusEvent(status)));
      }
      if status == Error {
        Publish(id, "complete", EventData(StatusEvent(status)));
      }
    }

    /** The rejection handler of the background run: status error, then a failure and a "complete" message. */
    method OnRejection(id: string)
      modifies this
      ensures id !in old(sessions) ==> sessions == old(sessions) && outbox == old(outbox)
      ensures id in old(sessions) ==>
        sessions == old(sessions)[id := old(sessions)[id].(status := Error)] &&
        outbox == old(outbox) +
          Deliveries(SubscribersOf(subscribers, id), "orchestrator_error", FailureData("Orchestration failed")) +
          Deliveries(SubscribersOf(subscribers, id), "complete", EventData(StatusEvent(Error)))
      ensures subscribers == old(subscribers)
    {
      if id !in sessions {
        return;
      }
      sessions := sessions[id := sessions[id].(status := Error)];
      Publish(id, "orchestrator_error", FailureData("Orchestration failed"));
      Publish(id, "complete", EventData(StatusEvent(Error)));
    }

    /**
     * `POST /`: a valid topic stores a new idle session under the given id and
     * returns that id; an invalid one returns the validation message and stores nothing.
     */
    method CreateSession(id: string, topic: string, contexts: Option<seq<Context>>) returns (r: Result<string>)
      modifies this
      ensures ValidateTopic(topic).Some? ==> r == Failure(ValidateTopic(topic).value) && sessions == old(sessions)
      ensures ValidateTopic(topic).None? ==> r == Success(id) && sessions == old(sessions)[id := NewSession(id, topic, contexts)]
      ensures subscribers == old(subscribers) && outbox == old(outbox)
    {
      var invalid := ValidateTopic(topic);
      if invalid.Some? {
        return Failure(invalid.value);
      }
      sessions := sessions[id := NewSession(id, topic, contexts)];
      return Success(id);
    }

    /** `GET /:sessionId`. */
    function GetSession(id: string): (r: Result<Session>)
      reads this
      ensures r.Success? <==> id in sessions
      ensures r.Success? ==> r.value == sessions[id]
      ensures r.Failure? ==> r.error == "Session not found"
    {
      if id in sessions then Success(sessions[id]) else Failure("Session not found")
    }

    /** `GET /:sessionId/stream`: the snapshot goes to the new stream, which then subscribes. */
    method OpenStream(id: string, x: Sender) returns (r: Result<Sender>)
      requires Valid()
      modifies this
      ensures Valid()
      ensures id !in old(sessions) ==> r == Failure("Session not found") && subscribers == old(subscribers) && outbox == old(outbox)
      ensures id in old(sessions) ==>
        r == Success(x) && subscribers == Added(old(subscribers), id, x) &&
        outbox == old(outbox) + SnapshotDeliveries(x, Snapshot(old(sessions)[id]))
      ensures sessions == old(sessions)
    {
      if id !in sessions {
        return Failure("Session not found");
      }
      var snapshot := Snapshot(sessions[id]);
      ghost var start := outbox;
      for i := 0 to |snapshot|
        invariant outbox == start + SnapshotDeliveries(x, snapshot[..i])
        invariant sessions == old(sessions) && subscribers == old(subscribers)
      {
        outbox := outbox + [Delivery(x, snapshot[i].0, snapshot[i].1)];
        assert SnapshotDeliveries(x, snapshot[..i + 1]) == SnapshotDeliveries(x, snapshot[..i]) + [Delivery(x, snapshot[i].0, snapshot[i].1)];
      }
      assert snapshot[..|snapshot|] == snapshot;
      Subscribe(id, x);
      return Success(x);
    }
  }

  /** The snapshot as messages to one stream. */
  function SnapshotDeliveries(x: Sender, ds: seq<(string, Data)>): (r: seq<Delivery>)
    ensures |r| == |ds| && forall k :: 0 <= k < |ds| ==> r[k] == Delivery(x, ds[k].0, ds[k].1)
  {
    seq(|ds|, k requires 0 <= k < |ds| => Delivery(x, ds[k].0, ds[k].1))
  }
}
