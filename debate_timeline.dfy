/**
 * The classification logic of the debate timeline view: the grouping of the
 * transcript by round (`debateByRound`), which round sections are shown, the
 * number in a section's header, and the colour of the confidence, position and
 * status badges. The markup itself is not modelled; a badge is reduced to its
 * colour tone.
 */
module DebateTimeline {
  import opened Wrappers
  import opened SessionTypes
  import DebateArena
  import DebateRounds
  import DebateSelection

  /** `ROUND_ORDER`: the order in which round sections are laid out. */
  const RoundOrder: seq<DebateRoundType> := [Pitch, CrossFire, StressTest, SteelMan, Consensus]

  /** The rounds in `RoundOrder` are the five rounds, each once, by increasing round number. */
  lemma RoundOrderIsFlowOrder()
    ensures forall r: DebateRoundType :: r in RoundOrder
    ensures forall i :: 0 <= i < |RoundOrder| ==> RoundNumber(RoundOrder[i]) == i + 1
  {
    forall r: DebateRoundType ensures r in RoundOrder {
      assert RoundOrder[RoundNumber(r) - 1] == r;
    }
  }

  // ---------------------------------------------------------------- grouping

  /** `debate.filter((m) => m.round === round)`: the messages of one round, in transcript order. */
  function ByRound(ms: seq<DebateMessage>, round: DebateRoundType): seq<DebateMessage> {
    if ms == [] then []
    else (if ms[0].round == round then [ms[0]] else []) + ByRound(ms[1..], round)
  }

  /** A group holds exactly the transcript's messages of its round. */
  lemma {:induction false} ByRoundMembers(ms: seq<DebateMessage>, round: DebateRoundType)
    ensures forall m :: m in ByRound(ms, round) <==> m in ms && m.round == round
  {
    if ms != [] {
      ByRoundMembers(ms[1..], round);
      assert ms == [ms[0]] + ms[1..];
    }
  }

  /** `debateByRound[round]`, where an absent transcript gives every round an empty group. */
  function Group(debate: Option<seq<DebateMessage>>, round: DebateRoundType): seq<DebateMessage> {
    match debate
    case None => []
    case Some(ms) => ByRound(ms, round)
  }

  /** Grouping a concatenation groups each part: the filter keeps transcript order. */
  lemma {:induction false} ByRoundAppend(a: seq<DebateMessage>, b: seq<DebateMessage>, round: DebateRoundType)
    ensures ByRound(a + b, round) == ByRound(a, round) + ByRound(b, round)
  {
    if a == [] {
      assert a + b == b;
    } else {
      assert (a + b)[1..] == a[1..] + b;
      ByRoundAppend(a[1..], b, round);
    }
  }

  /** The sizes of the five groups add up to the length of the transcript. */
  lemma {:induction false} GroupSizesSum(ms: seq<DebateMessage>)
    ensures |ByRound(ms, Pitch)| + |ByRound(ms, CrossFire)| + |ByRound(ms, StressTest)| +
            |ByRound(ms, SteelMan)| + |ByRound(ms, Consensus)| == |ms|
  {
    if ms != [] {
      GroupSizesSum(ms[1..]);
    }
  }

  /** The groups of `rounds`, laid out one after the other. */
  function Layout(ms: seq<DebateMessage>, rounds: seq<DebateRoundType>): seq<DebateMessage> {
    if rounds == [] then [] else ByRound(ms, rounds[0]) + Layout(ms, rounds[1..])
  }

  /** The groups laid out in `RoundOrder`, as the timeline shows them. */
  function Grouped(ms: seq<DebateMessage>): seq<DebateMessage> {
    Layout(ms, RoundOrder)
  }

  /** The round numbers strictly increase along `rounds`. */
  predicate Increasing(rounds: seq<DebateRoundType>) {
    forall i, j :: 0 <= i < j < |rounds| ==> RoundNumber(rounds[i]) < RoundNumber(rounds[j])
  }

  /** Every round of `rounds` comes after `first`. */
  predicate AllAfter(rounds: seq<DebateRoundType>, first: DebateRoundType) {
    forall r :: r in rounds ==> RoundNumber(first) < RoundNumber(r)
  }

  lemma IncreasingTail(rounds: seq<DebateRoundType>)
    requires rounds != [] && Increasing(rounds)
    ensures Increasing(rounds[1..]) && AllAfter(rounds[1..], rounds[0])
  {
    forall i, j | 0 <= i < j < |rounds[1..]|
      ensures RoundNumber(rounds[1..][i]) < RoundNumber(rounds[1..][j])
    {
      assert rounds[1..][i] == rounds[i + 1] && rounds[1..][j] == rounds[j + 1];
    }
    forall r | r in rounds[1..] ensures RoundNumber(rounds[0]) < RoundNumber(r) {
      var i :| 0 <= i < |rounds[1..]| && rounds[1..][i] == r;
      assert rounds[i + 1] == r;
    }
  }

  lemma ByRoundCons(m: DebateMessage, t: seq<DebateMessage>, round: DebateRoundType)
    ensures ByRound([m] + t, round) == (if m.round == round then [m] else []) + ByRound(t, round)
  {
    assert ([m] + t)[1..] == t;
  }

  /** No message of `t` belongs to a round before `round`. */
  predicate NoEarlier(t: seq<DebateMessage>, round: DebateRoundType) {
    forall r :: RoundNumber(r) < RoundNumber(round) ==> ByRound(t, r) == []
  }

  /** A message of a round that is not laid out leaves the layout alone. */
  lemma {:induction false} LayoutSkip(m: DebateMessage, t: seq<DebateMessage>, rounds: seq<DebateRoundType>)
    requires m.round !in rounds
    ensures Layout([m] + t, rounds) == Layout(t, rounds)
  {
    if rounds != [] {
      var ms, r0, rest := [m] + t, rounds[0], rounds[1..];
      assert m.round != r0 && m.round !in rest;
      ByRoundCons(m, t, r0);
      assert ByRound(ms, r0) == ByRound(t, r0);
      LayoutSkip(m, t, rest);
      assert Layout(ms, rounds) == ByRound(ms, r0) + Layout(ms, rest);
    }
  }

  /** Putting `m` before messages of no earlier round than its own puts it at the head of the layout. */
  lemma {:induction false} LayoutCons(m: DebateMessage, t: seq<DebateMessage>, rounds: seq<DebateRoundType>)
    requires Increasing(rounds) && m.round in rounds && NoEarlier(t, m.round)
    ensures Layout([m] + t, rounds) == [m] + Layout(t, rounds)
  {
    var r0, rest := rounds[0], rounds[1..];
    IncreasingTail(rounds);
    ByRoundCons(m, t, r0);
    var ms := [m] + t;
    assert Layout(ms, rounds) == ByRound(ms, r0) + Layout(ms, rest);
    assert Layout(t, rounds) == ByRound(t, r0) + Layout(t, rest);
    if r0 == m.round {
      LayoutSkip(m, t, rest);
      assert ByRound(ms, r0) == [m] + ByRound(t, r0);
    } else {
      assert m.round in rest;
      LayoutCons(m, t, rest);
      assert RoundNumber(r0) < RoundNumber(m.round);
      assert ByRound(t, r0) == [];
      assert ByRound(ms, r0) == [];
    }
  }

  lemma {:induction false} LayoutEmpty(rounds: seq<DebateRoundType>)
    ensures Layout([], rounds) == []
  {
    if rounds != [] {
      LayoutEmpty(rounds[1..]);
    }
  }

  /** A round no message of `ms` belongs to has an empty group. */
  lemma EmptyGroup(ms: seq<DebateMessage>, round: DebateRoundType)
    requires forall k :: 0 <= k < |ms| ==> ms[k].round != round
    ensures ByRound(ms, round) == []
  {
    ByRoundMembers(ms, round);
  }

  /**
   * On a transcript whose round numbers never decrease (as the engine's always
   * are), laying the groups out in `RoundOrder` gives back the transcript: the
   * timeline shows every message once, in the order it was produced.
   */
  lemma {:induction false} GroupedSorted(ms: seq<DebateMessage>)
    requires DebateArena.Ordered(ms)
    ensures Grouped(ms) == ms
  {
    if ms == [] {
      LayoutEmpty(RoundOrder);
    } else {
      var m, t := ms[0], ms[1..];
      assert DebateArena.Ordered(t) by {
        forall i, j | 0 <= i < j < |t| ensures t[i].roundNumber <= t[j].roundNumber {
          assert t[i] == ms[i + 1] && t[j] == ms[j + 1];
        }
      }
      GroupedSorted(t);
      forall k | 0 <= k < |t|
        ensures RoundNumber(m.round) <= RoundNumber(t[k].round)
      {
        assert t[k] == ms[k + 1];
      }
      forall r | RoundNumber(r) < RoundNumber(m.round)
        ensures ByRound(t, r) == []
      {
        EmptyGroup(t, r);
      }
      RoundOrderIsFlowOrder();
      assert Increasing(RoundOrder);
      assert NoEarlier(t, m.round);
      LayoutCons(m, t, RoundOrder);
      assert ms == [m] + t;
    }
  }

  /**
   * The timeline of a debate run shows every message of its transcript once, in
   * transcript order, each in the section of its round.
   */
  lemma TimelineOfDebate(gw: DebateRounds.Gateway, a: DebateSelection.Assignment, topic: string,
                         contexts: seq<Context>, targetIndex: nat, counter: nat)
    requires a.all == a.core + [a.wildcard]
    ensures var ms := DebateArena.Debate(gw, a, topic, contexts, targetIndex, counter).messages;
      Grouped(ms) == ms
  {
    DebateArena.DebateTranscript(gw, a, topic, contexts, targetIndex, counter);
    GroupedSorted(DebateArena.Debate(gw, a, topic, contexts, targetIndex, counter).messages);
  }

  // ---------------------------------------------------------------- sections

  /** `hasDebate`: the transcript is present and not empty. */
  predicate HasDebate(debate: Option<seq<DebateMessage>>) {
    debate.Some? && |debate.value| > 0
  }

  /** The rounds among `rounds` whose group is not empty, in the order given. */
  function NonEmptyRounds(debate: Option<seq<DebateMessage>>, rounds: seq<DebateRoundType>): seq<DebateRoundType> {
    if rounds == [] then []
    else (if |Group(debate, rounds[0])| > 0 then [rounds[0]] else []) + NonEmptyRounds(debate, rounds[1..])
  }

  /** The round sections shown: the non-empty groups, in `RoundOrder`; none when there is no debate. */
  function ShownRounds(debate: Option<seq<DebateMessage>>): (shown: seq<DebateRoundType>)
  {
    if HasDebate(debate) then NonEmptyRounds(debate, RoundOrder) else []
  }

  /** A round's section is shown exactly when some message of the transcript belongs to that round. */
  lemma {:induction false} ShownIff(debate: Option<seq<DebateMessage>>, round: DebateRoundType)
    ensures round in ShownRounds(debate) <==>
      debate.Some? && exists k :: 0 <= k < |debate.value| && debate.value[k].round == round
  {
    NonEmptyRoundsIff(debate, RoundOrder, round);
    if debate.Some? && exists k :: 0 <= k < |debate.value| && debate.value[k].round == round {
      var k :| 0 <= k < |debate.value| && debate.value[k].round == round;
      ByRoundMembers(debate.value, round);
      assert debate.value[k] in ByRound(debate.value, round);
    }
    if round in ShownRounds(debate) {
      var g := ByRound(debate.value, round);
      ByRoundMembers(debate.value, round);
      assert g[0] in debate.value;
    }
  }

  lemma {:induction false} NonEmptyRoundsIff(debate: Option<seq<DebateMessage>>, rounds: seq<DebateRoundType>, round: DebateRoundType)
    ensures round in NonEmptyRounds(debate, rounds) <==> round in rounds && |Group(debate, round)| > 0
  {
    if rounds != [] {
      NonEmptyRoundsIff(debate, rounds[1..], round);
      assert rounds == [rounds[0]] + rounds[1..];
    }
  }

  /** Shown sections keep `RoundOrder`: their round numbers strictly increase. */
  lemma {:induction false} ShownInOrder(debate: Option<seq<DebateMessage>>)
    ensures Increasing(ShownRounds(debate))
  {
    if HasDebate(debate) {
      RoundOrderIsFlowOrder();
      NonEmptyRoundsIncreasing(debate, RoundOrder);
    }
  }

  lemma {:induction false} NonEmptyRoundsIncreasing(debate: Option<seq<DebateMessage>>, rounds: seq<DebateRoundType>)
    requires Increasing(rounds)
    ensures Increasing(NonEmptyRounds(debate, rounds))
  {
    if rounds != [] {
      IncreasingTail(rounds);
      NonEmptyRoundsIncreasing(debate, rounds[1..]);
      var rest := NonEmptyRounds(debate, rounds[1..]);
      forall r | r in rest ensures RoundNumber(rounds[0]) < RoundNumber(r) {
        NonEmptyRoundsIff(debate, rounds[1..], r);
        assert r in rounds[1..];
      }
      var shown := NonEmptyRounds(debate, rounds);
      forall i, j | 0 <= i < j < |shown| ensures RoundNumber(shown[i]) < RoundNumber(shown[j]) {
        if |Group(debate, rounds[0])| > 0 {
          assert shown == [rounds[0]] + rest;
          assert shown[j] == rest[j - 1] && shown[j] in rest;
          if i > 0 {
            assert shown[i] == rest[i - 1];
            assert RoundNumber(rest[i - 1]) < RoundNumber(rest[j - 1]);
          }
        } else {
          assert shown == rest;
        }
      }
    }
  }

  /**
   * The number in a section's header, `messages[0]?.roundNumber || "?"`: the first
   * message's round number, or `None` (the question mark) for an empty group or a
   * round number of 0.
   */
  function HeaderNumber(group: seq<DebateMessage>): (n: Option<int>)
    ensures n.Some? ==> group != [] && n.value != 0
  {
    if group != [] && group[0].roundNumber != 0 then Some(group[0].roundNumber) else None
  }

  /** On well-formed messages every shown section is headed by its own round's number. */
  lemma HeaderOfWellFormed(ms: seq<DebateMessage>, round: DebateRoundType)
    requires forall k :: 0 <= k < |ms| ==> WellFormed(ms[k])
    requires exists k :: 0 <= k < |ms| && ms[k].round == round
    ensures HeaderNumber(ByRound(ms, round)) == Some(RoundNumber(round))
  {
    var k :| 0 <= k < |ms| && ms[k].round == round;
    ByRoundMembers(ms, round);
    assert ms[k] in ByRound(ms, round);
    var g := ByRound(ms, round);
    assert g[0] in ms;
  }

  // ---------------------------------------------------------------- badges

  /** The colour tones the badges use. */
  datatype Tone = SuccessTone | DestructiveTone | WarningTone | MutedTone | PulsingPrimaryTone

  /** The confidence badge: success above 70, destructive below 40, warning from 40 to 70. */
  function ConfidenceTone(score: int): (t: Tone)
    ensures t == SuccessTone <==> score > 70
    ensures t == DestructiveTone <==> score < 40
    ensures t == WarningTone <==> 40 <= score <= 70
  {
    if score > 70 then SuccessTone else if score < 40 then DestructiveTone else WarningTone
  }

  /** The confidence badge of a message: present exactly when the message carries a score. */
  function ConfidenceBadge(m: DebateMessage): (t: Option<Tone>)
    ensures t.Some? <==> m.confidenceScore.Some?
    ensures t.Some? ==> t.value in {SuccessTone, DestructiveTone, WarningTone}
  {
    match m.confidenceScore
    case None => None
    case Some(s) => Some(ConfidenceTone(s))
  }

  /** The `colors` table of `getPositionBadge`. */
  function PositionColor(position: string): Option<Tone> {
    if position == "for" then Some(SuccessTone)
    else if position == "against" then Some(DestructiveTone)
    else if position == "neutral" then Some(MutedTone)
    else if position == "mixed" then Some(WarningTone)
    else None
  }

  /**
   * `getPositionBadge`: no badge for an absent (or empty, hence falsy) position;
   * otherwise the table's colour, with the neutral colour for a position the
   * table does not know.
   */
  function PositionBadge(position: Option<string>): (t: Option<Tone>)
    ensures t.None? <==> position.None? || position.value == ""
    ensures t.Some? && PositionColor(position.value).None? ==> t.value == MutedTone
  {
    match position
    case None => None
    case Some(p) =>
      if p == "" then None
      else match PositionColor(p)
        case Some(c) => Some(c)
        case None => PositionColor("neutral")
  }

  /** Each of the engine's four positions gets its own colour. */
  lemma PositionBadgeOfPositions(p: DebatePosition)
    ensures PositionBadge(Some(PositionName(p))) ==
      Some(match p case For => SuccessTone case Against => DestructiveTone case Neutral => MutedTone case Mixed => WarningTone)
    ensures forall q: DebatePosition :: q != p ==> PositionBadge(Some(PositionName(q))) != PositionBadge(Some(PositionName(p)))
  {
  }

  /** The target line: shown only for a target that is present, not empty and not "all". */
  predicate ShowsTarget(target: Option<string>) {
    target.Some? && target.value != "" && target.value != "all"
  }

  /** `StatusIndicator`: complete is success, error is destructive, every other status pulses. */
  function StatusTone(status: string): (t: Tone)
    ensures t == SuccessTone <==> status == "complete"
    ensures t == DestructiveTone <==> status == "error"
    ensures t == PulsingPrimaryTone <==> status != "complete" && status != "error"
  {
    if status == "complete" then SuccessTone else if status == "error" then DestructiveTone else PulsingPrimaryTone
  }

  /** The engine's messages to everyone hide their target; its cross-fire messages name theirs. */
  lemma TargetVisibility(role: string)
    ensures !ShowsTarget(Some("all"))
    ensures !ShowsTarget(None)
    ensures role != "" && role != "all" ==> ShowsTarget(Some(role))
  {
  }
}
