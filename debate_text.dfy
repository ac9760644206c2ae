/**
 * The text heuristics of the debate engine: position classification by keywords,
 * key-point extraction from bullet lines, the consensus score and statement, the
 * recap of earlier messages and the rendering of background contexts.
 */
module DebateText {
  import opened Wrappers
  import opened JsString
  import opened SessionTypes

  // ---------------------------------------------------------------- positions

  datatype KeywordGroup = KeywordGroup(keywords: seq<string>, position: DebatePosition)

  /** `POSITION_KEYWORDS`, checked in this order. */
  const PositionKeywords: seq<KeywordGroup> := [
    KeywordGroup(["strongly support", "strongly for"], For),
    KeywordGroup(["strongly against", "oppose"], Against),
    KeywordGroup(["mixed", "both sides"], Mixed),
    KeywordGroup(["neutral", "uncertain"], Neutral),
    KeywordGroup(["support", "agree"], For),
    KeywordGroup(["disagree", "against"], Against)
  ]

  /** Some keyword of group `g` occurs in the lower-cased text. */
  predicate GroupMatches(lower: string, g: nat)
    requires g < |PositionKeywords|
  {
    exists k :: 0 <= k < |PositionKeywords[g].keywords| && Contains(lower, PositionKeywords[g].keywords[k])
  }

  function AnyKeyword(lower: string, keywords: seq<string>): (b: bool)
    ensures b <==> exists k :: 0 <= k < |keywords| && Contains(lower, keywords[k])
  {
    if keywords == [] then false
    else Contains(lower, keywords[0]) || AnyKeyword(lower, keywords[1..])
  }

  /** The first group, at or after `from`, that matches. */
  function FirstMatchingGroup(lower: string, from: nat): (r: Option<nat>)
    decreases |PositionKeywords| - from
    ensures r.Some? ==> from <= r.value < |PositionKeywords| && GroupMatches(lower, r.value)
    ensures r.Some? ==> forall g :: from <= g < r.value ==> !GroupMatches(lower, g)
    ensures r.None? ==> forall g :: from <= g < |PositionKeywords| ==> !GroupMatches(lower, g)
  {
    if from >= |PositionKeywords| then None
    else if AnyKeyword(lower, PositionKeywords[from].keywords) then Some(from)
    else FirstMatchingGroup(lower, from + 1)
  }

  /** No group before `g` matches. */
  predicate FirstGroup(lower: string, g: nat)
    requires g <= |PositionKeywords|
  {
    forall h :: 0 <= h < g ==> !GroupMatches(lower, h)
  }

  /**
   * `extractPosition`: the position of the first group with a keyword in the
   * lower-cased text, or neutral when no group has one.
   */
  function ExtractPosition(content: string): (p: DebatePosition)
    ensures var lower := Lower(content);
      (forall g :: 0 <= g < |PositionKeywords| ==> !GroupMatches(lower, g)) ==> p == Neutral
    ensures var lower := Lower(content);
      forall g :: 0 <= g < |PositionKeywords| && GroupMatches(lower, g) && FirstGroup(lower, g) ==>
        p == PositionKeywords[g].position
  {
    match FirstMatchingGroup(Lower(content), 0)
    case Some(g) => PositionKeywords[g].position
    case None => Neutral
  }

  /** A text in which some character of `p` does not occur does not contain `p`. */
  lemma NotContains(s: string, p: string, j: nat)
    requires j < |p| && p[j] !in s
    ensures !Contains(s, p)
  {
    ContainsIff(s, p);
    forall k: nat | k + |p| <= |s|
      ensures !OccursAt(s, p, k)
    {
      assert s[k..k + |p|][j] == s[k + j];
    }
  }

  /**
   * "I disagree" is classified as for: "agree", a keyword of the fifth group, occurs in
   * it, and the fifth group is checked before "disagree" in the sixth.
   */
  lemma DisagreeReadsAsFor()
    ensures ExtractPosition("I disagree") == For
  {
    var lower := "i disagree";
    assert Lower("I disagree") == lower;
    AgreeInDisagree(lower);
    NoEarlierGroupInDisagree(lower);
  }

  lemma AgreeInDisagree(lower: string)
    requires lower == "i disagree"
    ensures GroupMatches(lower, 4)
  {
    assert OccursAt(lower, "agree", 5);
    ContainsIff(lower, "agree");
    assert PositionKeywords[4].keywords[1] == "agree";
  }

  lemma NoEarlierGroupInDisagree(lower: string)
    requires lower == "i disagree"
    ensures FirstGroup(lower, 4)
  {
    NoStrongGroupInDisagree(lower);
    NoMiddleGroupInDisagree(lower);
  }

  /** Neither "strongly ..." group, nor "oppose", matches: no 't' and no 'o' occurs. */
  lemma NoStrongGroupInDisagree(lower: string)
    requires lower == "i disagree"
    ensures !GroupMatches(lower, 0) && !GroupMatches(lower, 1)
  {
    NotContains(lower, "strongly support", 1);
    NotContains(lower, "strongly for", 1);
    NotContains(lower, "strongly against", 1);
    NotContains(lower, "oppose", 0);
    assert PositionKeywords[0].keywords == ["strongly support", "strongly for"];
    assert PositionKeywords[1].keywords == ["strongly against", "oppose"];
  }

  /** The mixed and neutral groups do not match: no 'm', 'b', 'n' or 'u' occurs. */
  lemma NoMiddleGroupInDisagree(lower: string)
    requires lower == "i disagree"
    ensures !GroupMatches(lower, 2) && !GroupMatches(lower, 3)
  {
    NotContains(lower, "mixed", 0);
    NotContains(lower, "both sides", 0);
    NotContains(lower, "neutral", 0);
    NotContains(lower, "uncertain", 0);
    assert PositionKeywords[2].keywords == ["mixed", "both sides"];
    assert PositionKeywords[3].keywords == ["neutral", "uncertain"];
  }

  // ---------------------------------------------------------------- key points

  /** The end of the marker `\d+\.`, `*` or `-` at the start of `t`, if one is there. */
  function MarkerEnd(t: string): (m: Option<nat>)
    ensures m.Some? ==> 1 <= m.value <= |t|
  {
    var d := DigitRun(t, 0);
    if d >= 1 && d < |t| && t[d] == '.' then Some(d + 1)
    else if t != [] && (t[0] == '*' || t[0] == '-') then Some(1)
    else None
  }

  /** The length of the text `^(\d+\.|\*|-)\s+` matches at the start of `t`, if it matches. */
  function BulletPrefix(t: string): (n: Option<nat>)
    ensures n.Some? ==> 2 <= n.value <= |t| && IsWhiteSpace(t[n.value - 1])
    ensures n.Some? ==> n.value == |t| || !IsWhiteSpace(t[n.value])
  {
    match MarkerEnd(t)
    case None => None
    case Some(m) =>
      var w := WhiteSpaceRun(t, m);
      if w >= 1 then Some(m + w) else None
  }

  /** The length bounds a key point must meet, in UTF-16 code units. */
  predicate PointLength(p: string) {
    10 < Length(p) < 200
  }

  /** The key point a line contributes, if any. */
  function KeyPointOf(line: string): (r: Option<string>)
    ensures r.Some? ==> PointLength(r.value)
  {
    var t := Trim(line);
    match BulletPrefix(t)
    case None => None
    case Some(n) =>
      var point := Trim(t[n..]);
      if PointLength(point) then Some(point) else None
  }

  /** The values `f` gives for the elements it keeps, in order. */
  function FilterMap<A, B>(xs: seq<A>, f: A -> Option<B>): seq<B> {
    if xs == [] then []
    else
      var rest := FilterMap(xs[..|xs| - 1], f);
      match f(xs[|xs| - 1])
      case Some(y) => rest + [y]
      case None => rest
  }

  /** Extending a prefix by one element appends that element's value, when `f` keeps it. */
  lemma FilterMapPrefix<A, B>(xs: seq<A>, i: nat, f: A -> Option<B>)
    requires i < |xs|
    ensures FilterMap(xs[..i + 1], f) == FilterMap(xs[..i], f) + (if f(xs[i]).Some? then [f(xs[i]).value] else [])
  {
    assert xs[..i + 1][..i] == xs[..i];
  }

  /** Every value kept is the value of some element, and there are at most as many as elements. */
  lemma {:induction false} FilterMapFrom<A, B>(xs: seq<A>, f: A -> Option<B>)
    ensures |FilterMap(xs, f)| <= |xs|
    ensures forall k :: 0 <= k < |FilterMap(xs, f)| ==>
      exists i :: 0 <= i < |xs| && f(xs[i]) == Some(FilterMap(xs, f)[k])
  {
    if xs != [] {
      var init := xs[..|xs| - 1];
      var c := FilterMap(init, f);
      FilterMapFrom(init, f);
      forall k | 0 <= k < |c|
        ensures exists i :: 0 <= i < |xs| && f(xs[i]) == Some(c[k])
      {
        var i :| 0 <= i < |init| && f(init[i]) == Some(c[k]);
        assert xs[i] == init[i];
      }
      match f(xs[|xs| - 1])
      case Some(y) =>
        assert FilterMap(xs, f) == c + [y];
        assert f(xs[|xs| - 1]) == Some(y);
      case None =>
        assert FilterMap(xs, f) == c;
    }
  }

  /** The key points of the lines, in line order, before the cut to five. */
  function Candidates(lines: seq<string>): seq<string> {
    FilterMap(lines, KeyPointOf)
  }

  /** `point` is the key point of one of the lines. */
  predicate KeyPointOfSomeLine(lines: seq<string>, point: string) {
    exists i :: 0 <= i < |lines| && KeyPointOf(lines[i]) == Some(point)
  }

  /** Every candidate meets the length bounds and is the key point of some line. */
  lemma CandidatesFromLines(lines: seq<string>)
    ensures |Candidates(lines)| <= |lines|
    ensures forall k :: 0 <= k < |Candidates(lines)| ==>
      PointLength(Candidates(lines)[k]) && KeyPointOfSomeLine(lines, Candidates(lines)[k])
  {
    FilterMapFrom(lines, KeyPointOf);
    forall k | 0 <= k < |Candidates(lines)|
      ensures PointLength(Candidates(lines)[k]) && KeyPointOfSomeLine(lines, Candidates(lines)[k])
    {
      var i :| 0 <= i < |lines| && KeyPointOf(lines[i]) == Some(Candidates(lines)[k]);
    }
  }

  /** The key points of a content: the first five candidates of its lines. */
  function KeyPoints(content: string): seq<string> {
    var c := Candidates(Split(content, '\n'));
    if |c| <= 5 then c else c[..5]
  }

  /** `extractKeyPoints`: the loop over the lines, then the cut to five. */
  method ExtractKeyPoints(content: string) returns (points: seq<string>)
    ensures points == KeyPoints(content)
  {
    var lines := Split(content, '\n');
    var all: seq<string> := [];
    for i := 0 to |lines|
      invariant all == FilterMap(lines[..i], KeyPointOf)
    {
      FilterMapPrefix(lines, i, KeyPointOf);
      var kp := KeyPointOf(lines[i]);
      if kp.Some? {
        all := all + [kp.value];
      }
    }
    assert lines[..|lines|] == lines;
    points := if |all| <= 5 then all else all[..5];
  }

  /**
   * At most five key points, in line order, each of length strictly between 10 and
   * 200 and each the key point of a line of the content.
   */
  lemma KeyPointsBounds(content: string)
    ensures |KeyPoints(content)| <= 5
    ensures KeyPoints(content) <= Candidates(Split(content, '\n'))
    ensures forall k :: 0 <= k < |KeyPoints(content)| ==>
      PointLength(KeyPoints(content)[k]) && KeyPointOfSomeLine(Split(content, '\n'), KeyPoints(content)[k])
  {
    var lines := Split(content, '\n');
    CandidatesFromLines(lines);
    var c := Candidates(lines);
    var kp := KeyPoints(content);
    assert kp == if |c| <= 5 then c else c[..5];
    forall k | 0 <= k < |kp|
      ensures PointLength(kp[k]) && KeyPointOfSomeLine(lines, kp[k])
    {
      assert kp[k] == c[k];
    }
  }

  /** A numbered line gives its text as a key point, the marker and the spaces removed. */
  lemma NumberedLineExample(line: string)
    requires line == "1. Lower costs over time"
    ensures KeyPointOf(line) == Some("Lower costs over time")
  {
    var point := "Lower costs over time";
    assert line == "1. " + point;
    assert line[3..] == point;
    NumberedLineTrim(line);
    NumberedLineMarker(line);
    NumberedLinePoint(point);
    MarkedLinePoint(line, 3);
  }

  /** A trimmed line whose marker ends at `n` and whose rest is a trimmed point of the right length gives that rest. */
  lemma MarkedLinePoint(line: string, n: nat)
    requires Trim(line) == line && BulletPrefix(line) == Some(n)
    requires Trim(line[n..]) == line[n..] && PointLength(line[n..])
    ensures KeyPointOf(line) == Some(line[n..])
  {
  }

  lemma NumberedLineMarker(t: string)
    requires t == "1. Lower costs over time"
    ensures BulletPrefix(t) == Some(3)
  {
    assert t[0] == '1' && t[1] == '.' && t[2] == ' ' && t[3] == 'L';
    OneDigitMarker(t);
  }

  /** A single digit, a dot and one space in front of text make a three-character marker. */
  lemma OneDigitMarker(t: string)
    requires |t| >= 4 && IsDigit(t[0]) && t[1] == '.' && IsWhiteSpace(t[2]) && !IsWhiteSpace(t[3])
    ensures BulletPrefix(t) == Some(3)
  {
    assert DigitRun(t, 1) == 0;
    assert DigitRun(t, 0) == 1;
    assert MarkerEnd(t) == Some(2);
    assert WhiteSpaceRun(t, 3) == 0;
    assert WhiteSpaceRun(t, 2) == 1;
  }

  lemma NumberedLineTrim(t: string)
    requires t == "1. Lower costs over time"
    ensures Trim(t) == t
  {
    TrimKeeps(t);
  }

  lemma NumberedLinePoint(point: string)
    requires point == "Lower costs over time"
    ensures Trim(point) == point && PointLength(point)
  {
    TrimKeeps(point);
    PointBmp(point);
  }

  lemma PointBmp(point: string)
    requires point == "Lower costs over time"
    ensures Length(point) == |point|
  {
    assert forall k :: 0 <= k < |point| ==> (point[k] as int) < 0x80;
    Utf16Bmp(point);
  }

  /** `trim` leaves a text without white space at either end unchanged. */
  lemma TrimKeeps(s: string)
    requires s != [] && !IsWhiteSpace(s[0]) && !IsWhiteSpace(s[|s| - 1])
    ensures Trim(s) == s
  {
    assert TrimStart(s) == s;
    assert TrimEnd(s) == s;
  }

  /** A text of characters below U+10000 has one code unit per character. */
  lemma {:induction false} Utf16Bmp(s: string)
    requires forall k :: 0 <= k < |s| ==> (s[k] as int) < 0x10000
    ensures Length(s) == |s|
  {
    if s != [] {
      Utf16Bmp(s[1..]);
    }
  }

  // ---------------------------------------------------------------- consensus

  /** A match of `/Score:\s*(\d+)/i`: where it starts, where it ends and the digits it captures. */
  datatype ScoreMatch = ScoreMatch(start: nat, end: nat, digits: string)

  /** Where the digits of a score match at `i` would start: after "score:" and any white space. */
  function DigitsStart(s: string, i: nat): nat {
    i + 6 + WhiteSpaceRun(s, i + 6)
  }

  /** The case-insensitive pattern matches at `i`: "score:", optional white space, digits. */
  predicate ScoreAt(s: string, i: nat) {
    LowerOccursAt(s, "score:", i) && DigitRun(s, DigitsStart(s, i)) >= 1
  }

  /** The match at `i`, when the pattern matches there. */
  function MatchAt(s: string, i: nat): (m: ScoreMatch)
    requires ScoreAt(s, i)
    ensures m.start == i && DigitsStart(s, i) < m.end <= |s| && m.digits == s[DigitsStart(s, i)..m.end]
    ensures m.digits != [] && AllDigits(m.digits)
  {
    var ds := DigitsStart(s, i);
    ScoreMatch(i, ds + DigitRun(s, ds), s[ds..ds + DigitRun(s, ds)])
  }

  /** Where the leftmost match of the score pattern at or after `from` starts. */
  function FindScore(s: string, from: nat): (r: Option<nat>)
    decreases |s| - from
    ensures r.Some? ==> from <= r.value && ScoreAt(s, r.value)
    ensures r.Some? ==> forall k :: from <= k < r.value ==> !ScoreAt(s, k)
    ensures r.None? ==> forall k :: from <= k ==> !ScoreAt(s, k)
  {
    if from + 6 > |s| then None
    else if ScoreAt(s, from) then Some(from)
    else FindScore(s, from + 1)
  }

  /** The pattern matches at `i` and nowhere before. */
  predicate FirstScoreAt(s: string, i: nat) {
    ScoreAt(s, i) && forall k :: 0 <= k < i ==> !ScoreAt(s, k)
  }

  /** The leftmost match is the one the search finds. */
  lemma FirstScoreFound(s: string, i: nat)
    requires FirstScoreAt(s, i)
    ensures FindScore(s, 0) == Some(i)
  {
    var f := FindScore(s, 0);
    assert f.Some?;
    assert f.value == i;
  }

  /** The score a reply states: the digits of the leftmost match, 50 when nothing matches. */
  function StatedScore(raw: string): (v: int)
    ensures v >= 0
    ensures FindScore(raw, 0).None? ==> v == 50
  {
    match FindScore(raw, 0)
    case Some(i) => DigitsValue(MatchAt(raw, i).digits)
    case None => 50
  }

  function Clamp(x: int, lo: int, hi: int): (r: int)
    requires lo <= hi
    ensures lo <= r <= hi
    ensures lo <= x <= hi ==> r == x
    ensures x < lo ==> r == lo
    ensures x > hi ==> r == hi
  {
    if x < lo then lo else if x > hi then hi else x
  }

  /** The confidence score of a consensus reply: the stated score clamped into [0, 100]. */
  function ConfidenceScore(raw: string): (c: int)
    ensures 0 <= c <= 100
    ensures FindScore(raw, 0).None? ==> c == 50
  {
    Clamp(StatedScore(raw), 0, 100)
  }

  /** A stated score is the leftmost match's digits, clamped into [0, 100]. */
  lemma ConfidenceScoreOfMatch(raw: string, i: nat)
    requires FirstScoreAt(raw, i)
    ensures StatedScore(raw) == DigitsValue(MatchAt(raw, i).digits)
    ensures ConfidenceScore(raw) == Clamp(DigitsValue(MatchAt(raw, i).digits), 0, 100)
  {
    FirstScoreFound(raw, i);
  }

  /** The reply with its leftmost score match cut out, or unchanged when nothing matches. */
  function WithoutScore(raw: string): string {
    match FindScore(raw, 0)
    case Some(i) => raw[..i] + raw[MatchAt(raw, i).end..]
    case None => raw
  }

  /** The statement of a consensus reply: the score match removed, then the first "Statement:", then trimmed. */
  function ConsensusContent(raw: string): string {
    Trim(DeleteFirst(WithoutScore(raw), "Statement:"))
  }

  /**
   * The statement is trimmed, and it is the trimmed reply when the reply has
   * neither a score nor "Statement:".
   */
  lemma ConsensusContentProperties(raw: string)
    ensures Trim(ConsensusContent(raw)) == ConsensusContent(raw)
    ensures FindScore(raw, 0).None? && IndexOf(raw, "Statement:", 0).None? ==> ConsensusContent(raw) == Trim(raw)
  {
    TrimIdempotent(DeleteFirst(WithoutScore(raw), "Statement:"));
  }

  /** With a stated score, the leftmost score match and then the first "Statement:" are cut out before trimming. */
  lemma ConsensusContentOfMatch(raw: string, i: nat)
    requires FirstScoreAt(raw, i)
    ensures ConsensusContent(raw) == Trim(DeleteFirst(raw[..i] + raw[MatchAt(raw, i).end..], "Statement:"))
  {
    FirstScoreFound(raw, i);
  }

  /** Case-insensitive comparison fails at `i` when one character differs. */
  lemma NotLowerOccursAt(s: string, lit: string, i: nat, j: nat)
    requires j < |lit| && i + j < |s| && LowerChar(s[i + j]) != lit[j]
    ensures !LowerOccursAt(s, lit, i)
  {
    if i + |lit| <= |s| {
      assert Lower(s[i..i + |lit|])[j] == LowerChar(s[i + j]);
    }
  }

  /** The example reply, in which the score pattern first matches at index 20. */
  const ExampleReply := "Statement: I agree. Score: 85"

  lemma ExampleScoreAt(raw: string)
    requires raw == ExampleReply
    ensures ScoreAt(raw, 20) && MatchAt(raw, 20) == ScoreMatch(20, 29, "85")
  {
    assert raw[20..26] == "Score:";
    assert Lower(raw[20..26]) == "score:";
    assert WhiteSpaceRun(raw, 27) == 0;
    assert WhiteSpaceRun(raw, 26) == 1;
    assert DigitsStart(raw, 20) == 27;
    assert DigitRun(raw, 29) == 0;
    assert DigitRun(raw, 28) == 1;
    assert DigitRun(raw, 27) == 2;
    assert raw[27..29] == "85";
  }

  lemma ExampleNoEarlierScore(raw: string)
    requires raw == ExampleReply
    ensures forall k :: 0 <= k < 20 ==> !ScoreAt(raw, k)
  {
    // no 'c' or 'C' occurs before index 21, so "score:" cannot start before 20
    var head := raw[..21];
    assert head == "Statement: I agree. S";
    assert 'c' !in head && 'C' !in head;
    forall k | 0 <= k < 20
      ensures !ScoreAt(raw, k)
    {
      assert raw[k + 1] == head[k + 1];
      NotLowerOccursAt(raw, "score:", k, 1);
    }
  }

  lemma ExampleStatement(raw: string)
    requires raw == ExampleReply
    ensures DeleteFirst(raw[..20] + raw[29..], "Statement:") == " I agree. "
  {
    var rest := raw[..20] + raw[29..];
    assert rest == "Statement: I agree. ";
    assert IndexOf(rest, "Statement:", 0) == Some(0);
  }

  lemma ExampleTrim(t: string)
    requires t == " I agree. "
    ensures Trim(t) == "I agree."
  {
    var u := t[1..];
    assert !IsWhiteSpace(u[0]) && TrimStart(u) == u;
    assert TrimStart(t) == u;
    var v := u[..|u| - 1];
    assert !IsWhiteSpace(v[|v| - 1]) && TrimEnd(v) == v;
    assert TrimEnd(u) == v;
    assert v == "I agree.";
  }

  /** "Score: 150" states 150, which the clamp brings down to 100. */
  lemma ClampedScoreExample(raw: string)
    requires raw == "Score: 150"
    ensures ConfidenceScore(raw) == 100
  {
    assert raw[..6] == "Score:";
    assert Lower(raw[..6]) == "score:";
    assert WhiteSpaceRun(raw, 7) == 0;
    assert WhiteSpaceRun(raw, 6) == 1;
    assert DigitRun(raw, 10) == 0;
    assert DigitRun(raw, 9) == 1;
    assert DigitRun(raw, 8) == 2;
    assert DigitRun(raw, 7) == 3;
    assert ScoreAt(raw, 0) && MatchAt(raw, 0).digits == "150";
    ConfidenceScoreOfMatch(raw, 0);
    assert DigitsValue("150") == 150 by {
      assert "150"[..2] == "15";
      assert "15"[..1] == "1";
      assert "1"[..0] == "";
    }
  }

  /** The reply "Statement: I agree. Score: 85" gives score 85 and statement "I agree.". */
  lemma ConsensusExample()
    ensures ConfidenceScore(ExampleReply) == 85
    ensures ConsensusContent(ExampleReply) == "I agree."
  {
    ExampleScoreAt(ExampleReply);
    ExampleNoEarlierScore(ExampleReply);
    assert FindScore(ExampleReply, 0) == Some(20);
    assert DigitsValue("85") == 85 by {
      assert "85"[..1] == "8";
      assert "8"[..0] == "";
    }
    ExampleStatement(ExampleReply);
    ExampleTrim(" I agree. ");
  }

  // ---------------------------------------------------------------- recap and contexts

  /** How many earlier messages the consensus recap shows. */
  const RecapSize := 12

  /** `slice(-12)`: the last twelve messages, or all of them when there are fewer. */
  function RecapWindow(msgs: seq<DebateMessage>): (w: seq<DebateMessage>)
    ensures |w| == if |msgs| < RecapSize then |msgs| else RecapSize
    ensures w == msgs[|msgs| - |w|..]
  {
    if |msgs| <= RecapSize then msgs else msgs[|msgs| - RecapSize..]
  }

  /** The head of a recap line: round number and role. */
  function RecapHead(m: DebateMessage): string {
    "- [R" + IntToString(m.roundNumber) + "] " + m.role + ": "
  }

  /** One recap line: round number, role and the first 200 code units of the content. */
  function RecapLine(m: DebateMessage): string {
    RecapHead(m) + Prefix(m.content, 200) + "..."
  }

  /**
   * The shape of a recap line: the head, then the content cut to 200 code units,
   * then "...". The cut keeps all of a short content and otherwise 200 units, or
   * 199 when the 200th would split a surrogate pair.
   */
  lemma RecapLineShape(m: DebateMessage)
    ensures var line, head := RecapLine(m), RecapHead(m);
      |head| + 3 <= |line| && line[..|head|] == head && line[|line| - 3..] == "..." &&
      var p := line[|head|..|line| - 3];
      |p| <= |m.content| && p == m.content[..|p|] && Length(p) <= 200 &&
      (Length(m.content) <= 200 ==> p == m.content) &&
      (Length(m.content) > 200 ==> 199 <= Length(p))
  {
    var p := Prefix(m.content, 200);
    var line := RecapLine(m);
    assert line[|RecapHead(m)|..|line| - 3] == p;
    if Length(m.content) > 200 {
      PrefixCut(m.content, 200);
    }
  }

  /** One recap line per message, in order. */
  function RecapLines(w: seq<DebateMessage>): (lines: seq<string>)
    ensures |lines| == |w| && forall k :: 0 <= k < |w| ==> lines[k] == RecapLine(w[k])
  {
    seq(|w|, k requires 0 <= k < |w| => RecapLine(w[k]))
  }

  /** The recap the consensus prompt shows, with "(none)" when there are no earlier messages. */
  function Recap(msgs: seq<DebateMessage>): (r: string)
    ensures r == "(none)" <==> msgs == []
  {
    var w := RecapWindow(msgs);
    if w == [] then "(none)"
    else
      var text := Join(seq(|w|, k requires 0 <= k < |w| => RecapLine(w[k])), "\n");
      assert StartsWith(RecapLine(w[0]), "- [R");
      JoinStarts(seq(|w|, k requires 0 <= k < |w| => RecapLine(w[k])), "\n");
      assert text[..4] == "- [R";
      assert text[0] == '-' != "(none)"[0];
      text
  }

  /** Earlier messages give one recap line each for the last twelve of them, joined by newlines. */
  lemma RecapShape(msgs: seq<DebateMessage>)
    requires msgs != []
    ensures Recap(msgs) == Join(RecapLines(RecapWindow(msgs)), "\n")
  {
  }

  /** A join of one or more parts starts with the first part. */
  lemma JoinStarts(parts: seq<string>, sep: string)
    requires parts != []
    ensures |Join(parts, sep)| >= |parts[0]| && Join(parts, sep)[..|parts[0]|] == parts[0]
  {
    if |parts| > 1 {
      assert Join(parts, sep) == parts[0] + (sep + Join(parts[1..], sep));
    }
  }

  /** One entry of the contexts block: number, title, url in parentheses when present, snippet. */
  function ContextEntry(i: nat, c: Context): (e: string)
    ensures var head, tail := NatToString(i + 1) + ". " + c.title, "\n   " + c.snippet;
      |head| + |tail| <= |e| && e[..|head|] == head && e[|e| - |tail|..] == tail &&
      (c.url.Some? && c.url.value != "" ==> e[|head|..|e| - |tail|] == " (" + c.url.value + ")") &&
      (c.url.None? || c.url.value == "" ==> |e| == |head| + |tail|)
  {
    var head, tail := NatToString(i + 1) + ". " + c.title, "\n   " + c.snippet;
    var mid := if c.url.Some? && c.url.value != "" then " (" + c.url.value + ")" else "";
    var e := head + mid + tail;
    assert e[..|head|] == head && e[|e| - |tail|..] == tail && e[|head|..|e| - |tail|] == mid;
    e
  }

  /** `formatContextsContext`: the numbered entries separated by blank lines. */
  function FormatContextsContext(contexts: seq<Context>): (r: string)
    ensures r == "" <==> contexts == []
  {
    var entries := seq(|contexts|, k requires 0 <= k < |contexts| => ContextEntry(k, contexts[k]));
    if contexts == [] then ""
    else
      JoinStarts(entries, "\n\n");
      Join(entries, "\n\n")
  }
}
