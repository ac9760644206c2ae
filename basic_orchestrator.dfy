/**
 * The research pipeline: plan, hunt, critique, synthesise. Model calls go through
 * a `ResearchGateway` of oracles; `JSON.parse` of a hunter's array text is an
 * oracle too. The parsing of replies, the merge of the two hunters' sources and
 * the order of the status events are modelled exactly.
 */
module BasicOrchestrator {
  import opened Wrappers
  import opened JsString
  import opened BackendVocabulary
  import opened SessionTypes
  import opened OpenRouter
  import opened DebateText

  /**
   * `callAgent(role, messages)`, as a reply or the message of the error it throws,
   * and `JSON.parse` of a text as an array of sources, or None when it throws.
   */
  datatype ResearchGateway = ResearchGateway(
    callAgent: (string, seq<ChatMessage>) -> Reply,
    parseSources: string -> Option<seq<Source>>)

  /** The agent roles of the pipeline's calls. */
  const PlannerRole := "Research Planner"
  const HunterARole := "Source Hunter A"
  const HunterBRole := "Source Hunter B"
  const CriticRole := "Source Critic"
  const SynthesizerRole := "Synthesizer"

  function Min(a: nat, b: nat): nat { if a <= b then a else b }

  /** `xs.slice(0, n)`. */
  function Take<T>(xs: seq<T>, n: nat): (r: seq<T>)
    ensures |r| == Min(n, |xs|) && r == xs[..|r|]
  {
    xs[..Min(n, |xs|)]
  }

  // ---------------------------------------------------------------------------
  // Planning

  const PlannerInstruction := "You are a Research Planner. Break down research questions into a structured plan with specific search texts."
  const PlanRequestIntro := "Create a research plan for: "
  const PlanRequestClose := "\n\nProvide:\n1. A structured plan (2-3 sentences)\n2. 3-5 specific search texts (one per line, prefixed with \"- \" )"

  /** What `question.substring` throws when the session has no question. */
  const UndefinedSubstring := "Cannot read properties of undefined (reading 'substring')"

  function PlanPrompt(question: string): seq<ChatMessage> {
    [ChatMessage(System, PlannerInstruction), ChatMessage(User, PlanRequestIntro + question + PlanRequestClose)]
  }

  /** A line the `filter((line) => line.trim())` keeps. */
  function NonBlank(line: string): Option<string> {
    if Trim(line) != "" then Some(line) else None
  }

  /** A line that is part of the plan text: one not starting with "-". */
  function PlanLine(line: string): Option<string> {
    if !StartsWith(line, "-") then Some(line) else None
  }

  /** A line that starts with "-" without its leading dash and the white space after it. */
  function StripDash(line: string): (r: string)
    requires StartsWith(line, "-")
    ensures r == line[1 + WhiteSpaceRun(line, 1)..]
  {
    line[1 + WhiteSpaceRun(line, 1)..]
  }

  /** The search text of a line starting with "-", when it is not empty once trimmed. */
  function SearchText(line: string): Option<string> {
    if StartsWith(line, "-") && Trim(StripDash(line)) != "" then Some(Trim(StripDash(line))) else None
  }

  function Lines(reply: string): seq<string> {
    FilterMap(Split(reply, '\n'), NonBlank)
  }

  function PlanText(reply: string): string {
    Trim(Join(FilterMap(Lines(reply), PlanLine), " "))
  }

  function SearchTexts(reply: string): seq<string> {
    FilterMap(Lines(reply), SearchText)
  }

  /** The plan a planner reply yields for `question`. */
  function ParsePlan(question: string, reply: string): ResearchPlan {
    ResearchPlan(
      if PlanText(reply) != "" then PlanText(reply) else Prefix(reply, 200),
      if SearchTexts(reply) != [] then SearchTexts(reply) else [question])
  }

  /** `line` is a non-blank line of `reply` that starts with "-" and has `text` as its search text. */
  predicate DashLineOf(reply: string, text: string) {
    exists i :: 0 <= i < |Lines(reply)| && StartsWith(Lines(reply)[i], "-") && SearchText(Lines(reply)[i]) == Some(text)
  }

  /**
   * There is always at least one search text. Each comes from a non-blank line
   * starting with "-", with the dash and the white space around the text removed;
   * when there is none, the question is the only one. The plan text is the joined
   * non-dash lines, or else at most 200 UTF-16 units of the reply.
   */
  lemma ParsePlanProperties(question: string, reply: string)
    ensures var plan := ParsePlan(question, reply);
      plan.searchQueries != [] &&
      (SearchTexts(reply) == [] ==> plan.searchQueries == [question]) &&
      (SearchTexts(reply) != [] ==> forall k :: 0 <= k < |plan.searchQueries| ==>
        plan.searchQueries[k] != "" && Trim(plan.searchQueries[k]) == plan.searchQueries[k] &&
        DashLineOf(reply, plan.searchQueries[k])) &&
      (PlanText(reply) != "" ==> plan.plan == PlanText(reply)) &&
      (PlanText(reply) == "" ==> Length(plan.plan) <= 200 && StartsWith(reply, plan.plan))
  {
    var texts := SearchTexts(reply);
    FilterMapFrom(Lines(reply), SearchText);
    forall k | 0 <= k < |texts|
      ensures texts[k] != "" && Trim(texts[k]) == texts[k] && DashLineOf(reply, texts[k])
    {
      var i :| 0 <= i < |Lines(reply)| && SearchText(Lines(reply)[i]) == Some(texts[k]);
      TrimTrimmed(StripDash(Lines(reply)[i]));
    }
  }

  /** Trimming a trimmed text changes nothing. */
  lemma TrimTrimmed(s: string)
    ensures Trim(Trim(s)) == Trim(s)
  {
    var t := Trim(s);
    if t != [] {
      assert TrimStart(t) == t;
      assert TrimEnd(t) == t;
    }
  }

  /**
   * `createResearchPlan(session.question)`. A session without a question throws
   * when the question is cut for the log line, before any call is made.
   */
  function CreateResearchPlan(gw: ResearchGateway, question: Option<string>): (r: Result<ResearchPlan>)
    ensures question.None? ==> r == Failure(UndefinedSubstring)
    ensures question.Some? && gw.callAgent(PlannerRole, PlanPrompt(question.value)).Err? ==>
      r == Failure(gw.callAgent(PlannerRole, PlanPrompt(question.value)).message)
    ensures r.Success? ==> question.Some? && r.value.searchQueries != []
  {
    match question
    case None => Failure(UndefinedSubstring)
    case Some(q) =>
      match gw.callAgent(PlannerRole, PlanPrompt(q))
      case Err(e) => Failure(e)
      case Ok(reply) =>
        ParsePlanProperties(q, reply);
        Success(ParsePlan(q, reply))
  }

  // ---------------------------------------------------------------------------
  // Hunting

  const HunterInstruction := "You are a Source Hunter. Find relevant academic and policy sources. Return a JSON array of sources with title, url, and snippet fields."
  const HuntRequestIntro := "Find sources for these search texts:\n"
  const HuntRequestClose := "\n\nReturn JSON array: [{\"title\": \"...\", \"url\": \"...\", \"snippet\": \"...\"}]"

  function Bullets(queries: seq<string>): seq<string> {
    seq(|queries|, k requires 0 <= k < |queries| => "- " + queries[k])
  }

  function HuntPrompt(queries: seq<string>): seq<ChatMessage> {
    [ChatMessage(System, HunterInstruction), ChatMessage(User, HuntRequestIntro + Join(Bullets(queries), "\n") + HuntRequestClose)]
  }

  /** The leftmost position of `c` in `s`. */
  function FirstIndex(s: string, c: char): (r: Option<nat>)
    ensures r.Some? ==> r.value < |s| && s[r.value] == c && forall k :: 0 <= k < r.value ==> s[k] != c
    ensures r.None? ==> c !in s
  {
    if s == [] then None
    else if s[0] == c then Some(0)
    else match FirstIndex(s[1..], c)
      case Some(k) => Some(k + 1)
      case None => None
  }

  /** The rightmost position of `c` in `s`. */
  function LastIndex(s: string, c: char): (r: Option<nat>)
    ensures r.Some? ==> r.value < |s| && s[r.value] == c && forall k :: r.value < k < |s| ==> s[k] != c
    ensures r.None? ==> c !in s
  {
    if s == [] then None
    else if s[|s| - 1] == c then Some(|s| - 1)
    else LastIndex(s[..|s| - 1], c)
  }

  /**
   * The text `match(/\[[\s\S]*\]/)` finds: from the first "[" to the last "]",
   * when a "]" follows that "[".
   */
  function JsonArrayText(reply: string): (r: Option<string>)
    ensures r.Some? ==> |r.value| >= 2 && r.value[0] == '[' && r.value[|r.value| - 1] == ']'
    ensures r.None? <==>
      (FirstIndex(reply, '[').None? || LastIndex(reply, ']').None? ||
       LastIndex(reply, ']').value < FirstIndex(reply, '[').value)
  {
    match FirstIndex(reply, '[')
    case None => None
    case Some(i) =>
      match LastIndex(reply, ']')
      case None => None
      case Some(j) => if i < j then Some(reply[i..j + 1]) else None
  }

  /** Every source of `xs`, attributed to hunter `h`. */
  function Tagged(xs: seq<Source>, h: Hunter): (r: seq<Source>)
    ensures |r| == |xs|
    ensures forall k :: 0 <= k < |xs| ==> r[k] == xs[k].(hunter := Some(h))
  {
    seq(|xs|, k requires 0 <= k < |xs| => xs[k].(hunter := Some(h)))
  }

  /** What one hunter's reply contributes: its first six parsed sources, tagged; nothing when it does not parse. */
  function Intake(gw: ResearchGateway, reply: string, h: Hunter): seq<Source> {
    match JsonArrayText(reply)
    case None => []
    case Some(text) =>
      match gw.parseSources(text)
      case None => []
      case Some(parsed) => Tagged(Take(parsed, 6), h)
  }

  lemma IntakeBounds(gw: ResearchGateway, reply: string, h: Hunter)
    ensures |Intake(gw, reply, h)| <= 6
    ensures forall k :: 0 <= k < |Intake(gw, reply, h)| ==> Intake(gw, reply, h)[k].hunter == Some(h)
    ensures JsonArrayText(reply).None? ==> Intake(gw, reply, h) == []
  {
  }

  /** The urls of the sources, in order. */
  function Urls(xs: seq<Source>): (us: seq<string>)
    ensures |us| == |xs| && forall k :: 0 <= k < |xs| ==> us[k] == xs[k].url
  {
    seq(|xs|, k requires 0 <= k < |xs| => xs[k].url)
  }

  predicate DistinctUrls(xs: seq<Source>) {
    forall k, l :: 0 <= k < l < |xs| ==> xs[k].url != xs[l].url
  }

  /** The leftmost entry with url `u`. */
  function FindUrl(xs: seq<Source>, u: string): (r: Option<nat>)
    ensures r.Some? ==> r.value < |xs| && xs[r.value].url == u && forall j :: 0 <= j < r.value ==> xs[j].url != u
    ensures r.None? ==> forall j :: 0 <= j < |xs| ==> xs[j].url != u
  {
    if xs == [] then None
    else if xs[0].url == u then Some(0)
    else match FindUrl(xs[1..], u)
      case Some(k) => Some(k + 1)
      case None => None
  }

  /** `map.set(x.url, x)` on the map's entries in insertion order. */
  function MapSet(entries: seq<Source>, x: Source): seq<Source> {
    match FindUrl(entries, x.url)
    case Some(k) => entries[k := x]
    case None => entries + [x]
  }

  /** `Array.from(new Map(xs.map((s) => [s.url, s])).values())`. */
  function Dedup(xs: seq<Source>): seq<Source> {
    if xs == [] then [] else MapSet(Dedup(xs[..|xs| - 1]), xs[|xs| - 1])
  }

  /** `x` occurs in `xs`, and no later source of `xs` has its url. */
  predicate IsLast(xs: seq<Source>, x: Source) {
    exists i :: 0 <= i < |xs| && xs[i] == x && forall j :: i < j < |xs| ==> xs[j].url != x.url
  }

  /** The merged entries have pairwise distinct urls, and exactly the urls of the input. */
  lemma {:induction false} DedupUrls(xs: seq<Source>)
    ensures DistinctUrls(Dedup(xs))
    ensures forall u :: u in Urls(Dedup(xs)) <==> u in Urls(xs)
  {
    if xs != [] {
      var init, x := xs[..|xs| - 1], xs[|xs| - 1];
      DedupUrls(init);
      var d := Dedup(init);
      assert Urls(xs) == Urls(init) + [x.url];
      match FindUrl(d, x.url)
      case Some(k) =>
        assert Dedup(xs) == d[k := x];
        assert Urls(Dedup(xs)) == Urls(d)[k := x.url];
        assert Urls(d)[k] == x.url;
        forall u ensures u in Urls(Dedup(xs)) <==> u in Urls(d) {
          if u in Urls(d) {
            var j :| 0 <= j < |d| && Urls(d)[j] == u;
            assert Urls(Dedup(xs))[if j == k then k else j] == u;
          }
          if u in Urls(Dedup(xs)) {
            var j :| 0 <= j < |d| && Urls(Dedup(xs))[j] == u;
            assert Urls(d)[if j == k then k else j] == u;
          }
        }
      case None =>
        assert Dedup(xs) == d + [x];
        assert Urls(Dedup(xs)) == Urls(d) + [x.url];
    }
  }

  /**
   * One merge step: the entries of the prefix keep their places and urls, and the
   * last source either replaces the entry with its url or, when no entry has it, is appended.
   */
  lemma DedupStep(xs: seq<Source>)
    requires xs != []
    ensures var init, x := xs[..|xs| - 1], xs[|xs| - 1];
      var d, dd := Dedup(init), Dedup(xs);
      (|dd| == |d| || (|dd| == |d| + 1 && dd[|d|] == x && x.url !in Urls(d))) &&
      (forall k :: 0 <= k < |d| ==> dd[k].url == d[k].url) &&
      (forall k :: 0 <= k < |d| && dd[k] != x ==> dd[k] == d[k] && d[k].url != x.url)
  {
    var init, x := xs[..|xs| - 1], xs[|xs| - 1];
    DedupUrls(init);
    var d := Dedup(init);
    match FindUrl(d, x.url)
    case Some(f) =>
      assert Dedup(xs) == d[f := x];
    case None =>
      assert Dedup(xs) == d + [x];
  }

  /** Each merged entry is the last input source with its url. */
  lemma {:induction false} DedupKeepsLast(xs: seq<Source>)
    ensures forall k :: 0 <= k < |Dedup(xs)| ==> IsLast(xs, Dedup(xs)[k])
  {
    if xs != [] {
      var init, x := xs[..|xs| - 1], xs[|xs| - 1];
      DedupKeepsLast(init);
      DedupStep(xs);
      var d, dd := Dedup(init), Dedup(xs);
      forall k | 0 <= k < |dd| ensures IsLast(xs, dd[k]) {
        var e := dd[k];
        if e == x {
          assert xs[|xs| - 1] == e;
        } else {
          assert k < |d| && e == d[k] && e.url != x.url;
          assert IsLast(init, d[k]);
          var i :| 0 <= i < |init| && init[i] == e && forall j :: i < j < |init| ==> init[j].url != e.url;
          assert xs[i] == e;
          assert forall j :: i < j < |xs| ==> xs[j].url != e.url by {
            forall j | i < j < |xs| ensures xs[j].url != e.url {
              if j < |init| { assert xs[j] == init[j]; }
            }
          }
        }
      }
    }
  }

  /** Where the url `u` first occurs in the input. */
  function FirstUrlIndex(xs: seq<Source>, u: string): nat
    requires u in Urls(xs)
  {
    var r := FindUrl(xs, u);
    assert r.Some? by {
      var j :| 0 <= j < |xs| && Urls(xs)[j] == u;
    }
    r.value
  }

  lemma FirstUrlIndexOfInit(xs: seq<Source>, u: string)
    requires xs != [] && u in Urls(xs)
    ensures u in Urls(xs[..|xs| - 1]) ==> FirstUrlIndex(xs, u) == FirstUrlIndex(xs[..|xs| - 1], u)
    ensures u !in Urls(xs[..|xs| - 1]) ==> FirstUrlIndex(xs, u) == |xs| - 1
  {
    var init := xs[..|xs| - 1];
    var r := FirstUrlIndex(xs, u);
    if u in Urls(init) {
      var r0 := FirstUrlIndex(init, u);
      assert xs[r0] == init[r0];
    }
  }

  /** The merged entries are in the order of their urls' first occurrences in the input. */
  lemma {:induction false} DedupFirstOrder(xs: seq<Source>)
    ensures forall k, l :: 0 <= k < l < |Dedup(xs)| ==>
      Dedup(xs)[k].url in Urls(xs) && Dedup(xs)[l].url in Urls(xs) &&
      FirstUrlIndex(xs, Dedup(xs)[k].url) < FirstUrlIndex(xs, Dedup(xs)[l].url)
  {
    if xs == [] {
      assert Dedup(xs) == [];
    } else {
      var init, x := xs[..|xs| - 1], xs[|xs| - 1];
      DedupFirstOrder(init);
      DedupStep(xs);
      DedupUrls(init);
      DedupUrls(xs);
      var d, dd := Dedup(init), Dedup(xs);
      forall k, l | 0 <= k < l < |dd|
        ensures dd[k].url in Urls(xs) && dd[l].url in Urls(xs) &&
          FirstUrlIndex(xs, dd[k].url) < FirstUrlIndex(xs, dd[l].url)
      {
        assert Urls(dd)[k] == dd[k].url && Urls(dd)[l] == dd[l].url;
        assert Urls(d)[k] == d[k].url && dd[k].url == d[k].url;
        FirstUrlIndexOfInit(xs, dd[k].url);
        FirstUrlIndexOfInit(xs, dd[l].url);
        if l < |d| {
          assert Urls(d)[l] == d[l].url && dd[l].url == d[l].url;
          assert FirstUrlIndex(init, d[k].url) < FirstUrlIndex(init, d[l].url);
          assert FirstUrlIndex(xs, dd[k].url) == FirstUrlIndex(init, d[k].url);
          assert FirstUrlIndex(xs, dd[l].url) == FirstUrlIndex(init, d[l].url);
        } else {
          assert dd[l] == x && x.url !in Urls(init);
          assert FirstUrlIndex(init, d[k].url) < |init|;
          assert FirstUrlIndex(xs, dd[l].url) == |init|;
        }
      }
    }
  }

  /** The merge loop: each source in turn is set under its url. */
  method DedupByUrl(all: seq<Source>) returns (unique: seq<Source>)
    ensures unique == Dedup(all)
  {
    unique := [];
    for i := 0 to |all|
      invariant unique == Dedup(all[..i])
    {
      assert all[..i + 1][..i] == all[..i];
      var k := FindUrl(unique, all[i].url);
      if k.Some? {
        unique := unique[k.value := all[i]];
      } else {
        unique := unique + [all[i]];
      }
    }
    assert all[..|all|] == all;
  }

  const FallbackTitle := "Source for: "
  const FallbackUrlBase := "https://example.com/source-"
  const FallbackSnippet := "Relevant information about "

  function FallbackUrl(idx: nat): string {
    FallbackUrlBase + NatToString(idx + 1)
  }

  /** The placeholder sources for the first four search texts. */
  function Fallback(queries: seq<string>): (r: seq<Source>)
    ensures |r| == Min(4, |queries|)
    ensures forall k :: 0 <= k < |r| ==>
      r[k] == Source(FallbackTitle + queries[k], FallbackUrl(k), FallbackSnippet + queries[k], Some(HunterA), None, None)
  {
    var qs := Take(queries, 4);
    seq(|qs|, k requires 0 <= k < |qs| =>
      Source(FallbackTitle + qs[k], FallbackUrl(k), FallbackSnippet + qs[k], Some(HunterA), None, None))
  }

  /** Different indices give different placeholder urls. */
  lemma FallbackUrlInjective(i: nat, j: nat)
    requires FallbackUrl(i) == FallbackUrl(j)
    ensures i == j
  {
    var n := |FallbackUrlBase|;
    assert NatToString(i + 1) == FallbackUrl(i)[n..];
    assert NatToString(j + 1) == FallbackUrl(j)[n..];
    DigitsValueOfNatToString(i + 1);
    DigitsValueOfNatToString(j + 1);
  }

  lemma FallbackDistinct(queries: seq<string>)
    ensures DistinctUrls(Fallback(queries))
  {
    var r := Fallback(queries);
    forall k, l | 0 <= k < l < |r| ensures r[k].url != r[l].url {
      if r[k].url == r[l].url { FallbackUrlInjective(k, l); }
    }
  }

  /** The merged sources cut to eight, or the placeholders when there are none. */
  function Selected(queries: seq<string>, all: seq<Source>): seq<Source> {
    var unique := Take(Dedup(all), 8);
    if unique == [] then Fallback(queries) else unique
  }

  /** `findSources`: fails with the first hunter's error, A before B. */
  function HuntSources(gw: ResearchGateway, plan: ResearchPlan): Result<seq<Source>> {
    var prompt := HuntPrompt(plan.searchQueries);
    match gw.callAgent(HunterARole, prompt)
    case Err(e) => Failure(e)
    case Ok(a) =>
      match gw.callAgent(HunterBRole, prompt)
      case Err(e) => Failure(e)
      case Ok(b) => Success(Selected(plan.searchQueries, Intake(gw, a, HunterA) + Intake(gw, b, HunterB)))
  }

  /** Every url of `r` was contributed, and the urls of `r` come in the order of their first contribution. */
  predicate InFirstUrlOrder(r: seq<Source>, all: seq<Source>) {
    forall k, l :: 0 <= k < l < |r| ==>
      r[k].url in Urls(all) && r[l].url in Urls(all) &&
      FirstUrlIndex(all, r[k].url) < FirstUrlIndex(all, r[l].url)
  }

  /**
   * The merge keeps at most eight sources with pairwise distinct urls. When the
   * hunters contributed anything, each kept source is the last contribution with
   * its url, the urls are in first-occurrence order and every url contributed
   * is kept unless eight came before it; otherwise the placeholders are used.
   */
  lemma SelectedProperties(queries: seq<string>, all: seq<Source>)
    ensures var r := Selected(queries, all);
      |r| <= 8 && DistinctUrls(r) &&
      (all != [] ==>
        r != [] &&
        (forall k :: 0 <= k < |r| ==> IsLast(all, r[k])) &&
        InFirstUrlOrder(r, all) &&
        (|Dedup(all)| <= 8 ==> forall u :: u in Urls(r) <==> u in Urls(all))) &&
      (all == [] ==> r == Fallback(queries))
  {
    if all == [] {
      FallbackDistinct(queries);
      assert Dedup(all) == [];
      assert Selected(queries, all) == Fallback(queries);
      assert |Fallback(queries)| <= 4;
    } else {
      KeptSources(queries, all);
    }
  }

  /** The first eight merged sources of a non-empty contribution list. */
  lemma KeptSources(queries: seq<string>, all: seq<Source>)
    requires all != []
    ensures var r := Selected(queries, all);
      r != [] && |r| <= 8 && DistinctUrls(r) &&
      (forall k :: 0 <= k < |r| ==> IsLast(all, r[k])) &&
      InFirstUrlOrder(r, all) &&
      (|Dedup(all)| <= 8 ==> forall u :: u in Urls(r) <==> u in Urls(all))
  {
    DedupUrls(all);
    DedupKeepsLast(all);
    DedupFirstOrder(all);
    var d := Dedup(all);
    assert Urls(all)[0] == all[0].url;
    assert all[0].url in Urls(d);
    if |d| <= 8 { assert Take(d, 8) == d; }
    assert Selected(queries, all) == Take(d, 8);
  }

  /** A successful hunt returns between one and eight sources exactly when there are search texts or contributions. */
  lemma HuntProperties(gw: ResearchGateway, plan: ResearchPlan)
    ensures var prompt := HuntPrompt(plan.searchQueries);
      var r := HuntSources(gw, plan);
      (r.Failure? <==> gw.callAgent(HunterARole, prompt).Err? || gw.callAgent(HunterBRole, prompt).Err?) &&
      (gw.callAgent(HunterARole, prompt).Err? ==> r == Failure(gw.callAgent(HunterARole, prompt).message)) &&
      (r.Success? ==>
        |r.value| <= 8 && DistinctUrls(r.value) &&
        (r.value == [] <==>
          (plan.searchQueries == [] &&
           Intake(gw, gw.callAgent(HunterARole, prompt).text, HunterA) == [] &&
           Intake(gw, gw.callAgent(HunterBRole, prompt).text, HunterB) == [])))
  {
    var prompt := HuntPrompt(plan.searchQueries);
    var a, b := gw.callAgent(HunterARole, prompt), gw.callAgent(HunterBRole, prompt);
    if a.Ok? && b.Ok? {
      SelectedProperties(plan.searchQueries, Intake(gw, a.text, HunterA) + Intake(gw, b.text, HunterB));
    }
  }

  /** `allSources.push({ ...source, hunter })` for the first six parsed sources. */
  method PushParsed(all: seq<Source>, gw: ResearchGateway, reply: string, h: Hunter) returns (r: seq<Source>)
    ensures r == all + Intake(gw, reply, h)
  {
    r := all;
    var text := JsonArrayText(reply);
    if text.None? {
      return;
    }
    var parsed := gw.parseSources(text.value);
    if parsed.None? {
      return;
    }
    var first := Take(parsed.value, 6);
    for i := 0 to |first|
      invariant r == all + Tagged(first[..i], h)
    {
      r := r + [first[i].(hunter := Some(h))];
      assert Tagged(first[..i + 1], h) == Tagged(first[..i], h) + [first[i].(hunter := Some(h))];
    }
    assert first[..|first|] == first;
  }

  /** `findSources`. */
  method FindSources(gw: ResearchGateway, plan: ResearchPlan) returns (r: Result<seq<Source>>)
    ensures r == HuntSources(gw, plan)
  {
    var prompt := HuntPrompt(plan.searchQueries);
    var a := gw.callAgent(HunterARole, prompt);
    var b := gw.callAgent(HunterBRole, prompt);
    if a.Err? {
      return Failure(a.message);
    }
    if b.Err? {
      return Failure(b.message);
    }
    var all := PushParsed([], gw, a.text, HunterA);
    assert all == Intake(gw, a.text, HunterA);
    all := PushParsed(all, gw, b.text, HunterB);
    var unique := DedupByUrl(all);
    unique := Take(unique, 8);
    assert unique == [] ==> Selected(plan.searchQueries, all) == Fallback(plan.searchQueries);
    assert unique != [] ==> Selected(plan.searchQueries, all) == unique;
    if unique == [] {
      return Success(Fallback(plan.searchQueries));
    }
    return Success(unique);
  }

  // ---------------------------------------------------------------------------
  // Critiquing

  const CriticInstruction := "You are a Source Critic. Evaluate the quality and relevance of research sources. Rate each source on a 1-5 scale and provide a brief critique."
  const CritiqueQuestionLabel := "Research Question: "
  const CritiqueTitleLabel := "\n\nSource:\nTitle: "
  const CritiqueUrlLabel := "\nURL: "
  const CritiqueSnippetLabel := "\nSnippet: "
  const CritiqueRequestClose := "\n\nProvide:\n1. Quality rating (1-5, where 5 is highest)\n2. Brief critique (2-3 sentences)\n\nFormat: Rating: X\nCritique: ..."
  const NoCritique := "No critique available"
  const CritiqueUnavailable := "Critique unavailable"

  function CritiquePrompt(question: string, s: Source): seq<ChatMessage> {
    [ChatMessage(System, CriticInstruction),
     ChatMessage(User, CritiqueQuestionLabel + question + CritiqueTitleLabel + s.title + CritiqueUrlLabel + s.url +
       CritiqueSnippetLabel + s.snippet + CritiqueRequestClose)]
  }

  /** Where the digit of `Rating:\s*(\d)` lies for a match at `i`. */
  function RatingDigitAt(s: string, i: nat): nat {
    i + 7 + WhiteSpaceRun(s, i + 7)
  }

  /** The case-insensitive pattern matches at `i`: "rating:", optional white space, a digit. */
  predicate RatingAt(s: string, i: nat) {
    LowerOccursAt(s, "rating:", i) && RatingDigitAt(s, i) < |s| && IsDigit(s[RatingDigitAt(s, i)])
  }

  /** Where the leftmost match of the rating pattern at or after `from` starts. */
  function FindRating(s: string, from: nat): (r: Option<nat>)
    decreases |s| - from
    ensures r.Some? ==> from <= r.value && RatingAt(s, r.value)
    ensures r.None? ==> forall k :: from <= k ==> !RatingAt(s, k)
  {
    if from + 7 > |s| then None
    else if RatingAt(s, from) then Some(from)
    else FindRating(s, from + 1)
  }

  /** The rating a critic reply states, 3 when it states none, clamped into [1, 5]. */
  function QualityRating(reply: string): (r: int)
    ensures 1 <= r <= 5
    ensures FindRating(reply, 0).None? ==> r == 3
    ensures FindRating(reply, 0).Some? ==>
      var d := DigitValue(reply[RatingDigitAt(reply, FindRating(reply, 0).value)]);
      r == (if d == 0 then 1 else if d > 5 then 5 else d)
  {
    match FindRating(reply, 0)
    case None => 3
    case Some(i) => Clamp(DigitValue(reply[RatingDigitAt(reply, i)]), 1, 5)
  }

  /** The leftmost case-insensitive occurrence of a lower-case literal at or after `from`. */
  function FindLower(s: string, lit: string, from: nat): (r: Option<nat>)
    decreases |s| - from
    ensures r.Some? ==> from <= r.value && LowerOccursAt(s, lit, r.value)
    ensures r.Some? ==> forall k :: from <= k < r.value ==> !LowerOccursAt(s, lit, k)
    ensures r.None? ==> forall k :: from <= k ==> !LowerOccursAt(s, lit, k)
  {
    if from + |lit| > |s| then None
    else if LowerOccursAt(s, lit, from) then Some(from)
    else FindLower(s, lit, from + 1)
  }

  /**
   * The group `Critique:\s*(.+)` captures with the `s` and `i` flags at the
   * leftmost "critique:" that is followed by a character: everything after the
   * white space, or the last white-space character when nothing else follows.
   */
  function CritiqueGroup(s: string): (g: Option<string>)
    ensures g.Some? ==> g.value != []
    ensures FindLower(s, "critique:", 0).None? ==> g.None?
  {
    match FindLower(s, "critique:", 0)
    case None => None
    case Some(i) =>
      if i + 9 < |s| then
        var w := WhiteSpaceRun(s, i + 9);
        Some(if i + 9 + w < |s| then s[i + 9 + w..] else s[|s| - 1..])
      else None
  }

  /** The critique a critic reply states, trimmed, or the fixed text when it states none. */
  function CritiqueText(reply: string): (c: string)
    ensures CritiqueGroup(reply).None? ==> c == NoCritique
    ensures CritiqueGroup(reply).Some? ==> c == Trim(CritiqueGroup(reply).value)
  {
    match CritiqueGroup(reply)
    case None => NoCritique
    case Some(g) => Trim(g)
  }

  /** One source after its critic call. */
  function Critiqued(gw: ResearchGateway, question: string, s: Source): Source {
    match gw.callAgent(CriticRole, CritiquePrompt(question, s))
    case Err(_) => s.(qualityRating := Some(3), critique := Some(CritiqueUnavailable))
    case Ok(reply) => s.(qualityRating := Some(QualityRating(reply)), critique := Some(CritiqueText(reply)))
  }

  /**
   * A critique keeps the source's title, url, snippet and hunter, and sets a rating
   * in [1, 5] and a critique; a failed call gives 3 and "Critique unavailable".
   */
  lemma CritiquedProperties(gw: ResearchGateway, question: string, s: Source)
    ensures var c := Critiqued(gw, question, s);
      c.title == s.title && c.url == s.url && c.snippet == s.snippet && c.hunter == s.hunter &&
      c.qualityRating.Some? && 1 <= c.qualityRating.value <= 5 && c.critique.Some? &&
      (gw.callAgent(CriticRole, CritiquePrompt(question, s)).Err? ==>
        c.qualityRating == Some(3) && c.critique == Some(CritiqueUnavailable))
  {
  }

  /** `critiqueSources`: one critic call per source, in order, each failure absorbed. */
  method CritiqueSources(gw: ResearchGateway, sources: seq<Source>, question: string) returns (out: seq<Source>)
    ensures |out| == |sources|
    ensures forall k :: 0 <= k < |sources| ==> out[k] == Critiqued(gw, question, sources[k])
  {
    out := [];
    for i := 0 to |sources|
      invariant |out| == i
      invariant forall k :: 0 <= k < i ==> out[k] == Critiqued(gw, question, sources[k])
    {
      var reply := gw.callAgent(CriticRole, CritiquePrompt(question, sources[i]));
      match reply
      case Ok(text) =>
        out := out + [sources[i].(qualityRating := Some(QualityRating(text)), critique := Some(CritiqueText(text)))];
      case Err(_) =>
        out := out + [sources[i].(qualityRating := Some(3), critique := Some(CritiqueUnavailable))];
    }
  }

  /** The critiqued sources as a sequence function. */
  function CritiquedAll(gw: ResearchGateway, question: string, sources: seq<Source>): (r: seq<Source>)
    ensures |r| == |sources|
    ensures forall k :: 0 <= k < |sources| ==> r[k] == Critiqued(gw, question, sources[k])
  {
    seq(|sources|, k requires 0 <= k < |sources| => Critiqued(gw, question, sources[k]))
  }

  /** "Rating: 4" rates 4. */
  lemma RatingExampleDigit(a: string)
    requires a == "Rating: 4"
    ensures QualityRating(a) == 4
  {
    assert Lower(a[..7]) == "rating:";
    assert WhiteSpaceRun(a, 8) == 0;
    assert RatingAt(a, 0);
  }

  /** "rating:9" matches case-insensitively and is clamped to 5. */
  lemma RatingExampleClamped(b: string)
    requires b == "rating:9"
    ensures QualityRating(b) == 5
  {
    assert Lower(b[..7]) == "rating:";
    assert WhiteSpaceRun(b, 7) == 0;
    assert RatingAt(b, 0);
  }

  /** A reply without a rating digit rates 3. */
  lemma RatingExampleDefault(c: string)
    requires c == "Rating: none"
    ensures QualityRating(c) == 3
  {
    assert WhiteSpaceRun(c, 8) == 0;
    assert !RatingAt(c, 0);
    assert FindRating(c, 0) == FindRating(c, 1);
    assert FindRating(c, 1) == FindRating(c, 2);
    assert FindRating(c, 2) == FindRating(c, 3);
    assert FindRating(c, 3) == FindRating(c, 4);
    assert FindRating(c, 4) == FindRating(c, 5);
    assert FindRating(c, 5) == FindRating(c, 6);
  }

  // ---------------------------------------------------------------------------
  // Synthesis and the whole run

  const SynthesizerInstruction := "You are a Synthesizer. Create a balanced, well-structured answer based on the research plan and sources provided."
  const SynthesisQuestionLabel := "Question: "
  const SynthesisPlanLabel := "\n\nPlan: "
  const SynthesisSourcesLabel := "\n\nSources:\n"
  const SynthesisRequestClose := "\n\nProvide a comprehensive answer (3-5 paragraphs)."

  function SourceLines(sources: seq<Source>): seq<string> {
    seq(|sources|, i requires 0 <= i < |sources| => NatToString(i + 1) + ". " + sources[i].title + ": " + sources[i].snippet)
  }

  function SynthesisPrompt(question: string, plan: ResearchPlan, sources: seq<Source>): seq<ChatMessage> {
    [ChatMessage(System, SynthesizerInstruction),
     ChatMessage(User, SynthesisQuestionLabel + question + SynthesisPlanLabel + plan.plan + SynthesisSourcesLabel +
       Join(SourceLines(sources), "\n") + SynthesisRequestClose)]
  }

  /** The outcome of `executeFullOrchestration` and the events it emitted before it returned or threw. */
  datatype Attempt = Attempt(outcome: Result<Session>, events: seq<Event>)

  /**
   * The four phases the orchestration runs, as functions of what each receives:
   * the session's question (possibly absent), then the plan, the sources and so on.
   */
  datatype Phases = Phases(
    plan: Option<string> -> Result<ResearchPlan>,
    hunt: ResearchPlan -> Result<seq<Source>>,
    critique: (Option<string>, seq<Source>) -> seq<Source>,
    synthesize: (Option<string>, ResearchPlan, seq<Source>) -> Reply)

  /** How a template literal shows a question that may be absent. */
  function Shown(q: Option<string>): string {
    q.GetOr("undefined")
  }

  /** The phases of this pipeline: `createResearchPlan`, `findSources`, `critiqueSources`, `synthesizeAnswer`. */
  function PhasesOf(gw: ResearchGateway): Phases {
    Phases(
      (q: Option<string>) => CreateResearchPlan(gw, q),
      (plan: ResearchPlan) => HuntSources(gw, plan),
      (q: Option<string>, raw: seq<Source>) => CritiquedAll(gw, Shown(q), raw),
      (q: Option<string>, plan: ResearchPlan, sources: seq<Source>) =>
        gw.callAgent(SynthesizerRole, SynthesisPrompt(Shown(q), plan, sources)))
  }

  /** The final session: the plan, the critiqued sources and the answer set, and status complete. */
  function Completed(s: Session, plan: ResearchPlan, sources: seq<Source>, answer: string): Session {
    s.(plan := Some(plan), sources := Some(sources), answer := Some(answer), status := Complete)
  }

  /** The critiquing and synthesis phases, once the hunters' sources are in. */
  function AfterHunt(ph: Phases, s: Session, plan: ResearchPlan, raw: seq<Source>): Attempt {
    var sources := ph.critique(s.question, raw);
    var head := [StatusEvent(Critiquing), SourcesEvent(sources), StatusEvent(Debating)];
    match ph.synthesize(s.question, plan, sources)
    case Err(msg) => Attempt(Failure(msg), head)
    case Ok(answer) =>
      Attempt(Success(Completed(s, plan, sources, answer)), head + [AnswerEvent(answer), StatusEvent(Complete)])
  }

  /** The phases after planning. */
  function AfterPlan(ph: Phases, s: Session, plan: ResearchPlan): Attempt {
    match ph.hunt(plan)
    case Failure(msg) => Attempt(Failure(msg), [StatusEvent(Hunting)])
    case Success(raw) =>
      var rest := AfterHunt(ph, s, plan, raw);
      Attempt(rest.outcome, [StatusEvent(Hunting), SourcesEvent(raw)] + rest.events)
  }

  /** `executeFullOrchestration`, with a thrown error as a failure. */
  function FullOrchestration(ph: Phases, s: Session): Attempt {
    match ph.plan(s.question)
    case Failure(msg) => Attempt(Failure(msg), [StatusEvent(Planning)])
    case Success(plan) =>
      var rest := AfterPlan(ph, s, plan);
      Attempt(rest.outcome, [StatusEvent(Planning), PlanEvent(plan)] + rest.events)
  }

  datatype Run = Run(session: Session, events: seq<Event>)

  /** `runBasicOrchestration`: a thrown error becomes one error event and the original session with status error. */
  function Orchestrate(ph: Phases, s: Session): Run {
    var a := FullOrchestration(ph, s);
    match a.outcome
    case Success(fin) => Run(fin, a.events)
    case Failure(msg) => Run(s.(status := Error), a.events + [ErrorEvent(msg)])
  }

  /** The statuses of the status events, in order. */
  function Statuses(es: seq<Event>): seq<SessionStatus> {
    if es == [] then []
    else (if es[0].StatusEvent? then [es[0].status] else []) + Statuses(es[1..])
  }

  /** The number of error events. */
  function ErrorCount(es: seq<Event>): nat {
    if es == [] then 0 else (if es[0].ErrorEvent? then 1 else 0) + ErrorCount(es[1..])
  }

  lemma {:induction false} CountsAppend(a: seq<Event>, b: seq<Event>)
    ensures Statuses(a + b) == Statuses(a) + Statuses(b)
    ensures ErrorCount(a + b) == ErrorCount(a) + ErrorCount(b)
  {
    StatusesAppend(a, b);
    ErrorCountAppend(a, b);
  }

  lemma {:induction false} StatusesAppend(a: seq<Event>, b: seq<Event>)
    ensures Statuses(a + b) == Statuses(a) + Statuses(b)
  {
    if a == [] {
      assert a + b == b;
    } else {
      StatusesAppend(a[1..], b);
      var head := if a[0].StatusEvent? then [a[0].status] else [];
      assert (a + b)[0] == a[0];
      assert (a + b)[1..] == a[1..] + b;
      assert Statuses(a + b) == head + Statuses(a[1..] + b);
      assert Statuses(a) == head + Statuses(a[1..]);
    }
  }

  lemma {:induction false} ErrorCountAppend(a: seq<Event>, b: seq<Event>)
    ensures ErrorCount(a + b) == ErrorCount(a) + ErrorCount(b)
  {
    if a == [] {
      assert a + b == b;
    } else {
      ErrorCountAppend(a[1..], b);
      assert (a + b)[0] == a[0];
      assert (a + b)[1..] == a[1..] + b;
    }
  }

  lemma CountsOne(e: Event)
    ensures Statuses([e]) == (if e.StatusEvent? then [e.status] else [])
    ensures ErrorCount([e]) == (if e.ErrorEvent? then 1 else 0)
  {
    assert [e][1..] == [];
  }

  /** The counts of `[e] + es`. */
  lemma CountsCons(e: Event, es: seq<Event>)
    ensures Statuses([e] + es) == (if e.StatusEvent? then [e.status] else []) + Statuses(es)
    ensures ErrorCount([e] + es) == (if e.ErrorEvent? then 1 else 0) + ErrorCount(es)
  {
    CountsOne(e);
    CountsAppend([e], es);
  }

  const StatusFlow: seq<SessionStatus> := [Planning, Hunting, Critiquing, Debating, Complete]

  /** A completed session: the original one with a plan, sources, an answer and status complete. */
  predicate CompletedFrom(t: Session, s: Session, plan: ResearchPlan) {
    t.sources.Some? && t.answer.Some? && t == Completed(s, plan, t.sources.value, t.answer.value)
  }

  lemma AfterHuntShape(ph: Phases, s: Session, plan: ResearchPlan, raw: seq<Source>)
    ensures var a := AfterHunt(ph, s, plan, raw);
      ErrorCount(a.events) == 0 &&
      (a.outcome.Success? ==>
        CompletedFrom(a.outcome.value, s, plan) &&
        Statuses(a.events) == StatusFlow[2..] && a.events[|a.events| - 1] == StatusEvent(Complete)) &&
      (a.outcome.Failure? ==> Statuses(a.events) == StatusFlow[2..4])
  {
    var sources := ph.critique(s.question, raw);
    var head := [StatusEvent(Critiquing), SourcesEvent(sources), StatusEvent(Debating)];
    CountsOne(head[2]);
    CountsCons(head[1], head[2..]);
    CountsCons(head[0], head[1..]);
    assert head[1..] == [head[1]] + head[2..];
    assert head == [head[0]] + head[1..];
    var reply := ph.synthesize(s.question, plan, sources);
    if reply.Ok? {
      var tail := [AnswerEvent(reply.text), StatusEvent(Complete)];
      CountsOne(tail[1]);
      CountsCons(tail[0], tail[1..]);
      assert tail == [tail[0]] + tail[1..];
      CountsAppend(head, tail);
    }
  }

  lemma AfterPlanShape(ph: Phases, s: Session, plan: ResearchPlan)
    ensures var a := AfterPlan(ph, s, plan);
      var st := Statuses(a.events);
      ErrorCount(a.events) == 0 &&
      (a.outcome.Success? ==>
        CompletedFrom(a.outcome.value, s, plan) &&
        st == StatusFlow[1..] && a.events[|a.events| - 1] == StatusEvent(Complete)) &&
      (a.outcome.Failure? ==> st == StatusFlow[1..2] || st == StatusFlow[1..4])
  {
    match ph.hunt(plan)
    case Failure(msg) =>
      CountsOne(StatusEvent(Hunting));
    case Success(raw) =>
      var rest := AfterHunt(ph, s, plan, raw);
      AfterHuntShape(ph, s, plan, raw);
      CountsCons(SourcesEvent(raw), rest.events);
      CountsCons(StatusEvent(Hunting), [SourcesEvent(raw)] + rest.events);
      assert [StatusEvent(Hunting), SourcesEvent(raw)] + rest.events == [StatusEvent(Hunting)] + ([SourcesEvent(raw)] + rest.events);
  }

  /** The shape `FullOrchestrationShape` states of an attempt. */
  ghost predicate AttemptShape(ph: Phases, s: Session, a: Attempt) {
    var st := Statuses(a.events);
    ErrorCount(a.events) == 0 && 1 <= |st| <= 5 && st == StatusFlow[..|st|] &&
    (a.outcome.Success? <==> |st| == 5) &&
    (a.outcome.Success? ==>
      a.events[|a.events| - 1] == StatusEvent(Complete) &&
      ph.plan(s.question).Success? && CompletedFrom(a.outcome.value, s, ph.plan(s.question).value))
  }

  /**
   * The statuses and errors of the attempt: planning, then hunting, critiquing,
   * debating and complete as far as it got; no error event; a success ends with complete.
   */
  lemma FullOrchestrationShape(ph: Phases, s: Session)
    ensures var a := FullOrchestration(ph, s);
      var st := Statuses(a.events);
      ErrorCount(a.events) == 0 && 1 <= |st| <= 5 && st == StatusFlow[..|st|] &&
      (a.outcome.Success? <==> |st| == 5) &&
      (a.outcome.Success? ==>
        a.events[|a.events| - 1] == StatusEvent(Complete) &&
        ph.plan(s.question).Success? && CompletedFrom(a.outcome.value, s, ph.plan(s.question).value))
  {
    match ph.plan(s.question)
    case Failure(msg) =>
      CountsOne(StatusEvent(Planning));
    case Success(plan) =>
      PlannedShape(ph, s, plan);
  }

  lemma PlannedShape(ph: Phases, s: Session, plan: ResearchPlan)
    requires ph.plan(s.question) == Success(plan)
    ensures AttemptShape(ph, s, FullOrchestration(ph, s))
  {
    var rest := AfterPlan(ph, s, plan);
    AfterPlanShape(ph, s, plan);
    PlannedEvents(plan, rest.events);
    PlanningThen(Statuses(rest.events));
    assert FullOrchestration(ph, s) == Attempt(rest.outcome, [StatusEvent(Planning), PlanEvent(plan)] + rest.events);
  }

  lemma PlannedEvents(plan: ResearchPlan, events: seq<Event>)
    ensures var es := [StatusEvent(Planning), PlanEvent(plan)] + events;
      Statuses(es) == [Planning] + Statuses(events) && ErrorCount(es) == ErrorCount(events) &&
      (events != [] ==> es[|es| - 1] == events[|events| - 1])
  {
    CountsCons(PlanEvent(plan), events);
    CountsCons(StatusEvent(Planning), [PlanEvent(plan)] + events);
    assert [StatusEvent(Planning), PlanEvent(plan)] + events == [StatusEvent(Planning)] + ([PlanEvent(plan)] + events);
  }

  lemma PlanningThen(tail: seq<SessionStatus>)
    requires tail == StatusFlow[1..] || tail == StatusFlow[1..2] || tail == StatusFlow[1..4]
    ensures [Planning] + tail == StatusFlow[..|tail| + 1]
  {
  }

  /**
   * A run's statuses are the planning, hunting, critiquing, debating, complete sequence
   * or a prefix of it. It completes exactly when nothing failed: then it ends with the
   * complete status, there is no error event, and the session is the original one with
   * its plan, sources and answer set. Otherwise exactly one error event, carrying the
   * failure's message, ends the run, and the session is the original one with status error.
   */
  lemma OrchestrateProperties(ph: Phases, s: Session)
    ensures var r := Orchestrate(ph, s);
      var st := Statuses(r.events);
      1 <= |st| <= 5 && st == StatusFlow[..|st|] &&
      (r.session.status == Complete <==> FullOrchestration(ph, s).outcome.Success?) &&
      (r.session.status == Complete ==>
        |st| == 5 && ErrorCount(r.events) == 0 && r.events[|r.events| - 1] == StatusEvent(Complete) &&
        ph.plan(s.question).Success? && CompletedFrom(r.session, s, ph.plan(s.question).value)) &&
      (r.session.status != Complete ==>
        |st| < 5 && ErrorCount(r.events) == 1 &&
        r.events[|r.events| - 1] == ErrorEvent(FullOrchestration(ph, s).outcome.error) &&
        r.session == s.(status := Error))
  {
    var a := FullOrchestration(ph, s);
    FullOrchestrationShape(ph, s);
    if a.outcome.Failure? {
      CountsOne(ErrorEvent(a.outcome.error));
      CountsAppend(a.events, [ErrorEvent(a.outcome.error)]);
    }
  }

  /**
   * A session without a question, as the session route creates it, always ends in
   * error at planning, whatever the model replies: planning is the only status emitted.
   */
  lemma RouteSessionFails(gw: ResearchGateway, s: Session)
    requires s.question.None?
    ensures Orchestrate(PhasesOf(gw), s) == Run(s.(status := Error), [StatusEvent(Planning), ErrorEvent(UndefinedSubstring)])
  {
  }

  /** The session the route evidently means to research: its topic is the question when it has none. */
  function WithQuestion(s: Session): (t: Session)
    ensures t.question.Some? && t == s.(question := t.question)
    ensures s.question.None? ==> t.question == Some(s.topic)
  {
    if s.question.Some? then s else s.(question := Some(s.topic))
  }

  /** Every model reply succeeding. */
  ghost predicate Answers(gw: ResearchGateway) {
    forall role: string, msgs: seq<ChatMessage> :: gw.callAgent(role, msgs).Ok?
  }

  /** A session with a question completes whenever every call succeeds. */
  lemma AnsweredRunCompletes(gw: ResearchGateway, s: Session)
    requires Answers(gw) && s.question.Some?
    ensures FullOrchestration(PhasesOf(gw), s).outcome.Success?
  {
    var ph := PhasesOf(gw);
    var q := s.question.value;
    assert gw.callAgent(PlannerRole, PlanPrompt(q)).Ok?;
    var plan := ph.plan(s.question).value;
    var prompt := HuntPrompt(plan.searchQueries);
    assert gw.callAgent(HunterARole, prompt).Ok? && gw.callAgent(HunterBRole, prompt).Ok?;
    var raw := ph.hunt(plan).value;
    var sources := ph.critique(s.question, raw);
    assert gw.callAgent(SynthesizerRole, SynthesisPrompt(q, plan, sources)).Ok?;
  }

  /** With the topic as its question, a route session completes whenever every call succeeds. */
  lemma TopicRunCompletes(gw: ResearchGateway, s: Session)
    requires Answers(gw)
    ensures Orchestrate(PhasesOf(gw), WithQuestion(s)).session.status == Complete
    ensures Statuses(Orchestrate(PhasesOf(gw), WithQuestion(s)).events) == StatusFlow
  {
    AnsweredRunCompletes(gw, WithQuestion(s));
    OrchestrateProperties(PhasesOf(gw), WithQuestion(s));
  }

  /** The events of one orchestration, as its callback receives them. */
  class ResearchRun {
    var events: seq<Event>

    constructor ()
      ensures events == []
    {
      events := [];
    }

    /** `onEvent`. */
    method Emit(e: Event)
      modifies this
      ensures events == old(events) + [e]
    {
      events := events + [e];
    }

    /** `updateSessionStatus`. */
    method UpdateSessionStatus(s: Session, status: SessionStatus) returns (updated: Session)
      modifies this
      ensures updated == s.(status := status)
      ensures events == old(events) + [StatusEvent(status)]
    {
      updated := s.(status := status);
      Emit(StatusEvent(status));
    }

    /** `executePlanningPhase`: the plan event follows a successful plan. */
    method ExecutePlanningPhase(ph: Phases, s: Session) returns (r: Result<ResearchPlan>)
      modifies this
      ensures r == ph.plan(s.question)
      ensures events == old(events) + (if r.Success? then [PlanEvent(r.value)] else [])
    {
      r := ph.plan(s.question);
      if r.Success? {
        Emit(PlanEvent(r.value));
      }
    }

    /** `executeHuntingPhase`. */
    method ExecuteHuntingPhase(ph: Phases, plan: ResearchPlan) returns (r: Result<seq<Source>>)
      modifies this
      ensures r == ph.hunt(plan)
      ensures events == old(events) + (if r.Success? then [SourcesEvent(r.value)] else [])
    {
      r := ph.hunt(plan);
      if r.Success? {
        Emit(SourcesEvent(r.value));
      }
    }

    /** `executeCritiquingPhase`. */
    method ExecuteCritiquingPhase(ph: Phases, sources: seq<Source>, question: Option<string>) returns (critiqued: seq<Source>)
      modifies this
      ensures critiqued == ph.critique(question, sources)
      ensures events == old(events) + [SourcesEvent(critiqued)]
    {
      critiqued := ph.critique(question, sources);
      Emit(SourcesEvent(critiqued));
    }

    /** `executeSynthesisPhase`. */
    method ExecuteSynthesisPhase(ph: Phases, question: Option<string>, plan: ResearchPlan, sources: seq<Source>)
      returns (r: Reply)
      modifies this
      ensures r == ph.synthesize(question, plan, sources)
      ensures events == old(events) + (if r.Ok? then [AnswerEvent(r.text)] else [])
    {
      r := ph.synthesize(question, plan, sources);
      if r.Ok? {
        Emit(AnswerEvent(r.text));
      }
    }

    /**
     * `executeFullOrchestration`, with a thrown error as a failure: the events it
     * emits and the session it returns are those of `FullOrchestration`.
     */
    method ExecuteFullOrchestration(ph: Phases, s: Session) returns (r: Result<Session>)
      modifies this
      ensures r == FullOrchestration(ph, s).outcome
      ensures events == old(events) + FullOrchestration(ph, s).events
    {
      ghost var e0 := events;
      var s1 := UpdateSessionStatus(s, Planning);
      var plan := ExecutePlanningPhase(ph, s1);
      if plan.Failure? {
        return Failure(plan.error);
      }
      var s2 := UpdateSessionStatus(s1, Hunting);
      var raw := ExecuteHuntingPhase(ph, plan.value);
      if raw.Failure? {
        assert events == e0 + FullOrchestration(ph, s).events;
        return Failure(raw.error);
      }
      ghost var e2 := events;
      assert e2 == e0 + [StatusEvent(Planning), PlanEvent(plan.value)] + [StatusEvent(Hunting), SourcesEvent(raw.value)];
      var s3 := UpdateSessionStatus(s2, Critiquing);
      var sources := ExecuteCritiquingPhase(ph, raw.value, s3.question);
      var s4 := UpdateSessionStatus(s3, Debating);
      var answer := ExecuteSynthesisPhase(ph, s4.question, plan.value, sources);
      if answer.Err? {
        r := Failure(answer.message);
      } else {
        Emit(StatusEvent(Complete));
        r := Success(s4.(plan := Some(plan.value), sources := Some(sources), answer := Some(answer.text), status := Complete));
      }
      ghost var hunt := AfterHunt(ph, s, plan.value, raw.value);
      assert events == e2 + hunt.events;
      assert r == hunt.outcome;
      assert e0 + ([StatusEvent(Planning), PlanEvent(plan.value)] + ([StatusEvent(Hunting), SourcesEvent(raw.value)] + hunt.events))
        == e2 + hunt.events;
    }

    /** `handleOrchestrationError`. */
    method HandleOrchestrationError(message: string, s: Session) returns (result: Session)
      modifies this
      ensures result == s.(status := Error)
      ensures events == old(events) + [ErrorEvent(message)]
    {
      Emit(ErrorEvent(message));
      result := s.(status := Error);
    }

    /** `runBasicOrchestration`. */
    method RunBasicOrchestration(ph: Phases, s: Session) returns (result: Session)
      modifies this
      ensures result == Orchestrate(ph, s).session
      ensures events == old(events) + Orchestrate(ph, s).events
    {
      var r := ExecuteFullOrchestration(ph, s);
      match r
      case Success(fin) =>
        result := fin;
      case Failure(msg) =>
        result := HandleOrchestrationError(msg, s);
    }
  }
}
