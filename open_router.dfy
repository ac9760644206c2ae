/**
 * The deterministic parts of the OpenRouter client: the role-to-provider table,
 * the request payload, the error text, and the display name of a role's provider.
 * The HTTP request itself is not modelled.
 */
module OpenRouter {
  import opened Wrappers
  import opened JsString
  import opened BackendVocabulary

  datatype ChatRole = System | User | Assistant

  datatype ChatMessage = ChatMessage(role: ChatRole, content: string)

  /**
   * The outcome of one model call: the reply text, or the message of the error it
   * threw (`error.message`, or "Unknown error" for a thrown non-Error value).
   */
  datatype Reply = Ok(text: string) | Err(message: string)

  /** `AGENT_TO_PROVIDER_ID`: the provider id each agent role is served by. */
  const ProviderIds: map<string, string> := map[
    "Research Planner" := "openai/gpt-4o-mini",
    "Source Hunter A" := "openai/gpt-4o",
    "Source Hunter B" := "anthropic/claude-3.5-sonnet",
    "Source Critic" := "mistralai/mistral-large",
    "Synthesizer" := "openai/gpt-4o",
    "Skeptic" := "google/gemini-pro-1.5",
    "Moderator" := "anthropic/claude-3.5-sonnet",
    "Final Synthesizer" := "openai/gpt-4o"
  ]

  /** The table lookup followed by the truthiness test the source applies to it. */
  function LookupProviderId(role: string): (r: Option<string>)
    ensures r.Some? <==> role in ProviderIds && ProviderIds[role] != ""
    ensures r.Some? ==> r.value == ProviderIds[role]
  {
    if role in ProviderIds && ProviderIds[role] != "" then Some(ProviderIds[role]) else None
  }

  /** Every agent role has a non-empty provider id, and the table has no other keys. */
  lemma ProviderTableTotal()
    ensures forall r: AgentRole :: LookupProviderId(AgentRoleName(r)).Some?
    ensures forall role :: role in ProviderIds <==> IsValidAgentRole(role)
  {
  }

  /**
   * The request body. `model` is the key the source spells as `"mo" + "del"`;
   * `temperature` is passed through untouched.
   */
  datatype Payload = Payload(model: string, messages: seq<ChatMessage>, temperature: real, maxTokens: int)

  const MaxTokens := 2000

  /** `createOpenRouterPayload`: fails for a role without a provider id. */
  function CreateOpenRouterPayload(role: string, messages: seq<ChatMessage>, temperature: real): (r: Result<Payload>)
    ensures r.Failure? <==> LookupProviderId(role).None?
    ensures r.Failure? ==> r.error == "No provider id mapping for role: " + role
    ensures r.Success? ==>
      r.value.model == ProviderIds[role] && r.value.messages == messages &&
      r.value.temperature == temperature && r.value.maxTokens == 2000
  {
    match LookupProviderId(role)
    case None => Failure("No provider id mapping for role: " + role)
    case Some(id) => Success(Payload(id, messages, temperature, MaxTokens))
  }

  /** A payload can be built for every agent role. */
  lemma PayloadForEveryRole(r: AgentRole, messages: seq<ChatMessage>, temperature: real)
    ensures CreateOpenRouterPayload(AgentRoleName(r), messages, temperature).Success?
  {
    ProviderTableTotal();
  }

  /**
   * What a failed request throws: an HTTP client error with an optional response
   * status and an optional error message in the response body, or any other error.
   */
  datatype CallError =
    | HttpError(status: Option<int>, bodyMessage: Option<string>, message: string)
    | OtherError(message: string)

  /** The detail of an HTTP client error: the body's message when non-empty, else the error's own. */
  function ErrorDetail(e: CallError): string
    requires e.HttpError?
  {
    if e.bodyMessage.Some? && e.bodyMessage.value != "" then e.bodyMessage.value else e.message
  }

  /** `handleOpenRouterError`: the message of the error it throws. */
  function HandleOpenRouterError(e: CallError): (msg: string)
    ensures e.OtherError? ==> msg == e.message
    ensures e.HttpError? ==> StartsWith(msg, "OpenRouter API error")
    ensures e.HttpError? && e.status.Some? && e.status.value != 0 ==>
      msg == "OpenRouter API error (" + IntToString(e.status.value) + "): " + ErrorDetail(e)
    ensures e.HttpError? && !(e.status.Some? && e.status.value != 0) ==>
      msg == "OpenRouter API error: " + ErrorDetail(e)
  {
    match e
    case OtherError(m) => m
    case HttpError(status, _, _) =>
      if status.Some? && status.value != 0 then
        "OpenRouter API error (" + IntToString(status.value) + "): " + ErrorDetail(e)
      else "OpenRouter API error: " + ErrorDetail(e)
  }

  /** Every `-` becomes a space, and nothing else changes. */
  function DashesToSpaces(s: string): (r: string)
    ensures |r| == |s|
    ensures forall k :: 0 <= k < |s| ==> r[k] == (if s[k] == '-' then ' ' else s[k])
  {
    if s == [] then [] else [if s[0] == '-' then ' ' else s[0]] + DashesToSpaces(s[1..])
  }

  /** A word character at a word boundary: the characters `\b\w` matches. */
  predicate WordStart(s: string, k: nat, prevIsWord: bool)
    requires k < |s|
  {
    IsWordChar(s[k]) && (if k == 0 then !prevIsWord else !IsWordChar(s[k - 1]))
  }

  /**
   * `replace(/\b\w/g, l => l.toUpperCase())` on a text preceded by a word character
   * exactly when `prevIsWord` holds: word-initial characters are upper-cased and
   * every other character is kept.
   */
  function UpperWordStarts(s: string, prevIsWord: bool): (r: string)
    ensures |r| == |s|
    ensures forall k :: 0 <= k < |s| ==>
      r[k] == (if WordStart(s, k, prevIsWord) then UpperChar(s[k]) else s[k])
  {
    if s == [] then []
    else
      var head := if IsWordChar(s[0]) && !prevIsWord then UpperChar(s[0]) else s[0];
      var rest := UpperWordStarts(s[1..], IsWordChar(s[0]));
      assert forall k :: 1 <= k < |s| ==> (WordStart(s, k, prevIsWord) <==> WordStart(s[1..], k - 1, IsWordChar(s[0])));
      [head] + rest
  }

  /** How an organisation prefix is shown; unknown prefixes are shown as they are. */
  function OrgDisplay(org: string): string {
    if org == "openai" then "GPT"
    else if org == "anthropic" then "Claude"
    else if org == "mistralai" then "Mistral"
    else if org == "google" then "Gemini"
    else org
  }

  /** "Unknown" contains no space, so no "<org> <model>" text equals it. */
  lemma UnknownHasNoSpace(org: string, model: string)
    ensures OrgDisplay(org) + " " + model != "Unknown"
  {
    var t := OrgDisplay(org) + " " + model;
    assert t[|OrgDisplay(org)|] == ' ';
    assert forall k :: 0 <= k < |"Unknown"| ==> "Unknown"[k] != ' ';
  }

  /** `getModelDisplayName`. */
  function GetModelDisplayName(role: string): (r: string)
    ensures r == "Unknown" <==>
      LookupProviderId(role).None? ||
      |Split(ProviderIds[role], '/')| < 2 || Split(ProviderIds[role], '/')[1] == ""
    ensures r != "Unknown" ==>
      var parts := Split(ProviderIds[role], '/');
      r == OrgDisplay(parts[0]) + " " + UpperWordStarts(DashesToSpaces(parts[1]), false)
  {
    match LookupProviderId(role)
    case None => "Unknown"
    case Some(id) =>
      var parts := Split(id, '/');
      if |parts| < 2 || parts[1] == "" then "Unknown"
      else
        UnknownHasNoSpace(parts[0], UpperWordStarts(DashesToSpaces(parts[1]), false));
        OrgDisplay(parts[0]) + " " + UpperWordStarts(DashesToSpaces(parts[1]), false)
  }

  /** A text with one separator splits into the parts on either side of it. */
  lemma {:induction false} SplitOnce(a: string, b: string, sep: char)
    requires sep !in a && sep !in b
    ensures Split(a + [sep] + b, sep) == [a, b]
  {
    if a == [] {
      assert a + [sep] + b == [sep] + b;
      SplitNone(b, sep);
    } else {
      SplitOnce(a[1..], b, sep);
      assert (a + [sep] + b)[1..] == a[1..] + [sep] + b;
      assert [a[0]] + a[1..] == a;
    }
  }

  lemma {:induction false} SplitNone(s: string, sep: char)
    requires sep !in s
    ensures Split(s, sep) == [s]
  {
    if s != [] {
      SplitNone(s[1..], sep);
      assert [s[0]] + s[1..] == s;
    }
  }

  /** The display name of a role whose provider id is `org/model`. */
  lemma DisplayNameOf(role: string, org: string, model: string)
    requires LookupProviderId(role) == Some(org + "/" + model)
    requires '/' !in org && '/' !in model && model != ""
    ensures GetModelDisplayName(role) == OrgDisplay(org) + " " + UpperWordStarts(DashesToSpaces(model), false)
  {
    SplitOnce(org, model, '/');
  }

  /** Source Hunter A, served by "openai/gpt-4o", is shown as "GPT Gpt 4o". */
  lemma DisplayNameExample(role: string)
    requires role == "Source Hunter A"
    ensures GetModelDisplayName(role) == "GPT Gpt 4o"
  {
    assert ProviderIds[role] == "openai/gpt-4o";
    assert "openai/gpt-4o" == "openai" + "/" + "gpt-4o";
    DisplayNameOf(role, "openai", "gpt-4o");
    TitleExample("gpt-4o");
  }

  /** A persona name is not an agent role, so it has no provider and shows as "Unknown". */
  lemma UnknownRoleExample(role: string)
    requires role == "Visionary"
    ensures GetModelDisplayName(role) == "Unknown"
  {
    assert role !in ProviderIds;
  }

  lemma TitleExample(model: string)
    requires model == "gpt-4o"
    ensures OrgDisplay("openai") + " " + UpperWordStarts(DashesToSpaces(model), false) == "GPT Gpt 4o"
  {
    DashesExample(model);
    UpperExample("gpt 4o");
  }

  lemma DashesExample(model: string)
    requires model == "gpt-4o"
    ensures DashesToSpaces(model) == "gpt 4o"
  {
    var r := DashesToSpaces(model);
    assert r[3] == ' ';
  }

  lemma UpperExample(t: string)
    requires t == "gpt 4o"
    ensures UpperWordStarts(t, false) == "Gpt 4o"
  {
    var u := UpperWordStarts(t, false);
    assert WordStart(t, 0, false) && !WordStart(t, 1, false);
    assert !WordStart(t, 2, false) && !WordStart(t, 3, false);
    assert WordStart(t, 4, false) && !WordStart(t, 5, false);
    assert u[0] == 'G' && u[1] == 'p' && u[2] == 't' && u[3] == ' ' && u[4] == '4' && u[5] == 'o';
  }
}
