# EnsembleAI core, modelled in Dafny

EnsembleAI stages debates between AI personas and runs a research pipeline over
a question. This project models the deterministic core of its backend, the
pieces of frontend logic that classify what the engine produces, and the two
lint scripts of the repository. Every call to a language model is an oracle
that returns a reply or an error. Everything built around those calls is
modelled as the source writes it: prompts, parsing, fallbacks, event order and
state updates.

The modules follow the source files:

- `SessionTypes` (`backend/src/types/session.ts`): rounds, positions, debate
  messages, participants, sessions and the orchestrator events.
- `Personas` (`backend/src/constants/personas.ts`): the six-persona pool, with
  distinct ids and roles.
- `DebateSelection` (`backend/src/orchestrator/debateOrchestrator.ts`, selection):
  - the FNV-1a hash of the session id over UTF-16 units, on `bv32`;
  - the Mulberry32 generator, as a class holding the 32-bit state;
  - the Fisher-Yates shuffle, as an in-place array method on a fresh copy;
  - the split into three core participants and a wildcard.
- `DebateText`: the text heuristics of the debate engine:
  - position keywords;
  - key-point extraction;
  - consensus score and statement parsing;
  - the context block and the consensus recap.
- `DebateRounds`: the five round executors as functions of an LLM `Gateway`. Each
  round yields its messages, the events it emits and the next value of the
  message counter.
- `DebateArena`: the module-level message counter and the event log as the
  fields of a class. Its methods run the rounds and `runDebate` step by step, and
  are proved against `DebateRounds`.
- `OpenRouter` (`backend/src/api/openRouter.ts`):
  - the role-to-provider table;
  - the request payload;
  - the error text;
  - the model display name.
- `BackendVocabulary` and `FrontendVocabulary`: the two `ubiquitousLanguage.ts`
  files, their tables, validators and labels.
- `FormController`, `TopicController` and `QuestionController`: the two frontend
  form hooks, as a class whose fields are the hook's state. The API call is a
  parameter.
- `DebateTimeline` and `AnswerDisplay`: the round grouping, the badge rules and the
  citation scan of two UI components.
- `BasicOrchestrator` (`backend/src/orchestrator/basicOrchestrator.ts`): the
  research pipeline:
  - plan parsing;
  - the two-hunter merge with URL de-duplication, cap and placeholders;
  - critique parsing;
  - the order of status events;
  - error handling.
- `SessionRoutes` (`backend/src/routes/sessions.ts`):
  - the session store and the subscriber registry, as a class;
  - the event reducer;
  - the callback that republishes events;
  - the stream's initial snapshot;
  - session creation.
- `LintLanguage` and `DesignTokens` (`scripts/lint-ubiquitous-language.js`,
  `frontend/scripts/check-design-tokens.js`): both scripts as line scanners over
  a file's text. `ScriptText` holds what the two share.
- `JsString` and `Wrappers`: JavaScript string operations, and `Option`/`Result`
  for `undefined` values and thrown errors. JavaScript's `length` and `substring`
  count UTF-16 code units, and the model counts the same way. One exception: a
  `substring` cut inside a surrogate pair keeps the lone high surrogate in
  JavaScript, and a Dafny `char` cannot hold one. `JsString.PrefixCut` pins down
  where the model's cut falls instead (see "## Left out").

Where the repository disagrees with itself:

- `debateOrchestrator.ts` names rounds through `DEBATE_ROUND_TYPES.PITCH` and
  similar constants.
  - The backend constants file defines only `opening`, `cross_exam`, `rebuttal`
    and `final` (`backend/src/constants/ubiquitousLanguage.ts:63-68`), so each of
    those five lookups yields `undefined` in the running program.
  - The model does not follow the code here. It uses the intended values, the
    five literal names of `backend/src/types/session.ts:26`. What the code as
    written does to the timeline is listed under "## Left out".
- `sourceManagement.test.ts:150` expects "No critique available" when the critic
  call fails.
  - The code gives "Critique unavailable" (`basicOrchestrator.ts:255`), and so
    does `BasicOrchestrator.CritiquedProperties`.
  - "No critique available" is the text for a reply that has no `Critique:` part.
- The session route drives `runBasicOrchestration`, not `runDebate`
  (`backend/src/routes/sessions.ts:3,88`). The two pipelines are modelled
  independently.

## Model

| member | source | states |
|---|---|---|
| SessionTypes.RoundNumber | backend/src/types/session.ts:34-35 | the round number of every round type lies in the documented range 1 to 5 |
| Personas.PoolFacts | backend/src/constants/personas.ts:12-67 | the persona pool has six entries whose ids are pairwise distinct and whose roles are pairwise distinct |
| BackendVocabulary.AgentRoleValidIff | backend/src/constants/ubiquitousLanguage.ts:38-79 | `isValidAgentRole` holds exactly for the names of the eight agent roles |
| BackendVocabulary.SessionStatusValidIff | backend/src/constants/ubiquitousLanguage.ts:50-83 | `isValidSessionStatus` holds exactly for the names of the nine statuses |
| BackendVocabulary.TablesDistinct | backend/src/constants/ubiquitousLanguage.ts:38-68 | the role, status and round-type tables have 8, 9 and 4 pairwise distinct values, and no two roles or statuses share a name |
| FrontendVocabulary.RegistriesAgree | frontend/src/constants/ubiquitousLanguage.ts:38-92 | the frontend role, status and round-type tables equal the backend ones, so both validators accept the same strings |
| FrontendVocabulary.ValidIffNamed | frontend/src/constants/ubiquitousLanguage.ts:86-92 | the frontend role and status validators hold exactly for the eight role names and the nine status names |
| FrontendVocabulary.DebateRoundNamesOnly | frontend/src/constants/ubiquitousLanguage.ts:50-96 | `isValidDebateRound` accepts the four display names, rejects every round type code and compares case-sensitively |
| FrontendVocabulary.AgentRoleLabelsIdentity | frontend/src/constants/ubiquitousLanguage.ts:99-108 | every role is labelled by its own name and the label table has no other keys |
| FrontendVocabulary.SessionStatusLabelsTotal | frontend/src/constants/ubiquitousLanguage.ts:110-120 | every status has a label, no other key does, and hunting and critiquing read "Hunting Sources" and "Critiquing Sources" |
| FormController.Validate | frontend/src/hooks/useDebateTopicController.ts:16-27 | a value is accepted exactly when its trimmed text is non-empty and its untrimmed length is 10 to 1000; blank text gets the "required" message, otherwise a short or long one gets the matching message |
| FormController.AcceptedIsSubmittable | frontend/src/hooks/useDebateTopicController.ts:47-55 | the trimmed text sent for an accepted value is non-empty, already trimmed and at most 1000 code units long |
| FormController.AgreesWithRouteOnTrimmed | frontend/src/hooks/useDebateTopicController.ts:16-27 | on text without surrounding white space the form's check accepts exactly what the route's topic schema (length 10 to 1000) accepts |
| FormController.PaddingPassesForm | frontend/src/hooks/useDebateTopicController.ts:20-55 | nine spaces and a letter pass the form, and the single letter that is sent is refused by the route's length bound |
| FormController.AppendKeepsSubmittable | frontend/src/hooks/useDebateTopicController.ts:55 | appending a submittable text to a log of submittable texts keeps every entry submittable |
| FormController.Form.constructor | frontend/src/hooks/useDebateTopicController.ts:33-35 | a new form has empty text, no error, is not submitting and has sent nothing |
| FormController.Form.HandleChange | frontend/src/hooks/useDebateTopicController.ts:37-40 | the text becomes the new value and the error is cleared; nothing else changes |
| FormController.Form.HandleSubmit | frontend/src/hooks/useDebateTopicController.ts:42-63 | a refused text sets the validation error and sends nothing; an accepted one sends its trimmed form once, then either hands the session id to `onSubmit` and clears the text, or keeps the text and sets the failure message; the form is not submitting afterwards |
| FormController.Form.Send | frontend/src/hooks/useDebateTopicController.ts:53-62 | the awaited call records the request, then on success notifies and clears the text, on failure sets the failure message, and always ends not submitting |
| TopicController.ValidateTopic | frontend/src/hooks/useDebateTopicController.ts:16-27 | `validateTopic` with the topic messages: accepted exactly when non-blank with length 10 to 1000, and the message for each refusal |
| TopicController.RequiredBeforeLength | frontend/src/hooks/useDebateTopicController.ts:17-22 | blank text gets "Topic is required", never the minimum-length message |
| TopicController.NewTopicController | frontend/src/hooks/useDebateTopicController.ts:29-35 | the hook starts with the topic messages, empty text, no error, not submitting |
| QuestionController.ValidateQuestion | frontend/src/hooks/useResearchQuestionController.ts:16-27 | `validateQuestion` with the question messages: accepted exactly when non-blank with length 10 to 1000, and the message for each refusal |
| QuestionController.RequiredBeforeLength | frontend/src/hooks/useResearchQuestionController.ts:17-22 | blank text gets "Question is required", never the minimum-length message |
| QuestionController.NewQuestionController | frontend/src/hooks/useResearchQuestionController.ts:29-35 | the hook starts with the question messages, empty text, no error, not submitting |
| OpenRouter.LookupProviderId | backend/src/api/openRouter.ts:37-54 | a role has a provider id exactly when the table maps it to a non-empty id, and then it is that id |
| OpenRouter.ProviderTableTotal | backend/src/api/openRouter.ts:37-46 | every one of the eight agent roles has a provider id, and the table has no other keys |
| OpenRouter.CreateOpenRouterPayload | backend/src/api/openRouter.ts:48-66 | fails with "No provider id mapping for role: <role>" exactly when the role is unmapped; otherwise the payload carries the mapped id as model, the given messages and temperature, and max_tokens 2000 |
| OpenRouter.PayloadForEveryRole | backend/src/api/openRouter.ts:37-66 | a payload is built for every agent role |
| OpenRouter.HandleOpenRouterError | backend/src/api/openRouter.ts:87-99 | a non-HTTP error is rethrown unchanged; an HTTP error becomes "OpenRouter API error (<status>): <detail>" when a status is present and "OpenRouter API error: <detail>" otherwise, the detail being the body's message or else the error's own |
| OpenRouter.DashesToSpaces | backend/src/api/openRouter.ts:130 | `replace(/-/g, " ")`: every dash becomes a space and every other character is kept |
| OpenRouter.UpperWordStarts | backend/src/api/openRouter.ts:130 | `replace(/\b\w/g, toUpperCase)`: exactly the word characters at a word boundary are upper-cased, every other character is kept |
| OpenRouter.UnknownHasNoSpace | backend/src/api/openRouter.ts:123-141 | a formatted "<org> <model>" name is never the text "Unknown", so "Unknown" identifies the failure cases |
| OpenRouter.GetModelDisplayName | backend/src/api/openRouter.ts:121-142 | the name is "Unknown" exactly when the role is unmapped or the id has no non-empty part after "/"; otherwise it is the organisation's display name, a space, and the model part with dashes turned to spaces and word starts upper-cased |
| OpenRouter.SplitOnce | backend/src/api/openRouter.ts:125 | `split("/")` of a text with one separator gives the two parts on either side |
| OpenRouter.SplitNone | backend/src/api/openRouter.ts:125 | `split("/")` of a text without the separator gives the text itself |
| OpenRouter.DisplayNameOf | backend/src/api/openRouter.ts:121-142 | a role whose provider id is `org/model` is shown as the org's display name, a space, and the formatted model |
| OpenRouter.DisplayNameExample | backend/src/api/openRouter.ts:121-142 | "Source Hunter A", served by "openai/gpt-4o", is shown as "GPT Gpt 4o" |
| OpenRouter.UnknownRoleExample | backend/src/api/openRouter.ts:121-123 | a role without a table entry is shown as "Unknown" |
| OpenRouter.TitleExample | backend/src/api/openRouter.ts:130-141 | "gpt-4o" is formatted as "Gpt 4o" and prefixed with "GPT" |
| DebateSelection.HashToUint32 | backend/src/orchestrator/debateOrchestrator.ts:20-28 | the loop computes the FNV-1a hash (offset basis 2166136261, prime 16777619, 32-bit wrap) of the text's UTF-16 code units |
| DebateSelection.HashOfAppend | backend/src/orchestrator/debateOrchestrator.ts:23-26 | hashing a text extended by one code unit continues from the hash of the text with one xor-and-multiply round |
| DebateSelection.Fnv1aVectors | backend/src/orchestrator/debateOrchestrator.ts:20-28 | the hash agrees with the published FNV-1a vectors: 0x811C9DC5 for "" and 0xE40C292C for "a" |
| DebateSelection.Mulberry32.constructor | backend/src/orchestrator/debateOrchestrator.ts:30-32 | `createRng(seed)` starts its state at the hash of the seed |
| DebateSelection.Mulberry32.Next | backend/src/orchestrator/debateOrchestrator.ts:33-39 | each draw advances the state by 0x6D2B79F5 modulo 2^32 and returns the Mulberry32 mix of the new state |
| DebateSelection.SwapIndex | backend/src/orchestrator/debateOrchestrator.ts:46 | `Math.floor(rng() * (i + 1))` computed on the integer numerator never exceeds `i` |
| DebateSelection.Swap | backend/src/orchestrator/debateOrchestrator.ts:47-49 | exchanging two positions swaps those two elements and keeps every other one |
| DebateSelection.SwapIndices | backend/src/orchestrator/debateOrchestrator.ts:45-46 | the drawn index for step `i` lies in 0..i for every step of the shuffle |
| DebateSelection.ShuffleWithSeed | backend/src/orchestrator/debateOrchestrator.ts:42-52 | the in-place Fisher-Yates loop on a fresh copy yields the seeded shuffle of the input, which is left untouched |
| DebateSelection.SwapPermutes | backend/src/orchestrator/debateOrchestrator.ts:47-49 | one swap keeps the multiset of elements |
| DebateSelection.SwapsPermute | backend/src/orchestrator/debateOrchestrator.ts:45-50 | the swaps of all steps keep the length and the multiset of elements |
| DebateSelection.ShuffleArray | backend/src/orchestrator/debateOrchestrator.ts:45-50 | the loop from the last index down to 1 leaves the array as `ShuffleFrom` of its old contents and the generator's old state |
| DebateSelection.DrawAndSwap | backend/src/orchestrator/debateOrchestrator.ts:46-49 | one pass advances the generator by one draw, exchanges `a[i]` with the drawn index, and the rest of the shuffle from the new state gives the same result as the whole shuffle from the old one |
| DebateSelection.ShufflePermutes | backend/src/orchestrator/debateOrchestrator.ts:42-52 | the shuffle is a permutation of its input |
| DebateSelection.SwapKeepsDistinctKeys | backend/src/orchestrator/debateOrchestrator.ts:47-49 | a swap keeps a key that tells all elements apart injective |
| DebateSelection.SwapsKeepDistinctKeys | backend/src/orchestrator/debateOrchestrator.ts:45-50 | all swaps keep a distinguishing key injective |
| DebateSelection.ShuffleKeepsDistinctKeys | backend/src/orchestrator/debateOrchestrator.ts:42-52 | elements that have distinct keys in the input still have distinct keys after the shuffle |
| DebateSelection.SelectDebateParticipants | backend/src/orchestrator/debateOrchestrator.ts:68-87 | shuffles the pool with seed "<sessionId>:personas", fails for fewer than four personas, and otherwise takes the first three as core and the fourth as wildcard |
| DebateSelection.SelectProperties | backend/src/orchestrator/debateOrchestrator.ts:68-87 | selection fails exactly for a pool shorter than four; otherwise core has three personas, the four chosen form a sub-multiset of the pool, and distinct ids and roles in the pool stay distinct, so the wildcard is not in core |
| DebateSelection.SelectedFour | backend/src/orchestrator/debateOrchestrator.ts:78-86 | core followed by the wildcard is exactly the first four entries of the shuffled pool |
| DebateSelection.WildcardNotInCore | backend/src/orchestrator/debateOrchestrator.ts:78-86 | when the four chosen ids are distinct, the wildcard is none of the core personas |
| DebateSelection.PoolSelection | backend/src/orchestrator/debateOrchestrator.ts:72-86 | with the six-persona pool selection never fails and yields four personas with distinct ids and roles |
| DebateSelection.AssignmentOf | backend/src/orchestrator/debateOrchestrator.ts:89-131 | core participants are built from core personas in order and are not wildcards, the wildcard is flagged, `all` is core followed by the wildcard, and each session participant copies id, role, provider and flag |
| DebateSelection.AssignDebateParticipants | backend/src/orchestrator/debateOrchestrator.ts:115-131 | propagates the selection's failure, and otherwise returns the assignment built from the selection |
| DebateText.AnyKeyword | backend/src/orchestrator/debateOrchestrator.ts:654 | `keywords.some(kw => lower.includes(kw))`: true exactly when some keyword of the group occurs in the text |
| DebateText.FirstMatchingGroup | backend/src/orchestrator/debateOrchestrator.ts:653-657 | the group returned matches and no earlier group does; no group is returned only when none matches |
| DebateText.ExtractPosition | backend/src/orchestrator/debateOrchestrator.ts:642-659 | the position of the first keyword group, in table order, with a keyword in the lower-cased text, and neutral when no group has one |
| DebateText.NotContains | backend/src/orchestrator/debateOrchestrator.ts:654 | a text lacking some character of a keyword does not contain the keyword |
| DebateText.DisagreeReadsAsFor | backend/src/orchestrator/debateOrchestrator.ts:647-657 | "I disagree" is classified as for, because "agree" in the fifth group is checked before "disagree" in the sixth |
| DebateText.MarkerEnd | backend/src/orchestrator/debateOrchestrator.ts:666 | the bullet marker `\d+\.`, `*` or `-` at the start of the line, when present, ends within the line |
| DebateText.BulletPrefix | backend/src/orchestrator/debateOrchestrator.ts:666-667 | `^(\d+\.\|\*\|-)\s+` matches a marker and a maximal white-space run of at least one character |
| DebateText.KeyPointOf | backend/src/orchestrator/debateOrchestrator.ts:665-670 | a line yields a point only when its trimmed text starts with a bullet, and the point's length is strictly between 10 and 200 |
| DebateText.FilterMapFrom | backend/src/orchestrator/debateOrchestrator.ts:664-671 | the points collected are no more than the lines, and each is the point of some line |
| DebateText.CandidatesFromLines | backend/src/orchestrator/debateOrchestrator.ts:664-671 | every collected point meets the length bounds and is the key point of some line |
| DebateText.ExtractKeyPoints | backend/src/orchestrator/debateOrchestrator.ts:661-674 | the loop over the lines collects the key points in line order and keeps the first five |
| DebateText.KeyPointsBounds | backend/src/orchestrator/debateOrchestrator.ts:661-674 | at most five points, a prefix of the points in line order, each of length strictly between 10 and 200 and each from a line of the content |
| DebateText.NumberedLineExample | backend/src/orchestrator/debateOrchestrator.ts:666-670 | "1. Lower costs over time" yields the point "Lower costs over time" |
| DebateText.TrimKeeps | backend/src/orchestrator/debateOrchestrator.ts:665 | `trim` keeps a text without white space at either end |
| DebateText.MatchAt | backend/src/orchestrator/debateOrchestrator.ts:539-541 | a match of `/Score:\s*(\d+)/i` captures a non-empty run of digits that follows "score:" and optional white space |
| DebateText.FindScore | backend/src/orchestrator/debateOrchestrator.ts:539 | the leftmost position where the score pattern matches, and none when it matches nowhere |
| DebateText.Clamp | backend/src/orchestrator/debateOrchestrator.ts:556 | `Math.min(hi, Math.max(lo, x))`: the value when within bounds, otherwise the nearer bound |
| DebateText.StatedScore | backend/src/orchestrator/debateOrchestrator.ts:539-541 | the stated score is never negative, and is 50 when the pattern matches nowhere |
| DebateText.ConfidenceScore | backend/src/orchestrator/debateOrchestrator.ts:539-556 | the confidence score lies in 0..100 and is 50 when the reply states no score |
| DebateText.ConfidenceScoreOfMatch | backend/src/orchestrator/debateOrchestrator.ts:539-556 | when the leftmost match of `/Score:\s*(\d+)/i` starts at `i`, the stated score is the value of its digits and the confidence score is that value clamped into [0, 100] |
| DebateText.ClampedScoreExample | backend/src/orchestrator/debateOrchestrator.ts:539-556 | "Score: 150" gives confidence score 100 |
| DebateText.ConsensusContentProperties | backend/src/orchestrator/debateOrchestrator.ts:542-545 | the statement is trimmed, and a reply with neither a score nor "Statement:" gives its trimmed self |
| DebateText.ConsensusContentOfMatch | backend/src/orchestrator/debateOrchestrator.ts:542-545 | when the leftmost score match spans `i` to its end, the statement is the reply with that span cut out, then the first "Statement:" cut out, then trimmed |
| DebateText.NotLowerOccursAt | backend/src/orchestrator/debateOrchestrator.ts:539 | the case-insensitive pattern cannot start where one character differs |
| DebateText.ConsensusExample | backend/src/orchestrator/debateOrchestrator.ts:539-545 | "Statement: I agree. Score: 85" gives score 85 and statement "I agree." |
| DebateText.RecapWindow | backend/src/orchestrator/debateOrchestrator.ts:518-519 | `slice(-12)`: the last min(12, n) messages |
| DebateText.RecapLineShape | backend/src/orchestrator/debateOrchestrator.ts:520 | a recap line is `- [R<round>] <role>: `, then a prefix of the content, then "..."; the prefix is at most 200 UTF-16 units, all of the content when that fits, and otherwise at least 199 units |
| DebateText.RecapLines | backend/src/orchestrator/debateOrchestrator.ts:520 | one recap line per message, in order |
| DebateText.Recap | backend/src/orchestrator/debateOrchestrator.ts:518-534 | the recap is "(none)" exactly when there are no earlier messages |
| DebateText.RecapShape | backend/src/orchestrator/debateOrchestrator.ts:518-521 | for earlier messages, the recap is the recap lines of the last twelve of them joined by newlines |
| DebateText.JoinStarts | backend/src/orchestrator/debateOrchestrator.ts:521 | a join of one or more parts starts with the first part |
| DebateText.ContextEntry | backend/src/orchestrator/debateOrchestrator.ts:63 | an entry starts with the 1-based number, ". " and the title, ends with a newline, three spaces and the snippet, and holds " (<url>)" in between exactly when the url is present and non-empty |
| DebateText.FormatContextsContext | backend/src/orchestrator/debateOrchestrator.ts:61-65 | the contexts block is empty exactly when there are no contexts |
| DebateRounds.RunStepsPrefix | backend/src/orchestrator/debateOrchestrator.ts:420-458 | running one more participant appends its contribution after the others' and advances the counter only when it kept a message |
| DebateRounds.RunStepsIds | backend/src/orchestrator/debateOrchestrator.ts:420-458 | a round keeps at most one message per participant, numbers them consecutively from the counter, advances the counter by their number, and every message belongs to the round |
| DebateRounds.RunStepsTotal | backend/src/orchestrator/debateOrchestrator.ts:142-212 | when no call is dropped, message k is participant k's contribution with the k-th id after the counter |
| DebateRounds.RunStepsByParticipants | backend/src/orchestrator/debateOrchestrator.ts:420-458 | every message of a round is spoken by one of its participants |
| DebateRounds.ByMoreParticipants | backend/src/orchestrator/debateOrchestrator.ts:622-626 | a message spoken by one of some participants is still spoken by one of a larger list |
| DebateRounds.Kept | backend/src/orchestrator/debateOrchestrator.ts:458-579 | the indices of the participants whose messages `filter(r => r !== null)` keeps all lie within the participant list |
| DebateRounds.RunStepsKept | backend/src/orchestrator/debateOrchestrator.ts:420-458 | the messages of a round are the contributions of a strictly increasing subsequence of the participants, each with its id |
| DebateRounds.RunStepsNext | backend/src/orchestrator/debateOrchestrator.ts:56-59 | the counter advances by the number of kept messages |
| DebateRounds.RunStepsDropped | backend/src/orchestrator/debateOrchestrator.ts:451-454 | a participant whose message was not kept had its call fail |
| DebateRounds.PitchStep | backend/src/orchestrator/debateOrchestrator.ts:142-208 | a pitch always yields one message in round 1 addressed to all; on success it carries the reply, its position and key points, and emits the message and "Pitch delivered"; on failure the content is "[Error: Could not generate pitch. <msg>]", with no position or key points, and one error event "<role> pitch failed: <msg>" |
| DebateRounds.PitchRoundProperties | backend/src/orchestrator/debateOrchestrator.ts:133-213 | the pitch round yields exactly one message per participant, in participant order, with consecutive ids, each in round 1, by that participant's role and addressed to all |
| DebateRounds.PitchStepsFacts | backend/src/orchestrator/debateOrchestrator.ts:158-206 | every pitch message carries the id it was given and is a well-formed round-1 message |
| DebateRounds.FindPitch | backend/src/orchestrator/debateOrchestrator.ts:339 | `find` returns the first pitch with the persona's id, and nothing when no pitch has it |
| DebateRounds.CrossFireTarget | backend/src/orchestrator/debateOrchestrator.ts:323-346 | a target exists exactly when the drawn index is in range and that participant has a pitch; it is that participant and its first pitch |
| DebateRounds.ChallengeStep | backend/src/orchestrator/debateOrchestrator.ts:231-279 | the challenge exists exactly when the wildcard's call succeeds; it is a round-2 message from the wildcard to the target's role carrying the reply, with its two events; a failure yields nothing and no event |
| DebateRounds.ResponseStep | backend/src/orchestrator/debateOrchestrator.ts:281-321 | the reply exists exactly when the target's call succeeds; it is a round-2 message from the target to the wildcard's role carrying the reply, with one event; a failure yields nothing |
| DebateRounds.CrossFireProperties | backend/src/orchestrator/debateOrchestrator.ts:348-379 | cross-fire yields at most two messages with consecutive ids in round 2: none without a target or without participants, else first the wildcard's challenge to the target, then the target's reply to the wildcard only after a successful challenge |
| DebateRounds.ScenarioEvents | backend/src/orchestrator/debateOrchestrator.ts:402-417 | the moderator's narration "Stress Test Scenario: <scenario>" is emitted only when the moderator call succeeds |
| DebateRounds.StressStep | backend/src/orchestrator/debateOrchestrator.ts:421-455 | an answer exists exactly when the participant's call succeeds; it is a round-3 message to "Moderator" whose content is "[Re: <scenario>] <reply>" |
| DebateRounds.StressTestProperties | backend/src/orchestrator/debateOrchestrator.ts:381-459 | the stress test keeps the successful answers of a subsequence of the participants, in participant order, with consecutive ids, each in round 3 and addressed to "Moderator" |
| DebateRounds.StressFallback | backend/src/orchestrator/debateOrchestrator.ts:414-417 | when the moderator call fails the scenario is the fixed sentence and no narration is emitted |
| DebateRounds.SteelManStep | backend/src/orchestrator/debateOrchestrator.ts:470-504 | a steel man exists exactly when the participant's call succeeds; it is a round-4 message to all carrying the reply |
| DebateRounds.SteelManProperties | backend/src/orchestrator/debateOrchestrator.ts:461-508 | the steel-man round keeps the successful replies of a subsequence of the participants, in order, with consecutive ids, each in round 4 and addressed to all |
| DebateRounds.ConsensusStep | backend/src/orchestrator/debateOrchestrator.ts:524-576 | a verdict exists exactly when the call succeeds; it is a round-5 message to all whose content is the reply without the score and "Statement:", whose score is the clamped stated score, with the "Final verdict given (Confidence: n%)" narration |
| DebateRounds.ConsensusProperties | backend/src/orchestrator/debateOrchestrator.ts:510-580 | the consensus round keeps the successful verdicts of a subsequence of the participants, in order, with consecutive ids, each in round 5 with a score in 0..100 |
| DebateArena.CoreRoles | backend/src/orchestrator/debateOrchestrator.ts:600 | `core.map(p => p.persona.role)`: one role per core participant, in order |
| DebateArena.Arena.constructor | backend/src/orchestrator/debateOrchestrator.ts:54 | the message counter starts at 0 and no event has been emitted |
| DebateArena.Arena.CreateDebateMessageId | backend/src/orchestrator/debateOrchestrator.ts:56-59 | the counter is incremented and the id is its new value; no event is emitted |
| DebateArena.Arena.Emit | backend/src/orchestrator/debateOrchestrator.ts:172-185 | `onEvent` appends the event to the log and leaves the counter alone |
| DebateArena.Arena.EmitAll | backend/src/orchestrator/debateOrchestrator.ts:172-185 | the events of one call are appended in order |
| DebateArena.Arena.RunStep | backend/src/orchestrator/debateOrchestrator.ts:421-455 | one participant's call: the message takes the counter's next value, the counter advances only for a kept message, and the call's events follow the earlier ones |
| DebateArena.Arena.RunRound | backend/src/orchestrator/debateOrchestrator.ts:420-458 | the loop over the participants yields the round function's messages, counter and events |
| DebateArena.Arena.ExecutePitchRound | backend/src/orchestrator/debateOrchestrator.ts:133-213 | the pitch round's messages, counter and events are those of `PitchRound` |
| DebateArena.Arena.ExecuteCrossFireRound | backend/src/orchestrator/debateOrchestrator.ts:348-379 | the cross-fire round's messages, counter and events are those of `CrossFireRound` |
| DebateArena.Arena.ModeratorScenario | backend/src/orchestrator/debateOrchestrator.ts:388-417 | the scenario is the moderator's reply or the fixed sentence, narrated only when the reply came back |
| DebateArena.Arena.ExecuteStressTestRound | backend/src/orchestrator/debateOrchestrator.ts:381-459 | the stress test's messages, counter and events are those of `StressTestRound` |
| DebateArena.Arena.ExecuteSteelManRound | backend/src/orchestrator/debateOrchestrator.ts:461-508 | the steel-man round's messages, counter and events are those of `SteelManRound` |
| DebateArena.Arena.ExecuteConsensusRound | backend/src/orchestrator/debateOrchestrator.ts:510-580 | the consensus round's messages, counter and events are those of `ConsensusRound` over the recap of the earlier messages |
| DebateArena.Arena.RunDebate | backend/src/orchestrator/debateOrchestrator.ts:582-639 | a failed selection throws before any event; otherwise the participants event and the selection message come first, then the five rounds in order, and the transcript and participants returned are those of `Debate` |
| DebateArena.Arena.RunAssigned | backend/src/orchestrator/debateOrchestrator.ts:593-631 | the selection events, then pitch by the core, cross-fire by the wildcard against a core target, and stress test, steel man and consensus by all four, the consensus seeing every earlier message |
| DebateArena.PitchOk | backend/src/orchestrator/debateOrchestrator.ts:133-213 | the pitch round numbers its messages from the counter, all in round 1 and spoken by its participants |
| DebateArena.CrossFireOk | backend/src/orchestrator/debateOrchestrator.ts:348-379 | the cross-fire messages are numbered from the counter, all in round 2 and spoken by the core participants or the wildcard |
| DebateArena.StressTestOk | backend/src/orchestrator/debateOrchestrator.ts:381-459 | the stress-test messages are numbered from the counter, all in round 3 and spoken by its participants |
| DebateArena.SteelManOk | backend/src/orchestrator/debateOrchestrator.ts:461-508 | the steel-man messages are numbered from the counter, all in round 4 and spoken by its participants |
| DebateArena.ConsensusOk | backend/src/orchestrator/debateOrchestrator.ts:510-580 | the consensus messages are numbered from the counter, all in round 5 and spoken by its participants |
| DebateArena.TranscriptAppend | backend/src/orchestrator/debateOrchestrator.ts:609-631 | pushing a later round's messages onto the transcript keeps the ids consecutive, the round numbers non-decreasing and the speakers among the participants |
| DebateArena.TranscriptStart | backend/src/orchestrator/debateOrchestrator.ts:608-609 | the pitch messages alone form a transcript in order |
| DebateArena.ComposeOk | backend/src/orchestrator/debateOrchestrator.ts:605-631 | five rounds, each starting where the previous one left the counter, form a transcript in round order with consecutive ids |
| DebateArena.DebateTranscript | backend/src/orchestrator/debateOrchestrator.ts:582-639 | a debate's transcript has ids following the counter without gaps, non-decreasing round numbers, only well-formed messages, and only the four participants as speakers |
| DebateArena.PitchShape | backend/src/orchestrator/debateOrchestrator.ts:142-212 | the pitch round's messages are one pitch per participant, in participant order |
| DebateArena.LaterRoundSizes | backend/src/orchestrator/debateOrchestrator.ts:420-579 | stress test, steel man and consensus each yield at most one message per participant |
| DebateArena.ComposeSize | backend/src/orchestrator/debateOrchestrator.ts:605-631 | a transcript built from three pitches and bounded later rounds has 3 to 17 messages and opens with the pitches |
| DebateArena.DebateSize | backend/src/orchestrator/debateOrchestrator.ts:582-639 | with three core participants and a wildcard a debate opens with the three pitches, in core order, and has at most 17 messages |
| DebateTimeline.RoundOrderIsFlowOrder | frontend/src/components/DebateTimeline/DebateTimeline.tsx:20-26 | `ROUND_ORDER` lists all five rounds, the i-th being round i + 1 |
| DebateTimeline.ByRoundMembers | frontend/src/components/DebateTimeline/DebateTimeline.tsx:262 | a round's group holds exactly the transcript messages of that round |
| DebateTimeline.ByRoundAppend | frontend/src/components/DebateTimeline/DebateTimeline.tsx:262 | grouping a concatenation groups each part, so a group keeps transcript order |
| DebateTimeline.GroupSizesSum | frontend/src/components/DebateTimeline/DebateTimeline.tsx:260-266 | the five group sizes add up to the transcript length |
| DebateTimeline.IncreasingTail | frontend/src/components/DebateTimeline/DebateTimeline.tsx:20-26 | after the first round of an increasing round list, the rest is increasing and comes after it |
| DebateTimeline.ByRoundCons | frontend/src/components/DebateTimeline/DebateTimeline.tsx:262 | a message at the head of the transcript heads its round's group and is absent from every other group |
| DebateTimeline.LayoutSkip | frontend/src/components/DebateTimeline/DebateTimeline.tsx:282-287 | a message of a round not laid out does not appear in the layout |
| DebateTimeline.LayoutCons | frontend/src/components/DebateTimeline/DebateTimeline.tsx:282-287 | a message of a listed round, followed by no message of an earlier round, heads the layout of an increasing round list |
| DebateTimeline.LayoutEmpty | frontend/src/components/DebateTimeline/DebateTimeline.tsx:282-287 | an empty transcript lays out to nothing |
| DebateTimeline.EmptyGroup | frontend/src/components/DebateTimeline/DebateTimeline.tsx:262 | a round no message belongs to has an empty group |
| DebateTimeline.GroupedSorted | frontend/src/components/DebateTimeline/DebateTimeline.tsx:260-287 | on a transcript whose round numbers never decrease, the groups laid out in `ROUND_ORDER` give back the transcript itself |
| DebateTimeline.TimelineOfDebate | frontend/src/components/DebateTimeline/DebateTimeline.tsx:260-287 | the timeline of a debate run shows every message once, in transcript order, each in its round's section |
| DebateTimeline.ShownIff | frontend/src/components/DebateTimeline/DebateTimeline.tsx:268-287 | a round's section is shown exactly when some message of the transcript belongs to that round |
| DebateTimeline.NonEmptyRoundsIff | frontend/src/components/DebateTimeline/DebateTimeline.tsx:282-287 | a round is kept by the non-empty filter exactly when it is listed and its group is non-empty |
| DebateTimeline.ShownInOrder | frontend/src/components/DebateTimeline/DebateTimeline.tsx:282-287 | shown sections follow `ROUND_ORDER`: their round numbers strictly increase |
| DebateTimeline.NonEmptyRoundsIncreasing | frontend/src/components/DebateTimeline/DebateTimeline.tsx:282-287 | dropping empty groups keeps an increasing round list increasing |
| DebateTimeline.HeaderNumber | frontend/src/components/DebateTimeline/DebateTimeline.tsx:107 | `messages[0]?.roundNumber \|\| "?"`: a number is shown only for a non-empty group whose first round number is not 0 |
| DebateTimeline.HeaderOfWellFormed | frontend/src/components/DebateTimeline/DebateTimeline.tsx:107 | on well-formed messages every shown section is headed by its own round number |
| DebateTimeline.ConfidenceTone | frontend/src/components/DebateTimeline/DebateTimeline.tsx:53-61 | the confidence badge is success exactly above 70, destructive exactly below 40, and warning exactly from 40 to 70 |
| DebateTimeline.ConfidenceBadge | frontend/src/components/DebateTimeline/DebateTimeline.tsx:53-65 | a message has a confidence badge exactly when it carries a score |
| DebateTimeline.PositionBadge | frontend/src/components/DebateTimeline/DebateTimeline.tsx:28-43 | no badge exactly for an absent or empty position; an unknown position gets the muted colour |
| DebateTimeline.PositionBadgeOfPositions | frontend/src/components/DebateTimeline/DebateTimeline.tsx:31-36 | for, against, neutral and mixed get success, destructive, muted and warning, four different colours |
| DebateTimeline.StatusTone | frontend/src/components/DebateTimeline/DebateTimeline.tsx:120-126 | complete is success, error is destructive, and every other status pulses |
| DebateTimeline.TargetVisibility | frontend/src/components/DebateTimeline/DebateTimeline.tsx:67 | the target is hidden when absent or "all" and shown for any other non-empty role |
| SessionRoutes.ApplyEventToSession | backend/src/routes/sessions.ts:51-82 | a status, conclusion, participants or debate event sets that one field; a message or debate message event appends to its list (an absent transcript counts as empty); every other field, and the whole session for plan, sources, answer and error events, is unchanged |
| SessionRoutes.ReplayMessagesAndKeeps | backend/src/routes/sessions.ts:51-96 | folding events into the store appends exactly the messages of the message events and never changes the id, topic, question, contexts, context, plan, sources or answer |
| SessionRoutes.ReplayStatus | backend/src/routes/sessions.ts:54-96 | after a run of events the stored status is the last status event's, or the old one when there is none |
| SessionRoutes.ReplayDebateMessages | backend/src/routes/sessions.ts:68-71 | replaying a transcript one debate message at a time appends that whole transcript |
| SessionRoutes.ReplayAppend | backend/src/routes/sessions.ts:88-96 | replaying two runs of events is replaying the first and then the second |
| SessionRoutes.DebateMessageEvents | backend/src/routes/sessions.ts:181 | one debate message event per transcript entry, in order |
| SessionRoutes.Added | backend/src/routes/sessions.ts:38-41 | `subscribe` adds the stream to the session's set and touches no other session's set; the set stays non-empty and free of repeats |
| SessionRoutes.Without | backend/src/routes/sessions.ts:46 | `delete` removes exactly the stream, keeps a set free of repeats, and changes nothing when the stream is absent |
| SessionRoutes.Removed | backend/src/routes/sessions.ts:43-48 | the unsubscribe closure removes exactly the stream from the session's set, deletes the key once the set is empty, and touches no other session |
| SessionRoutes.UnsubscribeIdempotent | backend/src/routes/sessions.ts:43-48 | calling the unsubscribe closure a second time changes nothing |
| SessionRoutes.SubscribeThenUnsubscribe | backend/src/routes/sessions.ts:38-48 | subscribing a new stream and then unsubscribing it restores the subscriber map exactly, key deletion included |
| SessionRoutes.WithoutLast | backend/src/routes/sessions.ts:46 | removing a stream just added to a set that lacked it gives the old set back |
| SessionRoutes.Deliveries | backend/src/routes/sessions.ts:32-36 | `publish` sends one message per subscriber, in subscriber order |
| SessionRoutes.DeliveredOnce | backend/src/routes/sessions.ts:32-36 | each subscriber gets the message, and exactly once |
| SessionRoutes.SseName | backend/src/routes/sessions.ts:101 | an error event goes out as `orchestrator_error`, every other event under its own type |
| SessionRoutes.CallbackDeliveries | backend/src/routes/sessions.ts:101-111 | the callback first publishes the event itself, and publishes one `complete` more exactly when the updated status is complete or error |
| SessionRoutes.NotComplete | backend/src/routes/sessions.ts:101 | no orchestrator event goes out under the name `complete` |
| SessionRoutes.CompletePublished | backend/src/routes/sessions.ts:101-111 | a `complete` message is sent exactly when someone listens and the event leaves the stored session complete or in error |
| SessionRoutes.FailedRunNeverTerminal | backend/src/routes/sessions.ts:88-111 | a research run that fails never leaves the stored session complete or in error after any of its events, so no `complete` is sent |
| SessionRoutes.CompletedRunTerminal | backend/src/routes/sessions.ts:88-111 | a research run that succeeds leaves the stored session complete |
| SessionRoutes.AppendInOrder | backend/src/routes/sessions.ts:175-183 | appending snapshot entries of a higher rank keeps the snapshot in order |
| SessionRoutes.DebatePart | backend/src/routes/sessions.ts:180-182 | one `debate_message` entry per transcript message, in transcript order |
| SessionRoutes.RankValues | backend/src/routes/sessions.ts:175-183 | status, context, contexts, participants, debate messages and conclusion are sent in that order |
| SessionRoutes.HeadInOrder | backend/src/routes/sessions.ts:176-179 | the snapshot starts with the status, then each present context, contexts and participants part once, in that order |
| SessionRoutes.SnapshotOrder | backend/src/routes/sessions.ts:175-183 | the whole snapshot: status first, each optional part at most once, every debate message in transcript order, the conclusion last and only when non-empty |
| SessionRoutes.SnapshotEventsAppend | backend/src/routes/sessions.ts:175-183 | the events a snapshot carries distribute over concatenation |
| SessionRoutes.DebatePartEvents | backend/src/routes/sessions.ts:180-182 | the debate part of the snapshot carries exactly the transcript's debate message events |
| SessionRoutes.HeadEvents | backend/src/routes/sessions.ts:176-179 | the head of the snapshot carries the status event and, when present, the participants event |
| SessionRoutes.SnapshotRebuilds | backend/src/routes/sessions.ts:51-183 | a client that applies the snapshot's events to a session without a transcript rebuilds the stored status, participants, transcript and conclusion |
| SessionRoutes.ValidateTopic | backend/src/routes/sessions.ts:15-150 | the topic is accepted exactly when its length in UTF-16 units is between 10 and 1000, and each failure has its own message |
| SessionRoutes.NewSession | backend/src/routes/sessions.ts:132-140 | the new session is idle, has no messages, and has no question, transcript, participants, conclusion, plan or answer |
| SessionRoutes.SessionHub.constructor | backend/src/routes/sessions.ts:10-13 | both maps start empty and nothing has been sent |
| SessionRoutes.SessionHub.Publish | backend/src/routes/sessions.ts:32-36 | the outbox grows by one delivery per current subscriber; sessions and subscribers are unchanged |
| SessionRoutes.SessionHub.Subscribe | backend/src/routes/sessions.ts:38-42 | the subscribers become `Added(old, id, x)` and the subscriber invariant is kept |
| SessionRoutes.SessionHub.Unsubscribe | backend/src/routes/sessions.ts:43-48 | the subscribers become `Removed(old, id, x)` and the subscriber invariant is kept |
| SessionRoutes.SessionHub.OnEvent | backend/src/routes/sessions.ts:88-111 | for a stored session: the session becomes `ApplyEventToSession(old, e)` and the outbox grows by `CallbackDeliveries`; for an unknown id nothing changes |
| SessionRoutes.SessionHub.PublishIfTerminal | backend/src/routes/sessions.ts:104-110 | the outbox grows by one `complete` delivery per subscriber exactly when the status is complete or error, and by nothing otherwise; sessions and subscribers are unchanged |
| SessionRoutes.SessionHub.OnRejection | backend/src/routes/sessions.ts:112-124 | for a stored session: the status becomes error, and each subscriber is sent the failure and then `complete`; for an unknown id nothing changes |
| SessionRoutes.SessionHub.CreateSession | backend/src/routes/sessions.ts:127-155 | an invalid topic yields its validation message and stores nothing; a valid one stores `NewSession` under the new id and returns that id |
| SessionRoutes.SessionHub.GetSession | backend/src/routes/sessions.ts:192-202 | succeeds exactly when the id is stored and returns that session; otherwise "Session not found" |
| SessionRoutes.SessionHub.OpenStream | backend/src/routes/sessions.ts:157-190 | for an unknown id: "Session not found" and nothing changes; otherwise the new stream is sent the snapshot and is then subscribed |
| SessionRoutes.SnapshotDeliveries | backend/src/routes/sessions.ts:170-183 | each snapshot entry is sent to the new stream, in order |
| BasicOrchestrator.Take | backend/src/orchestrator/basicOrchestrator.ts:181-207 | `slice(0, n)` keeps the first `min(n, length)` entries |
| BasicOrchestrator.StripDash | backend/src/orchestrator/basicOrchestrator.ts:144 | `replace(/^-\s*/, "")` drops the leading dash and the white space after it |
| BasicOrchestrator.ParsePlanProperties | backend/src/orchestrator/basicOrchestrator.ts:137-150 | a plan always has a search text; each one comes from a non-blank line starting with "-", is non-empty and trimmed, and the question is the only one when there is none; the plan text is the joined non-dash lines, or else at most 200 UTF-16 units from the start of the reply |
| BasicOrchestrator.TrimTrimmed | backend/src/orchestrator/basicOrchestrator.ts:144 | trimming is idempotent |
| BasicOrchestrator.CreateResearchPlan | backend/src/orchestrator/basicOrchestrator.ts:121-151 | a missing question throws at `substring` before any call; a failed planner call fails with its message; a plan produced has at least one search text |
| BasicOrchestrator.FirstIndex | backend/src/orchestrator/basicOrchestrator.ts:178 | the leftmost position of a character, or None exactly when it is absent |
| BasicOrchestrator.LastIndex | backend/src/orchestrator/basicOrchestrator.ts:178 | the rightmost position of a character, or None exactly when it is absent |
| BasicOrchestrator.JsonArrayText | backend/src/orchestrator/basicOrchestrator.ts:178-191 | `/\[[\s\S]*\]/` matches from the first "[" to the last "]", and fails exactly when either is missing or the last "]" comes before the first "[" |
| BasicOrchestrator.Tagged | backend/src/orchestrator/basicOrchestrator.ts:182-195 | each source is kept as it is, with its hunter set |
| BasicOrchestrator.IntakeBounds | backend/src/orchestrator/basicOrchestrator.ts:176-200 | a hunter contributes at most six sources, all tagged with that hunter, and nothing when no array text is found |
| BasicOrchestrator.Urls | backend/src/orchestrator/basicOrchestrator.ts:203 | the url of each source, in order |
| BasicOrchestrator.FindUrl | backend/src/orchestrator/basicOrchestrator.ts:203 | the leftmost entry with a url, or None exactly when no entry has it |
| BasicOrchestrator.DedupUrls | backend/src/orchestrator/basicOrchestrator.ts:203 | the `Map` merge keeps pairwise distinct urls, and exactly the urls of the input |
| BasicOrchestrator.DedupStep | backend/src/orchestrator/basicOrchestrator.ts:203 | `map.set` either overwrites the entry with the same url in place or appends a new entry at the end |
| BasicOrchestrator.DedupKeepsLast | backend/src/orchestrator/basicOrchestrator.ts:203 | each merged entry is the last input source with its url |
| BasicOrchestrator.FirstUrlIndexOfInit | backend/src/orchestrator/basicOrchestrator.ts:203 | the first occurrence of a url is unchanged by appending, or is the appended source when the url is new |
| BasicOrchestrator.DedupFirstOrder | backend/src/orchestrator/basicOrchestrator.ts:203 | merged entries follow the order in which their urls first occur |
| BasicOrchestrator.DedupByUrl | backend/src/orchestrator/basicOrchestrator.ts:203 | the loop computes the `Map` merge |
| BasicOrchestrator.Fallback | backend/src/orchestrator/basicOrchestrator.ts:206-212 | one placeholder per search text, for at most the first four, with title, url `source-<idx + 1>`, snippet and hunter A |
| BasicOrchestrator.FallbackUrlInjective | backend/src/orchestrator/basicOrchestrator.ts:209 | different indices give different placeholder urls |
| BasicOrchestrator.FallbackDistinct | backend/src/orchestrator/basicOrchestrator.ts:206-212 | the placeholders have pairwise distinct urls |
| BasicOrchestrator.SelectedProperties | backend/src/orchestrator/basicOrchestrator.ts:202-215 | at most eight sources with distinct urls; with contributions, each kept one is the last with its url, in first-occurrence order, and no url is lost unless there were more than eight; without any, the placeholders |
| BasicOrchestrator.HuntProperties | backend/src/orchestrator/basicOrchestrator.ts:153-216 | the hunt fails exactly when a hunter call fails, with hunter A's error first; on success at most eight sources with distinct urls, and none only when there are no search texts and no contributions |
| BasicOrchestrator.PushParsed | backend/src/orchestrator/basicOrchestrator.ts:176-187 | the loop appends exactly the hunter's intake |
| BasicOrchestrator.FindSources | backend/src/orchestrator/basicOrchestrator.ts:153-216 | `findSources` computes `HuntSources` |
| BasicOrchestrator.FindRating | backend/src/orchestrator/basicOrchestrator.ts:237 | the leftmost case-insensitive match of `Rating:\s*(\d)` at or after a position, or None when there is none |
| BasicOrchestrator.QualityRating | backend/src/orchestrator/basicOrchestrator.ts:237-246 | the matched digit clamped into 1 to 5, and 3 when nothing matches |
| BasicOrchestrator.FindLower | backend/src/orchestrator/basicOrchestrator.ts:238 | the leftmost case-insensitive occurrence of a literal at or after a position |
| BasicOrchestrator.CritiqueGroup | backend/src/orchestrator/basicOrchestrator.ts:238 | the group of `Critique:\s*(.+)` is non-empty, and absent when "critique:" does not occur |
| BasicOrchestrator.CritiqueText | backend/src/orchestrator/basicOrchestrator.ts:241-242 | the trimmed group, or "No critique available" when there is none |
| BasicOrchestrator.CritiquedProperties | backend/src/orchestrator/basicOrchestrator.ts:222-257 | title, url, snippet and hunter are kept; the rating lies in 1 to 5 and a critique is set; a failed call gives 3 and "Critique unavailable" |
| BasicOrchestrator.CritiqueSources | backend/src/orchestrator/basicOrchestrator.ts:218-262 | one critiqued source per input source, in order |
| BasicOrchestrator.CritiquedAll | backend/src/orchestrator/basicOrchestrator.ts:218-262 | the same, as a function |
| BasicOrchestrator.RatingExampleDigit | backend/src/orchestrator/basicOrchestrator.ts:237-246 | "Rating: 4" rates 4 |
| BasicOrchestrator.RatingExampleClamped | backend/src/orchestrator/basicOrchestrator.ts:237-246 | "rating:9" matches case-insensitively and is clamped to 5 |
| BasicOrchestrator.RatingExampleDefault | backend/src/orchestrator/basicOrchestrator.ts:237-246 | a reply without a rating digit rates 3 |
| BasicOrchestrator.CountsAppend | backend/src/orchestrator/basicOrchestrator.ts:76-105 | status and error counts distribute over concatenated events |
| BasicOrchestrator.CountsOne | backend/src/orchestrator/basicOrchestrator.ts:18-72 | one event contributes its status or one error |
| BasicOrchestrator.CountsCons | backend/src/orchestrator/basicOrchestrator.ts:76-105 | the counts of an event followed by more events |
| BasicOrchestrator.AfterHuntShape | backend/src/orchestrator/basicOrchestrator.ts:88-104 | after the hunt: critiquing, debating and complete statuses, no error event, and a completed session on success |
| BasicOrchestrator.AfterPlanShape | backend/src/orchestrator/basicOrchestrator.ts:85-104 | after planning: hunting onwards, as far as it got, with no error event |
| BasicOrchestrator.FullOrchestrationShape | backend/src/orchestrator/basicOrchestrator.ts:76-105 | statuses follow planning, hunting, critiquing, debating, complete as far as the run got; it succeeds exactly when all five are emitted, and then ends with complete |
| BasicOrchestrator.OrchestrateProperties | backend/src/orchestrator/basicOrchestrator.ts:58-119 | the status sequence is a prefix of the flow; the run completes exactly when no phase failed, with the plan, sources and answer set; otherwise exactly one error event ends it, carrying the failure's message, and the session is the original one with status error |
| BasicOrchestrator.RouteSessionFails | backend/src/orchestrator/basicOrchestrator.ts:26-134 | a session without a question ends in error at planning, whatever the model replies |
| BasicOrchestrator.WithQuestion | backend/src/routes/sessions.ts:132-140 | the session with its topic as its question, when it has none |
| BasicOrchestrator.AnsweredRunCompletes | backend/src/orchestrator/basicOrchestrator.ts:76-105 | with a question, a run completes whenever every model call succeeds |
| BasicOrchestrator.TopicRunCompletes | backend/src/orchestrator/basicOrchestrator.ts:76-119 | a route session given its topic as question completes whenever every call succeeds, with all five statuses |
| BasicOrchestrator.ResearchRun.constructor | backend/src/orchestrator/basicOrchestrator.ts:10 | no event has been emitted yet |
| BasicOrchestrator.ResearchRun.Emit | backend/src/orchestrator/basicOrchestrator.ts:10 | `onEvent` appends the event |
| BasicOrchestrator.ResearchRun.UpdateSessionStatus | backend/src/orchestrator/basicOrchestrator.ts:12-20 | the session with the new status, and one status event |
| BasicOrchestrator.ResearchRun.ExecutePlanningPhase | backend/src/orchestrator/basicOrchestrator.ts:22-29 | the plan, followed by a plan event only on success |
| BasicOrchestrator.ResearchRun.ExecuteHuntingPhase | backend/src/orchestrator/basicOrchestrator.ts:31-35 | the sources, followed by a sources event only on success |
| BasicOrchestrator.ResearchRun.ExecuteCritiquingPhase | backend/src/orchestrator/basicOrchestrator.ts:37-45 | the critiqued sources and one sources event |
| BasicOrchestrator.ResearchRun.ExecuteSynthesisPhase | backend/src/orchestrator/basicOrchestrator.ts:47-56 | the answer, followed by an answer event only on success |
| BasicOrchestrator.ResearchRun.ExecuteFullOrchestration | backend/src/orchestrator/basicOrchestrator.ts:76-105 | emits exactly the events of `FullOrchestration` and returns its outcome |
| BasicOrchestrator.ResearchRun.HandleOrchestrationError | backend/src/orchestrator/basicOrchestrator.ts:58-74 | one error event with the message, and the session with status error |
| BasicOrchestrator.ResearchRun.RunBasicOrchestration | backend/src/orchestrator/basicOrchestrator.ts:107-119 | emits exactly the events of `Orchestrate` and returns its session |
| LintLanguage.Entries | scripts/lint-ubiquitous-language.js:20-48 | each table term is paired with its own alternatives, in declaration order |
| LintLanguage.ShouldIgnoreFile | scripts/lint-ubiquitous-language.js:63-78 | a path is skipped exactly when one of the ignore fragments occurs in it |
| LintLanguage.TestsAndScriptsIgnored | scripts/lint-ubiquitous-language.js:72-73 | a path containing "test" or "scripts" is never scanned |
| LintLanguage.FoldsFromChars | scripts/lint-ubiquitous-language.js:92 | the case-insensitive comparison of a term at a position is character-wise equality of ASCII lower-case forms |
| LintLanguage.Matches | scripts/lint-ubiquitous-language.js:92-93 | every position `matchAll` yields is a whole-word, case-insensitive match of the term |
| LintLanguage.MatchesApart | scripts/lint-ubiquitous-language.js:92-93 | successive matches never overlap |
| LintLanguage.MatchesComplete | scripts/lint-ubiquitous-language.js:92-93 | every place the pattern matches is yielded unless it lies inside an earlier yielded match |
| LintLanguage.FirstMatchFound | scripts/lint-ubiquitous-language.js:92-93 | a match that no earlier match overlaps is always yielded |
| LintLanguage.ForbiddenTermsLetterEnds | scripts/lint-ubiquitous-language.js:20-48 | every table term starts and ends with a letter |
| LintLanguage.CompoundNeverFires | scripts/lint-ubiquitous-language.js:96-105 | for such a term, whole-word matching already rules out a neighbouring letter, so the compound-word filter never drops a match |
| LintLanguage.EveryMatchReported | scripts/lint-ubiquitous-language.js:95-115 | for such a term, every match position gives exactly one issue, in order |
| LintLanguage.TermIssuesAreMatches | scripts/lint-ubiquitous-language.js:90-116 | the issues of one term on a line are its matches, one each |
| LintLanguage.MatchSpellsTerm | scripts/lint-ubiquitous-language.js:92-111 | the matched text spells the term, ignoring ASCII case |
| LintLanguage.ReportedSound | scripts/lint-ubiquitous-language.js:95-115 | each pushed issue names the file, the 1-based line, kind "forbidden", the quote, and a term it spells with that term's alternatives |
| LintLanguage.TermsFromSound | scripts/lint-ubiquitous-language.js:90-116 | the same for every term of the table |
| LintLanguage.LinesFromSound | scripts/lint-ubiquitous-language.js:84-117 | every issue names an existing line that is not a comment, quotes it, and matches a table term whose alternatives it carries |
| LintLanguage.ReportedOnLine | scripts/lint-ubiquitous-language.js:107-109 | every issue raised on a line names that line |
| LintLanguage.TermsFromOnLine | scripts/lint-ubiquitous-language.js:90-116 | all issues of a line name that line |
| LintLanguage.ConcatOrdered | scripts/lint-ubiquitous-language.js:84-117 | a line's issues followed by those of later lines stay in line order |
| LintLanguage.LinesFromOrdered | scripts/lint-ubiquitous-language.js:84-117 | issues come in line order |
| LintLanguage.TermsReportedSeparately | scripts/lint-ubiquitous-language.js:90-116 | a match of one term hides no match of another |
| LintLanguage.LineReportsEveryTerm | scripts/lint-ubiquitous-language.js:84-117 | on a non-comment line every non-overlapped match of every table term is reported, so "chat" and "chat message" at one place give two issues |
| LintLanguage.ForbiddenIssuesProperties | scripts/lint-ubiquitous-language.js:80-120 | soundness and line order of `checkForbiddenTerms` over a whole file |
| LintLanguage.ScanMatch | scripts/lint-ubiquitous-language.js:95-115 | a match is pushed unless the filter drops it, and the scan resumes past it |
| LintLanguage.ScanStart | scripts/lint-ubiquitous-language.js:93 | nothing is pushed before the scan starts |
| LintLanguage.ScanSkip | scripts/lint-ubiquitous-language.js:93 | without a match the scan moves on one place and pushes nothing |
| LintLanguage.ScanTerm | scripts/lint-ubiquitous-language.js:92-115 | the `matchAll` loop of one term computes `TermIssues` |
| LintLanguage.ScanLine | scripts/lint-ubiquitous-language.js:85-116 | one line's loop computes `LineIssues`: nothing for a comment line |
| LintLanguage.ScanTerms | scripts/lint-ubiquitous-language.js:90-116 | the inner loop over the term table collects exactly `TermsFrom` from the first term, in table order |
| LintLanguage.CheckTerms | scripts/lint-ubiquitous-language.js:80-120 | the nested loops compute the issues of every line in order |
| LintLanguage.CheckForbiddenTerms | scripts/lint-ubiquitous-language.js:80-120 | `checkForbiddenTerms` with the script's table |
| ScriptText.Quote | scripts/lint-ubiquitous-language.js:113 | the quote is a prefix of the trimmed line of at most 80 UTF-16 units; it is the whole trimmed line when that is short enough, and otherwise exactly 80 units, or 79 when unit 80 would split a surrogate pair |
| ScriptText.ContainsAnyIff | scripts/lint-ubiquitous-language.js:76-78 | some fragment matches exactly when some fragment occurs at some index |
| ScriptText.ContainsAnyExtends | frontend/scripts/check-design-tokens.js:58-68 | a text containing a fragment still contains it after more is appended |
| DesignTokens.ShouldIgnoreFile | frontend/scripts/check-design-tokens.js:46-72 | a path is skipped exactly when one of the ignore fragments occurs in it |
| DesignTokens.AllowedContextIff | frontend/scripts/check-design-tokens.js:58-77 | a match is excused exactly when an allowed fragment occurs in the line before it, measured in UTF-16 units |
| DesignTokens.AllowedContextPersists | frontend/scripts/check-design-tokens.js:74-77 | once a match is excused, every later match on the line is excused too |
| DesignTokens.MatchIssuesSound | frontend/scripts/check-design-tokens.js:89-107 | each issue pushed for a pattern names the file, the 1-based line, the category, and the text of a kept match of that pattern, and quotes the trimmed line |
| DesignTokens.PatternsFromSound | frontend/scripts/check-design-tokens.js:87-108 | the same for every pattern of a category |
| DesignTokens.CategoriesFromSound | frontend/scripts/check-design-tokens.js:86-109 | the same for every category |
| DesignTokens.LinesFromSound | frontend/scripts/check-design-tokens.js:84-110 | every issue names an existing non-comment line and a kept match on it |
| DesignTokens.MatchIssuesComplete | frontend/scripts/check-design-tokens.js:89-107 | every kept match of a pattern is pushed |
| DesignTokens.PatternsFromComplete | frontend/scripts/check-design-tokens.js:87-108 | every kept match of every later pattern of a category is pushed |
| DesignTokens.CategoriesFromComplete | frontend/scripts/check-design-tokens.js:86-109 | every kept match of every later category is pushed |
| DesignTokens.LinesFromComplete | frontend/scripts/check-design-tokens.js:84-110 | every match on a non-comment line with no allowed context before it is reported |
| DesignTokens.CategoriesFromOnLine | frontend/scripts/check-design-tokens.js:100-106 | all issues of a line name that line |
| DesignTokens.ConcatOrdered | frontend/scripts/check-design-tokens.js:84-110 | a line's issues followed by those of later lines stay in line order |
| DesignTokens.LinesFromOrdered | frontend/scripts/check-design-tokens.js:84-110 | issues come in line order |
| DesignTokens.FileIssuesProperties | frontend/scripts/check-design-tokens.js:79-113 | `checkFile` reports exactly the kept matches, each once per pattern and category, in line order |
| DesignTokens.ScanMatches | frontend/scripts/check-design-tokens.js:88-107 | the loop over one pattern's matches computes `MatchIssues` |
| DesignTokens.ScanCategory | frontend/scripts/check-design-tokens.js:87-108 | the loop over a category's patterns computes `PatternsFrom` |
| DesignTokens.ScanLine | frontend/scripts/check-design-tokens.js:86-109 | the loop over the categories of one line computes `CategoriesFrom` |
| DesignTokens.CheckFile | frontend/scripts/check-design-tokens.js:79-113 | the nested loops compute `FileIssues` |
| AnswerDisplay.CitationAt | frontend/src/components/AnswerDisplay/AnswerDisplay.tsx:20-24 | a match of `\[(\d+)\]` at a position spans an opening bracket, at least one digit and a closing bracket, with no other bracket inside |
| AnswerDisplay.OccurrencesSound | frontend/src/components/AnswerDisplay/AnswerDisplay.tsx:20-24 | every number the `exec` loop reports is spelt by a bracketed citation in the answer |
| AnswerDisplay.OccurrencesComplete | frontend/src/components/AnswerDisplay/AnswerDisplay.tsx:20-24 | every bracketed citation in the answer is reported |
| AnswerDisplay.OccurrencesIff | frontend/src/components/AnswerDisplay/AnswerDisplay.tsx:20-24 | a number is reported exactly when a bracketed citation spells it |
| AnswerDisplay.FirstOccurrencesMembers | frontend/src/components/AnswerDisplay/AnswerDisplay.tsx:25-27 | the de-duplicated list holds exactly the numbers seen |
| AnswerDisplay.FirstOccurrencesDistinct | frontend/src/components/AnswerDisplay/AnswerDisplay.tsx:25-27 | the de-duplicated list has no number twice |
| AnswerDisplay.FirstIndex | frontend/src/components/AnswerDisplay/AnswerDisplay.tsx:25-27 | the index at which a number is first seen |
| AnswerDisplay.FirstIndexOfPrefix | frontend/src/components/AnswerDisplay/AnswerDisplay.tsx:25-27 | where a number is first seen does not change when more is seen after it |
| AnswerDisplay.FirstOccurrencesOrdered | frontend/src/components/AnswerDisplay/AnswerDisplay.tsx:25-27 | the list follows the order in which numbers are first seen |
| AnswerDisplay.CitationsProperties | frontend/src/components/AnswerDisplay/AnswerDisplay.tsx:11-28 | for an answer: no number twice, a number listed exactly when `[n]` occurs in it, in first-seen order |
| AnswerDisplay.FirstOccurrencesSnoc | frontend/src/components/AnswerDisplay/AnswerDisplay.tsx:25-27 | seeing one more number appends it exactly when it is new |
| AnswerDisplay.ExtractCitations | frontend/src/components/AnswerDisplay/AnswerDisplay.tsx:11-28 | a missing or empty answer returns the placeholder before any scan; otherwise the loop computes the citation list (which the component never renders) |
| JsString.Trim | backend/src/orchestrator/basicOrchestrator.ts:137-144 | `trim` removes exactly the white space at both ends, and is empty exactly for all-white-space text |
| JsString.TrimIsInfix | backend/src/orchestrator/basicOrchestrator.ts:144 | `trim` keeps one contiguous piece of its input |
| JsString.TrimIdempotent | backend/src/orchestrator/basicOrchestrator.ts:144 | trimming twice is trimming once |
| JsString.IndexOf | frontend/scripts/check-design-tokens.js:76 | the leftmost occurrence at or after a position, or None when there is none |
| JsString.ContainsIff | frontend/scripts/check-design-tokens.js:76 | `includes` holds exactly when the fragment occurs at some index |
| JsString.Split | backend/src/orchestrator/basicOrchestrator.ts:137 | `split` on a one-character separator gives at least one part, none containing the separator |
| JsString.JoinSplit | backend/src/orchestrator/basicOrchestrator.ts:137 | joining the parts with the separator gives the text back |
| JsString.PrefixCut | scripts/lint-ubiquitous-language.js:113 | a cut at n units of a longer text keeps exactly n units, or n - 1 when the next character is a surrogate pair that the cut would split |
| JsString.Prefix | backend/src/orchestrator/basicOrchestrator.ts:148 | `substring(0, n)` keeps a prefix of at most n UTF-16 units, and the whole text when it is short enough |
| JsString.DigitsValueOfNatToString | frontend/src/components/AnswerDisplay/AnswerDisplay.tsx:24 | `parseInt` of the decimal text of a number gives the number back |

## Left out

- Model calls and HTTP: `callProvider`, `callAgent` and the OpenRouter request (axios, API keys, headers, timeouts) are oracles. Each returns a reply text or an error message. `selectProviderIdForPersona`, `getAgentLabel` and `getAgentDisplayName` are not part of this model: they are imported by the debate engine but not shown. Where their results matter they are oracle fields of the `Gateway`.
- Concurrency, in the debate rounds: the `Promise.all` of the parallel rounds is an order-preserving sequential map over the participants. Message ids and events are therefore assigned in participant order; the running program assigns them in completion order. The interleaving of events from concurrent calls is not modelled.
- Concurrency, in the research pipeline: `findSources` awaits both hunters together, and the error it reports is the first rejection in time. The model reports hunter A's error before hunter B's.
- Concurrency, in the session route: the background promise of `startOrchestrationInBackground` is modelled as the callback applied to each event in turn.
- Randomness: `Math.random` in `getCrossFireTarget` is the `targetIndex` parameter. `createSessionId` is left out: the route takes the new id as a parameter.
- Clocks: `Date.now`, `new Date()`, `createdAt`/`updatedAt` and every timestamp are left out. A message id is reduced to the value of the message counter.
- DebateSelection.Mulberry32.Next: the generator keeps its state modulo 2^32. The source's `t` is an unbounded JavaScript number, and the two agree while `t` stays below 2^53, which holds for about 4.9 million draws. The float `x / 4294967296` is not formed: the swap index is the exact integer `(x * (i + 1)) div 2^32`, which is what `Math.floor(rng() * (i + 1))` computes.
- JsString.DigitsValue: `parseInt` is modelled without loss of precision. A cited number or score with more than 15 digits is rounded by the source and not by the model.
- Library parsing: `JSON.parse` of a hunter's array text is an oracle. The zod schema is reduced to its topic bound of 10 to 1000 characters.
- Regular expressions are hand-coded as the matchers the source uses. The design-token patterns are the one exception: their matches are the `find` parameter.
- Express, the text/event-stream wire format and the HTTP status codes: a sent event is a `Delivery` record in an outbox, and a 404 is a `Failure`.
- React and JSX rendering: a badge is its colour tone.
- Frontend-only state and types: the zustand stores, `EventSource` and the frontend copy of the session types (which differ only in timestamp types) are not part of this model.
- The lint scripts' file handling: `scanDirectory`, `readFileSync`, `main`, the printed report and `process.exit` are left out. A file is scanned from its text.
- `REQUIRED_TERMS` of the language lint is declared but never read by the script, and is not modelled.
- Console logging everywhere is left out. The only part of it kept is the `question.substring` call, because it throws.
- OpenRouter.LookupProviderId: the table is a Dafny map. A role named after an `Object.prototype` member, such as "toString", finds nothing in the model, while the JavaScript lookup finds an inherited function. No `AgentRole` has such a name.
- JsString.Prefix: when `substring(0, n)` cuts inside a surrogate pair, JavaScript keeps the lone high surrogate and the model drops the whole astral character, so the model's text is one unit shorter. A Dafny `char` cannot hold a lone surrogate. `JsString.PrefixCut` states that this is the only way the model's cut differs. The members that cut text are `ScriptText.Quote` (80 units, both lint scripts), `DebateText.RecapLine` (200 units), the `ParsePlan` fallback of `BasicOrchestrator` (200 units) and `DesignTokens.IsAllowedContext`. For `IsAllowedContext` the difference cannot arise, because a match index falls on a character boundary.
- ScriptText.Quote: an 80-unit quote that ends inside a surrogate pair keeps 79 units in the model and 80 in JavaScript, whose last unit is a lone high surrogate. The contract states the 79-unit case outright.
- DebateTimeline.TimelineOfDebate: proves the rendering the code intends, in which every round's messages appear in their section. As written, `DEBATE_ROUND_TYPES.PITCH`, `CROSS_FIRE`, `STRESS_TEST`, `STEEL_MAN` and `CONSENSUS` are `undefined` (`ubiquitousLanguage.ts:63-68` does not define them), so every debate message's `round` is `undefined`. Then `m.round === round` in `DebateTimeline.tsx:262` matches no round, and the real timeline renders no section. The orchestrator tests compare `undefined` with `undefined` and pass. The model's message type has no absent round, so this outcome is not modelled.
- DebateTimeline.PositionBadge: the colour table is a map. `colors[position] || colors.neutral` on a JavaScript object literal also finds keys inherited from `Object.prototype`, such as "constructor", "toString" or "__proto__". For those the class name becomes the inherited value and the neutral fallback does not apply. The model gives the muted colour to every unknown position. The engine only emits the four positions.
- LintLanguage.ForbiddenIssuesProperties: states line order only. Within a line, issues follow table order and then match position; that order is fixed by `LinesFrom`/`TermsFrom`/`Matches`, which `CheckForbiddenTerms` is proved to compute, but it is not restated as a lemma of its own.
- DesignTokens.FileIssuesProperties: states line order only. Within a line, issues follow category, pattern and match order, fixed by the definition `CheckFile` is proved to compute.

## Findings

| source | as written | input that shows it | evidently intended | confidence | as-written member | corrected member |
|---|---|---|---|---|---|---|
| backend/src/routes/sessions.ts:132-140 | the session created by `POST /` has a topic but no `question`. `runBasicOrchestration` passes `session.question` to `createResearchPlan`, whose `question.substring(0, 50)` throws, so every research run started by the route ends in error at planning | any valid topic, e.g. `{"topic": "Is remote work good for cities?"}` | the session researches its topic: with the topic as its question, a run whose model calls all succeed completes with the five statuses in order | not executed | BasicOrchestrator.RouteSessionFails | BasicOrchestrator.TopicRunCompletes |
