# InsightSmith consultant: a verified model of the rule-based core

InsightSmith is a consulting chat application. A user writes (or speaks) a
question. The backend answers in three conversation modes: `guide` (supportive),
`socrates` (questions back) and `hard` (blunt). Each answer has a fixed
structure: active listening, knowledge steps A/B/C, a feedback question and a
menu of next actions.

This project models the deterministic part of that system in Dafny and proves
what it promises.

**Express backend (`backend/src`)**
- The keyword mode detector and its confidence score.
- The in-memory session service with its one-hour sweep and statistics.
- The chat controller: validation, session resolution, quick actions, mode
  choice, message bookkeeping.
- The rule-based response composer.
- The mock web search and its summary.

**Second server (`server/`)**
- The in-memory storage of users, chat sessions and voice interactions.
- The session and message bookkeeping of the REST routes.

**Client**
- The zustand chat store of the frontend.
- The transcript filter and counts.
- The recording timer text, the language guess and the voice settings.

## How the model is written

- **Imperative code becomes classes and methods.** Code that mutates state is
  modelled as classes with `modifies` frames (`Sessions.SessionService`,
  `Storage.MemStorage`). Loops become `while` loops with invariants. Each
  method is proved against a specification function, and the properties are
  lemmas about those functions.
- **Pure code becomes functions.** Code that only computes is modelled as
  functions and lemmas (`ModeDetector`, `WebSearch`, `ChatStore`,
  `TranscriptHistory`, `VoiceUtils`).
- **Insertion order is kept beside each map.** A JavaScript `Map` is a Dafny
  `map` plus a `seq` of keys in insertion order, because the source iterates
  over entries in that order: the sweep, the lookup by user name, the cascade
  delete. `Valid()` ties the two together.
- **Outside effects are parameters.** uuids, `Date.now()` and the ISO time
  stamps are parameters, as are the mode detector's phrase table (its module
  is not part of this model), `JSON.stringify`, `toLocaleDateString` and the
  LLM and voice services. A fresh id must not already be a key.
- **The controller's AI service is injected.** The chat controller is proved
  for any `Composer`, a function from message and mode to a response. That
  mirrors its `aiService` field, which is the only way it reaches the
  composer. `ChatController.ServiceComposer` is the composer built from
  `AiService.GenerateResponse`, and `ChatController.ServiceComposerKeepsMode`
  states what the controller then returns.
- **Confidence is an integer.** It is counted in tenths: 0.8 is 8 and 1.0 is 10.
- **Lower-casing is ASCII-only.** `toLowerCase` maps `A`–`Z` only. The help
  and switch phrases, the search triggers and the intent, emotion and
  constraint keywords are Japanese, digits or lower-case ASCII, so lowering
  leaves them as they are in both readings.
- **String positions count UTF-16 code units.** JavaScript's `indexOf` and
  `length` count UTF-16 code units, and a character above U+FFFF takes two.
  `Text.Utf16Length` and `Text.Utf16IndexOf` count them that way, and the
  confidence score uses them.

Files:
- `text.dfy`: truthiness, lower-casing, substring search, UTF-16 lengths, join, decimal printing and parsing, `padStart`.
- `conversation.dfy`: the shared response types.
- `mode_detector.dfy`, `session_service.dfy`, `web_search.dfy`, `ai_service.dfy`, `chat_controller.dfy`: the backend.
- `schema.dfy`, `storage.dfy`, `routes.dfy`: the second server.
- `store.dfy`, `transcript.dfy`, `voice_utils.dfy`: the client.

## Model

| member | source | states |
|---|---|---|
| Text.Utf16Length | backend/src/utils/modeDetector.ts:56 | `length` counts one or two code units per character, so it lies between the character count and twice it. |
| Text.Utf16LengthBmp | backend/src/utils/modeDetector.ts:56 | Without characters above U+FFFF, the code-unit length is the character count. |
| Text.Utf16LengthAstral | backend/src/utils/modeDetector.ts:56 | When every character is above U+FFFF, the code-unit length is twice the character count. |
| Text.Utf16IndexOf | backend/src/utils/modeDetector.ts:48 | `indexOf` in code units is -1 or 0 exactly when the character index is, and never smaller than it. |
| ModeDetector.CalculateConfidence | backend/src/utils/modeDetector.ts:43-61 | Every score is 8, 9 or 10 tenths, and a first occurrence at index 0 scores 10. |
| ModeDetector.ConfidenceByPosition | backend/src/utils/modeDetector.ts:48-57 | At UTF-16 index 1..10 a phrase scores 9, or 10 when it is longer than five code units. Beyond index 10 it scores 8, or 9 for such a phrase. |
| ModeDetector.AstralCharactersCountTwice | backend/src/utils/modeDetector.ts:48-57 | Six emoji before "ab" put it at character 6 but code unit 12, so it scores 0.8, not 0.9. |
| ModeDetector.BmpConfidence | backend/src/utils/modeDetector.ts:43-61 | Without characters above U+FFFF, the score is the same formula over character positions and lengths. |
| ModeDetector.DetectMode | backend/src/utils/modeDetector.ts:8-38 | The nested loops over the phrase table return exactly `Detect` of the lower-cased message. |
| ModeDetector.Detect | backend/src/utils/modeDetector.ts:8-38 | `detectMode` as a value. Its properties are stated by `DetectWithoutMatch`, `DetectConfidenceRange`, `DetectTriggerIffMatch`, `DetectIsMaximal` and `DetectTieGoesToFirst`. |
| ModeDetector.FirstBestExtend | backend/src/utils/modeDetector.ts:16-23 | One more candidate takes over as the best exactly when it matches and scores strictly higher; otherwise the earlier best stays. |
| ModeDetector.ScanFindsFirstBest | backend/src/utils/modeDetector.ts:15-26 | With no matching phrase the scan keeps its initial state. Otherwise it ends on the first matching phrase of maximal score. |
| ModeDetector.CandidateOrigin | backend/src/utils/modeDetector.ts:15-16 | Every phrase the loops visit comes from the table, paired with its own mode. |
| ModeDetector.EntryIsCandidate | backend/src/utils/modeDetector.ts:15-16 | The loops visit every (mode, phrase) entry of the table. |
| ModeDetector.DetectWithoutMatch | backend/src/utils/modeDetector.ts:10-31 | When no phrase occurs, the result is `guide` with confidence 1.0 and no trigger phrase. |
| ModeDetector.DetectConfidenceRange | backend/src/utils/modeDetector.ts:28-60 | The reported confidence always lies between 0.8 and 1.0. |
| ModeDetector.DetectTriggerIsSound | backend/src/utils/modeDetector.ts:17-23 | A reported trigger occurs in the message. It is listed under the reported mode, and the confidence is that trigger's score. |
| ModeDetector.DetectTriggerIffMatch | backend/src/utils/modeDetector.ts:17-31 | A trigger is reported iff some table phrase occurs in the lower-cased message. |
| ModeDetector.DetectIsMaximal | backend/src/utils/modeDetector.ts:17-23 | No occurring phrase scores above the reported confidence. |
| ModeDetector.DetectTieGoesToFirst | backend/src/utils/modeDetector.ts:19-23 | The reported trigger is the earliest phrase, in table order, that reaches the reported confidence, since replacement needs a strictly greater score. |
| ModeDetector.PhraseAtStartGivesFullConfidence | backend/src/utils/modeDetector.ts:48-50 | A phrase whose first occurrence is at index 0 makes the result's confidence 1.0. |
| ModeDetector.HelpRequestIff | backend/src/utils/modeDetector.ts:85-99 | `isHelpRequest` holds iff the lower-cased message contains one of the six help phrases. |
| ModeDetector.IsHelpRequest | backend/src/utils/modeDetector.ts:85-99 | `isHelpRequest`. Stated by `HelpRequestIff` and the examples. |
| ModeDetector.ModeSwitchRequestIff | backend/src/utils/modeDetector.ts:66-80 | `isModeSwitchRequest` holds iff the lower-cased message contains one of the six switch phrases. |
| ModeDetector.IsModeSwitchRequest | backend/src/utils/modeDetector.ts:66-80 | `isModeSwitchRequest`. Stated by `ModeSwitchRequestIff` and the examples. |
| ModeDetector.HelpRequestExample | backend/src/utils/modeDetector.ts:87-88 | '助けて' is a help request. |
| ModeDetector.HelpRequestIgnoresCase | backend/src/utils/modeDetector.ts:86-98 | 'HELP' is a help request, because the message is lower-cased first. |
| ModeDetector.NotHelpRequestExample | backend/src/utils/modeDetector.ts:85-99 | '今日の天気' is not a help request. |
| ModeDetector.ModeSwitchExample | backend/src/utils/modeDetector.ts:66-80 | 'モードを変更して' asks for a mode switch. |
| ModeDetector.NotModeSwitchExample | backend/src/utils/modeDetector.ts:66-80 | '今日の天気' does not ask for a mode switch. |
| Sessions.SessionService.constructor | backend/src/services/sessionService.ts:6 | The service starts with no sessions. |
| Sessions.SessionService.CreateSession | backend/src/services/sessionService.ts:18-34 | Stores a new session under the fresh id, with no messages, the given mode (default `guide`) and createdAt equal to updatedAt. The id is appended to the key order. |
| Sessions.SessionService.GetSession | backend/src/services/sessionService.ts:39-41 | Returns the stored session, or none for an unknown id. |
| Sessions.SessionService.HasSession | backend/src/services/sessionService.ts:46-48 | True iff the id is stored. |
| Sessions.SessionService.AddMessage | backend/src/services/sessionService.ts:53-67 | Appends the message at the end and refreshes updatedAt; nothing else changes. An unknown id gives null and leaves the map unchanged. |
| Sessions.SessionService.UpdateMode | backend/src/services/sessionService.ts:72-86 | Changes only currentMode and updatedAt. An unknown id gives null and changes nothing. |
| Sessions.SessionService.GetMessageHistory | backend/src/services/sessionService.ts:91-94 | The session's messages, or [] for an unknown id. |
| Sessions.SessionService.ClearSession | backend/src/services/sessionService.ts:99-113 | Returns true iff the id is known. It then empties the messages, keeping the id and the mode. Otherwise it changes nothing. |
| Sessions.SessionService.DeleteSession | backend/src/services/sessionService.ts:118-124 | Returns true iff the id was present. Afterwards the id is absent, the other sessions are unchanged and the other keys keep their order. |
| Sessions.WithoutMembers | backend/src/services/sessionService.ts:119 | The key order after a delete holds exactly the other keys, each once. |
| Sessions.SessionService.CleanupOldSessions | backend/src/services/sessionService.ts:129-145 | Removes exactly the sessions last updated more than an hour before `now` and keeps the others unchanged and in order. Returns the number removed. |
| Sessions.Sweep | backend/src/services/sessionService.ts:133-138 | The deleting loop's outcome: the fresh sessions, their keys in order, and the stale count. |
| Sessions.DeleteStaleIsSwept | backend/src/services/sessionService.ts:133-138 | Deleting stale sessions key by key leaves the same map as removing every stale key among those visited at once. |
| Sessions.SweepResult | backend/src/services/sessionService.ts:129-145 | After visiting every key, the sweep leaves exactly the sessions updated within the hour, and the kept key order lists exactly those. |
| Sessions.ActivePlusStale | backend/src/services/sessionService.ts:134-158 | Active and stale sessions partition the store. The stats' active test is the complement of the sweep's test. |
| Sessions.KeepFreshMembers | backend/src/services/sessionService.ts:133-138 | The kept keys are exactly the fresh ones, each once. There are as many of them as the active count. |
| Sessions.SweptAreAllActive | backend/src/services/sessionService.ts:158 | When every session is fresh, the active count is the number of sessions. |
| Sessions.CountActiveFrame | backend/src/services/sessionService.ts:157-162 | The active count depends only on the sessions it visits. |
| Sessions.DistinctCardinality | backend/src/services/sessionService.ts:165 | Distinct keys number as many as the key order's length. |
| Sessions.SessionService.SizeIsOrderLength | backend/src/services/sessionService.ts:165 | `sessions.size` equals the number of keys in the iteration order. |
| Sessions.SessionService.GetSessionStats | backend/src/services/sessionService.ts:150-170 | The stats report the number of sessions, the number updated at or after one hour before `now`, and the sum of all message counts. |
| Sessions.SessionService.ExportSessionData | backend/src/services/sessionService.ts:175-191 | Null for an unknown id. Otherwise it copies the id, mode and dates and gives the message count. lastMessage is null iff there are no messages, and otherwise is the last message. |
| Sessions.SweepMatchesStats | backend/src/services/sessionService.ts:129-170 | A sweep followed by stats at the same instant: removed + active equals the original size, and afterwards active equals total. |
| WebSearch.MockResults | backend/src/services/webSearchService.ts:38-57 | Three canned results. Each title and snippet starts with the query. |
| WebSearch.Search | backend/src/services/webSearchService.ts:16-75 | The query and the clock are echoed. A failure gives an empty list. Otherwise the results are the canned ones, in order, cut to the limit. |
| WebSearch.SearchCount | backend/src/services/webSearchService.ts:16-61 | A successful search with limit n returns min(3, n) results. |
| WebSearch.SearchDefaultKeepsAll | backend/src/services/webSearchService.ts:16-61 | The default limit 5 keeps all three results. |
| WebSearch.FailedSearchSummary | backend/src/services/webSearchService.ts:65-83 | A failed search is summarised as exactly '最新の情報を取得できませんでした。'. |
| WebSearch.SummarizeOne | backend/src/services/webSearchService.ts:85-89 | One result gives the header line, then "1. title: snippet". |
| WebSearch.SummarizeResults | backend/src/services/webSearchService.ts:80-90 | `summarizeResults`. Stated by `FailedSearchSummary`, `SummarizeOne`, `SummarizeSnoc` and `SummaryStartsWithHeader`. |
| WebSearch.SummarizeSnoc | backend/src/services/webSearchService.ts:85-89 | One more result appends exactly one line, numbered one past the previous count. So n results give the header and lines 1..n in order. |
| WebSearch.SummaryStartsWithHeader | backend/src/services/webSearchService.ts:89 | A non-empty summary starts with the dated header line. |
| WebSearch.ShouldPerformSearchIff | backend/src/services/webSearchService.ts:95-114 | A search is made iff the lower-cased message contains one of the 11 triggers. |
| WebSearch.ShouldPerformSearch | backend/src/services/webSearchService.ts:95-114 | `shouldPerformSearch`. Stated by `ShouldPerformSearchIff` and the examples. |
| WebSearch.ShouldPerformSearchExample | backend/src/services/webSearchService.ts:95-114 | '最新のAI' triggers a search. |
| WebSearch.NoSearchExample | backend/src/services/webSearchService.ts:95-114 | 'こんにちは' does not trigger a search. |
| AiService.FirstMatchIsFirst | backend/src/services/aiService.ts:77-105 | The first keyword group with an occurring keyword gives the label, whatever the later groups say. |
| AiService.FirstMatchNone | backend/src/services/aiService.ts:88-104 | With no occurring keyword, the default label is returned. |
| AiService.ExtractIntent | backend/src/services/aiService.ts:77-91 | `extractIntent`. Stated by `FirstMatchIsFirst`, `FirstMatchNone`, `IntentPriorityExample` and `NoKeywordDefaults`. |
| AiService.DetectEmotion | backend/src/services/aiService.ts:93-105 | `detectEmotion`. Stated by `FirstMatchIsFirst`, `FirstMatchNone` and `NoKeywordDefaults`. |
| AiService.IntentPriorityExample | backend/src/services/aiService.ts:80-83 | 'アイデアの相談' is classified as advice, because that group comes first. |
| AiService.NoKeywordDefaults | backend/src/services/aiService.ts:88-104 | Without keywords, intent and emotion are the default labels. |
| AiService.MatchingIndices | backend/src/services/aiService.ts:111-122 | Lists, in ascending order, exactly the groups with an occurring keyword. |
| AiService.MatchingLabelsSnoc | backend/src/services/aiService.ts:111-122 | One more group adds its label at the end exactly when one of its keywords occurs. |
| AiService.MatchingLabelsIndices | backend/src/services/aiService.ts:111-122 | One label per matching group, in group order: the i-th label is that of the i-th matching group. |
| AiService.MatchingLabelsMembers | backend/src/services/aiService.ts:111-122 | With distinct labels, a label is listed iff its group matches, and no label is listed twice. |
| AiService.IdentifyConstraints | backend/src/services/aiService.ts:107-125 | The four `push` tests produce exactly the matching constraint labels in fixed order. |
| AiService.ConstraintsSpec | backend/src/services/aiService.ts:107-125 | At most four constraints. The i-th is the label of the i-th matching group, the groups ascend, and no label is listed twice. Each is present iff one of its keywords occurs. |
| AiService.AnalyzeUserInput | backend/src/services/aiService.ts:68-75 | Intent, emotion and constraints come from their classifiers. |
| AiService.GenerateStepCResponse | backend/src/services/aiService.ts:189-229 | The `+=` steps build step A, then the correction block when step B is non-empty, then the mode's closing. |
| AiService.ClosingIsNotCorrection | backend/src/services/aiService.ts:193-218 | No closing starts like the correction heading, so the block's presence can be read off the text. |
| AiService.StepCShapeFor | backend/src/services/aiService.ts:190-194 | The composed text starts with step A. The correction heading follows iff step B is non-empty, then step B. The closing ends the text. |
| AiService.StepCShape | backend/src/services/aiService.ts:189-229 | Step C begins with step A and contains '最新情報を踏まえた補正' followed by step B iff step B is non-empty; it ends with the mode's closing. |
| AiService.StepA | backend/src/services/aiService.ts:147-187 | `generateStepAResponse`: the mode's template around the message. Its place at the head of step C is stated by `StepCShape`. |
| AiService.ProcessKnowledgeSteps | backend/src/services/aiService.ts:130-145 | The steps are step A from the template, step B only when a search is warranted, and the composed step C. |
| AiService.KnowledgeStepsFor | backend/src/services/aiService.ts:130-145 | The value `processKnowledgeSteps` computes. Stated by `ProcessKnowledgeSteps` and `StepBIffSearch`. |
| AiService.SummaryIsNonEmpty | backend/src/services/webSearchService.ts:80-90 | A summary is never the empty string. |
| AiService.StepBIffSearch | backend/src/services/aiService.ts:135-139 | Step B is present, and non-empty, iff `shouldPerformSearch(message)`. |
| AiService.GenerateNextActions | backend/src/services/aiService.ts:234-281 | The `unshift` puts the mode's action before the three base actions. |
| AiService.NextActionsShape | backend/src/services/aiService.ts:234-281 | Exactly four actions with distinct ids. The first is practical_steps, more_questions or reality_check by mode; then deep_dive, mode_change, new_topic. The first action tells the modes apart. |
| AiService.FeedbackRequestPerMode | backend/src/services/aiService.ts:286-297 | Each mode has its own fixed feedback question. |
| AiService.FeedbackRequest | backend/src/services/aiService.ts:286-297 | `generateFeedbackRequest`. Stated by `FeedbackRequestPerMode`. |
| AiService.ErrorResponse | backend/src/services/aiService.ts:302-330 | The fallback keeps the mode, id and time. It has no step B and offers [retry, new_question]. |
| AiService.GenerateResponse | backend/src/services/aiService.ts:24-63 | The response is the composed one, or the fallback when composing throws. |
| AiService.ResponseFor | backend/src/services/aiService.ts:24-63 | The value `generateResponse` resolves to. Stated by `GenerateResponse` and `ResponseKeepsMode`. |
| AiService.ResponseKeepsMode | backend/src/services/aiService.ts:45-62 | The response's mode is the input mode. A composed response offers four actions and asks the mode's question. The fallback has no step B. |
| ChatController.PlainMessageResetsToGuide | backend/src/controllers/chatController.ts:80-82 | A message with no table phrase moves the session to `guide` from any mode, because no match yields confidence 1.0. |
| ChatController.DetectionThreshold | backend/src/controllers/chatController.ts:80-83 | The detected mode is adopted when its confidence exceeds 0.8; a score of exactly 0.8 keeps the current mode. |
| ChatController.ChooseMode | backend/src/controllers/chatController.ts:72-85 | The local reassignments of currentMode compute the resolved mode. |
| ChatController.ResolveMode | backend/src/controllers/chatController.ts:72-85 | Forced mode, else guide for a help request, else the detected mode above 0.8, else the current one. Stated by `ChooseMode`, `PlainMessageResetsToGuide` and `DetectionThreshold`. |
| ChatController.NextModeCycle | backend/src/controllers/chatController.ts:188-192 | mode_change moves guide→socrates→hard→guide: never the same mode, and back after three steps. |
| ChatController.NextMode | backend/src/controllers/chatController.ts:188-192 | `modes[(indexOf + 1) % length]`. Stated by `NextModeCycle`. |
| ChatController.LastUserMessage | backend/src/controllers/chatController.ts:240-241 | None iff the history has no user message. Otherwise it is the content of the last one. |
| ChatController.LastUserMessageAppend | backend/src/controllers/chatController.ts:241 | Appending a non-user message does not change what retry resends; appending a user message makes it the one resent. |
| ChatController.RetryPrompt | backend/src/controllers/chatController.ts:239-252 | Retry resends the last user message, or falls back to the generic prompt when there is none. |
| ChatController.ActionPrompt | backend/src/controllers/chatController.ts:146-260 | The prompt each action sends to the AI service. Stated by `RetryPrompt` and `UnknownActionIsGeneric`. |
| ChatController.ActionEffect | backend/src/controllers/chatController.ts:157-213 | What each action does to the session. Stated by `UnknownActionIsGeneric` and `HandleActionSelection`. |
| ChatController.UnknownActionIsGeneric | backend/src/controllers/chatController.ts:175-260 | An unknown action id gets the generic prompt naming it, in the current mode, and leaves the session unchanged. |
| ChatController.HandleActionSelection | backend/src/controllers/chatController.ts:146-260 | The response is what the injected composer returns for the action's prompt and mode. mode_change persists the next mode, new_topic clears the messages, and no action appends a message. |
| ChatController.HandleMessage | backend/src/controllers/chatController.ts:70-123 | The mode is resolved; whether it was persisted is exactly whether it changed. The injected composer is called with the message and the resolved mode. The session gains exactly the user message and then the serialised response. |
| ChatController.RecordUserMessage | backend/src/controllers/chatController.ts:70-100 | The mode is the forced one, else guide for a help request, else the detected one above 0.8 confidence. It is persisted iff it changed. The user message is appended and the history is the old contents plus it. Nothing else changes. |
| ChatController.ServiceComposerKeepsMode | backend/src/controllers/chatController.ts:102-107 | The composer built from the AI service answers in the mode it was given, under the request's fresh response id, with four next actions unless composing throws. |
| ChatController.OpenSession | backend/src/controllers/chatController.ts:43-46 | A known truthy session id is used; otherwise a new `guide` session is created under the fresh id. |
| ChatController.HandleChat | backend/src/controllers/chatController.ts:20-141 | Neither message nor action: 400 with success false, and no session is created. Otherwise 200 with the resolved session's id, and only that session changes. An action wins over the message and appends nothing. A message appends user then assistant in the resolved mode. |
| Storage.MemStorage.constructor | server/storage.ts:25-29 | All three maps start empty. |
| Storage.MemStorage.GetUser | server/storage.ts:31-33 | The stored user, or none. |
| Storage.FirstNamed | server/storage.ts:35-39 | None iff no user has the name. Otherwise it is the first user with that name in insertion order. |
| Storage.MemStorage.GetUserByUsername | server/storage.ts:35-39 | The `find` over the users in insertion order returns the first user with the name. |
| Storage.MemStorage.CreateUser | server/storage.ts:41-46 | The user is stored under the fresh id; the other maps are unchanged. |
| Storage.CreateThenGetUser | server/storage.ts:31-46 | `createUser` followed by `getUser(id)` returns that user. |
| Storage.MemStorage.CreateChatSession | server/storage.ts:48-60 | A fresh session with empty messages and the given mode. userId is null when missing or empty. Both dates are `now`. |
| Storage.MemStorage.GetChatSession | server/storage.ts:62-64 | The stored session, or none. |
| Storage.MemStorage.UpdateChatSession | server/storage.ts:66-77 | Replaces the message list wholesale and refreshes updatedAt. An unknown id gives undefined and changes nothing. |
| Storage.MemStorage.DeleteChatSession | server/storage.ts:79-85 | Removes the session and every voice interaction with that session id. The other interactions stay unchanged and in order. |
| Storage.DropSession | server/storage.ts:82-84 | The filter-then-delete pass leaves exactly the other sessions' interactions, and their keys in order. |
| Storage.DeleteOfSessionIsOthers | server/storage.ts:82-84 | Deleting key by key equals removing at once every visited key of that session. |
| Storage.KeysOfOthersMembers | server/storage.ts:82-84 | The remaining keys are exactly those of other sessions' interactions, each once. |
| Storage.NothingToCascade | server/storage.ts:79-85 | With no interaction of that session, the cascade changes no interaction and no key. |
| Storage.MemStorage.CreateVoiceInteraction | server/storage.ts:87-96 | Stores the record under a fresh id with createdAt `now`; every other record is unchanged. |
| Storage.MemStorage.GetVoiceInteractions | server/storage.ts:98-102 | The session's interactions in insertion order, then sorted by time. |
| Storage.OfSessionMembers | server/storage.ts:99-100 | The filter keeps exactly the stored interactions of the session. |
| Storage.OfSessionCounts | server/storage.ts:99-100 | With distinct keys equal to the ids, the filter lists each stored interaction of the session exactly once and nothing else. |
| Storage.InsertByTime | server/storage.ts:101 | Insertion adds exactly one element: the multiset grows by it. |
| Storage.InsertKeepsSorted | server/storage.ts:101 | Inserting into an ascending list keeps it ascending. |
| Storage.SortByTime | server/storage.ts:101 | The sort is a permutation of its input. |
| Storage.SortByTimeIsSorted | server/storage.ts:101 | The sort's output is ascending by createdAt, with a missing date counted as 0. |
| Storage.InsertLargestAtEnd | server/storage.ts:101 | An element no earlier than the others is placed last. |
| Storage.SortKeepsSortedOrder | server/storage.ts:101 | Interactions already in time order keep their order. |
| Storage.VoiceInteractionsSpec | server/storage.ts:98-102 | The listing is sorted, holds exactly the stored interactions of that session, and lists each of them exactly once. |
| Routes.UserMessage | server/routes.ts:84-91 | The user message has role user and the sent content. It has a transcription iff it is a voice message, and the transcription is the message. |
| Routes.AssistantMessageShape | server/routes.ts:103-115 | The assistant message shows the active-listening text. It has five sections typed active_listening, step_a, step_b, step_c, feedback, in that order, each with its part of the response. |
| Routes.SectionTypesOnce | server/routes.ts:108-114 | Each section type occurs exactly once. |
| Routes.ParseChatBody | shared/schema.ts:62-75 | A body is accepted iff it has a message and one of the three modes; isVoice defaults to false. |
| Routes.CreateSessionRoute | server/routes.ts:35-47 | Creates a session with the given mode, `guide` by default. |
| Routes.GetSessionRoute | server/routes.ts:50-64 | The stored session, or 404. |
| Routes.ChatRoute | server/routes.ts:67-136 | A malformed body gives 500, and a truthy unknown sessionId gives 404; both leave storage unchanged. Without a sessionId a session is created in the request's mode. The consultant sees history + [user]. On success the stored messages are the previous ones plus user and assistant, in that order. |
| Routes.VoiceChatRoute | server/routes.ts:161-234 | A missing sessionId or audio gives 400. For a known session the messages gain user and assistant. For a missing one a new session is created under the fresh id, but the write targets the requested id and is dropped. |
| Routes.VoiceChatOnMissingSession | server/routes.ts:174-222 | For a missing session the reply echoes the requested id, yet that id stays unknown and the created session keeps no messages. |
| Routes.DeleteSessionRoute | server/routes.ts:261-272 | Reports success whether or not the session existed, and cascades to its voice interactions. |
| ChatStore.CreateNewSession | frontend/src/lib/store.ts:75-88 | A session with id `session-<now>`, no messages and mode `guide` becomes current and is put first in the list. |
| ChatStore.ReplaceByIdFacts | frontend/src/lib/store.ts:102-104 | Ids are preserved, and the updated session is listed whenever its id was. |
| ChatStore.NoCurrentSessionNoOp | frontend/src/lib/store.ts:92-158 | Without a current session, addMessage, setCurrentMode, clearChat and addAIResponse change nothing. |
| ChatStore.AddMessageAppends | frontend/src/lib/store.ts:90-107 | The message is appended at the end; id, mode and creation time are kept. Entries with that id become the new session and the others are unchanged. |
| ChatStore.AddMessage | frontend/src/lib/store.ts:90-107 | `addMessage`. Stated by `AddMessageAppends`, `NoCurrentSessionNoOp` and `ActionsKeepCurrentListed`. |
| ChatStore.AddAIResponseEffect | frontend/src/lib/store.ts:109-120 | Exactly one assistant message is appended, holding the serialised response. The session ends in the response's mode. |
| ChatStore.AddAIResponse | frontend/src/lib/store.ts:109-120 | `addAIResponse`. Stated by `AddAIResponseEffect` and `NoCurrentSessionNoOp`. |
| ChatStore.SetCurrentModeOnlyMode | frontend/src/lib/store.ts:122-139 | Only currentMode and updatedAt of the current session change. |
| ChatStore.SetCurrentMode | frontend/src/lib/store.ts:122-139 | `setCurrentMode`. Stated by `SetCurrentModeOnlyMode` and `NoCurrentSessionNoOp`. |
| ChatStore.ClearChatKeepsIdentity | frontend/src/lib/store.ts:156-173 | Messages are emptied; id, mode and creation time are kept. |
| ChatStore.ClearChat | frontend/src/lib/store.ts:156-173 | `clearChat`. Stated by `ClearChatKeepsIdentity` and `NoCurrentSessionNoOp`. |
| ChatStore.FindById | frontend/src/lib/store.ts:150 | None iff no listed session has the id. Otherwise it is the first one that does. |
| ChatStore.LoadSessionSpec | frontend/src/lib/store.ts:149-154 | The first session with the id becomes current; without one, the state is unchanged. |
| ChatStore.LoadSession | frontend/src/lib/store.ts:149-154 | `loadSession`. Stated by `LoadSessionSpec` and `CreateThenLoad`. |
| ChatStore.ActionsKeepCurrentListed | frontend/src/lib/store.ts:90-173 | Every action keeps the current session among the listed sessions. |
| ChatStore.WithCurrentKeepsListed | frontend/src/lib/store.ts:122-139 | setCurrentMode keeps the current session listed. |
| ChatStore.CreateThenLoad | frontend/src/lib/store.ts:75-154 | Loading a just-created session's id changes nothing, and the earlier sessions follow it unchanged. |
| TranscriptHistory.ShownIndices | client/src/components/transcript-history.tsx:28-40 | Lists, ascending, exactly the positions of the messages the predicate keeps. |
| TranscriptHistory.FilteredIsSelection | client/src/components/transcript-history.tsx:28-29 | The listed messages are the kept ones at ascending positions: an order-preserving subsequence of the user messages, never an assistant message. |
| TranscriptHistory.FilteredMembers | client/src/components/transcript-history.tsx:28-43 | A message is listed iff it is a user message of the session that matches both the query and the type filter. |
| TranscriptHistory.FilteredMessages | client/src/components/transcript-history.tsx:28-40 | `filteredMessages`. Stated by `FilteredMembers`, `FilteredIsSelection` and `VoiceTextPartition`. |
| TranscriptHistory.UserMessages | client/src/components/transcript-history.tsx:198 | The user messages in order. Stated by `EmptyQueryListsUserMessages` and `CountsAddUp`. |
| TranscriptHistory.VoiceTextLengths | client/src/components/transcript-history.tsx:35-37 | For any query, the voice list and the text list together are as long as the "all" list. |
| TranscriptHistory.EmptyQueryListsUserMessages | client/src/components/transcript-history.tsx:31-35 | With query "" and filter "all", the result is exactly the user messages, in order. |
| TranscriptHistory.VoiceTextPartition | client/src/components/transcript-history.tsx:35-37 | The voice and text filters split what "all" lists for the same query: each listed message is in exactly one. |
| TranscriptHistory.CountsAddUp | client/src/components/transcript-history.tsx:42-43 | voiceCount + textCount is the number of user messages. Each count is what its filter lists for "". |
| TranscriptHistory.VoiceCount | client/src/components/transcript-history.tsx:42 | `voiceCount`. Stated by `CountsAddUp`. |
| TranscriptHistory.TextCount | client/src/components/transcript-history.tsx:43 | `textCount`. Stated by `CountsAddUp`. |
| TranscriptHistory.SearchIgnoresCase | client/src/components/transcript-history.tsx:31-33 | The search ignores case in both the query and the content. |
| TranscriptHistory.TranscriptionIsSearched | client/src/components/transcript-history.tsx:33 | A message is found through a non-empty matching transcription. |
| VoiceUtils.FormatRecordingTimeRoundTrip | client/src/lib/voice-utils.ts:45-49 | For 0 ≤ s < 6000 the text is "MM:SS" of length 5. Reading it back gives MM*60+SS = s, with SS < 60. |
| VoiceUtils.FormatRecordingTime | client/src/lib/voice-utils.ts:45-49 | `formatRecordingTime`. Stated by `FormatRecordingTimeRoundTrip` and `FormatRecordingTimeWidth`. |
| VoiceUtils.FormatRecordingTimeWidth | client/src/lib/voice-utils.ts:45-49 | The text is at least five characters long, and at least six from 100 minutes on. |
| VoiceUtils.TwoDigitsLength | client/src/lib/voice-utils.ts:48 | `padStart(2, '0')` of a number below 100 has exactly two digits. |
| VoiceUtils.DetectLanguage | client/src/lib/voice-utils.ts:51-55 | The result is 'ja' or 'en'. |
| VoiceUtils.DetectLanguageIff | client/src/lib/voice-utils.ts:51-55 | 'ja' iff some character lies in U+3040–309F, U+30A0–30FF or U+4E00–9FAF. |
| VoiceUtils.DetectLanguageExamples | client/src/lib/voice-utils.ts:51-55 | 'こんにちは' is Japanese, 'hello' English. |
| VoiceUtils.GetOptimalVoiceSettings | client/src/lib/voice-utils.ts:57-72 | 'en' uses voice nova. Any other language gets the ja settings (voice alloy). Speed is 1.0 and the model tts-1. |
| VoiceUtils.VoiceForDetectedLanguage | client/src/lib/voice-utils.ts:51-72 | A text guessed Japanese is spoken by alloy, one guessed English by nova. |

## Left out

- **Not modelled:**
  - I/O and logging: `console.log`, the HTTP framework and JSON transport.
  - The singleton accessors (`getInstance`).
  - The 5-minute timer that calls the sweep.
  - The health-check endpoints and the `/api/voice/transcribe` and `/api/voice/speak` routes.
  - The multer upload limit.
- **Nondeterminism:** uuids, `new Date()` and `Date.now()` are parameters. A request reads the clock once: where the source calls `new Date()` several times in one request, the model uses one reading.
- **Integers only:** dates are millisecond integers, so invalid dates (NaN) are not modelled. Confidence is in tenths, so the float arithmetic of `calculateConfidence` is exact here. `formatRecordingTime` takes whole non-negative seconds.
- **ASCII lower-casing:** `toLowerCase` maps only ASCII letters. The model does not capture Unicode case mapping of non-ASCII input.
- **Abstract services:**
  - The mode detector's phrase table (`backend/src/utils/constants`) is a parameter; that file is not part of this model.
  - The LLM consultant and voice pipeline of `server/` are function parameters that fail by returning `None`.
  - `processVoiceChat` itself stores a voice interaction. That side effect of the voice service is not part of this model.
  - The audio buffers and their base64 encoding in `/api/voice/chat` are not modelled.
- **Fallback triggers:** `AiService.ResponseFor` is a failure flag (`thrown`), and `WebSearch.Search` is `failed`. The source's `try` blocks contain no operation that throws except the clock and the uuid generator, so which failures can really happen is not modelled.
- **Error replies not modelled:**
  - The 500 replies for exceptions in `chatController.handleChat` and in the `server/` routes, except those raised by the abstract services.
  - The `details` text of error replies.
  - The unreachable 400 'Invalid request' reply in `handleChat`. After validation, either the action or the message is truthy, so it cannot be reached.
- **Schema validation:** zod's type checks on field types (a number given for a string) are not modelled. `Routes.ParseChatBody` checks only presence and the mode enumeration.
- **Object passing:** `SessionService` hands out the stored session object itself, so callers could mutate it behind the service. The model passes values. The controller mutates sessions only through the service, so this aliasing has no effect on the modelled behaviour.
- **Map keys:** the model's maps stand in for JavaScript `Map`s, so keys like `__proto__` are ordinary keys. `getOptimalVoiceSettings` uses a plain object: a language such as 'constructor' or 'toString' would read an inherited property instead of falling back to the ja settings. The model treats every language other than 'en' as falling back.
- **Not included:**
  - `backend/dist`: compiled copies of `backend/src`.
  - The UI components and browser media code.
  - The store's `setLoading` and `setError`, which only set a field.
- ChatController.HandleChat: a forced mode outside `guide`, `socrates` and `hard` is not modelled. The backend never checks `forceMode`: it adopts and persists any non-empty string (`chatController.ts` lines 71-73 and 87-88). The AI service then takes its `default:` branches: the fallback step A, no closing, three next actions and a generic feedback question. A later `mode_change` restarts at `guide`. The model's `Mode` has only the three modes.
- Storage.MemStorage.GetVoiceInteractions: stability of the sort is proved only for input already in time order (`Storage.SortKeepsSortedOrder`). The property that equal timestamps keep insertion order is not stated for arbitrary input.
