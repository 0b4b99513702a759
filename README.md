# LINE webhook: event pipeline model

This project models the Netlify function that receives LINE Messaging API
webhooks for a property-management help desk (`handler` in
`netlify/functions/line-webhook.ts`). Each request goes through the same steps:

- It checks the HTTP method, loads the `settings` row and verifies the signature.
- It then walks the delivered events in order. For each text message it:
  - filters it;
  - records its `webhookEventId` in the `processed_events` ledger, skipping the event when the id is already there;
  - runs a three-step onboarding (community name, then one of five roles) for users who are not registered yet;
  - on a handover keyword, hands a registered user over to a human and notifies every agent by push;
  - while the human-mode timeout runs, leaves the user's messages to the human;
  - otherwise asks the configured AI backend (OpenAI or Gemini) and replies with its answer or its error.

The modules follow that structure:

- `JsString` covers the JavaScript string operations the handler uses:
  - `trim`, with the ECMAScript whitespace set;
  - `split` on one character;
  - character `replace`;
  - `includes`, `startsWith` and `endsWith`;
  - the UTF-16 `length`;
  - template-literal rendering of null;
  - `||` defaults.
- `Config` holds the settings row and everything the handler derives from it: keyword and agent-id parsing, keyword matching and the timeout.
- `Registration` holds the `user_states` row and the onboarding state machine.
- `AiRequest` holds the request shaping of `callGPT` and `callGemini`: which API is used, the token and temperature parameters, the MIME type and the order of the parts.
- `Pipeline` gives the effect of one event (`Process`) and of a batch (`Run`) on the ledger and the rows, together with the ordered actions emitted:
  - replies with their quick-reply options;
  - pushes, each recording whether it was delivered;
  - AI requests.

  The outside world's answers for each event form an `Env`: the clock, the profile lookup, failing pushes, the fetched reference file and the AI outcome.
- `PipelineProperties` proves what the pipeline guarantees: skipping, deduplication and replay, onboarding gating, handover, timeout and AI reporting.
- `Webhook` is the handler as written. A `Store` class holds the two tables and is updated in place, and loops run over the events and over the agents. Every method is proved to compute exactly what `Pipeline` specifies.

## Model

| member | source | states |
|---|---|---|
| JsString.Trim | netlify/functions/line-webhook.ts:33 | the trimmed text is no longer than the input and starts and ends with a non-whitespace character (or is empty) |
| JsString.TrimUnique | netlify/functions/line-webhook.ts:33 | trim is fully determined: any infix of the text with all-whitespace borders and non-whitespace ends is the trim |
| JsString.TrimTrimmed | netlify/functions/line-webhook.ts:133 | trimming an already trimmed keyword or id changes nothing |
| JsString.TrimChars | netlify/functions/line-webhook.ts:133 | trim introduces no character that was not in the input |
| JsString.Split | netlify/functions/line-webhook.ts:132 | split yields at least one piece, even for the empty text |
| JsString.SplitPieces | netlify/functions/line-webhook.ts:132 | no piece contains the separator, and joining the pieces with the separator gives back the text |
| JsString.SplitJoin | netlify/functions/line-webhook.ts:132 | splitting a join of separator-free pieces returns exactly those pieces |
| JsString.SplitAround | netlify/functions/line-webhook.ts:132 | one more separator in the text gives the pieces of both sides, side by side |
| JsString.SplitNoSeparator | netlify/functions/line-webhook.ts:155 | a text without the separator is a single piece |
| JsString.ReplaceAll | netlify/functions/line-webhook.ts:131 | every full-width comma becomes an ASCII comma and every other character is kept in place |
| JsString.ReplaceAllRemoves | netlify/functions/line-webhook.ts:131 | after the replacement no full-width comma is left |
| JsString.ReplaceAllAppend | netlify/functions/line-webhook.ts:131 | the replacement distributes over concatenation |
| JsString.IncludesMeaning | netlify/functions/line-webhook.ts:138 | `includes` holds exactly when the keyword occurs at some position of the message |
| JsString.Utf16LengthOne | netlify/functions/line-webhook.ts:137 | a JavaScript length of 1 means exactly one character of the Basic Multilingual Plane |
| Config.Tokens | netlify/functions/line-webhook.ts:131-133 | split, trim each piece, drop the blanks: every token is non-empty, has no whitespace at either end and contains no separator |
| Config.ParseKeywords | netlify/functions/line-webhook.ts:130-134 | an absent keyword setting gives no keyword; every parsed keyword is non-empty, has no whitespace at either end and contains no comma of either width |
| Config.KeywordSeparators | netlify/functions/line-webhook.ts:130-134 | a full-width comma separates keywords exactly as an ASCII comma does: the keywords of `a,b` are those of `a` followed by those of `b` |
| Config.KeywordSingle | netlify/functions/line-webhook.ts:130-134 | a text with no comma of either width is one keyword (its trim), or none when blank |
| Config.ParseAgentIds | netlify/functions/line-webhook.ts:155 | an absent agent setting gives no agent; every id is non-empty, trimmed and free of ASCII commas |
| Config.AgentIdsAround | netlify/functions/line-webhook.ts:155 | the ASCII comma separates agent ids |
| Config.AgentIdsSingle | netlify/functions/line-webhook.ts:155 | a text without an ASCII comma is a single agent id, its trim, or no id when blank |
| Config.AgentIdsIgnoreFullWidthComma | netlify/functions/line-webhook.ts:155 | a full-width comma does not separate agent ids: the text stays one id |
| Config.HitsMeaning | netlify/functions/line-webhook.ts:136-139 | a one-character keyword fires only on a message equal to it, and any longer keyword fires exactly when it is a substring of the message |
| Config.MatchKeywordFirst | netlify/functions/line-webhook.ts:136-139 | nothing is matched exactly when no keyword fires; otherwise the reported keyword is the first one in list order that fires |
| Config.TimeoutMs | netlify/functions/line-webhook.ts:172 | a missing or zero timeout setting means 30 minutes, and any other value means that many minutes, in milliseconds |
| Registration.Register | netlify/functions/line-webhook.ts:58-126 | one onboarding step and its single reply. A row awaiting the community stores the message as the community, moves to awaiting the role and answers with `CommunityRecordedText` (:71) and the five role buttons. A row awaiting the role and a message that is not exactly one of the five roles stays as it was and gets the role prompt with the buttons again. The user is registered exactly when the row awaits the role and the message is one of the roles: the role is stored, the pending field cleared, the community kept, and the reply is `ConfirmationText` (:109), with a null community rendered as `null`. No row, or nothing pending, (re)starts onboarding awaiting the community, with the welcome text and no buttons. Without a row, the new row holds only the upsert's columns and the table defaults. An existing row keeps its community and role. Nickname and human-mode columns are always kept |
| Registration.RegisterAdvances | netlify/functions/line-webhook.ts:60-126 | each message moves the onboarding one stage forward (not started, community, role, registered), except a wrong role answer, which leaves the row as it was |
| Registration.Onboarding | netlify/functions/line-webhook.ts:60-126 | a new user who sends any message, then a community name, then a role ends registered with that community and role, and the replies are the welcome, the role buttons and the confirmation |
| AiRequest.ChatTokenLimit | netlify/functions/line-webhook.ts:224-229 | `o1`/`o3` models get `max_completion_tokens` and no temperature; all others get `max_tokens` and the temperature; the limit is the configured one |
| AiRequest.SystemContent | netlify/functions/line-webhook.ts:198-202 | the system context is exactly the prompt and the reference text, then the file heading, then the fetched file text when a reference URL is set and the fetch succeeded, or nothing otherwise (prefix, suffix and length fix the whole text) |
| AiRequest.GptRequestFor | netlify/functions/line-webhook.ts:197-229 | models whose name contains `gpt-5` (`IsReasoningModel`) go to the Responses API. Its input is exactly `System: `, the system context, a newline, `User: ` and the message. Its effort is the configured one, or `none` when null or empty, and its verbosity the configured one, or `medium`. Every other model gets exactly two chat messages, the system context then the user's message, with the token and temperature parameters `ChatTokenLimit` selects. The model is the configured one |
| AiRequest.MimeType | netlify/functions/line-webhook.ts:241 | the file is announced as PDF exactly when the URL ends in `.pdf`, and as plain text otherwise |
| AiRequest.UpperCasePdfIsText | netlify/functions/line-webhook.ts:241 | the suffix check is case-sensitive: `.PDF` is sent as plain text |
| AiRequest.GeminiParts | netlify/functions/line-webhook.ts:241-247 | the user turn holds the system part `System: <prompt>` plus a newline plus `Reference: <reference text>` first and the message last. The file part, with the base64 data and the MIME type of the URL, sits between them exactly when a reference URL is set and the file was fetched |
| AiRequest.GeminiRequestFor | netlify/functions/line-webhook.ts:245-252 | one user turn, temperature 1.0, and the configured model and output limit |
| AiRequest.RequestFor | netlify/functions/line-webhook.ts:182-183 | OpenAI is used exactly when `active_ai` is `gpt`, and any other value, null included, selects Gemini. The request sent is the one `GptRequestFor` or `GeminiRequestFor` builds from the message and the fetched reference file |
| AiRequest.RequestEndsWithMessage | netlify/functions/line-webhook.ts:207-247 | whichever backend and model is chosen, the request ends with the user's current message and carries no earlier turn |
| Pipeline.Accept | netlify/functions/line-webhook.ts:31-36 | an event goes on exactly when it is a text message with a non-empty trimmed text and a non-empty event id; it then carries the trimmed text, the sender and the reply token |
| Pipeline.Nickname | netlify/functions/line-webhook.ts:143-144 | a successful profile lookup overwrites the nickname; otherwise it is the stored nickname, or the anonymous placeholder |
| Pipeline.Notifications | netlify/functions/line-webhook.ts:155-165 | one push per agent, in list order, each recording whether it was delivered |
| PipelineProperties.FilteredIsSkipped | netlify/functions/line-webhook.ts:31-36 | a filtered event leaves the ledger and all rows unchanged and emits nothing |
| PipelineProperties.DuplicateIsSkipped | netlify/functions/line-webhook.ts:39-46 | an event whose id is already in the ledger leaves everything unchanged and emits nothing |
| PipelineProperties.ProcessLedger | netlify/functions/line-webhook.ts:39-46 | after an event the ledger is the old ledger plus the event's id when it passed the filter |
| PipelineProperties.ProcessFrame | netlify/functions/line-webhook.ts:60-175 | after an event the rows are unchanged, or differ only in the accepted sender's row, which is then present |
| PipelineProperties.ProcessTouchesOnlySender | netlify/functions/line-webhook.ts:60-175 | no row disappears, and only the sender's row can change or appear |
| PipelineProperties.ServedFrame | netlify/functions/line-webhook.ts:141-175 | the service of a registered user keeps the ledger, rewrites at most the sender's row and never changes its registration |
| PipelineProperties.ProcessServes | netlify/functions/line-webhook.ts:39-141 | a new event from a registered sender claims its id and then runs the keyword, timeout and AI steps on the row that was read |
| PipelineProperties.OnboardingGates | netlify/functions/line-webhook.ts:60-126 | for an unregistered sender a new event runs exactly one onboarding step, and that step's reply is the only action, so there is no handover, push or AI call |
| PipelineProperties.RegisteredOnlyByRole | netlify/functions/line-webhook.ts:83-105 | a user becomes registered only by sending, while the row awaits the role, a message equal to one of the five roles; that role is stored |
| PipelineProperties.RegisteredStays | netlify/functions/line-webhook.ts:141-175 | no event un-registers a registered user |
| PipelineProperties.HandoverActions | netlify/functions/line-webhook.ts:153-165 | the handover emits the acknowledgement first and then exactly one push per agent in list order, each recording whether it was delivered, and never an AI call |
| PipelineProperties.HandoverOnKeyword | netlify/functions/line-webhook.ts:141-167 | on a keyword hit: human mode is set with `last_human_interaction` = now and the resolved nickname; exactly one acknowledgement is sent; one push is attempted per parsed agent, delivered or not; no AI call is made |
| PipelineProperties.AbsorbedWithinTimeout | netlify/functions/line-webhook.ts:170-173 | a non-keyword message in human mode before the timeout only records its id: no row change and no action |
| PipelineProperties.AiStepUnlessAbsorbed | netlify/functions/line-webhook.ts:168-190 | a message from a registered sender that hits no keyword and is not left to a human (human mode off, or the timeout run out) gets exactly the AI step's actions. The only row change is that human mode is switched off when it was on |
| PipelineProperties.RevertedAfterTimeout | netlify/functions/line-webhook.ts:170-178 | once the timeout has passed, human mode is cleared and the message goes to the AI step |
| PipelineProperties.DefaultTimeoutBoundary | netlify/functions/line-webhook.ts:170-173 | with the default 30 minutes, a message 29:59 after the handover is absorbed and one 30:01 after it is not |
| PipelineProperties.AiDisabledIsSilent | netlify/functions/line-webhook.ts:178 | AI disabled means no call and no reply |
| PipelineProperties.AiErrorIsReported | netlify/functions/line-webhook.ts:184-189 | a failing AI call gives exactly one reply, which starts with the AI error marker |
| PipelineProperties.AiAnswerReplied | netlify/functions/line-webhook.ts:180-190 | an AI answer is replied exactly when it is non-empty, after the call |
| PipelineProperties.RunLedger | netlify/functions/line-webhook.ts:30-46 | after a batch the ledger is the old ledger plus the ids of the batch's accepted events |
| PipelineProperties.SeenIsSkipped | netlify/functions/line-webhook.ts:31-46 | an event that is filtered out or whose id is already recorded changes nothing and emits nothing |
| PipelineProperties.RunAllSeen | netlify/functions/line-webhook.ts:39-46 | a batch whose accepted ids are all recorded changes nothing and emits nothing |
| PipelineProperties.AcceptedIdsOfEvents | netlify/functions/line-webhook.ts:31-36 | which ids are accepted depends only on the events |
| PipelineProperties.ReplayIsNoOp | netlify/functions/line-webhook.ts:39-46 | redelivering a batch, whatever the outside world answers the second time, changes nothing and emits nothing |
| Webhook.Store.InsertEvent | netlify/functions/line-webhook.ts:39-46 | the insert fails exactly when the id is already in the ledger, and afterwards the id is in it |
| Webhook.Store.SelectUser | netlify/functions/line-webhook.ts:49-53 | the sender's row, or none when there is no row |
| Webhook.Store.SaveUser | netlify/functions/line-webhook.ts:115-119 | the sender's row is replaced and nothing else changes |
| Webhook.NotifyAgents | netlify/functions/line-webhook.ts:156-165 | the loop attempts one push per agent in order, and a failed push does not stop the rest; the pushes are exactly `Pipeline.Notifications` |
| Webhook.Onboard | netlify/functions/line-webhook.ts:60-126 | the onboarding branch writes exactly the row of the registration step and sends its one reply |
| Webhook.ServeRegistered | netlify/functions/line-webhook.ts:130-190 | the keyword, timeout and AI branches do exactly what `Pipeline.Served` specifies: `Pipeline.Handover` on the first matching keyword, `Pipeline.Unmatched` otherwise |
| Webhook.HandOver | netlify/functions/line-webhook.ts:141-167 | the handover branch does exactly what `Pipeline.Handover` specifies: the row gets the resolved nickname, human mode and the event's time; the acknowledgement is sent; then each agent is pushed the notice `Pipeline.NoticeText` (:161) with nickname, community, role, keyword and message, `未知` standing for a missing community or role |
| Webhook.ServeUnmatched | netlify/functions/line-webhook.ts:170-190 | the timeout check and the AI step do exactly what `Pipeline.Unmatched` specifies: in human mode, an event less than the timeout after `Pipeline.LastMs` (a null time reads as the epoch, :171) does nothing; otherwise human mode is cleared and `Pipeline.AiActions` runs: the AI call, then a reply with `Pipeline.AiReplyText` (the answer, or the error marker and the error message, :185) when that text is non-empty |
| Webhook.HandleEvent | netlify/functions/line-webhook.ts:31-191 | one pass of the event loop leaves the store and emits the actions that `Pipeline.Process` gives: the filter, the ledger claim, then onboarding for an unregistered sender or service for a registered one |
| Webhook.HandleEvents | netlify/functions/line-webhook.ts:30-192 | the event loop leaves the store and emits the actions that `Pipeline.Run` gives for the batch: each event processed on the store the previous ones left, the actions concatenated in order |
| Webhook.Serve | netlify/functions/line-webhook.ts:12-194 | the handler answers 405 for a method other than POST, 500 when the settings cannot be read and 401 for a bad signature, touching nothing in those cases; otherwise it runs the batch and answers 200 `OK` |

## Left out

- `src/pages/UserList.tsx` is not part of this model. It is the admin user list: React state, 30-second polling and display-only search.
- Supabase and LINE SDK calls are not performed; they appear as actions or store updates:
  - `replyMessage` and `pushMessage` become `Reply` and `Push` actions;
  - `getProfile` becomes an optional display name supplied for each event;
  - the table reads and writes become `Store` updates.
- A `replyMessage` that throws would abort the rest of the batch with an error response; the model treats every reply as sent.
- A failing `user_states` update is ignored by the code. The model treats every update as applied.
- Webhook.Store.SelectUser: the read never fails in the model. In the code a failing `.single()` read (a database error, or more than one row) leaves the row null, so the sender is treated as new and the first-contact upsert (:115-119) resets an existing row to unregistered, awaiting the community. PipelineProperties.RegisteredStays and PipelineProperties.ProcessServes hold only under this assumption.
- Pipeline.Env: `failedPushes` is a set of agent ids, so an id listed twice in `agent_user_ids` fails on both pushes or on neither; the code could see one push fail and the other succeed.
- Config.TimeoutMs: `handover_timeout_minutes` is an integer in the model. A fractional value, which `(x || 30) * 60 * 1000` would accept, is not represented.
- Event and message types other than a text message are not told apart: any such event is skipped, as the code skips it.
- Pipeline.Event: a message event always carries a sender id. The code only asserts `source.userId` to be present (:32), and an event without one is not represented.
- JsString: strings are sequences of Unicode scalar values. A JavaScript string holding a lone surrogate cannot be represented, and `Utf16Length` counts the UTF-16 units of well-formed text only.
- The ledger insert is modelled as failing only on a duplicate id.
- `validateSignature` (an HMAC over the raw body) and `JSON.parse` of the envelope are supplied as a boolean and a sequence of events.
- The settings fetch is supplied as an optional settings row.
- These network and encoding steps are not modelled:
  - the OpenAI and Gemini HTTP calls;
  - extracting the answer from their responses;
  - fetching the reference file;
  - base64 encoding.

  The AI call is an outcome (an answer text or an error message), and the fetched file arrives as its text and base64 encoding.
- Dates are not parsed. The clock is an integer in milliseconds supplied for each event, and `last_human_interaction` is held in the same unit; a null column reads as 0, as `new Date(null)` does.
- Concurrency between webhook invocations sharing the tables is not modelled; one invocation runs sequentially.
- Console logging is not modelled.
- `pending_field` is a closed set: none, `community`, `role`. Any other stored value behaves like none in the code and is not represented.
- A null `gpt_model_name` is not modelled; in the code it would throw inside the AI call and be reported as an AI error.
- A row that awaits the role but has no community gets a confirmation that reads `null` for the community, as the template literal renders it. The model keeps this behaviour and does not substitute a placeholder.
