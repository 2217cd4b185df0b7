# PTIT chatbot: broker and chat turn protocols in Dafny

This project models the logic of the PTIT programming-practice chatbot. The
system is a Node server that brokers access to a Gemini backend, and a
browser extension with two chat front ends: the content script injected into
the exercise pages and the toolbar popup.

- `common.dfy` (module `Common`) holds the values the three parts share:
  - the `/api/ask` request body;
  - conversation turns;
  - the outcomes of the clients' `fetch` calls;
  - the JavaScript string and array operations the code relies on (`includes`,
    `startsWith`, ASCII `toLowerCase`, `trim`, `join`, `pop`, truthiness and `||`).
- `server.dfy` (module `Server`) is the broker. Class `Broker` holds the
  `users` map, the `activeTokens` map and the round-robin cursor over the
  twelve shared keys, and has one method per handler:
  - `/check-user`;
  - `/save-api-key`;
  - `/get-token`;
  - `/release-token`;
  - `/api/ask`, which runs imperatively: it picks the credential, applies the
    exam filter, then runs the model loop.

  The pure parts are functions: the format check, the exam filter, the
  instruction choice and the error-to-status mapping. `AskSpec` is the
  decision of `/api/ask` as a function of the broker state, and `Broker.Ask`
  is proved against it.
- `server_facts.dfy` (module `ServerFacts`) proves what the broker promises:
  - the round-robin closure of the shared pool;
  - the decision table of `/api/ask`;
  - the retry discipline of the model loop;
  - the exam filter on concrete prompts;
  - the token life cycle as a caller sees it.
- `content.dfy` (module `Content`) is the content script. It covers:
  - the role heuristic and the mode rule;
  - class `ContentScript`, with the module-level state `token`,
    `conversationHistory`, `currentMode` and `isChatExpanded`, and the
    methods that change it: mode re-evaluation, expand/collapse, `sendMessage`
    with its push/pop rollback, the submit handler and `clearHistory`;
  - the exam-prompt wrapper `buildContextPrompt`.
- `popup.dfy` (module `Popup`) is the popup. It covers the status-to-message
  mapping and class `PopupSession`, with `initializeSession`, `getToken`,
  `handleSubmit`, `sendToAPI` and `clearHistory`.
- `wire.dfy` (module `Wire`) connects the clients' requests to the broker's
  decision and the broker's JSON answer back to the clients' histories.

The generative backend is a function parameter `gen: Call -> GenOutcome`. It
maps each call (credential, model, instruction, contents) to a reply or an
error message. `/api/ask` returns the list of calls it made, so "no backend
call" is a statement about that list. The fresh `uuidv4()` token is a
parameter that the caller guarantees is not already in `activeTokens`.
Each client-side `fetch` is a parameter holding its outcome: it either throws
or answers with a status and the fields of its body.

Two behaviours of the code are modelled as written rather than as one might
expect:

- **Line 308 of `src/server/index.js`.** It logs `token.substring(0, 8)` after a
  successful generation. Exam and teacher requests normally carry no token,
  so there this throws inside the `try`. The message mentions neither 429
  nor quota, so the loop stops and the answer is 500.
  `ServerFacts.AskTokenlessSuccessFails` and `Wire.TokenlessSharedTurnRollsBack`
  state the consequence.
- **Double pop in the content script.** On an error status, the content
  script pops its history at line 427 and again in the `catch` at line 444,
  so the previous exchange loses its model turn.
  `Content.HistoryAfterSendAlternation` shows that the history then ends
  with a user turn. `Wire.ClientsDisagreeOnKeyErrors` contrasts this with the
  popup.

## Model

| member | source | states |
|---|---|---|
| Server.Broker.constructor | src/server/index.js:13-37 | the broker starts with the given twelve shared keys, cursor 0, and no users or tokens |
| Server.Broker.NextSharedKey | src/server/index.js:29-34 | returns the key at the cursor, moves the cursor to (cursor + 1) mod 12, and records the key among those handed out; the broker invariant (every key handed out is the pool entry at its position mod 12) is kept |
| ServerFacts.RoundRobinWindow | src/server/index.js:29-34 | any twelve consecutive keys handed out contain every pool entry exactly as often as the pool does, the cursor is back where it was, and the thirteenth key repeats the first |
| ServerFacts.BrokerRoundRobin | src/server/index.js:29-34 | every window of twelve draws of a live broker is a permutation of its pool |
| Server.Broker.CheckUser | src/server/index.js:81-88 | `exists` is true iff the code has an entry; `hasApiKey` is true iff the entry exists and its key is non-empty |
| Server.TestApiKey | src/server/index.js:90-104 | status 400 iff the key is missing, else 200; success iff the key starts with "AIza" and has at least 30 characters |
| Server.Broker.SaveApiKey | src/server/index.js:106-115 | a missing code or key gives 400 and leaves `users` unchanged; otherwise only that code's entry is overwritten, with the name defaulting to "User" |
| Server.Broker.GetToken | src/server/index.js:117-129 | fails with 400 iff the user is missing or has no key; on success adds exactly the fresh token, bound to the user's current key and code, and changes no other token |
| Server.Broker.ReleaseToken | src/server/index.js:131-138 | always answers 200 with success; a truthy token is removed, and anything else leaves the map unchanged |
| ServerFacts.ReleaseTwice | src/server/index.js:131-138 | releasing twice succeeds both times and leaves the same tokens as releasing once |
| ServerFacts.ReleasedTokenIsRefused | src/server/index.js:131-152 | after a release, the same token is refused with 401 and no backend call in every personal mode |
| ServerFacts.IssueThenAsk | src/server/index.js:117-152 | a token just issued authorises `/api/ask`, and every backend call uses that user's key |
| Server.AskSpec | src/server/index.js:140-333 | the whole `/api/ask` decision as a function of the pool, the cursor, the active tokens, the request and the backend |
| Server.Broker.Ask | src/server/index.js:140-333 | the imperative handler returns exactly the reply and calls of `AskSpec`, and leaves the cursor where `AskSpec` says; a shared-mode request hands out one more key |
| ServerFacts.AskSharedModes | src/server/index.js:145-146 | exam and teacher requests advance the cursor by one, call the backend only with the key at the old cursor, and are never refused with 401 |
| ServerFacts.AskPersonalModes | src/server/index.js:147-152 | in any other mode (absent included) the answer is 401 iff the token is falsy or not active, and then no call is made; the cursor never moves; with an active token every call uses that token's key |
| ServerFacts.AskExamFilter | src/server/index.js:154-210 | in exam mode no call is made iff the filter refuses; a refusal answers the refusal text with model "filtered"; a backend answer never carries model "filtered"; the cursor has still advanced |
| Server.InstructionFor | src/server/index.js:154-288 | "exam" and "teacher" get their own instruction; every other mode value, absent included, gets the practice one |
| Server.ExamFilterRefuses | src/server/index.js:154-210 | an exam prompt is refused iff its lower-cased form contains some syntax phrase and no allowed phrase |
| ServerFacts.FilterIgnoresCase | src/server/index.js:155-156 | the filter decides the same on a prompt and on its lower-cased form |
| ServerFacts.ExplainStatementPasses | src/server/index.js:158-205 | "giải thích đề bài này" matches an allowed phrase and is not refused |
| ServerFacts.ExplainOutputPasses | src/server/index.js:158-205 | "giải thích output được tính như thế nào" matches an allowed phrase and is not refused |
| ServerFacts.BothFamiliesPass | src/server/index.js:178-205 | a prompt with both a syntax phrase and an allowed phrase is not refused |
| ServerFacts.NoAllowedPhrase | src/server/index.js:158-178 | a prompt without the letters g, u, đ and a matches no allowed phrase |
| ServerFacts.WriteCodeRefused | src/server/index.js:180-210 | "viết code cho bài này" matches a syntax phrase and no allowed phrase, and is refused |
| ServerFacts.AskBackendCall | src/server/index.js:289-306 | at most one call per model; each call carries the mode's instruction and the request history followed by the prompt |
| Server.ModelLoop | src/server/index.js:295-333 | the calls made are a prefix of the model list, at least one when the list is non-empty, each with the given key, instruction and contents |
| Server.RunModels | src/server/index.js:295-333 | the `for` loop with `lastError` computes exactly `ModelLoop` over the configured models |
| ServerFacts.ModelLoopRetriesOnlyQuota | src/server/index.js:297-320 | every attempt before the last ended in an error that mentions 429 or quota |
| ServerFacts.ModelLoopLastAttempt | src/server/index.js:297-333 | the answer is a reply iff the last attempt succeeded, and then it names the model used; otherwise it is the status mapping of the last error; the loop stops early only on an error it does not retry |
| Server.AttemptOf | src/server/index.js:298-313 | an attempt succeeds iff the backend generated a reply and the request carried a token, and then with that reply; a backend error is thrown as is; a reply without a token throws the null-token TypeError |
| Server.FinalError | src/server/index.js:323-333 | the final answer is a failure with status 429, 403 or 500 |
| ServerFacts.RetryIffQuotaStatus | src/server/index.js:314-333 | an error is retried exactly when it would be reported as 429, and it is reported as 403 exactly when it is not retried but mentions "API key" or 403 |
| ServerFacts.NullTokenMessageIsHardError | src/server/index.js:308-333 | the TypeError that `token.substring` raises on a null token is not retried and is reported as 500 with its own message |
| ServerFacts.AskTokenlessSuccessFails | src/server/index.js:300-313 | a tokenless exam or teacher request that passes the filter and that the backend answers still fails with 500 |
| Content.DetectUserType | src/extension/content/content.js:58-70 | teacher iff the code is non-empty, not "unknown", and all ASCII letters; any digit means student |
| Content.DetectMode | src/extension/content/content.js:72-85 | "teacher" iff the user is a teacher; "exam" iff a student's page has `#timeleft`; otherwise "practice" |
| Content.ModeInfo | src/extension/content/content.js:87-109 | the user type takes precedence; a student sees the exam badge only in exam mode, and the practice badge otherwise |
| Content.ModeInfoAgreesWithDetectMode | src/extension/content/content.js:72-109 | the badge shown for the detected mode is that mode's badge, and the three badges have different colours |
| Content.ContextParts | src/extension/content/content.js:475-482 | the parts start with the header and end with the end marker |
| Content.FieldPartsLayout | src/extension/content/content.js:476-481 | among the first n fields, exactly the non-empty ones take a place, each with its own label; field k sits at the count of non-empty fields before it |
| Content.ContextPartsLayout | src/extension/content/content.js:475-482 | there are 2 + (number of non-empty fields) parts; each non-empty field appears with its label right after the non-empty fields before it, so the order is nav, description, requirements, constraints, examples, and an empty field does not appear |
| Content.BuildContextPrompt | src/extension/content/content.js:475-485 | the wrapped prompt starts with the header, contains every non-empty field with its label, and ends with the end marker, a blank line and the user's text |
| Content.FinalPrompt | src/extension/content/content.js:396-404 | the prompt sent always ends with the user's text; it differs from that text only for a student in exam mode on a question page with a statement; in exactly that case it is the wrapped prompt, with the header first, the labelled statement inside and the user's text after the end marker |
| Content.WrappedPromptEndsWithText | src/extension/content/content.js:475-485 | the wrapped prompt ends with the user's text and contains the labelled statement |
| Content.FailureText | src/extension/content/content.js:432-445 | the chat shows "Lỗi: " followed by the thrown message: the fetch's own message, the server's `error` if truthy, or "Error <status>" |
| Content.HistoryAfterSend | src/extension/content/content.js:409-446 | a thrown fetch leaves the history as it was; an OK answer appends the user turn and the reply (or the no-reply text); an error status leaves it one shorter, or empty |
| Content.HistoryAfterSendAlternation | src/extension/content/content.js:409-446 | from a user/model-alternating history, a thrown fetch and an OK answer keep the alternation, while an error status breaks it and leaves a user turn last |
| Content.TokenAfterFetch | src/extension/content/content.js:342-358 | `getToken` takes the response's `token` field whatever the status (absent on an error body), and keeps the old token only when the call throws |
| Content.ContentScript.constructor | src/extension/content/content.js:20-56 | the code defaults to "unknown", the user type and mode follow the detectors, there is no token, the chat is collapsed, and the saved history (if any) is restored |
| Content.ContentScript.GetToken | src/extension/content/content.js:342-358 | the token becomes `TokenAfterFetch` of the old token |
| Content.ContentScript.ClearChatOnModeChange | src/extension/content/content.js:252-253 | the history is emptied |
| Content.ContentScript.HandleModeChange | src/extension/content/content.js:232-250 | the mode is set and the history emptied; the token changes only when entering practice with a key on file, through `getToken`, and is never released or nulled |
| Content.ContentScript.Reevaluate | src/extension/content/content.js:214-230 | a change fires iff the recomputed mode differs from the current one; without a change nothing moves, with one the history is emptied and the token follows `HandleModeChange` |
| Content.ContentScript.Expand | src/extension/content/content.js:289-312 | a second expand does nothing; otherwise in practice mode a token is requested when a key is on file and the key form is shown when none is; exam and teacher modes leave the token alone |
| Content.ContentScript.Collapse | src/extension/content/content.js:314-325 | the chat is collapsed and the token nulled; the old token is released iff it was truthy |
| Content.ContentScript.SendMessage | src/extension/content/content.js:382-451 | practice mode without a token sends nothing and leaves the history; otherwise the request carries the final prompt, the token, the history before the turn and the mode name; the new history is `HistoryAfterSend`; the key form opens exactly on 400, 403 or 429 |
| Content.ContentScript.Submit | src/extension/content/content.js:182-190 | a text that trims to nothing is ignored; in practice mode without a token nothing is sent; whenever nothing is sent the history is unchanged; otherwise the trimmed text goes through `SendMessage` |
| Content.ContentScript.ClearHistory | src/extension/content/content.js:625-627 | once confirmed, the history is emptied; otherwise unchanged |
| Popup.ApiErrorMessage | src/extension/popup/popup.js:345-356 | fixed texts for 400, 403 and 429; otherwise the server's error if truthy, else "Lỗi API (status)"; never empty |
| Popup.HistoryAfterTurn | src/extension/popup/popup.js:287-342 | a thrown fetch or a key error (400, 403, 429) leaves the history as it was; an OK answer appends the question and the reply; any other error status leaves it one shorter, or empty |
| Popup.ShownAfterTurn | src/extension/popup/popup.js:306-341 | an OK answer shows the reply, or the no-reply text when it is falsy; a key error shows its fixed message; any other error status shows "Lỗi: " and the server's `error`, or "Server error: <status>"; a thrown fetch shows "Lỗi: " and the exception message |
| Popup.HistoryAfterTurnAlternation | src/extension/popup/popup.js:287-342 | from an alternating history, only an error status outside 400/403/429 breaks the alternation, leaving a user turn last |
| Popup.TokenAfterFetch | src/extension/popup/popup.js:106-125 | the token is taken from an OK response and kept on an error status or a thrown call |
| Popup.PopupSession.constructor | src/extension/popup/popup.js:5-8 | no token, and the saved history (if any) restored |
| Popup.PopupSession.GetToken | src/extension/popup/popup.js:106-125 | the token becomes `TokenAfterFetch` of the old token |
| Popup.PopupSession.InitializeSession | src/extension/popup/popup.js:48-67 | stops at the first failing step: no server, then no key; a token is requested iff both checks passed, and only then can the token change |
| Popup.PopupSession.SendToAPI | src/extension/popup/popup.js:287-342 | the request carries the question, the token, the history before the turn and no mode; the new history is `HistoryAfterTurn`; the key form opens exactly on 400, 403 or 429 |
| Popup.PopupSession.HandleSubmit | src/extension/popup/popup.js:257-284 | a blank text is ignored; without a token only a notice is shown and the history is untouched; otherwise the trimmed text goes through `SendToAPI` |
| Popup.PopupSession.Unload | src/extension/popup/popup.js:519-521 | on unload the token is released iff it is truthy, and nothing changes |
| Popup.PopupSession.ClearHistory | src/extension/popup/popup.js:503-506 | once confirmed, the history is emptied; otherwise unchanged |
| Common.HasApiKey | src/extension/popup/popup.js:89-103 | a key is on file iff the check answered with both `exists` and `hasApiKey` true; a thrown check means no key (the content script's copy, content.js:327-340, is the same) |
| Common.TrimEmptyIff | src/extension/popup/popup.js:260-261 | a text trims to the empty string exactly when every character is whitespace |
| Wire.ToHttp | src/server/index.js:309-333 | a reply goes out with status 200 in `reply`; a failure goes out with its status in `error` |
| Wire.ContentModeRouting | src/server/index.js:145-154 | the content script's exam and teacher modes are exactly the shared-pool modes, and each mode gets its own instruction |
| Wire.PopupRequestNeedsToken | src/extension/popup/popup.js:295-303 | popup requests carry no mode, so without an active token they are refused with 401 before any call, and the cursor does not move |
| Wire.ClientsDisagreeOnKeyErrors | src/extension/popup/popup.js:308-318 | on 400, 403 or 429 the popup keeps its history, while the content script also drops the previous turn |
| Wire.TokenlessSharedTurnRollsBack | src/server/index.js:300-313 | a tokenless exam or teacher turn that the backend answers comes back as 500 with the TypeError; the content script shows it and pops one turn of its earlier history |

## Left out

- HTTP plumbing is not modelled: `parseBody`, `sendJson` headers, CORS, routing on method and path, `/health` and `server.listen`. Each handler takes the fields of its parsed body. An absent string field is "", and both are falsy in the source.
- The values of the twelve shared keys are not reproduced. The pool is a constructor argument of exactly twelve strings.
- The Gemini SDK is not modelled. It is the parameter `gen`, which gives a reply or an error message per call.
- `uuidv4` is not modelled. Its result is a parameter that must be non-empty and not already an active token.
- `/api/classify` is left out. It is a thin wrapper over the SDK.
- The text of the three system instructions is not modelled. They are three distinct constants.
- Server.ExamFilterRefuses: `toLowerCase` is modelled for ASCII letters only. Vietnamese upper-case letters such as "Đ" or "Ả" are not lowered, so the model's filter can differ from the source on prompts written with them.
- Common.TrimStart: the whitespace set is the fixed ECMAScript list. Unicode category Zs is taken as the characters it holds today.
- String lengths are counted in code points, while JavaScript counts UTF-16 units. This matters only for the `length >= 30` check on keys outside the Basic Multilingual Plane.
- ServerFacts.AskTokenlessSuccessFails: the modelled message is the null-token wording. When a content script sends no token because `getToken` stored `undefined`, the TypeError says "undefined" instead, and that case is not modelled. Both texts map to 500 in the same way.
- A request whose `prompt` is missing in exam mode is not modelled. It throws at `toLowerCase` and reaches the outer 500 handler. The prompt is a string in the model.
- A `history` that is not an array is not modelled. The server ignores it, and the model's history is always a sequence.
- The DOM is not modelled: rendering, `formatMessage`, `extractYouTubeId`, `escapeHtml`, typing indicators, status dots, the API-key form and its handlers. Page facts such as `#timeleft`, the question-page test and `extractProblem`'s trimmed fields are parameters.
- `localStorage` is not modelled. `saveChat` is not modelled, and `loadChat` is a constructor argument giving the saved history.
- `confirm` dialogs are modelled as a boolean parameter.
- The health check, `/check-user` and `/get-token` fetches are modelled as outcome parameters.
- Timers and history-API patching are not modelled. `setInterval`, the 60-second cut-off and the `pushState`/`replaceState` wrappers are modelled as one call of `Reevaluate`.
- Async interleaving is not modelled. Each handler runs to completion before the next one starts.
- The release fetch is not modelled. `Collapse` and `Unload` return the token they would send.
- `src/extension/background/background.js` is not part of this model. It holds only an install log and an icon-URL message handler.
