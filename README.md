# Profile chatbot answer pipeline

This project models the portfolio chatbot's answer pipeline in Dafny. The chatbot answers questions about one person from a local profile document and a hosted language model. The model covers two copies of the pipeline:

- the deployed endpoint `onRequest` in `functions/api/chat.ts`;
- the browser-side copy `sendMessageToGroq` in `services/groqService.ts`.

Both copies run the same stages:

1. A classifier call decides whether the question is personal.
2. A main call follows. For a personal question it forces the `get_profile_info` tool.
3. The tool calls of the main reply are validated against a fixed allow-list of key paths. Each key path is resolved in the profile. Only when every call names the tool, asks only for allowed paths and every path has a value does a follow-up call produce the answer. Any other case gives the fixed "missing information" text.

The endpoint adds its own layer:

- five API keys read from the environment;
- a session cookie `groq_api_key_index` that remembers the key in use;
- rotation to the next key when the current one is rate-limited;
- request checks (method, body, message);
- a mapping of errors to user-visible texts.

The model is organized as follows:

- `Wrappers`: `Option` and `Result`.
- `JsText`: the JavaScript string and array built-ins the source relies on, with their laws. These are `trim`, `split`/`join` on one character, `toLowerCase` (ASCII letters), `includes`, `Number.parseInt` and the decimal text of a number.
- `Profile`: the JSON-like profile document, `isMissingValue` and `getProfileValue`. The lookup is a method that walks the segments of the key path, proved equal to the function `Resolve`.
- `Upstream`: the chat-completion requests and replies the pipeline exchanges with the model service.
- `ToolPolicy`: the tool-call `map` of both copies. `ProcessToolCalls` is a loop over the calls that keeps the two "invalid" flags and the results. It is proved equal to `ToolDecision`, and the all-or-nothing policy is proved about `ToolDecision`.
- `Pipeline`: the stages both copies share: the history window, the classifier request and verdict, the main request, and what the main reply leads to.
- `Credentials`: the endpoint's keys, cookie parsing, the session key index, the session cookie and the rate-limit test.
- `Rotation`: the per-request rotation state. This is a class whose fields the source's closures update (`apiKeyIndex`, `setApiKeyCookie`), with `createChatCompletionWithRotation` as a loop over the keys.
- `ChatEndpoint`: `onRequest` both as the function `HandleRequest` and as the step-by-step method `OnRequest` on a `KeyRotation`, proved equal to it. The lemmas cover the endpoint's promises: the order of the request checks, keys used in non-decreasing order, the cookie round trip and the error texts.
- `GroqService`: `sendMessageToGroq` as the function `GroqExchange` and the method `SendMessageToGroq`, with its lemmas. It also compares its allow-list with the endpoint's.

The model service, the process environment and `JSON.parse` are parameters:

- An `UpstreamOracle` gives, for each stage and each of the five keys, what the call would return (a completion or a thrown error).
- A `GroqOracle` does the same for the single key of the browser-side copy.
- `parse` stands for `JSON.parse`, with `None` for a string it rejects.

The model records every request sent, and the key it was sent with, so the lemmas can state which calls happen and in what order.

Points where the two copies differ, or that are easy to misread:

- The history window is 8 entries in the endpoint (`MAX_HISTORY_LENGTH` at `functions/api/chat.ts:6`). It is 10 in the browser-side copy (`constants.ts:3`).
- The endpoint trims the new message and rejects a blank one. The browser-side copy does neither.
- The browser-side copy treats only an absent or empty `GROQ_API_KEY` as missing, without trimming it.
- JavaScript's `in` operator also sees inherited keys. The model's lookup only sees the document's own keys.

## Model

| member | source | states |
|---|---|---|
| JsText.TrimShape | functions/api/chat.ts:387 | `trim` returns a contiguous piece of the string with no whitespace at either end |
| JsText.TrimEmptyIff | functions/api/chat.ts:172 | a string trims to the empty string exactly when all its characters are whitespace |
| JsText.TrimNoOp | functions/api/chat.ts:181 | a string with no whitespace at either end is its own trim |
| JsText.TrimIdempotent | functions/api/chat.ts:387 | trimming twice is the same as trimming once |
| JsText.TrimInside | functions/api/chat.ts:181 | every character of the trimmed string occurs in the original |
| JsText.TrimStartShape | functions/api/chat.ts:181 | dropping leading whitespace leaves the suffix from the first non-whitespace character |
| JsText.TrimEndShape | functions/api/chat.ts:181 | dropping trailing whitespace leaves the prefix up to the last non-whitespace character |
| JsText.Split | functions/api/chat.ts:252-253 | `split` on one character yields at least one piece, and no piece contains the separator |
| JsText.JoinSplit | functions/api/chat.ts:253-255 | joining the pieces of a split with the same separator gives the original string back |
| JsText.SplitJoin | functions/api/chat.ts:298-300 | splitting a join of separator-free pieces gives the pieces back |
| JsText.SplitNoSeparator | functions/api/chat.ts:180 | a string without the separator splits into itself alone |
| JsText.SplitAppend | functions/api/chat.ts:180 | a separator between two strings splits into the pieces of the first followed by the pieces of the second |
| JsText.TrimEach | functions/api/chat.ts:181 | the mapped trim has the same length and trims each element in place |
| JsText.DropEmpty | functions/api/chat.ts:182 | `filter(Boolean)` keeps exactly the non-empty elements, and nothing else |
| JsText.DropEmptyAppend | functions/api/chat.ts:182 | filtering a concatenation filters each part |
| JsText.TrimEachAppend | functions/api/chat.ts:181 | trimming a concatenation trims each part |
| JsText.Lower | functions/api/chat.ts:230 | `toLowerCase` keeps the length and maps every character to its lower case |
| JsText.LowerIdempotent | functions/api/chat.ts:580 | lower-casing twice is lower-casing once |
| JsText.ContainsIff | functions/api/chat.ts:230 | `includes` holds exactly when the pattern occurs at some position |
| JsText.NoPairNoMatch | functions/api/chat.ts:583 | a pattern whose two neighbouring characters never stand side by side in the string is not found |
| JsText.NoCharNoMatch | functions/api/chat.ts:583 | a pattern holding a character absent from the string is not found |
| JsText.DigitChar | functions/api/chat.ts:271 | the character for a value below ten is a decimal digit |
| JsText.DecimalString | functions/api/chat.ts:271 | the text of a number is a non-empty run of digits with no leading zero, except for zero itself |
| JsText.DecimalStringValue | functions/api/chat.ts:271 | the digits of the text of `n` have the value `n` |
| JsText.LeadingDigits | functions/api/chat.ts:263 | the longest prefix made only of digits |
| JsText.ParseInt | functions/api/chat.ts:263 | `Number.parseInt(s, 10)` fails exactly when no digit follows the leading whitespace and the optional sign |
| JsText.ParseIntDecimal | functions/api/chat.ts:263-271 | parsing the text written for a non-negative integer gives that integer back |
| JsText.ParseIntOfDigits | functions/api/chat.ts:263 | a non-empty run of digits parses to its value |
| Profile.MissingStringIff | functions/api/chat.ts:170-176 | a string value is missing exactly when it is all whitespace |
| Profile.KeyPathSegments | functions/api/chat.ts:179-182 | every segment of a key path is non-empty and free of dots |
| Profile.SegmentsOfDotted | functions/api/chat.ts:179-182 | a dot splits a key path into the segments of its two sides, so empty segments around it vanish |
| Profile.SegmentsOfUndotted | functions/api/chat.ts:179-182 | a dot-free path is one segment, its trim, or none when that is empty |
| Profile.SpacedKeyPath | functions/api/chat.ts:179-182 | spaces around the segments of a two-part path do not change the segments |
| Profile.PaddedWord | functions/api/chat.ts:179-182 | a word padded by spaces is the single segment of that word |
| Profile.WalkAppend | functions/api/chat.ts:186-197 | walking a concatenated path is walking the first part, then the rest from where it ended |
| Profile.WalkFailsAt | functions/api/chat.ts:186-197 | the walk fails once it reaches a non-object or a missing key |
| Profile.ResolveSegments | functions/api/chat.ts:199-203 | a found value is never a missing value |
| Profile.Resolve | functions/api/chat.ts:178-204 | `getProfileValue` never reports a missing value as found |
| Profile.GetProfileValue | functions/api/chat.ts:178-204 | the lookup loop, reassigning the current node, computes `Resolve` |
| Profile.ResolveFoundIff | functions/api/chat.ts:178-204 | a path resolves to `v` exactly when the walk along its segments ends at `v` and `v` is not missing |
| Profile.ResolveSpacedPath | functions/api/chat.ts:179-182 | `" a . b "` resolves as `a.b` does |
| Profile.ResolveFailsAt | functions/api/chat.ts:186-197 | the lookup reports not found as soon as the walk meets a non-object or a missing key |
| ToolPolicy.StringItems | functions/api/chat.ts:496-498 | the string filter keeps every string among the items and nothing else, and never lengthens the list |
| ToolPolicy.StringItemsAppend | functions/api/chat.ts:496-498 | the filter keeps the items' order: filtering a concatenation concatenates the filtered parts |
| ToolPolicy.RequestedKeyPaths | functions/api/chat.ts:493-502 | reading the paths fails exactly on null or undefined arguments, and every path read is non-empty |
| ToolPolicy.RequestedKeyPathsIff | functions/api/chat.ts:493-502 | for object arguments, a path is requested exactly when it is the non-empty trim of a string `key_path` or of a string item of an array `key_paths`; other non-null arguments request nothing |
| ToolPolicy.AllowedPaths | functions/api/chat.ts:508-510 | the allow-list filter keeps only allowed paths that were requested |
| ToolPolicy.AllowedPathsAll | functions/api/chat.ts:508-520 | nothing is dropped by the filter exactly when every requested path is allowed, and then the filter changes nothing |
| ToolPolicy.Dedup | functions/api/chat.ts:522 | `Array.from(new Set(xs))` has the same elements as `xs`, each once |
| ToolPolicy.DedupFirstOccurrenceOrder | functions/api/chat.ts:522 | the de-duplicated paths are in the order of their first occurrences |
| ToolPolicy.ResolveAll | functions/api/chat.ts:523-526 | there is one lookup per path |
| ToolPolicy.ResolveAllAt | functions/api/chat.ts:523-526 | entry `k` holds path `k` and its lookup |
| ToolPolicy.ResolvePaths | functions/api/chat.ts:523-526 | the lookup loop computes `ResolveAll` |
| ToolPolicy.Checks | functions/api/chat.ts:470-540 | the map gives each call's check, in order |
| ToolPolicy.ScanOneMore | functions/api/chat.ts:470-540 | mapping one more call is one more step of the scan |
| ToolPolicy.AbortSticks | functions/api/chat.ts:486-502 | once reading a call's arguments throws, later calls change nothing |
| ToolPolicy.EvaluateCall | functions/api/chat.ts:476-538 | the callback's body computes the call's check |
| ToolPolicy.ProcessToolCalls | functions/api/chat.ts:470-548 | the loop over the calls, with its flags and results, computes `ToolDecision` |
| ToolPolicy.CheckResults | functions/api/chat.ts:542-548 | the follow-up's tool messages come out exactly when no flag is set, there is a result and every result was found, and they are the results' messages in order; every other case is the missing-information answer |
| ToolPolicy.ToolDecisionError | functions/api/chat.ts:486-494 | the only error the tool-call processing throws is the TypeError of reading `key_path` from `null` or `undefined` arguments |
| ToolPolicy.FoundAllIff | functions/api/chat.ts:527-528 | `foundAll` holds exactly when there is at least one path and every path resolves |
| ToolPolicy.DedupKeepsAll | functions/api/chat.ts:522 | removing duplicates keeps "non-empty" and "every element passes a test" |
| ToolPolicy.DedupKeepsFound | functions/api/chat.ts:522-528 | removing duplicates keeps "every path resolves" |
| ToolPolicy.CheckPathsAccepted | functions/api/chat.ts:508-538 | a call is accepted exactly when it asks for at least one path, all allowed and all resolving, and its tool message then holds the lookups |
| ToolPolicy.CallAcceptedIff | functions/api/chat.ts:476-538 | the callback accepts a call exactly when it names the tool, its arguments are readable, and it asks for at least one path, all allowed and all with a value |
| ToolPolicy.ScanSummary | functions/api/chat.ts:470-540 | the map throws exactly when some call's arguments throw, and otherwise its flags and results sum up the checks |
| ToolPolicy.DecideResolvedIff | functions/api/chat.ts:542-548 | the follow-up is reached exactly when there is at least one check and every check is accepted |
| ToolPolicy.ToolDecisionResolvedIff | functions/api/chat.ts:470-548 | the follow-up is reached exactly when there is at least one call and every call passes the policy |
| ToolPolicy.ToolDecisionMessages | functions/api/chat.ts:530-538 | the follow-up then carries one tool message per call, in order |
| ToolPolicy.OneBadCallRejects | functions/api/chat.ts:542-548 | one call that fails the policy is enough to prevent the follow-up |
| ToolPolicy.CallPassesMonotone | functions/api/chat.ts:508-510 | a call passing under an allow-list passes under any larger one |
| ToolPolicy.AllowListMonotone | functions/api/chat.ts:470-548 | widening the allow-list never changes an outcome that reached the follow-up |
| Pipeline.RecentHistory | functions/api/chat.ts:395 | `slice(-n)` keeps the last `min(n, length)` entries |
| Pipeline.HistoryWindowIgnoresOlder | functions/api/chat.ts:395 | entries older than the window do not change the window |
| Pipeline.FormatHistoryEmptyIff | functions/api/chat.ts:297-300 | the classifier history text is empty exactly when there is no history |
| Pipeline.FormatHistoryLines | functions/api/chat.ts:297-300 | without newlines in the contents, the text has one line per entry, in order |
| Pipeline.ClassifierRequest | functions/api/chat.ts:397-421 | the classifier request has its system prompt and one user message, uses no tools and asks for the classifier schema |
| Pipeline.ClassifierRequestContent | functions/api/chat.ts:397-406 | the user message opens with the history header, shows `(none)` right after it exactly when the history is empty, and ends with the current query header and the new message |
| Pipeline.ClassifierVerdictCases | functions/api/chat.ts:423-445 | classification fails exactly on absent or blank content, with the empty-classifier error, and is personal exactly when the parsed output's `is_personal` is `true` |
| Pipeline.MainRequestShape | functions/api/chat.ts:442-463 | the tool is forced exactly for a personal question, with the personal prompt; the history turns and the message follow the prompt |
| Pipeline.ReplyText | functions/api/chat.ts:572-577 | the reply text never leads to another call |
| Pipeline.ReplyTextCases | functions/api/chat.ts:563-577 | a reply gives an answer exactly when its content is not blank, and that answer is the trimmed content; otherwise it gives the empty-response error |
| Pipeline.AfterMainFollowUpIff | functions/api/chat.ts:465-561 | the follow-up request is made exactly when the reply has tool calls and every one passes the policy |
| Pipeline.AfterMainFollowUpRequest | functions/api/chat.ts:550-561 | the follow-up request carries the main messages, the reply and one tool message per call, with no tools |
| Pipeline.AfterMainRejects | functions/api/chat.ts:542-548 | a rejected call, when no arguments throw, gives the missing-information answer |
| Pipeline.AfterMainRejectsOrThrows | functions/api/chat.ts:486-548 | a rejected call gives the missing-information answer, or the TypeError of unreadable arguments |
| Pipeline.HandleMainReply | functions/api/chat.ts:465-577 | the step-by-step handling of the main reply computes `AfterMain` |
| Credentials.ResolveApiKeys | functions/api/chat.ts:233-247 | there are always five keys |
| Credentials.KeyTextEmptyIff | functions/api/chat.ts:247 | a key is empty exactly when its variable is unset or blank |
| Credentials.ApiKeysPresentIff | functions/api/chat.ts:233-247 | no key is missing exactly when `_2` to `_5` are set and not blank, and `_1` is, or, when `_1` is unset, `GROQ_API_KEY` is |
| Credentials.CookieAtFirstEquals | functions/api/chat.ts:253-255 | a cookie's name is what precedes the first `=`, and its value is everything after it |
| Credentials.CookieWithoutEquals | functions/api/chat.ts:253-255 | a part without `=` is all name, with an empty value |
| Credentials.Entries | functions/api/chat.ts:252-255 | each part of the header becomes its name and value, in order |
| Credentials.CookieFoldKeys | functions/api/chat.ts:252-257 | the names present are exactly the non-empty names of the parts |
| Credentials.CookieFoldLastWins | functions/api/chat.ts:255 | the last part with a given name decides its value |
| Credentials.ParseCookies | functions/api/chat.ts:249-258 | the loop over the parts computes the cookie dictionary, empty for an absent or empty header |
| Credentials.SessionKeyIndex | functions/api/chat.ts:260-268 | the session key index is always between 1 and the number of keys |
| Credentials.SessionKeyIndexSource | functions/api/chat.ts:260-268 | any index other than 1 comes from the cookie's value, and without the cookie the index is 1 |
| Credentials.GetApiKeyIndexFromRequest | functions/api/chat.ts:260-268 | the method computes `SessionKeyIndex` |
| Credentials.NameValueShape | functions/api/chat.ts:253-255 | a plain `name=value` pair parses back to that name and value |
| Credentials.CookiePairShape | functions/api/chat.ts:270-271 | the session cookie pair is named `groq_api_key_index` and holds the index's decimal text |
| Credentials.BuildApiKeyCookiePair | functions/api/chat.ts:270-271 | the first `;` part of the `Set-Cookie` value is the `name=value` pair |
| Credentials.CookiesLastPart | functions/api/chat.ts:249-258 | a header ending with a pair gives that pair's value for its name |
| Credentials.CookiesSinglePart | functions/api/chat.ts:249-258 | a header holding one pair gives that pair's value |
| Credentials.SessionKeyIndexRoundTrip | functions/api/chat.ts:260-271 | a header whose last cookie is the pair written for index `i` reads back `i` |
| Credentials.IsRateLimitErrorIff | functions/api/chat.ts:227-231 | a rate-limit error is exactly an object whose message, lower-cased, contains "rate limit" |
| Credentials.ExhaustedIsRateLimit | functions/api/chat.ts:364-369 | the error thrown when every key is rate-limited is itself a rate-limit error |
| Rotation.RotateFromSpec | functions/api/chat.ts:348-370 | the rotation tries consecutive keys from the start, and every key before the last was rate-limited; the last key's answer decides, and an "all keys" error only comes from the last key of all |
| Rotation.RotateNeverBackwards | functions/api/chat.ts:348-370 | the last key tried is never below the start, and a success on the first key tries only that key |
| Rotation.RotateFromStep | functions/api/chat.ts:349-366 | one step of the loop: success or another error stops it, and a rate limit moves on, or throws the "all keys" error on the last key |
| Rotation.KeyRotation.constructor | functions/api/chat.ts:324-325 | the state starts at the session's index with no cookie |
| Rotation.KeyRotation.SetApiKeyIndex | functions/api/chat.ts:332-336 | the same index changes nothing; a new index is recorded with a cookie naming it; the rotation state stays valid |
| Rotation.KeyRotation.CreateChatCompletionWithRotation | functions/api/chat.ts:348-370 | the loop computes `RotateFrom` from the current index, and moves the index to the key that answered, only on success |
| ChatEndpoint.SentWith | functions/api/chat.ts:348-355 | one call per key tried, each with the same request |
| ChatEndpoint.FollowUpStage | functions/api/chat.ts:550-569 | the follow-up stage never moves the key index backwards or past the last key |
| ChatEndpoint.ReplyStage | functions/api/chat.ts:465-577 | what follows the main reply never moves the key index backwards |
| ChatEndpoint.ReplyStageShape | functions/api/chat.ts:550-577 | the calls already made come first, and one more call is made exactly for a follow-up |
| ChatEndpoint.MainStage | functions/api/chat.ts:456-577 | the main stage never moves the key index backwards |
| ChatEndpoint.Answering | functions/api/chat.ts:395-577 | answering never moves the key index below the session's index |
| ChatEndpoint.ChatErrorTextCases | functions/api/chat.ts:578-587 | a rate-limit error gets the rate-limit text, even when it mentions an API key; then an "api key" error gets the invalid-key text; anything else gets the missing-information text |
| ChatEndpoint.RunFollowUp | functions/api/chat.ts:550-569 | the follow-up on the session state computes `FollowUpStage` and keeps the state valid |
| ChatEndpoint.RunMain | functions/api/chat.ts:456-577 | the main call and what follows, on the session state, compute `MainStage` |
| ChatEndpoint.OnRequest | functions/api/chat.ts:302-588 | the handler, step by step on a fresh rotation state, computes `HandleRequest` with the endpoint's allow-list |
| ChatEndpoint.AnswerRequest | functions/api/chat.ts:393-587 | the `try`/`catch` on the rotation state computes `Respond` |
| ChatEndpoint.RotationKeys | functions/api/chat.ts:348-370 | one rotated call uses keys from the start index to the last one tried, in order |
| ChatEndpoint.FollowUpKeys | functions/api/chat.ts:550-569 | the follow-up uses keys in non-decreasing order from its start, and its final index is a key it used |
| ChatEndpoint.ReplyStageKeys | functions/api/chat.ts:550-577 | what follows the main reply keeps the keys in order |
| ChatEndpoint.MainKeys | functions/api/chat.ts:456-577 | the main stage keeps the keys in order |
| ChatEndpoint.AnsweringKeys | functions/api/chat.ts:395-577 | answering keeps the keys in order from the session's index |
| ChatEndpoint.RespondKeys | functions/api/chat.ts:324-587 | keys are used in non-decreasing order from the session's index; a cookie is set only for a later key that was used |
| ChatEndpoint.RequestKeys | functions/api/chat.ts:302-588 | the same for the whole handler, from the index read from the cookie |
| ChatEndpoint.MissingKeysFirst | functions/api/chat.ts:314-323 | missing keys give status 500 with no cookie and no call, and no other response has status 500 |
| ChatEndpoint.RequestChecks | functions/api/chat.ts:372-393 | in order: not POST gives 405, a non-object body or a blank or absent message gives 400, each with no call and no cookie; otherwise status 200 and the first call is the classifier request on the session's key |
| ChatEndpoint.HistoryWindow | functions/api/chat.ts:395 | history entries before the last eight change nothing |
| ChatEndpoint.MessageTrimmed | functions/api/chat.ts:384-388 | whitespace around the message changes nothing |
| ChatEndpoint.ClassifierCallsFirst | functions/api/chat.ts:408-421 | the classifier calls come first, one per key tried, from the session's key |
| ChatEndpoint.ClassifierFailureEnds | functions/api/chat.ts:408-427 | a failed or blank classifier reply ends the request with that error and no further call |
| ChatEndpoint.ClassifierDecidesTool | functions/api/chat.ts:429-463 | a classifier reply with content leads to the main request on the key that answered, with the tool forced exactly for a personal verdict |
| ChatEndpoint.MainCallFirst | functions/api/chat.ts:456-463 | the main stage starts with the main request on its key |
| ChatEndpoint.InternalErrorsAnswerMissingInfo | functions/api/chat.ts:578-587 | an empty classifier reply or an empty answer is shown as the missing-information text |
| ChatEndpoint.QuietAnswersMissingInfo | functions/api/chat.ts:578-587 | an error whose message has no space before `l`, and no `k` or no `i` before a space, is answered with the missing-information text |
| ChatEndpoint.QuietMentionsNothing | functions/api/chat.ts:580-583 | such a message mentions neither "rate limit" nor "api key" |
| ChatEndpoint.MainStageTools | functions/api/chat.ts:465-577 | a reply without tool calls ends with its own text; one with tool calls leads to the follow-up on the same key exactly when every call passes, and that call carries the main messages, the reply and one tool message per call |
| ChatEndpoint.MainStageRejects | functions/api/chat.ts:486-587 | a call that fails the policy ends with the missing-information text and no follow-up, whether the policy rejects it or an earlier call's arguments throw |
| ChatEndpoint.ArgumentsErrorAnswersMissingInfo | functions/api/chat.ts:578-587 | the TypeError of unreadable tool arguments is answered with the missing-information text |
| ChatEndpoint.AllKeysRateLimited | functions/api/chat.ts:348-370 | when every key from the session's on is rate-limited, each is tried once in order, and the user gets the rate-limit text with no cookie |
| ChatEndpoint.CookieSticks | functions/api/chat.ts:260-271 | the pair the browser keeps from `Set-Cookie`, sent alone or after other cookies, selects the later key this request moved to |
| GroqService.TryMain | services/groqService.ts:250-359 | the main call and what follows, step by step, compute `MainAttempt` |
| GroqService.TryAnswer | services/groqService.ts:189-359 | the `try` block, step by step, computes `Attempt` |
| GroqService.SendMessageToGroq | services/groqService.ts:177-371 | the function, step by step, computes `GroqExchange` |
| GroqService.KeyCheckedFirst | services/groqService.ts:181-185 | exactly a missing key (absent or empty) rejects with the invalid-key error before any call |
| GroqService.SettleCases | services/groqService.ts:360-370 | the `catch` block rejects exactly on an "api key" error, with the invalid-key error; any other error gives the missing-information text, and a success its own text |
| GroqService.NoRateLimitAnswer | services/groqService.ts:360-370 | unlike the endpoint, a rate-limit error gets the missing-information text here |
| GroqService.GroqHistoryWindow | services/groqService.ts:191 | history entries before the last ten change nothing |
| GroqService.GroqClassifierDecides | services/groqService.ts:205-257 | the classifier call comes first; a failed or blank reply ends there; otherwise the main request follows, with the tool forced exactly for a personal verdict |
| GroqService.MainSentFirst | services/groqService.ts:250-257 | the main stage's first request is the main request |
| GroqService.GroqFollowUpIff | services/groqService.ts:258-339 | the follow-up is sent exactly when the reply has tool calls and every one passes the policy |
| GroqService.GroqFollowUpMessages | services/groqService.ts:328-339 | the follow-up carries the main messages, the reply and one tool message per call |
| GroqService.MainAttemptSent | services/groqService.ts:250-339 | the main request is sent, then the follow-up exactly when the reply leads to one |
| GroqService.GroqMainRejects | services/groqService.ts:273-370 | a call that fails the policy gives the missing-information text with no follow-up, whether the policy rejects it or an earlier call's arguments throw |
| GroqService.GroqArgumentsErrorAnswersMissingInfo | services/groqService.ts:360-370 | the TypeError of unreadable tool arguments is settled with the missing-information text |
| GroqService.GroqInternalErrorsAnswerMissingInfo | services/groqService.ts:360-370 | an empty classifier reply or an empty answer is shown as the missing-information text |
| GroqService.AllowListsNested | services/groqService.ts:46-91 | every path the browser-side copy allows, the endpoint allows too |
| GroqService.AllowListsDiffer | services/groqService.ts:46-91 | `phone_number` and `current_date` are allowed by the endpoint only |
| GroqService.GroqPolicyStricter | services/groqService.ts:266-326 | tool calls the browser-side policy lets through, the endpoint's lets through with the same tool messages |
| GroqService.GroqRejectsPhoneNumber | services/groqService.ts:292-296 | a call asking for `phone_number` prevents the browser-side follow-up |

## Left out

- Network I/O: the calls to the model service are the oracle parameters. The SDK client, `fetch`, the request URL, headers and HTTP errors other than the thrown error value are not modelled.
- `JSON.parse` is a parameter. `JSON.stringify` of the tool results and the tool message contents are kept as structured values, not as text.
- Prompt texts, JSON schemas, model names and temperatures are not modelled. Requests record only their messages, the tool choice and whether the classifier schema is asked for.
- Logging (`log`, `logError`, `debugLogging`, `console.*`), the `calledKeyPaths`/`invalidKeyPaths` bookkeeping that only feeds logs, and the `failed_generation` log are left out because they change no result.
- `toLowerCase` is modelled for ASCII letters only. Upstream error messages can hold other letters that JavaScript lower-cases into ASCII (U+212A KELVIN SIGN becomes `k`), so a message that mentions "api key" only through such a letter is answered differently in the model.
- Strings are sequences of Dafny `char`, which are Unicode scalar values; JavaScript strings are UTF-16 code units, so lengths and indices of text outside the Basic Multilingual Plane differ, and lone surrogates cannot be written.
- The TypeError messages of unreadable tool arguments follow the V8 wording (`Cannot read properties of null (reading 'key_path')`); they are written as concatenations of their parts, with the same values.
- Rotation.KeyRotation.SetApiKeyIndex: requires the new index not to lie below the current one, as in every call; the source's setter would also take a lower index.
- Inherited prototype keys seen by JavaScript's `in` operator are left out; the profile lookup sees the document's own keys only.
- History entries are modelled as string `role` and `content`. The endpoint's `String(msg.content ?? "")` coercion of non-strings is not modelled, and a history that is not an array is given as the empty history.
- Error messages are modelled as strings or absent. The endpoint's `String(...)` of a non-string message is not modelled, nor is the browser-side copy's throw when `toLowerCase` is called on a non-string message.
- `Number.parseInt` is modelled as leading whitespace, an optional sign and leading digits. Its other number syntaxes cannot reach a cookie index between 1 and 5.
- The `Response`/`Headers` plumbing of `jsonResponse` is not modelled. A response is its status, its body and its `Set-Cookie` value.
- The endpoint's number of keys is fixed at five, as `resolveApiKeys` always yields five.
- ChatEndpoint.HandleRequest: takes the allow-list as a parameter; `OnRequest` ties it to the endpoint's list.
- The user interface (`App.tsx`, `components/`), concurrent requests and races on the cookie are not part of this model.
