# Date Mate: a Dafny model

Date Mate is a dating-advisor service. It has a FastAPI backend and a Streamlit client.

The backend:

- stores one profile per user;
- lists potential matches, scored by a weighted comparison of the two profiles;
- keeps a per-user chat log that it sends to a language model;
- limits each client to a number of requests per time window;
- reports every failure as an API error: an HTTP status, a detail text and a machine-readable code.

The client:

- keeps two displayed chat histories, one per mode ("advisor" and "partner");
- rebuilds the model's message list from the displayed history on each message;
- tracks a few recent conversation topics;
- parses list-valued profile fields from comma- or newline-separated text.

The model has one module per source file:

| module | source file |
|---|---|
| Errors | the exception classes |
| Schemas | the request and response records |
| Profiles | the profile routes and their shared store |
| Matching | scoring and the match listing |
| ChatModel | the backend chat state |
| ChatRouter | the chat routes and their session map |
| RateLimit | the rate limiter and the authentication dependency |
| ClientChat | the client's chat chain and its comma lists |
| ProfileForm | the client's profile form |

Three supporting modules model no source function of their own:

- Wrappers: Option, Result and Outcome.
- Seqs: list facts.
- Text: Python's `split`, `strip`, `join`, `lower` and substring test over `seq<char>`.

How the source's structures are modelled:

- State that the source updates in place is a class with `modifies` clauses: the profile store, a chat state and the session map, the rate-limit store, the client's chain state and the client's session.
- Each method is proved equal to a specification function. The function's properties are proved as lemmas.
- A Python dict's iteration order is the order in which keys were first inserted. The profile store therefore carries its keys in that order, next to the map. The match listing scans in that order, and its stable sort keeps ties in it.

Outside effects are parameters:

- the clock: `now`; `first` and `second` for the two rate-limit checks of one request; `asked` and `answered` for the chat routes' reads before and after the model answers;
- the rate-limit settings: `limit` and `period`;
- the decoded access token: a `Token`;
- the language model's answer: a `Completion` or an `LlmReply`.

Each chat operation also returns, as `sent`, the exact message list it hands to the model.

## Model

| member | source | states |
|---|---|---|
| Errors.BaseApiException | backend/app/networks/exceptions.py:6-14 | The status and detail are kept as given; the code is "ERROR" unless one is supplied |
| Errors.ChatException | backend/app/networks/exceptions.py:16-19 | Status 400; code "CHAT_ERROR" by default |
| Errors.ProfileException | backend/app/networks/exceptions.py:21-24 | Status 400; code "PROFILE_ERROR" by default |
| Errors.ConfigException | backend/app/networks/exceptions.py:26-29 | Status 500; code "CONFIG_ERROR" by default |
| Errors.AuthenticationException | backend/app/networks/exceptions.py:31-34 | Status 401; detail "Not authenticated" and code "AUTH_ERROR" by default |
| Errors.RateLimitException | backend/app/networks/exceptions.py:36-39 | Status 429; detail "Rate limit exceeded" and code "RATE_LIMIT_ERROR" by default |
| Errors.Raise | backend/app/networks/exceptions.py:16-39 | Every kind keeps the detail and uses its default code; every status is a 4xx or 5xx; only a configuration error is a server error (5xx) |
| Errors.KindOf | backend/app/networks/exceptions.py:16-39 | A recognised code is the default code of the kind it names |
| Errors.KindOfRaise | backend/app/networks/exceptions.py:16-39 | The five default codes are distinct: an error raised with its kind's default code is read back as that kind |
| Errors.DefaultDetails | backend/app/networks/exceptions.py:10-39 | The full default errors: (401, "Not authenticated", "AUTH_ERROR"), (429, "Rate limit exceeded", "RATE_LIMIT_ERROR"), and the base code "ERROR" |
| Schemas.ProfileFromDict | backend/app/models/schemas.py:5-22 | A JSON object validates exactly when all 17 fields are present with their declared types and 18 <= age <= 99; the result is valid, and its `.dict()` is the object without its unknown keys |
| Schemas.FieldsRequired | backend/app/models/schemas.py:5-22 | No field has a default: an object missing any one of the 17 keys is rejected |
| Schemas.ProfileRoundTrip | backend/app/models/schemas.py:7 | Validating a profile's `.dict()` gives the profile back exactly when its age is in range, and fails otherwise |
| Schemas.ChatModePatternAcceptsTrailingNewline | backend/app/models/schemas.py:32 | The pattern as written accepts "advisor\n", which is not a valid mode |
| Schemas.ValidChatModeIsPatternWithoutNewline | backend/app/models/schemas.py:32 | Exactly "advisor" and "partner" are the strings the pattern accepts that do not end in a newline |
| Schemas.NewTokenResponse | backend/app/models/schemas.py:43-45 | The token response holds the given token and token type |
| Schemas.TokenTypeDefaultsToBearer | backend/app/models/schemas.py:45 | The token type defaults to "bearer" |
| Profiles.Get | backend/app/routers/profile_router.py:13-24 | A caller other than the path id gets the "own profile" error; a missing id gets "Profile not found for user <id>"; success happens exactly when neither applies, and returns the stored profile |
| Profiles.PutReply | backend/app/routers/profile_router.py:27-38 | Succeeds exactly when the caller is the path id, and returns its argument; otherwise the "own profile" update error |
| Profiles.DeleteReply | backend/app/routers/profile_router.py:41-53 | The wrong-caller and not-found errors, in that order; success exactly when neither applies, with "Profile deleted successfully" |
| Profiles.PutThenGet | backend/app/routers/profile_router.py:22-38 | Put returns its argument, and a get of the same id afterwards returns exactly that profile |
| Profiles.PutFrame | backend/app/routers/profile_router.py:34-37 | Put overwrites one key; every other key and its profile are unchanged; a rejected put changes nothing |
| Profiles.DeleteThenGet | backend/app/routers/profile_router.py:50-53 | After a successful delete, a get of that id reports not found; every other key and its profile are unchanged |
| Profiles.FailedDeleteKeepsStore | backend/app/routers/profile_router.py:47-51 | A rejected delete (wrong caller or missing id) leaves the store unchanged |
| Profiles.OrderPreserved | backend/app/routers/profile_router.py:37-52 | Put and delete keep the dict's iteration order listing every key exactly once: a new key is appended, a deleted key drops out |
| Profiles.ProfileStore.constructor | backend/app/routers/profile_router.py:10 | The store starts empty |
| Profiles.ProfileStore.GetProfile | backend/app/routers/profile_router.py:13-24 | The reply is that of `Get` on the current store |
| Profiles.ProfileStore.UpdateProfile | backend/app/routers/profile_router.py:27-38 | The reply is that of `PutReply`; the new map is that of `Put`; the iteration order is updated with the map |
| Profiles.ProfileStore.DeleteProfile | backend/app/routers/profile_router.py:41-53 | The reply is that of `DeleteReply`; the new map is that of `Delete`; the iteration order is updated with the map |
| Matching.Denominator | backend/app/routers/matches_router.py:13-40 | The total weight is never below 11, because the +5 and +6 are added unconditionally |
| Matching.MatchScore | backend/app/routers/matches_router.py:10-43 | The score always lies in [0, 100] |
| Matching.NumeratorBounded | backend/app/routers/matches_router.py:16-40 | The weighted shared count never exceeds the user's total weight: an intersection is at most the user's list, and a bonus at most its weight |
| Matching.ScoreIsRatio | backend/app/routers/matches_router.py:18-43 | The `else 0` branch is dead: the score times the total weight is 100 times the weighted shared count |
| Matching.SelfScoreIsHundred | backend/app/routers/matches_router.py:16-43 | A profile whose hobbies, values and languages have no duplicates scores 100 against itself |
| Matching.NothingSharedScoresZero | backend/app/routers/matches_router.py:16-43 | A user with empty lists and no equal scalar fields scores 0 |
| Matching.EmptyScalarsMatch | backend/app/routers/matches_router.py:21-38 | Two equal empty goals, styles and love languages earn every bonus: a user with empty lists then scores 100 |
| Matching.ScoreIsAsymmetric | backend/app/routers/matches_router.py:16-18 | Swapping the profiles changes the score: 1400/17 one way and 100 the other, for hobbies ["chess", "tennis"] and ["chess"] |
| Matching.Redact | backend/app/routers/matches_router.py:77-79 | The redacted profile has exactly the keys of `.dict()` except "deal_breakers" and "values", with the same values |
| Matching.CandidatesSound | backend/app/routers/matches_router.py:63-84 | Every collected entry is a stored key other than the caller; it passes the mutual gender filter and the threshold; it carries its id, its redacted profile and its score |
| Matching.CandidatesComplete | backend/app/routers/matches_router.py:63-84 | Every qualifying stored key is collected, and only stored keys are |
| Matching.CandidatesDistinct | backend/app/routers/matches_router.py:63-84 | No id is collected twice |
| Matching.SortIsOrdered | backend/app/routers/matches_router.py:87 | The sorted list does not increase in score |
| Matching.SortIsPermutation | backend/app/routers/matches_router.py:87 | The sorted list is a permutation of the collected one |
| Matching.SortIsStable | backend/app/routers/matches_router.py:87 | For every score, the entries with that score keep their relative order |
| Matching.Take | backend/app/routers/matches_router.py:88 | The truncated list is a prefix of min(limit, length) entries |
| Matching.RankedOrderAndLength | backend/app/routers/matches_router.py:87-88 | The result does not increase in score, and holds min(limit, number qualifying) entries |
| Matching.RankedSound | backend/app/routers/matches_router.py:63-88 | Every returned entry is a qualifying candidate other than the caller, with its id, its redacted profile and its score |
| Matching.RankedComplete | backend/app/routers/matches_router.py:63-88 | With a limit at least the number of qualifying candidates, each of them is returned exactly once |
| Matching.ScanProfiles | backend/app/routers/matches_router.py:61-84 | The loop over the store, in dict order, collects exactly the candidates' entries |
| Matching.GetMatches | backend/app/routers/matches_router.py:45-88 | The wrong-caller and not-found errors, in that order; otherwise success, with the sorted, truncated candidate list; every entry qualifies and omits the two redacted fields |
| ChatModel.ChatState.constructor | backend/app/models/chat.py:8-11 | A new state has the user's id, no messages, an empty context, and `now` as its last update |
| ChatModel.ChatState.AddMessage | backend/app/models/chat.py:13-20 | Exactly one message is appended (given role, content, `now`), earlier messages are unchanged, and the last update is `now` |
| ChatModel.ChatState.GetMessages | backend/app/models/chat.py:22-24 | All messages, in insertion order |
| ChatModel.ChatState.ClearHistory | backend/app/models/chat.py:26-29 | The log is empty and the last update is `now`; the context and user id are kept |
| ChatRouter.Prompt | backend/app/routers/chat_router.py:55-60 | The list sent is the system message first, then the role and content of every logged message in log order |
| ChatRouter.GroqResponse | backend/app/routers/chat_router.py:17-35 | Succeeds exactly when the service answers, with its text; any failure becomes a chat error whose detail is "Failed to get response from Groq: " followed by the reason |
| ChatRouter.RequestFlow | backend/app/routers/chat_router.py:49-71 | Sent: the system message, then each earlier logged message in order, then the new user message. On success: the log grows by exactly the user's message (stamped when asked), then the reply (stamped when answered); the response carries the reply, which is the last entry, and the whole log. On failure: only the user's message stays, and a 400 chat error results |
| ChatRouter.SystemMessageNeverStored | backend/app/routers/chat_router.py:55-66 | A log without system messages stays without them |
| ChatRouter.PayloadOf | backend/app/routers/chat_router.py:60 | As written, every logged message sent to the service keeps its timestamp |
| ChatRouter.EveryRequestFailsAsWritten | backend/app/routers/chat_router.py:17-60 | As written, every chat request fails with the JSON-serialisation chat error, whatever the service would answer |
| ChatRouter.Converse | backend/app/routers/chat_router.py:49-71 | On one state: the request sent, the new log and the response are those of `Prompt`, `NextLog` and `Respond`, with the user's message and the reply stamped at their own clock reads; user id and context are kept; `last_updated` is the reply's instant on success and the user message's instant on failure |
| ChatRouter.ChatSessions.constructor | backend/app/routers/chat_router.py:15 | No sessions at start |
| ChatRouter.ChatSessions.GetChatState | backend/app/routers/chat_router.py:37-41 | A fresh empty state with the user's id and `last_updated` set to now is created only when none exists; otherwise the map is unchanged and the same state is returned |
| ChatRouter.ChatSessions.Chat | backend/app/routers/chat_router.py:43-101 | Both routes use the caller's one session, whatever the mode; its log, the request sent and the response follow `RequestFlow`, the user's message stamped `asked` and the reply `answered`; the caller's context is kept, or empty for a new session; the caller's `last_updated` is `answered` on success and `asked` on failure; every other user's log, context and `last_updated` are unchanged; every state keeps its owner's id |
| RateLimit.KeySharing | backend/app/dependencies.py:17-19 | A request with no client shares the key "unknown" with a host literally named "unknown"; distinct hosts get distinct keys |
| RateLimit.Prune | backend/app/dependencies.py:28-31 | The kept timestamps are exactly those with now - t < period |
| RateLimit.PruneAppend | backend/app/dependencies.py:28-31 | Pruning distributes over concatenation, so it keeps the order |
| RateLimit.PruneLater | backend/app/dependencies.py:28-31 | Pruning at an earlier time, then at a later one, is the same as pruning once at the later time |
| RateLimit.PruneIdempotent | backend/app/dependencies.py:28-31 | Pruning twice at the same instant is the same as pruning once |
| RateLimit.CheckContract | backend/app/dependencies.py:21-39 | A first request passes with [now], whatever the limit. A known key passes exactly when fewer than `limit` pruned times remain; it then stores the pruned list plus now. A rejection is the 429 error and keeps the pruning. Other keys are unchanged |
| RateLimit.CheckKeepsBound | backend/app/dependencies.py:26-39 | With a limit of at least one, no key ever holds more than `limit` timestamps |
| RateLimit.AdmittedWindow | backend/app/dependencies.py:26-39 | After an admitted request, the key's list ends with now, and every earlier entry is inside the window |
| RateLimit.CurrentUser | backend/app/dependencies.py:53-67 | Succeeds exactly when the token verifies and has a subject, with that subject; otherwise the 401 authentication error |
| RateLimit.ProtectedRequestCountsTwice | backend/app/dependencies.py:70-76 | A new client's first protected request fills two places, [first, second], when the limit is at least 2; with a limit of 1 it is rejected with 429 |
| RateLimit.RejectedTokenStillCounts | backend/app/main.py:20-23 | An unauthenticated request fails yet still takes a place, through the middleware's check |
| RateLimit.RateLimiter.constructor | backend/app/dependencies.py:15 | The store starts empty |
| RateLimit.RateLimiter.CheckRateLimit | backend/app/dependencies.py:21-39 | The verdict and the new store are those of `Check` with the client's key |
| RateLimit.RateLimiter.CommonParams | backend/app/dependencies.py:70-76 | The middleware's check, the token check, then the second check, with the user id and the new store as `Admit` gives them |
| Text.Split | app.py:449 | There is always at least one piece, and no piece contains the separator |
| Text.Strip | app.py:449 | The result neither starts nor ends with whitespace, and every character in it comes from the input |
| Text.StripWindow | app.py:449 | The result is a contiguous window of the input with only whitespace around it |
| Text.ParseListClean | app.py:449 | Every parsed entry is non-empty, stripped and free of the separator |
| Text.ParseListAppend | app.py:449 | Entries keep their order: parsing a·sep·b gives the entries of a, then those of b |
| Text.ParseJoinRoundTrip | app.py:448-449 | Joining clean entries with the separator and trailing whitespace, then parsing, gives them back |
| Text.Lower | app.py:189 | Same length; every character is lower-cased (ASCII) |
| ClientChat.TopicsOnlyAppend | app.py:186-191 | Tracking only appends: the old topics stay first, the list never grows past five, and nothing is added to a full list |
| ClientChat.TopicsAddedFromMessage | app.py:187-191 | Each added topic is one of the five words, occurs in the lower-cased message, and was not recorded before |
| ClientChat.TopicsInListOrder | app.py:187-191 | Added topics follow the order of the five-word list |
| ClientChat.TopicsStayDistinct | app.py:190-191 | A list without duplicates stays without them |
| ClientChat.TopicsComplete | app.py:187-191 | Every word that occurs in the message is recorded, unless the list is full |
| ClientChat.ChainState.constructor | app.py:366-370 | A chain state with the given messages and topics |
| ClientChat.AddMessageToState | app.py:180-193 | Exactly one user message, with the unmodified text, is appended at the end; the topics are those of `UpdateTopics`, so a context without `recent_topics` stays without it |
| ClientChat.GenerateResponse | app.py:195-212 | With an API key: the whole list is sent, exactly one assistant message is appended, the reply or the fixed apology. Without one: the script stops, nothing is sent or appended. The topics are kept |
| ClientChat.HistoryOfAppend | app.py:219-223 | Conversion distributes over concatenation, so order is kept |
| ClientChat.HistoryKeepsConversation | app.py:219-223 | The history is no longer than the message list, and has the same length exactly when every message is a user or assistant one |
| ClientChat.ToHistory | app.py:214-223 | The loop's history is `HistoryOf` of the messages |
| ClientChat.TranscriptRoundTrip | app.py:360-377 | Converting a rebuilt transcript back gives exactly the history it was rebuilt from |
| ClientChat.BuildState | app.py:354-377 | The rebuilt state is the mode's prompt, then the history replayed in order; the topics are as given |
| ClientChat.ChatTurn | app.py:354-388 | An empty input changes nothing. Otherwise the topics are updated. The history grows by exactly the user's text and the reply or apology, and the model is sent the prompt, the history and the new message. Without an API key the history is unchanged and nothing is sent |
| ClientChat.ClientSession.constructor | app.py:27-57 | Advisor mode, empty histories, an empty topic list and no profile name |
| ClientChat.ClientSession.SubmitChat | app.py:321-396 | Advisor mode uses the advisor history, any other mode the partner history; partner mode needs a profile name. Only "partner" gets the partner prompt; the other mode's history is unchanged; a stopped run (no API key) keeps both histories but records the topics |
| ClientChat.CommaListEntriesClean | app.py:449 | Comma-list entries are non-empty, stripped and comma-free |
| ClientChat.CommaListConcat | app.py:479 | Comma-list entries keep their original order |
| ClientChat.CommaListRoundTrip | app.py:488 | A list shown as `", ".join(xs)` and saved unedited parses back to `xs` when its entries are clean |
| ProfileForm.FormProfile | frontend/utils/helpers.py:50-67 | Name, age, gender, interests and goals are the widget values; hobbies and traits are the parsed lines of their text areas; the fields the form does not edit are copied from the current profile; without one, languages is ["English"], lists are empty and strings are "" |
| ProfileForm.SubmittedProfileAsWritten | frontend/utils/helpers.py:49-68 | Nothing unless submitted; a submitted dict has every profile key except "ideal_partner_traits", each with the value it has in the form's profile |
| ProfileForm.SubmittedProfile | frontend/utils/helpers.py:49-68 | Nothing unless submitted; a submitted dict has all 17 profile keys and is exactly the form's profile as a dict |
| ProfileForm.LinesClean | frontend/utils/helpers.py:56-57 | Parsed lines are non-empty, stripped and single-line |
| ProfileForm.LinesConcat | frontend/utils/helpers.py:56-57 | Lines keep their order |
| ProfileForm.LinesRoundTrip | frontend/utils/helpers.py:44-57 | A list shown one entry per line and saved unedited parses back to itself when its entries are clean |
| ProfileForm.AsWrittenAlwaysRejected | frontend/utils/helpers.py:50-67 | As written, every submitted dict lacks "ideal_partner_traits" and fails profile validation |
| ProfileForm.CorrectedValidates | frontend/utils/helpers.py:50-67 | With the key carried over, a submission validates exactly when 18 <= age <= 99, into the profile the form describes |
| ProfileForm.UneditedFormKeepsProfile | frontend/utils/helpers.py:44-67 | A stored valid profile with clean hobby and trait lines, opened and saved unedited, validates back to itself |

## Left out

- Match scores are exact reals. `round(score, 2)` is not modelled. Rounding is monotone, so order is kept, though rounding can merge two close scores into a tie.
- Matching.GetMatches: `limit` is a natural number. Python's slicing with a negative `limit` is not modelled.
- The JWT decoding in `get_current_user` is not modelled. Its outcome is a `Token` parameter. Token creation (`create_access_token`) is not modelled.
- The HTTP POST to the completion service is not modelled. The routes return the wire request they would send as `sent`, and take the service's `Completion` answer as a parameter. The client's model call is handled the same way, with an `LlmReply`.
- The settings (`RATE_LIMIT_REQUESTS`, `RATE_LIMIT_PERIOD`, the API key) and the clocks (`time.time`, `datetime.now`) are parameters. `add_message` reads the clock twice; the model uses one instant for both reads. A new chat state and the user's message share the instant `asked`.
- Pydantic coercion is not modelled: the JSON values are typed strings, integers and string lists.
- The `datetime` timestamp is an integer.
- The framework's exception handlers and JSON error bodies (`networks/handlers.py`) are not modelled. The model returns a rejection from the rate-limit middleware (backend/app/main.py:20-23) as the 429 error that `check_rate_limit` raises. The middleware raises it outside the framework's exception middleware, so the 429 handler most likely never formats it. The catch-all handler (backend/app/networks/handlers.py:29-41) would then answer 500 with code INTERNAL_ERROR.
- CORS and trusted-host middleware, routing and request concurrency are not modelled. Each request is one sequential step over the shared maps.
- ChatRouter.ChatSessions.Chat: the request's own `user_id` and `chat_mode` fields are not read by the routes, so the model does not read them either. Request validation answers 422 before the route runs when `chat_mode` fails its pattern, so the method requires the pattern as written.
- Streamlit rendering, navigation, widgets and the sidebar are not modelled. A form's widget values are its input.
- The client's conversation context is reduced to `recent_topics`, because the chat chain reads and writes no other key.
- The "profile" entry that the chat tab copies into the context is not modelled.
- In the profile form, the current profile is a typed `UserProfile`. A current profile with missing keys is not modelled.
- The form's select boxes raise `ValueError` (`list.index`) for a stored gender or goal outside their choices. This is not modelled.
- Text.Lower: only ASCII letters are lower-cased. Python's Unicode case mapping is not modelled.
- Text.Split: only one-character separators are modelled. Those are all the source uses.

## Findings

| source | as written | input that shows it | evidently intended | confidence | as-written member | corrected member |
|---|---|---|---|---|---|---|
| backend/app/routers/chat_router.py:60 | The messages sent as the request's JSON body are the logged dicts. These include a `datetime` timestamp, which the JSON encoder rejects inside the `try`. | Any chat request: the log always holds at least the new user message, with its timestamp. | Send only role and content, so that a request can succeed. | not executed | ChatRouter.EveryRequestFailsAsWritten | ChatRouter.ChatSessions.Chat |
| frontend/utils/helpers.py:50-67 | The submitted profile dict has 16 keys and omits `ideal_partner_traits`, which `UserProfile` requires. | Any submission of the form. | Carry `ideal_partner_traits` over from the current profile, like the other fields the form does not edit. | not executed | ProfileForm.AsWrittenAlwaysRejected | ProfileForm.CorrectedValidates |
| backend/app/models/schemas.py:32 | The pattern `^(advisor\|partner)$` is applied with `re.match`, whose `$` also matches before a final newline. | The chat mode "advisor\n". | Accept exactly "advisor" and "partner". | not executed | Schemas.ChatModePatternAcceptsTrailingNewline | Schemas.ValidChatModeIsPatternWithoutNewline |
