# A verified model of the vue_chatroom_service front end

This project models the client-side core of a Vue 3 chat and reading app,
written in Dafny. The core covered is:

- **The streaming chat client** (`src/utils/streamApi.ts`). It POSTs a request
  with a bearer token and retries once after a 401 when the token refresh
  succeeds. It then reads a server-sent body. Each read is split on blank lines,
  and every `data: ` frame is parsed as a chunk. Each chunk is handed to a
  callback and appended to an aggregate. The first chunk carrying an error ends
  the call as a failure.
- **The user store** (`src/stores/authStore.ts`). It holds the name, id, tokens
  and expiry of the signed-in user, mirrored to `localStorage`. It also decodes
  the payload segment of an access token (a JSON Web Token, RFC 7519; base64url
  is section 5 of RFC 4648).
- **The token-refresh coordinators** of the three axios clients:
  - `src/utils/apiUtils/authApi.ts` shares one pending refresh among all
    callers.
  - `src/utils/authApi.ts` adds a 5000 ms cooldown and a list of subscribers.
  - `src/services/api.ts` adds a cooldown and a queue of requests to send again.

  Each client also has its interceptors. The request interceptor attaches an
  RFC 6750 (section 2.1) Bearer header. The response interceptor sends a first
  401 again.
- **The route table and the navigation guard** (`src/router/index.ts`).
- **The Pinia stores that keep caches and conversations:**
  - articles: list, article cache, reading-progress cache and streamed
    generation
  - words
  - article questions (RAG)
  - scene chat
  - the English assistant
  - the wizard's step bar
- **`toSafeNumber`**, which reads a route parameter as a safe integer.

The model follows the form of each source file:

- **Stores and coordinators become classes** whose methods update fields in
  place.
  - The step bar keeps its steps in an `array`.
  - The module-level variables of the coordinators (`isRefreshing`,
    `lastRefreshTime`, the subscriber lists, the pending promise) are fields of
    one object per module.
  - The user store is an object the coordinators refer to.
- **The stream client's `executeRequest` is a recursive method** on an object
  holding the `retryCount` its closure shares.
- **`processStream` is a method with nested loops.** It is proved equal to
  `Drain`/`ReadBody`, a specification by recursion over what the reads yield.
- **Pure code becomes functions and lemmas:** `decodeJwt`, `formatError`,
  `parseChunk`, `toSafeNumber` and the guard.

The outside world enters as inputs:

- Every service reply is a `Reply` (resolved with `isSuccess`, `message`,
  `data`, `code`, or thrown).
- Every stream is the sequence of chunks its callback receives.
- The n-th `fetch` of a call is `fetch(n)`.
- `Date.now()` is an argument.
- `atob`, `JSON.parse` and `Number` are partial functions passed in.

Vue Router matches paths case-insensitively by default. So the guard's
`/chatroom` redirect reaches the `/Chatroom` route, and the model keeps both
spellings as written.

## Model

| member | source | states |
|---|---|---|
| ApiTypes.OrEmpty | src/utils/streamApi.ts:129 | `sessionId \|\| ''`: a missing or zero session id becomes the empty string, and any other id is kept |
| ApiTypes.AnswerTextWithoutErrors | src/utils/streamApi.ts:94 | when no chunk carries an error, the answer a store accumulates equals the aggregate `content` the client builds |
| StreamApi.DataFrames | src/utils/streamApi.ts:90-93 | every frame comes from a piece that is `data: ` followed by the frame; every piece starting with `data: ` gives its remainder as a frame; there are never more frames than pieces |
| StreamApi.DataFramesOne | src/utils/streamApi.ts:90-93 | one piece gives exactly its remainder after `data: ` when it starts with that prefix, and no frame otherwise |
| StreamApi.DataFramesAppend | src/utils/streamApi.ts:90-93 | the frames of concatenated pieces are the frames of each part in order; with DataFramesOne, one frame per `data: ` piece, in piece order, and no other |
| StreamApi.FormatError | src/utils/streamApi.ts:121-131 | always a failure with an empty response and the session id or `''`; the message gets a `[code] ` prefix exactly when the code is present and non-zero |
| StreamApi.FirstErrorSpec | src/utils/streamApi.ts:92-100 | the position found is that of an error chunk with no error chunk before it; there is none exactly when no chunk carries an error |
| StreamApi.ProcessStream | src/utils/streamApi.ts:76-111 | the loop over reads and frames returns the result and the delivered chunks given by the recursive specification `ReadBody` |
| StreamApi.CleanStreamSucceeds | src/utils/streamApi.ts:85-107 | with no failing read and no error chunk, the result is a success whose response is every chunk's content in order; every chunk is delivered in order, whatever the read boundaries |
| StreamApi.ErrorChunkEndsStream | src/utils/streamApi.ts:92-99 | the first error chunk ends the stream: the chunks up to and including it are delivered, none after it, and the result is `formatError` of its message and code |
| StreamApi.FailedReadEndsStream | src/utils/streamApi.ts:108-110 | a read that throws ends the stream: the earlier reads' chunks stay delivered and the result is a failure carrying the exception's message and no code |
| StreamApi.UnparsableFrameEndsStream | src/utils/streamApi.ts:113-119 | a frame that does not parse ends the stream with `[500] stream data parse error`; the synthetic chunk is delivered last, after the clean chunks before it |
| StreamApi.CodedMessage | src/utils/streamApi.ts:128 | for the codes 500 and 401 the message is `[500] ` or `[401] ` followed by the text |
| StreamApi.ChatCall.ExecuteRequest | src/utils/streamApi.ts:29-66 | the recursive method gives the result, chunks, Authorization headers and refresh count of the specification `Attempt` from the current `retryCount` |
| StreamApi.Chat | src/utils/streamApi.ts:20-69 | a call never throws; its outcome is `ChatSpec` of the token, the fetch outcomes and the refresh outcome |
| StreamApi.ChatRetriesAtMostOnce | src/utils/streamApi.ts:26-53 | a call makes one or two fetches and awaits at most one refresh, and a second fetch implies a refresh |
| StreamApi.RetryStartsFresh | src/utils/streamApi.ts:46-52 | after a refreshed 401 the outcome is exactly that of the second fetch, sent with the token left by the refresh |
| StreamApi.RetryIgnoresFirstAttempt | src/utils/streamApi.ts:50-52 | two calls whose second fetch agrees have the same result and chunks, whatever the first 401 response carried |
| StreamApi.NonOkStatusIsRequestError | src/utils/streamApi.ts:55-57 | a non-ok status that is not retried gives `[status] request error` with no session id, delivers nothing and makes one fetch |
| StreamApi.SecondUnauthorizedIsNotRetried | src/utils/streamApi.ts:46-57 | a 401 after the retry is not retried again: the result is `[401] request error` after two fetches and one refresh |
| StreamApi.ExceptionsBecomeFailures | src/utils/streamApi.ts:63-65 | an exception from `fetch` or from the refresh becomes a failure carrying the message of whichever threw, delivering nothing |
| StreamApi.CleanCallSucceeds | src/utils/streamApi.ts:55-62 | an ok first response with a clean body is a success carrying the whole aggregate, with every chunk delivered and no refresh |
| AuthStore.GetItem | src/stores/authStore.ts:7-10 | `getItem` gives the stored text exactly for a stored key and null otherwise |
| AuthStore.UrlToStandardBase64 | src/stores/authStore.ts:50 | every `-` becomes `+` and every `_` becomes `/`, the rest is unchanged and the length is kept; no `-` or `_` remains |
| AuthStore.Base64AlphabetRoundTrip | src/stores/authStore.ts:50 | base64url text comes back unchanged when mapped to base64 and back |
| AuthStore.DecodeJwt | src/stores/authStore.ts:47-55 | every failure is `Invalid JWT token`, and a token that decodes contains a `.` |
| AuthStore.DecodeJwtReadsPayloadSegment | src/stores/authStore.ts:49-51 | for `header.payload.signature`, exactly the payload segment, in the base64 alphabet, goes through `atob` and the JSON parser; any failure of either is `Invalid JWT token` |
| AuthStore.ExpiresAtFromStorage | src/stores/authStore.ts:11 | the initial expiry is the stored number when it is present, parses and is not 0; otherwise it is null |
| AuthStore.EmptyStorageIsSignedOut | src/stores/authStore.ts:6-12 | with nothing stored, every field is null and nobody is signed in |
| AuthStore.ReloadAfterLogin | src/stores/authStore.ts:14-28 | a reload right after a login reads back the state the login set, for a non-zero expiry that `Number` reads back |
| AuthStore.ZeroExpiryIsLostOnReload | src/stores/authStore.ts:11 | an expiry of 0 written by a login reads back as null |
| AuthStore.RefreshKeepsStoredIdentity | src/stores/authStore.ts:29-39 | after a token update the stored name and id are those stored before, and the stored access token is the new one |
| AuthStore.LogoutAsWritten | src/stores/authStore.ts:40-43 | storage is empty after `logout` as written |
| AuthStore.LogoutAsWrittenKeepsSession | src/stores/authStore.ts:40-43 | as written, a user whose tokens are stored is still signed in after `logout`, holding the stored access token |
| AuthStore.UserStore.constructor | src/stores/authStore.ts:6-12 | the initial state is the one read from storage |
| AuthStore.UserStore.Login | src/stores/authStore.ts:14-28 | a malformed token fails with `Invalid JWT token` and changes nothing; otherwise the name, id, both tokens and `exp * 1000` are set and the same five items are written to storage |
| AuthStore.UserStore.UpdateTokens | src/stores/authStore.ts:29-39 | a malformed token changes nothing; otherwise only the two tokens and the expiry change, in the state and in storage |
| AuthStore.UserStore.Logout | src/stores/authStore.ts:40-43 | storage is empty, the state is the one an empty storage gives, and nobody is signed in |
| AuthStore.AcceptedTokenIsTruthy | src/stores/authStore.ts:47-51 | a token the store accepts is never empty |
| Http.BearerHeader | src/utils/apiUtils/authApi.ts:71 | the header is `Bearer ` followed by the token, or by `null` when there is none |
| Http.AttachBearer | src/utils/apiUtils/authApi.ts:53-59 | a truthy access token sets `Bearer <token>`; otherwise the header is left as it was; `_retry` is untouched |
| ApiUtilsAuthApi.SingleFlightRefresher.HandleLogout | src/utils/apiUtils/authApi.ts:41-46 | the store signs out with storage empty, and the reason is logged; the refresh state is unchanged |
| ApiUtilsAuthApi.SingleFlightRefresher.HandleUnauthorized | src/utils/apiUtils/authApi.ts:8-39 | with no refresh token the caller gets false and the store is signed out with storage empty; while a refresh is pending the caller joins it without a new call; otherwise the caller starts the one refresh call with the stored refresh token; in both of those the user state and storage are unchanged |
| ApiUtilsAuthApi.SingleFlightRefresher.Settle | src/utils/apiUtils/authApi.ts:21-36 | every joined caller gets one value; true exactly when the reply succeeds and its token decodes, and then both tokens and the expiry `exp * 1000` are replaced in the state and in storage, with the name and id kept; false signs out with `REFRESH_ERROR` and empty storage; the promise is cleared either way |
| ApiUtilsAuthApi.OnResponseError | src/utils/apiUtils/authApi.ts:61-81 | only a first 401 is handled, and it is marked `_retry`; a refresh giving true resends with the token read afterwards; false rejects with `Token refresh failed`; a thrown refresh rejects with its error; anything else is rejected unchanged |
| ApiUtilsAuthApi.TwoCallersShareOneRefresh | src/utils/apiUtils/authApi.ts:17-19 | two concurrent 401s make exactly one refresh call, and both callers are released by it |
| ApiUtilsApi.OnResponseError | src/utils/apiUtils/api.ts:23-43 | a first 401 is marked `_retry` and resent once the refresh settles with any value; only a thrown refresh rejects, with `Token refresh failed` |
| UtilsApi.OnResponseError | src/utils/api.ts:28-53 | a first 401 is marked `_retry`; true resends, false rejects with `token refresh error`, and a thrown refresh (the cooldown error among them) is passed on |
| UtilsAuthApi.CooldownRefresher.HandleLogout | src/utils/authApi.ts:51-56 | the store signs out with storage empty and the reason is logged; the refresh state is unchanged |
| UtilsAuthApi.CooldownRefresher.HandleUnauthorized | src/utils/authApi.ts:11-33 | within 5000 ms of the last attempt it throws `please wait 5 seconds and try again` with nothing changed; otherwise the time is stamped first, then a missing refresh token signs the store out with false, a pending refresh gets a subscriber, or a refresh call starts; in the last two the user state and storage are unchanged |
| UtilsAuthApi.CooldownRefresher.CompleteRefresh | src/utils/authApi.ts:33-49 | true exactly when the reply succeeds and its token decodes; then both tokens and the expiry are replaced in the state and in storage, the name and id kept, and every subscriber is released in order; on failure the store signs out with `REFRESH_ERROR` and empty storage and the subscribers stay queued; `isRefreshing` ends false |
| UtilsAuthApi.CooldownShadowsSubscribers | src/utils/authApi.ts:14-31 | a second caller within 5000 ms of the caller that started a refresh gets the cooldown error, not a subscription |
| ServicesApi.QueueingClient.HandleLogout | src/services/api.ts:40-46 | the store signs out with storage empty and the reason is logged; the queue and flags are unchanged |
| ServicesApi.QueueingClient.OnResponseError | src/services/api.ts:50-108 | a non-first-401 error is rejected unchanged and nothing changes; a missing refresh token is checked before the cooldown: it signs the store out, rejects the original error and leaves the time unstamped; within the cooldown it rejects with `请等待 5 秒后重试`, leaves `_retry` unset and changes nothing else; otherwise it stamps the time, sets `_retry` and `isRefreshing`, keeps the user, and either starts the refresh or queues the request |
| ServicesApi.QueueingClient.OnRefreshed | src/services/api.ts:35-38 | every queued request, in order, gets `Bearer <token>` and is released, and the queue is emptied |
| ServicesApi.QueueingClient.CompleteRefresh | src/services/api.ts:75-96 | the request is resent exactly when the reply succeeds and its token decodes; then both tokens and the expiry are replaced in the state and in storage, the name and id kept, the queue is released with the new token and `isRefreshing` cleared; otherwise it signs out with `REFRESH_ERROR` and empty storage and rejects with the thrown error, `刷新失败` or `Invalid JWT token`, while `isRefreshing` stays set |
| StepStore.StatusFor | src/stores/stepStore.ts:30-38 | a step is in progress exactly at index `step - 1`, finished exactly before it, and waiting after it |
| StepStore.ExactlyOneInProgress | src/stores/stepStore.ts:28-39 | for a step within the bar exactly one step is in progress, and none otherwise |
| StepStore.OutOfRangeSteps | src/stores/stepStore.ts:28-39 | a step past the end finishes every step; a step below 1 leaves every step waiting |
| StepStore.StepStore.constructor | src/stores/stepStore.ts:12-26 | the bar starts at step 1 with the prompt in progress and the generator waiting |
| StepStore.StepStore.SetCurrentStep | src/stores/stepStore.ts:28-39 | with no range check, the current step is set and every status follows it; titles stay |
| StepStore.StepStore.NextStep | src/stores/stepStore.ts:40-44 | from any current step, even one outside the bar: before the last step it advances by one, every status follows the new step and titles stay; otherwise nothing changes; a step within the bar stays within it |
| StepStore.StepStore.PrevStep | src/stores/stepStore.ts:45-49 | from any current step, even one past the end: after the first step it goes back by one, every status follows the new step and titles stay; otherwise nothing changes; a step within the bar stays within it |
| Router.OnlyLoginIsPublic | src/router/index.ts:9-58 | exactly the `/login` route is public, and it alone is named `Login` |
| Router.BeforeEachAsWritten | src/router/index.ts:61-78 | as written, the guard signs out and redirects exactly when a route requiring sign-in is met without both tokens |
| Router.AsWrittenLetsSignedInUserOntoLogin | src/router/index.ts:70-74 | as written, a signed-in user is let through to every declared route, the login page included |
| Router.BeforeEach | src/router/index.ts:61-78 | signs out and goes to `/login` exactly for a protected route without both tokens; goes to `/chatroom` exactly for a signed-in user heading to the login route; otherwise allows |
| Router.SignedOutReachesOnlyLogin | src/router/index.ts:61-69 | signed out, the login page is the only declared route that is let through |
| Router.SignedInReachesAllButLogin | src/router/index.ts:70-77 | signed in, the login page sends to the chat room and every other declared route is let through |
| ToSafeNumber.ToSafeNumber | src/utils/common/toSafeNumber.ts:1-14 | the result is the default or a safe integer; an empty array and any non-string, non-array value give the default |
| ToSafeNumber.SafeIntegerRoundTrip | src/utils/common/toSafeNumber.ts:6-10 | the decimal text of a safe integer reads back as that integer |
| ToSafeNumber.UnsafeIntegerIsDefault | src/utils/common/toSafeNumber.ts:9 | the decimal text of an integer beyond 2^53 - 1 in magnitude gives the default |
| ToSafeNumber.DecimalTextValue | src/utils/common/toSafeNumber.ts:7-8 | every integer's decimal text has the accepted form and parses to that integer |
| ToSafeNumber.OtherTextIsDefault | src/utils/common/toSafeNumber.ts:6-13 | a string not of the form optional minus and digits gives the default |
| ToSafeNumber.RejectedForms | src/utils/common/toSafeNumber.ts:7 | the empty string, a lone minus, a leading plus, a leading space and a decimal point are all outside the form |
| ToSafeNumber.NestedFirstElement | src/utils/common/toSafeNumber.ts:2-4 | a value nested in one-element arrays reads as the value itself |
| ChatTypes.Selection | src/stores/ragStore.ts:75-86 | the selection holds at most one id: none for null, exactly the given id otherwise |
| ChatTypes.SelectedId | src/stores/ragStore.ts:114 | the request's session id is the first selected id, and is missing exactly when nothing is selected |
| ChatTypes.SelectionRoundTrip | src/stores/ragStore.ts:75-86 | selecting a session and reading the selection back gives that session |
| RagStore.RagStore.constructor | src/stores/ragStore.ts:15-23 | the store starts empty, with nothing selected and nothing streaming |
| RagStore.RagStore.AbortStreaming | src/stores/ragStore.ts:171-175 | aborts exactly when a controller exists, and leaves the controller and everything else in place |
| RagStore.RagStore.SetCurrentSession | src/stores/ragStore.ts:75-86 | null clears the selection; an id aborts a running stream first and becomes the only selected id |
| RagStore.RagStore.FetchChatHistory | src/stores/ragStore.ts:25-39 | a successful reply replaces the messages with the history, or empties them for null data; anything else keeps them |
| RagStore.RagStore.FetchSessionList | src/stores/ragStore.ts:40-57 | a successful reply replaces the list and selects its first session, or nothing for an empty list; a failure changes neither |
| RagStore.RagStore.CreateSession | src/stores/ragStore.ts:58-74 | a new session goes to the front of the list and becomes the selection; a failure changes neither |
| RagStore.RagStore.PushUserQuestion | src/stores/ragStore.ts:87-95 | exactly one user message with the question is appended |
| RagStore.RagStore.PushAssistantAnswer | src/stores/ragStore.ts:96-104 | exactly one assistant message with the answer is appended |
| RagStore.RagStore.OnChunk | src/stores/ragStore.ts:116-123 | a chunk without an error appends its content to the partial answer, and an error chunk appends nothing |
| RagStore.RagStore.ReceiveChunks | src/stores/ragStore.ts:111-125 | the partial answer grows by the in-order contents of the chunks without an error |
| RagStore.RagStore.FinishStream | src/stores/ragStore.ts:128-137 | the partial answer is appended as an assistant message; the flag, input, controller and partial answer are reset |
| RagStore.RagStore.StreamChat | src/stores/ragStore.ts:105-138 | exactly two messages are appended, the question and then the answer built from the error-free chunks; the request carries the selected session; afterwards nothing streams |
| RagStore.RagStore.StreamSummaryChat | src/stores/ragStore.ts:139-170 | only the answer is appended, prefixed by whatever the partial answer held before, as it is not cleared at the start; afterwards nothing streams |
| SceneChatStore.SceneChatStore.constructor | src/stores/sceneChatStore.ts:15-23 | the store starts empty, with nothing selected and nothing streaming |
| SceneChatStore.SceneChatStore.Reset | src/stores/sceneChatStore.ts:25-31 | the list, selection, messages, input and partial answer are cleared, while the controller and the streaming flag are untouched |
| SceneChatStore.SceneChatStore.AbortStreaming | src/stores/sceneChatStore.ts:164-168 | aborts exactly when a controller exists, and leaves the controller in place |
| SceneChatStore.SceneChatStore.SetCurrentSession | src/stores/sceneChatStore.ts:92-103 | null clears the selection; an id aborts a running stream first and becomes the only selected id |
| SceneChatStore.SceneChatStore.FetchChatHistory | src/stores/sceneChatStore.ts:32-46 | a successful reply replaces the messages with the history, or empties them for null data; anything else keeps them |
| SceneChatStore.SceneChatStore.GetSessionList | src/stores/sceneChatStore.ts:47-64 | a successful reply replaces the list and selects its first session, or nothing for an empty list; a failure changes neither |
| SceneChatStore.SceneChatStore.GenerateSession | src/stores/sceneChatStore.ts:65-91 | a session is returned exactly on success with data; it then heads the list and is selected; otherwise null is returned and nothing changes |
| SceneChatStore.SceneChatStore.PushUserQuestion | src/stores/sceneChatStore.ts:104-112 | exactly one user message is appended |
| SceneChatStore.SceneChatStore.PushAssistantAnswer | src/stores/sceneChatStore.ts:113-121 | exactly one assistant message is appended |
| SceneChatStore.SceneChatStore.OnChunk | src/stores/sceneChatStore.ts:141-148 | a chunk without an error appends its content to the partial answer, and an error chunk appends nothing |
| SceneChatStore.SceneChatStore.ReceiveChunks | src/stores/sceneChatStore.ts:136-150 | the partial answer grows by the in-order contents of the chunks without an error |
| SceneChatStore.SceneChatStore.StreamSceneChat | src/stores/sceneChatStore.ts:130-163 | exactly two messages are appended, the question and then the answer built from the error-free chunks; the request carries the selected session; afterwards nothing streams |
| SceneChatStore.SceneChatStore.InitSceneChat | src/stores/sceneChatStore.ts:122-129 | the message is sent tagged with the selected session, and the question and answer are appended |
| EnglishAssistantStore.EnglishAssistantStore.constructor | src/stores/englishAssistantStore.ts:11-18 | the store starts empty with nothing streaming |
| EnglishAssistantStore.EnglishAssistantStore.Reset | src/stores/englishAssistantStore.ts:20-27 | all six state fields return to their initial values |
| EnglishAssistantStore.EnglishAssistantStore.AbortStreaming | src/stores/englishAssistantStore.ts:106-110 | aborts exactly when a controller exists, and leaves the controller in place |
| EnglishAssistantStore.EnglishAssistantStore.PushUserQuestion | src/stores/englishAssistantStore.ts:28-36 | exactly one user message is appended |
| EnglishAssistantStore.EnglishAssistantStore.PushAssistantAnswer | src/stores/englishAssistantStore.ts:37-45 | exactly one assistant message is appended |
| EnglishAssistantStore.EnglishAssistantStore.StreamAssistant | src/stores/englishAssistantStore.ts:46-105 | the chosen service is called once; exactly the question and then the answer built from the error-free chunks are appended; afterwards nothing streams and the input is empty |
| WordStore.WithoutWord | src/stores/wordStore.ts:75 | every kept entry is from the list and has another id; every entry with another id is kept |
| WordStore.WithoutWordOne | src/stores/wordStore.ts:75 | a one-entry list is kept exactly when its id differs, and emptied otherwise |
| WordStore.WithoutWordAppend | src/stores/wordStore.ts:75 | filtering two joined lists filters each in order; with WithoutWordOne, every entry with another id is kept once, in its original order |
| WordStore.RemoveTwice | src/stores/wordStore.ts:75 | removing a word twice is the same as removing it once |
| WordStore.RemoveAbsent | src/stores/wordStore.ts:75 | removing a word the list does not hold leaves the list unchanged |
| WordStore.Answer | src/stores/wordStore.ts:109-136 | a yes/no check is true exactly for a successful reply whose data is true |
| WordStore.AddWord | src/stores/wordStore.ts:31-46 | the saved word is returned exactly for a successful reply, and otherwise null |
| WordStore.RemoveWordByText | src/stores/wordStore.ts:92-107 | true exactly for a successful reply; the store keeps nothing |
| WordStore.WordStore.constructor | src/stores/wordStore.ts:9-12 | the list is empty and no word is open |
| WordStore.WordStore.GetWordList | src/stores/wordStore.ts:14-29 | on success the list becomes the data, or empty for null data, and is returned; otherwise the empty list is returned and the list is kept |
| WordStore.WordStore.GetWordById | src/stores/wordStore.ts:48-67 | the service is skipped exactly when the open word has the id, and that word is returned; on success the reply becomes the open word; on failure null is returned and the open word is kept |
| WordStore.WordStore.RemoveWordById | src/stores/wordStore.ts:69-90 | true exactly on success; every entry with the id is then removed and the open word is closed only if it has that id; on failure nothing changes |
| WordStore.WordStore.CheckWordExists | src/stores/wordStore.ts:109-136 | gives the yes/no answer of the reply, with failures and exceptions as false |
| WordStore.WordStore.RefreshWordList | src/stores/wordStore.ts:138-141 | the list is emptied before the reload, so a failed reload leaves it empty |
| ArticleStore.WithoutArticle | src/stores/articleStore.ts:108 | every kept entry is from the list and has another id; every entry with another id is kept |
| ArticleStore.WithoutArticleOne | src/stores/articleStore.ts:108 | a one-entry list is kept exactly when its id differs, and emptied otherwise |
| ArticleStore.WithoutArticleAppend | src/stores/articleStore.ts:108 | filtering two joined lists filters each in order; with WithoutArticleOne, every entry with another id is kept once, in its original order |
| ArticleStore.DeleteAbsent | src/stores/articleStore.ts:108 | deleting an article the list does not hold leaves the list unchanged |
| ArticleStore.RequestRecord | src/stores/articleStore.ts:147-150 | the spread request holds its `articleId` and every other property of the request, and nothing else |
| ArticleStore.MergeProgress | src/stores/articleStore.ts:146-150 | every property of the spread request takes its new value, the other cached properties are kept, and nothing else appears |
| ArticleStore.MergeTwice | src/stores/articleStore.ts:146-150 | merging the same update twice is merging it once |
| ArticleStore.ArticleStore.constructor | src/stores/articleStore.ts:17-25 | the list, both caches, prompt and generated text start empty, with nothing streaming |
| ArticleStore.ArticleStore.ResetAssistantMessage | src/stores/articleStore.ts:27-29 | only the generated text is cleared |
| ArticleStore.ArticleStore.AbortStreaming | src/stores/articleStore.ts:226-232 | a running generation is aborted, its controller dropped and the article marked not created; without one nothing changes |
| ArticleStore.ArticleStore.Reset | src/stores/articleStore.ts:31-36 | the prompt, generated text and created flag are cleared and any generation is aborted; the caches are kept |
| ArticleStore.ArticleStore.ClearCache | src/stores/articleStore.ts:38-42 | the list and both caches are emptied and nothing else changes |
| ArticleStore.ArticleStore.GetArticleList | src/stores/articleStore.ts:44-63 | the service is called exactly when forced or the list is empty; success replaces the list with the data or empty; anything else keeps it; the list is returned |
| ArticleStore.ArticleStore.GetArticleById | src/stores/articleStore.ts:65-86 | a cache hit is returned without a call unless forced; success with data caches and returns it; a failure or exception returns the cached entry, if any |
| ArticleStore.ArticleStore.GenerateArticle | src/stores/articleStore.ts:88-102 | true exactly on success, and then the list is reloaded by force |
| ArticleStore.ArticleStore.DeleteArticle | src/stores/articleStore.ts:104-121 | true exactly on success; every list entry with the id and both cache entries are then removed; otherwise nothing changes |
| ArticleStore.ArticleStore.VectorizeArticle | src/stores/articleStore.ts:123-139 | true exactly on success; then an article with a non-zero id is fetched again by force into the cache |
| ArticleStore.ArticleStore.UpdateArticleReadingProgress | src/stores/articleStore.ts:141-161 | true exactly on success; then a non-zero id's cached progress becomes the old record merged with the whole request, `articleId` included; an id of 0 skips the cache |
| ArticleStore.ArticleStore.GetArticleReadingProgress | src/stores/articleStore.ts:163-184 | a cache hit is returned unless forced; a success or a 401 failure caches data when there is some and returns it; any other failure or exception returns the cached record |
| ArticleStore.ArticleStore.StreamGenerate | src/stores/articleStore.ts:186-224 | the generated text is the in-order contents of the error-free chunks; the article counts as created exactly when no error chunk arrived, whatever result the call returns, since the call never throws and its result is not read; only then is the list reloaded; the controller is dropped at the end |

## Left out

- Network and browser I/O is not modelled: `fetch`, axios, `ReadableStream` readers, `window.location` redirects and `localStorage` persistence. Replies, fetch outcomes and reads are inputs; storage is a map.
- `TextDecoder` is not modelled: each read is taken as already-decoded text.
- `JSON.parse`, `atob` and `Number` are foreign calls. They are partial functions passed in (`parse`, `parseJson`, `atob`, `toNumber`).
- StreamApi.ProcessStream: takes the framing of one read as a parameter. The client always passes `Frames`, and the stream lemmas hold for any framing.
- Asynchrony is not modelled. A pending promise is a count of joined callers, a subscriber list or a request queue, and its settlement is a separate method call. A store's stream action receives its whole chunk sequence at once, so actions interleaved with a running stream are separate calls only.
- ArticleStore.ArticleStore.GenerateArticle, VectorizeArticle and StreamGenerate take the reload they start without awaiting to complete before the result is read.
- The stores' streaming client: the services import it from `src/utils/apiUtils/streamApi.ts`, which is not part of this model. It is taken to be the client of `src/utils/streamApi.ts` modelled here, which never throws. ArticleStore.ArticleStore.StreamGenerate relies on that.
- `AbortController` is not modelled as an object. It is a flag plus a count of `abort()` calls. An abort's effect on a stream is that its chunk sequence ends; the streaming call then returns a failure rather than throwing.
- `Date.now()` is an argument. Toasts, console logging and the `dayjs` timestamps of chat messages are left out.
- AuthStore.UserStore: keeps `userId` as the decimal text of the claim. In memory the source keeps the claim's own value; only storage holds it as text.
- RagStore.RagStore.FetchSessionList and SceneChatStore.SceneChatStore.GetSessionList: with null data the source sets the list to null and then throws. The model sets it to empty.
- RagStore.RagStore.CreateSession and SceneChatStore.SceneChatStore.GenerateSession: with null data the source puts null at the front of the list and then throws. The model leaves the list unchanged.
- WordStore.WordStore.GetWordList: takes the reply's data to be the list of words itself, as the store reads it. `wordService.getWordList` (src/services/wordService.ts:13-16) declares a paged wrapper (`PagedViewModel`) around the list instead. The paged shape is not modelled.
- JavaScript numbers are not modelled as floating point. Token expiries (`exp * 1000`), ids, steps, status codes and times are unbounded integers, which agree with the source for every value below 2^53.
- WordStore.WordStore.CheckWordExists: a successful reply with null data returns null in the source. The model returns false. The one method stands for both checks, which differ only in the service called and a toast.
- EnglishAssistantStore.EnglishAssistantStore.StreamAssistant: stands for both stream actions, which differ only in the service they call.
- ServicesApi.QueueingClient.CompleteRefresh: the `REFRESH_FAILED` branch of the interceptor is proved unreachable and has no path of its own. The store only accepts a token holding a `.`, so the token it holds afterwards is never empty.
- The coordinators sign out through the corrected `UserStore.Logout` (see Findings).
- `userService.refreshToken` (src/services/userService.ts) is not part of this model. On success it also calls `updateTokens` with the same tokens before the coordinator does. A second call with the same tokens leaves the same state, so the coordinators make one call.
- The request interceptor is the same in all three clients. It is modelled once, as `Http.AttachBearer`.
- The type `ArticleReadingProgress` is not part of this model. A progress record is a map from property names to values, each a number or a text; the request's `articleId` is one such property.
- The response interceptors' success handlers are left out: they return the response unchanged. The request's URL, body and base URL are left out too.
- `src/utils/common/ttsUtil.ts`, `siderStore`, `screenStore`, `chatStore`, `vectorStore`, the service wrappers, the type declarations and the build configuration are not part of this model.

## Findings

| source | as written | input that shows it | evidently intended | confidence | as-written member | corrected member |
|---|---|---|---|---|---|---|
| src/router/index.ts:70 | the guard compares the route name with `'login'`, but the login route is named `'Login'` | a signed-in user navigating to `/login` | a signed-in user is redirected from the login page to `/chatroom` | high; not executed | Router.AsWrittenLetsSignedInUserOntoLogin | Router.SignedInReachesAllButLogin |
| src/stores/authStore.ts:40-43 | `logout` runs `$reset()`, which for an option store re-runs `state()` and so re-reads the tokens still in `localStorage`, before `localStorage.clear()` | `logout()` while both tokens are stored | after `logout` nobody is signed in | medium, as it depends on Pinia's `$reset`; not executed | AuthStore.LogoutAsWrittenKeepsSession | AuthStore.UserStore.Logout |
