# A verified model of the chatgpt-clone core

This project models the parts of the chatgpt-clone web application that can
be stated exactly. It covers the list and table logic of both sides.

- **Server.**
  - The `/api/chat/stream` turn handler relays a completion provider's
    fragments to the browser as `data: <JSON>\n\n` frames, saving the user's
    message first and the assistant's text after the last frame.
  - The evaluation routes keep comparisons in an in-memory map and rate and
    list them per user.
  - The DynamoDB adapter either degrades to fixed mock records or rethrows
    store errors, and is chosen live or mock from two credentials.
  - The identity middleware always attaches a user.
- **Browser.**
  - The chat screen keeps its conversation list ordered and applies
    streamed fragments to one placeholder message. When the server does not
    answer, it types out a fixed reply instead.
  - The auth provider keeps its user, token and loading flag in step with
    two local-storage entries.
  - The comparison page runs comparisons, falls back to a local mock and
    rates results by id.

Each stateful part is a class whose methods are proved against functions of
the old state. The properties the source promises are proved as lemmas
about those functions.

- **Values.**
  - Times are whole milliseconds (`nat`).
  - Strings are `seq<char>`.
  - The network, clocks, `Math.random`, the completion provider and the
    token verifier become parameters.
  - The DynamoDB client is an abstract store. It is modelled as a log of
    requests, each accepted or refused, and the tables that log leaves.
- **Modules.**
  - `Base`: shared values and JavaScript string helpers (`split`, `trim`,
    stable descending sort).
  - `Frames`: `JSON.stringify` of the two frame payloads and its inverse.
  - `StreamRelay`: the `/stream` handler.
  - `ChatClient`: `App.tsx`.
  - `Pipeline`: relay to client, end to end.
  - `EvalRoutes`: `eval.ts`.
  - `Persistence`: `dynamodb.ts`.
  - `AuthMiddleware`: `middleware/auth.ts`.
  - `AuthContext`: `AuthContext.tsx`.
  - `EvalHarness`: `EvalHarness.tsx`.

## Model

| member | source | states |
|---|---|---|
| Base.Split | server/src/middleware/auth.ts:6 | `split` on one character gives at least one piece, and no piece holds the separator |
| Base.SplitJoin | server/src/middleware/auth.ts:6 | joining the pieces of a split with the separator gives back the string |
| Base.TrimEmptyIffBlank | client/src/App.tsx:425 | `trim()` of a string is empty exactly when every character of it is JavaScript whitespace |
| Base.SortDescProps | server/src/routes/eval.ts:187 | the descending sort by a key keeps the same elements with the same multiplicities and leaves the keys non-increasing |
| Base.NatToStringInjective | client/src/App.tsx:276 | `toString()` of different whole numbers gives different strings, so ids made from different clock readings differ |
| Frames.EscapeChar | server/src/routes/chat.ts:50 | the JSON escape of one character is non-empty and never holds a line break |
| Frames.Head | client/src/App.tsx:332 | one decoding step of a JSON string body consumes at least one and at most all remaining characters |
| Frames.HeadEscapeChar | client/src/App.tsx:332 | decoding the escape of any character yields that character and consumes exactly the escape |
| Frames.UnescapeChar | client/src/App.tsx:332 | unescaping an escaped character followed by more text gives that character before the rest's unescaping |
| Frames.UnescapeEscape | client/src/App.tsx:332 | unescaping the JSON escape of any string gives the string back |
| Frames.EscapeNoNewline | server/src/routes/chat.ts:79 | an escaped string never holds a line break, so a frame's JSON stays on one line |
| Frames.DecodeEncode | client/src/App.tsx:332 | parsing a frame's JSON gives back the `{content}` or `{done:true}` payload it was written from |
| Frames.FrameLines | server/src/routes/chat.ts:50-83 | every frame is `data: ` + JSON + `\n\n`, and the line before the blank line holds no line break |
| Frames.CharPayloadsText | server/src/routes/chat.ts:49-51 | one `{content}` frame per character carries, in order, exactly the whole string |
| Frames.ContentPayloadsText | server/src/routes/chat.ts:75-81 | the `{content}` frames of the forwarded deltas carry exactly their concatenation |
| Frames.PayloadsTextJoin | server/src/routes/chat.ts:49-99 | the text carried by two runs of frames is the text of the first followed by that of the second |
| StreamRelay.Writes | server/src/routes/chat.ts:50-83 | each payload becomes exactly one write, in order |
| StreamRelay.Exchange.constructor | server/src/routes/chat.ts:15 | a request starts with no saves, writes or end |
| StreamRelay.Exchange.Record | server/src/routes/chat.ts:29-105 | each effect of the handler is appended to the request's log and nothing else changes |
| StreamRelay.WriteChars | server/src/routes/chat.ts:49-51 | the mock loop writes one `{content}` frame per character, in order |
| StreamRelay.RelayDeltas | server/src/routes/chat.ts:75-81 | the live loop writes a frame for each non-empty delta, in order, and its accumulated response is the concatenation of exactly those deltas |
| StreamRelay.Finish | server/src/routes/chat.ts:83-91 | the done frame, then the end of the response, then the save of the assistant message in the target chat |
| StreamRelay.RespondWithMock | server/src/routes/chat.ts:45-61 | a mock reply is written one character per frame, followed by done, end and the save of exactly that mock text |
| StreamRelay.RespondLive | server/src/routes/chat.ts:63-108 | the live branch writes the forwarded deltas and, when the provider fails, the quota mock after them; it then finishes with the text the turn saves |
| StreamRelay.HandleStream | server/src/routes/chat.ts:15-115 | the handler's whole effect is exactly the turn's specified event sequence, whichever provider path is taken; the user save is recorded whatever its outcome, since `createMessage` never throws in either adapter |
| StreamRelay.UserMessageSavedFirst | server/src/routes/chat.ts:28-37 | the user's message is saved, in the target chat, before any frame is written |
| StreamRelay.FrameInjective | server/src/routes/chat.ts:50-83 | distinct payloads give distinct frames, so a write is identified by its payload |
| StreamRelay.DoneOnceThenEndThenSave | server/src/routes/chat.ts:53-61 | exactly one done frame is written; it is the last write and is followed by the end and then the assistant save, which is the last event |
| StreamRelay.SavesTargetOneChat | server/src/routes/chat.ts:30-105 | the only saves are the turn's first event (the user's message) and its last (the assistant's), both in `chatId \|\| 'default-chat'` |
| StreamRelay.LiveSavesWhatWasStreamed | server/src/routes/chat.ts:66-91 | when the provider completes, the saved assistant text is exactly what the frames carried, the concatenation of the forwarded deltas |
| StreamRelay.NoClientStreamsMock | server/src/routes/chat.ts:45-61 | without a provider client, one frame per character of `Mock response to: "<message>"` is written and that text is saved |
| StreamRelay.FailureSavesOnlyMock | server/src/routes/chat.ts:92-108 | when the provider fails, the client receives the live fragments then the quota mock, and only the quota mock is saved |
| StreamRelay.ForwardedAreNonEmptyDeltas | server/src/routes/chat.ts:76-80 | a delta is forwarded exactly when it is non-empty, and only deltas of the stream are forwarded |
| ChatClient.FindIndex | client/src/App.tsx:209 | `findIndex` gives the first position holding the id, or -1 when no chat has it |
| ChatClient.ReorderedKeepsChats | client/src/App.tsx:205-217 | reordering keeps the list's length and the multiset of its ids |
| ChatClient.ReorderedNoop | client/src/App.tsx:209-210 | a chat that is absent or already first leaves the list unchanged, timestamps included |
| ChatClient.ReorderedMovesToFront | client/src/App.tsx:210-215 | a chat found after the front moves to the front with the new `updatedAt`, and the other chats keep their relative order |
| ChatClient.RemainingProps | client/src/App.tsx:246 | after a delete no chat has the id, every remaining chat was in the list, and every chat with another id is kept |
| ChatClient.LocalChat | client/src/App.tsx:183-187 | a chat created locally is titled `New conversation` and stamped with the current time |
| ChatClient.LocalChatIdsDistinct | client/src/App.tsx:184 | chats created locally at different times get different ids |
| ChatClient.LoadedChatsOrdered | client/src/App.tsx:87-89 | the loaded list is a permutation of what the server sent, ordered by `updatedAt` descending |
| ChatClient.InputDisabledIff | client/src/App.tsx:425 | the input is disabled exactly while a reply is loading, or when there is no active chat or it is blank |
| ChatClient.AppendTextOnlyTarget | client/src/App.tsx:334-338 | a fragment extends the content of exactly the messages with the target id; every other message is unchanged |
| ChatClient.AppendTextTwice | client/src/App.tsx:329-344 | applying two fragments in turn is applying their concatenation |
| ChatClient.AppendTextEmpty | client/src/App.tsx:333 | an empty fragment changes nothing |
| ChatClient.SetTextTwice | client/src/App.tsx:368-376 | setting the text again replaces the earlier setting |
| ChatClient.SetTextKeepsOthers | client/src/App.tsx:370-374 | setting the text leaves every message with another id unchanged |
| ChatClient.ContentLineText | client/src/App.tsx:330-339 | a `data: ` line holding a `{content}` payload contributes exactly its text |
| ChatClient.IgnoredLines | client/src/App.tsx:330-343 | the done line, lines without the `data: ` prefix and lines whose JSON does not parse contribute nothing |
| ChatClient.MockReplyNonEmpty | client/src/App.tsx:365 | the fixed fallback reply is non-empty, so the typing loop always runs |
| ChatClient.Placeholder | client/src/App.tsx:306-312 | the placeholder is an empty assistant message whose id is the clock reading plus one |
| ChatClient.SendKeepsHistory | client/src/App.tsx:272-380 | whatever the request does, the earlier messages whose ids differ from the turn's assistant messages are kept in place, and the user's message follows them |
| ChatClient.SendStreamed | client/src/App.tsx:305-349 | a stream that ends normally leaves, after the user's message, one assistant message holding the stream's text |
| ChatClient.SendUnavailable | client/src/App.tsx:301-303 | without a usable reply, one assistant message is added and ends up holding the whole mock reply |
| ChatClient.SendInterrupted | client/src/App.tsx:350-376 | a stream that breaks off leaves the placeholder with what arrived, and then a second assistant message with the mock reply |
| ChatClient.ChatView.constructor | client/src/App.tsx:67-71 | the screen starts with no chats, no active chat, no messages, not loading a reply and loading the list |
| ChatClient.ChatView.LoadChats | client/src/App.tsx:76-118 | a listed reply is sorted by `updatedAt` descending and its first chat activated; an unreachable server gives exactly `mock_chat_1`, active; the list stops loading either way |
| ChatClient.ChatView.NewChat | client/src/App.tsx:164-203 | the server's chat, or a local one, is put first and made active, and the messages are cleared |
| ChatClient.ChatView.DeleteChat | client/src/App.tsx:228-270 | a confirmed delete filters the id out; if that chat was active, the first remaining chat becomes active, or none with the messages cleared; an unconfirmed delete changes nothing |
| ChatClient.ChatView.UpdateChatOrder | client/src/App.tsx:205-218 | the list becomes the reordered list and nothing else changes |
| ChatClient.ChatView.ConsumeChunk | client/src/App.tsx:326-344 | one chunk appends its text to the placeholder and changes nothing else |
| ChatClient.ChatView.ConsumeStream | client/src/App.tsx:321-345 | the reader loop appends the text of the whole stream, chunk after chunk, to the placeholder |
| ChatClient.ChatView.TypeOut | client/src/App.tsx:366-376 | after step i the message list is the old list with the assistant message's text set to the first i+1 characters of the reply, and at the end to the whole reply |
| ChatClient.ChatView.FallBack | client/src/App.tsx:350-380 | the catch branch appends an empty assistant message, types the mock reply into it, moves the chat to the front and stops loading |
| ChatClient.ChatView.SendMessage | client/src/App.tsx:272-381 | nothing happens without an active chat; otherwise the messages become the specified result of the turn and the chat moves to the front |
| Pipeline.FrameLineText | client/src/App.tsx:330-339 | the line of any frame the server writes gives the client exactly the payload's text |
| Pipeline.FramesLines | client/src/App.tsx:327 | splitting written frames at line breaks gives each frame's line followed by an empty line |
| Pipeline.ChunkOfFrames | client/src/App.tsx:326-344 | a chunk made of whole frames gives the client exactly the text those frames carry |
| Pipeline.StreamOfFrames | client/src/App.tsx:321-345 | a stream cut between frames gives the client exactly the text of all frames, in order |
| Pipeline.ClientShowsStreamedText | client/src/App.tsx:321-345 | the placeholder ends up showing exactly the text the server streamed in the turn |
| Pipeline.ClientShowsSavedText | server/src/routes/chat.ts:83-91 | unless the provider failed mid-stream, the client shows exactly the text the server saves |
| Pipeline.ClientShowsMoreThanSavedOnFailure | server/src/routes/chat.ts:92-108 | after a provider failure, the client shows the live fragments before the saved quota mock |
| AuthMiddleware.HeaderToken | server/src/middleware/auth.ts:5-6 | a token is found only in a non-empty header that holds a space |
| AuthMiddleware.Authenticate | server/src/middleware/auth.ts:4-32 | the attached user is always the mock identity or the verifier's claims for the header's token; no request is rejected |
| AuthMiddleware.BearerHeaderToken | server/src/middleware/auth.ts:6 | `Bearer <token>` yields the token when it holds no space |
| AuthMiddleware.MockAccess | server/src/middleware/auth.ts:8-16 | a missing or empty token, or `mock-token`, resolves to the mock identity whatever the verifier says |
| AuthMiddleware.VerifiedAccess | server/src/middleware/auth.ts:19-31 | a token the verifier accepts resolves to its claims; one it rejects resolves to the mock identity |
| EvalRoutes.BearerTokenOf | server/src/routes/eval.ts:38 | the token taken from `Bearer <token>` is the token when it holds no space |
| EvalRoutes.RequireAuth | server/src/routes/eval.ts:31-45 | 401 `No token provided` exactly when the header is missing or lacks the `Bearer ` prefix; 401 `Invalid token` exactly when verification fails; otherwise the verified user |
| EvalRoutes.First50 | server/src/routes/eval.ts:77 | `substring(0, 50)` is a prefix of at most 50 characters, the whole prompt when it is short enough |
| EvalRoutes.FallbackEmbeds | server/src/routes/eval.ts:77 | the fallback response holds the user message and the first 50 characters of the prompt at fixed places |
| EvalRoutes.Complete | server/src/routes/eval.ts:48-82 | the provider's content or `No response`, its total tokens or 0; when the call throws, the fallback text and a token count between 20 and 119 |
| EvalRoutes.ValuesOf | server/src/routes/eval.ts:185 | one value per stored id, in insertion order |
| EvalRoutes.ResultsOfOwned | server/src/routes/eval.ts:185-186 | every listed result belongs to the requester and is stored |
| EvalRoutes.ResultsOfComplete | server/src/routes/eval.ts:185-186 | every stored result of the requester is listed |
| EvalRoutes.ResultsOfSorted | server/src/routes/eval.ts:185-187 | the listing holds the same entries, as often, as the requester's stored results in insertion order, ordered by timestamp descending |
| EvalRoutes.ResultsOfOnce | server/src/routes/eval.ts:118-187 | in a store whose ids are distinct and whose entries sit under their own ids, each of the requester's results is listed exactly once |
| EvalRoutes.NewResult | server/src/routes/eval.ts:102-115 | a new result carries the requester's id, no rating and the clock reading as its id |
| EvalRoutes.ParseRating | server/src/routes/eval.ts:143 | a rating is accepted exactly when it is `A` or `B` |
| EvalRoutes.EvalStore.constructor | server/src/routes/eval.ts:28 | the store starts empty |
| EvalRoutes.EvalStore.Put | server/src/routes/eval.ts:118 | `set` stores the result under its id and records a new id at the end of the insertion order |
| EvalRoutes.EvalStore.Compare | server/src/routes/eval.ts:85-135 | a missing field gives 400 and leaves the store unchanged; otherwise the new result is stored under its id, owned by the requester, unrated |
| EvalRoutes.EvalStore.Rate | server/src/routes/eval.ts:138-178 | 400 for a missing id or a bad rating, then 404 for an unknown id, then 403 for another user's result, none changing the store; otherwise only that result's rating is set |
| Persistence.NewChat | server/src/services/dynamodb.ts:94-103 | a new chat has the given id and owner, both times set to now, and the title or `New conversation` when the title is absent or empty |
| Persistence.LiveChatId | server/src/services/dynamodb.ts:96 | a live chat id starts with `chat_` |
| Persistence.LiveMessageId | server/src/services/dynamodb.ts:202 | a live message id starts with `msg_` |
| Persistence.ChatIdOf | server/src/services/dynamodb.ts:136 | a stored chat's id is its `chatId` when that is non-empty, and its `id` otherwise |
| Persistence.RecordRoundTrip | server/src/services/dynamodb.ts:104-140 | the chat read back from the record it was stored as is the same chat |
| Persistence.UserChatsProps | server/src/services/dynamodb.ts:134-143 | the listing has one chat per record, each read from some record, the same chats with the same multiplicities, ordered by `updatedAt` descending |
| Persistence.CreatedChatListed | server/src/services/dynamodb.ts:104-143 | a chat whose record is stored appears in the listing |
| Persistence.ChatMessages | server/src/services/dynamodb.ts:230-254 | the store's messages when it answers; otherwise exactly one greeting `mock_msg_1` in the asked chat |
| Persistence.MockCreateUser | server/src/services/dynamodb.ts:258-262 | the mock user echoes the profile, with both times set to now |
| Persistence.MockGetUser | server/src/services/dynamodb.ts:264-273 | the mock always finds a user with the asked id and the fixed email and name |
| Persistence.MockCreateChat | server/src/services/dynamodb.ts:279-288 | the mock chat's id starts with `mock_chat_`, it has the owner, and its title is the given title or `New conversation` |
| Persistence.MockUserChats | server/src/services/dynamodb.ts:290-301 | the mock always lists exactly one chat, `mock_chat_1`, titled `Sample conversation` and owned by the user |
| Persistence.MockCreateMessage | server/src/services/dynamodb.ts:311-318 | the mock message echoes the input, with an id starting `mock_msg_` and the current time |
| Persistence.MockChatMessages | server/src/services/dynamodb.ts:320-331 | the mock always answers with the single greeting the live adapter gives on failure |
| Persistence.SelectAdapter | server/src/services/dynamodb.ts:335-350 | the live adapter is selected exactly when both credentials are set and non-empty |
| Persistence.Attempts | server/src/services/dynamodb.ts:186-191 | the loop stops right after the first refused delete, or after the last message |
| Persistence.DeleteLogEffect | server/src/services/dynamodb.ts:186-191 | when every delete is accepted, the deletions remove exactly the listed messages' ids |
| Persistence.DeletedChatGone | server/src/services/dynamodb.ts:176-196 | a delete that succeeds removes the chat and every message listed for it, and nothing else |
| Persistence.DeleteWithFailedQueryKeepsMessages | server/src/services/dynamodb.ts:176-196 | when the message query fails, its mock greeting is what is deleted, so the chat's real messages stay stored |
| Persistence.MessageTouchesChat | server/src/services/dynamodb.ts:199-222 | a stored message is kept, and its chat's `updatedAt` becomes the message's time |
| Persistence.CreatedChatStored | server/src/services/dynamodb.ts:104-114 | a created chat's record is stored under its id |
| Persistence.Db.constructor | server/src/services/dynamodb.ts:335-350 | the adapter is chosen from the credentials and nothing has been sent |
| Persistence.Db.CreateUser | server/src/services/dynamodb.ts:45-63 | the live adapter sends one put and rethrows when the store refuses it; the mock echoes the profile |
| Persistence.Db.GetUser | server/src/services/dynamodb.ts:65-76 | the live adapter sends one get and gives null when the store fails |
| Persistence.Db.UpdateUserLastLogin | server/src/services/dynamodb.ts:78-91 | always returns; the live adapter sends one update whose failure is swallowed |
| Persistence.Db.CreateChat | server/src/services/dynamodb.ts:94-120 | the live adapter sends one put of the new chat and rethrows when the store refuses it; the mock sends nothing |
| Persistence.Db.GetUserChats | server/src/services/dynamodb.ts:122-158 | the live adapter sends one scan and lists its records sorted, or the single mock chat when it fails |
| Persistence.Db.CreateMessage | server/src/services/dynamodb.ts:199-228 | always returns the input with an id and time; the chat is touched only after the put is accepted |
| Persistence.Db.GetChatMessages | server/src/services/dynamodb.ts:230-254 | the live adapter sends one query and answers with the messages or the greeting |
| Persistence.Db.DeleteMessages | server/src/services/dynamodb.ts:186-191 | one delete per message, in order, until the first refusal; success exactly when all are accepted |
| Persistence.Db.DeleteChat | server/src/services/dynamodb.ts:176-196 | the live adapter deletes the chat, then each message the query gave, and rethrows a refusal; when every deletion is accepted its requests are exactly `DeleteChatLog` (the chat, the query, one deletion per message); the mock does nothing |
| AuthContext.UserJson | client/src/context/AuthContext.tsx:51 | the stored user is a JSON object opening with its `id` field |
| AuthContext.ScanQuoted | client/src/context/AuthContext.tsx:41 | reading a JSON string body gives back the escaped string and the text after its closing quote |
| AuthContext.FieldQuoted | client/src/context/AuthContext.tsx:41 | a key then a string field reads back the field's value and what follows it |
| AuthContext.ParseUserJson | client/src/context/AuthContext.tsx:41-51 | `JSON.parse` of the stored `JSON.stringify(user)` gives back the same user |
| AuthContext.StoreSession | client/src/context/AuthContext.tsx:50-51 | storage then holds the token under `authToken` and the user under `user`; every other key is unchanged |
| AuthContext.ClearSession | client/src/context/AuthContext.tsx:68-69 | storage then holds neither `authToken` nor `user`; every other key is unchanged |
| AuthContext.MountedNeedsBothEntries | client/src/context/AuthContext.tsx:34-44 | user and token are restored only when both entries are present and non-empty, and loading becomes false unless the stored user does not parse |
| AuthContext.EmptyStorageMount | client/src/__tests__/AuthContext.test.tsx:27-29 | with empty storage the provider ends up not loading, with no user and no token |
| AuthContext.ReloadRestoresSession | client/src/context/AuthContext.tsx:34-52 | a reload after `setAuthData` restores the same user and token |
| AuthContext.ReloadAfterLogout | client/src/context/AuthContext.tsx:34-69 | a reload after `logout` starts signed out and not loading |
| AuthContext.UseAuth | client/src/context/AuthContext.tsx:21-27 | the provider's value inside a provider; outside, the error `useAuth must be used within an AuthProvider` |
| AuthContext.LoginUrl | client/src/context/AuthContext.tsx:58 | the configured server address, or `http://localhost:3001`, followed by `/auth/google` |
| AuthContext.AuthProvider.constructor | client/src/context/AuthContext.tsx:30-32 | a new provider has no user and no token and is loading |
| AuthContext.AuthProvider.Mount | client/src/context/AuthContext.tsx:34-44 | the state becomes the mounted state for the stored entries, and the effect throws exactly when the stored user does not parse |
| AuthContext.AuthProvider.SetAuthData | client/src/context/AuthContext.tsx:47-52 | user and token are set and both storage entries are written |
| AuthContext.AuthProvider.Login | client/src/context/AuthContext.tsx:54-58 | loading is set, then the browser is sent to the sign-in address |
| AuthContext.AuthProvider.Logout | client/src/context/AuthContext.tsx:65-71 | user and token are cleared, both entries removed, and the browser sent to `/` |
| EvalHarness.MockComparison | client/src/components/EvalHarness.tsx:95-107 | the mock embeds the message in the two fixed response formats, has no rating, and its latencies and token counts lie in the mock's ranges |
| EvalHarness.RateAllEffect | client/src/components/EvalHarness.tsx:154-156 | entries with the id get the rating and keep everything else; all other entries are unchanged |
| EvalHarness.LastRatingWins | client/src/components/EvalHarness.tsx:154-156 | rating the same id again replaces the earlier rating |
| EvalHarness.RatingsCommute | client/src/components/EvalHarness.tsx:154-156 | ratings of different ids can be applied in either order |
| EvalHarness.RateCurrent | client/src/components/EvalHarness.tsx:158-160 | the current result is rated only when its id is the rated id |
| EvalHarness.Harness.constructor | client/src/components/EvalHarness.tsx:26-31 | the page starts with an empty message, the two default prompts, not running, no current result and no history |
| EvalHarness.Harness.RunComparison | client/src/components/EvalHarness.tsx:63-136 | a blank message changes nothing; otherwise the service's result, or a mock also prepended to the history, becomes current, and the page stops running |
| EvalHarness.Harness.RateResponse | client/src/components/EvalHarness.tsx:138-161 | the history and the current result are rated by id whether or not the request went through |

## Left out

- Rendering (all JSX), the OAuth flow, JWT signing and `AuthCallback`: `verifyToken` is an abstract partial function passed in as a parameter.
- The OpenAI, AWS SDK, `fetch`, `ReadableStream` and `TextDecoder` calls. They become parameters: a finite delta sequence with a failure flag, an accepted/refused flag per store request, a reply value per fetch, and a sequence of text chunks.
- `Date.now()`, `new Date()`, `Math.random()` and the random id suffixes are parameters. Times are whole milliseconds rather than ISO strings. The random mock draws are whole numbers already floored. Where the source reads the clock twice for one record (`Date.now()` for the id and `new Date()` for the timestamp, as in App.tsx lines 184-186), ChatClient.LocalChat, EvalRoutes.NewResult and Persistence.NewChat take one reading `now` for both.
- The `setTimeout` delay between steps of the typing loop is not modelled; the delay itself changes no state.
- EvalHarness.Harness.RunComparison: after a successful comparison the page schedules `loadHistory` 500 ms later (EvalHarness.tsx lines 89-92), which then replaces `results` with the server's listing. The contract `results == old(results)` describes the state only until that reload runs.
- The following lie outside the modelled core:
  - `loadMessages` (App.tsx lines 125-160) clears `messages` when the active chat changes. It then sets them to the server's list, or, on a non-OK answer or an exception, to one fixed greeting with id `1`.
  - `handleChatSelect` (App.tsx lines 220-225) sets `activeChat`.
  - `loadHistory` (EvalHarness.tsx lines 35-56) replaces `results` with the listing from `GET /api/eval/results` when the answer is OK, and leaves it unchanged otherwise. It then clears `loadingHistory`.
  - `updateChatTitle` (dynamodb.ts lines 160-174) sends one `UpdateCommand` setting the title and `updatedAt`, and swallows its error.
  - The debug endpoint.
  - The other chat routes (`GET /`, `POST /`, `DELETE /:chatId`, `GET /:chatId/messages`). They call the modelled adapter functions and answer 500 when those throw.
- The `Promise.all` in `/compare` is modelled as two calls one after the other.
- Characters are Unicode scalar values. JavaScript strings are UTF-16, so a character outside the basic plane would be one character here but two code units there. The per-character mock frames and `substring(0, 50)` differ for such characters.
- Frames.Decode and AuthContext.ParseUser: they read only the JSON shapes that `JSON.stringify` writes for these payloads; any other text counts as malformed.
- ChatClient.ChunkText: a frame split across two chunks is dropped, as in the client. Pipeline.StreamOfFrames covers only streams cut between frames.
- ChatClient.ChatView.UpdateChatOrder: the client mutates the moved chat's `updatedAt` in place. The model builds a new value, so aliasing with the earlier list is not captured.
- EvalRoutes.EvalStore.Results has no contract of its own; what `/results` promises is stated on EvalRoutes.ResultsOf by the three ResultsOf lemmas.
- EvalRoutes.EvalStore.Compare: the 500 path is not modelled, because the completion helper never throws.
- EvalRoutes.Complete requires the random draw to be below 100, as `Math.floor(Math.random() * 100)` always is.
- StreamRelay.HandleStream: the user save is recorded as a Save event whatever its outcome; the catch around it (chat.ts lines 35-37) only logs, and `createMessage` never throws in either adapter. The outer 500 catch is not modelled, because nothing after the save throws.
- StreamRelay.HandleStream: `message` is a string. A request without `message` is not modelled: the source then saves an undefined content and prints `undefined` in the mock templates (chat.ts lines 48 and 95).
- Persistence.Apply: an update of a missing key leaves the tables unchanged, whereas DynamoDB's `UpdateCommand` would create the item.
- Persistence.Db.GetUserChats: the scan's `userId` filter is taken as done by the store; the records passed in are the user's.
- Id collisions when two results, messages or chats are made in the same millisecond are not modelled.
- AuthContext.AuthProvider.Login: the catch branch is not modelled, because assigning `window.location.href` does not throw.
