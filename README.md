# Emotional companion chat: session store and send protocol

This project models the core of a small chat front-end. A child picks one of two
companion characters, Tom or Jerry, and chats with that character's backend. Each
conversation is a chat session. The whole collection of sessions is persisted in
the browser's local storage under one key.

The model covers four parts of the program:

- `types.dfy` (module `Types`): the records exchanged by the components. These are
  characters, messages and chat sessions, plus the two catalog characters and their
  endpoints.
- `chat_service.dfy` (module `ChatService`): the backend client and the storage
  adapter.
  - The client builds the POST request and classifies how it settled: rejected,
    a non-ok status, an undecodable body, or a reply.
  - It extracts the reply text by the priority chain `reply`, `response`,
    `message`, then a bare string body, then a fixed fallback text.
  - The storage adapter is the class `ChatStorage`. Its single cell is overwritten
    by `Save` and read back by `Load`. Failures are swallowed in both.
- `app.dfy` (module `App`): the top-level component.
  - Pure queries over the session collection: `findIndex`/`find` by id, the
    filter by character, the stable newest-first sort, the update-or-insert
    ("upsert") of a session's messages, the history and active-message props.
  - The class `Controller`, whose three state cells (selected character, all
    sessions, active id) are replaced by the handlers.
  - Which screen is rendered.
- `chat_interface.dfy` (module `ChatInterface`): the chat view's send protocol.
  - `String.prototype.trim` over the ECMAScript white-space set.
  - The class `ChatView`, holding `messages`, `inputValue` and `isLoading`.
  - `handleSend`: the user message is committed through the controller, the
    backend is asked, and the reply or the error bubble is committed again.
  - A ghost `trace` records what the view hands on, in order.

Inputs from the environment are parameters of the model:

- the clock (`Date.now()`);
- the generated message ids;
- how `fetch` settles, and whether `JSON.parse` accepts the body;
- whether a storage read or write throws.

Main properties proved:

- The reply extraction chain is a first-match scan of the ordered field list.
- A reply exists exactly for an ok status with a decodable body.
- A failed request always ends as the error bubble.
- A successful save followed by a load gives back what was saved.
- The newest-first sort is sorted, a permutation, and stable.
- Selecting a character resumes exactly the session with the greatest
  `lastUpdated`, the earliest one among ties.
- Clock-based ids round-trip through their decimal text and are injective.
- Upsert changes only the first session with the id, or appends one. Reading the
  id back yields the messages just written ("last write wins").
- After a send, the store holds for the current session exactly the messages the
  view shows.
- Blank input changes nothing.

## Model

| member | source | states |
|---|---|---|
| ChatService.ExtractReply | services/chatService.ts:43-64 | a string `reply` wins; else a string `response`; else a string `message`; an object without any of them, and null/boolean/number/array bodies, give the fixed fallback text; a bare string body is its own reply |
| ChatService.FirstStringField | services/chatService.ts:43-56 | the first of the given names with a string property, and none exactly when no name has one |
| ChatService.ExtractReplyIsOrderedScan | services/chatService.ts:43-64 | the if-chain equals a first-match scan of the field list `reply`, `response`, `message`, followed by the string-body and fallback cases |
| ChatService.BackendRequest | services/chatService.ts:26-32 | the request is a POST to the endpoint with a JSON content-type header and a body object whose only key `message` holds the user's text |
| ChatService.SendMessageToBackend | services/chatService.ts:22-70 | a reply is returned exactly for an ok status (200 to 299) with a decodable body, and it is the extracted reply; a non-ok status is an error carrying that status and status text; a rejected fetch is a connection error |
| ChatService.ChatStorage.constructor | services/chatService.ts:4-20 | the storage cell starts with the given content |
| ChatService.ChatStorage.Save | services/chatService.ts:4-10 | the cell holds the whole collection afterwards, or is left as it was when the write throws |
| ChatService.ChatStorage.Load | services/chatService.ts:12-20 | a stored document is returned; an absent key, empty or undecodable text, or a throwing read give the empty collection |
| ChatService.SaveThenLoad | services/chatService.ts:4-20 | loading after a successful save gives back exactly the saved collection |
| App.NatToString | App.tsx:37 | the decimal text of a clock reading is non-empty, all digits, and has no leading zero |
| App.NatToStringRoundTrip | App.tsx:37 | parsing the decimal text of a clock reading gives the reading back |
| App.NatToStringInjective | App.tsx:47 | distinct clock readings give distinct session ids |
| App.FirstIndex | App.tsx:59 | `findIndex`: the first position whose id matches, and -1 exactly when no session has the id |
| App.Find | App.tsx:84 | `find`: the first session of the collection with that id, and none exactly when no session has the id |
| App.ActiveMessages | App.tsx:82-86 | no messages for a null or empty (falsy) active id or an unknown one; otherwise the messages of the first session with that id |
| App.Upsert | App.tsx:58-75 | the collection grows by one exactly when no session has the id, and the new last entry is the new session; otherwise only the first match changes, to the new messages and time; ids and characters of existing sessions are kept |
| App.LastWriteWins | App.tsx:55-86 | after an upsert, finding the id gives the written messages and time, and the active messages for a non-empty id are the written ones |
| App.OfCharacter | App.tsx:27-29 | the filter keeps every session of the character with its multiplicity and nothing else |
| App.OfCharacterCons | App.tsx:27-29 | a sequence headed by a session of the character keeps that session first, followed by the filtered rest; other heads are dropped |
| App.OfCharacterAppendStep | App.tsx:27-29 | if the filter distributes over `a + b`, it distributes over `[x] + a` followed by `b` |
| App.OfCharacterAppend | App.tsx:27-29 | the filter keeps collection order: filtering `a + b` is filtering `a` followed by filtering `b` |
| App.OfCharacterSingleton | App.tsx:27-29 | a single session is kept exactly when it belongs to the character |
| App.InsertByRecency | App.tsx:32-34 | inserting into a newest-first sequence keeps it newest first and adds exactly the element |
| App.SortByRecency | App.tsx:32-34 | the sort result is newest first and a permutation of its input |
| App.WithTimestamp | App.tsx:32-34 | the selected subsequence holds only sessions with the given timestamp |
| App.WithTimestampAppend | App.tsx:32-34 | the selection keeps order: selecting from `a + b` is selecting from `a` followed by selecting from `b` |
| App.WithTimestampSingleton | App.tsx:32-34 | a single session is selected exactly when it carries the timestamp |
| App.InsertKeepsTies | App.tsx:32-34 | insertion puts the new element in front of the elements with an equal timestamp |
| App.SortIsStable | App.tsx:32-34 | for every timestamp, the sessions carrying it keep their relative order through the sort |
| App.MostRecentOf | App.tsx:27-35 | reference choice: the first session of the character with the greatest `lastUpdated`, and -1 exactly when the character has no session |
| App.FirstTieHeadsFilter | App.tsx:27-29 | the first session of the character at a timestamp heads the filtered sessions at that timestamp |
| App.OfCharacterNonEmpty | App.tsx:27-31 | the filter is non-empty exactly when the reference choice finds a session |
| App.SortedHeadTimestamp | App.tsx:31-35 | the head of the sorted sessions of the character carries the greatest `lastUpdated` |
| App.SortedHeadIsMostRecent | App.tsx:27-35 | the head of the sorted sessions of the character is exactly the reference choice |
| App.CharacterHistory | App.tsx:88-93 | the history is empty without a selected character; otherwise it is newest first and holds exactly that character's sessions |
| App.HistoryKeepsTies | App.tsx:88-93 | sessions of the history sharing a `lastUpdated` appear in collection order |
| App.Controller.constructor | App.tsx:14-23 | no character and no active id; the sessions are the stored document, or empty when there is none or the read fails |
| App.Controller.CurrentScreen | App.tsx:95-108 | the chat view is rendered exactly when a character is selected and the active id is non-null and non-empty, with the character's history and the active messages as props |
| App.Controller.HandleCharacterSelect | App.tsx:25-39 | the character is selected; the active id is that of its most recent session, or the decimal clock reading when it has none; the collection is unchanged |
| App.Controller.HandleBackToHome | App.tsx:41-44 | character and active id are cleared and the home screen is rendered |
| App.Controller.HandleCreateNewSession | App.tsx:46-49 | the active id becomes the decimal clock reading; nothing else changes; with a character selected the chat view is rendered |
| App.Controller.HandleSelectSession | App.tsx:51-53 | the active id becomes the given id; nothing else changes |
| App.Controller.HandleUpdateSession | App.tsx:55-80 | without a character nothing changes; otherwise the collection becomes the upsert, the storage is written with it unless the write fails, and the active session then shows the written messages |
| ChatInterface.Trim | components/ChatInterface.tsx:69 | the trimmed text is a slice of the input whose cut-off prefix and suffix are all white space; it is empty exactly when the input is all white space, and otherwise its first and last characters are not white space |
| ChatInterface.SkipBlankForward | components/ChatInterface.tsx:69 | the end of a run of leading white space: every skipped character is white space and the next one is not |
| ChatInterface.SkipBlankBackward | components/ChatInterface.tsx:69 | the start of a run of trailing white space: every skipped character is white space and the one before is not |
| ChatInterface.ReplyMessage | components/ChatInterface.tsx:87-105 | the bot bubble carries the reply text, or the fixed apology with the error flag set exactly when the request failed |
| ChatInterface.ServerErrorBecomesErrorBubble | components/ChatInterface.tsx:84-108 | a non-ok status always ends as the error bubble, whatever the body |
| ChatInterface.ChatView.constructor | components/ChatInterface.tsx:34-36 | the view starts with the initial messages, empty input and not loading |
| ChatInterface.ChatView.ResetForSession | components/ChatInterface.tsx:55-58 | a session change resets the local messages and keeps the input |
| ChatInterface.ChatView.SetInput | components/ChatInterface.tsx:179 | only the input text changes |
| ChatInterface.ChatView.Commit | components/ChatInterface.tsx:80 | the controller's update handler is applied to the current session and the commit is recorded |
| ChatInterface.ChatView.BeginSend | components/ChatInterface.tsx:71-82 | the untrimmed input becomes the user message, which is appended and committed; the storage cell then holds the updated collection unless that write fails; the input is cleared and loading is set |
| ChatInterface.ChatView.FinishSend | components/ChatInterface.tsx:84-111 | the reply or error bubble is appended and committed, the storage cell holds the updated collection unless that write fails, loading is cleared, and the store holds exactly the view's messages for the session |
| ChatInterface.ChatView.SendInput | components/ChatInterface.tsx:71-111 | two commits around the backend call, which receives exactly the user's text while the input is empty and loading is set; the collection is the two upserts in order, the storage cell holds the last collection whose write succeeded, and the store ends up matching the view |
| ChatInterface.ChatView.HandleSend | components/ChatInterface.tsx:68-112 | input that trims to empty changes nothing and commits nothing; any other input is sent as `SendInput` states; a mounted view stays mounted, and after a send the controller's active messages are the view's |

## Left out

- Rendering is not modelled: the JSX, markdown rendering of bot text, the home
  page, the character cards, the clouds and the bubble game. None of it changes
  session state.
- The storage format is not modelled. `JSON.stringify`/`JSON.parse` of the
  collection are abstract: a cell holds a document or undecodable text.
- ChatService.ChatStorage.Load: stored text that is valid JSON but not a session
  array (for example `null` or `5`) is returned unchecked by the code. The model
  has no such cell content.
- ChatService.SendMessageToBackend: reading the error body (`response.text()`),
  the exact text of the thrown `Error`, and the console logging are not modelled.
  The caller discards all three. A failure of `response.text()` is folded into the
  non-ok status error.
- The decoded JSON numbers are reals. Number formatting and precision are not
  modelled.
- Timestamps and `lastUpdated` are unbounded integers. The 53-bit precision of
  JavaScript numbers is not modelled.
- `generateId` (random digits plus the clock) is a parameter. The model claims
  nothing about the uniqueness of message ids.
- App.Controller.HandleCharacterSelect and App.Controller.HandleCreateNewSession
  take any clock reading. A new id can equal an existing session's id
  when two clock readings coincide, and then that session is resumed. The model
  does not claim that new ids are fresh.
- React's asynchronous state updates are not modelled. Each handler applies its
  updates at once, in program order, and the functional update of `allSessions`
  runs on the latest collection.
- Stale closures are not modelled. In the code, the second commit of a send uses
  the `currentSessionId` captured when the send started; the model reads the
  view's field, which nothing can change during a send.
- Interleaving of two sends, or other events arriving while a request is
  pending, is not modelled.
- ChatInterface.ChatView.SendInput: the `await` is modelled as splitting the send
  into `BeginSend` and `FinishSend`, with the settled outcome passed in between.
- The disabled state of the input and send button while loading is UI-only and
  is not modelled. `handleSend` itself does not check `isLoading`.
- The view's `isSidebarOpen` flag is not modelled: the view only resets it when the
  session changes and never reads it. Scrolling to the bottom and the Enter-key
  handler (which only calls `handleSend`) are not modelled either.
- The view receives `onBack`, `onNewSession` and `onSelectSession` but never
  calls them. The handlers behind them are reachable only as the
  `App.Controller` methods `HandleBackToHome`, `HandleCreateNewSession` and
  `HandleSelectSession`.
- The image URL, theme colour and description of a character are dropped. Only
  the id, the name and the endpoint are read by the modelled code.
- Behaviour of the code the model keeps:
  - An empty active id is falsy, so it shows the home screen and no messages.
  - A new session id is the clock reading and is not guaranteed fresh.
  - Loading returns any decodable stored text without checking its shape.
