# Browlette, modelled in Dafny

Browlette is a party game played from a browser extension. Players create
or join a room on a WebSocket game server. Each player submits their
browser history. The server asks a language model to pick the most
embarrassing search term from one player's history and reveals it to the
room. The players then vote, or rank one another, and the game ends with a
score table.

This project models the two halves of that exchange:

- **The server** (`server/src`, and the compiled `server/dist` that is
  actually shipped):
  - `Room`: a bounded map of players that broadcasts every change in
    membership;
  - `RoomManager`: the registry of rooms;
  - the message router with its command handlers and the close handler;
  - the term-selection client (`GeminiClient`): the prompt, the clean-up of
    the reply and the fallback record.
- **The client** (`extension/src`):
  - the session state of `App` and the reducer applied to every server
    message;
  - the guarded command senders, the leave-room reset and the choice of
    screen;
  - the ranking screen's drag-and-drop reorder;
  - the game-over screen's score ordering and winner;
  - the WebSocket hook's send queue.

Modules, one per source file or concern:

| file | module | models |
|---|---|---|
| `protocol.dfy` | `Protocol` | wire values (`Player`, `HistoryEntry`, `Analysis`, `Inbound`, `Event`), the `Outbox` of sent envelopes, and what one broadcast is |
| `room.dfy` | `Rooms` | `server/src/Room.ts` as a class |
| `room_manager.dfy` | `RoomManagers` | `server/src/RoomManager.ts` as a class |
| `handlers.dfy` | `Handlers` | the handlers `server/src/index.ts` and `server/dist/index.js` share: createRoom, joinRoom, leaveRoom, chatMessage, the unknown type, close |
| `gateway.dfy` | `Gateway` | the router of `server/dist/index.js`, with startGame, submitSearchHistory and submitVote |
| `legacy_gateway.dfy` | `LegacyGateway` | the router of `server/src/index.ts` |
| `gemini_client.dfy` | `GeminiClient` | `server/src/GeminiClient.ts` |
| `as_written.dfy` | `AsWritten` | the game phase as the shipped `Room.js` and `RoomState.js` leave it (see Findings) |
| `client_app.dfy` | `ClientApp` | `extension/src/App.tsx` |
| `ranking_view.dfy` | `RankingView` | `extension/src/views/RankingView.tsx` |
| `game_over_view.dfy` | `GameOverView` | `extension/src/views/GameOverView.tsx` |
| `websocket_service.dfy` | `WebSocketService` | `extension/src/websocketService.ts` |
| `compat.dfy` | `Compat` | how each side reads what the other sends |

Conventions:

- **The server's state.**
  - Rooms, the registry, a connection's player link and the socket hook
    are classes whose methods update their fields.
  - What the server sends is an `Outbox` holding the sequence of
    `(connection id, event)` envelopes.
  - A broadcast is specified by `BroadcastOf`: every new envelope carries
    the event, and each member is addressed exactly once. The order of the
    envelopes is left open.
- **Inputs the model does not compute.**
  - A new room's random id is a parameter.
  - The random pick of a player's history is a nondeterministic choice,
    returned to the caller.
  - The model call and `JSON.parse` are function parameters.
- **JavaScript values.**
  - A missing field (`undefined`) and `null` are both `None`.
  - JavaScript truthiness on an optional string is `Truthy`: present and
    non-empty.

Where the compiled server and its TypeScript source differ, both are
modelled:

- `Gateway` follows `server/dist/index.js`.
- `LegacyGateway` follows `server/src/index.ts`.
- The handlers the two routers share are written once, in `Handlers`.

Wherever a written description of the game and the code disagree, the
model follows the code:

- **Phases and scoring.** The shipped router has no ranking phase, no
  rounds and no scoring. `submitVote` answers a placeholder
  `roundResults`.
- **Client commands the server does not know.** The client sends
  `submitRankings`, `startNextRound` and `setMaxRounds`, and the server
  answers each of them as an unknown type (`Compat.ClientCommandsRouted`).
- **History items.** The client submits history items made of url, title
  and visit time. The prompt reads a `query` field, so every history line
  of the prompt reads `- undefined` (`Compat.ClientHistoryPromptsUndefined`).
- **The host.** No server event carries `hostId` or `playerId`, so every
  client believes it is the host (`Compat.EveryoneIsHost`).

## Model

| member | source | states |
|---|---|---|
| Protocol.BroadcastReachesEachMemberOnce | server/src/Room.ts:33-37 | a broadcast sends exactly one copy of the event to each current member and none to anybody else |
| Protocol.BroadcastSize | server/src/Room.ts:33-37 | a broadcast sends as many messages as the room has players |
| Protocol.BroadcastToNobody | server/src/Room.ts:33-37 | a broadcast in an empty room sends nothing |
| Protocol.BroadcastExtend | server/src/Room.ts:34-36 | sending the event to one more player extends a broadcast to the members plus that player |
| Rooms.Room.constructor | server/src/Room.ts:9-14 | a new room has the given id, name and capacity (2 by default), no players, and starts waiting for players with empty submissions |
| Rooms.Room.AddPlayer | server/src/Room.ts:16-23 | succeeds exactly when the room is below capacity; on success the player is seated under its id and every member, the newcomer included, hears `playerJoined`; on failure nothing changes and nothing is sent |
| Rooms.Room.RemovePlayer | server/src/Room.ts:25-31 | the player is no longer seated; if they were seated, the remaining members hear `playerLeft` with their name, otherwise nothing is sent |
| Rooms.Room.Broadcast | server/src/Room.ts:33-37 | appends one broadcast of the event to the current members and changes nothing else |
| RoomManagers.RoomManager.constructor | server/src/RoomManager.ts:7-9 | a new registry holds no rooms |
| RoomManagers.RoomManager.CreateRoom | server/src/RoomManager.ts:11-17 | registers a fresh empty room under the id, with the requested capacity or the default one, and returns it |
| RoomManagers.RoomManager.GetRoom | server/src/RoomManager.ts:19-21 | finds a room exactly when one is registered under the id, and then it is that room |
| RoomManagers.RoomManager.JoinRoom | server/src/RoomManager.ts:23-31 | succeeds exactly when the room exists and is below capacity; then the player is seated there and the room hears `playerJoined`; other rooms never change, and a failure changes nothing |
| RoomManagers.RoomManager.LeaveRoom | server/src/RoomManager.ts:33-42 | unseats the player from that room and unregisters the room once it is empty; an unknown room id changes nothing; no other room is touched |
| Handlers.GuestName | server/src/index.ts:30 | `Guest-` followed by a prefix of at most five characters of the connection id |
| Handlers.JoinName | server/src/index.ts:30 | the requested name when it is present and non-empty, otherwise the guest name |
| Handlers.BroadcastMembers | server/src/Room.ts:33-37 | every message of a broadcast carries its event and goes to a member |
| Handlers.HandleCreateRoom | server/src/index.ts:25-28 | registers a fresh empty room of default capacity under the new id and answers `roomCreated` to the sender only |
| Handlers.HandleJoinRoom | server/src/index.ts:29-38 | links the connection to its player id even when the join fails; on success the members hear `playerJoined` before the sender gets `roomJoined`; on failure the sender gets `joinRoomFailed` and nobody is seated |
| Handlers.HandleLeaveRoom | server/src/index.ts:39-44 | with a player id and a room id, leaves through the registry and always answers `roomLeft`, even for an unknown room; before it, the only messages are the `playerLeft` broadcast to the players who remain, or none if the player was not seated; without both ids nothing happens |
| Handlers.HandleChatMessage | server/src/index.ts:45-54 | broadcasts the text under the sender's name exactly when the sender has a player id, the message has a room id and a non-empty text, and the sender sits in that room; otherwise nothing is sent |
| Handlers.HandleUnknown | server/src/index.ts:55-57 | one `Unknown message type.` error to the sender and nothing else |
| Handlers.HandleClose | server/src/index.ts:61-69 | the player is unseated from every room and no room is unregistered; for each room that seated the player, the messages sent on its behalf are one `playerLeft` broadcast to the players who remain, and other rooms send nothing; without a player id nothing changes |
| Gateway.Route | server/dist/index.js:23-127 | a recognised handler is reached only by its own `type` string |
| Gateway.RouteKindName | server/dist/index.js:23-127 | each recognised command's `type` string reaches that command's handler |
| Gateway.RouteUnknown | server/dist/index.js:124-126 | the default branch runs exactly when the type names no command, a missing type included |
| Gateway.Lookup | server/dist/index.js:40 | a room is found exactly when the message has a room id registered in the registry |
| Gateway.HandleStartGame | server/dist/index.js:39-49 | a room that is waiting for players moves to the game phase and every member hears `gameStarted`; any other request gets `Cannot start game.` back and no room changes phase |
| Gateway.CreateThenStart | server/dist/index.js:24-49 | a room created and then started is in the game phase, and only `roomCreated` is sent because nobody is seated yet |
| Gateway.CollectHistory | server/dist/index.js:54-79 | stores the history under the player; once every seated player has submitted, picks a seated player; if that player's history is stored, its analysed term becomes the round's term, the room hears `searchRevealed` and moves to voting; otherwise the room hears an error and the phase stays; the stored histories are then cleared |
| Gateway.HandleSubmitSearchHistory | server/dist/index.js:50-86 | without a player id, a room id or a history nothing happens; a missing room or one not in the game phase gets an error back with no change; otherwise the history is collected as CollectHistory states; other rooms never change |
| Gateway.HandleSubmitVote | server/dist/index.js:87-107 | without a player id, a room id or a vote nothing happens; a room not in the voting phase gets an error back; otherwise the vote is stored, and once everyone has voted the room hears the placeholder `roundResults`, the votes are cleared and the room returns to the game phase |
| Gateway.Dispatch | server/dist/index.js:23-127 | an unknown type answers an error and changes no room (players, phase, submissions, term), no registry entry and no player link; only createRoom, joinRoom and leaveRoom change the registry or the connection's player link; only submitSearchHistory picks a player |
| LegacyGateway.LegacyRoute | server/src/index.ts:24-58 | the TypeScript router knows only createRoom, joinRoom, leaveRoom and chatMessage, each reached by its own type |
| LegacyGateway.LegacyRouteAgrees | server/src/index.ts:24-58 | the two routers agree on every type except startGame, submitSearchHistory and submitVote, which the TypeScript router treats as unknown |
| LegacyGateway.DispatchLegacy | server/src/index.ts:20-59 | an unknown type answers an error and changes no room (players, phase, submissions, term), no registry entry and no player link; a chat message changes neither the registry nor the player link |
| GeminiClient.Lines | server/src/GeminiClient.ts:25 | one `- <query>` line per history entry, in history order |
| GeminiClient.SplitJoin | server/src/GeminiClient.ts:25 | joining lines that hold no newline with newlines, then splitting at newlines, gives the lines back |
| GeminiClient.PromptLines | server/src/GeminiClient.ts:25 | when no query holds a newline, the prompt's history section splits back into exactly one line per entry |
| GeminiClient.EmptyHistorySection | server/src/GeminiClient.ts:25 | an empty history leaves the history section empty |
| GeminiClient.StripFencesLeavesNoFence | server/src/GeminiClient.ts:34 | after the fences are removed, no three backticks remain anywhere in the reply |
| GeminiClient.StripFencesWithoutFence | server/src/GeminiClient.ts:34 | a reply without three backticks in a row is left unchanged |
| GeminiClient.StripFencesIdempotent | server/src/GeminiClient.ts:34 | removing the fences twice is removing them once |
| GeminiClient.StripFencesWithoutBackticks | server/src/GeminiClient.ts:34 | a reply without backticks is left unchanged |
| GeminiClient.TrimStart | server/src/GeminiClient.ts:34 | a suffix of the text that starts with a non-space, with only white space dropped before it |
| GeminiClient.TrimEnd | server/src/GeminiClient.ts:34 | a prefix of the text that ends with a non-space, with only white space dropped after it |
| GeminiClient.CleanReplyWithoutBackticks | server/src/GeminiClient.ts:34 | cleaning a reply without backticks only trims it |
| GeminiClient.ProcessSearchHistory | server/src/GeminiClient.ts:24-42 | a failed model call gives the fallback record; otherwise the result is the parse of the cleaned reply, or the fallback when the parse fails |
| AsWritten.Member | server/dist/RoomState.js:1-8 | looking up a member missing from the compiled enum gives `undefined` |
| AsWritten.Fresh | server/dist/Room.js:2-7 | a freshly built room has no phase and no submission maps |
| AsWritten.Apply | server/dist/index.js:39-107 | startGame is refused exactly when the phase is not `WAITING_FOR_PLAYERS`; a vote on a room with no phase and no vote map throws |
| AsWritten.FreshRoomRefusesStart | server/dist/Room.js:2-7 | a freshly created shipped room refuses startGame |
| AsWritten.FreshRoomVoteThrows | server/dist/index.js:88-91 | a vote on a freshly created shipped room passes the voting check and throws |
| AsWritten.NeverStarts | server/dist/index.js:39-107 | whatever sequence of commands arrives, a shipped room never leaves its undefined phase and refuses every startGame |
| AsWritten.RevealLosesPhase | server/dist/index.js:71 | even with initialised fields, revealing a term leaves the room with an undefined phase |
| ClientApp.Reduce | extension/src/App.tsx:38-112 | the game-ended flag is raised only by `gameEnded`, and the current room changes only on `roomCreated`, `roomJoined` or `gameEnded` |
| ClientApp.ReduceIgnoresOtherKinds | extension/src/App.tsx:106-110 | a message of any other type, `error` included, leaves the whole state unchanged |
| ClientApp.ReduceIdempotent | extension/src/App.tsx:38-112 | handling the same message twice is the same as handling it once |
| ClientApp.RoomCreatedMakesHost | extension/src/App.tsx:40-48 | after `roomCreated` the client's own id is the host id from the message, so the client is host |
| ClientApp.RankingPhaseHidesTerm | extension/src/App.tsx:77-81 | `rankingPhaseStarted` raises the ranking flag and hides the revealed term and its timestamp |
| ClientApp.RankingsResultsStoresScores | extension/src/App.tsx:82-85 | `rankingsResults` with a payload stores its scores and lowers the ranking flag |
| ClientApp.NewRoundResets | extension/src/App.tsx:86-96 | `newRoundStarted` clears the term, the submissions, the ranking and ended flags and the scores, copies the turn and round fields, and keeps the room, the roster and the started flag |
| ClientApp.GameEndedLeavesRoom | extension/src/App.tsx:97-102 | `gameEnded` with a payload ends the game, stores the scores and forgets the room |
| ClientApp.GameOverNeverFollowsGameEnd | extension/src/App.tsx:97-102 | a `gameEnded` with a payload leads to the home screen, and the game-over screen can newly appear only after a `gameEnded` without a payload |
| ClientApp.Submitted | extension/src/App.tsx:158 | each history item becomes its url, title and visit time, in order |
| ClientApp.CreateRoomRequest | extension/src/App.tsx:116-120 | sends `createRoom` with the name exactly when a name was typed |
| ClientApp.JoinRoomRequest | extension/src/App.tsx:122-126 | sends `joinRoom` exactly when both a room id and a name were typed |
| ClientApp.StartGameRequest | extension/src/App.tsx:150-154 | sends `startGame` for the current room exactly when the client is in a room |
| ClientApp.SubmitHistoryRequest | extension/src/App.tsx:156-161 | sends `submitSearchHistory` for the current room, with one item per history entry, exactly when the client is in a room |
| ClientApp.SubmitRankingsRequest | extension/src/App.tsx:163-167 | sends `submitRankings` with the order unchanged exactly when the client is in a room |
| ClientApp.NextRoundRequest | extension/src/App.tsx:169-173 | sends `startNextRound` for the current room exactly when the client is in a room |
| ClientApp.SetMaxRoundsRequest | extension/src/App.tsx:175-179 | sends `setMaxRounds` with the number exactly when the client is in a room |
| ClientApp.LeaveRoom | extension/src/App.tsx:128-147 | in a room, sends `leaveRoom` for it and restores every session field to its initial value; outside a room nothing happens |
| ClientApp.LeaveRoomGoesHome | extension/src/App.tsx:128-147 | after leaving, the client is on the home screen and a second leave sends nothing |
| ClientApp.FindPlayer | extension/src/App.tsx:182 | finds nothing exactly when no player has the id; otherwise the first player with that id |
| ClientApp.PlayerNameById | extension/src/App.tsx:181-183 | the name of the first player with that id whenever that name is non-empty; the id itself when no player has it or that name is empty |
| ClientApp.SelectView | extension/src/App.tsx:192-243 | home without a room; otherwise game over if the game ended, else ranking if ranking started, else the lobby before the game starts and the game view after |
| RankingView.Ids | extension/src/views/RankingView.tsx:113 | the players' ids, in roster order |
| RankingView.PlayersToRank | extension/src/views/RankingView.tsx:109-113 | an id is in the list exactly when it belongs to a player other than the current one; with no current player, the whole roster |
| RankingView.PlayersToRankDropsOnlySelf | extension/src/views/RankingView.tsx:109-113 | when ids are unique, the list is the roster with exactly the current player's seat taken out |
| RankingView.NobodyDropped | extension/src/views/RankingView.tsx:109-111 | when nobody holds the current id, the list is the whole roster |
| RankingView.IndexOf | extension/src/views/RankingView.tsx:127-128 | -1 exactly when the id is absent; otherwise the first index holding it |
| RankingView.SpliceStart | extension/src/views/RankingView.tsx:130-131 | an in-range start is kept as is, and every start lands inside the list |
| RankingView.Insert | extension/src/views/RankingView.tsx:131 | placing an item and taking it back out gives the list back |
| RankingView.DragEnd | extension/src/views/RankingView.tsx:122-135 | no drop target, or a drop on itself, changes nothing; every drag keeps the list's length and its items |
| RankingView.DragEndMoves | extension/src/views/RankingView.tsx:126-133 | the dragged item lands at the index its target had, and the other items keep their relative order |
| RankingView.DragAllPermutes | extension/src/views/RankingView.tsx:122-139 | after any series of drags, the submitted order is a rearrangement of the initial list |
| RankingView.OnSubmit | extension/src/views/RankingView.tsx:137-139 | submits the current order unchanged, exactly when the client is in a room |
| GameOverView.InsertDesc | extension/src/views/GameOverView.tsx:56-60 | inserting into a list sorted from high to low score keeps it sorted and adds exactly that entry |
| GameOverView.InsertDescStable | extension/src/views/GameOverView.tsx:56-60 | inserting keeps the entries of each score in order, with the new entry ahead of its equals |
| GameOverView.SortDesc | extension/src/views/GameOverView.tsx:59 | the result is sorted from high to low score and is a permutation of the entries |
| GameOverView.SortDescStable | extension/src/views/GameOverView.tsx:59 | the sort is stable: the entries of each score keep their relative order |
| GameOverView.SortedScores | extension/src/views/GameOverView.tsx:56-60 | no scores give an empty list; otherwise the scores sorted from high to low, as a permutation |
| GameOverView.WinnerId | extension/src/views/GameOverView.tsx:62 | no winner exactly when there are no scores; otherwise the first sorted entry's player |
| GameOverView.WinnerHasTopScore | extension/src/views/GameOverView.tsx:56-62 | the winner holds the top score and, among the entries sharing it, is the one listed first |
| GameOverView.FirstWithScore | extension/src/views/GameOverView.tsx:56-62 | the index of the earliest entry with the given score |
| GameOverView.WinnerName | extension/src/views/GameOverView.tsx:63 | 'N/A' without a winner id; otherwise the winner's display name |
| GameOverView.NoScoresNoWinner | extension/src/views/GameOverView.tsx:56-63 | without scores there is no winner, and the name shown is 'N/A' |
| GameOverView.RowNameFallsBackToId | extension/src/views/GameOverView.tsx:82 | a score row whose player is not on the roster shows the player id |
| WebSocketService.NonEmpty | extension/src/websocketService.ts:21-26 | exactly the non-empty queued messages, in order |
| WebSocketService.NonEmptyAppend | extension/src/websocketService.ts:18-27 | draining two queues one after the other sends them in that order |
| WebSocketService.NonEmptyKeepsAll | extension/src/websocketService.ts:18-27 | a queue without empty messages is sent whole |
| WebSocketService.Socket.constructor | extension/src/websocketService.ts:10-13 | a new hook is not open or connected, has nothing queued or sent, and has seen no message |
| WebSocketService.Socket.SendMessage | extension/src/websocketService.ts:54-61 | while open, the message goes straight onto the wire; otherwise it joins the back of the queue |
| WebSocketService.Socket.OnOpen | extension/src/websocketService.ts:18-27 | the hook becomes connected, every non-empty queued message is sent after those already sent, in order, and the queue ends empty |
| WebSocketService.Socket.OnMessage | extension/src/websocketService.ts:29-39 | a message that parses becomes the last message and reaches the callback if there is one; a message that does not parse changes nothing |
| WebSocketService.Socket.OnClose | extension/src/websocketService.ts:41-43 | the hook reports itself disconnected |
| WebSocketService.SendAllThenOpen | extension/src/websocketService.ts:18-27 | any number of non-empty messages written while the socket is not open reach the wire when it opens, after what was already queued and in the order they were written |
| Compat.ClientCommandsRouted | extension/src/App.tsx:163-179 | the server answers the client's submitRankings, startNextRound and setMaxRounds as unknown types, and routes each other client command to its own handler |
| Compat.AsServerHistory | extension/src/App.tsx:158 | one server-side entry per submitted item, none of them with a query |
| Compat.ClientHistoryPromptsUndefined | server/src/GeminiClient.ts:25 | every history line of a prompt built from a client submission reads `- undefined` |
| Compat.AsReceived | server/dist/index.js:26 | no server event gives the client a host id, a player id, a roster or round numbers |
| Compat.EveryoneIsHost | extension/src/App.tsx:40-56 | after `roomCreated` or `roomJoined` from this server, the client has no player id and an empty roster, and it believes it is the host |
| Compat.CreatedRoomReachesClient | extension/src/App.tsx:40-48 | the server's `roomCreated` puts the client in the new room, on the lobby screen |
| Compat.RevealedTermReachesClient | extension/src/App.tsx:73-76 | the revealed term reaches the client, with no timestamp |
| Compat.UnhandledEventsIgnored | extension/src/App.tsx:106-110 | `joinRoomFailed`, `roomLeft`, `roundResults`, `chatMessage` and `error` leave the client state unchanged |

## Left out

- **Message encoding.**
  - JSON encoding and decoding of messages are not modelled. The server's
    `JSON.parse` of an inbound message is assumed to succeed. A message
    that fails to parse throws in the handler, and that path is not
    modelled.
  - Inbound messages arrive as the `Inbound` record. The client's parser
    is a parameter of `OnMessage`.
- **The transport.** The WebSocket connection, the transport, the
  `error` handlers and the clean-up on unmount are not modelled. A send is
  an append to the `Outbox` or the `wire` sequence.
- **Logging and alerts.** `console` logging and the client's `alert` on
  `error` messages are not modelled. Neither changes any state.
- **Rendering.** The UI rendering, styling, animations and the
  drag-and-drop sensors are not modelled. Only the choice of screen and
  the data each screen computes are modelled.
- **Concurrency.** The server's `await` on the model call is treated as
  running to completion before the next message is handled, so
  interleavings while a history is being analysed are not modelled.
- **Map and object order.**
  - Envelope order within a broadcast is left open: the source walks a
    `Map` in insertion order.
  - `Object.entries` lists integer-like keys first, and the model takes
    the entries in the order given.
- **Payload wrapping.**
  - The event names of `Event` stand for the `{ type, payload }` objects
    that `broadcast` serializes.
  - The fields of `searchRevealed` other than the term (sentiment,
    keywords, category) are carried in `Analysis`. The client reads only
    the term.
- **The language model.** The model call, the API key check and the model
  name are not modelled. The call is a function parameter that may fail.
- **Numbers.** JavaScript numbers (scores, rounds, capacities, visit
  times) are unbounded integers. Floating point is not modelled.
- **Unmodelled source files.**
  - `server/src/Player.ts` is reduced to the `Player(id, name)` value. Its
    `send` is the `Outbox`.
  - `server/dist/driven-player.js`, `test-client.js` and `gemini-test.js`
    are not part of this model.
  - `extension/src/HomePage.tsx`, the components and the hooks are not
    part of this model.
- RankingView.DragEnd: requires a non-empty list. A drag can start only on a rendered item, so the list is never empty when it runs.
- RankingView.DragEnd: when `active` or `over` is absent from the list, the model follows `indexOf`'s -1 and `splice`'s reading of a negative start. Its contract states only that the length and the items are kept, not where the item lands.
- ClientApp.Reduce: its own contract states only which messages may raise the ended flag or change the room. The effect of each message type is stated by the lemmas that follow it.
- ClientApp.SubmitHistoryRequest: its contract states the count of items sent. The content of each item is stated by `ClientApp.Submitted`.
- Gateway.Dispatch: the effect of each command is stated by the handler it calls, not repeated in Dispatch's contract.
- LegacyGateway.DispatchLegacy: likewise, the effect of createRoom, joinRoom and leaveRoom is stated by the handler it calls, not repeated in its contract.
- Gateway.CollectHistory: the random pick is any seated player, not a uniform draw.
- Handlers.HandleClose: does not state the order in which rooms are visited.

## Findings

| source | as written | input that shows it | evidently intended | confidence | as-written member | corrected member |
|---|---|---|---|---|---|---|
| server/dist/Room.js:2-7 | the constructor never sets `currentState` (nor `submittedSearchHistories` or `submittedVotes`), so `startGame`'s check `currentState === RoomState.WAITING_FOR_PLAYERS` compares `undefined` with a string | `createRoom`, then `startGame` for the new room: the sender gets `Cannot start game.`, and no later command ever moves the room out of its undefined phase | a new room starts in `WAITING_FOR_PLAYERS` with empty submission maps, so `startGame` is accepted | not executed | AsWritten.NeverStarts | Gateway.CreateThenStart |
| server/dist/index.js:90-91 | `RoomState.VOTING` is not a member of the compiled enum, so it is `undefined`; on a fresh room `undefined === undefined` lets a vote through, and `submittedVotes.set` is called on `undefined` | `createRoom`, `joinRoom`, then `submitVote` with a room id and a vote: the handler throws instead of answering `Cannot submit vote at this time.` | a voting phase of its own, reached only after a term is revealed, and votes refused in any other phase | not executed | AsWritten.FreshRoomVoteThrows | Gateway.HandleSubmitVote |
| server/dist/index.js:71 | revealing a term sets `currentState = RoomState.VOTING`, which is `undefined` | a one-player room in `IN_GAME` whose only player submits a history: the room ends with no phase | the room moves to the voting phase | not executed | AsWritten.RevealLosesPhase | Gateway.CollectHistory |
