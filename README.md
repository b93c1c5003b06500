# Multiplayer chess with live chat: a Dafny model of its core

This project models the logic of a small chess web application.

- **The server's room coordinator** (`index.js`) is a process-wide store from room id to a
  game record. A record holds an engine position and a roster of players with their colours.
  The socket handlers `create_room`, `join_room`, `make_move`, `reset_game` and `disconnect`
  read and update the store. The helper `legalMovesSummary` groups the legal moves by origin
  square.
- **The board component of the client** (`Board.jsx`):
  - `fenToBoard` turns the piece-placement field of a FEN string (section 16.1.3.1 of the
    PGN Standard) into rows of cells.
  - `coordToSquare` names a grid cell, and `groupLegal` groups the legal moves.
  - `onClickSquare` is the click handler. It gates on the turn, selects a piece and plays a
    move: offline against the bot, online by sending a request.
  - The online `game_state` and `game_end` listeners update the component's state.
- **The offline bot** (`bot.js`): `pickBotMove` prefers promotions, then captures, then any move.

The chess rules belong to the chess.js library, which is not modelled. It is an abstract
oracle: the `Chess.Engine` datatype of functions over an uninterpreted `Position`. The model
relies on two facts about it, collected in `Chess.Sound`:

- the move the engine accepts has the colour of the side to move;
- after that move, the other side is to move.

Modules:

- `Wrappers`: `Option`.
- `Chess`: the oracle.
- `MoveIndex`: grouping moves by origin, as a specification and as the loop `Group`.
- `Server`: rosters, the specifications of `make_move` and `disconnect`, and the class
  `GameStore` with one method per handler.
- `Fen`: `fenToBoard`.
- `Bot`: `pickBotMove`.
- `Board`: square names, click logic and the class `BoardView`, which holds the component's state.

What a handler sends is returned as a list of `Event`s, in the order the handler sends it:

- `socket.join` becomes `SocketJoin`;
- `io.to(room).emit` becomes `Broadcast`;
- the acknowledgement callback becomes `Reply`.

What the board reports to its parent through `onCapture` and `onGameEnd` is a list of
`Notice`s.

## Model

| member | source | states |
|---|---|---|
| MoveIndex.DestinationsNonEmpty | index.js:154-159 | an origin gets a non-empty list of destinations exactly when some legal move starts there |
| MoveIndex.DestinationsSound | index.js:154-159 | a square is among the destinations listed for an origin iff some legal move goes from that origin to it |
| MoveIndex.DestinationsSnoc | index.js:155-158 | visiting one more move appends its destination to its origin's list only, so lists keep engine order, repeats included |
| MoveIndex.Group | index.js:154-159 | the loop builds exactly the index: keys are the origins of the moves, each value is the non-empty list of destinations in engine order |
| Server.LegalMovesSummary | index.js:145-160 | the summary of a position is the grouping of the engine's legal moves: keys are their origins, values non-empty destination lists in engine order |
| Server.PlaceholderLoop | index.js:148-152 | the first loop, without its unparsable line 151, opens an empty list for every origin and pushes nothing |
| Server.PlaceholderDropsDestinations | index.js:148-159 | for any non-empty move list the placeholder map has the right origins but empty lists, so it differs from the `map2` grouping the function returns |
| Server.JoinKeepsRoster | index.js:51-52 | appending a player to a roster of fewer than two entries, with black if someone holds white and white otherwise, keeps at most two entries and distinct colours |
| Server.Colors | index.js:41 | `players.map(p => p.color)`, the `room_state` payload also sent at index.js:55 and 136: one colour per roster entry, in roster order |
| Server.HoldsWhite | index.js:51 | `players.some(p => p.color === "w")` holds exactly when some entry of the roster is white |
| Server.SideFor | index.js:51 | the colour handed out is white exactly when no entry of the roster is white, black otherwise |
| Server.FindPlayer | index.js:78 | `find` yields a player exactly when one with the id is present, and it is the first such entry |
| Server.Without | index.js:134 | the filter never lengthens the roster (its members are in `WithoutMembers`) |
| Server.WithoutMembers | index.js:134 | the filtered roster keeps exactly the entries of other connections; it is shorter exactly when the connection was present |
| Server.WithoutAppend | index.js:134 | filtering distributes over concatenation, so the entries that stay keep their order |
| Server.WithoutKeepsRoster | index.js:134 | a roster of at most two entries with distinct colours keeps both properties after the filter |
| Server.RoomOrNew | index.js:23-31 | `getOrCreateGame` yields the existing record untouched, or a record with the initial position and no players |
| Server.KeysWith | index.js:24-25 | the insertion order after `getOrCreateGame`: unchanged for a known room; a new room id is appended last |
| Server.PlainState | index.js:57-61 | the `game_state` of `join_room` and of `reset_game` (index.js:123-127): the position's fen, turn and grouped legal moves, with no move status; its keys are the origins of the legal moves |
| Server.MoveState | index.js:95-104 | the `state` object after an accepted move: the new position's fen, turn and legal moves, the move as `lastMove`, and the engine's check, game-over, checkmate and draw flags |
| Server.PromotionOrQueen | index.js:89 | `promotion \|\| "q"`: never empty; a truthy promotion is passed through, anything else becomes a queen |
| Server.Adjudicate | index.js:71-93 | a rejection carries one of the four reasons; an accepted move names a room that exists and a player of it whose colour is the side to move, and is what the engine returned for `{from, to, promotion \|\| "q"}` |
| Server.RejectionOrder | index.js:71-93 | each of "No such room", "You are not in this room", "Not your turn" and "Illegal move" is the verdict exactly when its check fails and all earlier checks passed, the engine being asked with `promotion \|\| "q"` |
| Server.AppliedIsByCallerOnTurn | index.js:78-93 | an accepted move came from a player of the room whose colour is the side to move; the engine was asked with `promotion \|\| "q"`, the move has that colour, and afterwards the other side is to move |
| Server.TurnsAlternate | index.js:83-89 | two accepted moves in a row in one room are by opposite colours |
| Server.EndEvents | index.js:109-115 | at most one `game_end`, sent exactly when the position is checkmate or drawn; on checkmate it names the mover as winner |
| Server.MoveEvents | index.js:106-117 | the sends of an accepted move: the state broadcast first, then the optional `game_end`, then the ack when a callback is given; one to three events |
| Server.MoveEventsShape | index.js:95-117 | after an accepted move the sends are: one `game_state` first; on checkmate exactly one `game_end` naming the side that was to move; else one draw result if drawn; the ack last |
| Server.Disconnected | index.js:130-142 | after a disconnect, every remaining room is listed before and has a non-empty roster without the connection |
| Server.SurvivingKeys | index.js:132-141 | the rooms the disconnect loop keeps, in store order; never more than it visits |
| Server.LeaveEvents | index.js:132-141 | the `room_state` broadcasts of the disconnect loop, in store order; at most one per room visited |
| Server.SurvivingKeysMembers | index.js:132-141 | the rooms kept by the disconnect loop are exactly the visited rooms whose filtered roster is non-empty |
| Server.SurvivingKeysDistinct | index.js:132-141 | the rooms kept are distinct |
| Server.LeaveEventsExactly | index.js:133-137 | a room gets a `room_state` from a disconnect exactly when it held an entry of the connection, and the broadcast carries the colours that remain |
| Server.DisconnectKeepsValid | index.js:130-142 | after a disconnect the kept ids are distinct, are exactly the keys of the new store, and every roster is still well formed |
| Server.StoreOkUpdate | index.js:38 | replacing the record of a listed room by one with a well-formed roster keeps the store invariant (each room listed once in insertion order, every roster well formed) |
| Server.StoreOkAdd | index.js:24-29 | adding an unknown room with an empty roster at the end of the insertion order keeps the store invariant |
| Server.GameStore.constructor | index.js:21 | the store starts empty |
| Server.GameStore.GetOrCreateGame | index.js:23-31 | the room is in the store afterwards; an existing record is returned unchanged; a new one has the initial position and an empty roster and goes last in insertion order; nothing else changes |
| Server.GameStore.CreateRoom | index.js:35-42 | the roster becomes exactly the caller as white and a previous position under that id is kept; it joins the socket, acks white, then broadcasts `[w]` |
| Server.GameStore.JoinRoom | index.js:45-62 | a room of two or more players (created if unknown) gets "Room full" with the store unchanged and nothing else sent; otherwise exactly one entry is appended with black iff someone holds white, followed by join, ack, roster broadcast and state broadcast |
| Server.GameStore.MakeMove | index.js:70-118 | a rejection leaves the store unchanged and sends only its reason, and only if a callback was given; an accepted move replaces only that room's position and sends the events described in `MoveEventsShape` |
| Server.GameStore.Admit | index.js:51-61 | the caller is appended with black iff someone holds white, only that room's roster changes, and join, ack, roster broadcast and state broadcast are sent in that order |
| Server.GameStore.Accept | index.js:95-117 | the room's position is replaced by the new one and nothing else changes; the events are those of `MoveEventsShape` |
| Server.GameStore.ResetGame | index.js:120-128 | the room (created empty if unknown) gets the initial position with its roster unchanged, and the initial state is broadcast |
| Server.GameStore.Disconnect | index.js:130-142 | the connection's entries leave every roster, emptied rooms are deleted, the others keep their order and insertion order, and one roster broadcast per shrunk room is sent in store order |
| Server.GameStore.Sweep | index.js:132-141 | the loop over the rooms produces the records, the insertion order and the broadcasts of the specification functions |
| Fen.Split | Board.jsx:13 | `split` yields at least one piece and no piece holds the separator |
| Fen.JoinSplit | Board.jsx:13 | splitting loses nothing: joining the pieces with the separator gives the string back |
| Fen.SplitJoin | Board.jsx:13 | splitting a join of separator-free pieces gives the pieces back |
| Fen.Ranks | Board.jsx:13 | `fen.split(" ")[0].split("/")`: at least one rank, and no rank holds a `/` |
| Fen.IsDigit | Board.jsx:17 | `/\d/.test(ch)` on one character: exactly the ten ASCII digits |
| Fen.CellsOf | Board.jsx:16-23 | a digit stands for empty cells only, any other character for one cell holding itself |
| Fen.Expand | Board.jsx:16-23 | every non-empty cell of an expanded rank holds a character of the rank that is not a digit |
| Fen.ExpandAppend | Board.jsx:16-23 | expanding a rank is character by character: expanding a concatenation concatenates the expansions |
| Fen.ExpandWidth | Board.jsx:16-23 | a rank expands to as many cells as it covers squares, each digit counting its value |
| Fen.PushEmpty | Board.jsx:18-19 | the loop appends exactly `n` empty cells |
| Fen.ExpandRank | Board.jsx:15-24 | the inner loop pushes d empty cells for a digit d and the character itself otherwise, in order |
| Fen.FenToBoard | Board.jsx:12-26 | one row per `/`-separated rank of the first space-separated field, each the expansion of its rank |
| Fen.RowsOfEight | Board.jsx:16-23 | when every rank covers eight squares, every row has eight cells |
| Fen.EightRanks | Board.jsx:13 | eight separator-free ranks joined by `/` and followed by a space and a tail are split back into those eight ranks |
| Fen.StartBoardIsEightByEight | Board.jsx:12-26 | the standard starting FEN gives eight rows of eight cells |
| Board.CoordToSquare | Board.jsx:79-83 | a cell with row and column in 0..7 gets a two-character square name |
| Board.SquareToCoord | Board.jsx:79-83 | the inverse: a string reads back as a cell exactly when it is a square name |
| Board.CoordRoundTrip | Board.jsx:79-83 | naming a cell and reading the name back gives the cell: file `"abcdefgh"[c]` and rank `8 - r` |
| Board.SquareRoundTrip | Board.jsx:79-83 | every square name is the name of the cell it reads back as |
| Board.CoordInjective | Board.jsx:79-83 | distinct cells get distinct names |
| Board.CoordOnto | Board.jsx:79-83 | the names produced are exactly the 64 square names, and row 0 is rank 8 |
| Board.GroupLegal | Board.jsx:69-77 | the same grouping as the server's summary: keys are the origins, values non-empty destination lists in engine order |
| Board.IsMyTurn | Board.jsx:88 | offline every click passes the gate; online a click passes exactly when the side to move is `myColor`, or white when no colour is set |
| Board.ClientGateMatchesServer | Board.jsx:88 | for a player of the room whose client shows the room's position, the online gate lets a click through exactly when the server would not answer "Not your turn" |
| Board.ClickOn | Board.jsx:92-150 | a click that selects picks the clicked square only if it has legal moves |
| Board.ClicksAttemptListedMoves | Board.jsx:92-94 | on the engine's grouped moves, a click attempts a move iff a piece is selected and the engine lists a move from it to the clicked square |
| Board.TwoClicksPlayAListedMove | Board.jsx:92-94 | clicking an origin with a listed destination selects it, and clicking that destination next attempts the move |
| Board.OfflineEnd | Board.jsx:105-113 | at most one result, reported exactly at game over; it is a win exactly on checkmate, and the winner is the mover |
| Board.ClientOutcome | Board.jsx:46-48 | a `game_state` makes the client report a result exactly when it carries a status with game over; a win exactly on checkmate, and never for the side to move |
| Board.StateNotices | Board.jsx:45-49 | the reports of one `game_state`: at most two; a capture is reported exactly when the broadcast's last move captured; a result, when there is one, is reported last |
| Board.PayloadNotices | Board.jsx:51-53 | the reports of one room broadcast: a `game_state` gives those of `onState`, a `game_end` is passed on unchanged as one result, and a `room_state` gives none, the board having no listener for it; a capture is only ever reported from a `game_state` |
| Board.ClientAgreesWithServer | Board.jsx:46-49 | after an accepted move the winner the client infers on checkmate (the side not to move) is the server's winner, the mover; given that game over means checkmate or draw, the client reports a result exactly when the server sends one, and the same one |
| Board.OnlineEndReportedTwice | Board.jsx:45-51 | for a checkmating online move the client reports the result twice: once from `game_state`, once from `game_end` |
| Board.OfflineWinnerIsMover | Board.jsx:104-112 | an offline checkmate names the side that was to move when the click was made |
| Board.FirstBoardIsEightByEight | Board.jsx:29 | the board first rendered, from the engine's FEN of its initial position, has eight rows of eight cells when that is the standard starting FEN |
| Board.BoardView.constructor | Board.jsx:29-67 | the initial state is the start position, with no selection and nothing reported; offline the turn and legal moves are the engine's, online white with no legal moves |
| Board.BoardView.Refresh | Board.jsx:99-101 | the shown fen, turn and legal moves become those of the held position; nothing else changes |
| Board.BoardView.OnClickSquare | Board.jsx:85-151 | an off-turn click changes nothing, where offline always has the turn and online the turn belongs to `myColor` or white; a click on a listed destination of the selection plays `{from, to, promotion: "q"}`, offline on the held position (an illegal move only clears the selection; a legal one reports a capture, refreshes, then reports the result and schedules no bot, or schedules the bot), online by sending it; any other click selects the square iff it has legal moves |
| Board.BoardView.PlayOffline | Board.jsx:95-134 | an illegal move only clears the selection; a legal one is played on the held position, reports a capture, refreshes, then reports the mover's win on checkmate or a draw at game over with no bot scheduled, or schedules one bot move |
| Board.BoardView.OnBotTimer | Board.jsx:117-134 | the scheduled bot move plays the pick of `pickBotMove` on the held position, reports a capture, refreshes, and reports checkmate as the mover's win or otherwise a draw when the game is over |
| Board.BoardView.OnState | Board.jsx:40-50 | the shown fen, turn and legal moves become the broadcast's and the position is reloaded; a capture is reported; at game over the side not to move is reported as the winner on checkmate, otherwise a draw |
| Board.BoardView.OnEnd | Board.jsx:51 | the server's result is passed on unchanged |
| Bot.RandomIndex | bot.js:8 | `floor(r * n)` for r in [0, 1) is an index in [0, n) |
| Bot.RandomIndexOnto | bot.js:8 | every index in [0, n) is drawn for some r in [0, 1) |
| Bot.Promotions | bot.js:7 | the filter keeps exactly the moves with a (truthy) promotion |
| Chess.Truthy | bot.js:7 | JavaScript truthiness of an optional string, as `m.promotion` here and `promotion \|\| "q"` at index.js:89 test it: absent and empty are falsy |
| Bot.Captures | bot.js:11 | the filter keeps exactly the capturing moves |
| Bot.Candidates | bot.js:7-15 | the preferred group is the promotions if there are any, else the captures if there are any, else all legal moves; so it is drawn from the legal moves, is empty only when there are none, holds only promotions when any move promotes, and otherwise only captures when any move captures |
| Bot.PickBotMove | bot.js:2-16 | no move iff none is legal; the pick is a legal move; a promotion if any legal move promotes; else a capture if any legal move captures |
| Bot.BotCanPickAnyCandidate | bot.js:7-15 | every move of the preferred group is the pick for some value of the random source |
| Bot.BotPicksACandidate | bot.js:7-15 | the pick always comes from the preferred group |

## Left out

- The transport and server setup: socket.io, Express, CORS and `listen`. A connection is an id; what is sent is an event list; who receives a room broadcast is not modelled.
- The chat relay (`chat_message`) and its timestamp. It touches no state.
- The chess rules. The engine is an oracle, and only the two facts of `Chess.Sound` are assumed about it.
  - The engine's failure mode is not modelled: `move` can return `null` or throw on an illegal move. An illegal move is modelled as `None`.
  - `Board.ClientAgreesWithServer` takes "game over means checkmate or draw" as a precondition rather than an engine fact.
- Randomness and timers become parameters and counters:
  - The room id drawn with `Math.random` in `create_room` is a parameter of `CreateRoom`.
  - The bot's `Math.random()` is a parameter `r` in [0, 1).
  - Bot.RandomIndex: `Math.floor(Math.random() * n)` is computed on exact reals, not on floating-point numbers. Rounding of the product can move a pick to a neighbouring index, but for move lists as short as a position has it stays in [0, n), so the bounds and the preference stated for `PickBotMove` are unaffected; the exact draw `r` gives is not modelled.
  - The 350 ms `setTimeout` is a count of pending bot moves, run by `OnBotTimer`.
- Line 151 of index.js, `map[m.from].append if exists;`, is not valid JavaScript, so index.js as written does not parse and the server cannot start. The model describes index.js with that line taken out. The first loop of `legalMovesSummary` then only fills a map that is never used (`Server.PlaceholderLoop`), and the returned `map2` is modelled. See "## Findings".
- Game records are values inside the store's map, not shared objects. In the source each record is reached only through its key, so no aliasing is lost. The insertion order of the JavaScript `Map`, which `disconnect` visits, is the field `keys`.
- Server.GameStore.Sweep: the insertion order is written once, after the loop, instead of key by key inside it. No other handler runs during the loop, so nothing can observe the difference.
- The acknowledgement callback of `create_room` and `join_room` is taken to be present. For `make_move` its absence is modelled (`cb && cb(...)`).
- Server.GameStore.JoinRoom, Server.GameStore.MakeMove and Server.GameStore.ResetGame take the room id as given. The `join_room`, `make_move` and `reset_game` handlers destructure it from the request payload, and a missing id, which would be `undefined` and then be stored or looked up as a key like any other, is not modelled.
- The client's handling of the server's reply to a sent move is not modelled: `setSelected(null)` on success, a transient error flash otherwise. An online click only records the request it sends.
- The React rendering: the board drawing, piece symbols, rotation for black, highlights and the flash message. So are the lobby, chat and socket set-up components, and the parent's mapping of results to messages.
- `onCapture` and `onGameEnd` are taken to be supplied. Each call is one `Notice`.
- Board.BoardView.OnBotTimer: when the engine refuses the bot's pick and the position is checkmate, the source fails on `mv.color`. That uncaught failure is modelled as the handler reporting nothing.

## Findings

| source | as written | input that shows it | evidently intended | confidence | as-written member | corrected member |
|---|---|---|---|---|---|---|
| index.js:148-152 | line 151 `map[m.from].append if exists;` is a syntax error, so the file does not parse; without that line the first loop gives every origin an empty list | any position with a legal move, e.g. the single move e2-e4: the placeholder map is `{e2: []}` instead of `{e2: [e4]}` | the legal moves grouped by origin with their destinations, as the `map2` loop at index.js:154-159 computes and returns | not executed | Server.PlaceholderLoop, Server.PlaceholderDropsDestinations | MoveIndex.Group, Server.LegalMovesSummary |
