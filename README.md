# CheckmateMate table, modelled in Dafny

A two-seat chess table shared by one Node.js server and any number of browser
clients over socket.io. The server (`app.js`) seats connections in order
(white, then black, then spectators), vacates a seat when its holder
disconnects, lets only the holder of the seat whose turn it is submit a move,
hands the move to the chess.js rules library, and broadcasts the move, the new
FEN and any game-over message. Each browser (`public/js/chessgames.js`) keeps a
local chess.js object. It uses that object to try a dragged move before
sending it, and it renders the board from it.

The model has five modules:

- `ChessOracle` (`Oracle.dfy`): the rules library as an abstract capability.
  A position is an opaque type. The library is a record of total functions:
  `turn`, `fen`, `play`, `status`, `load` and `initial`. `play` has three
  outcomes: accepted with a new position, rejected (chess.js returns `null`),
  or threw (chess.js raises). Every result below holds for any rules library
  of this shape, a scripted stub as well as chess.js.
- `Seats` (`Seats.dfy`): the server's seat table and its rules, plus runs of
  connect and disconnect events.
- `Coordinator` (`Coordinator.dfy`): the server as a class. Its fields are
  `players`, `currentPlayer`, `position` and an outbox of
  `(recipient | Everyone, message)`. Each socket.io handler is a method.
  Ghost fields record the connection ids handed out and the moves put to the
  library.
- `Board` (`Board.dfy`): the client's pure rules. They cover square naming,
  the move request, square parity, draggability, board flip and piece glyphs.
- `Mirror` (`Mirror.dfy`): the client as a class. Its local library object is
  a position together with the history that `undo` steps back through. The
  class also holds the player role and the messages sent to the server.

The client's move check runs `undo` whether or not the move was legal. This
is modelled as written. The check therefore restores the local object exactly
when the move was legal, the library threw, or the history was empty
(`ProbeRetainsNothing`). An
illegal attempt with a non-empty history takes back one real move. In the
normal message order the history is empty: every "move" broadcast is followed
by a "boardState" load, and the load clears the history (`ProbeAfterLoad`).

### Behaviour the code does not have

- The server does not freeze after a game ends; later moves are judged as before.
- The server has no reset, so nothing ever reopens the seats or restarts the position.
- A vacated seat goes only to the next new connection; no existing spectator is promoted.
- The client's "gameOver" emit reaches no server handler.

## Model

| member | source | states |
|---|---|---|
| `Seats.Assign` | app.js:29-40 | a new connection gets white exactly when white is vacant, black exactly when only black is vacant, and is a spectator exactly when both are held; the seat it gets was vacant and now holds it, the other seat is untouched, and a spectator changes nothing |
| `Seats.Vacate` | app.js:43-51 | the white holder frees only white; otherwise the black holder frees only black; any other id changes nothing; afterwards the id holds no seat; no seat ever gains a holder |
| `Seats.NotYourTurnMeansNotTheHolder` | app.js:57-63 | the move guard refuses exactly the requesters that do not hold the seat of the side to move: spectators, the holder of the other seat, and everyone when that seat is vacant |
| `Seats.NotYourTurn` | app.js:57-60 | the guard holds exactly when the requester is not the holder of the side to move's seat (stated with `Seats.NotYourTurnMeansNotTheHolder`) |
| `Seats.AtMostOneMover` | app.js:57-60 | at most one connection passes the turn guard at any time |
| `Seats.ReplayKeepsExclusive` | app.js:25-51 | after any run of connects with fresh ids and disconnects, no connection holds both seats |
| `Seats.SpectatorNeverSeated` | app.js:37-51 | a connection without a seat never gains one unless it connects again, so vacating a seat never promotes a spectator |
| `Seats.NextConnectTakesVacatedSeat` | app.js:29-51 | at a full table, the seat a player leaves goes to the next new connection and the other player keeps theirs |
| `Seats.WhitePreferredWhenBothVacant` | app.js:29-32 | with both seats vacant, the next connection takes white |
| `Seats.FullTableOnlySpectates` | app.js:37-40 | once both seats are held, every further connection is a spectator and the table stays as it is |
| `Seats.ConnectionOrder` | app.js:29-40 | from an empty table, connection 0 is told white, connection 1 black and every later one spectator; the seats hold the first two ids |
| `Coordinator.ResultTextPriority` | app.js:87-100 | each result string appears exactly when its predicate is the first to hold in the order checkmate, stalemate, insufficient material, threefold repetition, draw; checkmate names black the winner when white is to move and white otherwise; the string is empty when none holds |
| `Coordinator.ResultText` | app.js:87-100 | a non-empty message is chosen exactly when some terminal predicate holds; which one is stated by `Coordinator.ResultTextPriority` |
| `Coordinator.GameOverTextNonEmpty` | app.js:72-100 | when the library's predicates are consistent and the game is over, the game-over message is not empty |
| `Coordinator.CheckmateNamesTheMover` | app.js:90-91 | on checkmate the winner named is the side that is not to move |
| `Coordinator.RoleMessage` | app.js:31-38 | a seat is announced as "playerRole" with its colour, a spectator as "spectatorRole" |
| `Coordinator.AcceptedEmits` | app.js:66-74 | an accepted move broadcasts "move" and then "boardState" with the new FEN, both to everyone, followed by "gameOver" with the result string exactly when the new position is terminal |
| `Coordinator.Coordinator.constructor` | app.js:10-16 | the server starts at the library's initial position with both seats vacant, white to move and nothing sent |
| `Coordinator.Coordinator.Connect` | app.js:25-40 | the table becomes `Assign` of the old table; the only message is the role, sent privately to the new connection; position and turn are unchanged; seat exclusivity is kept |
| `Coordinator.Coordinator.Disconnect` | app.js:43-51 | the table becomes `Vacate` of the old table; nothing is sent; position and turn are unchanged |
| `Coordinator.Coordinator.HandleMove` | app.js:54-83 | a requester failing the turn guard gets only "It's not your turn."; the position is unchanged and nothing is put to the library. Otherwise the move goes to the library. On acceptance the position and `currentPlayer` follow the library and `AcceptedEmits` is broadcast. On rejection the requester alone gets "The move is invalid."; on an exception it alone gets "An error occurred."; in both cases the position is unchanged. The seats never change |
| `Coordinator.Coordinator.HandleGameOver` | app.js:87-103 | broadcasts "gameOver" with the result string of the current position |
| `Board.SquareName` | public/js/chessgames.js:70-72 | the name is two characters: the file letter `'a' + col` in a..h, then the rank digit `8 - row` in 1..8 |
| `Board.SquareNameInjective` | public/js/chessgames.js:71-72 | different board cells get different names |
| `Board.SquareNameOnto` | public/js/chessgames.js:71-72 | every name from a1 to h8 is the name of the cell in that file and rank |
| `Board.SquareNameCorners` | public/js/chessgames.js:71-72 | row 0 is rank 8, row 7 is rank 1 and column 0 is the a-file (a8, a1, h8, h1, e2, e4) |
| `Board.BuildMove` | public/js/chessgames.js:70-74 | the request names the source and target cells and always promotes to a queen |
| `Board.Colouring` | public/js/chessgames.js:16 | neighbouring cells alternate light and dark, diagonal neighbours match, h1 and a8 are light and a1 is dark |
| `Board.IsLight` | public/js/chessgames.js:16 | a cell is light exactly when its row and column have the same parity (further stated by `Board.Colouring`) |
| `Board.Draggable` | public/js/chessgames.js:25 | a piece is draggable exactly when the local role is a colour and it is the piece's colour (further stated by `Board.DragRules`) |
| `Board.DragRules` | public/js/chessgames.js:25 | a spectator can drag nothing; a player can drag their own colour and never the opponent's |
| `Board.Flipped` | public/js/chessgames.js:62-66 | the board is flipped exactly when the local role is black (further stated by `Board.FlipRules`) |
| `Board.FlipRules` | public/js/chessgames.js:62-66 | the board is flipped for the black player only, not for white or a spectator |
| `Board.PieceGlyph` | public/js/chessgames.js:113-119 | a glyph is one character, and it is non-empty exactly for the letters in the table; which symbol each letter gets is stated by `Board.GlyphTable` |
| `Board.GlyphTable` | public/js/chessgames.js:113-119 | exactly the twelve piece letters have a glyph; each glyph is one chess symbol; no two letters share one; k, q, r, b, n, p show the outlined king, queen, rook, bishop, knight and pawn (U+2654..U+2659) and K, Q, R, B, N, P the filled ones (U+265A..U+265F) |
| `Mirror.Played` | public/js/chessgames.js:77 | a successful move sets the new position and appends the old one to the history |
| `Mirror.Undo` | public/js/chessgames.js:88 | undo with an empty history changes nothing; otherwise it returns to the last remembered position and drops that entry |
| `Mirror.UndoAfterPlayed` | public/js/chessgames.js:77-88 | undo after a successful move restores the object exactly, history included |
| `Mirror.Probe` | public/js/chessgames.js:77-88 | the tentative move and undo leave a prefix of the old history, at most one entry shorter, so nothing tentative is retained (exact outcomes in `Mirror.ProbeRetainsNothing`) |
| `Mirror.ProbeRetainsNothing` | public/js/chessgames.js:77-88 | the check move restores the local object exactly when the move was legal, threw, or the history was empty; an illegal move with history takes back one real move |
| `Mirror.ProbeAfterLoad` | public/js/chessgames.js:132-134 | right after a "boardState" load, any check move leaves the local object as it was loaded |
| `Mirror.ResultTextsAgree` | public/js/chessgames.js:92-105 | the client's result string equals the server's for every terminal classification and side to move |
| `Mirror.MirrorResultText` | public/js/chessgames.js:92-105 | the client's selector gives the same string as the server's `Coordinator.ResultText` for every status and side to move |
| `Mirror.GameOverReport` | public/js/chessgames.js:92-110 | the client reports one "gameOver" message to the server, with the shared result string, exactly when the position is terminal |
| `Mirror.Mirror.constructor` | public/js/chessgames.js:1-6 | the page starts at the initial position with an empty history, no role and nothing sent |
| `Mirror.Mirror.OnPlayerRole` | public/js/chessgames.js:122-125 | the role is stored; the player can then drag their own pieces and not the opponent's, and the board is flipped exactly for black |
| `Mirror.Mirror.OnSpectatorRole` | public/js/chessgames.js:127-130 | the role is cleared; no piece can be dragged and the board is not flipped |
| `Mirror.Mirror.OnBoardState` | public/js/chessgames.js:132-135 | a FEN the library loads replaces the position and empties the history; a FEN it refuses changes nothing |
| `Mirror.Mirror.OnGameReset` | public/js/chessgames.js:153-155 | the local object returns to the initial position with an empty history |
| `Mirror.Mirror.OnMove` | public/js/chessgames.js:137-144 | a broadcast move the library accepts is played on the local object (into the history); a rejected one changes nothing; in both cases a terminal position is reported to the server; a move the library throws on ends the handler without effect |
| `Mirror.Mirror.HandleMove` | public/js/chessgames.js:69-90 | the local object ends as `Probe` describes; "move" is sent to the server if and only if the library accepted the move, followed by a game-over report when the tried position is terminal; a refused move sends nothing |
| `Mirror.Mirror.HandleGameOver` | public/js/chessgames.js:92-111 | sends exactly one "gameOver" message with the result string of the current position |

## Left out

- HTTP and page serving are not modelled: Express, the EJS view, static files and `server.listen` (app.js:1-23, 106-108).
- socket.io is not modelled. Events are sequential method calls, and each handler runs to completion, as on Node's single event loop. Emits are outbox entries with no delivery, loss or ordering across connections.
- The chess rules are not modelled: legality, FEN encoding, terminal detection and the library's own history for repetition. The library is the abstract `Oracle`. `ConsistentStatus` states the relations between its predicates that `GameOverTextNonEmpty` relies on.
- The client calls the terminal predicates by their old names (`in_checkmate`, `in_draw`) and also by `isGameOver`. Both spellings are read as the same predicates of one library. Which chess.js build the page loads is not part of this model.
- Mirror.ProbeRetainsNothing: `status` never throws in the model. If the loaded library lacks one of the two naming styles, then `isGameOver` (public/js/chessgames.js:81) or `handleGameOver`'s predicates (public/js/chessgames.js:95) throw after a legal tentative move and before the `undo` at public/js/chessgames.js:88. The local object then keeps the tentative move, and the model does not capture this.
- The DOM work is not modelled: building the board, drag and drop events, `alert`, CSS classes, and the game-over overlay in `handleGameOver`, the "gameOver" listener and "gameReset". Only the decision rules are kept. The "gameOver" listener (public/js/chessgames.js:146-150) does only this DOM work.
- The drop handler's case where `sourceSquare` is null is left out. The model takes cells from the rendered board, so `HandleMove` requires both cells on the board.
- Connection ids are modelled as natural numbers. `Connect` requires a fresh id, as socket.io guarantees. The JavaScript "falsy" seat test is modelled as "vacant", since socket.io ids are non-empty strings.
- The move payload is not validated. The server forwards any `move` object to the library, so a malformed request is just a `MoveRequest` that the oracle rejects or throws on.
- The server's move payload is narrowed to the shape the client sends: `from`, `to` and a promotion letter. A payload without one of these fields, or with extra fields, cannot be represented. No proof depends on that shape.
- `console.log` and `console.error` are left out.
