/**
 * The server side of the table: one authoritative position, the seat table,
 * and the connection, disconnect and move handlers. Each socket.io event is a
 * method call that runs to completion; what the handlers emit is appended to
 * an outbox, addressed to one connection or to everyone.
 */
module Coordinator {
  import opened ChessOracle
  import opened Seats

  datatype Recipient = To(id: ConnId) | Everyone

  /** The server's socket.io messages, by event name. */
  datatype Message =
    | PlayerRole(color: Color)       // "playerRole"
    | SpectatorRole                  // "spectatorRole"
    | InvalidMove(reason: string)    // "invalidMove"
    | MoveMade(move: MoveRequest)    // "move"
    | BoardState(fen: Fen)           // "boardState"
    | GameOver(result: string)       // "gameOver"

  datatype Emit = Emit(to: Recipient, msg: Message)

  const NotYourTurnText := "It's not your turn."
  const InvalidMoveText := "The move is invalid."
  const ErrorText := "An error occurred."

  const BlackWinsText := "Black wins by checkmate!"
  const WhiteWinsText := "White wins by checkmate!"
  const StalemateText := "The game is a stalemate!"
  const MaterialText := "The game is a draw due to insufficient material!"
  const RepetitionText := "The game is a draw by threefold repetition!"
  const DrawText := "The game is a draw!"

  /** The server's `handleGameOver` message: first matching predicate wins. */
  function ResultText(s: Status, toMove: Color): (r: string)
    // a message is produced exactly when some terminal predicate holds
    ensures r != "" <==> s.checkmate || s.stalemate || s.insufficientMaterial || s.threefoldRepetition || s.draw
  {
    if s.checkmate then (if toMove == White then BlackWinsText else WhiteWinsText)
    else if s.stalemate then StalemateText
    else if s.insufficientMaterial then MaterialText
    else if s.threefoldRepetition then RepetitionText
    else if s.draw then DrawText
    else ""
  }

  /** Each result string is produced exactly when its predicate is the first one that holds. */
  lemma ResultTextPriority(s: Status, toMove: Color)
    ensures ResultText(s, toMove) == BlackWinsText <==> s.checkmate && toMove == White
    ensures ResultText(s, toMove) == WhiteWinsText <==> s.checkmate && toMove == Black
    ensures ResultText(s, toMove) == StalemateText <==> !s.checkmate && s.stalemate
    ensures ResultText(s, toMove) == MaterialText
      <==> !s.checkmate && !s.stalemate && s.insufficientMaterial
    ensures ResultText(s, toMove) == RepetitionText
      <==> !s.checkmate && !s.stalemate && !s.insufficientMaterial && s.threefoldRepetition
    ensures ResultText(s, toMove) == DrawText
      <==> !s.checkmate && !s.stalemate && !s.insufficientMaterial && !s.threefoldRepetition && s.draw
    ensures ResultText(s, toMove) == ""
      <==> !s.checkmate && !s.stalemate && !s.insufficientMaterial && !s.threefoldRepetition && !s.draw
  {
  }

  /** With the library's predicates consistent, a game that is over always gets a non-empty message. */
  lemma GameOverTextNonEmpty(s: Status, toMove: Color)
    requires ConsistentStatus(s) && s.gameOver
    ensures ResultText(s, toMove) != ""
  {
  }

  /** The winner named on checkmate is the side that is not to move. */
  lemma CheckmateNamesTheMover(s: Status, toMove: Color)
    requires s.checkmate
    ensures ResultText(s, toMove) == (if Opponent(toMove) == White then WhiteWinsText else BlackWinsText)
  {
  }

  function RoleMessage(role: Role): (m: Message)
    ensures role.Seat? <==> m.PlayerRole?
    ensures role.Seat? ==> m.color == role.color
    ensures role == Spectator ==> m == SpectatorRole
  {
    match role
    case Seat(c) => PlayerRole(c)
    case Spectator => SpectatorRole
  }

  /** What the move handler emits after the oracle accepted a move to `p`. */
  function AcceptedEmits(o: Oracle, move: MoveRequest, p: Position): (r: seq<Emit>)
    ensures |r| >= 2 && r[0] == Emit(Everyone, MoveMade(move)) && r[1] == Emit(Everyone, BoardState(o.fen(p)))
    ensures forall i :: 0 <= i < |r| ==> r[i].to == Everyone
    ensures |r| == if o.status(p).gameOver then 3 else 2
    ensures |r| == 3 ==> r[2] == Emit(Everyone, GameOver(ResultText(o.status(p), o.turn(p))))
  {
    [Emit(Everyone, MoveMade(move)), Emit(Everyone, BoardState(o.fen(p)))]
    + if o.status(p).gameOver then [Emit(Everyone, GameOver(ResultText(o.status(p), o.turn(p))))] else []
  }

  class Coordinator {
    const oracle: Oracle
    var players: Table
    var currentPlayer: Color
    var position: Position
    var outbox: seq<Emit>
    /** Every connection id the transport has handed out so far. */
    ghost var seen: set<ConnId>
    /** Every (position, move) the handlers have put to the oracle. */
    ghost var submitted: seq<(Position, MoveRequest)>

    ghost predicate Valid()
      reads this
    {
      Exclusive(players) && SeatedAmong(players, seen)
    }

    /** Server start: a new game, both seats vacant, white to move, nothing sent. */
    constructor (oracle: Oracle)
      ensures Valid()
      ensures this.oracle == oracle && players == Empty && currentPlayer == White
      ensures position == oracle.initial && outbox == [] && seen == {} && submitted == []
    {
      this.oracle := oracle;
      players := Table(None, None);
      currentPlayer := White;
      position := oracle.initial;
      outbox := [];
      seen := {};
      submitted := [];
    }

    /** The "connection" handler: seat the new connection if a seat is free, and tell it its role. */
    method Connect(id: ConnId)
      requires Valid() && id !in seen
      modifies this
      ensures Valid() && seen == old(seen) + {id}
      ensures players == Assign(old(players), id).0
      ensures outbox == old(outbox) + [Emit(To(id), RoleMessage(Assign(old(players), id).1))]
      ensures position == old(position) && currentPlayer == old(currentPlayer) && submitted == old(submitted)
    {
      seen := seen + {id};
      if players.white == None {
        players := players.(white := Some(id));
        outbox := outbox + [Emit(To(id), PlayerRole(White))];
      } else if players.black == None {
        players := players.(black := Some(id));
        outbox := outbox + [Emit(To(id), PlayerRole(Black))];
      } else {
        outbox := outbox + [Emit(To(id), SpectatorRole)];
      }
    }

    /** The "disconnect" handler: free the seat the connection held, silently. */
    method Disconnect(id: ConnId)
      requires Valid()
      modifies this
      ensures Valid() && seen == old(seen)
      ensures players == Vacate(old(players), id)
      ensures !Holds(players, id)
      ensures outbox == old(outbox)
      ensures position == old(position) && currentPlayer == old(currentPlayer) && submitted == old(submitted)
    {
      if players.white == Some(id) {
        players := players.(white := None);
      } else if players.black == Some(id) {
        players := players.(black := None);
      }
    }

    /**
     * The "move" handler: refuse a requester that does not hold the seat of
     * the side to move; otherwise put the move to the oracle, and either
     * broadcast the move, the new FEN and any game-over message, or tell the
     * requester alone why the move was refused.
     */
    method HandleMove(id: ConnId, move: MoveRequest)
      requires Valid()
      modifies this
      ensures Valid() && players == old(players) && seen == old(seen)
      ensures NotYourTurn(old(players), oracle.turn(old(position)), id) ==>
        && position == old(position) && currentPlayer == old(currentPlayer)
        && submitted == old(submitted)
        && outbox == old(outbox) + [Emit(To(id), InvalidMove(NotYourTurnText))]
      ensures !NotYourTurn(old(players), oracle.turn(old(position)), id) ==>
        && submitted == old(submitted) + [(old(position), move)]
        && match oracle.play(old(position), move)
           case Accepted(p) =>
             && position == p && currentPlayer == oracle.turn(p)
             && outbox == old(outbox) + AcceptedEmits(oracle, move, p)
           case Rejected =>
             && position == old(position) && currentPlayer == old(currentPlayer)
             && outbox == old(outbox) + [Emit(To(id), InvalidMove(InvalidMoveText))]
           case Threw =>
             && position == old(position) && currentPlayer == old(currentPlayer)
             && outbox == old(outbox) + [Emit(To(id), InvalidMove(ErrorText))]
    {
      var turn := oracle.turn(position);
      if (turn == White && players.white != Some(id)) || (turn == Black && players.black != Some(id)) {
        outbox := outbox + [Emit(To(id), InvalidMove(NotYourTurnText))];
        return;
      }
      submitted := submitted + [(position, move)];
      var result := oracle.play(position, move);
      match result {
        case Accepted(p) =>
          position := p;
          currentPlayer := oracle.turn(position);
          outbox := outbox + [Emit(Everyone, MoveMade(move))];
          outbox := outbox + [Emit(Everyone, BoardState(oracle.fen(position)))];
          if oracle.status(position).gameOver {
            HandleGameOver();
          }
        case Rejected =>
          outbox := outbox + [Emit(To(id), InvalidMove(InvalidMoveText))];
        case Threw =>
          outbox := outbox + [Emit(To(id), InvalidMove(ErrorText))];
      }
    }

    /** `handleGameOver`: broadcast the result message for the current position. */
    method HandleGameOver()
      modifies this`outbox
      ensures outbox == old(outbox)
        + [Emit(Everyone, GameOver(ResultText(oracle.status(position), oracle.turn(position))))]
    {
      var s := oracle.status(position);
      var resultMessage := "";
      if s.checkmate {
        resultMessage := if oracle.turn(position) == White then BlackWinsText else WhiteWinsText;
      } else if s.stalemate {
        resultMessage := StalemateText;
      } else if s.insufficientMaterial {
        resultMessage := MaterialText;
      } else if s.threefoldRepetition {
        resultMessage := RepetitionText;
      } else if s.draw {
        resultMessage := DrawText;
      }
      outbox := outbox + [Emit(Everyone, GameOver(resultMessage))];
    }
  }
}
