/**
 * The browser client's copy of the game: the seat it was told, a local rules
 * library object (position plus the history `undo` steps back through), and
 * what it sends to the server. The local copy is never authoritative: a
 * "boardState" message replaces it wholesale.
 */
module Mirror {
  import opened ChessOracle
  import opened Board
  import Coordinator

  /** The local library object: the current position and the positions before each move it made. */
  datatype Game = Game(position: Position, history: seq<Position>)

  /** `chess.move` when it succeeds: the old position is remembered for `undo`. */
  function Played(g: Game, p: Position): (r: Game)
    ensures r.position == p && |r.history| == |g.history| + 1 && r.history[..|g.history|] == g.history
      && r.history[|g.history|] == g.position
  {
    Game(p, g.history + [g.position])
  }

  /** `chess.undo`: step back one move, or do nothing when there is no history. */
  function Undo(g: Game): (r: Game)
    ensures g.history == [] ==> r == g
    ensures g.history != [] ==> r.position == g.history[|g.history| - 1] && r.history == g.history[..|g.history| - 1]
    ensures g.history != [] ==> r != g
  {
    if g.history == [] then g
    else
      var n := |g.history|;
      Game(g.history[n - 1], g.history[..n - 1])
  }

  /** `undo` takes back exactly the move just played. */
  lemma UndoAfterPlayed(g: Game, p: Position)
    ensures Undo(Played(g, p)) == g
  {
  }

  /** The library object's state after `handleMove`'s tentative move and the `undo` that follows it. */
  function Probe(o: Oracle, g: Game, move: MoveRequest): (r: Game)
    // nothing tentative is left on the history: it keeps a prefix of the old one, at most one entry shorter
    ensures |g.history| - 1 <= |r.history| <= |g.history| && r.history == g.history[..|r.history|]
  {
    match o.play(g.position, move)
    case Accepted(p) => Undo(Played(g, p))
    case Rejected => Undo(g)
    case Threw => g   // the exception leaves handleMove before its undo
  }

  /**
   * The probe keeps no tentative move. It restores the object exactly when the
   * move was legal, the library threw, or there was no history to undo; an
   * illegal probe with a non-empty history steps back one real move.
   */
  lemma ProbeRetainsNothing(o: Oracle, g: Game, move: MoveRequest)
    ensures Probe(o, g, move) == g <==> !o.play(g.position, move).Rejected? || g.history == []
    ensures o.play(g.position, move).Rejected? && g.history != [] ==> Probe(o, g, move) == Undo(g)
  {
    match o.play(g.position, move)
    case Accepted(p) => UndoAfterPlayed(g, p);
    case Rejected =>
    case Threw =>
  }

  /** Right after a "boardState" load the history is empty, so any probe leaves the object as loaded. */
  lemma ProbeAfterLoad(o: Oracle, p: Position, move: MoveRequest)
    ensures Probe(o, Game(p, []), move) == Game(p, [])
  {
    ProbeRetainsNothing(o, Game(p, []), move);
  }

  /** The client's copy of `handleGameOver`'s selector, over the same predicates. */
  function MirrorResultText(s: Status, toMove: Color): (r: string)
    ensures r == Coordinator.ResultText(s, toMove)
  {
    if s.checkmate then (if toMove == White then "Black wins by checkmate!" else "White wins by checkmate!")
    else if s.stalemate then "The game is a stalemate!"
    else if s.insufficientMaterial then "The game is a draw due to insufficient material!"
    else if s.threefoldRepetition then "The game is a draw by threefold repetition!"
    else if s.draw then "The game is a draw!"
    else ""
  }

  /** Client and server name every terminal classification with the same string. */
  lemma ResultTextsAgree(s: Status, toMove: Color)
    ensures MirrorResultText(s, toMove) == Coordinator.ResultText(s, toMove)
  {
  }

  /** What the client sends to the server. */
  datatype Outgoing = SendMove(move: MoveRequest) | SendGameOver(result: string)

  /** The client's `handleGameOver` report for position `p`, if the game is over there. */
  function GameOverReport(o: Oracle, p: Position): (r: seq<Outgoing>)
    ensures |r| <= 1 && (r != [] <==> o.status(p).gameOver)
    ensures r != [] ==> r[0] == SendGameOver(MirrorResultText(o.status(p), o.turn(p)))
  {
    if o.status(p).gameOver then [SendGameOver(MirrorResultText(o.status(p), o.turn(p)))] else []
  }

  class Mirror {
    const oracle: Oracle
    var playerRole: Option<Color>
    var game: Game
    var sent: seq<Outgoing>

    /** Page load: a new game object at the initial position, no role yet, nothing sent. */
    constructor (oracle: Oracle)
      ensures this.oracle == oracle && playerRole == None
      ensures game == Game(oracle.initial, []) && sent == []
    {
      this.oracle := oracle;
      playerRole := None;
      game := Game(oracle.initial, []);
      sent := [];
    }

    /** "playerRole": remember the seat; the player may now drag exactly their own pieces. */
    method OnPlayerRole(role: Color)
      modifies this`playerRole
      ensures playerRole == Some(role)
      ensures Draggable(playerRole, role) && !Draggable(playerRole, Opponent(role))
      ensures Flipped(playerRole) <==> role == Black
    {
      playerRole := Some(role);
    }

    /** "spectatorRole": forget any seat; nothing can be dragged and the board is not flipped. */
    method OnSpectatorRole()
      modifies this`playerRole
      ensures playerRole == None
      ensures forall c: Color :: !Draggable(playerRole, c)
      ensures !Flipped(playerRole)
    {
      playerRole := None;
    }

    /** "boardState": load the FEN, replacing position and history; a FEN the library refuses changes nothing. */
    method OnBoardState(fen: Fen)
      modifies this`game
      ensures oracle.load(fen).Some? ==> game == Game(oracle.load(fen).value, [])
      ensures oracle.load(fen).None? ==> game == old(game)
    {
      var loaded := oracle.load(fen);
      if loaded.Some? {
        game := Game(loaded.value, []);
      }
    }

    /** "gameReset": back to the initial position with no history. */
    method OnGameReset()
      modifies this`game
      ensures game == Game(oracle.initial, [])
    {
      game := Game(oracle.initial, []);
    }

    /**
     * "move": replay the broadcast move on the local object, then report a
     * finished game to the server. A move the library throws on ends the
     * handler early.
     */
    method OnMove(move: MoveRequest)
      modifies this`game, this`sent
      ensures match oracle.play(old(game).position, move)
        case Accepted(p) => game == Played(old(game), p) && sent == old(sent) + GameOverReport(oracle, p)
        case Rejected => game == old(game) && sent == old(sent) + GameOverReport(oracle, game.position)
        case Threw => game == old(game) && sent == old(sent)
    {
      var result := oracle.play(game.position, move);
      match result {
        case Accepted(p) => game := Played(game, p);
        case Rejected =>
        case Threw => return;
      }
      if oracle.status(game.position).gameOver {
        HandleGameOver();
      }
    }

    /**
     * `handleMove`: name the two squares, try the move on the local object,
     * send it to the server only if the library accepted it, then undo.
     */
    method HandleMove(source: Square, target: Square)
      requires OnBoard(source) && OnBoard(target)
      modifies this`game, this`sent
      ensures game == Probe(oracle, old(game), BuildMove(source, target))
      ensures match oracle.play(old(game).position, BuildMove(source, target))
        case Accepted(p) => sent == old(sent) + [SendMove(BuildMove(source, target))] + GameOverReport(oracle, p)
        case Rejected => sent == old(sent)
        case Threw => sent == old(sent)
      // the move is sent if and only if the library accepted it
      ensures (exists i :: |old(sent)| <= i < |sent| && sent[i] == SendMove(BuildMove(source, target)))
        <==> oracle.play(old(game).position, BuildMove(source, target)).Accepted?
    {
      var move := MoveRequest(SquareName(source), SquareName(target), 'q');
      var result := oracle.play(game.position, move);
      match result {
        case Accepted(p) =>
          game := Played(game, p);
          sent := sent + [SendMove(move)];
          if oracle.status(game.position).gameOver {
            HandleGameOver();
          }
          assert sent[|old(sent)|] == SendMove(move);
        case Rejected =>
        case Threw => return;
      }
      game := Undo(game);
    }

    /** The client's `handleGameOver`: send the result message for the current position to the server. */
    method HandleGameOver()
      requires oracle.status(game.position).gameOver
      modifies this`sent
      ensures sent == old(sent) + GameOverReport(oracle, game.position) && |sent| == |old(sent)| + 1
    {
      var s := oracle.status(game.position);
      var resultMessage := "";
      if s.checkmate {
        resultMessage := if oracle.turn(game.position) == White then "Black wins by checkmate!" else "White wins by checkmate!";
      } else if s.stalemate {
        resultMessage := "The game is a stalemate!";
      } else if s.insufficientMaterial {
        resultMessage := "The game is a draw due to insufficient material!";
      } else if s.threefoldRepetition {
        resultMessage := "The game is a draw by threefold repetition!";
      } else if s.draw {
        resultMessage := "The game is a draw!";
      }
      sent := sent + [SendGameOver(resultMessage)];
    }
  }
}
