/**
 * The rules engine (the chess.js library) as an abstract oracle. Nothing here re-derives the
 * rules of chess: a position is an uninterpreted value and every question about it is
 * answered by a field of an `Engine` value. The only facts the coordinator relies on are
 * collected in `Sound`.
 */
module Chess {
  import opened Wrappers

  /** A side: chess.js writes them "w" and "b". */
  datatype Color = White | Black

  function Opponent(c: Color): (o: Color)
    ensures o != c
  {
    if c == White then Black else White
  }

  /** An algebraic square name such as "e4". */
  type Square = string

  /**
   * A move as the engine reports it (`moves({verbose: true})`, the result of `move`).
   * `capture` stands for "the flags string contains 'c'".
   */
  datatype Move = Move(from: Square, to: Square, color: Color, promotion: Option<string>, capture: bool)

  /** The argument handed to the engine's `move`: origin, destination and an optional piece letter. */
  datatype MoveInput = MoveInput(from: Square, to: Square, promotion: Option<string>)

  /** JavaScript truthiness of an optional string: `undefined`, `null` and "" are falsy. */
  function Truthy(s: Option<string>): (t: bool)
    ensures t ==> s.Some?
    ensures s == Some("") ==> !t
  {
    s.Some? && s.value != ""
  }

  /** A board state of the engine; its contents are the engine's business. */
  type Position(!new)

  datatype Engine = Engine(
    initial: Position,                                  // new Chess()
    fen: Position -> string,                            // fen()
    turn: Position -> Color,                            // turn()
    legalMoves: Position -> seq<Move>,                  // moves({verbose: true})
    tryMove: (Position, MoveInput) -> Option<(Move, Position)>, // move(): null when illegal
    load: string -> Position,                           // load(fen)
    inCheck: Position -> bool,
    checkmate: Position -> bool,
    draw: Position -> bool,
    gameOver: Position -> bool)

  /** A move the engine accepts is made by the side to move, and afterwards the other side is to move. */
  ghost predicate Sound(e: Engine) {
    forall p, req {:trigger e.tryMove(p, req)} :: e.tryMove(p, req).Some? ==>
      && e.tryMove(p, req).value.0.color == e.turn(p)
      && e.turn(e.tryMove(p, req).value.1) == Opponent(e.turn(p))
  }
}
