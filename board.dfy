/**
 * The board component of the client: square naming, the grouping of legal moves, and the
 * click handler that gates on the turn, selects a piece and plays a move (offline against
 * the bot, online by sending a request), plus the handlers of the server's `game_state` and
 * `game_end` broadcasts. What the component reports to its parent through `onCapture` and
 * `onGameEnd` is kept as a list of notices.
 */
module Board {
  import opened Wrappers
  import opened Chess
  import opened MoveIndex
  import opened Server
  import opened Bot
  import Fen

  // ---------------------------------------------------------------------------
  // Square names

  const Files: string := "abcdefgh"

  /** A name `coordToSquare` can produce: a file letter a-h followed by a rank digit 1-8. */
  predicate IsSquareName(sq: string) {
    |sq| == 2 && 'a' <= sq[0] <= 'h' && '1' <= sq[1] <= '8'
  }

  /** `coordToSquare(r, c)`: column `c` is the file `"abcdefgh"[c]`, row `r` the rank `8 - r`. */
  function CoordToSquare(r: int, c: int): (sq: Square)
    requires 0 <= r < 8 && 0 <= c < 8
    ensures IsSquareName(sq)
  {
    [Files[c], ('0' as int + (8 - r)) as char]
  }

  /** The grid cell a square name is drawn in, if it names one. */
  function SquareToCoord(sq: string): (rc: Option<(int, int)>)
    ensures rc.Some? <==> IsSquareName(sq)
    ensures rc.Some? ==> 0 <= rc.value.0 < 8 && 0 <= rc.value.1 < 8
  {
    if IsSquareName(sq) then Some(('8' as int - sq[1] as int, sq[0] as int - 'a' as int)) else None
  }

  lemma FilesInOrder(c: int)
    requires 0 <= c < 8
    ensures Files[c] as int == 'a' as int + c
  {
  }

  /** Naming a cell and reading the name back gives the cell. */
  lemma CoordRoundTrip(r: int, c: int)
    requires 0 <= r < 8 && 0 <= c < 8
    ensures SquareToCoord(CoordToSquare(r, c)) == Some((r, c))
  {
    FilesInOrder(c);
  }

  /** Every square name is the name of the cell it reads back as. */
  lemma SquareRoundTrip(sq: string)
    requires IsSquareName(sq)
    ensures CoordToSquare(SquareToCoord(sq).value.0, SquareToCoord(sq).value.1) == sq
  {
    var (r, c) := SquareToCoord(sq).value;
    FilesInOrder(c);
    assert CoordToSquare(r, c)[0] == sq[0] && CoordToSquare(r, c)[1] == sq[1];
  }

  /** Distinct cells get distinct names. */
  lemma CoordInjective(r1: int, c1: int, r2: int, c2: int)
    requires 0 <= r1 < 8 && 0 <= c1 < 8 && 0 <= r2 < 8 && 0 <= c2 < 8
    requires CoordToSquare(r1, c1) == CoordToSquare(r2, c2)
    ensures r1 == r2 && c1 == c2
  {
    CoordRoundTrip(r1, c1);
    CoordRoundTrip(r2, c2);
  }

  /** The map from cells is onto the 64 square names, and the top row is rank 8. */
  lemma CoordOnto(sq: string)
    ensures IsSquareName(sq) <==> exists r, c :: 0 <= r < 8 && 0 <= c < 8 && CoordToSquare(r, c) == sq
    ensures IsSquareName(sq) && sq[1] == '8' ==> SquareToCoord(sq).value.0 == 0
  {
    if IsSquareName(sq) {
      SquareRoundTrip(sq);
      var (r, c) := SquareToCoord(sq).value;
      assert CoordToSquare(r, c) == sq;
    }
  }

  // ---------------------------------------------------------------------------
  // Legal moves

  /** `groupLegal(chess)`: the same grouping by origin square as the server's summary. */
  method GroupLegal(e: Engine, p: Position) returns (index: Index)
    ensures index.Keys == Origins(e.legalMoves(p))
    ensures forall f :: f in index ==> index[f] == Destinations(e.legalMoves(p), f) && index[f] != []
    ensures index == IndexOf(e.legalMoves(p))
  {
    index := Group(e.legalMoves(p));
  }

  // ---------------------------------------------------------------------------
  // Clicks

  datatype Mode = Offline | Online

  /** What the component reports to its parent: `onCapture()` or `onGameEnd(result)`. */
  datatype Notice = Captured | Ended(outcome: Outcome)

  /** `isMyTurn`: offline every click counts; online only when `myColor || "w"` is to move. */
  function IsMyTurn(mode: Mode, myColor: Option<Color>, side: Color): (mine: bool)
    ensures mode == Offline ==> mine
    ensures mode == Online && myColor.Some? ==> (mine <==> side == myColor.value)
    ensures mode == Online && myColor.None? ==> (mine <==> side == White)
  {
    mode == Offline || (mode == Online && (if myColor.Some? then myColor.value else White) == side)
  }

  /** What a click on `sq` does: attempt the selected piece's move there, or (re)select. */
  datatype Click = Attempt(from: Square) | Select(square: Option<Square>)

  function ClickOn(selected: Option<Square>, legal: Index, sq: Square): (k: Click)
    ensures k.Select? && k.square.Some? ==> k.square.value == sq && sq in legal && legal[sq] != []
  {
    if selected.Some? && selected.value in legal && sq in legal[selected.value] then Attempt(selected.value)
    else Select(if sq in legal && |legal[sq]| > 0 then Some(sq) else None)
  }

  /**
   * Against the moves the engine lists, a click attempts a move only if the engine listed it,
   * and every listed move is attempted by selecting its origin and then clicking its
   * destination.
   */
  lemma ClicksAttemptListedMoves(moves: seq<Move>, selected: Option<Square>, sq: Square)
    ensures ClickOn(selected, IndexOf(moves), sq).Attempt? <==>
      selected.Some? && exists m :: m in moves && m.from == selected.value && m.to == sq
  {
    if selected.Some? {
      var f := selected.value;
      DestinationsSound(moves, f, sq);
      if exists m :: m in moves && m.from == f && m.to == sq {
        var m :| m in moves && m.from == f && m.to == sq;
        assert f in Origins(moves);
      }
    }
  }

  /** Selecting an origin with a listed move and clicking its destination attempts that move. */
  lemma TwoClicksPlayAListedMove(selected: Option<Square>, legal: Index, from: Square, to: Square)
    requires from in legal && to in legal[from]
    requires ClickOn(selected, legal, from).Select?
    ensures ClickOn(selected, legal, from) == Select(Some(from))
    ensures ClickOn(Some(from), legal, to) == Attempt(from)
  {
  }

  /**
   * The online click gate and the server's "Not your turn" check agree: for a player of the
   * room whose client shows the room's position, a click is let through exactly when the
   * server would not reject the request as out of turn.
   */
  lemma ClientGateMatchesServer(e: Engine, games: map<RoomId, Game>, roomId: RoomId, conn: ConnId, req: MoveRequest)
    requires roomId in games && FindPlayer(games[roomId].players, conn).Some?
    ensures var color := FindPlayer(games[roomId].players, conn).value.color;
      Adjudicate(e, games, roomId, conn, req) == Rejected("Not your turn") <==>
      !IsMyTurn(Online, Some(color), e.turn(games[roomId].chess))
  {
    RejectionOrder(e, games, roomId, conn, req);
  }

  /** The result an offline move reports: the mover on checkmate, otherwise a draw, if the game is over. */
  function OfflineEnd(e: Engine, m: Move, after: Position): (r: seq<Notice>)
    ensures |r| <= 1
    ensures r != [] <==> e.gameOver(after)
    ensures forall n :: n in r ==> n.Ended? && (n.outcome.Won? <==> e.checkmate(after))
    ensures forall n :: n in r && n.outcome.Won? ==> n.outcome.winner == m.color
  {
    if e.gameOver(after) then [Ended(if e.checkmate(after) then Won(m.color) else Drawn)] else []
  }

  /** The result a `game_state` broadcast makes the online client report: the side not to move wins a mate. */
  function ClientOutcome(state: GameState): (o: Option<Outcome>)
    ensures o.Some? <==> state.status.Some? && state.status.value.gameOver
    ensures o.Some? ==> (o.value.Won? <==> state.status.value.checkmate)
    ensures o.Some? && o.value.Won? ==> o.value.winner != state.turn
  {
    if state.status.Some? && state.status.value.gameOver then
      Some(if state.status.value.checkmate then Won(Opponent(state.turn)) else Drawn)
    else None
  }

  /** Everything `onState` reports for one broadcast. */
  function StateNotices(state: GameState): (r: seq<Notice>)
    ensures |r| <= 2
    ensures Captured in r <==> state.status.Some? && state.status.value.lastMove.capture
    ensures ClientOutcome(state).Some? ==> |r| >= 1 && r[|r| - 1] == Ended(ClientOutcome(state).value)
  {
    (if state.status.Some? && state.status.value.lastMove.capture then [Captured] else [])
    + (if ClientOutcome(state).Some? then [Ended(ClientOutcome(state).value)] else [])
  }

  /**
   * What the online client reports for one room broadcast: `game_state` goes to `onState`,
   * `game_end` to `onEnd`, and `room_state` has no listener on the board.
   */
  function PayloadNotices(pl: Payload): (r: seq<Notice>)
    ensures |r| <= 2
    ensures pl.RoomState? ==> r == []
    ensures pl.GameEnd? ==> r == [Ended(pl.outcome)]
    ensures Captured in r ==> pl.StateUpdate?
  {
    match pl
    case RoomState(_) => []
    case StateUpdate(state) => StateNotices(state)
    case GameEnd(o) => [Ended(o)]
  }

  /**
   * The winner the online client infers from the state after an accepted move is the server's
   * winner, the mover; and, given that the engine's game-over is checkmate or draw, the
   * client reports a result exactly when the server sends one, and the same one.
   */
  lemma ClientAgreesWithServer(e: Engine, games: map<RoomId, Game>, roomId: RoomId, conn: ConnId, req: MoveRequest)
    requires Sound(e)
    requires Adjudicate(e, games, roomId, conn, req).Applied?
    requires var v := Adjudicate(e, games, roomId, conn, req); e.gameOver(v.after) == (e.checkmate(v.after) || e.draw(v.after))
    ensures var v := Adjudicate(e, games, roomId, conn, req);
      var state := MoveState(e, v.move, v.after);
      && (e.checkmate(v.after) ==> ClientOutcome(state) == Some(Won(v.move.color)))
      && (ClientOutcome(state).None? <==> EndEvents(e, roomId, v.move, v.after) == [])
      && (ClientOutcome(state).Some? ==>
            EndEvents(e, roomId, v.move, v.after) == [Broadcast(roomId, GameEnd(ClientOutcome(state).value))])
  {
    AppliedIsByCallerOnTurn(e, games, roomId, conn, req);
    var v := Adjudicate(e, games, roomId, conn, req);
    assert Opponent(e.turn(v.after)) == v.move.color;
  }

  /**
   * A client in the room reports the end of an online game twice: once when it reads the
   * final `game_state`, once more on the `game_end` that follows it.
   */
  lemma OnlineEndReportedTwice(e: Engine, games: map<RoomId, Game>, roomId: RoomId, conn: ConnId, req: MoveRequest)
    requires Sound(e)
    requires Adjudicate(e, games, roomId, conn, req).Applied?
    requires var v := Adjudicate(e, games, roomId, conn, req); e.checkmate(v.after) && e.gameOver(v.after)
    ensures var v := Adjudicate(e, games, roomId, conn, req);
      var evs := MoveEvents(e, roomId, conn, v.move, v.after, true);
      PayloadNotices(evs[0].payload) + PayloadNotices(evs[1].payload) ==
        (if v.move.capture then [Captured] else []) + [Ended(Won(v.move.color)), Ended(Won(v.move.color))]
  {
    AppliedIsByCallerOnTurn(e, games, roomId, conn, req);
    var v := Adjudicate(e, games, roomId, conn, req);
    assert Opponent(e.turn(v.after)) == v.move.color;
  }

  /** An offline checkmate names the side that clicked, which was the side to move. */
  lemma OfflineWinnerIsMover(e: Engine, p: Position, req: MoveInput)
    requires Sound(e)
    requires e.tryMove(p, req).Some?
    ensures var (m, after) := e.tryMove(p, req).value;
      e.checkmate(after) && e.gameOver(after) ==> OfflineEnd(e, m, after) == [Ended(Won(e.turn(p)))]
  {
  }

  /**
   * The board a fresh component shows is rendered from `fen`, which starts as the engine's FEN
   * of its initial position; when that is the standard starting FEN the board has eight rows
   * of eight cells.
   */
  lemma FirstBoardIsEightByEight(e: Engine)
    requires e.fen(e.initial) == Fen.StartFen
    ensures |Fen.Ranks(e.fen(e.initial))| == 8
    ensures forall i :: 0 <= i < 8 ==> |Fen.Expand(Fen.Ranks(e.fen(e.initial))[i])| == 8
  {
    Fen.StartBoardIsEightByEight();
  }

  /**
   * The component's state: the React state variables, the engine position held in `chessRef`,
   * what has been reported to the parent, and the number of bot moves scheduled offline.
   */
  class BoardView {
    const engine: Engine
    const mode: Mode
    const myColor: Option<Color>
    var fen: string
    var turn: Color
    var selected: Option<Square>
    var legal: Index
    /** `chessRef.current`. */
    var current: Position
    var notices: seq<Notice>
    /** Bot moves scheduled with `setTimeout` and not yet run. */
    var botTimers: nat

    /** Offline the shown fen, turn and legal moves are always those of the held position. */
    predicate Synced()
      reads this
    {
      fen == engine.fen(current) && turn == engine.turn(current) && legal == IndexOf(engine.legalMoves(current))
    }

    ghost predicate Valid()
      reads this
    {
      && Sound(engine)
      && (mode == Offline ==> Synced())
      && (mode == Online ==> botTimers == 0)
    }

    /** The first render and, offline, the initialising effect. */
    constructor (e: Engine, m: Mode, color: Option<Color>)
      requires Sound(e)
      ensures Valid()
      ensures engine == e && mode == m && myColor == color
      ensures current == e.initial && fen == e.fen(e.initial)
      ensures turn == (if m == Offline then e.turn(e.initial) else White)
      ensures legal == (if m == Offline then IndexOf(e.legalMoves(e.initial)) else map[])
      ensures selected == None && notices == [] && botTimers == 0
    {
      engine := e;
      mode := m;
      myColor := color;
      current := e.initial;
      fen := e.fen(e.initial);
      selected := None;
      notices := [];
      botTimers := 0;
      if m == Offline {
        turn := e.turn(e.initial);
        var index := GroupLegal(e, e.initial);
        legal := index;
      } else {
        turn := White;
        legal := map[];
      }
    }

    /** `setFen(current.fen()); setTurn(current.turn()); setLegal(groupLegal(current))`. */
    method Refresh()
      modifies this
      ensures Synced()
      ensures current == old(current) && selected == old(selected) && notices == old(notices)
      ensures botTimers == old(botTimers)
    {
      fen := engine.fen(current);
      turn := engine.turn(current);
      legal := GroupLegal(engine, current);
    }

    /**
     * `onClickSquare(r, c)`. Off turn nothing happens. A click on a destination of the selected
     * piece attempts the move with a queen promotion: offline on the held position (an illegal
     * one only clears the selection; a legal one reports a capture, refreshes, and either
     * reports the result or schedules the bot), online by sending the request. Any other click
     * selects the square if it has legal moves and clears the selection if not.
     */
    method OnClickSquare(r: int, c: int) returns (sent: Option<MoveRequest>)
      requires Valid() && 0 <= r < 8 && 0 <= c < 8
      modifies this
      ensures Valid()
      ensures var sq := CoordToSquare(r, c);
        var k := ClickOn(old(selected), old(legal), sq);
        if !IsMyTurn(mode, myColor, engine.turn(old(current))) then
          sent == None && unchanged(this)
        else if k.Select? then
          && sent == None && selected == k.square
          && fen == old(fen) && turn == old(turn) && legal == old(legal) && current == old(current)
          && notices == old(notices) && botTimers == old(botTimers)
        else if mode == Online then
          sent == Some(MoveRequest(k.from, sq, Some("q"))) && unchanged(this)
        else
          && sent == None && selected == None
          && match engine.tryMove(old(current), MoveInput(k.from, sq, Some("q")))
             case None =>
               && current == old(current) && fen == old(fen) && turn == old(turn) && legal == old(legal)
               && notices == old(notices) && botTimers == old(botTimers)
             case Some((m, after)) =>
               && current == after
               && notices == old(notices) + (if m.capture then [Captured] else []) + OfflineEnd(engine, m, after)
               && botTimers == old(botTimers) + (if engine.gameOver(after) then 0 else 1)
    {
      var sq := CoordToSquare(r, c);
      sent := None;
      var isMyTurn := IsMyTurn(mode, myColor, engine.turn(current));
      if !isMyTurn {
        return;
      }
      if selected.Some? && selected.value in legal && sq in legal[selected.value] {
        var from := selected.value;
        if mode == Offline {
          PlayOffline(from, sq);
        } else {
          sent := Some(MoveRequest(from, sq, Some("q")));
        }
      } else {
        if sq in legal && |legal[sq]| > 0 {
          selected := Some(sq);
        } else {
          selected := None;
        }
      }
    }

    /**
     * The offline branch of a move attempt: an illegal move only clears the selection; a legal
     * one is played on the held position, reports a capture, refreshes, and then either
     * reports the result (and schedules nothing) or schedules the bot's reply.
     */
    method PlayOffline(from: Square, to: Square)
      requires Valid() && mode == Offline
      modifies this
      ensures Valid() && selected == None
      ensures match engine.tryMove(old(current), MoveInput(from, to, Some("q")))
        case None =>
          && current == old(current) && fen == old(fen) && turn == old(turn) && legal == old(legal)
          && notices == old(notices) && botTimers == old(botTimers)
        case Some((m, after)) =>
          && current == after
          && notices == old(notices) + (if m.capture then [Captured] else []) + OfflineEnd(engine, m, after)
          && botTimers == old(botTimers) + (if engine.gameOver(after) then 0 else 1)
    {
      var result := engine.tryMove(current, MoveInput(from, to, Some("q")));
      if result.None? {
        selected := None;
        return;
      }
      var (move, after) := result.value;
      current := after;
      if move.capture {
        notices := notices + [Captured];
      }
      Refresh();
      selected := None;
      if engine.gameOver(current) {
        if engine.checkmate(current) {
          notices := notices + [Ended(Won(move.color))];
        } else {
          notices := notices + [Ended(Drawn)];
        }
        return;
      }
      botTimers := botTimers + 1;
    }

    /**
     * The scheduled bot move, with `Math.random()` returning `r`: pick a move of the held
     * position, play it, report a capture, refresh, and report the result if the game is over.
     * When the engine refuses the pick, the handler fails on `mv.color` before reporting a
     * checkmate, so only a draw is reported then.
     */
    method OnBotTimer(r: real)
      requires Valid() && mode == Offline && botTimers > 0 && 0.0 <= r < 1.0
      modifies this
      ensures Valid()
      ensures botTimers == old(botTimers) - 1 && selected == old(selected)
      ensures var pick := PickBotMove(engine.legalMoves(old(current)), r);
        if pick.None? then
          current == old(current) && notices == old(notices) && fen == old(fen) && legal == old(legal)
        else
          match engine.tryMove(old(current), MoveInput(pick.value.from, pick.value.to, pick.value.promotion))
          case None =>
            && current == old(current)
            && notices == old(notices) + (if engine.gameOver(current) && !engine.checkmate(current) then [Ended(Drawn)] else [])
          case Some((m, after)) =>
            current == after && notices == old(notices) + (if m.capture then [Captured] else []) + OfflineEnd(engine, m, after)
    {
      botTimers := botTimers - 1;
      var botMove := PickBotMove(engine.legalMoves(current), r);
      if botMove.Some? {
        var bm := botMove.value;
        var mv := engine.tryMove(current, MoveInput(bm.from, bm.to, bm.promotion));
        if mv.Some? {
          current := mv.value.1;
          if mv.value.0.capture {
            notices := notices + [Captured];
          }
        }
        Refresh();
        if engine.gameOver(current) {
          if engine.checkmate(current) {
            if mv.Some? {
              notices := notices + [Ended(Won(mv.value.0.color))];
            }
          } else {
            notices := notices + [Ended(Drawn)];
          }
        }
      }
    }

    /** The online `game_state` handler: show the state, load its position, report capture and result. */
    method OnState(state: GameState)
      requires Valid() && mode == Online
      modifies this
      ensures Valid()
      ensures fen == state.fen && turn == state.turn && legal == state.legalMoves
      ensures current == engine.load(state.fen)
      ensures notices == old(notices) + StateNotices(state)
      ensures selected == old(selected) && botTimers == old(botTimers)
    {
      fen := state.fen;
      turn := state.turn;
      legal := state.legalMoves;
      current := engine.load(state.fen);
      if state.status.Some? && state.status.value.lastMove.capture {
        notices := notices + [Captured];
      }
      if state.status.Some? && state.status.value.gameOver {
        if state.status.value.checkmate {
          var winner := if state.turn == White then Black else White;
          notices := notices + [Ended(Won(winner))];
        } else {
          notices := notices + [Ended(Drawn)];
        }
      }
    }

    /** The online `game_end` handler: pass the result on. */
    method OnEnd(outcome: Outcome)
      requires Valid() && mode == Online
      modifies this
      ensures Valid()
      ensures notices == old(notices) + [Ended(outcome)]
      ensures fen == old(fen) && turn == old(turn) && legal == old(legal) && current == old(current)
      ensures selected == old(selected) && botTimers == old(botTimers)
    {
      notices := notices + [Ended(outcome)];
    }
  }
}
