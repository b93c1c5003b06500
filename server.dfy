/**
 * The server's room coordinator: a process-wide store from room id to a game record
 * (the engine position and the roster of players), and the socket event handlers
 * `create_room`, `join_room`, `make_move`, `reset_game` and `disconnect` that read and
 * update it. What a handler sends over the transport is returned as a list of events.
 */
module Server {
  import opened Wrappers
  import opened Chess
  import opened MoveIndex

  type RoomId = string
  /** The transport connection id (`socket.id`). */
  type ConnId = string

  datatype Player = Player(id: ConnId, color: Color)

  /** A room's record: `{chess, players}`. */
  datatype Game = Game(chess: Position, players: seq<Player>)

  /** The extra fields of the state broadcast after an accepted move. */
  datatype Status = Status(lastMove: Move, inCheck: bool, gameOver: bool, checkmate: bool, draw: bool)

  /** The `game_state` payload; `status` is absent in the snapshots sent by join and reset. */
  datatype GameState = GameState(fen: string, turn: Color, legalMoves: Index, status: Option<Status>)

  /** The `game_end` payload: `{winner}` or `{draw: true}`. */
  datatype Outcome = Won(winner: Color) | Drawn

  datatype Payload =
    | RoomState(players: seq<Color>)
    | StateUpdate(state: GameState)
    | GameEnd(outcome: Outcome)

  /** What a handler passes to the client's acknowledgement callback. */
  datatype Ack = Joined(roomId: RoomId, color: Color) | Failed(error: string) | Moved(move: Move)

  datatype Event =
    | SocketJoin(conn: ConnId, room: RoomId)       // socket.join(roomId)
    | Broadcast(room: RoomId, payload: Payload)    // io.to(roomId).emit(...)
    | Reply(conn: ConnId, ack: Ack)                // cb(...)

  /** The payload of a `make_move` request. */
  datatype MoveRequest = MoveRequest(from: Square, to: Square, promotion: Option<string>)

  // ---------------------------------------------------------------------------
  // Rosters

  /** `players.map(p => p.color)`. */
  function Colors(ps: seq<Player>): (cs: seq<Color>)
    ensures |cs| == |ps|
  {
    seq(|ps|, i requires 0 <= i < |ps| => ps[i].color)
  }

  /** At most two players, and no colour held twice. */
  ghost predicate RosterOk(ps: seq<Player>) {
    && |ps| <= 2
    && (|ps| == 2 ==> ps[0].color != ps[1].color)
  }

  /** `players.some(p => p.color === "w")`. */
  function HoldsWhite(ps: seq<Player>): (b: bool)
    ensures b <==> exists p :: p in ps && p.color == White
  {
    exists i :: 0 <= i < |ps| && ps[i].color == White
  }

  /** The colour `join_room` hands out: black when white is taken, white otherwise. */
  function SideFor(ps: seq<Player>): (c: Color)
    ensures c == White <==> forall p :: p in ps ==> p.color != White
  {
    if HoldsWhite(ps) then Black else White
  }

  /**
   * Appending a player with the side `join_room` picks to a roster of fewer than two keeps
   * the roster within two entries and the colours distinct.
   */
  lemma JoinKeepsRoster(ps: seq<Player>, id: ConnId)
    requires RosterOk(ps) && |ps| < 2
    ensures RosterOk(ps + [Player(id, SideFor(ps))])
    ensures forall p :: p in ps ==> p.color != SideFor(ps)
  {
    if |ps| == 1 {
      assert ps[0].color == White ==> HoldsWhite(ps);
    }
  }

  /** `players.find(p => p.id === id)`: the first entry with that id. */
  function FindPlayer(ps: seq<Player>, id: ConnId): (r: Option<Player>)
    ensures r.Some? <==> exists i :: 0 <= i < |ps| && ps[i].id == id
    ensures r.Some? ==> exists i :: 0 <= i < |ps| && ps[i] == r.value && r.value.id == id &&
                                    forall j :: 0 <= j < i ==> ps[j].id != id
  {
    if ps == [] then None
    else if ps[0].id == id then Some(ps[0])
    else
      var r := FindPlayer(ps[1..], id);
      assert forall i :: 1 <= i < |ps| ==> ps[i] == ps[1..][i - 1];
      r
  }

  /** `players.filter(p => p.id !== id)`. */
  function Without(ps: seq<Player>, id: ConnId): (r: seq<Player>)
    ensures |r| <= |ps|
  {
    if ps == [] then [] else (if ps[0].id == id then [] else [ps[0]]) + Without(ps[1..], id)
  }

  /**
   * The filtered roster keeps exactly the entries of other connections, and it is shorter
   * exactly when the connection held an entry.
   */
  lemma {:induction false} WithoutMembers(ps: seq<Player>, id: ConnId)
    ensures forall p :: p in Without(ps, id) <==> p in ps && p.id != id
    ensures |Without(ps, id)| <= |ps|
    ensures |Without(ps, id)| == |ps| <==> forall i :: 0 <= i < |ps| ==> ps[i].id != id
  {
    if ps != [] {
      WithoutMembers(ps[1..], id);
      assert forall i :: 1 <= i < |ps| ==> ps[i] == ps[1..][i - 1];
      assert forall p :: p in ps <==> p == ps[0] || p in ps[1..];
    }
  }

  /** Filtering distributes over concatenation: the entries that stay keep their order. */
  lemma {:induction false} WithoutAppend(a: seq<Player>, b: seq<Player>, id: ConnId)
    ensures Without(a + b, id) == Without(a, id) + Without(b, id)
  {
    if a != [] {
      assert (a + b)[0] == a[0];
      assert (a + b)[1..] == a[1..] + b;
      WithoutAppend(a[1..], b, id);
      var head: seq<Player> := if a[0].id == id then [] else [a[0]];
      calc {
        Without(a + b, id);
        head + Without(a[1..] + b, id);
        head + (Without(a[1..], id) + Without(b, id));
        (head + Without(a[1..], id)) + Without(b, id);
        Without(a, id) + Without(b, id);
      }
    } else {
      assert a + b == b;
    }
  }

  /** Removing players never breaks the roster invariant. */
  lemma WithoutKeepsRoster(ps: seq<Player>, id: ConnId)
    requires RosterOk(ps)
    ensures RosterOk(Without(ps, id))
  {
    WithoutMembers(ps, id);
    if |ps| == 2 {
      assert ps[1..][1..] == [];
      assert Without(ps[1..], id) == (if ps[1].id == id then [] else [ps[1]]) + Without(ps[1..][1..], id);
      assert Without(ps, id) == (if ps[0].id == id then [] else [ps[0]]) + (if ps[1].id == id then [] else [ps[1]]);
    }
  }

  // ---------------------------------------------------------------------------
  // The store's records

  /** What `getOrCreateGame` yields: the existing record, or a fresh one with no players. */
  function RoomOrNew(games: map<RoomId, Game>, roomId: RoomId, initial: Position): (g: Game)
    ensures roomId in games ==> g == games[roomId]
    ensures roomId !in games ==> g.chess == initial && g.players == []
  {
    if roomId in games then games[roomId] else Game(initial, [])
  }

  /** The insertion order of the store after `getOrCreateGame`: a new id goes last. */
  function KeysWith(keys: seq<RoomId>, games: map<RoomId, Game>, roomId: RoomId): (r: seq<RoomId>)
    ensures roomId in games ==> r == keys
    ensures roomId !in games ==> |r| == |keys| + 1 && r[|r| - 1] == roomId
  {
    if roomId in games then keys else keys + [roomId]
  }

  ghost predicate Distinct(ks: seq<RoomId>) {
    forall i, j :: 0 <= i < j < |ks| ==> ks[i] != ks[j]
  }

  /** The snapshot sent by `join_room` and `reset_game`. */
  function PlainState(e: Engine, p: Position): (s: GameState)
    ensures s.status.None? && s.turn == e.turn(p)
    ensures s.legalMoves.Keys == Origins(e.legalMoves(p))
  {
    GameState(e.fen(p), e.turn(p), IndexOf(e.legalMoves(p)), None)
  }

  /** The snapshot sent after an accepted move. */
  function MoveState(e: Engine, m: Move, p: Position): (s: GameState)
    ensures s.status.Some? && s.status.value.lastMove == m && s.turn == e.turn(p)
    ensures s.status.value.gameOver == e.gameOver(p) && s.status.value.checkmate == e.checkmate(p)
  {
    GameState(e.fen(p), e.turn(p), IndexOf(e.legalMoves(p)),
              Some(Status(m, e.inCheck(p), e.gameOver(p), e.checkmate(p), e.draw(p))))
  }

  // ---------------------------------------------------------------------------
  // make_move

  /** `promotion || "q"`. */
  function PromotionOrQueen(promotion: Option<string>): (piece: string)
    ensures piece != ""
    ensures Truthy(promotion) ==> piece == promotion.value
  {
    if Truthy(promotion) then promotion.value else "q"
  }

  datatype Verdict = Rejected(reason: string) | Applied(move: Move, after: Position)

  /** The four checks of `make_move`, in the order the handler makes them. */
  function Adjudicate(e: Engine, games: map<RoomId, Game>, roomId: RoomId, conn: ConnId, req: MoveRequest): (v: Verdict)
    ensures v.Rejected? ==> v.reason in ["No such room", "You are not in this room", "Not your turn", "Illegal move"]
    ensures v.Applied? ==> roomId in games && FindPlayer(games[roomId].players, conn).Some?
    ensures v.Applied? ==> FindPlayer(games[roomId].players, conn).value.color == e.turn(games[roomId].chess)
    ensures v.Applied? ==>
      e.tryMove(games[roomId].chess, MoveInput(req.from, req.to, Some(PromotionOrQueen(req.promotion)))) == Some((v.move, v.after))
  {
    if roomId !in games then Rejected("No such room")
    else
      var g := games[roomId];
      match FindPlayer(g.players, conn)
      case None => Rejected("You are not in this room")
      case Some(player) =>
        var side := e.turn(g.chess);
        if (player.color == White && side != White) || (player.color == Black && side != Black) then
          Rejected("Not your turn")
        else
          assert player.color == side by {
            if player.color == White { } else { assert player.color == Black; }
          }
          match e.tryMove(g.chess, MoveInput(req.from, req.to, Some(PromotionOrQueen(req.promotion))))
          case None => Rejected("Illegal move")
          case Some((m, after)) => Applied(m, after)
  }

  /** Each rejection reason occurs exactly under its condition, and only after the earlier checks passed. */
  lemma RejectionOrder(e: Engine, games: map<RoomId, Game>, roomId: RoomId, conn: ConnId, req: MoveRequest)
    ensures Adjudicate(e, games, roomId, conn, req) == Rejected("No such room") <==> roomId !in games
    ensures Adjudicate(e, games, roomId, conn, req) == Rejected("You are not in this room") <==>
      roomId in games && FindPlayer(games[roomId].players, conn).None?
    ensures Adjudicate(e, games, roomId, conn, req) == Rejected("Not your turn") <==>
      roomId in games && FindPlayer(games[roomId].players, conn).Some? &&
      FindPlayer(games[roomId].players, conn).value.color != e.turn(games[roomId].chess)
    ensures Adjudicate(e, games, roomId, conn, req) == Rejected("Illegal move") <==>
      roomId in games && FindPlayer(games[roomId].players, conn).Some? &&
      FindPlayer(games[roomId].players, conn).value.color == e.turn(games[roomId].chess) &&
      e.tryMove(games[roomId].chess, MoveInput(req.from, req.to, Some(PromotionOrQueen(req.promotion)))).None?
  {
  }

  /**
   * An accepted move was requested by a player of the room whose colour is the side to move,
   * the engine was asked with `promotion || "q"`, the move is that player's colour, and
   * afterwards the other side is to move.
   */
  lemma AppliedIsByCallerOnTurn(e: Engine, games: map<RoomId, Game>, roomId: RoomId, conn: ConnId, req: MoveRequest)
    requires Sound(e)
    requires Adjudicate(e, games, roomId, conn, req).Applied?
    ensures roomId in games
    ensures var g := games[roomId]; var v := Adjudicate(e, games, roomId, conn, req);
      && FindPlayer(g.players, conn).Some?
      && FindPlayer(g.players, conn).value.color == e.turn(g.chess) == v.move.color
      && e.tryMove(g.chess, MoveInput(req.from, req.to, Some(PromotionOrQueen(req.promotion)))) == Some((v.move, v.after))
      && e.turn(v.after) == Opponent(v.move.color)
  {
  }

  /** Two accepted moves in a row in one room come from opposite sides. */
  lemma TurnsAlternate(e: Engine, games: map<RoomId, Game>, roomId: RoomId, c1: ConnId, r1: MoveRequest, c2: ConnId, r2: MoveRequest)
    requires Sound(e)
    requires Adjudicate(e, games, roomId, c1, r1).Applied?
    requires var v := Adjudicate(e, games, roomId, c1, r1);
      Adjudicate(e, games[roomId := games[roomId].(chess := v.after)], roomId, c2, r2).Applied?
    ensures var v := Adjudicate(e, games, roomId, c1, r1);
      Adjudicate(e, games[roomId := games[roomId].(chess := v.after)], roomId, c2, r2).move.color == Opponent(v.move.color)
  {
    var v := Adjudicate(e, games, roomId, c1, r1);
    AppliedIsByCallerOnTurn(e, games, roomId, c1, r1);
    AppliedIsByCallerOnTurn(e, games[roomId := games[roomId].(chess := v.after)], roomId, c2, r2);
  }

  /** `game_end` after an accepted move: the mover wins on checkmate, otherwise a draw if drawn. */
  function EndEvents(e: Engine, roomId: RoomId, m: Move, after: Position): (r: seq<Event>)
    ensures |r| <= 1
    ensures r != [] <==> e.checkmate(after) || e.draw(after)
    ensures e.checkmate(after) ==> r == [Broadcast(roomId, GameEnd(Won(m.color)))]
  {
    if e.checkmate(after) then [Broadcast(roomId, GameEnd(Won(if m.color == White then White else Black)))]
    else if e.draw(after) then [Broadcast(roomId, GameEnd(Drawn))]
    else []
  }

  /** Everything an accepted move sends, in order: the state, an optional result, the ack. */
  function MoveEvents(e: Engine, roomId: RoomId, conn: ConnId, m: Move, after: Position, hasCallback: bool): (r: seq<Event>)
    ensures 1 <= |r| <= 3
    ensures r[0] == Broadcast(roomId, StateUpdate(MoveState(e, m, after)))
    ensures hasCallback ==> r[|r| - 1] == Reply(conn, Moved(m))
  {
    [Broadcast(roomId, StateUpdate(MoveState(e, m, after)))]
    + EndEvents(e, roomId, m, after)
    + (if hasCallback then [Reply(conn, Moved(m))] else [])
  }

  /**
   * The shape of that sequence: one state broadcast first; on checkmate exactly one result
   * naming the mover (the side that was to move), else a draw result if the engine reports
   * a draw; the acknowledgement last.
   */
  lemma MoveEventsShape(e: Engine, games: map<RoomId, Game>, roomId: RoomId, conn: ConnId, req: MoveRequest, hasCallback: bool)
    requires Sound(e)
    requires Adjudicate(e, games, roomId, conn, req).Applied?
    ensures var v := Adjudicate(e, games, roomId, conn, req);
      var evs := MoveEvents(e, roomId, conn, v.move, v.after, hasCallback);
      && evs[0] == Broadcast(roomId, StateUpdate(MoveState(e, v.move, v.after)))
      && |evs| == 1 + (if e.checkmate(v.after) || e.draw(v.after) then 1 else 0) + (if hasCallback then 1 else 0)
      && (e.checkmate(v.after) ==> evs[1] == Broadcast(roomId, GameEnd(Won(e.turn(games[roomId].chess)))))
      && (!e.checkmate(v.after) && e.draw(v.after) ==> evs[1] == Broadcast(roomId, GameEnd(Drawn)))
      && (hasCallback ==> evs[|evs| - 1] == Reply(conn, Moved(v.move)))
  {
    AppliedIsByCallerOnTurn(e, games, roomId, conn, req);
  }

  // ---------------------------------------------------------------------------
  // disconnect

  /** The store after `conn` disconnects: it leaves every roster, and emptied rooms are gone. */
  function Disconnected(games: map<RoomId, Game>, conn: ConnId): (r: map<RoomId, Game>)
    ensures r.Keys <= games.Keys
    ensures forall k :: k in r ==> r[k].players != [] && forall p :: p in r[k].players ==> p.id != conn
  {
    assert forall k :: k in games ==> forall p :: p in Without(games[k].players, conn) ==> p.id != conn by {
      forall k | k in games {
        WithoutMembers(games[k].players, conn);
      }
    }
    map k | k in games && Without(games[k].players, conn) != [] ::
      games[k].(players := Without(games[k].players, conn))
  }

  /** The ids, in store order, of the rooms that survive the disconnect. */
  function SurvivingKeys(ks: seq<RoomId>, games: map<RoomId, Game>, conn: ConnId): (r: seq<RoomId>)
    ensures |r| <= |ks|
  {
    if ks == [] then []
    else
      var k := ks[|ks| - 1];
      SurvivingKeys(ks[..|ks| - 1], games, conn)
      + (if k in games && Without(games[k].players, conn) != [] then [k] else [])
  }

  /** The `room_state` broadcasts of a disconnect, in store order, one per room whose roster shrank. */
  function LeaveEvents(ks: seq<RoomId>, games: map<RoomId, Game>, conn: ConnId): (r: seq<Event>)
    ensures |r| <= |ks|
  {
    if ks == [] then []
    else
      var k := ks[|ks| - 1];
      LeaveEvents(ks[..|ks| - 1], games, conn)
      + (if k in games && |Without(games[k].players, conn)| != |games[k].players|
         then [Broadcast(k, RoomState(Colors(Without(games[k].players, conn))))] else [])
  }

  lemma {:induction false} SurvivingKeysMembers(ks: seq<RoomId>, games: map<RoomId, Game>, conn: ConnId)
    ensures forall k :: k in SurvivingKeys(ks, games, conn) <==>
      k in ks && k in games && Without(games[k].players, conn) != []
  {
    if ks != [] {
      SurvivingKeysMembers(ks[..|ks| - 1], games, conn);
      assert ks == ks[..|ks| - 1] + [ks[|ks| - 1]];
    }
  }

  lemma {:induction false} SurvivingKeysDistinct(ks: seq<RoomId>, games: map<RoomId, Game>, conn: ConnId)
    requires Distinct(ks)
    ensures Distinct(SurvivingKeys(ks, games, conn))
  {
    if ks != [] {
      var init := ks[..|ks| - 1];
      assert Distinct(init);
      SurvivingKeysDistinct(init, games, conn);
      SurvivingKeysMembers(init, games, conn);
      assert ks[|ks| - 1] !in init;
    }
  }

  /**
   * A room gets a `room_state` broadcast from a disconnect exactly when it is listed and held
   * an entry of the leaving connection; the broadcast carries the colours that remain.
   */
  lemma {:induction false} LeaveEventsExactly(ks: seq<RoomId>, games: map<RoomId, Game>, conn: ConnId, k: RoomId, cs: seq<Color>)
    ensures Broadcast(k, RoomState(cs)) in LeaveEvents(ks, games, conn) <==>
      && k in ks && k in games
      && (exists p :: p in games[k].players && p.id == conn)
      && cs == Colors(Without(games[k].players, conn))
  {
    if ks != [] {
      LeaveEventsExactly(ks[..|ks| - 1], games, conn, k, cs);
      assert ks == ks[..|ks| - 1] + [ks[|ks| - 1]];
      if k in games {
        var ps := games[k].players;
        WithoutMembers(ps, conn);
        if exists p :: p in ps && p.id == conn {
          var p :| p in ps && p.id == conn;
          assert p !in Without(ps, conn);
          assert |Without(ps, conn)| != |ps|;
        }
      }
    }
  }

  /** One more room visited by the `disconnect` loop. */
  lemma LeaveStep(ks: seq<RoomId>, k: RoomId, games: map<RoomId, Game>, conn: ConnId)
    ensures SurvivingKeys(ks + [k], games, conn) == SurvivingKeys(ks, games, conn)
      + (if k in games && Without(games[k].players, conn) != [] then [k] else [])
    ensures LeaveEvents(ks + [k], games, conn) == LeaveEvents(ks, games, conn)
      + (if k in games && |Without(games[k].players, conn)| != |games[k].players|
         then [Broadcast(k, RoomState(Colors(Without(games[k].players, conn))))] else [])
  {
    assert (ks + [k])[..|ks|] == ks;
  }

  lemma DistinctSplit(ks: seq<RoomId>, i: nat)
    requires Distinct(ks) && i < |ks|
    ensures ks[i] !in ks[..i] && ks[i] !in ks[i + 1..]
  {
  }

  lemma DistinctConcat(a: seq<RoomId>, b: seq<RoomId>)
    requires Distinct(a) && Distinct(b)
    requires forall x :: x in a ==> x !in b
    ensures Distinct(a + b)
  {
    forall i, j | 0 <= i < j < |a + b| ensures (a + b)[i] != (a + b)[j] {
      if i < |a| && j >= |a| {
        assert (a + b)[i] in a && (a + b)[j] in b;
      }
    }
  }

  /** The store part-way through the `disconnect` loop, once the rooms in `done` were visited. */
  ghost function Swept(g0: map<RoomId, Game>, done: seq<RoomId>, conn: ConnId): map<RoomId, Game> {
    map k | k in g0 && (k in done ==> Without(g0[k].players, conn) != []) ::
      if k in done then g0[k].(players := Without(g0[k].players, conn)) else g0[k]
  }

  lemma SweptStep(g0: map<RoomId, Game>, done: seq<RoomId>, k: RoomId, conn: ConnId)
    requires k in g0 && k !in done
    ensures k in Swept(g0, done, conn) && Swept(g0, done, conn)[k] == g0[k]
    ensures var upd := g0[k].(players := Without(g0[k].players, conn));
      Swept(g0, done + [k], conn) ==
        if upd.players == [] then Swept(g0, done, conn)[k := upd] - {k} else Swept(g0, done, conn)[k := upd]
  {
    var upd := g0[k].(players := Without(g0[k].players, conn));
    var lhs := Swept(g0, done + [k], conn);
    var rhs := if upd.players == [] then Swept(g0, done, conn)[k := upd] - {k} else Swept(g0, done, conn)[k := upd];
    assert forall x :: x in done + [k] <==> x in done || x == k;
    assert lhs.Keys == rhs.Keys;
    forall x | x in lhs ensures lhs[x] == rhs[x] {
    }
  }

  lemma SweptAll(g0: map<RoomId, Game>, done: seq<RoomId>, conn: ConnId)
    requires forall k :: k in g0 ==> k in done
    ensures Swept(g0, done, conn) == Disconnected(g0, conn)
  {
  }

  /** The records and the insertion order after a disconnect satisfy the store invariant again. */
  lemma DisconnectKeepsValid(g0: map<RoomId, Game>, ks: seq<RoomId>, conn: ConnId)
    requires StoreOk(g0, ks)
    ensures forall k :: k in ks ==> k in g0
    ensures StoreOk(Disconnected(g0, conn), SurvivingKeys(ks, g0, conn))
  {
    SurvivingKeysDistinct(ks, g0, conn);
    SurvivingKeysMembers(ks, g0, conn);
    forall k | k in Disconnected(g0, conn) ensures RosterOk(Disconnected(g0, conn)[k].players) {
      WithoutKeepsRoster(g0[k].players, conn);
    }
  }

  // ---------------------------------------------------------------------------
  // The store

  /**
   * The store's invariant: the insertion order lists every room once and nothing else, and
   * every roster has at most two players with distinct colours.
   */
  ghost predicate StoreOk(games: map<RoomId, Game>, keys: seq<RoomId>) {
    && Distinct(keys)
    && (forall k :: k in games <==> k in keys)
    && (forall k :: k in games ==> RosterOk(games[k].players))
  }

  /** Replacing the record of a listed room by one with a well-formed roster keeps the invariant. */
  lemma StoreOkUpdate(games: map<RoomId, Game>, keys: seq<RoomId>, k: RoomId, g: Game)
    requires StoreOk(games, keys) && k in games && RosterOk(g.players)
    ensures StoreOk(games[k := g], keys)
  {
  }

  /** Adding a new room with an empty roster, at the end of the insertion order, keeps the invariant. */
  lemma StoreOkAdd(games: map<RoomId, Game>, keys: seq<RoomId>, k: RoomId, g: Game)
    requires StoreOk(games, keys) && k !in games && g.players == []
    ensures StoreOk(games[k := g], keys + [k])
  {
    DistinctConcat(keys, [k]);
  }

  /**
   * The first loop of `legalMovesSummary` with its unparsable statement taken out: every
   * origin is opened with an empty list and nothing is ever pushed.
   */
  function PlaceholderIndex(moves: seq<Move>): Index {
    map f | f in Origins(moves) :: []
  }

  /** That first loop, walking the moves in order. */
  method PlaceholderLoop(moves: seq<Move>) returns (index: Index)
    ensures index == PlaceholderIndex(moves)
  {
    index := map[];
    var i := 0;
    while i < |moves|
      invariant 0 <= i <= |moves|
      invariant index == PlaceholderIndex(moves[..i])
    {
      var m := moves[i];
      if m.from !in index {
        index := index[m.from := []];
      }
      assert moves[..i + 1] == moves[..i] + [m];
      assert Origins(moves[..i + 1]) == Origins(moves[..i]) + {m.from};
      i := i + 1;
    }
    assert moves[..i] == moves;
  }

  /**
   * The placeholder map has the right keys but loses every destination: for any position with
   * a legal move it differs from the grouping the handler returns.
   */
  lemma PlaceholderDropsDestinations(moves: seq<Move>)
    requires moves != []
    ensures PlaceholderIndex(moves).Keys == IndexOf(moves).Keys
    ensures PlaceholderIndex(moves) != IndexOf(moves)
    ensures moves[0].from in PlaceholderIndex(moves) && PlaceholderIndex(moves)[moves[0].from] == []
  {
    var f := moves[0].from;
    assert f in Origins(moves);
    DestinationsNonEmpty(moves, f);
    assert IndexOf(moves)[f] != PlaceholderIndex(moves)[f];
  }

  /** `legalMovesSummary(chess)`: the legal moves of the position grouped by origin square. */
  method LegalMovesSummary(e: Engine, p: Position) returns (index: Index)
    ensures index.Keys == Origins(e.legalMoves(p))
    ensures forall f :: f in index ==> index[f] == Destinations(e.legalMoves(p), f) && index[f] != []
    ensures index == IndexOf(e.legalMoves(p))
  {
    index := Group(e.legalMoves(p));
  }

  class GameStore {
    const engine: Engine
    /** `games`: room id to record. */
    var games: map<RoomId, Game>
    /** The insertion order of `games`, which is the order `disconnect` visits the rooms in. */
    var keys: seq<RoomId>

    ghost predicate Valid()
      reads this
    {
      Sound(engine) && StoreOk(games, keys)
    }

    constructor (e: Engine)
      requires Sound(e)
      ensures Valid() && engine == e && games == map[] && keys == []
    {
      engine := e;
      games := map[];
      keys := [];
    }

    /** `getOrCreateGame`: an existing record is left as it is; an unknown id gets a fresh one. */
    method GetOrCreateGame(roomId: RoomId) returns (game: Game)
      requires Valid()
      modifies this
      ensures Valid()
      ensures roomId in games && game == games[roomId]
      ensures game == RoomOrNew(old(games), roomId, engine.initial)
      ensures games == old(games)[roomId := game]
      ensures keys == KeysWith(old(keys), old(games), roomId)
    {
      if roomId !in games {
        StoreOkAdd(games, keys, roomId, Game(engine.initial, []));
        games := games[roomId := Game(engine.initial, [])];
        keys := keys + [roomId];
      }
      game := games[roomId];
    }

    /**
     * `create_room`: `roomId` is the freshly drawn id. The roster becomes the caller alone, as
     * white; a record already under that id keeps its position.
     */
    method CreateRoom(conn: ConnId, roomId: RoomId) returns (events: seq<Event>)
      requires Valid()
      modifies this
      ensures Valid()
      ensures games == old(games)[roomId := Game(RoomOrNew(old(games), roomId, engine.initial).chess, [Player(conn, White)])]
      ensures keys == KeysWith(old(keys), old(games), roomId)
      ensures events == [SocketJoin(conn, roomId), Reply(conn, Joined(roomId, White)), Broadcast(roomId, RoomState([White]))]
    {
      var game := GetOrCreateGame(roomId);
      game := game.(players := [Player(conn, White)]);
      StoreOkUpdate(games, keys, roomId, game);
      games := games[roomId := game];
      assert Colors(game.players) == [White];
      events := [SocketJoin(conn, roomId), Reply(conn, Joined(roomId, White)), Broadcast(roomId, RoomState(Colors(game.players)))];
    }

    /**
     * `join_room`: a full room is refused with nothing changed; otherwise the caller is appended
     * with the free colour and the room gets the roster and the current state.
     */
    method JoinRoom(conn: ConnId, roomId: RoomId) returns (events: seq<Event>)
      requires Valid()
      modifies this
      ensures Valid()
      ensures var g := RoomOrNew(old(games), roomId, engine.initial);
        if |g.players| >= 2 then
          && games == old(games) && keys == old(keys)
          && events == [Reply(conn, Failed("Room full"))]
        else
          var color := SideFor(g.players);
          var ps := g.players + [Player(conn, color)];
          && games == old(games)[roomId := g.(players := ps)]
          && keys == KeysWith(old(keys), old(games), roomId)
          && events == [SocketJoin(conn, roomId), Reply(conn, Joined(roomId, color)),
                        Broadcast(roomId, RoomState(Colors(ps))),
                        Broadcast(roomId, StateUpdate(PlainState(engine, g.chess)))]
    {
      var game := GetOrCreateGame(roomId);
      if |game.players| >= 2 {
        events := [Reply(conn, Failed("Room full"))];
        return;
      }
      events := Admit(conn, roomId);
    }

    /** The admitting part of `join_room`: append the caller with the free colour and announce it. */
    method Admit(conn: ConnId, roomId: RoomId) returns (events: seq<Event>)
      requires Valid() && roomId in games && |games[roomId].players| < 2
      modifies this
      ensures Valid()
      ensures var g := old(games)[roomId];
        var color := SideFor(g.players);
        var ps := g.players + [Player(conn, color)];
        && games == old(games)[roomId := g.(players := ps)]
        && keys == old(keys)
        && events == [SocketJoin(conn, roomId), Reply(conn, Joined(roomId, color)),
                      Broadcast(roomId, RoomState(Colors(ps))),
                      Broadcast(roomId, StateUpdate(PlainState(engine, g.chess)))]
    {
      var game := games[roomId];
      var color := SideFor(game.players);
      JoinKeepsRoster(game.players, conn);
      game := game.(players := game.players + [Player(conn, color)]);
      StoreOkUpdate(games, keys, roomId, game);
      games := games[roomId := game];
      var legal := LegalMovesSummary(engine, game.chess);
      var state := GameState(engine.fen(game.chess), engine.turn(game.chess), legal, None);
      assert state == PlainState(engine, game.chess);
      events := [SocketJoin(conn, roomId), Reply(conn, Joined(roomId, color)),
                 Broadcast(roomId, RoomState(Colors(game.players))),
                 Broadcast(roomId, StateUpdate(state))];
    }

    /**
     * `make_move`: rejected requests change nothing and are answered with the reason (when the
     * client passed a callback); an accepted one replaces the room's position and sends the
     * state, the result if the game ended, and the acknowledgement.
     */
    method MakeMove(conn: ConnId, roomId: RoomId, req: MoveRequest, hasCallback: bool) returns (events: seq<Event>)
      requires Valid()
      modifies this
      ensures Valid()
      ensures keys == old(keys)
      ensures match Adjudicate(engine, old(games), roomId, conn, req)
        case Rejected(reason) =>
          && games == old(games)
          && events == (if hasCallback then [Reply(conn, Failed(reason))] else [])
        case Applied(m, after) =>
          && games == old(games)[roomId := old(games)[roomId].(chess := after)]
          && events == MoveEvents(engine, roomId, conn, m, after, hasCallback)
    {
      if roomId !in games {
        events := if hasCallback then [Reply(conn, Failed("No such room"))] else [];
        return;
      }
      var game := games[roomId];
      var player := FindPlayer(game.players, conn);
      if player.None? {
        events := if hasCallback then [Reply(conn, Failed("You are not in this room"))] else [];
        return;
      }
      var sideToMove := engine.turn(game.chess);
      if (player.value.color == White && sideToMove != White) || (player.value.color == Black && sideToMove != Black) {
        events := if hasCallback then [Reply(conn, Failed("Not your turn"))] else [];
        return;
      }
      var result := engine.tryMove(game.chess, MoveInput(req.from, req.to, Some(PromotionOrQueen(req.promotion))));
      if result.None? {
        events := if hasCallback then [Reply(conn, Failed("Illegal move"))] else [];
        return;
      }
      var (move, after) := result.value;
      assert Adjudicate(engine, games, roomId, conn, req) == Applied(move, after);
      events := Accept(conn, roomId, move, after, hasCallback);
    }

    /**
     * The accepted part of `make_move`: store the new position, broadcast the state, the result
     * if the game ended, and acknowledge.
     */
    method Accept(conn: ConnId, roomId: RoomId, move: Move, after: Position, hasCallback: bool) returns (events: seq<Event>)
      requires Valid() && roomId in games
      modifies this
      ensures Valid()
      ensures keys == old(keys)
      ensures games == old(games)[roomId := old(games)[roomId].(chess := after)]
      ensures events == MoveEvents(engine, roomId, conn, move, after, hasCallback)
    {
      var game := games[roomId];
      StoreOkUpdate(games, keys, roomId, game.(chess := after));
      games := games[roomId := game.(chess := after)];
      var legal := LegalMovesSummary(engine, after);
      var state := GameState(engine.fen(after), engine.turn(after), legal,
                             Some(Status(move, engine.inCheck(after), engine.gameOver(after), engine.checkmate(after), engine.draw(after))));
      assert state == MoveState(engine, move, after);
      events := [Broadcast(roomId, StateUpdate(state))];
      if state.status.value.checkmate {
        var winner := if move.color == White then White else Black;
        events := events + [Broadcast(roomId, GameEnd(Won(winner)))];
      } else if state.status.value.draw {
        events := events + [Broadcast(roomId, GameEnd(Drawn))];
      }
      if hasCallback {
        events := events + [Reply(conn, Moved(move))];
      }
    }

    /** `reset_game`: the room (created if unknown) gets the initial position; the roster stays. */
    method ResetGame(roomId: RoomId) returns (events: seq<Event>)
      requires Valid()
      modifies this
      ensures Valid()
      ensures var g := RoomOrNew(old(games), roomId, engine.initial);
        games == old(games)[roomId := Game(engine.initial, g.players)]
      ensures keys == KeysWith(old(keys), old(games), roomId)
      ensures events == [Broadcast(roomId, StateUpdate(PlainState(engine, engine.initial)))]
    {
      var game := GetOrCreateGame(roomId);
      game := game.(chess := engine.initial);
      StoreOkUpdate(games, keys, roomId, game);
      games := games[roomId := game];
      var legal := LegalMovesSummary(engine, game.chess);
      var state := GameState(engine.fen(game.chess), engine.turn(game.chess), legal, None);
      assert state == PlainState(engine, engine.initial);
      events := [Broadcast(roomId, StateUpdate(state))];
    }

    /**
     * `disconnect`: visits every room in store order, drops the connection's entries from its
     * roster, broadcasts the roster of each room that shrank, and deletes each room left empty.
     */
    method Disconnect(conn: ConnId) returns (events: seq<Event>)
      requires Valid()
      modifies this
      ensures Valid()
      ensures games == Disconnected(old(games), conn)
      ensures keys == SurvivingKeys(old(keys), old(games), conn)
      ensures events == LeaveEvents(old(keys), old(games), conn)
    {
      DisconnectKeepsValid(games, keys, conn);
      SweptAll(games, keys, conn);
      events := Sweep(conn);
    }

    /**
     * The loop of `disconnect`, over the rooms in insertion order. Records are updated and
     * deleted as they are visited; the insertion order, which only later handlers read, is
     * written once the loop is done.
     */
    method Sweep(conn: ConnId) returns (events: seq<Event>)
      requires Distinct(keys) && forall j :: 0 <= j < |keys| ==> keys[j] in games
      modifies this
      ensures games == Swept(old(games), old(keys), conn)
      ensures keys == SurvivingKeys(old(keys), old(games), conn)
      ensures events == LeaveEvents(old(keys), old(games), conn)
    {
      ghost var g0 := games;
      var order := keys;
      var kept := [];
      events := [];
      var i := 0;
      while i < |order|
        invariant 0 <= i <= |order| && order == old(keys)
        invariant games == Swept(g0, order[..i], conn)
        invariant kept == SurvivingKeys(order[..i], g0, conn)
        invariant events == LeaveEvents(order[..i], g0, conn)
      {
        var roomId := order[i];
        ghost var next := order[..i + 1];
        assert next == order[..i] + [roomId];
        assert order[i..] == [roomId] + order[i + 1..];
        DistinctSplit(order, i);
        SweptStep(g0, order[..i], roomId, conn);
        LeaveStep(order[..i], roomId, g0, conn);
        var game := games[roomId];
        var before := |game.players|;
        game := game.(players := Without(game.players, conn));
        games := games[roomId := game];
        ghost var left := Without(g0[roomId].players, conn);
        assert game.players == left && before == |g0[roomId].players|;
        if before != |game.players| {
          events := events + [Broadcast(roomId, RoomState(Colors(game.players)))];
        }
        assert events == LeaveEvents(next, g0, conn);
        if |game.players| == 0 {
          games := games - {roomId};
        } else {
          kept := kept + [roomId];
        }
        assert kept == SurvivingKeys(next, g0, conn);
        i := i + 1;
        assert order[..i] == next;
      }
      assert order[..i] == order;
      keys := kept;
    }
  }
}
