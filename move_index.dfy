/**
 * The legal-move index: the legal moves of a position grouped by origin square. The server
 * (`legalMovesSummary`) and the board component (`groupLegal`) build it with the same loop.
 */
module MoveIndex {
  import opened Chess

  type Index = map<Square, seq<Square>>

  /** The squares some move starts from. */
  function Origins(moves: seq<Move>): set<Square> {
    set m | m in moves :: m.from
  }

  /**
   * The destinations of the moves from `f`, in the order the engine lists them: one entry per
   * move, so a destination reached by several promotions appears once per promotion.
   */
  function Destinations(moves: seq<Move>, f: Square): seq<Square> {
    if moves == [] then []
    else (if moves[0].from == f then [moves[0].to] else []) + Destinations(moves[1..], f)
  }

  /** The index as a value: one entry per origin square, listing its destinations. */
  function IndexOf(moves: seq<Move>): Index {
    map f | f in Origins(moves) :: Destinations(moves, f)
  }

  lemma {:induction false} DestinationsSnoc(moves: seq<Move>, m: Move, f: Square)
    ensures Destinations(moves + [m], f) == Destinations(moves, f) + (if m.from == f then [m.to] else [])
  {
    if moves != [] {
      assert (moves + [m])[1..] == moves[1..] + [m];
      DestinationsSnoc(moves[1..], m, f);
    }
  }

  /** A square has destinations exactly when some move starts there. */
  lemma {:induction false} DestinationsNonEmpty(moves: seq<Move>, f: Square)
    ensures Destinations(moves, f) != [] <==> f in Origins(moves)
  {
    if moves != [] {
      DestinationsNonEmpty(moves[1..], f);
      assert f in Origins(moves[1..]) ==> f in Origins(moves) by {
        forall m | m in moves[1..] ensures m in moves { }
      }
      assert f in Origins(moves) && moves[0].from != f ==> f in Origins(moves[1..]) by {
        if f in Origins(moves) && moves[0].from != f {
          var m :| m in moves && m.from == f;
          assert m != moves[0];
          assert m in moves[1..];
        }
      }
    }
  }

  /** Every destination listed for `f` is the target of a move from `f`, and vice versa. */
  lemma {:induction false} DestinationsSound(moves: seq<Move>, f: Square, t: Square)
    ensures t in Destinations(moves, f) <==> exists m :: m in moves && m.from == f && m.to == t
  {
    if moves != [] {
      DestinationsSound(moves[1..], f, t);
      if t in Destinations(moves[1..], f) {
        var m :| m in moves[1..] && m.from == f && m.to == t;
        assert m in moves;
      }
      if exists m :: m in moves && m.from == f && m.to == t {
        var m :| m in moves && m.from == f && m.to == t;
        if m != moves[0] {
          assert m in moves[1..];
        }
      }
    }
  }

  /**
   * Builds the index the way `legalMovesSummary`/`groupLegal` do: walk the moves in order,
   * open an empty list for a new origin, and push the destination.
   */
  method Group(moves: seq<Move>) returns (index: Index)
    ensures index.Keys == Origins(moves)
    ensures forall f :: f in index ==> index[f] == Destinations(moves, f) && index[f] != []
    ensures index == IndexOf(moves)
  {
    index := map[];
    var i := 0;
    while i < |moves|
      invariant 0 <= i <= |moves|
      invariant index.Keys == Origins(moves[..i])
      invariant forall f :: f in index ==> index[f] == Destinations(moves[..i], f)
    {
      var m := moves[i];
      if m.from !in index {
        index := index[m.from := []];
      }
      index := index[m.from := index[m.from] + [m.to]];
      assert moves[..i + 1] == moves[..i] + [m];
      forall f | f in index
        ensures index[f] == Destinations(moves[..i + 1], f)
      {
        DestinationsSnoc(moves[..i], m, f);
        if f != m.from && f !in Origins(moves[..i]) {
          assert false;
        }
        if f == m.from && f !in Origins(moves[..i]) {
          DestinationsNonEmpty(moves[..i], f);
        }
      }
      i := i + 1;
    }
    assert moves[..i] == moves;
    forall f | f in index ensures index[f] != [] {
      DestinationsNonEmpty(moves, f);
    }
  }
}
