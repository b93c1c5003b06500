/**
 * `pickBotMove`, the move chooser of the offline opponent: among the legal moves it prefers
 * promotions, then captures, then anything, and picks uniformly at random inside the
 * preferred group. The random source is a parameter `r`, the value `Math.random()` returned.
 */
module Bot {
  import opened Wrappers
  import opened Chess

  /** `Math.floor(r * n)` for `r` in [0, 1): always an index into a list of length `n`. */
  function RandomIndex(r: real, n: nat): (i: nat)
    requires 0.0 <= r < 1.0 && n > 0
    ensures i < n
  {
    var x := r * n as real;
    assert 0.0 <= x < n as real by {
      assert r * n as real < 1.0 * n as real;
    }
    x.Floor
  }

  /** Every index is drawn by some `r`: `i / n` itself. */
  lemma {:induction false} RandomIndexOnto(i: nat, n: nat)
    requires i < n
    ensures var r := i as real / n as real; 0.0 <= r < 1.0 && RandomIndex(r, n) == i
  {
    var r := i as real / n as real;
    assert r * n as real == i as real;
  }

  /** `moves.filter(m => m.promotion)`. */
  function Promotions(moves: seq<Move>): (r: seq<Move>)
    ensures forall m :: m in r <==> m in moves && Truthy(m.promotion)
  {
    if moves == [] then []
    else (if Truthy(moves[0].promotion) then [moves[0]] else []) + Promotions(moves[1..])
  }

  /** `moves.filter(m => m.flags.includes("c"))`. */
  function Captures(moves: seq<Move>): (r: seq<Move>)
    ensures forall m :: m in r <==> m in moves && m.capture
  {
    if moves == [] then []
    else (if moves[0].capture then [moves[0]] else []) + Captures(moves[1..])
  }

  /** The group the bot draws from: promotions if any, else captures if any, else every move. */
  function Candidates(moves: seq<Move>): (r: seq<Move>)
    ensures forall m :: m in r ==> m in moves
    ensures r == [] <==> moves == []
    ensures (exists m :: m in moves && Truthy(m.promotion)) ==> forall c :: c in r ==> Truthy(c.promotion)
    ensures (forall m :: m in moves ==> !Truthy(m.promotion)) && (exists m :: m in moves && m.capture) ==>
      forall c :: c in r ==> c.capture
    ensures Promotions(moves) != [] ==> r == Promotions(moves)
    ensures Promotions(moves) == [] && Captures(moves) != [] ==> r == Captures(moves)
    ensures Promotions(moves) == [] && Captures(moves) == [] ==> r == moves
  {
    if Promotions(moves) != [] then Promotions(moves)
    else if Captures(moves) != [] then Captures(moves)
    else moves
  }

  /** `pickBotMove(chess)` on the list `chess.moves({verbose: true})`, with `Math.random()` returning `r`. */
  function PickBotMove(moves: seq<Move>, r: real): (pick: Option<Move>)
    requires 0.0 <= r < 1.0
    ensures pick.None? <==> moves == []
    ensures pick.Some? ==> pick.value in moves
    ensures (exists m :: m in moves && Truthy(m.promotion)) ==> pick.Some? && Truthy(pick.value.promotion)
    ensures (forall m :: m in moves ==> !Truthy(m.promotion)) && (exists m :: m in moves && m.capture) ==>
      pick.Some? && pick.value.capture
  {
    if moves == [] then None
    else
      var promos := Promotions(moves);
      if |promos| > 0 then Some(promos[RandomIndex(r, |promos|)])
      else
        var captures := Captures(moves);
        if |captures| > 0 then Some(captures[RandomIndex(r, |captures|)])
        else Some(moves[RandomIndex(r, |moves|)])
  }

  /**
   * The preference is the whole story: every move of the preferred group is the pick for some
   * value of the random source, so nothing else is excluded.
   */
  lemma BotCanPickAnyCandidate(moves: seq<Move>, m: Move)
    requires m in Candidates(moves)
    ensures exists r :: 0.0 <= r < 1.0 && PickBotMove(moves, r) == Some(m)
  {
    var cs := Candidates(moves);
    var i :| 0 <= i < |cs| && cs[i] == m;
    RandomIndexOnto(i, |cs|);
    var r := i as real / |cs| as real;
    assert PickBotMove(moves, r) == Some(cs[RandomIndex(r, |cs|)]);
  }

  /** And the pick always comes from the preferred group. */
  lemma BotPicksACandidate(moves: seq<Move>, r: real)
    requires 0.0 <= r < 1.0 && moves != []
    ensures PickBotMove(moves, r).value in Candidates(moves)
  {
  }
}
