/**
 * `fenToBoard` of the board component: the piece-placement field of a FEN string (the
 * Forsyth-Edwards Notation of section 16.1.3.1 of the PGN Standard) turned into rows of
 * cells, a digit standing for that many empty squares.
 */
module Fen {
  import opened Wrappers

  /** A board cell: `null` for an empty square, otherwise the piece letter. */
  type Cell = Option<char>

  /** `s.split(sep)` with a one-character separator. */
  function Split(s: string, sep: char): (parts: seq<string>)
    ensures |parts| >= 1
    ensures forall i :: 0 <= i < |parts| ==> sep !in parts[i]
  {
    if s == [] then [""]
    else
      var rest := Split(s[1..], sep);
      if s[0] == sep then [""] + rest
      else [[s[0]] + rest[0]] + rest[1..]
  }

  /** `parts.join(sep)`. */
  function Join(parts: seq<string>, sep: char): string
    requires |parts| >= 1
  {
    if |parts| == 1 then parts[0] else parts[0] + [sep] + Join(parts[1..], sep)
  }

  /** Splitting loses nothing: joining the pieces with the separator gives the string back. */
  lemma {:induction false} JoinSplit(s: string, sep: char)
    ensures Join(Split(s, sep), sep) == s
  {
    if s != [] {
      JoinSplit(s[1..], sep);
      var rest := Split(s[1..], sep);
      if s[0] == sep {
        assert Split(s, sep)[1..] == rest;
      } else {
        var parts := Split(s, sep);
        if |rest| == 1 {
          assert parts == [[s[0]] + rest[0]];
        } else {
          assert parts[1..] == rest[1..];
          assert Join(rest, sep) == rest[0] + [sep] + Join(rest[1..], sep);
        }
      }
    }
  }

  /** Joining separator-free pieces and splitting again gives the pieces back. */
  lemma {:induction false} SplitJoin(parts: seq<string>, sep: char)
    requires |parts| >= 1
    requires forall i :: 0 <= i < |parts| ==> sep !in parts[i]
    ensures Split(Join(parts, sep), sep) == parts
  {
    if |parts| == 1 {
      SplitPiece(parts[0], sep, []);
    } else {
      SplitJoin(parts[1..], sep);
      SplitPiece(parts[0], sep, Join(parts[1..], sep));
    }
  }

  /** A separator-free prefix followed by the separator (or nothing) is split off as one piece. */
  lemma {:induction false} SplitPiece(w: string, sep: char, t: string)
    requires sep !in w
    ensures t == [] ==> Split(w, sep) == [w]
    ensures Split(w + [sep] + t, sep) == [w] + Split(t, sep)
  {
    if w == [] {
      assert [sep] + t == w + [sep] + t;
      assert ([sep] + t)[1..] == t;
    } else {
      assert (w + [sep] + t)[1..] == w[1..] + [sep] + t;
      assert w[1..] + [] == w[1..];
      SplitPiece(w[1..], sep, t);
      assert w == [w[0]] + w[1..];
    }
  }

  /** The ranks a FEN string describes: the first space-separated field, split at '/'. */
  function Ranks(fen: string): (rs: seq<string>)
    ensures |rs| >= 1
    ensures forall i :: 0 <= i < |rs| ==> '/' !in rs[i]
  {
    Split(Split(fen, ' ')[0], '/')
  }

  /** `/\d/.test(ch)`. */
  function IsDigit(ch: char): (d: bool)
    ensures d <==> 0 <= ch as int - '0' as int < 10
  {
    '0' <= ch <= '9'
  }

  /** What one character of a rank stands for: a digit d gives d empty cells, anything else itself. */
  function CellsOf(ch: char): (r: seq<Cell>)
    ensures forall c :: c in r ==> (c == None <==> IsDigit(ch))
    ensures forall c :: c in r ==> c == None || c == Some(ch)
    ensures !IsDigit(ch) ==> |r| == 1
  {
    if IsDigit(ch) then seq(ch as int - '0' as int, _ => None) else [Some(ch)]
  }

  /** The cells of a rank, character by character, left to right. */
  function Expand(rank: string): (r: seq<Cell>)
    ensures forall c :: c in r && c.Some? ==> c.value in rank && !IsDigit(c.value)
  {
    if rank == [] then [] else CellsOf(rank[0]) + Expand(rank[1..])
  }

  /** The number of squares a rank covers: each digit its value, each other character one. */
  function Width(rank: string): nat {
    if rank == [] then 0 else (if IsDigit(rank[0]) then rank[0] as int - '0' as int else 1) + Width(rank[1..])
  }

  lemma {:induction false} ExpandAppend(a: string, b: string)
    ensures Expand(a + b) == Expand(a) + Expand(b)
  {
    if a == [] {
      assert a + b == b;
    } else {
      assert (a + b)[1..] == a[1..] + b;
      ExpandAppend(a[1..], b);
    }
  }

  /** A rank expands to as many cells as it covers squares. */
  lemma {:induction false} ExpandWidth(rank: string)
    ensures |Expand(rank)| == Width(rank)
  {
    if rank != [] {
      ExpandWidth(rank[1..]);
    }
  }

  /** `for (let i = 0; i < n; i++) row.push(null)`. */
  method PushEmpty(row: seq<Cell>, n: nat) returns (r: seq<Cell>)
    ensures r == row + seq(n, _ => None)
  {
    r := row;
    var j := 0;
    while j < n
      invariant 0 <= j <= n
      invariant r == row + seq(j, _ => None)
    {
      r := r + [None];
      j := j + 1;
    }
  }

  /**
   * The inner loop of `fenToBoard`: for each character, push `null` d times for a digit d,
   * otherwise push the character.
   */
  method ExpandRank(rank: string) returns (row: seq<Cell>)
    ensures row == Expand(rank)
    ensures |row| == Width(rank)
  {
    row := [];
    var k := 0;
    while k < |rank|
      invariant 0 <= k <= |rank|
      invariant row == Expand(rank[..k])
    {
      var ch := rank[k];
      ghost var before := row;
      if IsDigit(ch) {
        row := PushEmpty(row, ch as int - '0' as int);
      } else {
        row := row + [Some(ch)];
      }
      assert row == before + CellsOf(ch);
      assert rank[..k + 1] == rank[..k] + [ch];
      ExpandAppend(rank[..k], [ch]);
      k := k + 1;
    }
    assert rank[..k] == rank;
    ExpandWidth(rank);
  }

  /** `fenToBoard`: one row per rank of the placement field, each rank expanded. */
  method FenToBoard(fen: string) returns (board: seq<seq<Cell>>)
    ensures |board| == |Ranks(fen)|
    ensures forall i :: 0 <= i < |board| ==> board[i] == Expand(Ranks(fen)[i])
  {
    var rows := Split(Split(fen, ' ')[0], '/');
    board := [];
    var i := 0;
    while i < |rows|
      invariant 0 <= i <= |rows|
      invariant |board| == i
      invariant forall j :: 0 <= j < i ==> board[j] == Expand(rows[j])
    {
      var row := ExpandRank(rows[i]);
      board := board + [row];
      i := i + 1;
    }
  }

  /** A placement field whose every rank covers eight squares yields rows of eight cells. */
  lemma RowsOfEight(fen: string)
    requires forall i :: 0 <= i < |Ranks(fen)| ==> Width(Ranks(fen)[i]) == 8
    ensures forall i :: 0 <= i < |Ranks(fen)| ==> |Expand(Ranks(fen)[i])| == 8
  {
    forall i | 0 <= i < |Ranks(fen)| ensures |Expand(Ranks(fen)[i])| == 8 {
      ExpandWidth(Ranks(fen)[i]);
    }
  }

  /** The ranks of the standard starting position, from black's back rank (rank 8) down. */
  const StartRanksList: seq<string> := ["rnbqkbnr", "pppppppp", "8", "8", "8", "8", "PPPPPPPP", "RNBQKBNR"]

  /**
   * The FEN of the standard starting position, which `new Chess().fen()` returns:
   * "rnbqkbnr/pppppppp/8/8/8/8/PPPPPPPP/RNBQKBNR w KQkq - 0 1", written as the ranks joined by '/'.
   */
  const StartFen: string :=
    "rnbqkbnr" + ['/'] + ("pppppppp" + ['/'] + ("8" + ['/'] + ("8" + ['/'] + ("8" + ['/'] + ("8" + ['/'] +
    ("PPPPPPPP" + ['/'] + "RNBQKBNR")))))) + [' '] + "w KQkq - 0 1"

  /** Eight ranks free of separators, joined by '/' and followed by a space-separated tail, split back apart. */
  lemma {:induction false} EightRanks(w: seq<string>, tail: string)
    requires |w| == 8
    requires forall i :: 0 <= i < 8 ==> '/' !in w[i] && ' ' !in w[i]
    ensures Ranks(w[0] + ['/'] + (w[1] + ['/'] + (w[2] + ['/'] + (w[3] + ['/'] + (w[4] + ['/'] + (w[5] + ['/'] +
      (w[6] + ['/'] + w[7])))))) + [' '] + tail) == w
  {
    var t0 := w[0] + ['/'] + (w[1] + ['/'] + (w[2] + ['/'] + (w[3] + ['/'] + (w[4] + ['/'] + (w[5] + ['/'] +
      (w[6] + ['/'] + w[7]))))));
    assert Join(w, '/') == t0 by {
      assert Join(w[6..], '/') == w[6] + ['/'] + w[7];
      assert Join(w[5..], '/') == w[5] + ['/'] + Join(w[6..], '/');
      assert Join(w[4..], '/') == w[4] + ['/'] + Join(w[5..], '/');
      assert Join(w[3..], '/') == w[3] + ['/'] + Join(w[4..], '/');
      assert Join(w[2..], '/') == w[2] + ['/'] + Join(w[3..], '/');
      assert Join(w[1..], '/') == w[1] + ['/'] + Join(w[2..], '/');
    }
    JoinSpaceFree(w, '/', ' ');
    SplitPiece(t0, ' ', tail);
    SplitJoin(w, '/');
  }

  /** Joining pieces free of a second character with a separator other than it leaves that character out. */
  lemma {:induction false} JoinSpaceFree(parts: seq<string>, sep: char, c: char)
    requires |parts| >= 1 && sep != c
    requires forall i :: 0 <= i < |parts| ==> c !in parts[i]
    ensures c !in Join(parts, sep)
  {
    if |parts| > 1 {
      JoinSpaceFree(parts[1..], sep, c);
    }
  }

  /** Splitting the starting placement field at '/' gives its eight ranks. */
  lemma StartRanks()
    ensures Ranks(StartFen) == StartRanksList
  {
    EightRanks(StartRanksList, "w KQkq - 0 1");
  }

  // The four ranks of the starting position that hold pieces each cover eight squares.

  lemma BlackPiecesWidth()
    ensures Width("rnbqkbnr") == 8
  {
  }

  lemma BlackPawnsWidth()
    ensures Width("pppppppp") == 8
  {
  }

  lemma WhitePawnsWidth()
    ensures Width("PPPPPPPP") == 8
  {
  }

  lemma WhitePiecesWidth()
    ensures Width("RNBQKBNR") == 8
  {
  }

  /** The standard starting FEN, rendered by `fenToBoard`, has eight rows of eight cells. */
  lemma StartBoardIsEightByEight()
    ensures |Ranks(StartFen)| == 8
    ensures forall i :: 0 <= i < 8 ==> |Expand(Ranks(StartFen)[i])| == 8
  {
    StartRanks();
    var rs := StartRanksList;
    forall i | 0 <= i < 8 ensures |Expand(rs[i])| == 8 {
      ExpandWidth(rs[i]);
      if i == 0 {
        BlackPiecesWidth();
      } else if i == 1 {
        BlackPawnsWidth();
      } else if i == 6 {
        WhitePawnsWidth();
      } else if i == 7 {
        WhitePiecesWidth();
      } else {
        assert rs[i] == "8";
      }
    }
  }
}
