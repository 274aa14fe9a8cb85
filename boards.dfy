/** The 8x8 integer board of the engine and the square queries on it:
    `set_piece`, `what_in`, `search_for`, `assess_empty_squares` and the
    standard initial position (src/neuralcheck/logic.py:92-157, 505-520). */
module Boards {
  import opened Pieces
  import opened Squares

  type Board = seq<seq<int>>

  predicate IsBoard(b: Board)
  {
    |b| == 8 && forall r :: 0 <= r < 8 ==> |b[r]| == 8
  }

  /** Every entry is a piece code or 0. */
  predicate ValidBoard(b: Board)
  {
    IsBoard(b) && forall r, c :: 0 <= r < 8 && 0 <= c < 8 ==> -6 <= b[r][c] <= 6
  }

  /** numpy indexing of a row: a negative index counts from the end. */
  function Wrap(x: int): (r: int)
    requires -8 <= x < 8
    ensures 0 <= r < 8 && (0 <= x ==> r == x)
  {
    if x < 0 then x + 8 else x
  }

  predicate Indexable(p: Pos) { -8 <= p.x < 8 && 0 <= p.y < 8 }

  /** `self.board[x, y]`. */
  function At(b: Board, p: Pos): int
    requires IsBoard(b) && Indexable(p)
  {
    b[Wrap(p.x)][p.y]
  }

  /** `self.board[x, y] = v`. */
  function SetAt(b: Board, p: Pos, v: int): (r: Board)
    requires IsBoard(b) && Indexable(p)
    ensures IsBoard(r)
    ensures At(r, p) == v
    ensures forall q {:trigger At(r, q)} :: Indexable(q) && Wrap(q.x) != Wrap(p.x) ==> At(r, q) == At(b, q)
    ensures forall q {:trigger At(r, q)} :: Indexable(q) && q.y != p.y ==> At(r, q) == At(b, q)
    ensures ValidBoard(b) && -6 <= v <= 6 ==> ValidBoard(r)
  {
    b[Wrap(p.x) := b[Wrap(p.x)][p.y := v]]
  }

  /** The descriptor `what_in` returns: a piece, or the colour of an empty square. */
  datatype Content = Occupied(piece: Piece) | EmptySquare(light: bool)

  function WhatIn(b: Board, p: Pos): (c: Content)
    requires ValidBoard(b) && Indexable(p)
    ensures c.EmptySquare? <==> At(b, p) == 0
    ensures c.Occupied? ==> Code(c.piece) == At(b, p)
    ensures c.EmptySquare? ==> (c.light <==> (p.x + p.y) % 2 == 0)
  {
    var v := At(b, p);
    match Decode(v)
    case Some(pc) => CodeDecode(v); Occupied(pc)
    case None => EmptySquare((p.x + p.y) % 2 == 0)
  }

  /** `search_for`: every square holding the piece, in board scan order. */
  function SearchFor(b: Board, pc: Piece): (r: seq<Pos>)
    requires IsBoard(b)
    ensures forall q {:trigger q in r} :: q in r ==> OnBoard(q) && At(b, q) == Code(pc)
    ensures forall q {:trigger At(b, q)} :: OnBoard(q) && At(b, q) == Code(pc) ==> q in r
    ensures forall i, j :: 0 <= i < j < |r| ==> r[i] != r[j]
  {
    var r := SearchFrom(b, Code(pc), 0);
    SearchDistinct(b, Code(pc), 0);
    forall q | OnBoard(q) && At(b, q) == Code(pc) ensures q in r {
      assert ScanPos(ScanIndex(q)) == q;
    }
    r
  }

  function SearchFrom(b: Board, v: int, k: int): (r: seq<Pos>)
    requires IsBoard(b) && 0 <= k <= 64
    ensures forall q :: q in r ==> OnBoard(q) && At(b, q) == v
    ensures forall j :: k <= j < 64 && At(b, ScanPos(j)) == v ==> ScanPos(j) in r
    decreases 64 - k, b
  {
    if k == 64 then []
    else
      var rest := SearchFrom(b, v, k + 1);
      if At(b, ScanPos(k)) == v then [ScanPos(k)] + rest else rest
  }

  /** The squares listed from scan index k on lie at index k or later. */
  lemma {:induction false} SearchAfter(b: Board, v: int, k: int)
    requires IsBoard(b) && 0 <= k <= 64
    ensures forall q :: q in SearchFrom(b, v, k) ==> OnBoard(q) && k <= ScanIndex(q)
    decreases 64 - k
  {
    if k < 64 {
      SearchAfter(b, v, k + 1);
      assert ScanIndex(ScanPos(k)) == k;
    }
  }

  /** No square is listed twice. */
  lemma {:induction false} SearchDistinct(b: Board, v: int, k: int)
    requires IsBoard(b) && 0 <= k <= 64
    ensures forall i, j :: 0 <= i < j < |SearchFrom(b, v, k)| ==> SearchFrom(b, v, k)[i] != SearchFrom(b, v, k)[j]
    decreases 64 - k
  {
    if k < 64 {
      SearchDistinct(b, v, k + 1);
      var p := ScanPos(k);
      var rest := SearchFrom(b, v, k + 1);
      if At(b, p) == v {
        SearchAfter(b, v, k + 1);
        assert ScanIndex(p) == k;
        assert SearchFrom(b, v, k) == [p] + rest;
        ConsDistinct(p, rest);
      }
    }
  }

  /** A fresh element in front of a list without repetitions keeps it so. */
  lemma ConsDistinct(p: Pos, rest: seq<Pos>)
    requires p !in rest
    requires forall i, j :: 0 <= i < j < |rest| ==> rest[i] != rest[j]
    ensures forall i, j :: 0 <= i < j < |[p] + rest| ==> ([p] + rest)[i] != ([p] + rest)[j]
  {
    var r := [p] + rest;
    forall i, j | 0 <= i < j < |r| ensures r[i] != r[j] {
      assert r[j] == rest[j - 1] && rest[j - 1] in rest;
      if i > 0 {
        assert r[i] == rest[i - 1];
      }
    }
  }

  /** `assess_empty_squares`: one flag per target, true when it is empty. */
  function EmptySquares(b: Board, targets: seq<Pos>): (r: seq<bool>)
    requires IsBoard(b) && forall i :: 0 <= i < |targets| ==> 0 <= targets[i].x < 8 && 0 <= targets[i].y < 8
    ensures |r| == |targets|
    ensures forall i :: 0 <= i < |r| ==> (r[i] <==> At(b, targets[i]) == 0)
  {
    if targets == [] then [] else [At(b, targets[0]) == 0] + EmptySquares(b, targets[1..])
  }

  predicate AllEmpty(b: Board, targets: seq<Pos>)
    requires IsBoard(b) && forall i :: 0 <= i < |targets| ==> 0 <= targets[i].x < 8 && 0 <= targets[i].y < 8
  {
    forall i :: 0 <= i < |targets| ==> At(b, targets[i]) == 0
  }

  /** The empty board `clear_board` installs. */
  function EmptyBoard(): (b: Board)
    ensures ValidBoard(b)
    ensures forall q {:trigger At(b, q)} :: Indexable(q) ==> At(b, q) == 0
  {
    var row := [0, 0, 0, 0, 0, 0, 0, 0];
    [row, row, row, row, row, row, row, row]
  }

  /** The standard opening position the constructor loads. */
  function InitialBoard(): (b: Board)
    ensures ValidBoard(b)
  {
    [[-4, -2, -3, -5, -6, -3, -2, -4],
     [-1, -1, -1, -1, -1, -1, -1, -1],
     [ 0,  0,  0,  0,  0,  0,  0,  0],
     [ 0,  0,  0,  0,  0,  0,  0,  0],
     [ 0,  0,  0,  0,  0,  0,  0,  0],
     [ 0,  0,  0,  0,  0,  0,  0,  0],
     [ 1,  1,  1,  1,  1,  1,  1,  1],
     [ 4,  2,  3,  5,  6,  3,  2,  4]]
  }
}
