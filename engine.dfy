/** The `ChessBoard` class (src/neuralcheck/logic.py): its fields are updated
    in place by `set_piece`, `clear_board`, `raycast`, the loops of
    `remove_illegal` and `calculate_possible_moves`, `assess_king_status`,
    `make_move` and `go2`. Each method is proved to leave the fields as the
    corresponding transition of modules MoveGen and Game prescribes. */
module Engine {
  import opened Pieces
  import opened Squares
  import opened Boards
  import opened Fen
  import opened MoveGen
  import opened Notation
  import opened Game

  class ChessBoard {
    /** The 8x8 numpy board. */
    var board: array2<int>
    /** The entries of `board` as rows of the value model. */
    ghost var cells: Board
    var whiteTurn: bool
    var flags: CastleFlags
    var last: LastTurn
    /** `possible_moves`. */
    var cache: Cache
    /** `pinned_pieces`. */
    var pinned: seq<Pos>
    var history: seq<HistoryEntry>
    var pointer: (int, bool)
    var initializing: bool

    /** The board's entries as rows, kept in step with `board`. */
    ghost predicate Synced()
      reads this`board, this`cells, board
    {
      board.Length0 == 8 && board.Length1 == 8 && IsBoard(cells)
      && forall i, j :: 0 <= i < 8 && 0 <= j < 8 ==> cells[i][j] == board[i, j]
    }

    /** The fields as one value of the transition model. */
    ghost function Fields(): Game.State
      reads this
    {
      Game.State(cells, whiteTurn, flags, last, cache, pinned, history, pointer, initializing)
    }

    /** The fields move generation reads. */
    ghost function Ctx(): Ctx
      reads this`cells, this`whiteTurn, this`flags, this`last, this`cache, this`initializing
      ensures Ctx() == CtxOf(Fields())
    {
      MoveGen.Ctx(cells, whiteTurn, flags, last, cache, initializing)
    }

    /** `Ctx()` copied out of the array, for the steps that hand the whole
        position to the value model. */
    function Snapshot(): (c: Ctx)
      reads this`board, this`cells, this`whiteTurn, this`flags, this`last, this`cache, this`initializing, board
      requires Synced()
      ensures c == Ctx()
    {
      RowsOfBoard(board, cells);
      MoveGen.Ctx(RowsFrom(board, 0), whiteTurn, flags, last, cache, initializing)
    }

    /** An 8x8 board of piece codes, a cache of on-board keys and targets,
        and a last move that landed on a target square. */
    ghost predicate Valid()
      reads this`board, this`cells, this`whiteTurn, this`flags, this`last, this`cache, this`initializing, board
    {
      Synced() && ValidCtx(Ctx())
    }

    // ---------------------------------------------------------------------
    // set_piece and clear_board

    /** `set_piece`: one entry of the board written in place. */
    method SetPiece(pc: Option<Piece>, p: Pos)
      requires Valid() && Indexable(p)
      modifies board, this`cells
      ensures Valid()
      ensures Fields() == old(Fields()).(board := PutPiece(old(cells), pc, p))
    {
      var v := if pc.Some? then Code(pc.value) else 0;
      board[Wrap(p.x), p.y] := v;
      ghost var before := cells;
      cells := PutPiece(before, pc, p);
      forall i, j | 0 <= i < 8 && 0 <= j < 8 ensures cells[i][j] == board[i, j] {
        if i == Wrap(p.x) && j == p.y {
          assert At(cells, p) == v;
        } else {
          assert At(cells, Pos(i, j)) == At(before, Pos(i, j));
        }
      }
    }

    /** `clear_board`: a fresh zero board, no history, the empty `last_turn`,
      all castle flags down. */
    method ClearBoard()
      requires Valid()
      modifies this
      ensures Valid() && fresh(board)
      ensures Fields() == Game.Cleared(old(Fields()))
    {
      board := new int[8, 8]((i, j) => 0);
      cells := EmptyBoard();
      history := [];
      last := LastTurn.Cleared;
      flags := NoFlags;
      forall i, j | 0 <= i < 8 && 0 <= j < 8 ensures cells[i][j] == board[i, j] {
        assert At(cells, Pos(i, j)) == 0;
      }
    }

    // ---------------------------------------------------------------------
    // raycast

    /** `raycast`: the moves along each vector, appending to `pinned_pieces`
        each captured piece with the enemy king behind it. */
    method Raycast(x: int, y: int, vectors: seq<Pos>, white: bool, removeOwn: bool) returns (moves: seq<Pos>)
      requires Synced()
      modifies this`pinned
      ensures Gen(moves, pinned) == MoveGen.Raycast(cells, x, y, vectors, white, removeOwn, old(pinned))
    {
      moves := [];
      var s := ColorOf(white).Sign();
      ghost var b := cells;
      ghost var whole := MoveGen.Raycast(b, x, y, vectors, white, removeOwn, pinned);
      assert vectors[0..] == vectors;
      var v := 0;
      while v < |vectors|
        invariant 0 <= v <= |vectors|
        invariant cells == b
        invariant whole == Gen(moves + MoveGen.Raycast(b, x, y, vectors[v..], white, removeOwn, pinned).moves,
                               MoveGen.Raycast(b, x, y, vectors[v..], white, removeOwn, pinned).pinned)
      {
        RaycastAdvance(b, x, y, vectors, v, white, removeOwn, whole, moves, pinned);
        var along := CastRay(x, y, vectors[v], s, removeOwn);
        moves := moves + along;
        v := v + 1;
      }
      assert vectors[v..] == [];
    }

    /** The `i` loop of `raycast` along one vector d: empty squares and the
        first enemy are entered, a friendly piece only when own pieces are
        kept; the ray stops at the first piece or the edge. */
    method CastRay(x: int, y: int, d: Pos, s: int, removeOwn: bool) returns (moves: seq<Pos>)
      requires Synced()
      modifies this`pinned
      ensures Gen(moves, pinned) == RayFrom(cells, x, y, d, 1, s, removeOwn, old(pinned))
    {
      ghost var b := cells;
      ghost var ray := RayFrom(b, x, y, d, 1, s, removeOwn, pinned);
      ghost var rest := ray;
      moves := [];
      var i := 1;
      while i < 8
        invariant 1 <= i <= 8
        invariant cells == b
        invariant rest == RayFrom(b, x, y, d, i, s, removeOwn, pinned)
        invariant ray == Gen(moves + rest.moves, rest.pinned)
      {
        var xp, yp := x + Along(i, d.x), y + Along(i, d.y);
        var off := Pos(Along(i, d.x), Along(i, d.y));
        if !(0 <= xp < 8 && 0 <= yp < 8) {
          RayAdvance(b, x, y, d, i, s, removeOwn, Pos(xp, yp), off, 0, ray, moves, pinned);
          break;
        }
        var here := Orient(s, board[xp, yp]);
        RayAdvance(b, x, y, d, i, s, removeOwn, Pos(xp, yp), off, here, ray, moves, pinned);
        if here < 0 {
          moves := moves + [off];
          ScanForKing(x, y, d, Pos(xp, yp), i + 1, s);
          break;
        } else if here > 0 {
          if !removeOwn {
            moves := moves + [off];
          }
          break;
        }
        rest := RayFrom(b, x, y, d, i + 1, s, removeOwn, pinned);
        moves := moves + [off];
        i := i + 1;
      }
    }

    // ---------------------------------------------------------------------
    // The loops of remove_illegal

    /** The first `while` loop of `remove_illegal`: a vector leaving the
        board is deleted in place, and so is one onto a friendly piece when
        own pieces are removed; otherwise the index moves on. */
    method FilterVectors(x: int, y: int, vectors: seq<Pos>, s: int, removeOwn: bool) returns (kept: seq<Pos>)
      requires Synced()
      ensures kept == FilterOwn(cells, x, y, vectors, s, removeOwn)
    {
      ghost var b := cells;
      kept := vectors;
      var i := 0;
      while i < |kept|
        invariant 0 <= i <= |kept|
        invariant kept[..i] + FilterOwn(b, x, y, kept[i..], s, removeOwn) == FilterOwn(b, x, y, vectors, s, removeOwn)
      {
        var d := kept[i];
        ghost var tail := kept[i + 1..];
        assert kept[i..] == [d] + tail;
        if !(0 <= x + d.x < 8 && 0 <= y + d.y < 8) {
          kept := kept[..i] + kept[i + 1..];
          assert kept[..i] + kept[i..] == kept[..i] + tail;
        } else if Orient(s, board[x + d.x, y + d.y]) > 0 && removeOwn {
          assert At(b, Add(Pos(x, y), d)) == board[x + d.x, y + d.y];
          kept := kept[..i] + kept[i + 1..];
          assert kept[..i] + kept[i..] == kept[..i] + tail;
        } else {
          assert At(b, Add(Pos(x, y), d)) == board[x + d.x, y + d.y];
          assert kept[..i + 1] == kept[..i] + [d];
          i := i + 1;
        }
      }
      assert kept[..i] == kept;
    }

    /** The last king loop of `remove_illegal`: a vector landing on an
        attacked square is deleted in place. */
    method DropAttacked(x: int, y: int, vectors: seq<Pos>, enemy: set<Pos>) returns (kept: seq<Pos>)
      ensures kept == RemoveAttacked(x, y, vectors, enemy)
    {
      kept := vectors;
      var i := 0;
      while i < |kept|
        invariant 0 <= i <= |kept|
        invariant kept[..i] + RemoveAttacked(x, y, kept[i..], enemy) == RemoveAttacked(x, y, vectors, enemy)
      {
        var d := kept[i];
        ghost var tail := kept[i + 1..];
        RemoveAttackedCons(x, y, kept, i, enemy);
        if Add(Pos(x, y), d) in enemy {
          kept := kept[..i] + kept[i + 1..];
          assert kept[..i] + kept[i..] == kept[..i] + tail;
        } else {
          assert kept[..i + 1] == kept[..i] + [d];
          i := i + 1;
        }
      }
      assert kept[..i] == kept;
    }

    /** The in-check loop of `remove_illegal`: every vector not landing on
        the attacker's square is deleted in place. */
    method KeepAttacker(x: int, y: int, vectors: seq<Pos>, a: Pos) returns (kept: seq<Pos>)
      ensures kept == KeepTarget(x, y, vectors, a)
    {
      kept := vectors;
      var i := 0;
      while i < |kept|
        invariant 0 <= i <= |kept|
        invariant kept[..i] + KeepTarget(x, y, kept[i..], a) == KeepTarget(x, y, vectors, a)
      {
        var d := kept[i];
        ghost var tail := kept[i + 1..];
        assert kept[i..] == [d] + tail;
        if Add(Pos(x, y), d) != a {
          kept := kept[..i] + kept[i + 1..];
          assert kept[..i] + kept[i..] == kept[..i] + tail;
        } else {
          assert kept[..i + 1] == kept[..i] + [d];
          i := i + 1;
        }
      }
      assert kept[..i] == kept;
    }

    // ---------------------------------------------------------------------
    // remove_illegal, allowed_movements, calculate_possible_moves and
    // assess_ataqued_squares call one another; each is proved to answer what
    // its MoveGen counterpart prescribes and to leave `pinned_pieces` as it
    // does.

    /** `remove_illegal`. */
    method RemoveIllegal(x: int, y: int, vectors: seq<Pos>, inCheck: bool, white: bool, isKing: bool, removeOwn: bool)
      returns (r: Outcome<seq<Pos>>)
      requires Valid()
      modifies this`pinned
      ensures Agrees(r, MoveGen.RemoveIllegal(Ctx(), x, y, vectors, inCheck, white, isKing, removeOwn, old(pinned)), pinned)
      decreases if removeOwn then 1 else 0, 1
    {
      ghost var c := Ctx();
      ghost var p0 := pinned;
      var s := if white then 1 else -1;
      var v1 := FilterVectors(x, y, vectors, s, removeOwn);
      assert v1 == FilterOwn(c.board, x, y, vectors, ColorOf(white).Sign(), removeOwn);
      if !removeOwn {
        RemoveIllegalOwn(c, x, y, vectors, inCheck, white, isKing, p0);
        return Ok(v1);
      }
      var enemy: set<Pos>;
      if initializing {
        enemy := {};
      } else {
        var att := AssessAttackedSquares(!white);
        assert Ctx() == c;
        if att.Crash? {
          RemoveIllegalNoAttack(c, x, y, vectors, inCheck, white, isKing, p0);
          return Crash;
        }
        enemy := att.value;
        assert Attacked(c, !white, p0) == Ok(Attack(enemy, pinned));
      }
      RemoveIllegalAttacked(c, x, y, vectors, inCheck, white, isKing, p0, enemy, pinned);
      ghost var p1 := pinned;
      r := Settle(x, y, v1, inCheck, white, isKing, enemy);
      assert Ctx() == c;
      assert Agrees(r, Settled(c, x, y, v1, inCheck, white, isKing, enemy, p1), pinned);
    }

    /** The end of `remove_illegal` once the attacked squares are known: the
        king drops attacked squares and blocked castling, a piece of a side
        in check keeps only its answers to the check. */
    method Settle(x: int, y: int, v1: seq<Pos>, inCheck: bool, white: bool, isKing: bool, enemy: set<Pos>)
      returns (r: Outcome<seq<Pos>>)
      requires Valid()
      modifies this`pinned
      ensures Agrees(r, Settled(Ctx(), x, y, v1, inCheck, white, isKing, enemy, old(pinned)), pinned)
    {
      var c := Snapshot();
      ghost var p0 := pinned;
      if isKing {
        var v2 := if DropLong(c, white, inCheck, enemy) then RemoveAll(v1, LongCastle) else v1;
        var v3 := if DropShort(c, white, inCheck, enemy) then RemoveAll(v2, ShortCastle) else v2;
        var kept := DropAttacked(x, y, v3, enemy);
        assert Settled(c, x, y, v1, inCheck, white, isKing, enemy, p0) == Ok(Gen(kept, p0));
        r := Ok(kept);
        assert Ctx() == c;
        assert Agrees(r, Settled(c, x, y, v1, inCheck, white, isKing, enemy, p0), pinned);
      } else if inCheck {
        r := AnswerCheck(x, y, v1, white);
        assert Ctx() == c;
      } else {
        r := Ok(v1);
      }
    }

    /** The in-check part of `remove_illegal`: keep the vectors that capture
        the single attacker or block its ray. */
    method AnswerCheck(x: int, y: int, v1: seq<Pos>, white: bool) returns (r: Outcome<seq<Pos>>)
      requires Valid()
      modifies this`pinned
      ensures Agrees(r, CheckFilter(Ctx(), x, y, v1, white, old(pinned)), pinned)
    {
      var c := Snapshot();
      var answer := CheckFilter(c, x, y, v1, white, pinned);
      if answer.Crash? {
        return Crash;
      }
      pinned := answer.value.pinned;
      r := Ok(answer.value.moves);
      assert Ctx() == c;
    }

    /** One square of the nested loops of `calculate_possible_moves`: the
        destinations of the piece standing on (x, y), stored when there are
        any. */
    method ScanSquare(ghost k: int, x: int, y: int, inCheck: bool, removeOwn: bool, m: Cache) returns (r: Outcome<Cache>, added: bool)
      requires Valid() && 0 <= k < 64 && ScanPos(k) == Pos(x, y) && ValidCache(m)
      modifies this`pinned
      ensures r.Ok? ==> if added then r.value.Keys == m.Keys + {Pos(x, y)} else r.value == m
      ensures Visit(Ctx(), inCheck, removeOwn, k, m, old(pinned)) == if r.Crash? then Crash else Ok(Computed(r.value, pinned))
      decreases if removeOwn then 1 else 0, 4, 0
    {
      ghost var c := Ctx();
      assert At(c.board, Pos(x, y)) == board[x, y];
      if board[x, y] == 0 {
        return Ok(m), false;
      }
      CodeDecode(board[x, y]);
      var moves := AllowedMovements(Decode(board[x, y]).value, Pos(x, y), inCheck, false, removeOwn);
      assert Ctx() == c;
      if moves.Crash? {
        return Crash, false;
      }
      if |moves.value| > 0 {
        return Ok(m[Pos(x, y) := moves.value]), true;
      }
      return Ok(m), false;
    }

    /** `assess_ataqued_squares`: every destination of the pieces of the
        given colour, with own pieces kept. */
    method AssessAttackedSquares(white: bool) returns (r: Outcome<set<Pos>>)
      requires Valid()
      modifies this`pinned
      ensures var e := Attacked(Ctx(), white, old(pinned));
              r.Crash? == e.Crash? && (r.Ok? ==> r.value == e.value.squares && pinned == e.value.pinned)
      decreases 0, 6
    {
      var moves := CalculatePossibleMoves(false, false);
      if moves.Crash? {
        return Crash;
      }
      var squares := CollectAttacked(moves.value, white);
      return Ok(squares);
    }

    /** The loop of `assess_ataqued_squares` over the entries of the cache;
        the list it builds is used only for membership. */
    method CollectAttacked(m: Cache, white: bool) returns (squares: set<Pos>)
      requires Synced() && ValidCache(m)
      ensures squares == AttackedBy(cells, m, white)
    {
      ghost var b := cells;
      var s := if white then 1 else -1;
      squares := {};
      var rest := m.Keys;
      while rest != {}
        invariant rest <= m.Keys
        invariant squares == AttackedAmong(b, m, white, m.Keys - rest)
        decreases |rest|
      {
        var k :| k in rest;
        ghost var seen := m.Keys - rest;
        if Orient(s, board[k.x, k.y]) > 0 {
          assert At(b, k) == board[k.x, k.y];
          squares := squares + set i | 0 <= i < |m[k]| :: m[k][i];
        } else {
          assert At(b, k) == board[k.x, k.y];
        }
        AttackedAmongAdd(b, m, white, seen, k);
        assert m.Keys - (rest - {k}) == seen + {k};
        rest := rest - {k};
      }
      AttackedAmongAll(b, m, white);
    }

    /** `calculate_possible_moves`: the nested loops over the board fill the
        cache square by square in scan order; then the keys that are pinned
        are deleted. */
    method CalculatePossibleMoves(inCheck: bool, removeOwn: bool) returns (r: Outcome<Cache>)
      requires Valid()
      modifies this`pinned
      ensures var e := Calc(Ctx(), inCheck, removeOwn, old(pinned));
              r.Crash? == e.Crash? && (r.Ok? ==> r.value == e.value.moves && pinned == e.value.pinned)
      ensures r.Ok? ==> ValidCache(r.value)
      decreases if removeOwn then 1 else 0, 5
    {
      ghost var c := Ctx();
      ghost var p0 := pinned;
      ghost var whole := CalcFrom(c, inCheck, removeOwn, 0, map[], pinned);
      var m, keys := ScanBoard(whole, inCheck, removeOwn);
      if m.Crash? {
        ScanCrashed(c, inCheck, removeOwn, p0, whole);
        return Crash;
      }
      ScanDone(c, inCheck, removeOwn, p0, m.value, pinned, whole);
      var kept := DropPinned(m.value, keys, pinned);
      return Ok(kept);
    }

    /** The nested loops of `calculate_possible_moves`: the outer loop over
        the rows; `keys` lists the squares stored, in scan order. */
    method ScanBoard(ghost whole: Outcome<Computed>, inCheck: bool, removeOwn: bool) returns (r: Outcome<Cache>, keys: seq<Pos>)
      requires Valid() && Scanned(Ctx(), inCheck, removeOwn, 0, map[], pinned, whole)
      modifies this`pinned
      ensures r.Crash? ==> whole.Crash?
      ensures r.Ok? ==> Scanned(Ctx(), inCheck, removeOwn, 64, r.value, pinned, whole)
                        && forall q :: q in r.value <==> q in keys
      decreases if removeOwn then 1 else 0, 4, 2
    {
      ghost var c := Ctx();
      var m: Cache := map[];
      keys := [];
      var x := 0;
      ghost var k := 0;
      while x < 8
        invariant 0 <= x <= 8 && k == 8 * x
        invariant Scanned(c, inCheck, removeOwn, k, m, pinned, whole) && forall q :: q in m <==> q in keys
      {
        var next, more := ScanRow(k, whole, x, inCheck, removeOwn, m);
        if next.Crash? {
          return Crash, keys;
        }
        m, keys := next.value, keys + more;
        x, k := x + 1, k + 8;
      }
      return Ok(m), keys;
    }

    /** The inner loop of `calculate_possible_moves` over row x. */
    method ScanRow(ghost k0: int, ghost whole: Outcome<Computed>, x: int, inCheck: bool, removeOwn: bool, m: Cache)
      returns (r: Outcome<Cache>, added: seq<Pos>)
      requires Valid() && 0 <= x < 8 && k0 == 8 * x && Scanned(Ctx(), inCheck, removeOwn, k0, m, pinned, whole)
      modifies this`pinned
      ensures r.Crash? ==> whole.Crash?
      ensures r.Ok? ==> Scanned(Ctx(), inCheck, removeOwn, k0 + 8, r.value, pinned, whole)
                        && forall k :: k in r.value <==> k in m || k in added
      decreases if removeOwn then 1 else 0, 4, 1
    {
      ghost var c := Ctx();
      var acc := m;
      added := [];
      var y := 0;
      ghost var k := k0;
      while y < 8
        invariant 0 <= y <= 8 && k == k0 + y
        invariant Scanned(c, inCheck, removeOwn, k, acc, pinned, whole) && forall q :: q in acc <==> q in m || q in added
      {
        ScanPosOf(x, y);
        ghost var p0 := pinned;
        var next, isNew := ScanSquare(k, x, y, inCheck, removeOwn, acc);
        ScanAdvance(c, inCheck, removeOwn, k, acc, p0, next, pinned, whole);
        if next.Crash? {
          return Crash, added;
        }
        acc := next.value;
        if isNew {
          added := added + [Pos(x, y)];
        }
        y, k := y + 1, k + 1;
      }
      return Ok(acc), added;
    }

    /** `allowed_movements`: the raw vectors of the piece's kind, the second
        `remove_illegal` when in check, and the destinations they reach. */
    method AllowedMovements(pc: Piece, p: Pos, inCheck: bool, restrictTurn: bool, removeOwn: bool)
      returns (r: Outcome<seq<Pos>>)
      requires Valid() && OnBoard(p)
      modifies this`pinned
      ensures Agrees(r, Allowed(Ctx(), pc, p, inCheck, restrictTurn, removeOwn, old(pinned)), pinned)
      decreases if removeOwn then 1 else 0, 3
    {
      ghost var c := Ctx();
      ghost var p0 := pinned;
      var white := pc.color == White;
      if restrictTurn && white != whiteTurn {
        return Ok([]);
      }
      var raw := PieceMoves(pc, p, inCheck, removeOwn);
      assert Ctx() == c;
      if raw.Crash? {
        AllowedUnfold(c, pc, p, inCheck, restrictTurn, removeOwn, p0);
        return Crash;
      }
      AllowedUnfold(c, pc, p, inCheck, restrictTurn, removeOwn, p0);
      ghost var p1 := pinned;
      r := FilterAndPlace(pc, p, inCheck, removeOwn, raw.value);
      assert Ctx() == c;
      assert Agrees(r, AllowedTail(c, pc, p, inCheck, removeOwn, Gen(raw.value, p1)), pinned);
    }

    /** The end of `allowed_movements`: a piece other than the king of a side
        in check keeps only its answers to the check, then every vector
        becomes the square it reaches. */
    method FilterAndPlace(pc: Piece, p: Pos, inCheck: bool, removeOwn: bool, raw: seq<Pos>) returns (r: Outcome<seq<Pos>>)
      requires Valid() && OnBoard(p)
      modifies this`pinned
      ensures Agrees(r, AllowedTail(Ctx(), pc, p, inCheck, removeOwn, Gen(raw, old(pinned))), pinned)
      decreases if removeOwn then 1 else 0, 2
    {
      ghost var c := Ctx();
      var vectors := raw;
      if inCheck && pc.kind != King {
        var filtered := RemoveIllegal(p.x, p.y, vectors, inCheck, pc.color == White, false, removeOwn);
        assert Ctx() == c;
        if filtered.Crash? {
          return Crash;
        }
        vectors := filtered.value;
      }
      var squares := Destinations(p, vectors);
      return Ok(squares);
    }

    /** The per-kind vectors of `allowed_movements`, before the in-check filter. */
    method PieceMoves(pc: Piece, p: Pos, inCheck: bool, removeOwn: bool) returns (r: Outcome<seq<Pos>>)
      requires Valid() && OnBoard(p)
      modifies this`pinned
      ensures Agrees(r, PieceVectors(Ctx(), pc, p, inCheck, removeOwn, old(pinned)), pinned)
      decreases if removeOwn then 1 else 0, 2
    {
      var c := Snapshot();
      ghost var p0 := pinned;
      var white := pc.color == White;
      PieceVectorsByGroup(c, pc, p, inCheck, removeOwn, p0);
      if pc.kind == Pawn {
        r := PawnMoves(c, p.x, p.y, white);
      } else if pc.kind == King || pc.kind == Knight {
        r := RemoveIllegal(p.x, p.y, Steps(pc.kind), inCheck, white, pc.kind == King, removeOwn);
      } else {
        var moves := Raycast(p.x, p.y, Rays(pc.kind), white, removeOwn);
        r := Ok(moves);
      }
      assert Ctx() == c;
    }

    /** The final loop of `allowed_movements`: each vector turned into the
        square it reaches from `p`. */
    method Destinations(p: Pos, vectors: seq<Pos>) returns (squares: seq<Pos>)
      ensures squares == Shift(vectors, Pos(-p.x, -p.y))
    {
      squares := [];
      var i := 0;
      while i < |vectors|
        invariant 0 <= i <= |vectors|
        invariant squares == Shift(vectors[..i], Pos(-p.x, -p.y))
      {
        ShiftSnoc(vectors[..i], vectors[i], Pos(-p.x, -p.y));
        assert vectors[..i + 1] == vectors[..i] + [vectors[i]];
        squares := squares + [Add(p, vectors[i])];
        i := i + 1;
      }
      assert vectors[..i] == vectors;
    }

    /** The `j` loop of `raycast` after a capture at `cap`: look further for
        the enemy king; another enemy piece ends the look. */
    method ScanForKing(x: int, y: int, d: Pos, cap: Pos, from: int, s: int)
      requires Synced() && 1 <= from <= 8
      modifies this`pinned
      ensures pinned == PinScan(cells, x, y, d, cap, from, s, old(pinned))
    {
      ghost var b := cells;
      ghost var scan := PinScan(b, x, y, d, cap, from, s, pinned);
      var j := from;
      while j < 8
        invariant from <= j <= 8
        invariant cells == b
        invariant scan == PinScan(b, x, y, d, cap, j, s, pinned)
      {
        var xc, yc := x + Along(j, d.x), y + Along(j, d.y);
        if 0 <= xc < 8 && 0 <= yc < 8 {
          var w := Orient(s, board[xc, yc]);
          assert board[xc, yc] == At(b, Ahead(x, y, d, j));
          if w < 0 && Abs(board[xc, yc]) != 6 {
            break;
          }
          if w == -6 && cap !in pinned {
            pinned := pinned + [cap];
            break;
          }
        }
        j := j + 1;
      }
    }

    // ---------------------------------------------------------------------
    // assess_king_status

    /** `assess_king_status`: 0, 1 when some cached list reaches the king's
        square (check), 2 when the king then has no move of its own. */
    method AssessKingStatus(white: bool, restrictTurn: bool) returns (r: Outcome<int>)
      requires Valid()
      modifies this`pinned
      ensures var e := KingStatus(Ctx(), white, restrictTurn, old(pinned));
              r.Crash? == e.Crash? && (r.Ok? ==> e.value == Status(r.value, pinned))
    {
      ghost var c0 := Ctx();
      var c := Snapshot();
      var found := KingSquare(c.board, white);
      if found.Crash? {
        return Crash;
      }
      var kp := found.value;
      var check := Threatened(kp);
      if !check {
        return Ok(0);
      }
      var moves := AllowedMovements(Piece(ColorOf(white), King), kp, true, restrictTurn, true);
      if moves.Crash? {
        return Crash;
      }
      return Ok(if |moves.value| == 0 then 2 else 1);
    }

    /** The loop of `assess_king_status` that counts the cached lists
        reaching the king's square; only whether the count is positive
        matters. */
    method Threatened(kp: Pos) returns (check: bool)
      ensures check <==> Reached(cache, kp)
    {
      var danger := 0;
      var keys := cache.Keys;
      ghost var seen: set<Pos> := {};
      while keys != {}
        invariant keys + seen == cache.Keys && keys !! seen
        invariant danger >= 0 && (danger > 0 <==> exists k :: k in seen && kp in cache[k])
        decreases |keys|
      {
        var k :| k in keys;
        if kp in cache[k] {
          danger := danger + 1;
        }
        keys := keys - {k};
        seen := seen + {k};
      }
      return danger > 0;
    }

    // ---------------------------------------------------------------------
    // make_move

    /** `make_move`: refused when the mover is mated or the source is not
        a key of the cache, unanswered when the destination is not in the
        source's list, otherwise played. */
    method MakeMove(pc: Piece, src: Pos, dst: Pos, promote: Option<Piece>, add: bool) returns (reply: Outcome<Reply>)
      requires Valid()
      modifies this, board
      ensures Valid()
      ensures Follows(Fields(), reply, Game.MakeMove(old(Fields()), pc, src, dst, promote, add))
    {
      var st := AssessKingStatus(whiteTurn, true);
      if st.Crash? {
        return Crash;
      }
      if st.value == 2 || src !in cache {
        return Ok(Refused);
      }
      if dst !in cache[src] {
        return Ok(Unanswered);
      }
      reply := Execute(pc, src, dst, promote, add);
    }

    /** The body of `make_move` once the move is found in the cache. */
    method Execute(pc: Piece, src: Pos, dst: Pos, promote: Option<Piece>, add: bool) returns (reply: Outcome<Reply>)
      requires Valid() && src in cache && dst in cache[src]
      modifies this, board
      ensures Valid()
      ensures Follows(Fields(), reply, Game.Execute(old(Fields()), pc, src, dst, promote, add))
    {
      assert OnBoard(src) && Target(dst) by {
        var i :| 0 <= i < |cache[src]| && cache[src][i] == dst;
      }
      var c := Snapshot();
      var t := NotationFromMove(c, pc, src, dst, pinned);
      if t.Crash? {
        return Crash;
      }
      pinned := t.value.pinned;
      if last.Cleared? {
        return Crash;
      }
      reply := Play(pc, src, dst, promote, t.value.text, add);
    }

    /** The board writes and the last move, then the promotion and the rest. */
    method Play(pc: Piece, src: Pos, dst: Pos, promote: Option<Piece>, text: string, add: bool) returns (reply: Outcome<Reply>)
      requires Valid() && OnBoard(src) && Target(dst) && !last.Cleared?
      modifies this, board
      ensures Valid()
      ensures Follows(Fields(), reply, Game.Play(old(Fields()), pc, src, dst, promote, text, add))
    {
      var movement := PlaceMove(pc, src, dst, text);
      last := Moved(pc, src, dst);
      reply := Promote(pc, src, dst, promote, movement, add);
    }

    /** The board writes of `make_move`: the pawn taken en passant, the
        source emptied, the piece on the destination, a castle's rook. */
    method PlaceMove(pc: Piece, src: Pos, dst: Pos, text: string) returns (movement: string)
      requires Valid() && OnBoard(src) && Target(dst) && !last.Cleared?
      modifies board, this`cells
      ensures Valid()
      ensures var p := Place(old(Fields()), pc, src, dst, text);
              movement == p.movement && Fields() == old(Fields()).(board := p.board)
    {
      ghost var s := Fields();
      var ep := false;
      if last.Moved? {
        var lend := last.to;
        ep := pc.kind == Pawn && last.piece.kind == Pawn && board[Wrap(dst.x), dst.y] == 0
              && ((whiteTurn && src.x == 3 && lend.x == 3) || (!whiteTurn && src.x == 4 && lend.x == 4))
              && Abs(src.y - lend.y) == 1;
        assert board[Wrap(dst.x), dst.y] == At(cells, dst);
      }
      assert ep == EnPassantCapture(s, pc, src, dst);
      movement := if ep then [FileChar(src.y), 'x'] + text else text;
      LiftPiece(pc, src, dst, if ep then Some(last.to) else None);
      PlaceRook(movement);
    }

    /** The pawn taken en passant, the source emptied, the piece written on
        the destination, in the order `make_move` writes them. */
    method LiftPiece(pc: Piece, src: Pos, dst: Pos, captured: Option<Pos>)
      requires Valid() && OnBoard(src) && Target(dst) && (captured.Some? ==> Target(captured.value))
      modifies board, this`cells
      ensures Valid()
      ensures Fields() == old(Fields()).(board := Lift(old(cells), pc, src, dst, captured))
    {
      if captured.Some? {
        SetPiece(None, captured.value);
      }
      SetPiece(None, src);
      SetPiece(Some(pc), dst);
    }

    /** The rook's half of a castle, keyed on the notation. */
    method PlaceRook(movement: string)
      requires Valid()
      modifies board, this`cells
      ensures Valid()
      ensures Fields() == old(Fields()).(board := CastleRook(old(cells), movement, whiteTurn))
    {
      var row := HomeRow(whiteTurn);
      var rook := Some(Piece(ColorOf(whiteTurn), Rook));
      if movement == "O-O" {
        SetPiece(None, Pos(row, 7));
        SetPiece(rook, Pos(row, 5));
      } else if movement == "O-O-O" {
        SetPiece(None, Pos(row, 0));
        SetPiece(rook, Pos(row, 3));
      }
    }

    /** A pawn reaching the last rank becomes the requested piece and the
        notation gains '=' and its letter; then the rest of `make_move`. */
    method Promote(pc: Piece, src: Pos, dst: Pos, promote: Option<Piece>, movement: string, add: bool)
      returns (reply: Outcome<Reply>)
      requires Valid() && Target(dst)
      modifies this, board
      ensures Valid()
      ensures Follows(Fields(), reply, Game.Promote(old(Fields()), pc, src, dst, promote, movement, add))
    {
      if Promotes(pc, dst, promote, whiteTurn) {
        SetPiece(promote, dst);
        var letter := PromotionLetter(promote.value.kind);
        if letter.None? {
          return Crash;
        }
        reply := AfterMove(movement + ['=', letter.value], src, add);
      } else {
        reply := AfterMove(movement, src, add);
      }
    }

    /** Castle flags, then the cache recomputed for the new position. */
    method AfterMove(movement: string, src: Pos, add: bool) returns (reply: Outcome<Reply>)
      requires Valid()
      modifies this, board
      ensures Valid()
      ensures Follows(Fields(), reply, Game.AfterMove(old(Fields()), movement, src, add))
    {
      flags := UpdateFlags(flags, movement, whiteTurn, src);
      pinned := [];
      reply := Refresh(movement, add);
    }

    /** The cache recomputed for the new position, then the king status. */
    method Refresh(movement: string, add: bool) returns (reply: Outcome<Reply>)
      requires Valid()
      modifies this, board
      ensures Valid()
      ensures Follows(Fields(), reply, Game.Refresh(old(Fields()), movement, add))
    {
      var m := CalculatePossibleMoves(false, true);
      if m.Crash? {
        return Crash;
      }
      cache := m.value;
      reply := Announce(movement, add);
    }

    /** The opponent's king status: in check the cache is recomputed for the
        check and '+' added, mated '#' added; then the record and the turn. */
    method Announce(movement: string, add: bool) returns (reply: Outcome<Reply>)
      requires Valid()
      modifies this, board
      ensures Valid()
      ensures Follows(Fields(), reply, Game.Announce(old(Fields()), movement, add))
    {
      var st := AssessKingStatus(!whiteTurn, false);
      if st.Crash? {
        return Crash;
      }
      reply := Suffix(st.value, movement, add);
    }

    /** In check the cache is recomputed for the check and '+' added; mated,
        '#' added; then the record. */
    method Suffix(danger: int, movement: string, add: bool) returns (reply: Outcome<Reply>)
      requires Valid()
      modifies this, board
      ensures Valid()
      ensures Follows(Fields(), reply, Game.Suffix(old(Fields()), danger, movement, add))
    {
      var text := movement;
      if danger == 1 {
        var m := CalculatePossibleMoves(true, true);
        if m.Crash? {
          return Crash;
        }
        cache := m.value;
        text := movement + "+";
      } else if danger == 2 {
        text := movement + "#";
      }
      reply := Conclude(text, add);
    }

    /** The history entry (White opens one, Black completes the last), the
        turn flipped and the pointer moved on. */
    method Conclude(movement: string, add: bool) returns (reply: Outcome<Reply>)
      requires Valid()
      modifies this
      ensures Valid() && board == old(board)
      ensures Follows(Fields(), reply, Game.Conclude(old(Fields()), movement, add))
    {
      if add {
        var c := Snapshot();
        var fen := Numpy2Fen(c.board);
        if whiteTurn {
          history := history + [HistoryEntry([movement], [fen])];
        } else {
          if history == [] {
            return Crash;
          }
          var e := history[|history| - 1];
          history := history[..|history| - 1] + [HistoryEntry(e.moves + [movement], e.fens + [fen])];
        }
      }
      var turn := pointer.0;
      if !whiteTurn {
        turn := turn + 1;
      }
      whiteTurn := !whiteTurn;
      pointer := (turn, whiteTurn);
      return Ok(Played(movement));
    }

    // ---------------------------------------------------------------------
    // go2

    /** `go2`: the recorded snapshot becomes the board (a new array), that
        side moves, the cache is recomputed and the pointer set. `done` is
        false where the source raises. */
    method Go2(turn: int, white: bool) returns (done: bool)
      requires Valid()
      modifies this
      ensures Valid()
      ensures Lands(Fields(), done, Game.Go2(old(Fields()), turn, white))
    {
      var entry := PyIndex(history, turn);
      if entry.None? {
        return false;
      }
      var fens := entry.value.fens;
      if fens == [] || (!white && |fens| < 2) {
        return false;
      }
      var b := Fen2Numpy(if white then fens[0] else fens[1]);
      if b.Crash? || !ValidBoard(b.value) {
        return false;
      }
      Install(b.value, white);
      done := Reload(turn, white);
    }

    /** `self.board = ...` and `self.white_turn = ...` of `go2`: the board is
        a new array. */
    method Install(rows: Board, white: bool)
      requires Valid() && ValidBoard(rows)
      modifies this`board, this`cells, this`whiteTurn
      ensures Valid() && fresh(board)
      ensures Fields() == old(Fields()).(board := rows, whiteTurn := white)
    {
      board := new int[8, 8]((i, j) => if 0 <= i < 8 && 0 <= j < 8 then rows[i][j] else 0);
      cells := rows;
      whiteTurn := white;
    }

    /** The rest of `go2` once the board and the side to move are set: a
        fresh cache and the pointer. */
    method Reload(turn: int, white: bool) returns (done: bool)
      requires Valid()
      modifies this`cache, this`pinned, this`pointer
      ensures Valid()
      ensures Lands(Fields(), done, Game.Reload(old(Fields()), turn, white))
    {
      var m := CalculatePossibleMoves(false, true);
      if m.Crash? {
        return false;
      }
      cache := m.value;
      pointer := (turn, white);
      return true;
    }

    // ---------------------------------------------------------------------
    // The constructor

    /** The fields before the first cache computation: the standard
        position, White to move, nothing recorded, `initializing` set and
        `last_turn` as `clear_board` leaves it. */
    constructor()
      ensures Valid() && fresh(board)
      ensures Fields() == Game.Blank()
    {
      var rows := InitialBoard();
      board := new int[8, 8]((i, j) => if 0 <= i < 8 && 0 <= j < 8 then rows[i][j] else 0);
      cells := rows;
      whiteTurn := true;
      flags := NoFlags;
      last := LastTurn.Cleared;
      cache := map[];
      pinned := [];
      history := [];
      pointer := (0, true);
      initializing := true;
    }

    /** The rest of the constructor: the cache computed while `initializing`
        is set, then `last_turn` reset and `initializing` cleared. */
    method Start() returns (ok: bool)
      requires Valid()
      modifies this`cache, this`pinned, this`last, this`initializing
      ensures Valid()
      ensures var e := Game.Start(old(Fields())); ok == e.Ok? && (ok ==> Fields() == e.value)
    {
      var m := CalculatePossibleMoves(false, true);
      if m.Crash? {
        return false;
      }
      cache := m.value;
      last := NoMove;
      initializing := false;
      return true;
    }

    /** `ChessBoard()`; `Crash` where the constructor would raise. */
    static method Create() returns (r: Outcome<ChessBoard>)
      ensures r.Crash? <==> Initial().Crash?
      ensures r.Ok? ==> fresh(r.value) && r.value.Valid() && r.value.Fields() == Initial().value
    {
      var e := new ChessBoard();
      var ok := e.Start();
      if !ok {
        return Crash;
      }
      return Ok(e);
    }
  }

  /** The fields after `go2` agree with the transition model's: the same
      success flag and the same fields, except that after an exception the
      pinned list is whatever the interrupted computation left in it. */
  ghost predicate Lands(s: State, done: bool, j: Jump)
  {
    done == j.done && s.(pinned := j.state.pinned) == j.state && (done ==> s.pinned == j.state.pinned)
  }

  /** The fields after a step of `make_move` agree with the transition
      model's: the same answer and the same fields, except that after an
      exception the pinned list is whatever the interrupted computation
      left in it. */
  ghost predicate Follows(s: State, reply: Outcome<Reply>, e: Step)
  {
    reply == e.reply && s.(pinned := e.state.pinned) == e.state && (reply.Ok? ==> s.pinned == e.state.pinned)
  }

  /** A method's answer agrees with the transition model's: the same
      crash, and otherwise the same list and the same pinned list. */
  ghost predicate Agrees(r: Outcome<seq<Pos>>, e: Outcome<Gen>, pinned: seq<Pos>)
  {
    r.Crash? == e.Crash? && (r.Ok? ==> r.value == e.value.moves && pinned == e.value.pinned)
  }

  /** The destinations, in the cache m, of the pieces of one colour standing
      on the keys in ks. */
  ghost function AttackedAmong(b: Board, m: Cache, white: bool, ks: set<Pos>): set<Pos>
    requires IsBoard(b)
  {
    set k, i | k in m && k in ks && Indexable(k) && 0 <= i < |m[k]| && Orient(ColorOf(white).Sign(), At(b, k)) > 0 :: m[k][i]
  }

  lemma AttackedAmongAdd(b: Board, m: Cache, white: bool, ks: set<Pos>, k: Pos)
    requires IsBoard(b) && ValidCache(m) && k in m
    ensures AttackedAmong(b, m, white, ks + {k})
            == AttackedAmong(b, m, white, ks)
               + (if Orient(ColorOf(white).Sign(), At(b, k)) > 0 then set i | 0 <= i < |m[k]| :: m[k][i] else {})
  {
  }

  lemma AttackedAmongAll(b: Board, m: Cache, white: bool)
    requires IsBoard(b)
    ensures AttackedAmong(b, m, white, m.Keys) == AttackedBy(b, m, white)
  {
  }

  /** Shifting one more square. */
  lemma ShiftSnoc(vectors: seq<Pos>, v: Pos, back: Pos)
    ensures Shift(vectors + [v], back) == Shift(vectors, back) + [Sub(v, back)]
  {
    var l := Shift(vectors + [v], back);
    assert |l| == |vectors| + 1;
    forall i | 0 <= i < |l| ensures l[i] == (Shift(vectors, back) + [Sub(v, back)])[i] {
      if i < |vectors| {
        assert (vectors + [v])[i] == vectors[i];
      }
    }
  }

  /** `remove_illegal` without `remove_own`: the first filter alone. */
  lemma RemoveIllegalOwn(c: Ctx, x: int, y: int, vectors: seq<Pos>, inCheck: bool, white: bool, isKing: bool, pinned: seq<Pos>)
    requires ValidCtx(c)
    ensures MoveGen.RemoveIllegal(c, x, y, vectors, inCheck, white, isKing, false, pinned)
            == Ok(Gen(FilterOwn(c.board, x, y, vectors, ColorOf(white).Sign(), false), pinned))
  {
  }

  /** `remove_illegal` crashes with the attacked-squares computation. */
  lemma RemoveIllegalNoAttack(c: Ctx, x: int, y: int, vectors: seq<Pos>, inCheck: bool, white: bool, isKing: bool, pinned: seq<Pos>)
    requires ValidCtx(c) && !c.initializing && Attacked(c, !white, pinned).Crash?
    ensures MoveGen.RemoveIllegal(c, x, y, vectors, inCheck, white, isKing, true, pinned).Crash?
  {
  }

  /** `remove_illegal` with `remove_own`, once the attacked squares `enemy`
      and the pinned list p1 after computing them are known. */
  lemma RemoveIllegalAttacked(c: Ctx, x: int, y: int, vectors: seq<Pos>, inCheck: bool, white: bool, isKing: bool,
                              pinned: seq<Pos>, enemy: set<Pos>, p1: seq<Pos>)
    requires ValidCtx(c)
    requires c.initializing ==> enemy == {} && p1 == pinned
    requires !c.initializing ==> Attacked(c, !white, pinned) == Ok(Attack(enemy, p1))
    ensures MoveGen.RemoveIllegal(c, x, y, vectors, inCheck, white, isKing, true, pinned)
            == Settled(c, x, y, FilterOwn(c.board, x, y, vectors, ColorOf(white).Sign(), true), inCheck, white, isKing, enemy, p1)
  {
  }

  /** The tail of `MoveGen.Allowed` once the per-kind vectors `g` are known. */
  ghost function AllowedTail(c: Ctx, pc: Piece, p: Pos, inCheck: bool, removeOwn: bool, g: Gen): Outcome<Gen>
    requires ValidCtx(c) && OnBoard(p)
  {
    var filtered := if inCheck && pc.kind != King
                    then MoveGen.RemoveIllegal(c, p.x, p.y, g.moves, inCheck, pc.color == White, false, removeOwn, g.pinned)
                    else Ok(g);
    match filtered
    case Crash => Crash
    case Ok(g2) => Ok(Gen(Shift(g2.moves, Pos(-p.x, -p.y)), g2.pinned))
  }

  /** `MoveGen.PieceVectors` by group: pawns, stepping pieces, sliding pieces. */
  lemma PieceVectorsByGroup(c: Ctx, pc: Piece, p: Pos, inCheck: bool, removeOwn: bool, pinned: seq<Pos>)
    requires ValidCtx(c) && OnBoard(p)
    ensures var white := pc.color == White;
      PieceVectors(c, pc, p, inCheck, removeOwn, pinned)
      == if pc.kind == Pawn then
           (match PawnMoves(c, p.x, p.y, white) case Crash => Crash case Ok(ms) => Ok(Gen(ms, pinned)))
         else if pc.kind == King || pc.kind == Knight then
           MoveGen.RemoveIllegal(c, p.x, p.y, Steps(pc.kind), inCheck, white, pc.kind == King, removeOwn, pinned)
         else
           Ok(MoveGen.Raycast(c.board, p.x, p.y, Rays(pc.kind), white, removeOwn, pinned))
  {
  }

  /** The step vectors of a stepping piece (king or knight). */
  function Steps(k: Kind): seq<Pos>
  {
    if k == King then KingVectors else KnightVectors
  }

  /** The ray directions of a sliding piece (queen, bishop or rook). */
  function Rays(k: Kind): seq<Pos>
  {
    if k == Queen then LineVectors + DiagonalVectors
    else if k == Bishop then DiagonalVectors
    else LineVectors
  }

  /** `MoveGen.Allowed` split at the per-kind vectors. */
  lemma AllowedUnfold(c: Ctx, pc: Piece, p: Pos, inCheck: bool, restrictTurn: bool, removeOwn: bool, pinned: seq<Pos>)
    requires ValidCtx(c) && OnBoard(p)
    requires !(restrictTurn && (pc.color == White) != c.whiteTurn)
    ensures PieceVectors(c, pc, p, inCheck, removeOwn, pinned).Crash? ==> Allowed(c, pc, p, inCheck, restrictTurn, removeOwn, pinned).Crash?
    ensures PieceVectors(c, pc, p, inCheck, removeOwn, pinned).Ok? ==>
      Allowed(c, pc, p, inCheck, restrictTurn, removeOwn, pinned)
      == AllowedTail(c, pc, p, inCheck, removeOwn, PieceVectors(c, pc, p, inCheck, removeOwn, pinned).value)
  {
  }

  /** Row i of the array from column j on. */
  function RowFrom(a: array2<int>, i: int, j: int): (r: seq<int>)
    reads a
    requires 0 <= i < a.Length0 && 0 <= j <= a.Length1
    ensures |r| == a.Length1 - j && forall k :: 0 <= k < |r| ==> r[k] == a[i, j + k]
    decreases a.Length1 - j
  {
    if j == a.Length1 then [] else [a[i, j]] + RowFrom(a, i, j + 1)
  }

  /** The rows of the array from row i on. */
  function RowsFrom(a: array2<int>, i: int): (r: seq<seq<int>>)
    reads a
    requires 0 <= i <= a.Length0
    ensures |r| == a.Length0 - i && forall k :: 0 <= k < |r| ==> r[k] == RowFrom(a, i + k, 0)
    decreases a.Length0 - i
  {
    if i == a.Length0 then [] else [RowFrom(a, i, 0)] + RowsFrom(a, i + 1)
  }

  /** Rows that agree with the array entry by entry are its rows. */
  lemma RowsOfBoard(a: array2<int>, b: Board)
    requires a.Length0 == 8 && a.Length1 == 8 && IsBoard(b)
    requires forall i, j :: 0 <= i < 8 && 0 <= j < 8 ==> b[i][j] == a[i, j]
    ensures RowsFrom(a, 0) == b
  {
    var r := RowsFrom(a, 0);
    forall i | 0 <= i < 8 ensures r[i] == b[i] {
      assert |r[i]| == |b[i]| == 8;
    }
  }

  /** The scan of `calculate_possible_moves` has reached index k with the
      cache `acc`: finishing it gives `whole`. */
  ghost predicate Scanned(c: Ctx, inCheck: bool, removeOwn: bool, k: int, acc: Cache, pinned: seq<Pos>, whole: Outcome<Computed>)
  {
    ValidCtx(c) && 0 <= k <= 64 && ValidCache(acc) && whole == CalcFrom(c, inCheck, removeOwn, k, acc, pinned)
  }

  lemma ScanPosOf(x: int, y: int)
    requires 0 <= x < 8 && 0 <= y < 8
    ensures ScanPos(8 * x + y) == Pos(x, y)
  {
  }

  /** One step of the scan: a crash on the k-th square is a crash of the
      whole scan, otherwise the rest of the scan goes on from the next square. */
  lemma ScanAdvance(c: Ctx, inCheck: bool, removeOwn: bool, k: int, acc: Cache, p0: seq<Pos>,
                    next: Outcome<Cache>, p1: seq<Pos>, whole: Outcome<Computed>)
    requires Scanned(c, inCheck, removeOwn, k, acc, p0, whole) && k < 64
    requires Visit(c, inCheck, removeOwn, k, acc, p0) == if next.Crash? then Crash else Ok(Computed(next.value, p1))
    ensures next.Crash? ==> whole.Crash?
    ensures next.Ok? ==> Scanned(c, inCheck, removeOwn, k + 1, next.value, p1, whole)
  {
  }

  /** A crash during the scan is a crash of `calculate_possible_moves`. */
  lemma ScanCrashed(c: Ctx, inCheck: bool, removeOwn: bool, p0: seq<Pos>, whole: Outcome<Computed>)
    requires ValidCtx(c) && whole == CalcFrom(c, inCheck, removeOwn, 0, map[], p0) && whole.Crash?
    ensures Calc(c, inCheck, removeOwn, p0).Crash?
  {
  }

  /** A completed scan leaves the cache and pinned list that, once the pinned
      keys are dropped, `calculate_possible_moves` returns. */
  lemma ScanDone(c: Ctx, inCheck: bool, removeOwn: bool, p0: seq<Pos>, m: Cache, pinned: seq<Pos>, whole: Outcome<Computed>)
    requires ValidCtx(c) && whole == CalcFrom(c, inCheck, removeOwn, 0, map[], p0)
    requires Scanned(c, inCheck, removeOwn, 64, m, pinned, whole)
    ensures Calc(c, inCheck, removeOwn, p0) == Ok(Computed(map k | k in m && k !in pinned :: m[k], pinned))
  {
  }

  /** The final loop of `calculate_possible_moves`: every key of the cache
      (listed in `keys`) that is in the pinned list is deleted. */
  method DropPinned(m: Cache, keys: seq<Pos>, pinned: seq<Pos>) returns (r: Cache)
    requires forall k :: k in m <==> k in keys
    ensures r == map k | k in m && k !in pinned :: m[k]
  {
    r := m;
    var j := 0;
    while j < |keys|
      invariant 0 <= j <= |keys|
      invariant r == map k | k in m && !(k in keys[..j] && k in pinned) :: m[k]
    {
      if keys[j] in pinned {
        r := r - {keys[j]};
      }
      assert keys[..j + 1] == keys[..j] + [keys[j]];
      j := j + 1;
    }
    assert keys[..j] == keys;
  }

  /** The tail of `MoveGen.RemoveIllegal` after the attacked squares. */
  ghost function Settled(c: Ctx, x: int, y: int, v1: seq<Pos>, inCheck: bool, white: bool, isKing: bool,
                         enemy: set<Pos>, p1: seq<Pos>): Outcome<Gen>
    requires ValidCtx(c)
  {
    if isKing then Ok(Gen(KingFilter(c, x, y, v1, inCheck, white, enemy), p1))
    else if inCheck then CheckFilter(c, x, y, v1, white, p1)
    else Ok(Gen(v1, p1))
  }

  /** One element of `RemoveAttacked`'s input: dropped when attacked. */
  lemma RemoveAttackedCons(x: int, y: int, vectors: seq<Pos>, i: int, enemy: set<Pos>)
    requires 0 <= i < |vectors|
    ensures RemoveAttacked(x, y, vectors[i..], enemy)
            == (if Add(Pos(x, y), vectors[i]) in enemy then [] else [vectors[i]]) + RemoveAttacked(x, y, vectors[i + 1..], enemy)
  {
    assert vectors[i..][1..] == vectors[i + 1..];
  }

  /** The rays from vector v on: the ray of vector v, then those after it. */
  lemma RaycastStep(b: Board, x: int, y: int, vectors: seq<Pos>, v: int, white: bool, removeOwn: bool, pinned: seq<Pos>)
    requires IsBoard(b) && 0 <= v < |vectors|
    ensures var first := RayFrom(b, x, y, vectors[v], 1, ColorOf(white).Sign(), removeOwn, pinned);
            var rest := MoveGen.Raycast(b, x, y, vectors[v + 1..], white, removeOwn, first.pinned);
            MoveGen.Raycast(b, x, y, vectors[v..], white, removeOwn, pinned) == Gen(first.moves + rest.moves, rest.pinned)
  {
    assert vectors[v..][0] == vectors[v] && vectors[v..][1..] == vectors[v + 1..];
  }

  /** The loop invariant of `raycast` carried over one vector. */
  lemma RaycastAdvance(b: Board, x: int, y: int, vectors: seq<Pos>, v: int, white: bool, removeOwn: bool,
                       whole: Gen, moves: seq<Pos>, pinned: seq<Pos>)
    requires IsBoard(b) && 0 <= v < |vectors|
    requires whole == Gen(moves + MoveGen.Raycast(b, x, y, vectors[v..], white, removeOwn, pinned).moves,
                          MoveGen.Raycast(b, x, y, vectors[v..], white, removeOwn, pinned).pinned)
    ensures var ray := RayFrom(b, x, y, vectors[v], 1, ColorOf(white).Sign(), removeOwn, pinned);
            var rest := MoveGen.Raycast(b, x, y, vectors[v + 1..], white, removeOwn, ray.pinned);
            whole == Gen((moves + ray.moves) + rest.moves, rest.pinned)
  {
    RaycastStep(b, x, y, vectors, v, white, removeOwn, pinned);
    var ray := RayFrom(b, x, y, vectors[v], 1, ColorOf(white).Sign(), removeOwn, pinned);
    var rest := MoveGen.Raycast(b, x, y, vectors[v + 1..], white, removeOwn, ray.pinned);
    assert moves + (ray.moves + rest.moves) == (moves + ray.moves) + rest.moves;
  }

  /** The loop invariant of `raycast` carried over step i of a ray, whose
      square is q, offset off and relative content here: off the board the
      ray is complete; an empty square is entered and the ray goes on; an
      enemy is entered and looked past for its king; a friendly piece ends
      the ray, entered only when own pieces are kept. */
  lemma RayAdvance(b: Board, x: int, y: int, d: Pos, i: int, s: int, removeOwn: bool,
                   q: Pos, off: Pos, here: int, ray: Gen, moves: seq<Pos>, pinned: seq<Pos>)
    requires IsBoard(b) && 1 <= i < 8
    requires q == Ahead(x, y, d, i) && off == Pos(Along(i, d.x), Along(i, d.y))
    requires OnBoard(q) ==> here == Orient(s, At(b, q))
    requires ray == Gen(moves + RayFrom(b, x, y, d, i, s, removeOwn, pinned).moves,
                        RayFrom(b, x, y, d, i, s, removeOwn, pinned).pinned)
    ensures !OnBoard(q) ==> ray == Gen(moves, pinned)
    ensures OnBoard(q) && here == 0 ==>
              var next := RayFrom(b, x, y, d, i + 1, s, removeOwn, pinned);
              ray == Gen((moves + [off]) + next.moves, next.pinned)
    ensures OnBoard(q) && here < 0 ==> ray == Gen(moves + [off], PinScan(b, x, y, d, q, i + 1, s, pinned))
    ensures OnBoard(q) && here > 0 ==> ray == Gen(moves + (if removeOwn then [] else [off]), pinned)
  {
    if OnBoard(q) && here == 0 {
      var next := RayFrom(b, x, y, d, i + 1, s, removeOwn, pinned);
      assert moves + ([off] + next.moves) == (moves + [off]) + next.moves;
    }
    if !OnBoard(q) || (here > 0 && removeOwn) {
      assert moves + [] == moves;
    }
  }
}
