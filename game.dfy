/** The state transitions of the engine: `clear_board`, `set_piece`, the
    constructor, `make_move` and `go2` (src/neuralcheck/logic.py:11-60,
    92-118, 553-680, 961-979), as functions from one snapshot of the engine's
    fields to the next. The `ChessBoard` class drives its fields through
    exactly these steps. */
module Game {
  import opened Pieces
  import opened Squares
  import opened Boards
  import opened Fen
  import opened MoveGen
  import opened Notation

  /** One full move of `history`: the notations and the FEN snapshots of
      White's and (once played) Black's half-moves. */
  datatype HistoryEntry = HistoryEntry(moves: seq<string>, fens: seq<string>)

  /** The engine's fields. `pointer` is (turn, white to move). */
  datatype State = State(board: Board, whiteTurn: bool, flags: CastleFlags, last: LastTurn,
                         cache: Cache, pinned: seq<Pos>, history: seq<HistoryEntry>,
                         pointer: (int, bool), initializing: bool)

  function CtxOf(s: State): Ctx
  {
    Ctx(s.board, s.whiteTurn, s.flags, s.last, s.cache, s.initializing)
  }

  ghost predicate ValidState(s: State)
  {
    ValidCtx(CtxOf(s))
  }

  /** `make_move`'s answers: `(False, '')`, the bare `None` of a listed
      source with an unlisted destination, and `(True, notation)`. */
  datatype Reply = Refused | Unanswered | Played(notation: string)

  /** The fields after a call and its answer. After an exception the fields
      hold what had been assigned before the raising step, except that an
      extension of `pinned_pieces` appended inside the computation that
      raised is not kept: a `Crash` step holds the pinned list from before
      that computation, while the engine's list may have grown
      (`Engine.Follows` compares the two up to that list). */
  datatype Step = Step(state: State, reply: Outcome<Reply>)

  // -----------------------------------------------------------------------
  // clear_board and set_piece

  /** `clear_board`: empty board and history, `last_turn` the empty string,
      all castle flags down. The other fields are untouched. */
  function Cleared(s: State): (r: State)
    ensures ValidBoard(r.board) && forall q {:trigger At(r.board, q)} :: Indexable(q) ==> At(r.board, q) == 0
    ensures r.history == [] && r.last == LastTurn.Cleared && r.flags == NoFlags
    ensures r.whiteTurn == s.whiteTurn && r.cache == s.cache && r.pinned == s.pinned && r.pointer == s.pointer
  {
    s.(board := EmptyBoard(), history := [], last := LastTurn.Cleared, flags := NoFlags)
  }

  /** The board cell a square index reaches (row -1 is row 7). */
  function Cell(p: Pos): (r: Pos)
    requires Indexable(p)
    ensures OnBoard(r) && (OnBoard(p) ==> r == p)
  {
    Pos(Wrap(p.x), p.y)
  }

  /** `set_piece`: a piece or an empty square written on one square. */
  function PutPiece(b: Board, pc: Option<Piece>, p: Pos): (r: Board)
    requires ValidBoard(b) && Indexable(p)
    ensures ValidBoard(r)
    ensures WhatIn(r, p) == (if pc.Some? then Occupied(pc.value) else WhatIn(EmptyBoard(), p))
    ensures At(r, Cell(p)) == (if pc.Some? then Code(pc.value) else 0)
    ensures forall q {:trigger At(r, q)} :: OnBoard(q) && q != Cell(p) ==> At(r, q) == At(b, q)
  {
    if pc.Some? then
      DecodeCode(pc.value);
      SetAt(b, p, Code(pc.value))
    else SetAt(b, p, 0)
  }

  // -----------------------------------------------------------------------
  // The constructor

  /** The fields of a new engine: the standard position with White to move
      (the constructor reads it from config/initial_position.yaml), and the
      cache computed while `initializing` is set and `last_turn` still holds
      the empty string `clear_board` left; then no move made yet. */
  function Initial(): (r: Outcome<State>)
    ensures r.Ok?
    ensures r.value.board == InitialBoard() && r.value.whiteTurn && r.value.flags == NoFlags
            && r.value.last == NoMove && r.value.history == [] && r.value.pointer == (0, true)
            && !r.value.initializing
  {
    InitialPawns();
    CalcFromAtHome(CtxOf(Blank()), 0, map[], []);
    Start(Blank())
  }

  /** The fields before the first cache computation. */
  function Blank(): (s: State)
  {
    State(InitialBoard(), true, NoFlags, LastTurn.Cleared, map[], [], [], (0, true), true)
  }

  /** The first cache computation, then no move made yet. */
  function Start(s: State): (r: Outcome<State>)
    requires ValidState(s)
    ensures r.Ok? ==> r.value.board == s.board && r.value.whiteTurn == s.whiteTurn && r.value.flags == s.flags
                      && r.value.history == s.history && r.value.pointer == s.pointer
                      && r.value.last == NoMove && !r.value.initializing && ValidState(r.value)
  {
    match Calc(CtxOf(s), false, true, s.pinned)
    case Crash => Crash
    case Ok(m) => Ok(s.(cache := m.moves, pinned := m.pinned, last := NoMove, initializing := false))
  }

  /** Pawns stand only on their second ranks, rows 1 and 6. */
  ghost predicate PawnsAtHome(b: Board)
    requires IsBoard(b)
  {
    forall p :: OnBoard(p) && Abs(At(b, p)) == 1 ==> p.x == 1 || p.x == 6
  }

  lemma InitialPawns()
    ensures PawnsAtHome(InitialBoard())
  {
    var b := InitialBoard();
    forall p | OnBoard(p) && p.x != 1 && p.x != 6 ensures Abs(At(b, p)) != 1 {
      var row := b[p.x];
      assert forall j :: 0 <= j < 8 ==> Abs(row[j]) != 1;
    }
  }

  /** While initialising, with no check and own pieces removed, a square is
      visited without an exception when its pawn, if any, is on its second
      rank: only the pawn branch can fail there. */
  lemma VisitAtHome(c: Ctx, k: int, acc: Cache, pinned: seq<Pos>)
    requires ValidCtx(c) && c.initializing && PawnsAtHome(c.board) && 0 <= k < 64 && ValidCache(acc)
    ensures Visit(c, false, true, k, acc, pinned).Ok?
  {
    var p := ScanPos(k);
    var v := At(c.board, p);
    if v != 0 {
      CodeDecode(v);
      var pc := Decode(v).value;
      assert EnemyAttack(c, pc.color == White, pinned).Ok?;
      if IsRayPiece(pc.kind) {
        SliderVectors(c, pc, p, false, true, pinned);
      } else if pc.kind == Pawn {
        assert Abs(v) == 1;
        PawnVectorsKept(c, pc, p, false, true, pinned);
      } else {
        JumpVectorsKept(c, pc, p, false, true, pinned);
      }
      assert PieceVectors(c, pc, p, false, true, pinned).Ok?;
    }
  }

  /** The nested loops of the first cache computation finish without an
      exception on such a position. */
  lemma {:induction false} CalcFromAtHome(c: Ctx, k: int, acc: Cache, pinned: seq<Pos>)
    requires ValidCtx(c) && c.initializing && PawnsAtHome(c.board) && 0 <= k <= 64 && ValidCache(acc)
    ensures CalcFrom(c, false, true, k, acc, pinned).Ok?
    decreases 64 - k
  {
    if k < 64 {
      VisitAtHome(c, k, acc, pinned);
      var n := Visit(c, false, true, k, acc, pinned).value;
      CalcFromAtHome(c, k + 1, n.moves, n.pinned);
    }
  }

  // -----------------------------------------------------------------------
  // make_move

  /** `en_passant_conditions`: a pawn moving onto an empty square from its
      fifth rank, beside the square where the last mover, a pawn, landed. */
  predicate EnPassantCapture(s: State, pc: Piece, src: Pos, dst: Pos)
    requires ValidBoard(s.board) && Indexable(dst)
  {
    match s.last
    case Moved(lp, _, lend) =>
      pc.kind == Pawn && lp.kind == Pawn && WhatIn(s.board, dst).EmptySquare?
      && ((s.whiteTurn && src.x == 3 && lend.x == 3) || (!s.whiteTurn && src.x == 4 && lend.x == 4))
      && Abs(src.y - lend.y) == 1
    case _ => false
  }

  predicate IsCastle(movement: string) { movement == "O-O" || movement == "O-O-O" }

  /** The squares the rook's half of a castle writes, keyed on the notation. */
  function RookSquares(movement: string, white: bool): set<Pos>
  {
    if movement == "O-O" then {Pos(HomeRow(white), 7), Pos(HomeRow(white), 5)}
    else if movement == "O-O-O" then {Pos(HomeRow(white), 0), Pos(HomeRow(white), 3)}
    else {}
  }

  /** The board writes of a move before any castle: the captured pawn of an
      en passant (when `captured` names it), the source emptied, the piece on
      the destination. */
  function Lift(b: Board, pc: Piece, src: Pos, dst: Pos, captured: Option<Pos>): (r: Board)
    requires ValidBoard(b) && OnBoard(src) && Target(dst) && (captured.Some? ==> Target(captured.value))
    ensures ValidBoard(r)
    ensures At(r, Cell(dst)) == Code(pc)
    ensures Cell(dst) != src ==> At(r, src) == 0
    ensures captured.Some? && Cell(captured.value) != Cell(dst) && Cell(captured.value) != src ==> At(r, Cell(captured.value)) == 0
    ensures forall q {:trigger At(r, q)} :: (OnBoard(q) && q != src && q != Cell(dst) && (captured.Some? ==> q != Cell(captured.value)))
                        ==> At(r, q) == At(b, q)
  {
    var b1 := if captured.Some? then PutPiece(b, None, captured.value) else b;
    PutPiece(PutPiece(b1, None, src), Some(pc), dst)
  }

  /** The rook's half of a castle, keyed on the notation. */
  function CastleRook(b: Board, movement: string, white: bool): (r: Board)
    requires ValidBoard(b)
    ensures ValidBoard(r)
    ensures movement == "O-O" ==>
              At(r, Pos(HomeRow(white), 7)) == 0 && At(r, Pos(HomeRow(white), 5)) == Code(Piece(ColorOf(white), Rook))
    ensures movement == "O-O-O" ==>
              At(r, Pos(HomeRow(white), 0)) == 0 && At(r, Pos(HomeRow(white), 3)) == Code(Piece(ColorOf(white), Rook))
    ensures forall q {:trigger At(r, q)} :: OnBoard(q) && q !in RookSquares(movement, white) ==> At(r, q) == At(b, q)
  {
    var rook := Some(Piece(ColorOf(white), Rook));
    var row := HomeRow(white);
    if movement == "O-O" then PutPiece(PutPiece(b, None, Pos(row, 7)), rook, Pos(row, 5))
    else if movement == "O-O-O" then PutPiece(PutPiece(b, None, Pos(row, 0)), rook, Pos(row, 3))
    else b
  }

  /** The suffix letters of a promotion; a king or a pawn has none (KeyError). */
  function PromotionLetter(k: Kind): (r: Option<char>)
    ensures r.Some? <==> k in {Queen, Rook, Knight, Bishop}
    ensures r.Some? ==> r.value == Letter(k)
  {
    match k
    case Queen => Some('Q')
    case Rook => Some('R')
    case Knight => Some('N')
    case Bishop => Some('B')
    case _ => None
  }

  /** A pawn promotes when it lands on the last rank of its colour. */
  predicate Promotes(pc: Piece, dst: Pos, promote: Option<Piece>, white: bool)
  {
    promote.Some? && pc.kind == Pawn && ((white && dst.x == 0) || (!white && dst.x == 7))
  }

  /** The castle flags after a move whose notation is `movement`: a king
      letter marks the mover's king, otherwise a rook letter marks the
      corner the move started from. */
  function UpdateFlags(f: CastleFlags, movement: string, white: bool, src: Pos): (r: CastleFlags)
    ensures Monotone(f, r)
    ensures 'K' !in movement && 'R' !in movement ==> r == f
  {
    if 'K' in movement then
      (if white then f.(whiteKingMoved := true) else f.(blackKingMoved := true))
    else if 'R' in movement then
      if src == Pos(7, 0) then f.(a1RookMoved := true)
      else if src == Pos(7, 7) then f.(h1RookMoved := true)
      else if src == Pos(0, 0) then f.(a8RookMoved := true)
      else if src == Pos(0, 7) then f.(h8RookMoved := true)
      else f
    else f
  }

  /** No flag is ever lowered. */
  predicate Monotone(f: CastleFlags, g: CastleFlags)
  {
    (f.whiteKingMoved ==> g.whiteKingMoved) && (f.blackKingMoved ==> g.blackKingMoved)
    && (f.a1RookMoved ==> g.a1RookMoved) && (f.h1RookMoved ==> g.h1RookMoved)
    && (f.a8RookMoved ==> g.a8RookMoved) && (f.h8RookMoved ==> g.h8RookMoved)
  }

  /** The history after recording a half-move: White opens a new entry,
      Black extends the last one (IndexError on an empty history). */
  function Record(h: seq<HistoryEntry>, movement: string, fen: string, white: bool): (r: Outcome<seq<HistoryEntry>>)
    ensures white ==> r == Ok(h + [HistoryEntry([movement], [fen])])
    ensures !white && h == [] ==> r.Crash?
    ensures !white && h != [] ==> r.Ok? && |r.value| == |h| && r.value[..|h| - 1] == h[..|h| - 1]
    ensures !white && h != [] ==> r.value[|h| - 1].moves == h[|h| - 1].moves + [movement]
                                  && r.value[|h| - 1].fens == h[|h| - 1].fens + [fen]
  {
    if white then Ok(h + [HistoryEntry([movement], [fen])])
    else if h == [] then Crash
    else
      var e := h[|h| - 1];
      Ok(h[..|h| - 1] + [HistoryEntry(e.moves + [movement], e.fens + [fen])])
  }

  /** The pointer after a half-move: the turn count grows after Black's. */
  function Advance(p: (int, bool), white: bool): (r: (int, bool))
    ensures r.1 == !white
    ensures r.0 == if white then p.0 else p.0 + 1
  {
    (p.0 + (if white then 0 else 1), !white)
  }

  /** The board after the move's writes, and the notation so far. */
  datatype Placed = Placed(board: Board, movement: string)

  /** En passant check and capture, the move itself and the castle's rook. */
  function Place(s: State, pc: Piece, src: Pos, dst: Pos, text: string): (r: Placed)
    requires ValidState(s) && OnBoard(src) && Target(dst) && !s.last.Cleared?
    ensures ValidBoard(r.board)
  {
    var ep := EnPassantCapture(s, pc, src, dst);
    var movement := if ep then [FileChar(src.y), 'x'] + text else text;
    var b1 := Lift(s.board, pc, src, dst, if ep then Some(s.last.to) else None);
    Placed(CastleRook(b1, movement, s.whiteTurn), movement)
  }

  /** A move was played: the reply names it, the other side is to move, the
      pointer has advanced and the fields are well formed. */
  ghost predicate TurnPassed(s: State, r: Step)
  {
    r.reply.Ok? && r.reply.value.Played? && r.state.whiteTurn == !s.whiteTurn
    && r.state.pointer == Advance(s.pointer, s.whiteTurn) && ValidState(r.state)
  }

  /** `make_move` (logic.py:553-680). */
  function MakeMove(s: State, pc: Piece, src: Pos, dst: Pos, promote: Option<Piece>, add: bool): (r: Step)
    requires ValidState(s)
    ensures r.reply.Ok? && r.reply.value.Played? ==>
              src in s.cache && dst in s.cache[src] && TurnPassed(s, r) && r.state.last == Moved(pc, src, dst)
    ensures r.reply.Ok? && !r.reply.value.Played? ==> r.state == s.(pinned := r.state.pinned)
  {
    match KingStatus(CtxOf(s), s.whiteTurn, true, s.pinned)
    case Crash => Step(s, Crash)
    case Ok(st) =>
      var s1 := s.(pinned := st.pinned);
      if st.danger == 2 || src !in s.cache then Step(s1, Ok(Refused))
      else if dst !in s.cache[src] then Step(s1, Ok(Unanswered))
      else Execute(s1, pc, src, dst, promote, add)
  }

  /** The body of `make_move` once the move is found in the cache. */
  function Execute(s: State, pc: Piece, src: Pos, dst: Pos, promote: Option<Piece>, add: bool): (r: Step)
    requires ValidState(s) && src in s.cache && dst in s.cache[src]
    ensures r.reply.Ok? ==> TurnPassed(s, r) && r.state.last == Moved(pc, src, dst)
  {
    assert OnBoard(src) && Target(dst) by {
      var i :| 0 <= i < |s.cache[src]| && s.cache[src][i] == dst;
    }
    match NotationFromMove(CtxOf(s), pc, src, dst, s.pinned)
    case Crash => Step(s, Crash)
    case Ok(t) =>
      var s2 := s.(pinned := t.pinned);
      if s2.last.Cleared? then Step(s2, Crash)
      else Play(s2, pc, src, dst, promote, t.text, add)
  }

  /** The board writes and the last move, then the promotion and the rest. */
  function Play(s: State, pc: Piece, src: Pos, dst: Pos, promote: Option<Piece>, text: string, add: bool): (r: Step)
    requires ValidState(s) && OnBoard(src) && Target(dst) && !s.last.Cleared?
    ensures r.reply.Ok? ==> TurnPassed(s, r) && r.state.last == Moved(pc, src, dst)
  {
    var p := Place(s, pc, src, dst, text);
    Promote(s.(board := p.board, last := Moved(pc, src, dst)), pc, src, dst, promote, p.movement, add)
  }

  /** The promotion, if the move is one, then the rest of `make_move`. */
  function Promote(s: State, pc: Piece, src: Pos, dst: Pos, promote: Option<Piece>, movement: string, add: bool): (r: Step)
    requires ValidState(s) && Target(dst)
    ensures r.reply.Ok? ==> TurnPassed(s, r) && r.state.last == s.last
    ensures r.reply.Ok? && Promotes(pc, dst, promote, s.whiteTurn) ==> WhatIn(r.state.board, dst) == Occupied(promote.value)
    ensures r.reply.Ok? && !Promotes(pc, dst, promote, s.whiteTurn) ==> r.state.board == s.board
  {
    if Promotes(pc, dst, promote, s.whiteTurn) then
      var s4 := s.(board := PutPiece(s.board, promote, dst));
      match PromotionLetter(promote.value.kind)
      case None => Step(s4, Crash)
      case Some(l) => AfterMove(s4, movement + ['=', l], src, add)
    else AfterMove(s, movement, src, add)
  }

  /** Flags, the two cache computations, the check suffix, history and pointer. */
  function AfterMove(s: State, movement: string, src: Pos, add: bool): (r: Step)
    requires ValidState(s)
    ensures r.reply.Ok? ==> TurnPassed(s, r) && r.state.board == s.board && r.state.last == s.last
                            && Monotone(s.flags, r.state.flags)
  {
    Refresh(s.(flags := UpdateFlags(s.flags, movement, s.whiteTurn, src), pinned := []), movement, add)
  }

  /** The cache recomputed for the new position, then the king status. */
  function Refresh(s: State, movement: string, add: bool): (r: Step)
    requires ValidState(s)
    ensures r.reply.Ok? ==> TurnPassed(s, r) && r.state.board == s.board && r.state.last == s.last
                            && r.state.flags == s.flags
  {
    match Calc(CtxOf(s), false, true, s.pinned)
    case Crash => Step(s, Crash)
    case Ok(m) => Announce(s.(cache := m.moves, pinned := m.pinned), movement, add)
  }

  /** The opponent's king status decides the suffix: in check, the cache is
      recomputed for the check and '+' added; mated, '#' added. */
  function Announce(s: State, movement: string, add: bool): (r: Step)
    requires ValidState(s)
    ensures r.reply.Ok? ==> TurnPassed(s, r) && r.state.board == s.board && r.state.last == s.last
                            && r.state.flags == s.flags
  {
    match KingStatus(CtxOf(s), !s.whiteTurn, false, s.pinned)
    case Crash => Step(s, Crash)
    case Ok(st) => Suffix(s.(pinned := st.pinned), st.danger, movement, add)
  }

  /** The suffix for the opponent's king status, then the record. */
  function Suffix(s: State, danger: int, movement: string, add: bool): (r: Step)
    requires ValidState(s)
    ensures r.reply.Ok? ==> TurnPassed(s, r) && r.state.board == s.board && r.state.last == s.last
                            && r.state.flags == s.flags
    ensures r.reply.Ok? ==> r.reply.value.notation == movement + (if danger == 1 then "+" else if danger == 2 then "#" else "")
  {
    if danger == 1 then
      match Calc(CtxOf(s), true, true, s.pinned)
      case Crash => Step(s, Crash)
      case Ok(m) => Conclude(s.(cache := m.moves, pinned := m.pinned), movement + "+", add)
    else Conclude(s, if danger == 2 then movement + "#" else movement, add)
  }

  /** The history entry, the side to move and the pointer. */
  function Conclude(s: State, movement: string, add: bool): (r: Step)
    requires ValidState(s)
    ensures r.reply.Ok? ==> TurnPassed(s, r) && r.state.board == s.board && r.state.last == s.last
                            && r.state.flags == s.flags
    ensures r.reply.Ok? ==> r.reply.value.notation == movement && r.state.cache == s.cache
    ensures r.reply.Crash? <==> add && !s.whiteTurn && s.history == []
    ensures r.reply.Crash? ==> r.state == s
  {
    var h := if add then Record(s.history, movement, BoardToFen(s.board), s.whiteTurn) else Ok(s.history);
    if h.Crash? then Step(s, Crash)
    else Step(s.(history := h.value, whiteTurn := !s.whiteTurn, pointer := Advance(s.pointer, s.whiteTurn)),
              Ok(Played(movement)))
  }

  // -----------------------------------------------------------------------
  // go2

  /** Python's `seq[i]` with a possibly negative index. */
  function PyIndex<T>(xs: seq<T>, i: int): Option<T>
  {
    if 0 <= i < |xs| then Some(xs[i]) else if -|xs| <= i < 0 then Some(xs[|xs| + i]) else None
  }

  /** The fields after `go2`, and whether it returned normally. */
  datatype Jump = Jump(state: State, done: bool)

  /** `go2`: the board of the recorded snapshot, that side to move, a fresh
      cache and the pointer; castle flags, last move and history are kept.
      A snapshot that does not decode to an 8x8 board counts as a failure. */
  function Go2(s: State, turn: int, white: bool): (r: Jump)
    requires ValidState(s)
    ensures r.state.flags == s.flags && r.state.last == s.last && r.state.history == s.history
    ensures r.done ==> r.state.whiteTurn == white && r.state.pointer == (turn, white) && ValidState(r.state)
    ensures !r.done ==> r.state == s.(board := r.state.board, whiteTurn := r.state.whiteTurn)
  {
    match PyIndex(s.history, turn)
    case None => Jump(s, false)
    case Some(entry) =>
      var fens := entry.fens;
      if fens == [] || (!white && |fens| < 2) then Jump(s, false)
      else
        match FenToBoard(if white then fens[0] else fens[1])
        case Crash => Jump(s, false)
        case Ok(b) =>
          if !ValidBoard(b) then Jump(s, false)
          else Reload(s.(board := b, whiteTurn := white), turn, white)
  }

  /** The rest of `go2` once the board and the side to move are set: a
      fresh cache and the pointer. */
  function Reload(s: State, turn: int, white: bool): (r: Jump)
    requires ValidState(s)
    ensures r.done ==> r.state.board == s.board && r.state.whiteTurn == s.whiteTurn && r.state.history == s.history
                       && r.state.pointer == (turn, white) && ValidState(r.state)
    ensures !r.done ==> r.state == s
  {
    match Calc(CtxOf(s), false, true, s.pinned)
    case Crash => Jump(s, false)
    case Ok(m) => Jump(s.(cache := m.moves, pinned := m.pinned, pointer := (turn, white)), true)
  }
}
