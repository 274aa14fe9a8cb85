/** What `make_move`, `go2` and the constructor promise, proved about the
    transition functions of module Game. */
module GameProps {
  import opened Pieces
  import opened Squares
  import opened Boards
  import opened Fen
  import opened MoveGen
  import opened Notation
  import opened Game
  import opened MoveGenProps

  // -----------------------------------------------------------------------
  // Refusals

  /** Execute and the steps after it only ever answer with a played move. */
  lemma {:induction false} ConcludeFacts(s: State, movement: string, add: bool)
    requires ValidState(s)
    ensures var r := Conclude(s, movement, add);
            r.reply.Ok? ==> r.reply == Ok(Played(movement))
                            && r.state == s.(history := r.state.history, whiteTurn := !s.whiteTurn,
                                             pointer := Advance(s.pointer, s.whiteTurn))
                            && (add ==> Record(s.history, movement, BoardToFen(s.board), s.whiteTurn) == Ok(r.state.history))
                            && (!add ==> r.state.history == s.history)
    ensures var r := Conclude(s, movement, add); r.reply.Crash? ==> r.state == s
  {
  }

  /** After the board is set, the rest of `make_move` keeps the board and the
      last move, raises flags only, flips the turn and records the notation
      with its check suffix. */
  lemma AfterMoveFacts(s: State, movement: string, src: Pos, add: bool)
    requires ValidState(s)
    ensures Concluded(s.(flags := UpdateFlags(s.flags, movement, s.whiteTurn, src)), AfterMove(s, movement, src, add), movement, add)
  {
    RefreshFacts(s.(flags := UpdateFlags(s.flags, movement, s.whiteTurn, src), pinned := []), movement, add);
  }

  /** The recomputation step ends as `Concluded` says. */
  lemma RefreshFacts(s: State, movement: string, add: bool)
    requires ValidState(s)
    ensures Concluded(s, Refresh(s, movement, add), movement, add)
  {
    var m := Calc(CtxOf(s), false, true, s.pinned);
    if m.Ok? {
      AnnounceFacts(s.(cache := m.value.moves, pinned := m.value.pinned), movement, add);
    }
  }

  /** What the last steps of `make_move` promise: the answer is the
      notation plus '', '+' or '#'; board, last move, flags and the
      initializing mark are kept; the turn flips, the pointer advances and
      the history records the move when asked to. */
  ghost predicate Concluded(s: State, r: Step, movement: string, add: bool)
    requires ValidState(s)
  {
    r.reply.Ok? ==>
      r.reply.value.Played?
      && (r.reply.value.notation == movement || r.reply.value.notation == movement + "+"
          || r.reply.value.notation == movement + "#")
      && r.state.board == s.board && r.state.last == s.last && r.state.flags == s.flags
      && r.state.whiteTurn == !s.whiteTurn && r.state.pointer == Advance(s.pointer, s.whiteTurn)
      && r.state.initializing == s.initializing
      && (add ==> Record(s.history, r.reply.value.notation, BoardToFen(s.board), s.whiteTurn) == Ok(r.state.history))
      && (!add ==> r.state.history == s.history)
      && ValidState(r.state)
  }

  /** The king-status step ends as `Concluded` says. */
  lemma AnnounceFacts(s: State, movement: string, add: bool)
    requires ValidState(s)
    ensures Concluded(s, Announce(s, movement, add), movement, add)
  {
    var k := KingStatus(CtxOf(s), !s.whiteTurn, false, s.pinned);
    if k.Ok? {
      SuffixFacts(s.(pinned := k.value.pinned), k.value.danger, movement, add);
    }
  }

  /** The suffix step ends as `Concluded` says. */
  lemma SuffixFacts(s: State, danger: int, movement: string, add: bool)
    requires ValidState(s)
    ensures Concluded(s, Suffix(s, danger, movement, add), movement, add)
  {
    if danger == 1 {
      var m := Calc(CtxOf(s), true, true, s.pinned);
      if m.Ok? {
        ConcludeFacts(s.(cache := m.value.moves, pinned := m.value.pinned), movement + "+", add);
      }
    } else {
      ConcludeFacts(s, if danger == 2 then movement + "#" else movement, add);
    }
  }

  /** A notation ending with a square's name is not a castle string. */
  lemma NotCastle(text: string, prefix: string, dst: Pos)
    requires Target(dst) && |text| >= 2 && text[|text| - 2..] == ArrayToLogic(dst)
    ensures !IsCastle(prefix + text)
  {
    var m := prefix + text;
    assert m[|m| - 1] == text[|text| - 1];
  }

  /** The board writes of a move, as a whole: the piece on the destination,
      the source and a captured pawn emptied, the rook moved on a castle, and
      every other square as it was. */
  lemma MoveBoardFacts(b: Board, pc: Piece, src: Pos, dst: Pos, captured: Option<Pos>, movement: string, white: bool)
    requires ValidBoard(b) && OnBoard(src) && Target(dst) && (captured.Some? ==> Target(captured.value))
    requires IsCastle(movement) ==> captured.None? && src.y == 4 && (dst.y == 2 || dst.y == 6)
    ensures var r := CastleRook(Lift(b, pc, src, dst, captured), movement, white);
            At(r, Cell(dst)) == Code(pc)
            && (Cell(dst) != src ==> At(r, src) == 0)
            && (captured.Some? && Cell(captured.value) != Cell(dst) ==> At(r, Cell(captured.value)) == 0)
            && (forall q {:trigger At(r, q)} :: (OnBoard(q) && q != src && q != Cell(dst) && (captured.Some? ==> q != Cell(captured.value))
                             && !(IsCastle(movement) && q.x == HomeRow(white))) ==> At(r, q) == At(b, q))
  {
    var b1 := Lift(b, pc, src, dst, captured);
    if captured.Some? {
      assert Cell(captured.value) != src || Cell(captured.value) == src;
    }
    assert forall q {:trigger q in RookSquares(movement, white)} :: q in RookSquares(movement, white) ==> q.x == HomeRow(white) && q.y != 4 && q.y != 2 && q.y != 6;
  }

  /** The board writes of `make_move`, given the shape of its notation. */
  lemma PlaceFacts(s: State, pc: Piece, src: Pos, dst: Pos, text: string)
    requires ValidState(s) && OnBoard(src) && Target(dst) && !s.last.Cleared?
    requires pc.kind == King && CastleText(src, dst).Some? ==> text == CastleText(src, dst).value
    requires !(pc.kind == King && CastleText(src, dst).Some?) ==> |text| >= 2 && text[|text| - 2..] == ArrayToLogic(dst)
    ensures var p := Place(s, pc, src, dst, text);
            var castle := pc.kind == King && CastleText(src, dst).Some?;
            var ep := EnPassantCapture(s, pc, src, dst);
            var row := HomeRow(s.whiteTurn);
            At(p.board, Cell(dst)) == Code(pc)
            && (Cell(dst) != src ==> At(p.board, src) == 0)
            && (castle && CastleText(src, dst).value == "O-O" ==>
                  At(p.board, Pos(row, 7)) == 0 && At(p.board, Pos(row, 5)) == Code(Piece(ColorOf(s.whiteTurn), Rook)))
            && (castle && CastleText(src, dst).value == "O-O-O" ==>
                  At(p.board, Pos(row, 0)) == 0 && At(p.board, Pos(row, 3)) == Code(Piece(ColorOf(s.whiteTurn), Rook)))
            && (ep && Cell(dst) != Cell(s.last.to) ==> At(p.board, Cell(s.last.to)) == 0)
            && (forall q {:trigger At(p.board, q)} :: (OnBoard(q) && q != src && q != Cell(dst) && !(ep && q == Cell(s.last.to))
                             && !(castle && q.x == row)) ==> At(p.board, q) == At(s.board, q))
  {
    var ep := EnPassantCapture(s, pc, src, dst);
    var castle := pc.kind == King && CastleText(src, dst).Some?;
    var movement := if ep then [FileChar(src.y), 'x'] + text else text;
    if !castle {
      NotCastle(text, if ep then [FileChar(src.y), 'x'] else [], dst);
    }
    var captured := if ep then Some(s.last.to) else None;
    MoveBoardFacts(s.board, pc, src, dst, captured, movement, s.whiteTurn);
  }

  /** What the body of `make_move` does once the move is in the cache:
      the fields other than the board. */
  lemma {:induction false} ExecuteFacts(s: State, pc: Piece, src: Pos, dst: Pos, promote: Option<Piece>, add: bool)
    requires ValidState(s) && src in s.cache && dst in s.cache[src]
    ensures OnBoard(src) && Target(dst)
    ensures var r := Execute(s, pc, src, dst, promote, add);
            r.reply.Ok? ==>
              r.reply.value.Played? && ValidState(r.state)
              && !s.last.Cleared?
              && r.state.last == Moved(pc, src, dst)
              && Monotone(s.flags, r.state.flags)
              && r.state.whiteTurn == !s.whiteTurn && r.state.pointer == Advance(s.pointer, s.whiteTurn)
              && (!add ==> r.state.history == s.history)
              && (add ==> Record(s.history, r.reply.value.notation, BoardToFen(r.state.board), s.whiteTurn) == Ok(r.state.history))
              && NotationFromMove(CtxOf(s), pc, src, dst, s.pinned).Ok?
              && var p := Place(s, pc, src, dst, NotationFromMove(CtxOf(s), pc, src, dst, s.pinned).value.text);
                 r.state.board == (if Promotes(pc, dst, promote, s.whiteTurn) then PutPiece(p.board, promote, dst) else p.board)
  {
    var i :| 0 <= i < |s.cache[src]| && s.cache[src][i] == dst;
    var r := Execute(s, pc, src, dst, promote, add);
    if r.reply.Ok? {
      var t := NotationFromMove(CtxOf(s), pc, src, dst, s.pinned).value;
      var s2 := s.(pinned := t.pinned);
      var p := Place(s2, pc, src, dst, t.text);
      assert p == Place(s, pc, src, dst, t.text);
      var s3 := s2.(board := p.board, last := Moved(pc, src, dst));
      assert r == Promote(s3, pc, src, dst, promote, p.movement, add);
      PromoteFacts(s3, pc, src, dst, promote, p.movement, add);
    }
  }

  /** The promotion step and what follows it keep the last move, raise
      flags only, flip the turn and record the notation. */
  lemma PromoteFacts(s: State, pc: Piece, src: Pos, dst: Pos, promote: Option<Piece>, movement: string, add: bool)
    requires ValidState(s) && Target(dst)
    ensures var r := Promote(s, pc, src, dst, promote, movement, add);
            r.reply.Ok? ==>
              r.reply.value.Played? && ValidState(r.state)
              && r.state.last == s.last
              && Monotone(s.flags, r.state.flags)
              && r.state.whiteTurn == !s.whiteTurn && r.state.pointer == Advance(s.pointer, s.whiteTurn)
              && (!add ==> r.state.history == s.history)
              && (add ==> Record(s.history, r.reply.value.notation, BoardToFen(r.state.board), s.whiteTurn) == Ok(r.state.history))
              && r.state.board == (if Promotes(pc, dst, promote, s.whiteTurn) then PutPiece(s.board, promote, dst) else s.board)
  {
    if Promotes(pc, dst, promote, s.whiteTurn) {
      var s4 := s.(board := PutPiece(s.board, promote, dst));
      if PromotionLetter(promote.value.kind).Some? {
        AfterMoveFacts(s4, movement + ['=', PromotionLetter(promote.value.kind).value], src, add);
      }
    } else {
      AfterMoveFacts(s, movement, src, add);
    }
  }

  /** `make_move` answers `(False, '')` exactly when the mover is mated or
      the source is not a key of the cache, and the bare `None` exactly when
      the source is a key whose list lacks the destination; in all three
      cases nothing but the pinned list (which `assess_king_status` may
      extend) has changed. */
  lemma MakeMoveRefusals(s: State, pc: Piece, src: Pos, dst: Pos, promote: Option<Piece>, add: bool)
    requires ValidState(s)
    ensures var r := MakeMove(s, pc, src, dst, promote, add);
            var st := KingStatus(CtxOf(s), s.whiteTurn, true, s.pinned);
            r.reply == Ok(Refused) <==> st.Ok? && (st.value.danger == 2 || src !in s.cache)
    ensures var r := MakeMove(s, pc, src, dst, promote, add);
            var st := KingStatus(CtxOf(s), s.whiteTurn, true, s.pinned);
            r.reply == Ok(Unanswered) <==>
              st.Ok? && st.value.danger != 2 && src in s.cache && dst !in s.cache[src]
    ensures var r := MakeMove(s, pc, src, dst, promote, add);
            r.reply == Ok(Refused) || r.reply == Ok(Unanswered) ==> r.state == s.(pinned := r.state.pinned)
  {
    if src in s.cache && dst in s.cache[src] && KingStatus(CtxOf(s), s.whiteTurn, true, s.pinned).Ok? {
      ExecuteFacts(s.(pinned := KingStatus(CtxOf(s), s.whiteTurn, true, s.pinned).value.pinned), pc, src, dst, promote, add);
    }
  }

  /** A played move: the source was a key of the cache and the destination
      in its list; the flags only rise, the turn flips, the pointer counts
      Black's moves, and the history gains the notation with the new
      position's FEN. */
  lemma MakeMovePlays(s: State, pc: Piece, src: Pos, dst: Pos, promote: Option<Piece>, add: bool)
    requires ValidState(s)
    ensures var r := MakeMove(s, pc, src, dst, promote, add);
            r.reply.Ok? && r.reply.value.Played? ==>
              src in s.cache && dst in s.cache[src] && ValidState(r.state)
              && r.state.last == Moved(pc, src, dst)
              && Monotone(s.flags, r.state.flags)
              && r.state.whiteTurn == !s.whiteTurn && r.state.pointer == Advance(s.pointer, s.whiteTurn)
              && (!add ==> r.state.history == s.history)
              && (add ==> Record(s.history, r.reply.value.notation, BoardToFen(r.state.board), s.whiteTurn) == Ok(r.state.history))
  {
    var r := MakeMove(s, pc, src, dst, promote, add);
    MakeMoveRefusals(s, pc, src, dst, promote, add);
    if r.reply.Ok? && r.reply.value.Played? {
      var s1 := s.(pinned := KingStatus(CtxOf(s), s.whiteTurn, true, s.pinned).value.pinned);
      ExecuteFacts(s1, pc, src, dst, promote, add);
    }
  }

  /** The board after a played move: the piece (or its promotion) stands on
      the destination, the source is empty, a castle has moved its rook, an
      en passant has removed the pawn beside, and nothing else changed. */
  ghost predicate BoardAfterMove(s: State, pc: Piece, src: Pos, dst: Pos, promote: Option<Piece>, b: Board)
    requires ValidState(s) && ValidBoard(b) && OnBoard(src) && Target(dst)
  {
    var castle := pc.kind == King && CastleText(src, dst).Some?;
    var ep := EnPassantCapture(s, pc, src, dst);
    var row := HomeRow(s.whiteTurn);
    At(b, Cell(dst)) == (if Promotes(pc, dst, promote, s.whiteTurn) then Code(promote.value) else Code(pc))
    && (Cell(dst) != src ==> At(b, src) == 0)
    && (castle && CastleText(src, dst).value == "O-O" ==>
          At(b, Pos(row, 7)) == 0 && At(b, Pos(row, 5)) == Code(Piece(ColorOf(s.whiteTurn), Rook)))
    && (castle && CastleText(src, dst).value == "O-O-O" ==>
          At(b, Pos(row, 0)) == 0 && At(b, Pos(row, 3)) == Code(Piece(ColorOf(s.whiteTurn), Rook)))
    && (ep && !s.last.Cleared? && Cell(dst) != Cell(s.last.to) ==> At(b, Cell(s.last.to)) == 0)
    && (forall q {:trigger At(b, q)} :: (OnBoard(q) && q != src && q != Cell(dst) && !(ep && !s.last.Cleared? && q == Cell(s.last.to))
                     && !(castle && q.x == row)) ==> At(b, q) == At(s.board, q))
  }

  /** The writes of `Place`, then the promoted piece if any. */
  lemma PromotedBoard(s: State, pc: Piece, src: Pos, dst: Pos, promote: Option<Piece>, text: string)
    requires ValidState(s) && OnBoard(src) && Target(dst) && !s.last.Cleared?
    requires pc.kind == King && CastleText(src, dst).Some? ==> text == CastleText(src, dst).value
    requires !(pc.kind == King && CastleText(src, dst).Some?) ==> |text| >= 2 && text[|text| - 2..] == ArrayToLogic(dst)
    ensures var p := Place(s, pc, src, dst, text);
            var b := if Promotes(pc, dst, promote, s.whiteTurn) then PutPiece(p.board, promote, dst) else p.board;
            ValidBoard(b) && BoardAfterMove(s, pc, src, dst, promote, b)
  {
    PlaceFacts(s, pc, src, dst, text);
  }

  /** The board writes of the body of `make_move`, promotion included. */
  lemma ExecuteBoard(s: State, pc: Piece, src: Pos, dst: Pos, promote: Option<Piece>, add: bool)
    requires ValidState(s) && src in s.cache && dst in s.cache[src]
    ensures OnBoard(src) && Target(dst)
    ensures var r := Execute(s, pc, src, dst, promote, add);
            r.reply.Ok? ==> ValidState(r.state) && BoardAfterMove(s, pc, src, dst, promote, r.state.board)
  {
    var r := Execute(s, pc, src, dst, promote, add);
    ExecuteFacts(s, pc, src, dst, promote, add);
    if r.reply.Ok? {
      var text := NotationFromMove(CtxOf(s), pc, src, dst, s.pinned).value.text;
      PromotedBoard(s, pc, src, dst, promote, text);
    }
  }

  /** A played move leaves the board `BoardAfterMove` describes. */
  lemma MakeMoveBoard(s: State, pc: Piece, src: Pos, dst: Pos, promote: Option<Piece>, add: bool)
    requires ValidState(s)
    ensures var r := MakeMove(s, pc, src, dst, promote, add);
            r.reply.Ok? && r.reply.value.Played? ==>
              OnBoard(src) && Target(dst) && ValidState(r.state)
              && BoardAfterMove(s, pc, src, dst, promote, r.state.board)
  {
    var r := MakeMove(s, pc, src, dst, promote, add);
    MakeMoveRefusals(s, pc, src, dst, promote, add);
    if r.reply.Ok? && r.reply.value.Played? {
      var s1 := s.(pinned := KingStatus(CtxOf(s), s.whiteTurn, true, s.pinned).value.pinned);
      assert r == Execute(s1, pc, src, dst, promote, add);
      ExecuteBoard(s1, pc, src, dst, promote, add);
      PinnedIrrelevant(s, s1.pinned, pc, src, dst, promote, r.state.board);
    }
  }

  /** The pinned list plays no part in the description of the board. */
  lemma PinnedIrrelevant(s: State, pinned: seq<Pos>, pc: Piece, src: Pos, dst: Pos, promote: Option<Piece>, b: Board)
    requires ValidState(s) && ValidState(s.(pinned := pinned)) && ValidBoard(b) && OnBoard(src) && Target(dst)
    ensures BoardAfterMove(s.(pinned := pinned), pc, src, dst, promote, b) == BoardAfterMove(s, pc, src, dst, promote, b)
  {
    assert EnPassantCapture(s.(pinned := pinned), pc, src, dst) == EnPassantCapture(s, pc, src, dst);
  }

  // -----------------------------------------------------------------------
  // go2 and the constructor

  /** The snapshot `go2(turn, white)` reads, if the history has one. */
  function Snapshot(h: seq<HistoryEntry>, turn: int, white: bool): Option<string>
  {
    match PyIndex(h, turn)
    case None => None
    case Some(e) => if white && |e.fens| >= 1 then Some(e.fens[0])
                    else if !white && |e.fens| >= 2 then Some(e.fens[1])
                    else None
  }

  /** A successful `go2` puts the snapshot's board up with the requested side
      to move, recomputes the cache and sets the pointer; castle flags, last
      move and history are those from before. A failed one has changed at
      most the board and the side to move. */
  lemma Go2Facts(s: State, turn: int, white: bool)
    requires ValidState(s)
    ensures var r := Go2(s, turn, white);
            r.done ==> Snapshot(s.history, turn, white).Some?
                       && FenToBoard(Snapshot(s.history, turn, white).value) == Ok(r.state.board)
                       && r.state.whiteTurn == white && r.state.pointer == (turn, white)
                       && ValidState(r.state)
                       && Calc(CtxOf(s.(board := r.state.board, whiteTurn := white)), false, true, s.pinned).Ok?
                       && r.state.cache == Calc(CtxOf(s.(board := r.state.board, whiteTurn := white)), false, true, s.pinned).value.moves
    ensures var r := Go2(s, turn, white);
            r.state.flags == s.flags && r.state.last == s.last && r.state.history == s.history
            && r.state.initializing == s.initializing
    ensures var r := Go2(s, turn, white);
            !r.done ==> r.state == s.(board := r.state.board, whiteTurn := r.state.whiteTurn)
  {
  }

  /** `go2` to a snapshot written from board `b` puts `b` back. */
  lemma Go2Restores(s: State, turn: int, white: bool, b: Board)
    requires ValidState(s) && ValidBoard(b)
    requires Snapshot(s.history, turn, white) == Some(BoardToFen(b))
    ensures Go2(s, turn, white).state.board == b
    ensures Go2(s, turn, white).state.whiteTurn == white
  {
    FenRoundTrip(b);
  }

  /** The engine can go back to the position a White move has just
      recorded: the new history entry's snapshot is the board after it. */
  lemma MoveThenGo2(s: State, pc: Piece, src: Pos, dst: Pos, promote: Option<Piece>)
    requires ValidState(s) && s.whiteTurn
    ensures var r := MakeMove(s, pc, src, dst, promote, true);
            r.reply.Ok? && r.reply.value.Played? ==>
              ValidState(r.state) &&
              var back := Go2(r.state, |s.history|, true);
              back.state.board == r.state.board && back.state.whiteTurn
  {
    var r := MakeMove(s, pc, src, dst, promote, true);
    MakeMovePlays(s, pc, src, dst, promote, true);
    if r.reply.Ok? && r.reply.value.Played? {
      RecordedGo2(r.state, s.history, r.reply.value.notation);
    }
  }

  lemma RecordedGo2(t: State, h: seq<HistoryEntry>, movement: string)
    requires ValidState(t) && Record(h, movement, BoardToFen(t.board), true) == Ok(t.history)
    ensures Go2(t, |h|, true).state.board == t.board && Go2(t, |h|, true).state.whiteTurn
  {
    assert t.history[|h|] == HistoryEntry([movement], [BoardToFen(t.board)]);
    Go2Restores(t, |h|, true, t.board);
  }

  /** A new engine: the standard position, White to move, no flags, no
      move and no history, the pointer at (0, White), and a cache whose
      keys are occupied squares. */
  lemma InitialFacts()
    ensures Initial().Ok?
    ensures var r := Initial();
            r.Ok? ==> r.value.board == InitialBoard() && r.value.whiteTurn && r.value.flags == NoFlags
                      && r.value.last == NoMove && r.value.history == [] && r.value.pointer == (0, true)
                      && !r.value.initializing && ValidState(r.value)
                      && KeysOccupied(r.value.board, r.value.cache)
  {
    var s := State(InitialBoard(), true, NoFlags, LastTurn.Cleared, map[], [], [], (0, true), true);
    CalcKeys(CtxOf(s), false, true, []);
  }
}
