/** Colours, piece kinds and the signed-integer piece codes of the board
    (src/neuralcheck/logic.py:92-118): the sign is the colour, the magnitude
    1..6 the kind, 0 an empty square. */
module Pieces {

  /** A Python exception that the engine does not catch. */
  datatype Outcome<T> = Ok(value: T) | Crash {
    predicate IsOk() { Ok? }
  }

  datatype Option<T> = None | Some(value: T)

  datatype Color = White | Black {
    function Opponent(): Color { if this == White then Black else White }
    /** `player_turn` in the engine: +1 for white, -1 for black. */
    function Sign(): int { if this == White then 1 else -1 }
  }

  datatype Kind = Pawn | Knight | Bishop | Rook | Queen | King

  datatype Piece = Piece(color: Color, kind: Kind)

  function ColorOf(white: bool): Color { if white then White else Black }

  function KindCode(k: Kind): (n: int)
    ensures 1 <= n <= 6
    ensures n == 6 <==> k == King
    ensures n == 1 <==> k == Pawn
  {
    match k
    case Pawn => 1
    case Knight => 2
    case Bishop => 3
    case Rook => 4
    case Queen => 5
    case King => 6
  }

  function KindOfCode(n: int): Option<Kind>
  {
    if n == 1 then Some(Pawn)
    else if n == 2 then Some(Knight)
    else if n == 3 then Some(Bishop)
    else if n == 4 then Some(Rook)
    else if n == 5 then Some(Queen)
    else if n == 6 then Some(King)
    else None
  }

  /** The board code that `set_piece` writes for a piece. */
  function Code(p: Piece): (v: int)
    ensures v != 0 && -6 <= v <= 6
    ensures (v > 0) <==> p.color == White
  {
    if p.color == White then KindCode(p.kind) else -KindCode(p.kind)
  }

  function Abs(v: int): nat { if v < 0 then -v else v }

  /** `np.sign`. */
  function Sign(v: int): int { if v > 0 then 1 else if v < 0 then -1 else 0 }

  /** The piece a non-zero board code stands for. */
  function Decode(v: int): (r: Option<Piece>)
    ensures r.Some? <==> v != 0 && -6 <= v <= 6
  {
    match KindOfCode(Abs(v))
    case None => None
    case Some(k) => Some(Piece(if v > 0 then White else Black, k))
  }

  lemma DecodeCode(p: Piece)
    ensures Decode(Code(p)) == Some(p)
  {
    match p.kind
    case Pawn =>
    case Knight =>
    case Bishop =>
    case Rook =>
    case Queen =>
    case King =>
  }

  lemma CodeDecode(v: int)
    requires v != 0 && -6 <= v <= 6
    ensures Decode(v).Some? && Code(Decode(v).value) == v
  {
  }

  /** The capital letter of the notation for a non-pawn kind (logic.py:699-716),
      and the FEN letter case-folded to white. */
  function Letter(k: Kind): char
  {
    match k
    case Pawn => 'P'
    case Knight => 'N'
    case Bishop => 'B'
    case Rook => 'R'
    case Queen => 'Q'
    case King => 'K'
  }

  /** Pieces that move along rays and so can pin (`piece_rays`, logic.py:355). */
  predicate IsRayPiece(k: Kind) { k == Queen || k == Bishop || k == Rook }
}
