/** The older copy of the bitboard (src/bitboard.py): the same square-to-bit
    mapping written as two shifts, the same eight masks, and a list of 32
    piece records built by the constructor. */
module BitboardLegacy {
  import opened Pieces
  import opened Bits
  import opened Boards
  import Bitboard

  /** `get_bitboard_position` of this copy: `(1 << col) << (row * 8)` with
      `row = int(rank) - 1`; a negative shift count raises. */
  function BitPositionShifted(position: string): (r: Outcome<nat>)
    ensures r == Bitboard.BitPosition(position)
  {
    if |position| < 2 then Crash
    else
      match Bitboard.ColIndex(position[0])
      case None => Crash
      case Some(col) =>
        match Bitboard.Digit(position[1])
        case None => Crash
        case Some(d) =>
          var row := d - 1;
          if row * 8 < 0 then Crash
          else
            Pow2Add(col, row * 8);
            Ok(Pow2(col) * Pow2(row * 8))
  }

  /** `ChessPiece`: a type name, a square name and the owner. */
  datatype ChessPiece = ChessPiece(ptype: string, position: string, whitePlayer: bool)

  /** `ChessPiece.value` as written: it reads the attribute `type`, which the
      constructor never sets (it sets `ptype`), so every call raises. */
  function PieceValue(p: ChessPiece): (r: Outcome<int>)
    ensures !r.Ok?
  {
    Crash
  }

  /** The table `values` inside `ChessPiece.value`. */
  function ValueTable(): map<string, int>
  {
    map["king" := 100, "queen" := 9, "rook" := 5, "bishop" := 3, "knight" := 3, "pawn" := 1]
  }

  /** `ChessPiece.value` reading `ptype`, as evidently intended: an unknown
      type name raises. */
  function IntendedValue(p: ChessPiece): (r: Outcome<int>)
    ensures r.Ok? <==> p.ptype in ValueTable()
  {
    if p.ptype in ValueTable() then Ok(ValueTable()[p.ptype]) else Crash
  }

  /** One row of `init_positions`: a type with its white and black squares. */
  datatype Entry = Entry(ptype: string, whiteSquare: string, blackSquare: string)

  const InitPositions: seq<Entry> := [
    Entry("king", "e1", "e8"),
    Entry("queen", "d1", "d8"),
    Entry("bishop", "c1", "c8"),
    Entry("bishop", "f1", "f8"),
    Entry("knight", "b1", "b8"),
    Entry("knight", "g1", "g8"),
    Entry("rook", "a1", "a8"),
    Entry("rook", "h1", "h8")
  ]

  /** `_cols_str`. */
  const ColsStr: string := "abcdefgh"

  /** The pieces the first loop appends for `entries`: per row, the white
      piece and then the black one. */
  function Officers(entries: seq<Entry>): (ps: seq<ChessPiece>)
    ensures |ps| == 2 * |entries|
  {
    if entries == [] then []
    else
      var e := entries[|entries| - 1];
      Officers(entries[..|entries| - 1]) + [ChessPiece(e.ptype, e.whiteSquare, true), ChessPiece(e.ptype, e.blackSquare, false)]
  }

  /** The pieces the second loop appends for the files `cols`: a white pawn
      on rank 2 and a black pawn on rank `blackRank`. */
  function PawnRow(cols: string, blackRank: char): (ps: seq<ChessPiece>)
    ensures |ps| == 2 * |cols|
  {
    if cols == [] then []
    else
      var c := cols[|cols| - 1];
      PawnRow(cols[..|cols| - 1], blackRank) + [ChessPiece("pawn", [c, '2'], true), ChessPiece("pawn", [c, blackRank], false)]
  }

  /** The `pieces` list with the black pawns on `blackPawnRank`: the source
      writes `'1'`. */
  function Roster(blackPawnRank: char): (r: seq<ChessPiece>)
    ensures |r| == 32
  {
    Officers(InitPositions) + PawnRow(ColsStr, blackPawnRank)
  }

  lemma {:induction false} OfficerAt(entries: seq<Entry>, k: nat)
    requires k < 2 * |entries|
    ensures Officers(entries)[k] ==
      if k % 2 == 0 then ChessPiece(entries[k / 2].ptype, entries[k / 2].whiteSquare, true)
      else ChessPiece(entries[k / 2].ptype, entries[k / 2].blackSquare, false)
  {
    var n := |entries|;
    if k < 2 * (n - 1) {
      OfficerAt(entries[..n - 1], k);
    }
  }

  lemma {:induction false} PawnAt(cols: string, blackRank: char, k: nat)
    requires k < 2 * |cols|
    ensures PawnRow(cols, blackRank)[k] ==
      if k % 2 == 0 then ChessPiece("pawn", [cols[k / 2], '2'], true)
      else ChessPiece("pawn", [cols[k / 2], blackRank], false)
  {
    var n := |cols|;
    if k < 2 * (n - 1) {
      PawnAt(cols[..n - 1], blackRank, k);
    }
  }

  /** The rows of `init_positions` put each non-pawn type on rank 1 for white
      and on the same file of rank 8 for black, one row per file. */
  predicate WellPlaced(entries: seq<Entry>)
  {
    Typed(entries) && OnHomeRanks(entries) && OneFileEach(entries)
  }

  predicate Typed(entries: seq<Entry>)
  {
    forall i :: 0 <= i < |entries| ==> entries[i].ptype in ValueTable() && entries[i].ptype != "pawn"
  }

  predicate OnHomeRanks(entries: seq<Entry>)
  {
    forall i :: 0 <= i < |entries| ==>
      |entries[i].whiteSquare| == 2 && 'a' <= entries[i].whiteSquare[0] <= 'h' && entries[i].whiteSquare[1] == '1' &&
      entries[i].blackSquare == [entries[i].whiteSquare[0], '8']
  }

  predicate OneFileEach(entries: seq<Entry>)
  {
    forall i, j :: 0 <= i < j < |entries| && entries[i].whiteSquare != [] && entries[j].whiteSquare != [] ==>
      entries[i].whiteSquare[0] != entries[j].whiteSquare[0]
  }

  lemma TableTyped()
    ensures Typed(InitPositions)
  {
  }

  lemma TableOnHomeRanks()
    ensures OnHomeRanks(InitPositions)
  {
  }

  lemma TableOneFileEach()
    ensures OneFileEach(InitPositions)
  {
  }

  lemma TableWellPlaced()
    ensures WellPlaced(InitPositions)
  {
    TableTyped();
    TableOnHomeRanks();
    TableOneFileEach();
  }

  /** Piece `k` of the list: rows of `init_positions` first, then pawns, each
      white piece followed by its black counterpart. */
  lemma RosterAt(c: char, k: nat)
    requires k < 32
    ensures k < 16 ==> Roster(c)[k] == Officers(InitPositions)[k]
    ensures k < 16 ==>
      Roster(c)[k] ==
        if k % 2 == 0 then ChessPiece(InitPositions[k / 2].ptype, InitPositions[k / 2].whiteSquare, true)
        else ChessPiece(InitPositions[k / 2].ptype, InitPositions[k / 2].blackSquare, false)
    ensures 16 <= k ==>
      Roster(c)[k] ==
        if k % 2 == 0 then ChessPiece("pawn", [ColsStr[(k - 16) / 2], '2'], true)
        else ChessPiece("pawn", [ColsStr[(k - 16) / 2], c], false)
  {
    if k < 16 {
      OfficerAt(InitPositions, k);
    } else {
      PawnAt(ColsStr, c, k - 16);
    }
  }

  /** The constructor builds 32 pieces: white at even places and black at odd
      ones, the 16 non-pawns first; white stands on ranks 1 and 2, black
      non-pawns on rank 8 and black pawns on `c`. */
  lemma RosterShape(c: char)
    ensures |Roster(c)| == 32
    ensures forall k :: 0 <= k < 32 ==> (Roster(c)[k].whitePlayer <==> k % 2 == 0)
    ensures forall k :: 0 <= k < 32 ==> (Roster(c)[k].ptype == "pawn" <==> k >= 16)
    ensures forall k :: 0 <= k < 32 ==>
      |Roster(c)[k].position| == 2 && 'a' <= Roster(c)[k].position[0] <= 'h'
    ensures forall k :: 0 <= k < 32 && Roster(c)[k].whitePlayer ==>
      Roster(c)[k].position[1] == (if k < 16 then '1' else '2')
    ensures forall k :: 0 <= k < 32 && !Roster(c)[k].whitePlayer ==>
      Roster(c)[k].position[1] == (if k < 16 then '8' else c)
  {
    TableWellPlaced();
    forall k | 0 <= k < 32
      ensures Roster(c)[k].whitePlayer <==> k % 2 == 0
      ensures Roster(c)[k].ptype == "pawn" <==> k >= 16
      ensures |Roster(c)[k].position| == 2 && 'a' <= Roster(c)[k].position[0] <= 'h'
      ensures Roster(c)[k].whitePlayer ==> Roster(c)[k].position[1] == (if k < 16 then '1' else '2')
      ensures !Roster(c)[k].whitePlayer ==> Roster(c)[k].position[1] == (if k < 16 then '8' else c)
    {
      RosterAt(c, k);
    }
  }

  /** As written, the black a-pawn is put on a1, the white rook's square. */
  lemma BlackPawnOnWhiteRook()
    ensures Roster('1')[12] == ChessPiece("rook", "a1", true)
    ensures Roster('1')[17] == ChessPiece("pawn", "a1", false)
  {
    RosterAt('1', 12);
    RosterAt('1', 17);
  }

  /** The file of piece `k`: the first character of its square. */
  lemma FileOf(c: char, k: nat)
    requires k < 32
    ensures |Roster(c)[k].position| == 2
    ensures k < 16 ==> Roster(c)[k].position[0] == InitPositions[k / 2].whiteSquare[0]
    ensures 16 <= k ==> Roster(c)[k].position[0] == ColsStr[(k - 16) / 2]
  {
    TableWellPlaced();
    RosterAt(c, k);
  }

  /** With the black pawns on any rank no other piece uses (rank 7 is the
      evident intent), no two pieces share a square. */
  lemma RosterDistinct(c: char)
    requires c != '1' && c != '2' && c != '8'
    ensures forall a, b :: 0 <= a < b < 32 ==> Roster(c)[a].position != Roster(c)[b].position
  {
    RosterShape(c);
    TableWellPlaced();
    forall a, b | 0 <= a < b < 32
      ensures Roster(c)[a].position != Roster(c)[b].position
    {
      FileOf(c, a);
      FileOf(c, b);
      if (a < 16) != (b < 16) || a % 2 != b % 2 {
        assert Roster(c)[a].position[1] != Roster(c)[b].position[1];
      } else {
        assert a / 2 != b / 2;
        assert Roster(c)[a].position[0] != Roster(c)[b].position[0];
      }
    }
  }

  /** The total `value` of one side's pieces, as intended. */
  function SideValue(ps: seq<ChessPiece>, white: bool): Outcome<int>
  {
    if ps == [] then Ok(0)
    else
      var rest := SideValue(ps[1..], white);
      if ps[0].whitePlayer != white then rest
      else if IntendedValue(ps[0]).Ok? && rest.Ok? then Ok(IntendedValue(ps[0]).value + rest.value)
      else Crash
  }

  lemma {:induction false} SideValueAppend(a: seq<ChessPiece>, b: seq<ChessPiece>, white: bool)
    requires SideValue(a, white).Ok? && SideValue(b, white).Ok?
    ensures SideValue(a + b, white) == Ok(SideValue(a, white).value + SideValue(b, white).value)
  {
    if a != [] {
      assert (a + b)[0] == a[0];
      assert (a + b)[1..] == a[1..] + b;
      assert SideValue(a[1..], white).Ok?;
      SideValueAppend(a[1..], b, white);
      assert SideValue(a + b, white) == if a[0].whitePlayer != white then SideValue(a[1..] + b, white)
        else Ok(IntendedValue(a[0]).value + SideValue(a[1..] + b, white).value);
    } else {
      assert a + b == b;
    }
  }

  lemma PairValue(p: ChessPiece, q: ChessPiece, white: bool)
    requires p.whitePlayer != q.whitePlayer && p.ptype == q.ptype && p.ptype in ValueTable()
    ensures SideValue([p, q], white) == Ok(ValueTable()[p.ptype])
  {
    assert [p, q][1..] == [q];
    assert [q][1..] == [];
    assert SideValue([q], white) == if q.whitePlayer == white then Ok(ValueTable()[q.ptype]) else Ok(0);
  }

  lemma {:induction false} PawnRowValue(cols: string, blackRank: char, white: bool)
    ensures SideValue(PawnRow(cols, blackRank), white) == Ok(|cols|)
  {
    if cols != [] {
      var n := |cols|;
      var last := [ChessPiece("pawn", [cols[n - 1], '2'], true), ChessPiece("pawn", [cols[n - 1], blackRank], false)];
      PawnRowValue(cols[..n - 1], blackRank, white);
      PairValue(last[0], last[1], white);
      SideValueAppend(PawnRow(cols[..n - 1], blackRank), last, white);
    }
  }

  /** The summed `values` of the types of `entries`. */
  function EntryTotal(entries: seq<Entry>): int
  {
    if entries == [] then 0
    else
      var t := entries[|entries| - 1].ptype;
      EntryTotal(entries[..|entries| - 1]) + (if t in ValueTable() then ValueTable()[t] else 0)
  }

  lemma EntryTotalStep(entries: seq<Entry>, k: nat)
    requires k < |entries| && entries[k].ptype in ValueTable()
    ensures EntryTotal(entries[..k + 1]) == EntryTotal(entries[..k]) + ValueTable()[entries[k].ptype]
  {
    assert entries[..k + 1][..k] == entries[..k];
  }

  /** The non-pawn types of one side are worth 131. */
  lemma TableTotal()
    ensures EntryTotal(InitPositions) == 131
  {
    TableTyped();
    var t := InitPositions;
    assert t[..0] == [];
    EntryTotalStep(t, 0);
    EntryTotalStep(t, 1);
    EntryTotalStep(t, 2);
    EntryTotalStep(t, 3);
    EntryTotalStep(t, 4);
    EntryTotalStep(t, 5);
    EntryTotalStep(t, 6);
    EntryTotalStep(t, 7);
    assert t[..8] == t;
  }

  lemma {:induction false} OfficersValue(entries: seq<Entry>, white: bool)
    requires Typed(entries)
    ensures SideValue(Officers(entries), white) == Ok(EntryTotal(entries))
  {
    if entries != [] {
      var n := |entries|;
      var e := entries[n - 1];
      var last := [ChessPiece(e.ptype, e.whiteSquare, true), ChessPiece(e.ptype, e.blackSquare, false)];
      OfficersValue(entries[..n - 1], white);
      PairValue(last[0], last[1], white);
      SideValueAppend(Officers(entries[..n - 1]), last, white);
    }
  }

  /** With the intended `value`, each side opens with 139 points of material:
      king 100, queen 9, two rooks, two bishops, two knights and eight pawns. */
  lemma OpeningMaterial(c: char)
    ensures SideValue(Roster(c), true) == Ok(139)
    ensures SideValue(Roster(c), false) == Ok(139)
  {
    TableTyped();
    TableTotal();
    OfficersValue(InitPositions, true);
    OfficersValue(InitPositions, false);
    PawnRowValue(ColsStr, c, true);
    PawnRowValue(ColsStr, c, false);
    SideValueAppend(Officers(InitPositions), PawnRow(ColsStr, c), true);
    SideValueAppend(Officers(InitPositions), PawnRow(ColsStr, c), false);
  }

  class ChessBitboard {
    var board: Board
    var kings: bv64
    var queens: bv64
    var bishops: bv64
    var knights: bv64
    var rooks: bv64
    var pawns: bv64
    var white: bv64
    var black: bv64
    var pieces: seq<ChessPiece>

    /** `ChessBitboard.__init__` of this copy: the engine's eight masks and
        the 32-piece list with the black pawns on rank 1. */
    constructor(board: Board)
      ensures this.board == board
      ensures kings == Bitboard.Kings && queens == Bitboard.Queens && bishops == Bitboard.Bishops
      ensures knights == Bitboard.Knights && rooks == Bitboard.Rooks && pawns == Bitboard.Pawns
      ensures white == Bitboard.WhiteMask && black == Bitboard.BlackMask
      ensures pieces == Roster('1')
    {
      var ps: seq<ChessPiece> := [];
      var i := 0;
      while i < |InitPositions|
        invariant 0 <= i <= |InitPositions|
        invariant ps == Officers(InitPositions[..i])
      {
        var e := InitPositions[i];
        ps := ps + [ChessPiece(e.ptype, e.whiteSquare, true), ChessPiece(e.ptype, e.blackSquare, false)];
        assert InitPositions[..i + 1][..i] == InitPositions[..i];
        i := i + 1;
      }
      assert InitPositions[..i] == InitPositions;
      var j := 0;
      while j < |ColsStr|
        invariant 0 <= j <= |ColsStr|
        invariant ps == Officers(InitPositions) + PawnRow(ColsStr[..j], '1')
      {
        var col := ColsStr[j];
        ps := ps + [ChessPiece("pawn", [col, '2'], true), ChessPiece("pawn", [col, '1'], false)];
        assert ColsStr[..j + 1][..j] == ColsStr[..j];
        j := j + 1;
      }
      assert ColsStr[..j] == ColsStr;
      this.board := board;
      kings := 576460752303423496;
      queens := 1152921504606846992;
      bishops := 2594073385365405732;
      knights := 4755801206503243842;
      rooks := 9295429630892703873;
      pawns := 71776119061282560;
      white := 65535;
      black := 18446462598732840960;
      pieces := ps;
    }
  }
}
