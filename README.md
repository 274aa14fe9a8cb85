# NeuralCheck chess core in Dafny

This project models the core of NeuralCheck, a small Python chess program, and
proves properties of the model. It has three parts.

**The `ChessBoard` rules engine** (src/neuralcheck/logic.py).
- The board is an 8×8 array of signed piece codes: the sign is the colour and 1..6 is pawn..king.
- The engine generates moves per piece, with ray casting and pin detection.
- It filters illegal moves: castling conditions, attacked squares and answers to a check.
- It fills the legal-move cache `possible_moves` and assesses check and mate.
- `make_move` executes a move: en passant, castling, promotion, castle flags, history and turn pointer.
- It writes and reads move notation, writes and reads FEN piece placement, and travels back to recorded positions with `go2`.

**The search** (src/neuralcheck/engine/minimax.py).
- The material evaluation `value_function`.
- `TestMinimax.minimax` and `TestMinimax.minimax_ab` over game trees.

**The bitboard square mapping**, in its three copies.
- The `ChessBitboard` of src/neuralcheck/bitboard.py: mask constants, the `pieces` table, `positional_masks`, `get_bitboard_position` and `active_positions`.
- The older src/bitboard.py: the same constants, a two-shift `get_bitboard_position`, the 32-piece list and `ChessPiece.value`.
- The C function `getBitboardPosition` of src/bitboard.c.

Modules, one per file:

| module | file | what it holds |
|---|---|---|
| `Pieces` | pieces.dfy | colours, kinds, board codes, `Outcome` (a Python exception is `Crash`) |
| `Squares` | squares.dfy | `logic2array` / `array2logic`, board scan order |
| `Boards` | boards.dfy | the board as `seq<seq<int>>`, `set_piece`'s write, `what_in`, `search_for`, `assess_empty_squares` |
| `MoveGen` | movegen.dfy | `raycast`, `remove_illegal`, `allowed_movements`, `calculate_possible_moves`, `assess_ataqued_squares`, `assess_king_status` as functions of the position |
| `MoveGenProps` | movegen_props.dfy | what ray casting, pin detection and the move cache guarantee |
| `Notation` | notation.dfy | `notation_from_move`, `read_move` |
| `NotationProps` | notation_props.dfy | the notation written for a move reads back as that move |
| `Fen` | fen.dfy | `numpy2fen`, `fen2numpy` and their round trip |
| `Game` | game.dfy | the engine state and the transitions `clear_board`, `make_move`, `go2` |
| `GameProps` | game_props.dfy | what a move, a refusal and `go2` do to the state |
| `Engine` | engine.dfy | class `ChessBoard`: the engine as the source writes it, on a mutable `array2<int>`, each method proved to follow `Game` / `MoveGen` |
| `Minimax` | minimax.dfy | evaluation, minimax, alpha-beta (as written and with the standard cutoff) |
| `Bits` | bits.dfy | powers of two, bit tests and `&` on non-negative integers, 64-bit words |
| `Bitboard` | bitboard.dfy | the mapping and masks of src/neuralcheck/bitboard.py, class `ChessBitboard` |
| `BitboardLegacy` | bitboard_legacy.dfy | src/bitboard.py: two-shift mapping, piece list, `ChessPiece.value` |
| `BitboardC` | bitboard_c.dfy | src/bitboard.c: `getBitboardPosition` on a 64-bit word |

Conventions:
- **State.** The engine's state is the record `Game.State`: board, side to move, castle flags, `last_turn`, cache, pinned list, history, pointer and the `initializing` flag.
- **Class and model.** Each method of `Engine.ChessBoard` promises in its `ensures` that its new fields and result are those of the matching `Game` or `MoveGen` function.
- **Partner lemmas.** The lemmas in `GameProps`, `MoveGenProps` and `NotationProps` state what those functions guarantee.
- **Exceptions.** An exception the source does not catch (a `KeyError`, an `IndexError`, a failed unpacking) is the value `Crash`.
- **Integers.** Python integers are unbounded and are modelled as `int`/`nat`. The C function works on `bv64`.

## Model

| member | source | states |
|---|---|---|
| Pieces.KindCode | src/neuralcheck/logic.py:40-41 | kind codes are 1..6, with 6 exactly for the king and 1 exactly for the pawn |
| Pieces.Code | src/neuralcheck/logic.py:112-116 | a piece's board code is non-zero, within -6..6, and positive exactly for white |
| Pieces.Decode | src/neuralcheck/logic.py:130-133 | a board value names a piece exactly when it is non-zero and within -6..6 |
| Pieces.DecodeCode | src/neuralcheck/logic.py:112-116 | decoding the code `set_piece` writes gives back the piece |
| Pieces.CodeDecode | src/neuralcheck/logic.py:130-138 | every non-zero value in -6..6 is the code of the piece it decodes to |
| Squares.ArrayToLogic | src/neuralcheck/logic.py:77-90 | the name has two characters: a file letter, then the digit 8 - x |
| Squares.LogicToArray | src/neuralcheck/logic.py:62-75 | a name that parses gives a row in -1..8 and a column in 0..7; an unknown file or a non-digit rank raises |
| Squares.LogicToArrayRoundTrip | src/neuralcheck/logic.py:62-90 | `logic2array(array2logic(x, y)) == (x, y)` for every nameable position |
| Squares.ArrayToLogicRoundTrip | src/neuralcheck/logic.py:62-90 | `array2logic(logic2array(s))` gives back the first two characters of every name that parses |
| Squares.NamesInjective | src/neuralcheck/logic.py:77-90 | distinct positions have distinct names |
| Squares.ScanPos | src/neuralcheck/logic.py:537-538 | the k-th square of the nested loops is on the board |
| Squares.RowOf | src/neuralcheck/logic.py:537-538 | the k-th square lies in row k // 8 |
| Squares.ScanIndex | src/neuralcheck/logic.py:537-538 | every square has a scan index in 0..63 that leads back to it |
| Boards.Wrap | src/neuralcheck/logic.py:205 | a row index -8..7 reaches a row in 0..7, and a non-negative one reaches itself (numpy's negative indexing) |
| Boards.SetAt | src/neuralcheck/logic.py:116-118 | the written square holds the value, every other square is unchanged, and the board stays valid |
| Boards.WhatIn | src/neuralcheck/logic.py:120-138 | "empty" exactly on a zero entry, and the square's colour is light exactly when x + y is even; otherwise the piece whose code is the entry |
| Boards.SearchFor | src/neuralcheck/logic.py:140-157 | the result lists exactly the squares holding the piece, each once |
| Boards.SearchFrom | src/neuralcheck/logic.py:152-157 | from scan index k on, exactly the squares holding the value are listed |
| Boards.SearchAfter | src/neuralcheck/logic.py:152-157 | the squares listed from scan index k on lie at index k or later |
| Boards.SearchDistinct | src/neuralcheck/logic.py:152-157 | no square is listed twice |
| Boards.EmptySquares | src/neuralcheck/logic.py:505-520 | one flag per target, true exactly when the target is empty |
| Boards.EmptyBoard | src/neuralcheck/logic.py:50 | the zero board, every square empty |
| Boards.InitialBoard | src/neuralcheck/logic.py:22 | the opening position is a valid board |
| Fen.PieceChar | src/neuralcheck/logic.py:938-941 | a piece's letter is neither a digit nor a separator |
| Fen.CharPieceInverse | src/neuralcheck/logic.py:908-911 | `fen2numpy`'s mapping inverts `numpy2fen`'s on every piece |
| Fen.DigitChar | src/neuralcheck/logic.py:952 | a run length 0..9 is written as a digit |
| Fen.Zeros | src/neuralcheck/logic.py:920 | a digit n expands to n zeros |
| Fen.RowFen | src/neuralcheck/logic.py:944-957 | a rank's text has no '/' and no space |
| Fen.RowsFen | src/neuralcheck/logic.py:944-957 | one text per rank, in order |
| Fen.Split | src/neuralcheck/logic.py:913-916 | `str.split` always yields at least one part, and no part holds the separator |
| Fen.SplitJoin | src/neuralcheck/logic.py:916-959 | splitting a join on its separator gives back the parts |
| Fen.SplitNoSep | src/neuralcheck/logic.py:913 | a text without the separator splits into itself |
| Fen.SplitPrefix | src/neuralcheck/logic.py:913-916 | a separator-free prefix is the first part of the split |
| Fen.RowParseAppend | src/neuralcheck/logic.py:918-922 | parsing concatenated rank text concatenates the parsed squares |
| Fen.RowParseSingle | src/neuralcheck/logic.py:918-922 | a single character parses as one step of the loop |
| Fen.PendingParse | src/neuralcheck/logic.py:919-952 | the digit written for a pending run parses back to that many empty squares |
| Fen.RowFenParse | src/neuralcheck/logic.py:918-957 | a rank's FEN text parses back to the rank |
| Fen.RowFenZeroStep | src/neuralcheck/logic.py:948-949 | an empty square extends the pending run and the round trip still holds |
| Fen.RowFenPieceStep | src/neuralcheck/logic.py:950-954 | a piece flushes the pending run and the round trip still holds |
| Fen.PieceRunParse | src/neuralcheck/logic.py:951-954 | a pending run, a piece letter, then parsable text parse to zeros, the piece, the rest |
| Fen.RowsParseFen | src/neuralcheck/logic.py:915-923 | the ranks' texts parse back to the board's ranks |
| Fen.FenRoundTrip | src/neuralcheck/logic.py:897-959 | `fen2numpy(numpy2fen(b)) == b` for every 8×8 board with entries in -6..6 |
| Fen.BoardToFen | src/neuralcheck/logic.py:927-959 | the FEN has no space, and split on '/' it gives back the eight rank texts |
| Fen.FenToBoard | src/neuralcheck/logic.py:897-925 | a board parsed from FEN is non-empty and rectangular |
| Fen.JoinHasNo | src/neuralcheck/logic.py:959 | a character other than the separator that no part contains is not in the join |
| Fen.WidthAppend | src/neuralcheck/logic.py:944-957 | the squares a text covers add up over concatenation |
| Fen.RowFenShape | src/neuralcheck/logic.py:944-957 | a rank's text covers exactly its squares, no two digits are adjacent, and it starts with a digit only when it starts with an empty run |
| Fen.BoardRowsShape | src/neuralcheck/logic.py:944-957 | every rank of a board is written as text covering exactly 8 squares with no adjacent digits |
| Fen.RankToFen | src/neuralcheck/logic.py:945-957 | the loop over one rank builds that rank's FEN text |
| Fen.Numpy2Fen | src/neuralcheck/logic.py:927-959 | `numpy2fen` as written returns the FEN of the board |
| Fen.ParseRow | src/neuralcheck/logic.py:917-923 | the loop over a rank's characters returns the parsed rank, or raises where the mapping has no entry |
| Fen.Fen2Numpy | src/neuralcheck/logic.py:897-925 | `fen2numpy` as written returns the parsed board, or raises |
| MoveGen.PinScan | src/neuralcheck/logic.py:283-292 | the pinned list is unchanged or gains the captured square once, only if it was absent |
| MoveGen.RayFrom | src/neuralcheck/logic.py:277-300 | every move of a ray lands on the board and is the vector scaled by some step i..7; the pinned list is unchanged or gains one new square |
| MoveGen.Raycast | src/neuralcheck/logic.py:259-301 | every move lands on the board and is one of the vectors scaled by a step 1..7; the pinned list only grows at its end |
| MoveGen.RayFromMovesIgnorePins | src/neuralcheck/logic.py:282-298 | the moves of a ray do not depend on the pinned list |
| MoveGen.RaycastMovesIgnorePins | src/neuralcheck/logic.py:275-301 | the moves of `raycast` do not depend on the pinned list |
| MoveGen.FilterOwn | src/neuralcheck/logic.py:336-345 | a vector is kept exactly when it is given, lands on the board and, with `remove_own`, not on a friendly piece |
| MoveGen.RemoveAll | src/neuralcheck/logic.py:393-396 | `np.delete` at the matching indices removes exactly the vectors equal to the element |
| MoveGen.RemoveAttacked | src/neuralcheck/logic.py:398-405 | a king vector survives exactly when it does not land on an attacked square |
| MoveGen.KingFilter | src/neuralcheck/logic.py:357-405 | a king vector is kept exactly when it is given, does not land on an attacked square, and is not a castle vector whose castle is blocked (check, moved king or rook, occupied squares, attacked squares) |
| MoveGen.KingSquare | src/neuralcheck/logic.py:408-410 | `.item()` succeeds exactly when the colour has one king, and then returns its square; no king or two or more raise |
| MoveGen.AttackersFrom | src/neuralcheck/logic.py:413-416 | from scan index k on, exactly the cache keys whose list holds the king's square are listed |
| MoveGen.AttackersAfter | src/neuralcheck/logic.py:413-416 | every key listed from scan index k on is on the board at index k or later |
| MoveGen.AttackersDistinct | src/neuralcheck/logic.py:413-416 | no key is listed twice |
| MoveGen.SoleChecker | src/neuralcheck/logic.py:413-421 | a checker exactly when one cache key alone reaches the king; otherwise every reaching key has a second one beside it |
| MoveGen.Listed | src/neuralcheck/logic.py:413-416 | every cache key reaching the king is among the attackers |
| MoveGen.Sole | src/neuralcheck/logic.py:418-421 | a one-entry attackers list names the only key reaching the king |
| MoveGen.NotSole | src/neuralcheck/logic.py:418-421 | with any other number of attackers, each one has another beside it |
| MoveGen.SetInScanOrder | src/neuralcheck/logic.py:431-433 | from scan index k on, exactly the members of the set are listed, all on the board |
| MoveGen.CheckFilter | src/neuralcheck/logic.py:407-445 | raises exactly when the king is missing or doubled, has no cache entry, has no single checker, or a sliding checker's ray is reached by no vector; otherwise a vector is kept exactly when it captures the checker or lands on its ray to the king |
| MoveGen.Answer | src/neuralcheck/logic.py:421-445 | raises exactly when a sliding checker's ray is reached by no vector; otherwise a vector is kept exactly when it captures the checker or lands on that ray |
| MoveGen.OnRay | src/neuralcheck/logic.py:425-434 | against a sliding checker, the vectors kept are exactly those landing on its ray to the king, and none lands there exactly when it raises; against any other checker, none |
| MoveGen.CheckRay | src/neuralcheck/logic.py:427-431 | the squares a sliding checker sees toward the king are on the board |
| MoveGen.ShiftScan | src/neuralcheck/logic.py:432-434 | the intersection is empty exactly when no vector reaches the ray, and turned back into vectors it is exactly the vectors landing on the ray |
| MoveGen.ShiftScanEmpty | src/neuralcheck/logic.py:432-433 | the intersection is empty exactly when no vector reaches the ray |
| MoveGen.ShiftScanExact | src/neuralcheck/logic.py:432-434 | the intersection turned back into vectors is exactly the vectors landing on the ray |
| MoveGen.KeepTarget | src/neuralcheck/logic.py:437-444 | a vector survives exactly when it lands on the attacker |
| MoveGen.Shift | src/neuralcheck/logic.py:248 | squares are turned into offsets (and back) element by element |
| MoveGen.ShiftLands | src/neuralcheck/logic.py:248-255 | each destination is the piece's square moved by the vector at the same place, and is a target square |
| MoveGen.RemoveIllegal | src/neuralcheck/logic.py:303-447 | without `remove_own`, exactly the vectors landing on the board; a raising attacked-squares computation raises; a king keeps exactly the first filter's vectors that are safe and castle-legal; another piece in check keeps exactly those answering the sole checker; out of check, exactly the first filter's |
| MoveGen.PawnMoves | src/neuralcheck/logic.py:203-240 | raises exactly for a black pawn on the last row or on the fifth rank before any move; otherwise the vectors are exactly the step (or null vector, listed first), the double step, the captures and en passant, all landing on target squares |
| MoveGen.PawnRun | src/neuralcheck/logic.py:203-240 | for a pawn that does not read past the board: raises exactly on the fifth rank before any move; the vectors are exactly the pawn-branch vectors, the step or null vector first, all landing on target squares |
| MoveGen.PawnStep | src/neuralcheck/logic.py:204-208 | one step ahead onto an empty square, or the null vector when that square is occupied, and nothing else |
| MoveGen.DoubleStep | src/neuralcheck/logic.py:209-210 | two steps ahead exactly from the second rank onto an empty square |
| MoveGen.Capture | src/neuralcheck/logic.py:211-216 | a diagonal step toward the given column exactly when an enemy piece stands there |
| MoveGen.EnPassant | src/neuralcheck/logic.py:217-221 | unpacking a `last_turn` without a move raises; otherwise at most one vector, a diagonal step exactly beside a pawn that landed on this row |
| MoveGen.PieceVectors | src/neuralcheck/logic.py:190-243 | every raw vector of any kind lands on a target square |
| MoveGen.SliderVectors | src/neuralcheck/logic.py:193-202 | a queen, bishop or rook never raises, and every vector is one of its directions scaled by a step 1..7, landing on the board |
| MoveGen.JumpVectorsKept | src/neuralcheck/logic.py:190-200 | a king or knight keeps some of its fixed vectors: exactly those landing on the board without `remove_own`; with it, the king exactly the safe, castle-legal ones and a knight out of check exactly the first filter's; a raising attacked-squares computation raises |
| MoveGen.PawnVectorsKept | src/neuralcheck/logic.py:203-240 | a pawn gets exactly the pawn-branch vectors and raises exactly where that branch does, with the pinned list unchanged |
| MoveGen.Allowed | src/neuralcheck/logic.py:159-257 | the side not to move gets `[]` under `restrict_turn`; otherwise the destinations are the piece's square moved by its vectors, one for one, after the in-check filter for a non-king, raising exactly when those raise |
| MoveGen.Visit | src/neuralcheck/logic.py:539-545 | one square of the loops keeps the cache well formed |
| MoveGen.CalcFrom | src/neuralcheck/logic.py:537-545 | the nested loops keep the cache well formed |
| MoveGen.Calc | src/neuralcheck/logic.py:522-551 | the cache is well formed and no key is in the pinned list |
| MoveGen.Attacked | src/neuralcheck/logic.py:488-503 | raises exactly when the attacked-mode cache computation raises; otherwise a square is attacked exactly when some piece of the colour lists it, and it is a target square |
| MoveGen.AttackedBy | src/neuralcheck/logic.py:495-503 | every square listed by a piece of the colour is in the set, every member is listed by one, and all are target squares |
| MoveGen.KingStatus | src/neuralcheck/logic.py:449-486 | raises without a single king; status 0 exactly when no cached list reaches the king, 1 when one does and the king has moves, 2 when it has none; raises exactly when the king's own moves raise |
| MoveGenProps.RayOffsets | src/neuralcheck/logic.py:278-282 | along a vector the ray yields the offsets i, i+1, … in order |
| MoveGenProps.RaySlides | src/neuralcheck/logic.py:277-300 | the ray passes empty squares, takes the first enemy, stops before a friend (or takes it without `remove_own`) and stops at the edge |
| MoveGenProps.RayLength | src/neuralcheck/logic.py:278-300 | the ray's length is where it stops |
| MoveGenProps.RayEndSlides | src/neuralcheck/logic.py:277-300 | the stopping point satisfies the sliding rule |
| MoveGenProps.SlidesBlocked | src/neuralcheck/logic.py:294-300 | off the board, or on a friend with `remove_own`, the ray ends before the square |
| MoveGenProps.SlidesStop | src/neuralcheck/logic.py:283-298 | on an enemy, or on a friend without `remove_own`, the ray ends on the square |
| MoveGenProps.SlidesEmpty | src/neuralcheck/logic.py:281-282 | on an empty square the ray goes on |
| MoveGenProps.PinScanIff | src/neuralcheck/logic.py:283-291 | the captured square is appended exactly when it is not yet listed and the enemy king lies behind it with no other enemy piece in between |
| MoveGenProps.CalcFromKeys | src/neuralcheck/logic.py:537-545 | the loops only add occupied squares with non-empty lists |
| MoveGenProps.VisitKeys | src/neuralcheck/logic.py:539-545 | one square adds only itself, occupied, with a non-empty list |
| MoveGenProps.CalcKeys | src/neuralcheck/logic.py:536-551 | every key of the cache is an occupied square with a non-empty list and is not pinned |
| MoveGenProps.RemoveIllegalNotFriendly | src/neuralcheck/logic.py:338-348 | with `remove_own`, no kept vector lands on a friendly piece |
| Notation.Disambiguation | src/neuralcheck/logic.py:718-728 | nothing without other candidates; the rank when all candidates share the file; the file otherwise |
| Notation.NotationFromMove | src/neuralcheck/logic.py:682-738 | a king move e1/e8 to g or c of the same rank is written as its castle string; any other notation ends with the destination's name; a pawn's notation never raises |
| Notation.Strip | src/neuralcheck/logic.py:756 | the stripped text holds no '+' and no '#' |
| Notation.LastTwo | src/neuralcheck/logic.py:758 | Python's `s[-2:]` |
| Notation.ParseEndNames | src/neuralcheck/logic.py:758 | a destination text parses to a square exactly when it is that square's name |
| Notation.Reaching | src/neuralcheck/logic.py:795-803 | the candidates are exactly the keys whose list holds the destination (and that hold the piece, when filtered) |
| Notation.FirstOnFile | src/neuralcheck/logic.py:808-812 | the first candidate on the given file, or none when no candidate is on it |
| Notation.LastHolding | src/neuralcheck/logic.py:814-815 | a candidate holding the piece when there is one |
| Notation.ChooseSource | src/neuralcheck/logic.py:795-815 | the chosen source is a key whose list holds the destination; it holds the piece when any candidate does; no candidate raises |
| Notation.Pick | src/neuralcheck/logic.py:805-815 | the source is one of the candidates; an empty candidate list raises |
| Notation.ReadMove | src/neuralcheck/logic.py:740-819 | a read move belongs to the side given; a castle string reads as a king move; any other read returns a cached source whose list holds the destination |
| NotationProps.StripPlain | src/neuralcheck/logic.py:756 | stripping leaves text without '+' or '#' unchanged |
| NotationProps.NotationPlain | src/neuralcheck/logic.py:698-738 | a non-castle notation is the kind's letter (none for a pawn) followed by plain characters |
| NotationProps.TextPlain | src/neuralcheck/logic.py:718-738 | the assembled notation has that shape |
| NotationProps.BodyPlain | src/neuralcheck/logic.py:730-738 | the capture and disambiguation parts keep that shape |
| NotationProps.KindOfPlain | src/neuralcheck/logic.py:782-793 | `read_move` infers the kind from the letter written, and a pawn from plain text |
| NotationProps.NotationReadBack | src/neuralcheck/logic.py:682-819 | when the source is the only listed square holding the piece that reaches the destination, `read_move` of the notation written for a non-castle move gives back piece, source and destination |
| NotationProps.TextFacts | src/neuralcheck/logic.py:756-793 | a written text is not stripped, has no 'O', and reads as the kind written |
| NotationProps.TextReadsBack | src/neuralcheck/logic.py:756-819 | such a text reads back as the move |
| NotationProps.CastleReadBack | src/neuralcheck/logic.py:699-778 | a king's castle move from its home square is written as its castle string, which reads back as that move |
| NotationProps.ReadCastle | src/neuralcheck/logic.py:759-778 | `O-O` reads as the king's move e1→g1 (e8→g8 for Black), `O-O-O` as e1→c1 (e8→c8), whatever the position |
| NotationProps.CastleStrings | src/neuralcheck/logic.py:756-778 | both castle strings survive stripping and contain 'O', and `O-O-O` does not occur in `O-O`, so a short castle is never read as a long one |
| NotationProps.ReadMoveListed | src/neuralcheck/logic.py:756-815 | a non-castle read returns a listed source and destination, the last two stripped characters as destination, and the kind the letters name |
| Game.Cleared | src/neuralcheck/logic.py:46-60 | `clear_board` empties board and history, empties `last_turn`, lowers all flags, and leaves the rest |
| Game.Initial | src/neuralcheck/logic.py:11-30 | the constructor succeeds, with the opening position, White to move, no flags, no move yet, empty history, pointer (0, True) and `initializing` cleared |
| Game.Start | src/neuralcheck/logic.py:25-30 | the first cache computation keeps board, side, flags, history and pointer, sets no move yet, clears `initializing`, and leaves a well-formed state |
| Game.InitialPawns | src/neuralcheck/logic.py:22 | the opening position has pawns only on the second ranks |
| Game.VisitAtHome | src/neuralcheck/logic.py:539-545 | while initialising, with pawns only on their second ranks, no square of the first cache computation raises |
| Game.CalcFromAtHome | src/neuralcheck/logic.py:537-545 | on such a position the nested loops of the first cache computation do not raise |
| Game.Cell | src/neuralcheck/logic.py:614-615 | a square index reaches a board cell, itself when on the board |
| Game.PutPiece | src/neuralcheck/logic.py:92-118 | `set_piece` writes the piece's code (0 for an empty square) on its square and changes nothing else |
| Game.Lift | src/neuralcheck/logic.py:610-615 | the captured pawn's and the source's squares are emptied, the piece is on the destination, the rest is unchanged |
| Game.CastleRook | src/neuralcheck/logic.py:617-630 | on `O-O` the rook goes h→f, on `O-O-O` a→d, nothing else changes |
| Game.PromotionLetter | src/neuralcheck/logic.py:635-636 | only queen, rook, knight and bishop have a promotion letter |
| Game.UpdateFlags | src/neuralcheck/logic.py:641-654 | flags are only ever raised, and no flag moves unless 'K' or 'R' is in the notation |
| Game.Record | src/neuralcheck/logic.py:665-671 | White opens a new history entry; Black extends the last one, raising on an empty history |
| Game.Advance | src/neuralcheck/logic.py:673-677 | the pointer's turn grows after Black's move only, and the side flips |
| Game.Place | src/neuralcheck/logic.py:607-630 | the board writes of a move keep the board valid |
| Game.MakeMove | src/neuralcheck/logic.py:553-680 | a played move was listed in the cache; it sets `last_turn` to the move, flips the side, advances the pointer and leaves a well-formed state; a refusal changes nothing but the pinned list |
| Game.Execute | src/neuralcheck/logic.py:604-678 | a listed move that completes flips the side, advances the pointer, sets `last_turn` and leaves a well-formed state |
| Game.Play | src/neuralcheck/logic.py:607-678 | after the writes, a move that completes flips the side, advances the pointer and sets `last_turn` |
| Game.Promote | src/neuralcheck/logic.py:632-678 | a promoting move leaves the chosen piece on the destination, any other move leaves the board as it was; `last_turn` kept, side flipped, pointer advanced |
| Game.AfterMove | src/neuralcheck/logic.py:641-678 | board and `last_turn` kept, flags only raised, side flipped, pointer advanced |
| Game.Refresh | src/neuralcheck/logic.py:656-678 | board, `last_turn` and flags kept, side flipped, pointer advanced |
| Game.Announce | src/neuralcheck/logic.py:658-678 | board, `last_turn` and flags kept, side flipped, pointer advanced |
| Game.Suffix | src/neuralcheck/logic.py:659-678 | the notation gains '+' for check and '#' for mate, and the move completes as above |
| Game.Conclude | src/neuralcheck/logic.py:665-678 | raises exactly when Black's move is to be recorded on an empty history, changing nothing; otherwise the notation is the movement, the cache is kept, the side flips and the pointer advances |
| Game.Go2 | src/neuralcheck/logic.py:961-976 | flags, `last_turn` and history are kept; a jump installs the side given and the pointer (turn, side) and leaves a well-formed state; a failed jump changes at most board and side |
| Game.Reload | src/neuralcheck/logic.py:975-976 | a fresh cache with board, side and history kept and the pointer set, or no change when the computation raises |
| GameProps.ConcludeFacts | src/neuralcheck/logic.py:665-678 | the record, the flipped turn and the advanced pointer, or no change on an exception |
| GameProps.AfterMoveFacts | src/neuralcheck/logic.py:641-678 | after the flags, the rest of `make_move` ends as described |
| GameProps.RefreshFacts | src/neuralcheck/logic.py:656-678 | recomputing the cache ends as described |
| GameProps.AnnounceFacts | src/neuralcheck/logic.py:658-678 | the king-status step ends as described |
| GameProps.SuffixFacts | src/neuralcheck/logic.py:659-678 | the '+'/'#' step ends as described |
| GameProps.NotCastle | src/neuralcheck/logic.py:617-630 | a notation ending in a square's name does not move a rook |
| GameProps.MoveBoardFacts | src/neuralcheck/logic.py:610-630 | the piece is on the destination, source and captured squares are empty, every other square outside a castle's home rank is unchanged |
| GameProps.PlaceFacts | src/neuralcheck/logic.py:606-630 | source emptied, piece placed, rook relocated on a castle, en-passant pawn removed, every other square unchanged |
| GameProps.ExecuteFacts | src/neuralcheck/logic.py:604-678 | a listed move is played: `last_turn` set, flags only raised, turn flipped, pointer advanced, history recorded, board as placed (and promoted) |
| GameProps.PromoteFacts | src/neuralcheck/logic.py:632-678 | when the move promotes, the chosen piece replaces the pawn on the destination; flags only raised, turn flipped, pointer advanced, history recorded |
| GameProps.MakeMoveRefusals | src/neuralcheck/logic.py:600-680 | refused exactly when mated or the source is unlisted; no answer exactly when the destination is unlisted; neither changes anything but the pinned list |
| GameProps.MakeMovePlays | src/neuralcheck/logic.py:600-678 | a played move was listed and leaves a valid state with the turn flipped, pointer advanced, flags only raised and the move recorded |
| GameProps.PromotedBoard | src/neuralcheck/logic.py:607-636 | the board after the writes and the promotion is the board the move describes |
| GameProps.ExecuteBoard | src/neuralcheck/logic.py:604-678 | the body of `make_move` leaves the described board |
| GameProps.MakeMoveBoard | src/neuralcheck/logic.py:553-680 | a played move leaves the described board: source emptied, piece (or promotion) on the destination, castle rook and en passant handled, all else unchanged |
| GameProps.PinnedIrrelevant | src/neuralcheck/logic.py:606-636 | the pinned list plays no part in the board a move leaves |
| GameProps.Go2Facts | src/neuralcheck/logic.py:961-976 | `go2` installs the snapshot's board and side, recomputes the cache and sets the pointer; flags, `last_turn` and history are kept; a failed jump changes at most board and side |
| GameProps.Go2Restores | src/neuralcheck/logic.py:961-976 | `go2` to a snapshot written from a board puts that board back |
| GameProps.MoveThenGo2 | src/neuralcheck/logic.py:961-976 | after a recorded White move, `go2` to its entry returns the board after the move |
| GameProps.RecordedGo2 | src/neuralcheck/logic.py:969-973 | jumping to the entry White just recorded restores the board it recorded, with White to move |
| GameProps.InitialFacts | src/neuralcheck/logic.py:11-30 | building a new engine succeeds: opening position, White to move, no flags, no history, pointer (0, True), and a cache of occupied squares |
| Engine.ChessBoard.SetPiece | src/neuralcheck/logic.py:92-118 | `set_piece` writes one array entry, as `Game.PutPiece` says, and nothing else |
| Engine.ChessBoard.ClearBoard | src/neuralcheck/logic.py:46-60 | `clear_board` installs a fresh zero array and resets the fields as `Game.Cleared` says |
| Engine.ChessBoard.Raycast | src/neuralcheck/logic.py:259-301 | the nested loops return the moves and leave the pinned list of `MoveGen.Raycast` |
| Engine.ChessBoard.CastRay | src/neuralcheck/logic.py:277-300 | one vector's `i` loop yields `MoveGen.RayFrom` |
| Engine.ChessBoard.FilterVectors | src/neuralcheck/logic.py:336-345 | the first `while` loop's in-place deletions yield `MoveGen.FilterOwn` |
| Engine.ChessBoard.DropAttacked | src/neuralcheck/logic.py:398-405 | the last king loop yields `MoveGen.RemoveAttacked` |
| Engine.ChessBoard.KeepAttacker | src/neuralcheck/logic.py:437-444 | the in-check loop yields `MoveGen.KeepTarget` |
| Engine.ChessBoard.RemoveIllegal | src/neuralcheck/logic.py:303-447 | `remove_illegal` returns, raises and leaves the pinned list as `MoveGen.RemoveIllegal` |
| Engine.ChessBoard.Settle | src/neuralcheck/logic.py:350-447 | the king branch or the check branch, after the attacked squares are known |
| Engine.ChessBoard.AnswerCheck | src/neuralcheck/logic.py:407-445 | the in-check branch follows `MoveGen.CheckFilter` |
| Engine.ChessBoard.ScanSquare | src/neuralcheck/logic.py:539-545 | one square of the loops takes the model's step, adding at most its own key |
| Engine.ChessBoard.AssessAttackedSquares | src/neuralcheck/logic.py:488-503 | the attacked squares and pinned list of `MoveGen.Attacked`, raising when it raises |
| Engine.ChessBoard.CollectAttacked | src/neuralcheck/logic.py:495-503 | the union of the lists of the colour's pieces |
| Engine.ChessBoard.CalculatePossibleMoves | src/neuralcheck/logic.py:522-551 | the cache and pinned list of `MoveGen.Calc`, raising when it raises |
| Engine.ChessBoard.ScanBoard | src/neuralcheck/logic.py:537-545 | the outer loop takes the model's 64 steps, reports the keys it stored, and raises only when the model does |
| Engine.ChessBoard.ScanRow | src/neuralcheck/logic.py:538-545 | the inner loop scans one row as the model does |
| Engine.ChessBoard.AllowedMovements | src/neuralcheck/logic.py:159-257 | `allowed_movements` follows `MoveGen.Allowed` |
| Engine.ChessBoard.FilterAndPlace | src/neuralcheck/logic.py:245-257 | the in-check filter and the destinations follow the model |
| Engine.ChessBoard.PieceMoves | src/neuralcheck/logic.py:190-243 | the per-kind vectors follow `MoveGen.PieceVectors` |
| Engine.ChessBoard.Destinations | src/neuralcheck/logic.py:248-257 | the final loop turns each vector into the square it reaches |
| Engine.ChessBoard.ScanForKing | src/neuralcheck/logic.py:284-291 | the `j` loop leaves the pinned list of `MoveGen.PinScan` |
| Engine.ChessBoard.AssessKingStatus | src/neuralcheck/logic.py:449-486 | `assess_king_status` returns the status of `MoveGen.KingStatus`, raising when it raises |
| Engine.ChessBoard.Threatened | src/neuralcheck/logic.py:472-475 | true exactly when some cached list reaches the king's square |
| Engine.ChessBoard.MakeMove | src/neuralcheck/logic.py:553-680 | `make_move` leaves the fields and reply of `Game.MakeMove` |
| Engine.ChessBoard.Execute | src/neuralcheck/logic.py:604-678 | the body once the move is listed follows `Game.Execute` |
| Engine.ChessBoard.Play | src/neuralcheck/logic.py:607-678 | the writes and what follows them follow `Game.Play` |
| Engine.ChessBoard.PlaceMove | src/neuralcheck/logic.py:610-630 | the board writes of a move follow `Game.Place` and change only the board |
| Engine.ChessBoard.LiftPiece | src/neuralcheck/logic.py:610-615 | the three `set_piece` calls follow `Game.Lift` |
| Engine.ChessBoard.PlaceRook | src/neuralcheck/logic.py:617-630 | the rook writes follow `Game.CastleRook` |
| Engine.ChessBoard.Promote | src/neuralcheck/logic.py:632-678 | the promotion and what follows it follow `Game.Promote` |
| Engine.ChessBoard.AfterMove | src/neuralcheck/logic.py:641-657 | flags and cache refresh follow `Game.AfterMove` |
| Engine.ChessBoard.Refresh | src/neuralcheck/logic.py:656-663 | the cache recomputation follows `Game.Refresh` |
| Engine.ChessBoard.Announce | src/neuralcheck/logic.py:658-663 | the opponent's status follows `Game.Announce` |
| Engine.ChessBoard.Suffix | src/neuralcheck/logic.py:659-671 | the check suffix and record follow `Game.Suffix` |
| Engine.ChessBoard.Conclude | src/neuralcheck/logic.py:665-677 | the record, turn and pointer follow `Game.Conclude`; the array is the same |
| Engine.ChessBoard.Go2 | src/neuralcheck/logic.py:961-976 | `go2` follows `Game.Go2` |
| Engine.ChessBoard.Install | src/neuralcheck/logic.py:973-974 | a new array holding the snapshot's board, and the side to move |
| Engine.ChessBoard.Reload | src/neuralcheck/logic.py:975-976 | the fresh cache and the pointer follow `Game.Reload` |
| Engine.ChessBoard.constructor | src/neuralcheck/logic.py:19-22 | a fresh array holding the opening position, White to move, no flags, empty history and cache, pointer (0, True), `initializing` set: the fields before the first cache computation |
| Engine.ChessBoard.Create | src/neuralcheck/logic.py:11-30 | `ChessBoard()` raises exactly when the first cache computation does; otherwise it is a fresh engine in the opening state `Game.Initial` |
| Engine.ChessBoard.Start | src/neuralcheck/logic.py:25-30 | the first cache, `last_turn` reset and `initializing` cleared, as `Game.Start` |
| Engine.RemoveIllegalOwn | src/neuralcheck/logic.py:347-348 | without `remove_own` only the first filter applies |
| Engine.RemoveIllegalNoAttack | src/neuralcheck/logic.py:350-353 | with `remove_own`, a raising attacked-squares computation makes `remove_illegal` raise |
| Engine.RemoveIllegalAttacked | src/neuralcheck/logic.py:336-353 | with `remove_own`, `remove_illegal` is the first filter followed by the king or check branch on the attacked squares (none while initializing) |
| Engine.PieceVectorsByGroup | src/neuralcheck/logic.py:190-243 | pawns use the pawn rules, king and knight the stepping vectors through `remove_illegal`, the others `raycast` |
| Engine.AllowedUnfold | src/neuralcheck/logic.py:184-257 | `allowed_movements` is the per-kind vectors followed by the in-check filter and the destinations |
| Engine.ScanAdvance | src/neuralcheck/logic.py:537-545 | one square of the scan advances the loop invariant or raises |
| Engine.ScanCrashed | src/neuralcheck/logic.py:537-545 | a raise inside the scan is a raise of `calculate_possible_moves` |
| Engine.ScanDone | src/neuralcheck/logic.py:537-551 | a completed scan, with pinned keys dropped, is the model's cache |
| Engine.DropPinned | src/neuralcheck/logic.py:547-549 | the final loop deletes exactly the pinned keys |
| Engine.RemoveAttackedCons | src/neuralcheck/logic.py:398-405 | each vector is dropped exactly when it lands on an attacked square |
| Engine.RaycastStep | src/neuralcheck/logic.py:277-301 | the rays from one vector on are that vector's ray followed by the rest |
| Engine.RaycastAdvance | src/neuralcheck/logic.py:277-301 | the outer loop's invariant carries over one vector |
| Engine.RayAdvance | src/neuralcheck/logic.py:278-300 | one step of the `i` loop: stop off the board, go on over an empty square, take an enemy and scan for a pin, stop at a friend |
| Minimax.CellValue | src/neuralcheck/engine/minimax.py:17-18 | an entry is mapped exactly when it is within -6..6 |
| Minimax.Flatten | src/neuralcheck/engine/minimax.py:18 | `flatten` holds exactly the entries of the rows |
| Minimax.SumValues | src/neuralcheck/engine/minimax.py:18-21 | the sum exists exactly when every entry is within -6..6 |
| Minimax.ValueFunction | src/neuralcheck/engine/minimax.py:9-21 | `value_function` answers exactly when every entry is within -6..6 |
| Minimax.FlattenEntries | src/neuralcheck/engine/minimax.py:18 | all flattened values are in range exactly when all entries are |
| Minimax.CellBalance | src/neuralcheck/engine/minimax.py:17-18 | one entry adds its weight for white and subtracts it for black (king 0, queen 9, rook 5, bishop 3, knight 3, pawn 1, empty 0) |
| Minimax.SumIsBalance | src/neuralcheck/engine/minimax.py:17-21 | the sum is white's material minus black's |
| Minimax.ValueIsBalance | src/neuralcheck/engine/minimax.py:9-21 | on a board the evaluation is white's material minus black's |
| Minimax.Negated | src/neuralcheck/engine/minimax.py:18 | the colour-swapped board negates every entry |
| Minimax.NegatedRow | src/neuralcheck/engine/minimax.py:18 | each entry negated, same length |
| Minimax.SumNegated | src/neuralcheck/engine/minimax.py:18-21 | negating every entry negates the sum, and raises exactly when the original does |
| Minimax.FlattenNegated | src/neuralcheck/engine/minimax.py:18 | flattening commutes with the swap |
| Minimax.ValueNegated | src/neuralcheck/engine/minimax.py:9-21 | swapping colours negates the evaluation, raising exactly when the original raises |
| Minimax.Max | src/neuralcheck/engine/minimax.py:57 | Python's `max` is an upper bound of both arguments and one of them |
| Minimax.Min | src/neuralcheck/engine/minimax.py:64 | Python's `min` is a lower bound of both arguments and one of them |
| Minimax.MinimaxValue | src/neuralcheck/engine/minimax.py:47-65 | with depth left, a result that does not raise is a number, never a position |
| Minimax.Best | src/neuralcheck/engine/minimax.py:53-65 | the children loop yields a number when it does not raise |
| Minimax.AlphaBetaValue | src/neuralcheck/engine/minimax.py:67-91 | with depth left, a result that does not raise is a number, never a position |
| Minimax.Prune | src/neuralcheck/engine/minimax.py:73-91 | the pruning loop yields a number when it does not raise |
| Minimax.Minimax | src/neuralcheck/engine/minimax.py:47-65 | the recursive loop of `minimax` returns the value `MinimaxValue` defines |
| Minimax.BestExtreme | src/neuralcheck/engine/minimax.py:53-65 | the running extreme is a number exactly when every child's value is, and it is the best of the seed and the children |
| Minimax.MinimaxExtreme | src/neuralcheck/engine/minimax.py:53-65 | white's value is the maximum of the children at depth-1 with black to move, black's the minimum; no children give the infinite seed |
| Minimax.Mirror | src/neuralcheck/engine/minimax.py:47-65 | the negated tree has the same shape |
| Minimax.MinimaxMirror | src/neuralcheck/engine/minimax.py:47-65 | zero-sum: negating the leaves and swapping the side negates the result |
| Minimax.PickMirror | src/neuralcheck/engine/minimax.py:57-64 | `max` of negations is the negated `min`, and the reverse |
| Minimax.BestMirror | src/neuralcheck/engine/minimax.py:53-65 | the children loop commutes with negation |
| Minimax.MinimaxAB | src/neuralcheck/engine/minimax.py:67-91 | the recursive loop of `minimax_ab` returns the value `AlphaBetaValue` defines, with the source's cutoffs or the standard ones |
| Minimax.BestBeats | src/neuralcheck/engine/minimax.py:53-65 | the children loop's result is at least as good as its seed |
| Minimax.AlphaBetaSound | src/neuralcheck/engine/minimax.py:67-91 | with the standard cutoffs, alpha-beta yields a number that equals minimax inside the window and lies beyond the bound outside it |
| Minimax.PruneMaxSound | src/neuralcheck/engine/minimax.py:73-81 | the maximiser's loop, raising alpha and stopping at `beta <= alpha`, keeps that relation |
| Minimax.PruneMinSound | src/neuralcheck/engine/minimax.py:83-91 | the minimiser's loop with the standard stop `beta <= alpha` keeps that relation |
| Minimax.AlphaBetaExact | src/neuralcheck/engine/minimax.py:67-91 | over the window (-inf, +inf) standard alpha-beta returns exactly minimax's value |
| Minimax.ExampleMinimax | src/neuralcheck/engine/minimax.py:97-98 | on the example tree at depth 3, white to move, minimax returns 3 |
| Minimax.ExampleAlphaBeta | src/neuralcheck/engine/minimax.py:97-99 | on the example tree `minimax_ab` as written returns 3 too |
| Minimax.AsWrittenMisses | src/neuralcheck/engine/minimax.py:83-91 | the source's minimiser stops after its first child: for a black choice between 5 and 1 it answers 5 where minimax answers 1 |
| Bits.Pow2Bit | src/neuralcheck/bitboard.py:106 | a power of two has exactly one bit set |
| Bits.Pow2Injective | src/neuralcheck/bitboard.py:106 | distinct bit indices give distinct powers of two |
| Bits.Pow2Add | src/bitboard.py:85 | two shifts make one: `2^i * 2^j == 2^(i+j)` |
| Bits.AndPow2 | src/neuralcheck/bitboard.py:116 | `mask & bitmap > 0` with a one-bit mask tests that bit of the bitmap |
| Bits.BitValue | src/bitboard.c:30 | the 64-bit word with only bit b set reads as 2^b |
| Bitboard.ColIndex | src/neuralcheck/bitboard.py:67-68 | `_cols2int` is defined exactly on a..h and counts h = 0 … a = 7 |
| Bitboard.BitPosition | src/neuralcheck/bitboard.py:102-106 | `get_bitboard_position` answers exactly on a file a..h followed by a digit 1..9; otherwise it raises |
| Bitboard.SquareBit | src/neuralcheck/bitboard.py:102-106 | every square maps to `1 << (c + 8*(rank-1))`, below bit 64, with exactly that bit set |
| Bitboard.SquaresDistinct | src/neuralcheck/bitboard.py:102-106 | distinct squares map to distinct bits |
| Bitboard.NamedSquare | src/neuralcheck/bitboard.py:102-106 | the mapping on a square name given as a literal |
| Bitboard.ColorMasks | src/neuralcheck/bitboard.py:33-34 | `white == 0xFFFF`, `black == 0xFFFF000000000000`, and they are disjoint |
| Bitboard.TypeMasksPartition | src/neuralcheck/bitboard.py:27-34 | the six type masks are pairwise disjoint and their union is `white \| black` |
| Bitboard.PieceMasks | src/neuralcheck/bitboard.py:35-42 | the `pieces` table has exactly the keys K, Q, B, N, R, P, its masks are pairwise disjoint, and together they cover both home ranks |
| Bitboard.KingsMask | src/neuralcheck/bitboard.py:27 | `kings` is the bits of e1 (bit 3) and e8 (bit 59) |
| Bitboard.QueensMask | src/neuralcheck/bitboard.py:28 | `queens` is d1 and d8 |
| Bitboard.BishopsMask | src/neuralcheck/bitboard.py:29 | `bishops` is c1, f1, c8 and f8 |
| Bitboard.KnightsMask | src/neuralcheck/bitboard.py:30 | `knights` is b1, g1, b8 and g8 |
| Bitboard.RooksMask | src/neuralcheck/bitboard.py:31 | `rooks` is the four corners |
| Bitboard.AddFileMasks | src/neuralcheck/bitboard.py:93-95 | the inner loop adds ranks 1..7 of one file, each mapped to its bit, keeping earlier entries |
| Bitboard.PositionalMasks | src/neuralcheck/bitboard.py:91-95 | `positional_masks` has exactly the 56 squares of ranks 1..7, each mapped to its bit; rank 8 is absent |
| Bitboard.ChessBitboard.constructor | src/neuralcheck/bitboard.py:25-95 | the eight constants, the `pieces` table K, Q, B, N, R, P and the positional masks |
| Bitboard.ChessBitboard.ActivePositions | src/neuralcheck/bitboard.py:111-119 | exactly the rank 1..7 squares whose bit is set in the bitmap, ordered by file a..h and then by rank |
| BitboardC.DoubleShift | src/bitboard.c:30 | `(1 << col) << (row * 8)` on 64 bits, for col 0..8 and row 0..7 with the bit inside the word, is 2^(col + 8*row) |
| BitboardC.GetBitboardPosition | src/bitboard.c:17-31 | on a valid square the two scans and the shift give the same value as the Python mapping, bit for bit; an unknown file on ranks 1..7, which the Python mapping refuses, gives the bit of the h-file square one rank up |
| BitboardC.AsInt64 | src/bitboard.c:17-30 | the signed `int64_t` reading of a 64-bit pattern: negative exactly from bit 63 on, and equal to the pattern modulo 2^64 |
| BitboardC.Corners | src/bitboard.c:30 | h1 is 1, a1 is 128, h8 is 1 << 56, and a8 is bit 63, the most negative `int64_t` |
| BitboardLegacy.BitPositionShifted | src/bitboard.py:81-85 | `(1 << c) << 8*(row-1)` equals the single-shift mapping on every string, failures included |
| BitboardLegacy.PieceValue | src/bitboard.py:9-18 | `ChessPiece.value` as written raises on every piece |
| BitboardLegacy.IntendedValue | src/bitboard.py:9-18 | the value read from `ptype` exists exactly for the six type names |
| BitboardLegacy.Officers | src/bitboard.py:68-70 | the first loop appends two pieces per row |
| BitboardLegacy.PawnRow | src/bitboard.py:72-74 | the second loop appends two pawns per file |
| BitboardLegacy.OfficerAt | src/bitboard.py:68-70 | piece k of the first loop is row k/2's white piece when k is even, its black piece when odd |
| BitboardLegacy.PawnAt | src/bitboard.py:72-74 | piece k of the second loop is a white pawn on rank 2 when k is even, a black pawn on the given rank when odd |
| BitboardLegacy.TableTyped | src/bitboard.py:58-65 | every row of `init_positions` names a valued type other than the pawn |
| BitboardLegacy.TableOnHomeRanks | src/bitboard.py:58-65 | each row's white square is on rank 1 and its black square is on the same file on rank 8 |
| BitboardLegacy.TableOneFileEach | src/bitboard.py:58-65 | no two rows of the table use the same file |
| BitboardLegacy.TableWellPlaced | src/bitboard.py:58-65 | the table is typed, on the home ranks and one file per row |
| BitboardLegacy.RosterAt | src/bitboard.py:58-74 | piece k of the list, for every k < 32 |
| BitboardLegacy.Roster | src/bitboard.py:58-74 | the two loops build 32 pieces |
| BitboardLegacy.RosterShape | src/bitboard.py:58-74 | 32 pieces, white at even places, pawns from place 16 on; white on ranks 1 and 2, black officers on rank 8, black pawns on the given rank |
| BitboardLegacy.BlackPawnOnWhiteRook | src/bitboard.py:64-74 | as written, the black a-pawn is put on a1, the white rook's square |
| BitboardLegacy.FileOf | src/bitboard.py:58-74 | the file of piece k |
| BitboardLegacy.RosterDistinct | src/bitboard.py:58-74 | with the black pawns on any rank other than 1, 2 and 8 (7 is evidently intended), no two of the 32 pieces share a square |
| BitboardLegacy.PairValue | src/bitboard.py:68-70 | a white and black pair of one type adds that type's value to each side |
| BitboardLegacy.PawnRowValue | src/bitboard.py:72-74 | each side's pawns are worth one per file |
| BitboardLegacy.TableTotal | src/bitboard.py:58-65 | the eight rows are worth 131: king 100, queen 9, two rooks at 5, two bishops and two knights at 3 |
| BitboardLegacy.OfficersValue | src/bitboard.py:68-70 | the first loop's pieces are worth the table's total for each side |
| BitboardLegacy.OpeningMaterial | src/bitboard.py:58-74 | with the intended `value`, each side opens with 139 points |
| BitboardLegacy.ChessBitboard.constructor | src/bitboard.py:22-74 | the eight constants equal the other copy's, and the list is built by the two loops |

## Left out

- YAML persistence is not modelled: `save_position`, `load_position`, `save_game` and `load_game` (src/neuralcheck/logic.py:821-895) do file I/O. The position the constructor loads from config/initial_position.yaml, which is not part of this model, is the standard opening position `Boards.InitialBoard`.
- The `ChessBitboard` mirror that logic.py keeps (src/neuralcheck/logic.py:27, 856, 895) is not modelled; it is a foreign object that nothing in the engine reads.
- The user interface, the HTTP wrapper, `main.py` and the reflection printer are not modelled. They are I/O around a `ChessBoard`.
- `ChessBitboard.move` and `reverse_move` (src/neuralcheck/bitboard.py:121-182, src/bitboard.py:90-108) are not modelled. They are unfinished: every branch ends in `pass`, and one stops in the debugger.
- `visualize`, in Python and in C, is not modelled; it only prints.
- The C extension glue, the headers and the build scripts are not modelled.
- `DeductiveEvaluator.minimax` (src/neuralcheck/engine/minimax.py:23-38) is not modelled. Its branches fall off the end, so every inner node returns `None`; `TestMinimax.minimax` is the working copy.
- `TestMinimax.value_function` is not modelled; it is `pass`.
- The old stub engine src/logic.py is not modelled.
- The `ChessPiece` class of src/neuralcheck/bitboard.py:6-21 has no separate model. Its `value` is the same as the one in src/bitboard.py, which `BitboardLegacy.PieceValue` models. Its piece list sits inside a string literal (src/neuralcheck/bitboard.py:71-89), so it is never built.
- Minimax.Minimax: `±np.inf` float seeds are the `Ext` values `NegInf`/`PosInf`, and leaves are integers. A node reached at depth 0 is returned as it is (`Position`). A leaf reached with depth left is a `Crash`, because the source tests `'#' in` an integer. A parent that receives such a position is also a `Crash`, because it compares a list with a number. Trees are finite datatypes, so termination follows their structure as well as the depth.
- Minimax.MinimaxAB: the same representation as `Minimax.Minimax`. Both the source's minimiser cutoff and the standard one are modelled, selected by a `Cutoff` parameter.
- Minimax.ValueFunction: `np.sign(x) * mapper[abs(x)]` is computed on integers. An entry outside -6..6 raises `KeyError`, and the model returns `Crash`. The reshape before the sum does not change the sum and is not modelled.
- MoveGen.SetInScanOrder: the blocking squares of a check come from a Python `set`, whose iteration order is an implementation detail. The model lists them in board scan order, so the order of those squares within a move list may differ from CPython's; which squares are listed is the same.
- Minimax.MinimaxValue: its own contract states only that a value computed with depth left is a number; which number it is, is stated by `Minimax.MinimaxExtreme` and `Minimax.MinimaxMirror`.
- Minimax.Best: its own contract states only that it yields a number; `Minimax.BestExtreme` states which.
- Minimax.AlphaBetaValue: its own contract states only that a value computed with depth left is a number; `Minimax.AlphaBetaSound` and `Minimax.AlphaBetaExact` relate it to minimax.
- Minimax.Prune: its own contract states only that it yields a number; `Minimax.PruneMaxSound` and `Minimax.PruneMinSound` state the window relation.
- BitboardLegacy.Roster: its own contract states only the length; `BitboardLegacy.RosterAt` and `BitboardLegacy.RosterShape` state each piece.
- Fen.FenToBoard: its own contract states only that a parsed board is rectangular; `Fen.FenRoundTrip` states that it inverts `Fen.BoardToFen`.
- Engine.ChessBoard.CollectAttacked: the attacked-squares list is used only for membership tests, so it is modelled as a set and its de-duplication order is not kept.
- Engine.ChessBoard.Go2: a snapshot whose FEN is not a well-formed 8×8 board is treated as a failed jump (`done` false). The source would install a ragged array and go on. The same holds for `Game.Go2` and for `GameProps.Go2Facts`, which describe that jump.
- Fen.ParseRow: a rank character counts as a digit only when it is an ASCII digit. Python's `isdigit()` and `int()` also expand other Unicode decimal digits into empty squares; the model instead looks such a character up in the piece mapping and raises. The same holds for `Fen.Fen2Numpy` and `Fen.FenToBoard`, which use it.
- Squares.LogicToArray: Python's `int()` also accepts other Unicode digits and surrounding blanks; the model accepts ASCII digits only.
- Bitboard.BitPosition: `int()` is applied to the single character after the file letter. The model accepts the ASCII digits for it; `int()` would also accept other Unicode decimal digits, which are not modelled. '0' gives a negative shift count and raises; '9' lands beyond bit 63, which Python allows.
- Bitboard.ChessBitboard.ActivePositions: the bitmap is a non-negative integer. A negative Python integer, with its infinite two's-complement bits, is not modelled.
- BitboardC.GetBitboardPosition: it requires a rank 1..8, and a file a..h when the rank is 8. A character the scans do not find leaves its index at 8: a missing rank then shifts by 64, and an unknown file on rank 8 shifts bit 8 by 56, both beyond the 64-bit word, which is undefined behaviour in C. An unknown file on ranks 1..7 is modelled: the C function returns bit 8 * rank, the h-file square one rank up, where the Python copy raises. The a8 shift `(1LL << 7) << 56` reaches the sign bit, which ISO C (section 6.5.7 of ISO/IEC 9899) also leaves undefined; the model takes it as the two's-complement bit pattern, whose `int64_t` reading is negative (`BitboardC.AsInt64`).

## Findings

| source | as written | input that shows it | evidently intended | confidence | as-written member | corrected member |
|---|---|---|---|---|---|---|
| src/neuralcheck/engine/minimax.py:89 | the minimiser stops when `alpha <= beta`, so it stops after its first child whenever that child's value is at least alpha; the root's first minimiser, called with alpha = -inf, always stops there (a minimiser with alpha = 3 whose first child is -4 lowers beta to -4 and goes on) | the tree `[[5, 1]]` at depth 2, white to move, window (-inf, +inf): alpha-beta answers 5, minimax answers 1 | stop when `beta <= alpha`, as the maximiser does | not executed | Minimax.AsWrittenMisses | Minimax.AlphaBetaExact |
| src/bitboard.py:74 | the black pawns are put on `f'{col}1'`, the white officers' rank | the list's black a-pawn is on a1, where the white rook is | `f'{col}7'` | not executed | BitboardLegacy.BlackPawnOnWhiteRook | BitboardLegacy.RosterDistinct |
| src/bitboard.py:18 | `value` reads `self.type`, an attribute the constructor never sets | any `ChessPiece`, e.g. the white king on e1, raises `AttributeError` | read `self.ptype` | not executed | BitboardLegacy.PieceValue | BitboardLegacy.OpeningMaterial |
