/** Move generation of the engine: `raycast`, `remove_illegal`,
    `allowed_movements`, `calculate_possible_moves`, `assess_ataqued_squares`
    and `assess_king_status` (src/neuralcheck/logic.py:159-551).

    The source methods read the engine's fields and append to its
    `pinned_pieces` list as they go; here they read a `Ctx` snapshot of the
    fields and thread the pinned list through as a value. An uncaught Python
    exception is `Crash`.

    `calculate_possible_moves` with `remove_own` set calls `remove_illegal`,
    which (for kings and knights, and for every piece in check) computes the
    opponent's attacked squares with `remove_own` cleared; `remove_illegal`
    returns before that step when `remove_own` is clear, so the recursion is
    two levels deep. The `decreases` clauses say exactly that; their last
    component (the position) never decides termination and only keeps the
    verifier from unfolding these functions without bound on literal flags. */
module MoveGen {
  import opened Pieces
  import opened Squares
  import opened Boards

  /** The six monotone flags of `castle_flags` (logic.py:53-60). */
  datatype CastleFlags = CastleFlags(whiteKingMoved: bool, blackKingMoved: bool,
                                     a1RookMoved: bool, h1RookMoved: bool,
                                     a8RookMoved: bool, h8RookMoved: bool)

  const NoFlags := CastleFlags(false, false, false, false, false, false)

  /** `last_turn`: the empty string `clear_board` leaves, the `(None, None, None)`
      of a fresh engine, or the last move made. */
  datatype LastTurn = Cleared | NoMove | Moved(piece: Piece, from: Pos, to: Pos)

  /** The legal-move cache `possible_moves`: square -> destination squares. */
  type Cache = map<Pos, seq<Pos>>

  /** The engine fields move generation reads. */
  datatype Ctx = Ctx(board: Board, whiteTurn: bool, flags: CastleFlags, last: LastTurn,
                     cache: Cache, initializing: bool)

  /** Squares a destination list can hold: on the board, or one row above it
      (an unpromoted white pawn on rank 8 steps to row -1, which numpy reads
      as row 7). */
  predicate Target(p: Pos) { -1 <= p.x < 8 && 0 <= p.y < 8 }

  ghost predicate ValidCache(m: Cache)
  {
    forall k {:trigger k in m} :: k in m ==> OnBoard(k) && forall i :: 0 <= i < |m[k]| ==> Target(m[k][i])
  }

  ghost predicate ValidCtx(c: Ctx)
  {
    ValidBoard(c.board) && ValidCache(c.cache) && (c.last.Moved? ==> Target(c.last.to))
  }

  function Add(p: Pos, v: Pos): Pos { Pos(p.x + v.x, p.y + v.y) }

  function Sub(p: Pos, q: Pos): Pos { Pos(p.x - q.x, p.y - q.y) }

  /** A list of move vectors with the pinned list as it stands afterwards. */
  datatype Gen = Gen(moves: seq<Pos>, pinned: seq<Pos>)

  // -----------------------------------------------------------------------
  // raycast (logic.py:259-301)

  /** `line_vectors` and `diagonal_vectors` (logic.py:23-24). */
  const LineVectors: seq<Pos> := [Pos(1, 0), Pos(-1, 0), Pos(0, 1), Pos(0, -1)]
  const DiagonalVectors: seq<Pos> := [Pos(1, 1), Pos(-1, 1), Pos(-1, -1), Pos(1, -1)]

  /** `s * v` for a side sign s, which is 1 or -1. */
  function Orient(s: int, v: int): int { if s < 0 then -v else v }

  /** `i * u` for a component u of a ray vector, which is -1, 0 or 1. */
  function Along(i: int, u: int): int { if u < 0 then -i else if u > 0 then i else 0 }

  /** The square i steps from (x, y) along d. */
  function Ahead(x: int, y: int, d: Pos, i: int): Pos { Pos(x + Along(i, d.x), y + Along(i, d.y)) }

  /** The inner `j` loop: having captured at `cap`, look further along d. A
      non-king enemy ends the look; an enemy king records `cap` as pinned
      (once); friendly pieces and empty squares are looked through. */
  function PinScan(b: Board, x: int, y: int, d: Pos, cap: Pos, j: int, s: int, pinned: seq<Pos>): (r: seq<Pos>)
    requires IsBoard(b) && 1 <= j <= 8
    ensures r == pinned || r == pinned + [cap]
    ensures r == pinned + [cap] ==> cap !in pinned
    decreases 8 - j, b
  {
    if j == 8 then pinned
    else
      var q := Ahead(x, y, d, j);
      if OnBoard(q) then
        var v := Orient(s, At(b, q));
        if v < 0 && Abs(At(b, q)) != 6 then pinned
        else if v == -6 && cap !in pinned then pinned + [cap]
        else PinScan(b, x, y, d, cap, j + 1, s, pinned)
      else PinScan(b, x, y, d, cap, j + 1, s, pinned)
  }

  /** The `i` loop along one vector, from step i on; s is `player_turn`. */
  function RayFrom(b: Board, x: int, y: int, d: Pos, i: int, s: int, removeOwn: bool, pinned: seq<Pos>): (g: Gen)
    requires IsBoard(b) && 1 <= i <= 8
    ensures forall m :: m in g.moves ==> OnBoard(Add(Pos(x, y), m))
    ensures forall m :: m in g.moves ==> exists k :: i <= k < 8 && m == Pos(Along(k, d.x), Along(k, d.y))
    ensures g.pinned == pinned || (|g.pinned| == |pinned| + 1 && g.pinned[..|pinned|] == pinned && g.pinned[|pinned|] !in pinned)
    decreases 8 - i, b
  {
    if i == 8 then Gen([], pinned)
    else
      var q := Ahead(x, y, d, i);
      var off := Pos(Along(i, d.x), Along(i, d.y));
      if !OnBoard(q) then Gen([], pinned)
      else if Orient(s, At(b, q)) <= 0 then
        if Orient(s, At(b, q)) < 0 then Gen([off], PinScan(b, x, y, d, q, i + 1, s, pinned))
        else
          var rest := RayFrom(b, x, y, d, i + 1, s, removeOwn, pinned);
          Gen([off] + rest.moves, rest.pinned)
      else if removeOwn then Gen([], pinned)
      else Gen([off], pinned)
  }

  /** m is i steps along one of the vectors, for some i in 1..7. */
  predicate RayOffset(vectors: seq<Pos>, m: Pos)
  {
    exists d, i :: d in vectors && 1 <= i < 8 && m == Pos(Along(i, d.x), Along(i, d.y))
  }

  /** `raycast`: the rays of all vectors, one after the other. */
  function Raycast(b: Board, x: int, y: int, vectors: seq<Pos>, white: bool, removeOwn: bool, pinned: seq<Pos>): (g: Gen)
    requires IsBoard(b)
    ensures forall m :: m in g.moves ==> OnBoard(Add(Pos(x, y), m)) && RayOffset(vectors, m)
    ensures |pinned| <= |g.pinned| && g.pinned[..|pinned|] == pinned
    decreases |vectors|, b
  {
    if vectors == [] then Gen([], pinned)
    else
      var first := RayFrom(b, x, y, vectors[0], 1, ColorOf(white).Sign(), removeOwn, pinned);
      var rest := Raycast(b, x, y, vectors[1..], white, removeOwn, first.pinned);
      Gen(first.moves + rest.moves, rest.pinned)
  }

  /** The moves of a ray do not depend on the pinned list it appends to. */
  lemma {:induction false} RayFromMovesIgnorePins(b: Board, x: int, y: int, d: Pos, i: int, s: int, removeOwn: bool, p1: seq<Pos>, p2: seq<Pos>)
    requires IsBoard(b) && 1 <= i <= 8
    ensures RayFrom(b, x, y, d, i, s, removeOwn, p1).moves == RayFrom(b, x, y, d, i, s, removeOwn, p2).moves
    decreases 8 - i
  {
    if i < 8 && OnBoard(Ahead(x, y, d, i)) && Orient(s, At(b, Ahead(x, y, d, i))) == 0 {
      RayFromMovesIgnorePins(b, x, y, d, i + 1, s, removeOwn, p1, p2);
    }
  }

  lemma {:induction false} RaycastMovesIgnorePins(b: Board, x: int, y: int, vectors: seq<Pos>, white: bool, removeOwn: bool, p1: seq<Pos>, p2: seq<Pos>)
    requires IsBoard(b)
    ensures Raycast(b, x, y, vectors, white, removeOwn, p1).moves == Raycast(b, x, y, vectors, white, removeOwn, p2).moves
    decreases |vectors|
  {
    if vectors != [] {
      var s := ColorOf(white).Sign();
      RayFromMovesIgnorePins(b, x, y, vectors[0], 1, s, removeOwn, p1, p2);
      RaycastMovesIgnorePins(b, x, y, vectors[1..], white, removeOwn,
                             RayFrom(b, x, y, vectors[0], 1, s, removeOwn, p1).pinned,
                             RayFrom(b, x, y, vectors[0], 1, s, removeOwn, p2).pinned);
    }
  }

  // -----------------------------------------------------------------------
  // remove_illegal (logic.py:303-447)

  /** The first `while` loop: drop vectors that leave the board, and, when
      `remove_own` is set, vectors onto a friendly piece. */
  function FilterOwn(b: Board, x: int, y: int, vectors: seq<Pos>, s: int, removeOwn: bool): (r: seq<Pos>)
    requires IsBoard(b)
    ensures forall m {:trigger m in r} {:trigger m in vectors} ::
              m in r <==> m in vectors && FirstFilter(b, x, y, s, removeOwn, m)
  {
    if vectors == [] then []
    else
      var q := Add(Pos(x, y), vectors[0]);
      var rest := FilterOwn(b, x, y, vectors[1..], s, removeOwn);
      if !OnBoard(q) then rest
      else if Orient(s, At(b, q)) > 0 && removeOwn then rest
      else [vectors[0]] + rest
  }

  /** The vector m from (x, y) stays on the board and, with `remove_own`,
      does not land on a piece of the mover's colour (sign s). */
  predicate FirstFilter(b: Board, x: int, y: int, s: int, removeOwn: bool, m: Pos)
    requires IsBoard(b)
  {
    OnBoard(Add(Pos(x, y), m)) && (removeOwn ==> Orient(s, At(b, Add(Pos(x, y), m))) <= 0)
  }

  /** Every element of `s` equal to `v` removed (`np.delete` at the indices of v). */
  function RemoveAll(s: seq<Pos>, v: Pos): (r: seq<Pos>)
    ensures forall m :: m in r <==> m in s && m != v
  {
    if s == [] then [] else (if s[0] == v then [] else [s[0]]) + RemoveAll(s[1..], v)
  }

  /** The last king loop: drop destinations in the attacked-square list. */
  function RemoveAttacked(x: int, y: int, vectors: seq<Pos>, enemy: set<Pos>): (r: seq<Pos>)
    ensures forall m {:trigger m in r} {:trigger m in vectors} :: m in r <==> m in vectors && Add(Pos(x, y), m) !in enemy
  {
    if vectors == [] then []
    else (if Add(Pos(x, y), vectors[0]) in enemy then [] else [vectors[0]]) + RemoveAttacked(x, y, vectors[1..], enemy)
  }

  const ShortCastle := Pos(0, 2)
  const LongCastle := Pos(0, -2)

  /** Row of a colour's back rank (rank 1 for white, rank 8 for black). */
  function HomeRow(white: bool): int { if white then 7 else 0 }

  function Sq(row: int, col: int): Pos { Pos(row, col) }

  /** `squares_in`: every listed square is in the attacked list. */
  predicate AllIn(targets: seq<Pos>, enemy: set<Pos>)
  {
    forall i :: 0 <= i < |targets| ==> targets[i] in enemy
  }

  /** When the long castle vector is dropped (logic.py:359-391). */
  predicate DropLong(c: Ctx, white: bool, inCheck: bool, enemy: set<Pos>)
    requires IsBoard(c.board)
  {
    var r := HomeRow(white);
    var kingMoved := if white then c.flags.whiteKingMoved else c.flags.blackKingMoved;
    var rookMoved := if white then c.flags.a1RookMoved else c.flags.a8RookMoved;
    inCheck || kingMoved || rookMoved
    || !AllEmpty(c.board, [Sq(r, 1), Sq(r, 2), Sq(r, 3)])
    || AllIn([Sq(r, 0), Sq(r, 1), Sq(r, 2), Sq(r, 3)], enemy)
  }

  /** When the short castle vector is dropped (logic.py:359-391). */
  predicate DropShort(c: Ctx, white: bool, inCheck: bool, enemy: set<Pos>)
    requires IsBoard(c.board)
  {
    var r := HomeRow(white);
    var kingMoved := if white then c.flags.whiteKingMoved else c.flags.blackKingMoved;
    var rookMoved := if white then c.flags.h1RookMoved else c.flags.h8RookMoved;
    inCheck || kingMoved || rookMoved
    || !AllEmpty(c.board, [Sq(r, 5), Sq(r, 6)])
    || AllIn([Sq(r, 5), Sq(r, 6), Sq(r, 7)], enemy)
  }

  /** The king branch of `remove_illegal` after the first filter. */
  function KingFilter(c: Ctx, x: int, y: int, vectors: seq<Pos>, inCheck: bool, white: bool, enemy: set<Pos>): (r: seq<Pos>)
    requires IsBoard(c.board)
    ensures forall m {:trigger m in r} {:trigger m in vectors} ::
              m in r <==> m in vectors && KingKeeps(c, x, y, inCheck, white, enemy, m)
  {
    var v1 := if DropLong(c, white, inCheck, enemy) then RemoveAll(vectors, LongCastle) else vectors;
    var v2 := if DropShort(c, white, inCheck, enemy) then RemoveAll(v1, ShortCastle) else v1;
    RemoveAttacked(x, y, v2, enemy)
  }

  /** `np.where(board == 6 * player_turn)` followed by `.item()`: exactly one
      king of that colour, or a crash. */
  function KingSquare(b: Board, white: bool): (r: Outcome<Pos>)
    requires IsBoard(b)
    ensures r.Ok? ==> HoldsKing(b, white, r.value) && forall q :: HoldsKing(b, white, q) ==> q == r.value
    ensures r.Crash? <==> (forall q :: !HoldsKing(b, white, q))
                          || exists q, q' :: HoldsKing(b, white, q) && HoldsKing(b, white, q') && q != q'
  {
    var ks := SearchFor(b, Piece(ColorOf(white), King));
    if |ks| == 1 then
      assert ks[0] in ks && HoldsKing(b, white, ks[0]);
      assert forall q :: HoldsKing(b, white, q) ==> q == ks[0] by {
        forall q | HoldsKing(b, white, q) ensures q == ks[0] {
          assert q in ks;
        }
      }
      Ok(ks[0])
    else if |ks| == 0 then Crash
    else
      assert ks[0] in ks && ks[1] in ks && ks[0] != ks[1];
      assert HoldsKing(b, white, ks[0]) && HoldsKing(b, white, ks[1]);
      Crash
  }

  /** The square holds the king of that colour. */
  predicate HoldsKing(b: Board, white: bool, q: Pos)
    requires IsBoard(b)
  {
    OnBoard(q) && At(b, q) == Code(Piece(ColorOf(white), King))
  }

  /** Keys of the cache, in the order they were inserted (board scan order),
      whose list holds `target`. */
  function AttackersFrom(m: Cache, target: Pos, k: int): (r: seq<Pos>)
    requires 0 <= k <= 64
    ensures forall a {:trigger a in r} :: a in r ==> a in m && target in m[a] && OnBoard(a)
    ensures forall j :: k <= j < 64 && ScanPos(j) in m && target in m[ScanPos(j)] ==> ScanPos(j) in r
    decreases 64 - k, target
  {
    if k == 64 then []
    else
      var p := ScanPos(k);
      var rest := AttackersFrom(m, target, k + 1);
      (if p in m && target in m[p] then [p] else []) + rest
  }

  /** The keys listed from scan index k on lie at index k or later. */
  lemma {:induction false} AttackersAfter(m: Cache, target: Pos, k: int)
    requires 0 <= k <= 64
    ensures forall a :: a in AttackersFrom(m, target, k) ==> OnBoard(a) && k <= ScanIndex(a)
    decreases 64 - k
  {
    if k < 64 {
      AttackersAfter(m, target, k + 1);
      assert ScanIndex(ScanPos(k)) == k;
    }
  }

  /** No key is listed twice. */
  lemma {:induction false} AttackersDistinct(m: Cache, target: Pos, k: int)
    requires 0 <= k <= 64
    ensures forall i, j :: 0 <= i < j < |AttackersFrom(m, target, k)| ==> AttackersFrom(m, target, k)[i] != AttackersFrom(m, target, k)[j]
    decreases 64 - k
  {
    if k < 64 {
      AttackersDistinct(m, target, k + 1);
      var p := ScanPos(k);
      var rest := AttackersFrom(m, target, k + 1);
      if p in m && target in m[p] {
        AttackersAfter(m, target, k + 1);
        assert ScanIndex(p) == k;
        assert AttackersFrom(m, target, k) == [p] + rest;
        ConsDistinct(p, rest);
      }
    }
  }

  /** Squares of a set in board scan order (the order Python happened to give
      the set of blocking squares is not modelled; see README). */
  function SetInScanOrder(s: set<Pos>, k: int): (r: seq<Pos>)
    requires 0 <= k <= 64
    ensures forall p {:trigger p in r} :: p in r ==> p in s && OnBoard(p)
    ensures forall j :: k <= j < 64 && ScanPos(j) in s ==> ScanPos(j) in r
    decreases 64 - k, s
  {
    if k == 64 then []
    else
      var p := ScanPos(k);
      var rest := SetInScanOrder(s, k + 1);
      (if p in s then [p] else []) + rest
  }

  function Destinations(from: Pos, vectors: seq<Pos>): set<Pos>
  {
    set m | m in vectors :: Add(from, m)
  }

  /** The `elif in_check` branch (logic.py:407-445): keep only the capture of
      the single checker, plus the squares of this piece's moves lying on a
      sliding checker's ray. A missing cache entry for the king (KeyError) and
      no checker at all (IndexError) are crashes; so are two or more checkers:
      the flat empty array returned then cannot be broadcast against the
      piece's square, neither in `allowed_movements` nor in the second
      `remove_illegal` a knight goes through. */
  function CheckFilter(c: Ctx, x: int, y: int, vectors: seq<Pos>, white: bool, pinned: seq<Pos>): (r: Outcome<Gen>)
    requires ValidCtx(c)
    ensures r.Ok? ==> KingSquare(c.board, white).Ok? && KingSquare(c.board, white).value in c.cache
                      && SoleChecker(c.cache, KingSquare(c.board, white).value).Some?
    ensures r.Ok? ==> forall m {:trigger m in r.value.moves} {:trigger m in vectors} ::
                        m in r.value.moves <==> (m in vectors
                          && Answers(c, x, y, SoleChecker(c.cache, KingSquare(c.board, white).value).value,
                                     KingSquare(c.board, white).value, white, m))
    ensures r.Crash? <==> KingSquare(c.board, white).Crash?
                          || KingSquare(c.board, white).value !in c.cache
                          || SoleChecker(c.cache, KingSquare(c.board, white).value).None?
                          || Unblockable(c, x, y, vectors, SoleChecker(c.cache, KingSquare(c.board, white).value).value,
                                         KingSquare(c.board, white).value, white)
  {
    match KingSquare(c.board, white)
    case Crash => Crash
    case Ok(kp) =>
      if kp !in c.cache then Crash
      else
        match SoleChecker(c.cache, kp)
        case None => Crash
        case Some(a) => Answer(c, x, y, vectors, a, kp, white, pinned)
  }

  /** The checker the source takes as `ataquers[0]` when the attackers list
      has exactly one entry: the one cache key whose list reaches `kp`. No
      such key, or two or more, is `None`. */
  function SoleChecker(m: Cache, kp: Pos): (r: Option<Pos>)
    requires ValidCache(m)
    ensures r.Some? ==> OnBoard(r.value) && r.value in m && kp in m[r.value]
                        && forall q {:trigger q in m} :: q in m && kp in m[q] ==> q == r.value
    ensures r.None? ==> forall a {:trigger a in m} :: a in m && kp in m[a] ==>
                          exists q {:trigger q in m} :: q in m && kp in m[q] && q != a
  {
    var attackers := AttackersFrom(m, kp, 0);
    if |attackers| == 1 then
      Sole(m, kp);
      Some(attackers[0])
    else
      NotSole(m, kp);
      None
  }

  /** Every key whose list reaches `kp` is listed. */
  lemma Listed(m: Cache, kp: Pos, q: Pos)
    requires ValidCache(m) && q in m && kp in m[q]
    ensures q in AttackersFrom(m, kp, 0)
  {
    assert ScanPos(ScanIndex(q)) == q;
  }

  /** A one-entry attackers list names the only key reaching `kp`. */
  lemma Sole(m: Cache, kp: Pos)
    requires ValidCache(m) && |AttackersFrom(m, kp, 0)| == 1
    ensures var a := AttackersFrom(m, kp, 0)[0];
            OnBoard(a) && a in m && kp in m[a] && forall q {:trigger q in m} :: q in m && kp in m[q] ==> q == a
  {
    var attackers := AttackersFrom(m, kp, 0);
    assert attackers[0] in attackers;
    forall q | q in m && kp in m[q] ensures q == attackers[0] {
      Listed(m, kp, q);
    }
  }

  /** An attackers list of any other length than one leaves every checker
      with a second one beside it. */
  lemma NotSole(m: Cache, kp: Pos)
    requires ValidCache(m) && |AttackersFrom(m, kp, 0)| != 1
    ensures forall a {:trigger a in m} :: a in m && kp in m[a] ==> exists q {:trigger q in m} :: q in m && kp in m[q] && q != a
  {
    var attackers := AttackersFrom(m, kp, 0);
    AttackersDistinct(m, kp, 0);
    forall a | a in m && kp in m[a] ensures exists q {:trigger q in m} :: q in m && kp in m[q] && q != a {
      Listed(m, kp, a);
      var q0, q1 := attackers[0], attackers[1];
      assert q0 in attackers && q1 in attackers && q0 != q1;
      if q0 == a {
        assert q1 in m && kp in m[q1];
      } else {
        assert q0 in m && kp in m[q0];
      }
    }
  }

  /** A queen, bishop or rook stands on `a`: a checker whose ray can be blocked. */
  predicate SlidingAt(b: Board, a: Pos)
    requires ValidBoard(b) && OnBoard(a)
  {
    WhatIn(b, a).Occupied? && IsRayPiece(WhatIn(b, a).piece.kind)
  }

  /** The vector m of the piece on (x, y) answers the check given from `a`
      to the king on `kp`: it captures the checker or, against a sliding
      checker, lands on the checker's ray toward the king. */
  predicate Answers(c: Ctx, x: int, y: int, a: Pos, kp: Pos, white: bool, m: Pos)
    requires ValidCtx(c) && OnBoard(a)
  {
    Add(Pos(x, y), m) == a || (SlidingAt(c.board, a) && Add(Pos(x, y), m) in CheckRay(c.board, a, kp, white))
  }

  /** The checker slides and no vector lands on its ray: `onray` is left
      with an empty intersection. */
  predicate Unblockable(c: Ctx, x: int, y: int, vectors: seq<Pos>, a: Pos, kp: Pos, white: bool)
    requires ValidCtx(c) && OnBoard(a)
  {
    SlidingAt(c.board, a)
    && forall m {:trigger m in vectors} :: m in vectors ==> Add(Pos(x, y), m) !in CheckRay(c.board, a, kp, white)
  }

  /** What survives the check filter: capturing the checker at `a`, or a
      square on its ray toward the king. */
  function Answer(c: Ctx, x: int, y: int, vectors: seq<Pos>, a: Pos, kp: Pos, white: bool, pinned: seq<Pos>): (r: Outcome<Gen>)
    requires ValidCtx(c) && OnBoard(a)
    ensures r.Crash? <==> Unblockable(c, x, y, vectors, a, kp, white)
    ensures r.Ok? ==> forall m {:trigger m in r.value.moves} {:trigger m in vectors} ::
                        m in r.value.moves <==> m in vectors && Answers(c, x, y, a, kp, white, m)
  {
    var kept := KeepTarget(x, y, vectors, a);
    match OnRay(c, x, y, vectors, a, kp, white, pinned)
    case Crash => Crash
    case Ok(g) => Ok(Gen(kept + g.moves, g.pinned))
  }

  /** `onray`: for a queen, bishop or rook checker at `a`, the vectors of this
      piece landing on the checker's ray toward the king at `kp` (cast with the
      defender's colour). No such vector is a crash: numpy cannot broadcast
      the empty intersection against the origin. */
  function OnRay(c: Ctx, x: int, y: int, vectors: seq<Pos>, a: Pos, kp: Pos, white: bool, pinned: seq<Pos>): (r: Outcome<Gen>)
    requires ValidCtx(c) && OnBoard(a)
    ensures r.Crash? <==> Unblockable(c, x, y, vectors, a, kp, white)
    ensures r.Ok? ==> forall m {:trigger m in r.value.moves} {:trigger m in vectors} ::
                        m in r.value.moves <==> m in vectors && SlidingAt(c.board, a)
                                                && Add(Pos(x, y), m) in CheckRay(c.board, a, kp, white)
  {
    if SlidingAt(c.board, a) then
      var dir := Pos(Sign(kp.x - a.x), Sign(kp.y - a.y));
      var ray := Raycast(c.board, a.x, a.y, [dir], white, true, pinned);
      RaycastMovesIgnorePins(c.board, a.x, a.y, [dir], white, true, pinned, []);
      var onRay := CheckRay(c.board, a, kp, white);
      var inter := Destinations(Pos(x, y), vectors) * onRay;
      var squares := SetInScanOrder(inter, 0);
      ShiftScan(Pos(x, y), vectors, onRay, inter, squares);
      if inter == {} then Crash
      else Ok(Gen(Shift(squares, Pos(x, y)), ray.pinned))
    else Ok(Gen([], pinned))
  }

  /** The squares a sliding checker at `a` sees toward the king at `kp`,
      cast with the defender's colour. */
  function CheckRay(b: Board, a: Pos, kp: Pos, white: bool): (r: set<Pos>)
    requires IsBoard(b)
    ensures forall q :: q in r ==> OnBoard(q)
  {
    Destinations(a, Raycast(b, a.x, a.y, [Pos(Sign(kp.x - a.x), Sign(kp.y - a.y))], white, true, []).moves)
  }

  /** The vectors of `vectors` whose destination is `a`. */
  function KeepTarget(x: int, y: int, vectors: seq<Pos>, a: Pos): (r: seq<Pos>)
    ensures forall m :: m in r <==> m in vectors && Add(Pos(x, y), m) == a
  {
    if vectors == [] then []
    else (if Add(Pos(x, y), vectors[0]) == a then [vectors[0]] else []) + KeepTarget(x, y, vectors[1..], a)
  }

  /** The squares among `ray` that the vectors reach from `from`, listed in
      scan order and turned back into vectors, are exactly the vectors that
      land on `ray`; there are none exactly when no vector lands there. */
  lemma ShiftScan(from: Pos, vectors: seq<Pos>, ray: set<Pos>, inter: set<Pos>, squares: seq<Pos>)
    requires forall q :: q in ray ==> OnBoard(q)
    requires inter == Destinations(from, vectors) * ray && squares == SetInScanOrder(inter, 0)
    ensures inter == {} <==> forall m {:trigger m in vectors} :: m in vectors ==> Add(from, m) !in ray
    ensures forall m {:trigger m in Shift(squares, from)} {:trigger m in vectors} ::
              m in Shift(squares, from) <==> m in vectors && Add(from, m) in ray
  {
    ShiftScanEmpty(from, vectors, ray, inter);
    ShiftScanExact(from, vectors, ray, inter, squares);
  }

  lemma ShiftScanEmpty(from: Pos, vectors: seq<Pos>, ray: set<Pos>, inter: set<Pos>)
    requires inter == Destinations(from, vectors) * ray
    ensures inter == {} <==> forall m {:trigger m in vectors} :: m in vectors ==> Add(from, m) !in ray
  {
    if inter != {} {
      var q :| q in inter;
      var m :| m in vectors && Add(from, m) == q;
    } else {
      forall m | m in vectors ensures Add(from, m) !in ray {
        assert Add(from, m) in Destinations(from, vectors) && Add(from, m) !in inter;
      }
    }
  }

  lemma ShiftScanExact(from: Pos, vectors: seq<Pos>, ray: set<Pos>, inter: set<Pos>, squares: seq<Pos>)
    requires forall q :: q in ray ==> OnBoard(q)
    requires inter == Destinations(from, vectors) * ray && squares == SetInScanOrder(inter, 0)
    ensures forall m {:trigger m in Shift(squares, from)} {:trigger m in vectors} ::
              m in Shift(squares, from) <==> m in vectors && Add(from, m) in ray
  {
    var moves := Shift(squares, from);
    forall m | m in moves ensures m in vectors && Add(from, m) in ray {
      var i :| 0 <= i < |moves| && moves[i] == m;
      assert squares[i] in squares;
      var m' :| m' in vectors && Add(from, m') == squares[i];
      assert m == m';
    }
    forall m | m in vectors && Add(from, m) in ray ensures m in moves {
      var q := Add(from, m);
      assert q in Destinations(from, vectors);
      assert q in inter && ScanPos(ScanIndex(q)) == q;
      assert q in squares;
      var i :| 0 <= i < |squares| && squares[i] == q;
      assert moves[i] == m;
    }
  }

  /** Vectors turned into the squares they reach from `p`. */
  lemma ShiftLands(moves: seq<Pos>, p: Pos, back: Pos)
    requires back == Pos(-p.x, -p.y)
    requires forall m :: m in moves ==> Target(Add(p, m))
    ensures forall i :: 0 <= i < |moves| ==> Target(Shift(moves, back)[i])
    ensures LandsFrom(Shift(moves, back), p, moves)
  {
    var r := Shift(moves, back);
    forall i | 0 <= i < |moves| ensures Target(r[i]) {
      assert moves[i] in moves;
      assert r[i] == Add(p, moves[i]);
    }
  }

  /** Squares turned back into vectors from `from`. */
  function Shift(squares: seq<Pos>, from: Pos): (r: seq<Pos>)
    ensures |r| == |squares|
    ensures forall i :: 0 <= i < |r| ==> r[i] == Sub(squares[i], from)
  {
    if squares == [] then [] else [Sub(squares[0], from)] + Shift(squares[1..], from)
  }

  /** `remove_illegal`: the first filter, then, with `remove_own`, the
      king drops attacked squares and blocked castling, and any other piece
      of a side in check keeps only its answers to the check. */
  function RemoveIllegal(c: Ctx, x: int, y: int, vectors: seq<Pos>, inCheck: bool, white: bool,
                         isKing: bool, removeOwn: bool, pinned: seq<Pos>): (r: Outcome<Gen>)
    requires ValidCtx(c)
    ensures r.Ok? ==> forall m :: m in r.value.moves ==> OnBoard(Add(Pos(x, y), m))
    ensures !removeOwn ==> r.Ok? && r.value.pinned == pinned
                           && forall m {:trigger m in r.value.moves} {:trigger m in vectors} ::
                                m in r.value.moves <==> m in vectors && OnBoard(Add(Pos(x, y), m))
    ensures removeOwn && EnemyAttack(c, white, pinned).Crash? ==> r.Crash?
    ensures removeOwn && EnemyAttack(c, white, pinned).Ok? && (isKing || !inCheck) ==>
              r.Ok? && forall m {:trigger m in r.value.moves} {:trigger m in vectors} ::
                m in r.value.moves <==> (m in vectors && FirstFilter(c.board, x, y, ColorOf(white).Sign(), true, m)
                  && (isKing ==> KingKeeps(c, x, y, inCheck, white, EnemyAttack(c, white, pinned).value.squares, m)))
    ensures removeOwn && !isKing && inCheck && r.Ok? ==>
              KingSquare(c.board, white).Ok? && KingSquare(c.board, white).value in c.cache
              && SoleChecker(c.cache, KingSquare(c.board, white).value).Some?
              && var kp := KingSquare(c.board, white).value;
              forall m {:trigger m in r.value.moves} {:trigger m in vectors} ::
                   m in r.value.moves <==> (m in vectors && FirstFilter(c.board, x, y, ColorOf(white).Sign(), true, m)
                                            && Answers(c, x, y, SoleChecker(c.cache, kp).value, kp, white, m))
    decreases if removeOwn then 1 else 0, 1, 0, c
  {
    var v1 := FilterOwn(c.board, x, y, vectors, ColorOf(white).Sign(), removeOwn);
    if !removeOwn then Ok(Gen(v1, pinned))
    else
      var att := EnemyAttack(c, white, pinned);
      if att.Crash? then Crash
      else
        var enemy, p1 := att.value.squares, att.value.pinned;
        if isKing then Ok(Gen(KingFilter(c, x, y, v1, inCheck, white, enemy), p1))
        else if inCheck then CheckFilter(c, x, y, v1, white, p1)
        else Ok(Gen(v1, p1))
  }

  /** The king keeps a vector whose square is not attacked, and a castle
      vector only when that castle is not blocked. */
  predicate KingKeeps(c: Ctx, x: int, y: int, inCheck: bool, white: bool, enemy: set<Pos>, m: Pos)
    requires IsBoard(c.board)
  {
    Add(Pos(x, y), m) !in enemy
    && (m == LongCastle ==> !DropLong(c, white, inCheck, enemy))
    && (m == ShortCastle ==> !DropShort(c, white, inCheck, enemy))
  }

  /** The opponent's attacked squares as `remove_illegal` takes them: none
      while the engine is initialising. */
  function EnemyAttack(c: Ctx, white: bool, pinned: seq<Pos>): Outcome<Attack>
    requires ValidCtx(c)
    decreases 0, 7, 0
  {
    if c.initializing then Ok(Attack({}, pinned)) else Attacked(c, !white, pinned)
  }

  // -----------------------------------------------------------------------
  // allowed_movements (logic.py:159-257)

  const KingVectors: seq<Pos> := [Pos(1, 0), Pos(1, 1), Pos(0, 1), Pos(-1, 1), Pos(-1, 0),
                                  Pos(-1, -1), Pos(0, -1), Pos(1, -1), Pos(0, 2), Pos(0, -2)]
  const KnightVectors: seq<Pos> := [Pos(2, 1), Pos(1, 2), Pos(-1, 2), Pos(-2, 1),
                                    Pos(-2, -1), Pos(-1, -2), Pos(1, -2), Pos(2, -1)]

  /** The direction a pawn advances in: towards row 0 (rank 8) for white. */
  function Forward(white: bool): int { if white then -1 else 1 }

  /** The row of a pawn's second rank, from which it may advance two squares. */
  function StartRow(white: bool): int { if white then 6 else 1 }

  /** The row of a pawn's fifth rank, on which it may capture en passant. */
  function PassantRow(white: bool): int { if white then 3 else 4 }

  /** Where a pawn of that colour may stand without reading past the board. */
  predicate PawnSquare(x: int, y: int, white: bool)
  {
    OnBoard(Pos(x, y)) && (!white ==> x + 1 < 8)
  }

  /** The last mover was a pawn that landed on row x, in column y + dy. */
  predicate PassedBeside(last: LastTurn, x: int, y: int, dy: int)
  {
    last.Moved? && last.piece.kind == Pawn && last.to.x == x && last.to.y - y == dy
  }

  /** One step ahead to an empty square, or the null vector when that square is occupied. */
  predicate StepVector(b: Board, x: int, y: int, white: bool, m: Pos)
    requires IsBoard(b) && PawnSquare(x, y, white)
  {
    var free := At(b, Pos(x + Forward(white), y)) == 0;
    (m == Pos(Forward(white), 0) && free) || (m == Pos(0, 0) && !free)
  }

  /** Two steps ahead from the second rank onto an empty square; the square
      in between is not looked at. */
  predicate DoubleVector(b: Board, x: int, y: int, white: bool, m: Pos)
    requires IsBoard(b) && PawnSquare(x, y, white)
  {
    m == Pos(2 * Forward(white), 0) && x == StartRow(white) && At(b, Pos(x + 2 * Forward(white), y)) == 0
  }

  /** A diagonal step onto an enemy piece. */
  predicate CaptureVector(b: Board, x: int, y: int, white: bool, m: Pos)
    requires IsBoard(b) && PawnSquare(x, y, white)
  {
    m.x == Forward(white) && (m.y == 1 || m.y == -1) && 0 <= y + m.y < 8 && 0 <= x + m.x
    && Orient(ColorOf(white).Sign(), At(b, Pos(x + m.x, y + m.y))) < 0
  }

  /** A diagonal step beside the pawn that has just landed on row x. */
  predicate PassantVector(last: LastTurn, x: int, y: int, white: bool, m: Pos)
  {
    m.x == Forward(white) && (m.y == 1 || m.y == -1) && PassedBeside(last, x, y, m.y)
  }

  /** The vectors of the pawn branch; en passant only on the fifth rank. */
  predicate PawnVector(c: Ctx, x: int, y: int, white: bool, m: Pos)
    requires IsBoard(c.board) && PawnSquare(x, y, white)
  {
    StepVector(c.board, x, y, white, m) || DoubleVector(c.board, x, y, white, m)
    || CaptureVector(c.board, x, y, white, m)
    || (x == PassantRow(white) && PassantVector(c.last, x, y, white, m))
  }

  function PawnStep(b: Board, x: int, y: int, white: bool): (r: seq<Pos>)
    requires IsBoard(b) && PawnSquare(x, y, white)
    ensures forall m {:trigger m in r} :: m in r <==> StepVector(b, x, y, white, m)
    ensures forall m :: m in r ==> Target(Add(Pos(x, y), m))
  {
    if At(b, Pos(x + Forward(white), y)) == 0 then [Pos(Forward(white), 0)] else [Pos(0, 0)]
  }

  function DoubleStep(b: Board, x: int, y: int, white: bool): (r: seq<Pos>)
    requires IsBoard(b) && PawnSquare(x, y, white)
    ensures forall m {:trigger m in r} :: m in r <==> DoubleVector(b, x, y, white, m)
    ensures forall m :: m in r ==> Target(Add(Pos(x, y), m))
  {
    if x == StartRow(white) && At(b, Pos(x + 2 * Forward(white), y)) == 0 then [Pos(2 * Forward(white), 0)] else []
  }

  function Capture(b: Board, x: int, y: int, white: bool, dy: int): (r: seq<Pos>)
    requires IsBoard(b) && PawnSquare(x, y, white) && (dy == 1 || dy == -1)
    ensures forall m {:trigger m in r} :: m in r <==> CaptureVector(b, x, y, white, m) && m.y == dy
    ensures forall m :: m in r ==> Target(Add(Pos(x, y), m))
  {
    var f := Forward(white);
    if 0 <= y + dy < 8 && 0 <= x + f && Orient(ColorOf(white).Sign(), At(b, Pos(x + f, y + dy))) < 0
    then [Pos(f, dy)] else []
  }

  /** En passant vector of a pawn on its fifth rank: the last mover was a pawn
      that landed beside it on the same row (the source does not look at where
      that pawn came from). Unpacking the empty `last_turn` of `clear_board`
      (ValueError) or the `None` square of a fresh engine (TypeError) crashes. */
  function EnPassant(last: LastTurn, y: int, row: int, white: bool): (r: Outcome<seq<Pos>>)
    ensures r.Crash? <==> !last.Moved?
    ensures r.Ok? ==> forall m {:trigger m in r.value} :: m in r.value <==> PassantVector(last, row, y, white, m)
    ensures r.Ok? ==> |r.value| <= 1
  {
    match last
    case Cleared => Crash
    case NoMove => Crash
    case Moved(pc, _, to) =>
      if pc.kind == Pawn && to.x == row && Abs(y - to.y) == 1 then Ok([Pos(Forward(white), to.y - y)]) else Ok([])
  }

  /** The pawn branch (logic.py:203-240). A blocked pawn gets the null vector;
      the double step looks only at the destination square; a black pawn on
      row 7 reads past the board (IndexError); a white pawn on row 0 reads
      row -1, which numpy takes as row 7. On its fifth rank a pawn unpacks
      `last_turn`, which fails before any move was made. */
  function PawnMoves(c: Ctx, x: int, y: int, white: bool): (r: Outcome<seq<Pos>>)
    requires ValidCtx(c) && OnBoard(Pos(x, y))
    ensures r.Crash? <==> (!white && x + 1 >= 8) || (x == PassantRow(white) && !c.last.Moved?)
    ensures r.Ok? ==> forall m :: m in r.value ==> Target(Add(Pos(x, y), m))
    ensures r.Ok? ==> forall m {:trigger m in r.value} :: m in r.value <==> PawnVector(c, x, y, white, m)
    ensures r.Ok? ==> |r.value| > 0 && StepVector(c.board, x, y, white, r.value[0])
  {
    if !white && x + 1 >= 8 then Crash
    else PawnRun(c, x, y, white)
  }

  /** The pawn branch for either colour, not reading past the board: the
      step (or null vector) first, then the double step, the captures
      towards column y + 1 and y - 1, and en passant on the fifth rank.
      The source writes the two colours out separately, with -1 and 1 for
      the forward direction, 6 and 1 for the start row and 3 and 4 for the
      fifth rank. */
  function PawnRun(c: Ctx, x: int, y: int, white: bool): (r: Outcome<seq<Pos>>)
    requires ValidCtx(c) && PawnSquare(x, y, white)
    ensures r.Crash? <==> x == PassantRow(white) && !c.last.Moved?
    ensures r.Ok? ==> forall m :: m in r.value ==> Target(Add(Pos(x, y), m))
    ensures r.Ok? ==> forall m {:trigger m in r.value} :: m in r.value <==> PawnVector(c, x, y, white, m)
    ensures r.Ok? ==> |r.value| > 0 && StepVector(c.board, x, y, white, r.value[0])
  {
    var b := c.board;
    var step := PawnStep(b, x, y, white);
    var base := step + DoubleStep(b, x, y, white) + Capture(b, x, y, white, 1) + Capture(b, x, y, white, -1);
    assert base[0] == step[0] && step[0] in step;
    if x == PassantRow(white) then Cat(Ok(base), EnPassant(c.last, y, x, white)) else Ok(base)
  }

  function Cat<T>(a: Outcome<seq<T>>, b: Outcome<seq<T>>): Outcome<seq<T>>
  {
    if a.Ok? && b.Ok? then Ok(a.value + b.value) else Crash
  }

  /** The fixed vectors of a king or a knight (logic.py:191, 199). */
  function JumpVectors(k: Kind): seq<Pos>
  {
    if k == King then KingVectors else KnightVectors
  }

  /** The raycast directions of a queen, bishop or rook (logic.py:194-202). */
  function RayVectors(k: Kind): seq<Pos>
  {
    match k
    case Queen => LineVectors + DiagonalVectors
    case Bishop => DiagonalVectors
    case _ => LineVectors
  }

  /** The per-kind raw vectors, before the in-check filter; SliderVectors,
      JumpVectorsKept and PawnVectorsKept below say what each kind gets. */
  function PieceVectors(c: Ctx, pc: Piece, p: Pos, inCheck: bool, removeOwn: bool, pinned: seq<Pos>): (r: Outcome<Gen>)
    requires ValidCtx(c) && OnBoard(p)
    ensures r.Ok? ==> forall m :: m in r.value.moves ==> Target(Add(p, m))
    decreases if removeOwn then 1 else 0, 2, 0, c
  {
    var white := pc.color == White;
    match pc.kind
    case King => RemoveIllegal(c, p.x, p.y, KingVectors, inCheck, white, true, removeOwn, pinned)
    case Queen => Ok(Raycast(c.board, p.x, p.y, LineVectors + DiagonalVectors, white, removeOwn, pinned))
    case Bishop => Ok(Raycast(c.board, p.x, p.y, DiagonalVectors, white, removeOwn, pinned))
    case Knight => RemoveIllegal(c, p.x, p.y, KnightVectors, inCheck, white, false, removeOwn, pinned)
    case Rook => Ok(Raycast(c.board, p.x, p.y, LineVectors, white, removeOwn, pinned))
    case Pawn =>
      match PawnMoves(c, p.x, p.y, white)
      case Crash => Crash
      case Ok(ms) => Ok(Gen(ms, pinned))
  }

  /** A queen, bishop or rook never fails, and moves some steps along its directions. */
  lemma SliderVectors(c: Ctx, pc: Piece, p: Pos, inCheck: bool, removeOwn: bool, pinned: seq<Pos>)
    requires ValidCtx(c) && OnBoard(p) && IsRayPiece(pc.kind)
    ensures var r := PieceVectors(c, pc, p, inCheck, removeOwn, pinned);
            r.Ok? && forall m :: m in r.value.moves ==> OnBoard(Add(p, m)) && RayOffset(RayVectors(pc.kind), m)
  {
  }

  /** A king or a knight keeps some of its fixed vectors: all that land on the
      board when own pieces are kept; otherwise those `remove_illegal` keeps
      (the check-answer filter of a knight in check is RemoveIllegal's). */
  lemma JumpVectorsKept(c: Ctx, pc: Piece, p: Pos, inCheck: bool, removeOwn: bool, pinned: seq<Pos>)
    requires ValidCtx(c) && OnBoard(p) && (pc.kind == King || pc.kind == Knight)
    ensures var r := PieceVectors(c, pc, p, inCheck, removeOwn, pinned);
            r.Ok? ==> forall m :: m in r.value.moves ==> m in JumpVectors(pc.kind) && OnBoard(Add(p, m))
    ensures var r := PieceVectors(c, pc, p, inCheck, removeOwn, pinned);
            !removeOwn ==> r.Ok? && forall m {:trigger m in r.value.moves} ::
                             m in r.value.moves <==> m in JumpVectors(pc.kind) && OnBoard(Add(p, m))
    ensures removeOwn && EnemyAttack(c, pc.color == White, pinned).Crash? ==>
              PieceVectors(c, pc, p, inCheck, removeOwn, pinned).Crash?
    ensures var r := PieceVectors(c, pc, p, inCheck, removeOwn, pinned);
            var att := EnemyAttack(c, pc.color == White, pinned);
            pc.kind == King && removeOwn && att.Ok? ==>
              r.Ok? && forall m {:trigger m in r.value.moves} ::
                m in r.value.moves <==> (m in KingVectors && FirstFilter(c.board, p.x, p.y, ColorOf(pc.color == White).Sign(), true, m)
                  && KingKeeps(c, p.x, p.y, inCheck, pc.color == White, att.value.squares, m))
    ensures var r := PieceVectors(c, pc, p, inCheck, removeOwn, pinned);
            pc.kind == Knight && removeOwn && !inCheck && EnemyAttack(c, pc.color == White, pinned).Ok? ==>
              r.Ok? && forall m {:trigger m in r.value.moves} ::
                m in r.value.moves <==> (m in KnightVectors && FirstFilter(c.board, p.x, p.y, ColorOf(pc.color == White).Sign(), true, m))
  {
  }

  /** A pawn gets the vectors of the pawn branch, and fails exactly where that branch does. */
  lemma PawnVectorsKept(c: Ctx, pc: Piece, p: Pos, inCheck: bool, removeOwn: bool, pinned: seq<Pos>)
    requires ValidCtx(c) && OnBoard(p) && pc.kind == Pawn
    ensures var r := PieceVectors(c, pc, p, inCheck, removeOwn, pinned);
            r.Crash? <==> (pc.color == Black && p.x + 1 >= 8) || (p.x == PassantRow(pc.color == White) && !c.last.Moved?)
    ensures var r := PieceVectors(c, pc, p, inCheck, removeOwn, pinned);
            r.Ok? ==> r.value.pinned == pinned && PawnSquare(p.x, p.y, pc.color == White)
                      && forall m {:trigger m in r.value.moves} :: m in r.value.moves <==> PawnVector(c, p.x, p.y, pc.color == White, m)
  {
  }

  /** The squares are p moved by the vectors, one for one and in order. */
  predicate LandsFrom(squares: seq<Pos>, p: Pos, vectors: seq<Pos>)
  {
    |squares| == |vectors| && forall i :: 0 <= i < |squares| ==> squares[i] == Add(p, vectors[i])
  }

  /** `allowed_movements`: destination squares of the piece `pc` standing on
      `p` (the caller's claim; the board is not consulted for it). */
  function Allowed(c: Ctx, pc: Piece, p: Pos, inCheck: bool, restrictTurn: bool, removeOwn: bool, pinned: seq<Pos>): (r: Outcome<Gen>)
    requires ValidCtx(c) && OnBoard(p)
    ensures r.Ok? ==> forall i :: 0 <= i < |r.value.moves| ==> Target(r.value.moves[i])
    ensures restrictTurn && (pc.color == White) != c.whiteTurn ==> r == Ok(Gen([], pinned))
    ensures !(restrictTurn && (pc.color == White) != c.whiteTurn) && (!inCheck || pc.kind == King) ==>
              var v := PieceVectors(c, pc, p, inCheck, removeOwn, pinned);
              (r.Crash? <==> v.Crash?) && (r.Ok? ==> r.value.pinned == v.value.pinned && LandsFrom(r.value.moves, p, v.value.moves))
    ensures !(restrictTurn && (pc.color == White) != c.whiteTurn) && inCheck && pc.kind != King ==>
              var v := PieceVectors(c, pc, p, inCheck, removeOwn, pinned);
              (v.Crash? ==> r.Crash?)
              && (v.Ok? ==> var f := RemoveIllegal(c, p.x, p.y, v.value.moves, inCheck, pc.color == White, false, removeOwn, v.value.pinned);
                            (r.Crash? <==> f.Crash?) && (r.Ok? ==> r.value.pinned == f.value.pinned && LandsFrom(r.value.moves, p, f.value.moves)))
    decreases if removeOwn then 1 else 0, 3, 0, c
  {
    var white := pc.color == White;
    if restrictTurn && white != c.whiteTurn then Ok(Gen([], pinned))
    else
      match PieceVectors(c, pc, p, inCheck, removeOwn, pinned)
      case Crash => Crash
      case Ok(g) =>
        var filtered := if inCheck && pc.kind != King
                        then RemoveIllegal(c, p.x, p.y, g.moves, inCheck, white, false, removeOwn, g.pinned)
                        else Ok(g);
        match filtered
        case Crash => Crash
        case Ok(g2) =>
          var squares := Shift(g2.moves, Pos(-p.x, -p.y));
          ShiftLands(g2.moves, p, Pos(-p.x, -p.y));
          Ok(Gen(squares, g2.pinned))
  }

  // -----------------------------------------------------------------------
  // calculate_possible_moves and assess_ataqued_squares (logic.py:488-551)

  datatype Computed = Computed(moves: Cache, pinned: seq<Pos>)

  /** One square of the nested loops, the k-th in scan order: the
      destinations of the piece standing there are stored when there are any. */
  function Visit(c: Ctx, inCheck: bool, removeOwn: bool, k: int, acc: Cache, pinned: seq<Pos>): (r: Outcome<Computed>)
    requires ValidCtx(c) && 0 <= k < 64 && ValidCache(acc)
    ensures r.Ok? ==> ValidCache(r.value.moves)
    decreases if removeOwn then 1 else 0, 4, 0, c
  {
    var p := ScanPos(k);
    var v := At(c.board, p);
    if v == 0 then Ok(Computed(acc, pinned))
    else
      CodeDecode(v);
      match Allowed(c, Decode(v).value, p, inCheck, false, removeOwn, pinned)
      case Crash => Crash
      case Ok(g) => Ok(Computed(if |g.moves| > 0 then acc[p := g.moves] else acc, g.pinned))
  }

  /** The nested loops over the board from scan index k on. */
  function CalcFrom(c: Ctx, inCheck: bool, removeOwn: bool, k: int, acc: Cache, pinned: seq<Pos>): (r: Outcome<Computed>)
    requires ValidCtx(c) && 0 <= k <= 64 && ValidCache(acc)
    ensures r.Ok? ==> ValidCache(r.value.moves)
    decreases if removeOwn then 1 else 0, 4, 65 - k, c
  {
    if k == 64 then Ok(Computed(acc, pinned))
    else
      match Visit(c, inCheck, removeOwn, k, acc, pinned)
      case Crash => Crash
      case Ok(n) => CalcFrom(c, inCheck, removeOwn, k + 1, n.moves, n.pinned)
  }

  /** `calculate_possible_moves`: then every key in the pinned list is dropped. */
  function Calc(c: Ctx, inCheck: bool, removeOwn: bool, pinned: seq<Pos>): (r: Outcome<Computed>)
    requires ValidCtx(c)
    ensures r.Ok? ==> ValidCache(r.value.moves)
    ensures r.Ok? ==> forall k :: k in r.value.moves ==> k !in r.value.pinned
    decreases if removeOwn then 1 else 0, 5, 0, c
  {
    match CalcFrom(c, inCheck, removeOwn, 0, map[], pinned)
    case Crash => Crash
    case Ok(Computed(m, p)) => Ok(Computed(map k | k in m && k !in p :: m[k], p))
  }

  datatype Attack = Attack(squares: set<Pos>, pinned: seq<Pos>)

  /** `assess_ataqued_squares`: every destination, in attacked-squares mode,
      of the pieces of the given colour (the list is used only for membership). */
  function Attacked(c: Ctx, white: bool, pinned: seq<Pos>): (r: Outcome<Attack>)
    requires ValidCtx(c)
    ensures r.Ok? ==> forall q :: q in r.value.squares ==> Target(q)
    ensures r.Crash? <==> Calc(c, false, false, pinned).Crash?
    ensures r.Ok? ==> var m := Calc(c, false, false, pinned).value.moves;
              forall q :: q in r.value.squares <==>
                exists k :: k in m && Orient(ColorOf(white).Sign(), At(c.board, k)) > 0 && q in m[k]
    decreases 0, 6, 0
  {
    match Calc(c, false, false, pinned)
    case Crash => Crash
    case Ok(Computed(m, p)) => Ok(Attack(AttackedBy(c.board, m, white), p))
  }

  function AttackedBy(b: Board, m: Cache, white: bool): (r: set<Pos>)
    requires IsBoard(b)
    ensures forall k, i {:trigger m[k][i]} :: k in m && Indexable(k) && Orient(ColorOf(white).Sign(), At(b, k)) > 0 && 0 <= i < |m[k]| ==> m[k][i] in r
    ensures forall q :: q in r ==> exists k :: k in m && Indexable(k) && Orient(ColorOf(white).Sign(), At(b, k)) > 0 && q in m[k]
    ensures ValidCache(m) ==> forall q :: q in r ==> Target(q)
  {
    set k, i | k in m && Indexable(k) && 0 <= i < |m[k]| && Orient(ColorOf(white).Sign(), At(b, k)) > 0 :: m[k][i]
  }

  // -----------------------------------------------------------------------
  // assess_king_status (logic.py:449-486)

  datatype Status = Status(danger: int, pinned: seq<Pos>)

  /** Some cached list of moves reaches the square: the king standing there is in check. */
  predicate Reached(m: Cache, kp: Pos)
  {
    exists k :: k in m && kp in m[k]
  }

  /** 0: no check; 1: check; 2: the king has no move while in check. Only
      the king's own moves are consulted (`friendly_help` stays empty). */
  function KingStatus(c: Ctx, white: bool, restrictTurn: bool, pinned: seq<Pos>): (r: Outcome<Status>)
    requires ValidCtx(c)
    ensures r.Ok? ==> 0 <= r.value.danger <= 2
    ensures KingSquare(c.board, white).Crash? ==> r.Crash?
    ensures KingSquare(c.board, white).Ok? ==>
              var kp := KingSquare(c.board, white).value;
              var g := Allowed(c, Piece(ColorOf(white), King), kp, true, restrictTurn, true, pinned);
              (r.Ok? && r.value.danger == 0 <==> !Reached(c.cache, kp))
              && (!Reached(c.cache, kp) ==> r.Ok? && r.value.pinned == pinned)
              && (r.Ok? && r.value.danger == 1 <==> Reached(c.cache, kp) && g.Ok? && g.value.moves != [])
              && (r.Ok? && r.value.danger == 2 <==> Reached(c.cache, kp) && g.Ok? && g.value.moves == [])
              && (r.Crash? <==> Reached(c.cache, kp) && g.Crash?)
  {
    match KingSquare(c.board, white)
    case Crash => Crash
    case Ok(kp) =>
      if !Reached(c.cache, kp) then Ok(Status(0, pinned))
      else
        match Allowed(c, Piece(ColorOf(white), King), kp, true, restrictTurn, true, pinned)
        case Crash => Crash
        case Ok(g) => Ok(Status(if |g.moves| == 0 then 2 else 1, g.pinned))
  }
}
